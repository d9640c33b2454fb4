/**
 * The control logic of neural_sp/bin/asr/eval.py: merging the training
 * configuration into the command-line namespace, building the model (and the
 * shallow-fusion LM) once on the first evaluation set, dispatching each set to one
 * of four scorers, and reporting the means. File reads, the model itself and the
 * scorers are the opaque functions of an `Env`.
 */
module EvalAsr {
  import opened Wrappers
  import opened Text
  import LoaderAsr
  import RnnLmSeq

  /** An attribute value of an `argparse.Namespace` or a configuration file. */
  datatype Value = Str(s: string) | Int(i: int) | Real(r: real) | Bool(b: bool) | NoneValue | StrList(items: seq<string>)

  /** Python truthiness. */
  predicate Truthy(v: Value)
  {
    match v
    case Str(s) => s != ""
    case Int(i) => i != 0
    case Real(r) => r != 0.0
    case Bool(b) => b
    case NoneValue => false
    case StrList(items) => items != []
  }

  datatype EvalError =
    | MissingAttribute(name: string)          // AttributeError
    | BadAttribute(name: string)              // a value the code cannot use (a TypeError)
    | DatasetFailed(cause: LoaderAsr.LoaderError)
    | LmUnitMismatch(unit: string, lmUnit: Value)  // the assertion on the LM's unit
    | LmFailed(lmCause: RnnLmSeq.LmError)
    | RecogUnitNotIterable                    // `'char' in recog_unit` with recog_unit False or None
    | UnsupportedUnit(unit: string)           // the final ValueError of the dispatch
    | ZeroDivision                            // a mean over no evaluation sets

  // ---------------------------------------------------------------------------
  // The command line and the configuration merge.

  /** The parsed command line; arguments without a default are `None` when absent. */
  datatype CliArgs = CliArgs(
    model: Option<string>,
    modelBwd: Option<string>,
    epoch: int,
    decodeDir: Option<string>,
    evalSets: Option<seq<string>>,
    batchSize: int,
    beamWidth: int,
    maxLenRatio: real,
    minLenRatio: real,
    lengthPenalty: real,
    coveragePenalty: real,
    coverageThreshold: real,
    rnnlmWeight: real,
    rnnlm: Option<string>,
    rnnlmBwd: Option<string>,
    resolvingUnk: bool,
    fwdBwdAttention: bool,
    recogUnit: Option<string>)

  function OptStr(o: Option<string>): Value
  {
    if o.None? then NoneValue else Str(o.value)
  }

  /** The namespace `parse_args` returns: every declared argument is an attribute. `recog_unit` defaults to False. */
  function CliNamespace(cli: CliArgs): (m: map<string, Value>)
    ensures "model" in m && "eval_sets" in m && "rnnlm_weight" in m && "recog_unit" in m && "epoch" in m
  {
    map[
      "model" := OptStr(cli.model),
      "model_bwd" := OptStr(cli.modelBwd),
      "epoch" := Int(cli.epoch),
      "decode_dir" := OptStr(cli.decodeDir),
      "eval_sets" := if cli.evalSets.None? then NoneValue else StrList(cli.evalSets.value),
      "batch_size" := Int(cli.batchSize),
      "beam_width" := Int(cli.beamWidth),
      "max_len_ratio" := Real(cli.maxLenRatio),
      "min_len_ratio" := Real(cli.minLenRatio),
      "length_penalty" := Real(cli.lengthPenalty),
      "coverage_penalty" := Real(cli.coveragePenalty),
      "coverage_threshold" := Real(cli.coverageThreshold),
      "rnnlm_weight" := Real(cli.rnnlmWeight),
      "rnnlm" := OptStr(cli.rnnlm),
      "rnnlm_bwd" := OptStr(cli.rnnlmBwd),
      "resolving_unk" := Bool(cli.resolvingUnk),
      "fwd_bwd_attention" := Bool(cli.fwdBwdAttention),
      "recog_unit" := if cli.recogUnit.None? then Bool(false) else Str(cli.recogUnit.value)]
  }

  /** The namespace after copying the configuration items whose key it lacks, in item order. */
  function Merged(attrs: map<string, Value>, items: seq<(string, Value)>): map<string, Value>
  {
    if items == [] then attrs
    else
      var m := Merged(attrs, items[..|items| - 1]);
      var kv := items[|items| - 1];
      if kv.0 in m then m else m[kv.0 := kv.1]
  }

  /** The merge never overwrites an attribute, and adds exactly the configuration's keys. */
  lemma {:induction false} MergeKeepsAttributes(attrs: map<string, Value>, items: seq<(string, Value)>)
    ensures forall k :: k in attrs ==> k in Merged(attrs, items) && Merged(attrs, items)[k] == attrs[k]
    ensures forall k :: k in Merged(attrs, items) <==> k in attrs || exists i :: 0 <= i < |items| && items[i].0 == k
  {
    if items != [] {
      var init := items[..|items| - 1];
      MergeKeepsAttributes(attrs, init);
      forall k ensures k in Merged(attrs, items) <==> k in attrs || exists i :: 0 <= i < |items| && items[i].0 == k {
        if exists i :: 0 <= i < |init| && init[i].0 == k {
          var i :| 0 <= i < |init| && init[i].0 == k;
          assert items[i].0 == k;
        }
        if exists i :: 0 <= i < |items| && items[i].0 == k {
          var i :| 0 <= i < |items| && items[i].0 == k;
          if i < |init| {
            assert init[i].0 == k;
          }
        }
      }
    }
  }

  /** A key the namespace lacks takes the value of its first configuration item. */
  lemma {:induction false} MergeFirstItemWins(attrs: map<string, Value>, items: seq<(string, Value)>, i: nat)
    requires i < |items| && items[i].0 !in attrs
    requires forall j :: 0 <= j < i ==> items[j].0 != items[i].0
    ensures items[i].0 in Merged(attrs, items) && Merged(attrs, items)[items[i].0] == items[i].1
  {
    var init := items[..|items| - 1];
    if i == |items| - 1 {
      MergeKeepsAttributes(attrs, init);
      forall j | 0 <= j < |init| ensures init[j].0 != items[i].0 {
        assert init[j] == items[j];
      }
    } else {
      assert init[i] == items[i];
      forall j | 0 <= j < i ensures init[j].0 != init[i].0 {
        assert init[j] == items[j];
      }
      MergeFirstItemWins(attrs, init, i);
    }
  }

  /** Every command-line argument survives the merge: the configuration file cannot override one. */
  lemma CliSurvivesMerge(cli: CliArgs, items: seq<(string, Value)>)
    ensures var m := Merged(CliNamespace(cli), items);
      forall k :: k in CliNamespace(cli) ==> k in m && m[k] == CliNamespace(cli)[k]
  {
    MergeKeepsAttributes(CliNamespace(cli), items);
  }

  /** `args`: an object whose attributes `setattr` updates in place. */
  class Namespace {
    var attrs: map<string, Value>

    constructor (initial: map<string, Value>)
      ensures attrs == initial
    {
      attrs := initial;
    }

    method SetAttr(name: string, v: Value)
      modifies this
      ensures attrs == old(attrs)[name := v]
    {
      attrs := attrs[name := v];
    }

    /** `for k, v in config.items(): if not hasattr(args, k): setattr(args, k, v)`. */
    method MergeConfig(items: seq<(string, Value)>)
      modifies this
      ensures attrs == Merged(old(attrs), items)
    {
      for i := 0 to |items|
        invariant attrs == Merged(old(attrs), items[..i])
      {
        assert items[..i + 1][..i] == items[..i];
        if items[i].0 !in attrs {
          SetAttr(items[i].0, items[i].1);
        }
      }
      assert items[..|items|] == items;
    }
  }

  // ---------------------------------------------------------------------------
  // Typed reads of attributes.

  function Attr(attrs: map<string, Value>, name: string): (r: Result<Value, EvalError>)
    ensures r.Ok? <==> name in attrs
    ensures r.Ok? ==> r.value == attrs[name]
    ensures r.Err? ==> r.error == MissingAttribute(name)
  {
    if name in attrs then Ok(attrs[name]) else Err(MissingAttribute(name))
  }

  function StrAttr(attrs: map<string, Value>, name: string): (r: Result<string, EvalError>)
    ensures r.Ok? <==> name in attrs && attrs[name].Str?
    ensures r.Ok? ==> attrs[name] == Str(r.value)
  {
    match Attr(attrs, name)
    case Err(e) => Err(e)
    case Ok(v) => if v.Str? then Ok(v.s) else Err(BadAttribute(name))
  }

  function IntAttr(attrs: map<string, Value>, name: string): (r: Result<int, EvalError>)
    ensures r.Ok? <==> name in attrs && attrs[name].Int?
    ensures r.Ok? ==> attrs[name] == Int(r.value)
  {
    match Attr(attrs, name)
    case Err(e) => Err(e)
    case Ok(v) => if v.Int? then Ok(v.i) else Err(BadAttribute(name))
  }

  function NatAttr(attrs: map<string, Value>, name: string): (r: Result<nat, EvalError>)
    ensures r.Ok? <==> name in attrs && attrs[name].Int? && attrs[name].i >= 0
    ensures r.Ok? ==> attrs[name] == Int(r.value)
  {
    match IntAttr(attrs, name)
    case Err(e) => Err(e)
    case Ok(i) => if i >= 0 then Ok(i) else Err(BadAttribute(name))
  }

  /** A number, int or float. */
  function NumAttr(attrs: map<string, Value>, name: string): (r: Result<real, EvalError>)
    ensures r.Ok? <==> name in attrs && (attrs[name].Int? || attrs[name].Real?)
  {
    match Attr(attrs, name)
    case Err(e) => Err(e)
    case Ok(v) => if v.Int? then Ok(v.i as real) else if v.Real? then Ok(v.r) else Err(BadAttribute(name))
  }

  /** A value used only for its truthiness. */
  function FlagAttr(attrs: map<string, Value>, name: string): (r: Result<bool, EvalError>)
    ensures r.Ok? <==> name in attrs
    ensures r.Ok? ==> r.value == Truthy(attrs[name])
  {
    match Attr(attrs, name)
    case Err(e) => Err(e)
    case Ok(v) => Ok(Truthy(v))
  }

  /** A path or `None`, tested with `is not None`. */
  function PathAttr(attrs: map<string, Value>, name: string): (r: Result<Option<string>, EvalError>)
    ensures r.Ok? <==> name in attrs && (attrs[name].Str? || attrs[name].NoneValue?)
    ensures r.Ok? ==> (r.value.Some? <==> attrs[name].Str?)
    ensures r.Ok? && r.value.Some? ==> attrs[name] == Str(r.value.value)
  {
    match Attr(attrs, name)
    case Err(e) => Err(e)
    case Ok(v) => if v.Str? then Ok(Some(v.s)) else if v.NoneValue? then Ok(None) else Err(BadAttribute(name))
  }

  /** A unit that may be left falsy (`False` or `None`); a string otherwise. */
  function OptionalUnitAttr(attrs: map<string, Value>, name: string): (r: Result<Option<string>, EvalError>)
    ensures r.Ok? <==> name in attrs && (attrs[name].Str? || !Truthy(attrs[name]))
    ensures r.Ok? ==> (r.value.Some? <==> attrs[name].Str?)
    ensures r.Ok? && r.value.Some? ==> attrs[name] == Str(r.value.value)
  {
    match Attr(attrs, name)
    case Err(e) => Err(e)
    case Ok(v) => if v.Str? then Ok(Some(v.s)) else if !Truthy(v) then Ok(None) else Err(BadAttribute(name))
  }

  /**
   * `unit_sub1` or `unit_sub2` as the dataset sees it: a string, or a falsy value
   * that installs no converters. A truthy non-string only matters when the
   * sub-task's dictionary exists, since the dataset inspects the unit only then.
   */
  function SubUnitAttr(attrs: map<string, Value>, name: string, dictPresent: bool): (r: Result<Option<string>, EvalError>)
    ensures r.Ok? <==> name in attrs && (attrs[name].Str? || !Truthy(attrs[name]) || !dictPresent)
    ensures r.Ok? ==> (r.value.Some? <==> attrs[name].Str?)
    ensures r.Ok? && r.value.Some? ==> attrs[name] == Str(r.value.value)
  {
    match Attr(attrs, name)
    case Err(e) => Err(e)
    case Ok(v) =>
      if v.Str? then Ok(Some(v.s)) else if !Truthy(v) || !dictPresent then Ok(None) else Err(BadAttribute(name))
  }

  function StrListAttr(attrs: map<string, Value>, name: string): (r: Result<seq<string>, EvalError>)
    ensures r.Ok? <==> name in attrs && attrs[name].StrList?
    ensures r.Ok? ==> attrs[name] == StrList(r.value)
  {
    match Attr(attrs, name)
    case Err(e) => Err(e)
    case Ok(v) => if v.StrList? then Ok(v.items) else Err(BadAttribute(name))
  }

  // ---------------------------------------------------------------------------
  // The environment: files, the model and the scorers.

  datatype Family = WordFamily | WordpieceFamily | CharFamily | PhoneFamily

  /** The arguments of one scorer call; `params` is `decode_params`, an alias of `vars(args)`. */
  datatype ScorerCall = ScorerCall(family: Family, evalSet: string, params: map<string, Value>,
                                   epoch: int, decodeDir: string, taskId: int)

  /** A scorer's error rate, and for `eval_char` also the CER. */
  datatype Score = Score(err: real, cer: real)

  datatype Env = Env(
    loadConfig: string -> seq<(string, Value)>,
    isFile: string -> bool,
    countVocab: string -> nat,
    inputDimOf: string -> int,
    loadEpoch: (string, int) -> int,
    scorer: ScorerCall -> Score)

  // ---------------------------------------------------------------------------
  // What a run does.

  datatype MeanLine = WerMean(wer: real) | WerCerMean(wer: real, cer: real) | PerMean(per: real)

  datatype Event =
    | ModelBuilt(vocab: int, vocabSub1: int, inputDim: int)
    | LmAttached(path: string, weight: real, backward: bool)
    | EpochLogged(epoch: int)
    | SetScored(call: ScorerCall, score: Score)
    | MeanReported(line: MeanLine)

  datatype Run = Completed(trace: seq<Event>) | Aborted(trace: seq<Event>, error: EvalError)

  /** The stage of `main` an event belongs to. */
  function Phase(e: Event): nat
  {
    match e
    case ModelBuilt(_, _, _) => 0
    case LmAttached(_, _, _) => 1
    case EpochLogged(_) => 2
    case SetScored(_, _) => 3
    case MeanReported(_) => 4
  }

  /** Events come in stage order, and each of the first three stages happens at most once. */
  ghost predicate PhaseOrdered(t: seq<Event>)
  {
    forall i, j :: 0 <= i < j < |t| ==> Phase(t[i]) < Phase(t[j]) || Phase(t[i]) == Phase(t[j]) >= 3
  }

  /** The events before the first scorer call: the model, at most one LM, the epoch. */
  ghost predicate Opening(t: seq<Event>)
  {
    2 <= |t| <= 3 && t[0].ModelBuilt? && t[|t| - 1].EpochLogged? && (|t| == 3 ==> t[1].LmAttached?)
  }

  lemma OpeningOrdered(t: seq<Event>)
    requires Opening(t)
    ensures PhaseOrdered(t) && forall i :: 0 <= i < |t| ==> Phase(t[i]) <= 2
  {
  }

  /** Two stage-ordered traces, the second starting at a later stage, concatenate to one. */
  lemma ConcatOrdered(a: seq<Event>, b: seq<Event>, k: nat)
    requires PhaseOrdered(a) && PhaseOrdered(b)
    requires forall i :: 0 <= i < |a| ==> Phase(a[i]) < k
    requires forall j :: 0 <= j < |b| ==> Phase(b[j]) >= k
    ensures PhaseOrdered(a + b)
  {
    forall i, j | 0 <= i < j < |a + b|
      ensures Phase((a + b)[i]) < Phase((a + b)[j]) || Phase((a + b)[i]) == Phase((a + b)[j]) >= 3
    {
      if j < |a| {
        assert (a + b)[i] == a[i] && (a + b)[j] == a[j];
      } else if i >= |a| {
        assert (a + b)[i] == b[i - |a|] && (a + b)[j] == b[j - |a|];
      } else {
        assert (a + b)[i] == a[i] && (a + b)[j] == b[j - |a|];
      }
    }
  }

  /** The evaluation sets named by the scorer calls of a trace, in order. */
  function ScoredSets(t: seq<Event>): seq<string>
  {
    if t == [] then [] else (if t[0].SetScored? then [t[0].call.evalSet] else []) + ScoredSets(t[1..])
  }

  /** The scores of a trace's scorer calls, in order. */
  function ScoresIn(t: seq<Event>): seq<Score>
  {
    if t == [] then [] else (if t[0].SetScored? then [t[0].score] else []) + ScoresIn(t[1..])
  }

  lemma {:induction false} ScoredConcat(a: seq<Event>, b: seq<Event>)
    ensures ScoredSets(a + b) == ScoredSets(a) + ScoredSets(b)
    ensures ScoresIn(a + b) == ScoresIn(a) + ScoresIn(b)
  {
    if a == [] {
      assert a + b == b;
    } else {
      assert (a + b)[1..] == a[1..] + b;
      ScoredConcat(a[1..], b);
    }
  }

  lemma {:induction false} UnscoredTrace(t: seq<Event>)
    requires forall i :: 0 <= i < |t| ==> !t[i].SetScored?
    ensures ScoredSets(t) == [] && ScoresIn(t) == []
  {
    if t != [] {
      UnscoredTrace(t[1..]);
    }
  }

  /** The dataset arguments `main` passes for one evaluation set, in test mode. */
  function DatasetConfig(evalSet: string, model: string, unit: string, unitSub1: Option<string>,
                         unitSub2: Option<string>, batchSize: int, isFile: string -> bool): (c: LoaderAsr.Config)
    ensures c.isTest && c.csvPath == evalSet && c.unit == unit && c.dictPath == PathJoin(model, "dict.txt")
    ensures c.dictPathSub1 == if isFile(PathJoin(model, "dict_sub1.txt")) then Some(PathJoin(model, "dict_sub1.txt")) else None
  {
    var sub1 := PathJoin(model, "dict_sub1.txt");
    var sub2 := PathJoin(model, "dict_sub2.txt");
    LoaderAsr.Defaults(evalSet, PathJoin(model, "dict.txt"), unit, batchSize).(
      isTest := true,
      wpModel := Some(PathJoin(model, "wp.model")),
      dictPathSub1 := if isFile(sub1) then Some(sub1) else None,
      dictPathSub2 := if isFile(sub2) then Some(sub2) else None,
      unitSub1 := unitSub1,
      unitSub2 := unitSub2)
  }

  /** The attribute reads of `Dataset(csv_path=set, ...)`, in argument order, giving the dataset's arguments. */
  function DatasetArgs(attrs: map<string, Value>, evalSet: string, env: Env): (r: Result<LoaderAsr.Config, EvalError>)
    ensures r.Ok? ==> StrAttr(attrs, "model").Ok? && StrAttr(attrs, "unit").Ok?
    ensures r.Ok? ==> r.value.isTest && r.value.csvPath == evalSet && r.value.unit == StrAttr(attrs, "unit").value
  {
    match StrAttr(attrs, "model")
    case Err(e) => Err(e)
    case Ok(model) =>
      match StrAttr(attrs, "unit")
      case Err(e) => Err(e)
      case Ok(unit) =>
        match SubUnitAttr(attrs, "unit_sub1", env.isFile(PathJoin(model, "dict_sub1.txt")))
        case Err(e) => Err(e)
        case Ok(unitSub1) =>
          match SubUnitAttr(attrs, "unit_sub2", env.isFile(PathJoin(model, "dict_sub2.txt")))
          case Err(e) => Err(e)
          case Ok(unitSub2) =>
            match IntAttr(attrs, "batch_size")
            case Err(e) => Err(e)
            case Ok(batchSize) => Ok(DatasetConfig(evalSet, model, unit, unitSub1, unitSub2, batchSize, env.isFile))
  }

  /** `Dataset(csv_path=set, ...)`: the attribute reads, then the dataset's unit dispatch. */
  function OpenDataset(attrs: map<string, Value>, evalSet: string, env: Env): (r: Result<LoaderAsr.Setup, EvalError>)
    ensures r.Ok? ==> StrAttr(attrs, "model").Ok? && StrAttr(attrs, "unit").Ok?
  {
    match DatasetArgs(attrs, evalSet, env)
    case Err(e) => Err(e)
    case Ok(cfg) =>
      match LoaderAsr.SetUp(cfg, env.countVocab)
      case Err(e) => Err(DatasetFailed(e))
      case Ok(setup) => Ok(setup)
  }

  /** The attributes `OpenDataset` reads. */
  predicate SameDatasetArgs(a: map<string, Value>, b: map<string, Value>)
  {
    && Attr(a, "model") == Attr(b, "model") && Attr(a, "unit") == Attr(b, "unit")
    && Attr(a, "unit_sub1") == Attr(b, "unit_sub1") && Attr(a, "unit_sub2") == Attr(b, "unit_sub2")
    && Attr(a, "batch_size") == Attr(b, "batch_size")
  }

  /** Every later evaluation set opens exactly as the first did: only the set's path differs. */
  lemma OpenDatasetStable(a: map<string, Value>, b: map<string, Value>, s: string, t: string, env: Env)
    requires SameDatasetArgs(a, b)
    ensures OpenDataset(b, t, env) == OpenDataset(a, s, env)
  {
    DatasetArgsStable(a, b, s, t, env);
    if DatasetArgs(a, s, env).Ok? {
      LoaderAsr.SetUpIgnoresCsvPath(DatasetArgs(a, s, env).value, t, env.countVocab);
    }
  }

  /** The dataset arguments of two sets differ only in the manifest path. */
  lemma DatasetArgsStable(a: map<string, Value>, b: map<string, Value>, s: string, t: string, env: Env)
    requires SameDatasetArgs(a, b)
    ensures DatasetArgs(b, t, env).Ok? == DatasetArgs(a, s, env).Ok?
    ensures DatasetArgs(a, s, env).Err? ==> DatasetArgs(b, t, env) == DatasetArgs(a, s, env)
    ensures DatasetArgs(a, s, env).Ok? ==> DatasetArgs(b, t, env).value == DatasetArgs(a, s, env).value.(csvPath := t)
  {
    assert StrAttr(b, "model") == StrAttr(a, "model") && StrAttr(b, "unit") == StrAttr(a, "unit");
    assert IntAttr(b, "batch_size") == IntAttr(a, "batch_size");
    if StrAttr(a, "model").Ok? {
      var model := StrAttr(a, "model").value;
      var p1, p2 := env.isFile(PathJoin(model, "dict_sub1.txt")), env.isFile(PathJoin(model, "dict_sub2.txt"));
      assert SubUnitAttr(b, "unit_sub1", p1) == SubUnitAttr(a, "unit_sub1", p1);
      assert SubUnitAttr(b, "unit_sub2", p2) == SubUnitAttr(a, "unit_sub2", p2);
    }
  }

  /** The attributes set on the first evaluation set, before the model is built. */
  function FirstSetAttrs(attrs: map<string, Value>, setup: LoaderAsr.Setup, inputDim: int): (m: map<string, Value>)
    ensures SameDatasetArgs(attrs, m) && Attr(m, "recog_unit") == Attr(attrs, "recog_unit")
    ensures "vocab" in m && "vocab_sub1" in m && "input_dim" in m
    ensures m["vocab"] == Int(setup.vocab) && m["vocab_sub1"] == Int(setup.vocabSub1) && m["input_dim"] == Int(inputDim)
  {
    attrs["vocab" := Int(setup.vocab)]["vocab_sub1" := Int(setup.vocabSub1)]["input_dim" := Int(inputDim)]
         ["rnnlm_cold_fusion" := NoneValue]["rnnlm_init" := NoneValue]
  }

  /** The namespace `setattr` builds from a configuration: a later item replaces an earlier one. */
  function Assigned(items: seq<(string, Value)>): map<string, Value>
  {
    if items == [] then map[] else Assigned(items[..|items| - 1])[items[|items| - 1].0 := items[|items| - 1].1]
  }

  /**
   * The fields of the LM's namespace that `SeqRNNLM` reads, in its constructor's order,
   * up to the tying check: the assertion on `rnn_type` comes right after `rnn_type` is read.
   * The dropouts are only read, never used here. `ndirs` of a unidirectional LM is 1.
   */
  function LmConfigOf(lm: map<string, Value>): (r: Result<RnnLmSeq.Config, EvalError>)
    ensures r.Ok? ==> StrAttr(lm, "rnn_type") == Ok(r.value.rnnType) && FlagAttr(lm, "backward") == Ok(r.value.backward)
    ensures r.Ok? ==> RnnLmSeq.KindOf(r.value.rnnType).Some?
    ensures NatAttr(lm, "emb_dim").Ok? && StrAttr(lm, "rnn_type").Ok? && RnnLmSeq.KindOf(StrAttr(lm, "rnn_type").value).None? ==>
      r == Err(LmFailed(RnnLmSeq.UnsupportedRnnType(StrAttr(lm, "rnn_type").value)))
    ensures r.Ok? ==> "dropout_emb" in lm && "dropout_out" in lm
    ensures r.Ok? ==> ("dropout_hidden" in lm || (!RnnLmSeq.FastImpl(r.value) && r.value.nlayers == 0))
  {
    match NatAttr(lm, "emb_dim")
    case Err(e) => Err(e)
    case Ok(embDim) =>
      match StrAttr(lm, "rnn_type")
      case Err(e) => Err(e)
      case Ok(rnnType) =>
        if RnnLmSeq.KindOf(rnnType).None? then Err(LmFailed(RnnLmSeq.UnsupportedRnnType(rnnType)))
        else
        match NatAttr(lm, "nunits")
        case Err(e) => Err(e)
        case Ok(nunits) =>
          match NatAttr(lm, "nlayers")
          case Err(e) => Err(e)
          case Ok(nlayers) =>
            match FlagAttr(lm, "tie_weights")
            case Err(e) => Err(e)
            case Ok(tie) =>
              match FlagAttr(lm, "residual")
              case Err(e) => Err(e)
              case Ok(residual) =>
                match FlagAttr(lm, "backward")
                case Err(e) => Err(e)
                case Ok(backward) =>
                  match NatAttr(lm, "vocab")
                  case Err(e) => Err(e)
                  case Ok(vocab) =>
                    match Attr(lm, "dropout_emb")
                    case Err(e) => Err(e)
                    case Ok(_) =>
                      match IntAttr(lm, "nprojs")
                      case Err(e) => Err(e)
                      case Ok(nprojs) =>
                        var cfg := RnnLmSeq.Config(embDim, rnnType, nunits, nlayers, nprojs, tie, residual, backward, vocab, 1);
                        // the fast RNN takes `dropout_hidden`; the stacked one reads it once per layer
                        if (RnnLmSeq.FastImpl(cfg) || nlayers > 0) && "dropout_hidden" !in lm then Err(MissingAttribute("dropout_hidden"))
                        else
                          match Attr(lm, "dropout_out")
                          case Err(e) => Err(e)
                          case Ok(_) => Ok(cfg)
  }

  /**
   * The weight initialisation at the end of `SeqRNNLM.__init__`: it reads
   * `param_init`, `param_init_dist` and `rec_weight_orthogonal`, and the result is
   * whether the recurrent weights are orthogonalised.
   */
  function InitWeightsFlags(lm: map<string, Value>): (r: Result<bool, EvalError>)
    ensures r.Ok? <==> "param_init" in lm && "param_init_dist" in lm && "rec_weight_orthogonal" in lm
    ensures r.Ok? ==> r.value == Truthy(lm["rec_weight_orthogonal"])
    ensures r.Err? ==> r.error == MissingAttribute(
      if "param_init" !in lm then "param_init" else if "param_init_dist" !in lm then "param_init_dist" else "rec_weight_orthogonal")
  {
    match Attr(lm, "param_init")
    case Err(e) => Err(e)
    case Ok(_) =>
      match Attr(lm, "param_init_dist")
      case Err(e) => Err(e)
      case Ok(_) =>
        match Attr(lm, "rec_weight_orthogonal")
        case Err(e) => Err(e)
        case Ok(v) => Ok(Truthy(v))
  }

  /** Shallow fusion is requested: an LM path is given and its weight is positive. */
  predicate FusionRequested(attrs: map<string, Value>)
  {
    PathAttr(attrs, "rnnlm").Ok? && PathAttr(attrs, "rnnlm").value.Some?
    && NumAttr(attrs, "rnnlm_weight").Ok? && NumAttr(attrs, "rnnlm_weight").value > 0.0
  }

  /**
   * The shallow-fusion block: with `rnnlm_cold_fusion` just set to None, the LM is
   * loaded and attached iff a path is given and the weight is positive. Its unit must
   * be the ASR unit, its vocabulary is the dataset's, and its `backward` flag decides
   * whether it becomes `rnnlm_bwd` or `rnnlm_fwd`.
   */
  function Fusion(attrs: map<string, Value>, vocab: int, env: Env): (r: Result<seq<Event>, EvalError>)
    ensures r.Ok? ==> |r.value| <= 1 && forall i :: 0 <= i < |r.value| ==> r.value[i].LmAttached?
  {
    match PathAttr(attrs, "rnnlm")
    case Err(e) => Err(e)
    case Ok(None) => Ok([])
    case Ok(Some(path)) =>
      match NumAttr(attrs, "rnnlm_weight")
      case Err(e) => Err(e)
      case Ok(weight) =>
        if weight <= 0.0 then Ok([])
        else
          var lm := Assigned(env.loadConfig(PathJoin(path, "config.yml")));
          match StrAttr(attrs, "unit")
          case Err(e) => Err(e)
          case Ok(unit) =>
            match Attr(lm, "unit")
            case Err(e) => Err(e)
            case Ok(lmUnit) =>
              if lmUnit != Str(unit) then Err(LmUnitMismatch(unit, lmUnit))
              else
                var lm' := lm["vocab" := Int(vocab)];
                match LmConfigOf(lm')
                case Err(e) => Err(e)
                case Ok(cfg) =>
                  match RnnLmSeq.Configure(cfg)
                  case Err(e) => Err(LmFailed(e))
                  case Ok(_) =>
                    match InitWeightsFlags(lm')
                    case Err(e) => Err(e)
                    case Ok(_) =>
                      assert FlagAttr(lm', "backward") == FlagAttr(lm, "backward");
                      Ok([LmAttached(path, weight, cfg.backward)])
  }

  /**
   * An LM is attached iff a path is given and the weight is positive; the attached LM
   * is the one at that path, its unit is the ASR model's, and the event records its
   * `backward` flag.
   */
  lemma FusionAttachesLm(attrs: map<string, Value>, vocab: int, env: Env)
    ensures PathAttr(attrs, "rnnlm") == Ok(None) ==> Fusion(attrs, vocab, env) == Ok([])
    ensures var r := Fusion(attrs, vocab, env);
      r.Ok? ==> (r.value != [] <==> FusionRequested(attrs))
    ensures var r := Fusion(attrs, vocab, env);
      r.Ok? && r.value != [] ==>
      var lm := Assigned(env.loadConfig(PathJoin(PathAttr(attrs, "rnnlm").value.value, "config.yml")));
      && r.value[0].path == PathAttr(attrs, "rnnlm").value.value
      && r.value[0].weight == NumAttr(attrs, "rnnlm_weight").value
      && "unit" in lm && StrAttr(attrs, "unit").Ok? && lm["unit"] == Str(StrAttr(attrs, "unit").value)
      && FlagAttr(lm, "backward") == Ok(r.value[0].backward)
      && "dropout_emb" in lm && "dropout_out" in lm
      && "param_init" in lm && "param_init_dist" in lm && "rec_weight_orthogonal" in lm
  {
  }

  // ---------------------------------------------------------------------------
  // The dispatch to a scorer.

  predicate RecogGiven(recog: Option<string>)
  {
    recog.Some? && recog.value != ""
  }

  predicate WordCase(unit: string, recog: Option<string>)
  {
    (unit == "word" || unit == "word_char") && !RecogGiven(recog)
  }

  predicate WordpieceCase(unit: string, recog: Option<string>)
  {
    (unit == "wp" && !RecogGiven(recog)) || recog == Some("wp")
  }

  predicate CharCase(unit: string, recog: Option<string>)
  {
    (Contains(unit, "char") && !RecogGiven(recog)) || (recog.Some? && Contains(recog.value, "char"))
  }

  /**
   * The ordered dispatch: a scorer family and `task_id`. `recog` is `recog_unit` as a
   * string, or None when it is False or None; the char test then raises a TypeError
   * unless its first half already holds.
   */
  function Dispatch(unit: string, recog: Option<string>): (r: Result<(Family, int), EvalError>)
    ensures r.Ok? ==> 0 <= r.value.1 <= 1
  {
    if WordCase(unit, recog) then Ok((WordFamily, 0))
    else if WordpieceCase(unit, recog) then Ok((WordpieceFamily, 0))
    else if Contains(unit, "char") && !RecogGiven(recog) then Ok((CharFamily, 0))
    else if recog.None? then Err(RecogUnitNotIterable)
    else if Contains(recog.value, "char") then Ok((CharFamily, if RecogGiven(recog) then 1 else 0))
    else if Contains(unit, "phone") then Ok((PhoneFamily, 0))
    else Err(UnsupportedUnit(unit))
  }

  /** The dispatch tries the word, wordpiece, char and phone scorers in that order. */
  lemma DispatchOrder(unit: string, recog: Option<string>)
    ensures var r := Dispatch(unit, recog); r == Ok((WordFamily, 0)) <==> WordCase(unit, recog)
    ensures var r := Dispatch(unit, recog);
      r == Ok((WordpieceFamily, 0)) <==> !WordCase(unit, recog) && WordpieceCase(unit, recog)
    ensures var r := Dispatch(unit, recog);
      r.Ok? && r.value.0 == CharFamily <==> !WordCase(unit, recog) && !WordpieceCase(unit, recog) && CharCase(unit, recog)
    ensures var r := Dispatch(unit, recog);
      r.Ok? && r.value.0 == CharFamily ==> (r.value.1 == 1 <==> RecogGiven(recog) && Contains(recog.value, "char"))
    ensures var r := Dispatch(unit, recog);
      r == Err(RecogUnitNotIterable) <==>
        !WordCase(unit, recog) && !WordpieceCase(unit, recog) && !Contains(unit, "char") && recog.None?
    ensures var r := Dispatch(unit, recog);
      r == Ok((PhoneFamily, 0)) <==>
        !WordCase(unit, recog) && !WordpieceCase(unit, recog) && !CharCase(unit, recog) && recog.Some? && Contains(unit, "phone")
    ensures var r := Dispatch(unit, recog); r.Ok? && r.value.0 != CharFamily ==> r.value.1 == 0
    ensures var r := Dispatch(unit, recog); r.Err? ==> r.error == RecogUnitNotIterable || r.error == UnsupportedUnit(unit)
  {
  }

  /** With `recog_unit` left at False, a phone model never reaches its scorer; naming the unit fixes that. */
  lemma PhoneNeedsRecogUnit()
    ensures Dispatch("phone", None) == Err(RecogUnitNotIterable)
    ensures Dispatch("phone", Some("phone")) == Ok((PhoneFamily, 0))
  {
    assert "phone"[..4][0] == 'p' && "phone"[1..] == "hone";
    assert "hone"[..4][0] == 'h' && "hone"[1..] == "one";
    assert !Contains("phone", "char");
    assert "phone"[..5] == "phone";
  }

  datatype Route = Route(family: Family, taskId: int)

  /** The reads of `unit` and `recog_unit`, then the dispatch. */
  function RouteOf(attrs: map<string, Value>): (r: Result<Route, EvalError>)
    ensures r.Ok? ==> StrAttr(attrs, "unit").Ok? && OptionalUnitAttr(attrs, "recog_unit").Ok?
                      && Dispatch(StrAttr(attrs, "unit").value, OptionalUnitAttr(attrs, "recog_unit").value)
                         == Ok((r.value.family, r.value.taskId))
  {
    match StrAttr(attrs, "unit")
    case Err(e) => Err(e)
    case Ok(unit) =>
      match OptionalUnitAttr(attrs, "recog_unit")
      case Err(e) => Err(e)
      case Ok(recog) =>
        match Dispatch(unit, recog)
        case Err(e) => Err(e)
        case Ok(d) => Ok(Route(d.0, d.1))
  }

  // ---------------------------------------------------------------------------
  // Accumulation and the report.

  datatype Means = Means(wer: real, cer: real, per: real)

  /** The accumulator update after one scorer call. */
  function Accumulate(m: Means, family: Family, s: Score): Means
  {
    match family
    case WordFamily => m.(wer := m.wer + s.err)
    case WordpieceFamily => m.(wer := m.wer + s.err)
    case CharFamily => m.(wer := m.wer + s.err, cer := m.cer + s.cer)
    case PhoneFamily => m.(per := m.per + s.err)
  }

  /** The accumulators after scoring `scores` in order. */
  function Totals(family: Family, scores: seq<Score>): Means
  {
    if scores == [] then Means(0.0, 0.0, 0.0)
    else Accumulate(Totals(family, scores[..|scores| - 1]), family, scores[|scores| - 1])
  }

  function SumErr(scores: seq<Score>): real
  {
    if scores == [] then 0.0 else scores[0].err + SumErr(scores[1..])
  }

  function SumCer(scores: seq<Score>): real
  {
    if scores == [] then 0.0 else scores[0].cer + SumCer(scores[1..])
  }

  lemma {:induction false} SumErrSnoc(scores: seq<Score>)
    requires scores != []
    ensures SumErr(scores) == SumErr(scores[..|scores| - 1]) + scores[|scores| - 1].err
  {
    if |scores| > 1 {
      assert scores[1..][..|scores[1..]| - 1] == scores[..|scores| - 1][1..];
      SumErrSnoc(scores[1..]);
    }
  }

  lemma {:induction false} SumCerSnoc(scores: seq<Score>)
    requires scores != []
    ensures SumCer(scores) == SumCer(scores[..|scores| - 1]) + scores[|scores| - 1].cer
  {
    if |scores| > 1 {
      assert scores[1..][..|scores[1..]| - 1] == scores[..|scores| - 1][1..];
      SumCerSnoc(scores[1..]);
    }
  }

  /** Each accumulator is the sum of the scores its family adds, and only its family adds to it. */
  lemma {:induction false} TotalsAreSums(family: Family, scores: seq<Score>)
    ensures Totals(family, scores).wer == if family == PhoneFamily then 0.0 else SumErr(scores)
    ensures Totals(family, scores).cer == if family == CharFamily then SumCer(scores) else 0.0
    ensures Totals(family, scores).per == if family == PhoneFamily then SumErr(scores) else 0.0
  {
    if scores != [] {
      TotalsAreSums(family, scores[..|scores| - 1]);
      SumErrSnoc(scores);
      SumCerSnoc(scores);
    }
  }

  /** A unit for which the report logs a mean. */
  predicate Reported(unit: string)
  {
    unit == "word" || unit == "wp" || Contains(unit, "char") || Contains(unit, "phone")
  }

  /** The mean lines for `unit`, each accumulator divided by the number of sets `n`. */
  function MeanLines(unit: string, totals: Means, n: real): (lines: seq<MeanLine>)
    requires n > 0.0
    ensures |lines| <= 2 && (lines == [] <==> !Reported(unit))
    ensures unit == "word" ==> lines[0] == WerMean(totals.wer / n)
    ensures unit == "wp" ==> lines == [WerMean(totals.wer / n)]
    ensures unit != "word" && unit != "wp" && Contains(unit, "char") ==>
              lines == [WerCerMean(totals.wer / n, totals.cer / n)]
    ensures unit != "word" && unit != "wp" && !Contains(unit, "char") && Contains(unit, "phone") ==>
              lines == [PerMean(totals.per / n)]
  {
    (if unit == "word" then [WerMean(totals.wer / n)] else [])
    + (if unit == "wp" then [WerMean(totals.wer / n)]
       else if Contains(unit, "char") then [WerCerMean(totals.wer / n, totals.cer / n)]
       else if Contains(unit, "phone") then [PerMean(totals.per / n)]
       else [])
  }

  /**
   * The report: `unit == 'word'` logs the WER mean; then a separate chain logs the
   * WER mean for `wp`, the WER and CER means for a unit containing `char`, or the
   * PER mean for one containing `phone`. Each mean divides by the number of sets,
   * which raises ZeroDivisionError when there are none and a mean is logged.
   */
  function Report(attrs: map<string, Value>, totals: Means, n: nat): (r: Result<seq<Event>, EvalError>)
    ensures r.Ok? || r == Err(ZeroDivision) ==> StrAttr(attrs, "unit").Ok?
    ensures StrAttr(attrs, "unit").Ok? ==>
              (r == Err(ZeroDivision) <==> n == 0 && Reported(StrAttr(attrs, "unit").value))
    ensures r.Ok? && n == 0 ==> r.value == []
    ensures r.Ok? && n > 0 ==>
              r.value == MeanEvents(MeanLines(StrAttr(attrs, "unit").value, totals, n as real))
  {
    match StrAttr(attrs, "unit")
    case Err(e) => Err(e)
    case Ok(unit) =>
      if n == 0 then
        if Reported(unit) then Err(ZeroDivision) else Ok([])
      else Ok(MeanEvents(MeanLines(unit, totals, n as real)))
  }

  function MeanEvents(lines: seq<MeanLine>): (e: seq<Event>)
    ensures |e| == |lines| && forall i :: 0 <= i < |lines| ==> e[i] == MeanReported(lines[i])
  {
    seq(|lines|, i requires 0 <= i < |lines| => MeanReported(lines[i]))
  }

  // ---------------------------------------------------------------------------
  // The reference run.

  /** What the first evaluation set fixes for the whole run. */
  datatype Plan = Plan(attrs: map<string, Value>, prefix: seq<Event>, epoch: int, route: Route)

  /** The state the first set leaves: the namespace, the events so far and the checkpoint's epoch. */
  datatype Loaded = Loaded(attrs: map<string, Value>, prefix: seq<Event>, epoch: int)

  /**
   * The `i == 0` block: set `vocab`, `vocab_sub1`, `input_dim`, `rnnlm_cold_fusion`
   * and `rnnlm_init`, build the model, load the checkpoint, attach the LM and log the
   * epoch; on an error, the events so far and the error.
   */
  function Initialize(attrs: map<string, Value>, ds: LoaderAsr.Setup, model: string, first: string, env: Env)
    : (r: Result<Loaded, (seq<Event>, EvalError)>)
  {
    var attrs1 := FirstSetAttrs(attrs, ds, env.inputDimOf(first));
    var built := [ModelBuilt(ds.vocab, ds.vocabSub1, env.inputDimOf(first))];
    match IntAttr(attrs1, "epoch")
    case Err(e) => Err((built, e))
    case Ok(requested) =>
      var epoch := env.loadEpoch(model, requested);
      match Fusion(attrs1, ds.vocab, env)
      case Err(e) => Err((built, e))
      case Ok(lm) => Ok(Loaded(attrs1, built + lm + [EpochLogged(epoch - 1)], epoch))
  }

  /** The first set's work: open its dataset, run the `i == 0` block, and dispatch. */
  function Prepare(attrs: map<string, Value>, model: string, first: string, env: Env)
    : (r: Result<Plan, (seq<Event>, EvalError)>)
  {
    match OpenDataset(attrs, first, env)
    case Err(e) => Err(([], e))
    case Ok(ds) =>
      match Initialize(attrs, ds, model, first, env)
      case Err(failure) => Err(failure)
      case Ok(loaded) =>
        match RouteOf(loaded.attrs)
        case Err(e) => Err((loaded.prefix, e))
        case Ok(route) => Ok(Plan(loaded.attrs, loaded.prefix, loaded.epoch, route))
  }

  /**
   * The `i == 0` block builds the model first, so a failure leaves exactly that event;
   * on success its namespace holds the dataset's sizes, and its events are the model,
   * at most one LM, and the checkpoint's epoch.
   */
  lemma InitializeShape(attrs: map<string, Value>, ds: LoaderAsr.Setup, model: string, first: string, env: Env)
    ensures var r := Initialize(attrs, ds, model, first, env);
      r.Ok? ==> && r.value.attrs == FirstSetAttrs(attrs, ds, env.inputDimOf(first))
                && Opening(r.value.prefix) && r.value.prefix[0] == ModelBuilt(ds.vocab, ds.vocabSub1, env.inputDimOf(first))
                && r.value.prefix[|r.value.prefix| - 1] == EpochLogged(r.value.epoch - 1)
    ensures var r := Initialize(attrs, ds, model, first, env);
      r.Err? ==> r.error.0 == [ModelBuilt(ds.vocab, ds.vocabSub1, env.inputDimOf(first))]
  {
  }

  /** What a prepared plan holds. */
  ghost predicate PlanShape(attrs: map<string, Value>, p: Plan)
  {
    && SameDatasetArgs(attrs, p.attrs) && Attr(p.attrs, "recog_unit") == Attr(attrs, "recog_unit")
    && Opening(p.prefix) && p.prefix[|p.prefix| - 1] == EpochLogged(p.epoch - 1)
    && RouteOf(p.attrs) == Ok(p.route)
    && "vocab" in p.attrs && p.attrs["vocab"] == Int(p.prefix[0].vocab)
  }

  /** A prepared plan keeps the dataset arguments, opens with the model and the epoch, and carries the dispatch. */
  lemma PrepareShape(attrs: map<string, Value>, model: string, first: string, env: Env)
    requires Prepare(attrs, model, first, env).Ok?
    ensures PlanShape(attrs, Prepare(attrs, model, first, env).value)
  {
    var ds := OpenDataset(attrs, first, env).value;
    var loaded := Initialize(attrs, ds, model, first, env).value;
    var route := RouteOf(loaded.attrs).value;
    LoadedPlanShape(attrs, ds, model, first, env, loaded, route);
    assert Prepare(attrs, model, first, env).value == Plan(loaded.attrs, loaded.prefix, loaded.epoch, route);
  }

  lemma LoadedPlanShape(attrs: map<string, Value>, ds: LoaderAsr.Setup, model: string, first: string, env: Env,
                        loaded: Loaded, route: Route)
    requires Initialize(attrs, ds, model, first, env) == Ok(loaded) && RouteOf(loaded.attrs) == Ok(route)
    ensures PlanShape(attrs, Plan(loaded.attrs, loaded.prefix, loaded.epoch, route))
  {
    InitializeShape(attrs, ds, model, first, env);
  }

  /** One scorer call per set, in order, all with the first set's namespace, epoch and dispatch. */
  function Calls(sets: seq<string>, p: Plan, decodeDir: string): (c: seq<ScorerCall>)
    ensures |c| == |sets|
    ensures forall i :: 0 <= i < |sets| ==>
              c[i] == ScorerCall(p.route.family, sets[i], p.attrs, p.epoch - 1, decodeDir, p.route.taskId)
  {
    seq(|sets|, i requires 0 <= i < |sets| =>
      ScorerCall(p.route.family, sets[i], p.attrs, p.epoch - 1, decodeDir, p.route.taskId))
  }

  function ScoresOf(calls: seq<ScorerCall>, scorer: ScorerCall -> Score): (s: seq<Score>)
    ensures |s| == |calls| && forall i :: 0 <= i < |calls| ==> s[i] == scorer(calls[i])
  {
    seq(|calls|, i requires 0 <= i < |calls| => scorer(calls[i]))
  }

  function ScoredEvents(calls: seq<ScorerCall>, scores: seq<Score>): (e: seq<Event>)
    requires |calls| == |scores|
    ensures |e| == |calls| && forall i :: 0 <= i < |calls| ==> e[i] == SetScored(calls[i], scores[i])
  {
    seq(|calls|, i requires 0 <= i < |calls| => SetScored(calls[i], scores[i]))
  }

  function Finish(attrs: map<string, Value>, trace: seq<Event>, totals: Means, n: nat): Run
  {
    match Report(attrs, totals, n)
    case Err(e) => Aborted(trace, e)
    case Ok(lines) => Completed(trace + lines)
  }

  /** The loop over the evaluation sets and the report, from the merged namespace. */
  function EvalSets(attrs: map<string, Value>, model: string, decodeDir: string, sets: seq<string>, env: Env): Run
  {
    if sets == [] then Finish(attrs, [], Means(0.0, 0.0, 0.0), 0)
    else
      match Prepare(attrs, model, sets[0], env)
      case Err((trace, e)) => Aborted(trace, e)
      case Ok(p) =>
        var calls := Calls(sets, p, decodeDir);
        var scores := ScoresOf(calls, env.scorer);
        Finish(p.attrs, p.prefix + ScoredEvents(calls, scores), Totals(p.route.family, scores), |sets|)
  }

  /** The run `main` performs on a namespace, as a value. */
  function ExpectedRun(attrs0: map<string, Value>, env: Env): Run
  {
    match StrAttr(attrs0, "model")
    case Err(e) => Aborted([], e)
    case Ok(model) =>
      var attrs := Merged(attrs0, env.loadConfig(PathJoin(model, "config.yml")));
      match StrAttr(attrs, "decode_dir")
      case Err(e) => Aborted([], e)
      case Ok(decodeDir) =>
        match StrListAttr(attrs, "eval_sets")
        case Err(e) => Aborted([], e)
        case Ok(sets) =>
          EvalSets(attrs, model, decodeDir, sets, env)
  }

  /** The five `setattr` calls of the `i == 0` block. */
  method SetFirstSetAttrs(args: Namespace, ds: LoaderAsr.Setup, inputDim: int)
    modifies args
    ensures args.attrs == FirstSetAttrs(old(args.attrs), ds, inputDim)
  {
    args.SetAttr("vocab", Int(ds.vocab));
    args.SetAttr("vocab_sub1", Int(ds.vocabSub1));
    args.SetAttr("input_dim", Int(inputDim));
    args.SetAttr("rnnlm_cold_fusion", NoneValue);
    args.SetAttr("rnnlm_init", NoneValue);
  }

  /** The `i == 0` block on the namespace itself. */
  method LoadModel(args: Namespace, ds: LoaderAsr.Setup, model: string, first: string, env: Env)
    returns (r: Result<Loaded, (seq<Event>, EvalError)>)
    modifies args
    ensures r == Initialize(old(args.attrs), ds, model, first, env)
    ensures r.Ok? ==> args.attrs == r.value.attrs
  {
    var inputDim := env.inputDimOf(first);
    SetFirstSetAttrs(args, ds, inputDim);
    var trace := [ModelBuilt(ds.vocab, ds.vocabSub1, inputDim)];
    var requested := IntAttr(args.attrs, "epoch");
    if requested.Err? {
      return Err((trace, requested.error));
    }
    var epoch := env.loadEpoch(model, requested.value);
    var lm := Fusion(args.attrs, ds.vocab, env);
    if lm.Err? {
      return Err((trace, lm.error));
    }
    return Ok(Loaded(args.attrs, trace + lm.value + [EpochLogged(epoch - 1)], epoch));
  }

  lemma ScoredEventsPrefix(calls: seq<ScorerCall>, scores: seq<Score>, i: nat)
    requires |calls| == |scores| && i < |calls|
    ensures ScoredEvents(calls[..i + 1], scores[..i + 1]) == ScoredEvents(calls[..i], scores[..i]) + [SetScored(calls[i], scores[i])]
  {
  }

  lemma TotalsPrefix(family: Family, scores: seq<Score>, i: nat)
    requires i < |scores|
    ensures Totals(family, scores[..i + 1]) == Accumulate(Totals(family, scores[..i]), family, scores[i])
  {
    assert scores[..i + 1][..i] == scores[..i];
  }

  /** `main()`: merge the configuration, then evaluate every set. */
  method Evaluate(args: Namespace, env: Env) returns (run: Run)
    modifies args
    ensures run == ExpectedRun(old(args.attrs), env)
  {
    var model := StrAttr(args.attrs, "model");
    if model.Err? {
      return Aborted([], model.error);
    }
    args.MergeConfig(env.loadConfig(PathJoin(model.value, "config.yml")));
    var decodeDir := StrAttr(args.attrs, "decode_dir");
    if decodeDir.Err? {
      return Aborted([], decodeDir.error);
    }
    var sets := StrListAttr(args.attrs, "eval_sets");
    if sets.Err? {
      return Aborted([], sets.error);
    }
    run := EvaluateSets(args, model.value, decodeDir.value, sets.value, env);
  }

  /** What the first set fixes: every set opens, and the dispatch is the plan's. */
  ghost predicate Settled(p: Plan, env: Env)
  {
    (forall s :: OpenDataset(p.attrs, s, env).Ok?) && RouteOf(p.attrs) == Ok(p.route)
  }

  /** A later set opens like the first and dispatches to the same scorer. */
  lemma LaterSetsRepeatFirst(attrs: map<string, Value>, model: string, first: string, env: Env, p: Plan)
    requires Prepare(attrs, model, first, env) == Ok(p)
    ensures Settled(p, env)
  {
    PrepareShape(attrs, model, first, env);
    forall s ensures OpenDataset(p.attrs, s, env).Ok? {
      OpenDatasetStable(attrs, p.attrs, first, s, env);
    }
  }

  /** The run once the first set has been prepared. */
  lemma EvalSetsPrepared(attrs: map<string, Value>, model: string, decodeDir: string, sets: seq<string>, env: Env, p: Plan)
    requires sets != [] && Prepare(attrs, model, sets[0], env) == Ok(p)
    ensures var calls := Calls(sets, p, decodeDir);
      var scores := ScoresOf(calls, env.scorer);
      EvalSets(attrs, model, decodeDir, sets, env)
        == Finish(p.attrs, p.prefix + ScoredEvents(calls, scores), Totals(p.route.family, scores), |sets|)
  {
  }

  /** The first iteration up to its dispatch: open the set, run the `i == 0` block, dispatch. */
  method OpenFirstSet(args: Namespace, model: string, first: string, env: Env)
    returns (r: Result<Plan, (seq<Event>, EvalError)>)
    modifies args
    ensures r == Prepare(old(args.attrs), model, first, env)
    ensures r.Ok? ==> args.attrs == r.value.attrs
  {
    var ds := OpenDataset(args.attrs, first, env);
    if ds.Err? {
      return Err(([], ds.error));
    }
    var loaded := LoadModel(args, ds.value, model, first, env);
    if loaded.Err? {
      return Err(loaded.error);
    }
    var route := RouteOf(args.attrs);
    if route.Err? {
      return Err((loaded.value.prefix, route.error));
    }
    return Ok(Plan(args.attrs, loaded.value.prefix, loaded.value.epoch, route.value));
  }

  /** A later iteration's `Dataset(...)` and dispatch: neither fails, and the scorer is the first set's. */
  method Reopen(args: Namespace, p: Plan, evalSet: string, env: Env) returns (route: Route)
    requires args.attrs == p.attrs && Settled(p, env)
    ensures route == p.route
  {
    var ds := OpenDataset(args.attrs, evalSet, env);
    assert ds.Ok?;
    var next := RouteOf(args.attrs);
    route := next.value;
  }

  /**
   * The body of `for i, set in enumerate(args.eval_sets)` once the first set has
   * been prepared: each later set opens its dataset and dispatches again, and every
   * set is scored with the namespace, the epoch and the scorer the first one fixed.
   */
  method ScoreSets(args: Namespace, p: Plan, sets: seq<string>, decodeDir: string, env: Env)
    returns (trace: seq<Event>, means: Means)
    requires args.attrs == p.attrs && Settled(p, env)
    ensures var calls := Calls(sets, p, decodeDir);
      var scores := ScoresOf(calls, env.scorer);
      trace == p.prefix + ScoredEvents(calls, scores) && means == Totals(p.route.family, scores)
  {
    ghost var calls := Calls(sets, p, decodeDir);
    ghost var scores := ScoresOf(calls, env.scorer);
    trace := p.prefix;
    means := Means(0.0, 0.0, 0.0);
    for i := 0 to |sets|
      invariant trace == p.prefix + ScoredEvents(calls[..i], scores[..i])
      invariant means == Totals(p.route.family, scores[..i])
    {
      var route := p.route;
      if i > 0 {
        route := Reopen(args, p, sets[i], env);
      }
      var call := ScorerCall(route.family, sets[i], args.attrs, p.epoch - 1, decodeDir, route.taskId);
      var score := env.scorer(call);
      assert call == calls[i] && score == scores[i];
      ScoredEventsPrefix(calls, scores, i);
      TotalsPrefix(p.route.family, scores, i);
      trace := trace + [SetScored(call, score)];
      means := Accumulate(means, route.family, score);
    }
    assert calls[..|sets|] == calls && scores[..|sets|] == scores;
  }

  /** The loop over `eval_sets` and the report after it; the first set's `i == 0` block prepares the run. */
  method EvaluateSets(args: Namespace, model: string, decodeDir: string, sets: seq<string>, env: Env) returns (run: Run)
    modifies args
    ensures run == EvalSets(old(args.attrs), model, decodeDir, sets, env)
  {
    ghost var merged := args.attrs;
    var trace: seq<Event> := [];
    var means := Means(0.0, 0.0, 0.0);
    if sets != [] {
      var first := OpenFirstSet(args, model, sets[0], env);
      if first.Err? {
        return Aborted(first.error.0, first.error.1);
      }
      LaterSetsRepeatFirst(merged, model, sets[0], env, first.value);
      EvalSetsPrepared(merged, model, decodeDir, sets, env, first.value);
      trace, means := ScoreSets(args, first.value, sets, decodeDir, env);
    }
    var report := Report(args.attrs, means, |sets|);
    if report.Err? {
      return Aborted(trace, report.error);
    }
    return Completed(trace + report.value);
  }

  // ---------------------------------------------------------------------------
  // Properties of a run.

  /** The scorer calls name the sets in order and carry their scores. */
  lemma {:induction false} ScoredEventsContents(calls: seq<ScorerCall>, scores: seq<Score>)
    requires |calls| == |scores|
    ensures |ScoredSets(ScoredEvents(calls, scores))| == |calls|
    ensures forall i :: 0 <= i < |calls| ==> ScoredSets(ScoredEvents(calls, scores))[i] == calls[i].evalSet
    ensures ScoresIn(ScoredEvents(calls, scores)) == scores
  {
    if calls != [] {
      assert ScoredEvents(calls, scores)[1..] == ScoredEvents(calls[1..], scores[1..]);
      ScoredEventsContents(calls[1..], scores[1..]);
      assert scores == [scores[0]] + scores[1..];
    }
  }

  lemma MeanEventsUnscored(lines: seq<MeanLine>)
    ensures ScoredSets(MeanEvents(lines)) == [] && ScoresIn(MeanEvents(lines)) == []
    ensures forall i :: 0 <= i < |MeanEvents(lines)| ==> Phase(MeanEvents(lines)[i]) == 4
  {
    UnscoredTrace(MeanEvents(lines));
  }

  /** Once the first set is prepared the run completes: every set is scored, then the means are logged. */
  lemma PreparedRun(attrs: map<string, Value>, model: string, decodeDir: string, sets: seq<string>, env: Env, p: Plan)
    requires sets != [] && Prepare(attrs, model, sets[0], env) == Ok(p)
    ensures StrAttr(attrs, "unit").Ok? && StrAttr(p.attrs, "unit") == StrAttr(attrs, "unit")
    ensures var calls := Calls(sets, p, decodeDir);
      var scores := ScoresOf(calls, env.scorer);
      EvalSets(attrs, model, decodeDir, sets, env)
        == Completed(p.prefix + ScoredEvents(calls, scores)
                     + MeanEvents(MeanLines(StrAttr(attrs, "unit").value, Totals(p.route.family, scores), |sets| as real)))
  {
    PrepareShape(attrs, model, sets[0], env);
    EvalSetsPrepared(attrs, model, decodeDir, sets, env, p);
  }

  /** The trace of a prepared run: stage-ordered, and its scorer calls name the sets in order. */
  lemma PreparedTrace(prefix: seq<Event>, calls: seq<ScorerCall>, scores: seq<Score>, lines: seq<MeanLine>, sets: seq<string>)
    requires Opening(prefix) && |calls| == |scores| == |sets|
    requires forall i :: 0 <= i < |sets| ==> calls[i].evalSet == sets[i]
    ensures var t := prefix + ScoredEvents(calls, scores) + MeanEvents(lines);
      ScoredSets(t) == sets && ScoresIn(t) == scores && PhaseOrdered(t)
  {
    PreparedTraceScores(prefix, calls, scores, lines, sets);
    var scored := ScoredEvents(calls, scores);
    OpeningOrdered(prefix);
    ScoredEventsContents(calls, scores);
    assert forall j :: 0 <= j < |scored| ==> Phase(scored[j]) == 3;
    ConcatOrdered(prefix, scored, 3);
    ConcatOrdered(prefix + scored, MeanEvents(lines), 4);
  }

  lemma PreparedTraceScores(prefix: seq<Event>, calls: seq<ScorerCall>, scores: seq<Score>, lines: seq<MeanLine>, sets: seq<string>)
    requires Opening(prefix) && |calls| == |scores| == |sets|
    requires forall i :: 0 <= i < |sets| ==> calls[i].evalSet == sets[i]
    ensures var t := prefix + ScoredEvents(calls, scores) + MeanEvents(lines);
      ScoredSets(t) == sets && ScoresIn(t) == scores
  {
    var scored := ScoredEvents(calls, scores);
    ScoredConcat(prefix + scored, MeanEvents(lines));
    ScoredConcat(prefix, scored);
    UnscoredTrace(prefix);
    MeanEventsUnscored(lines);
    ScoredEventsContents(calls, scores);
    assert ScoredSets(scored) == sets;
  }

  /** A failed preparation leaves at most the opening events and no scorer call. */
  lemma FailedPreparation(attrs: map<string, Value>, model: string, first: string, env: Env)
    requires Prepare(attrs, model, first, env).Err?
    ensures var t := Prepare(attrs, model, first, env).error.0;
      ScoredSets(t) == [] && PhaseOrdered(t)
  {
    var t := Prepare(attrs, model, first, env).error.0;
    var ds := OpenDataset(attrs, first, env);
    if ds.Ok? {
      var loaded := Initialize(attrs, ds.value, model, first, env);
      InitializeShape(attrs, ds.value, model, first, env);
      if loaded.Ok? {
        assert t == loaded.value.prefix;
        OpeningOrdered(t);
      }
    }
    UnscoredTrace(t);
  }

  /** A run scores either every evaluation set, once each and in order, or none; its events are stage-ordered. */
  lemma EvalSetsAllOrNothing(attrs: map<string, Value>, model: string, decodeDir: string, sets: seq<string>, env: Env)
    ensures var run := EvalSets(attrs, model, decodeDir, sets, env);
      && (run.Completed? ==> ScoredSets(run.trace) == sets) && (run.Aborted? ==> ScoredSets(run.trace) == [])
      && PhaseOrdered(run.trace)
  {
    if sets == [] {
      assert EvalSets(attrs, model, decodeDir, sets, env).trace == [];
    } else if Prepare(attrs, model, sets[0], env).Err? {
      FailedPreparation(attrs, model, sets[0], env);
    } else {
      var p := Prepare(attrs, model, sets[0], env).value;
      PrepareShape(attrs, model, sets[0], env);
      PreparedRun(attrs, model, decodeDir, sets, env, p);
      var calls := Calls(sets, p, decodeDir);
      var scores := ScoresOf(calls, env.scorer);
      PreparedTrace(p.prefix, calls, scores,
                    MeanLines(StrAttr(attrs, "unit").value, Totals(p.route.family, scores), |sets| as real), sets);
    }
  }

  /** `main` scores the merged namespace's `eval_sets` in order, each once, or aborts before scoring any. */
  lemma RunScoresEachSetOnce(attrs0: map<string, Value>, env: Env)
    ensures var run := ExpectedRun(attrs0, env);
      && (run.Aborted? ==> ScoredSets(run.trace) == [])
      && (run.Completed? ==>
            StrAttr(attrs0, "model").Ok?
            && var attrs := Merged(attrs0, env.loadConfig(PathJoin(StrAttr(attrs0, "model").value, "config.yml")));
               StrListAttr(attrs, "eval_sets").Ok? && ScoredSets(run.trace) == StrListAttr(attrs, "eval_sets").value)
  {
    if StrAttr(attrs0, "model").Ok? {
      var model := StrAttr(attrs0, "model").value;
      var attrs := Merged(attrs0, env.loadConfig(PathJoin(model, "config.yml")));
      if StrAttr(attrs, "decode_dir").Ok? && StrListAttr(attrs, "eval_sets").Ok? {
        EvalSetsAllOrNothing(attrs, model, StrAttr(attrs, "decode_dir").value, StrListAttr(attrs, "eval_sets").value, env);
      }
    }
  }

  /**
   * Every run's events come in stage order: the model is built at most once, before
   * at most one LM and one epoch line, all of them before the first scorer call, and
   * the means come last.
   */
  lemma RunPhaseOrdered(attrs0: map<string, Value>, env: Env)
    ensures PhaseOrdered(ExpectedRun(attrs0, env).trace)
  {
    if StrAttr(attrs0, "model").Ok? {
      var model := StrAttr(attrs0, "model").value;
      var attrs := Merged(attrs0, env.loadConfig(PathJoin(model, "config.yml")));
      if StrAttr(attrs, "decode_dir").Ok? && StrListAttr(attrs, "eval_sets").Ok? {
        EvalSetsAllOrNothing(attrs, model, StrAttr(attrs, "decode_dir").value, StrListAttr(attrs, "eval_sets").value, env);
      }
    }
  }

  /** A scorer call of a prepared run's trace sits between the opening and the means. */
  lemma PreparedTraceIndex(prefix: seq<Event>, calls: seq<ScorerCall>, scores: seq<Score>, lines: seq<MeanLine>, l: int)
    requires Opening(prefix) && |calls| == |scores|
    requires var t := prefix + ScoredEvents(calls, scores) + MeanEvents(lines); 0 <= l < |t|
    ensures var t := prefix + ScoredEvents(calls, scores) + MeanEvents(lines);
      && (t[l].SetScored? <==> |prefix| <= l < |prefix| + |calls|)
      && (t[l].SetScored? ==> t[l] == SetScored(calls[l - |prefix|], scores[l - |prefix|]))
      && (t[l].EpochLogged? <==> l == |prefix| - 1)
      && (t[l].EpochLogged? ==> t[l] == prefix[|prefix| - 1])
      && (l == 0 ==> t[l] == prefix[0])
  {
    var scored := ScoredEvents(calls, scores);
    var t := prefix + scored + MeanEvents(lines);
    if l < |prefix| {
      assert t[l] == prefix[l];
    } else if l < |prefix| + |calls| {
      assert t[l] == scored[l - |prefix|];
    } else {
      assert t[l] == MeanEvents(lines)[l - |prefix| - |calls|];
    }
  }

  /** Two scorer calls that differ only in the set they evaluate. */
  predicate SameSetup(a: ScorerCall, b: ScorerCall)
  {
    a.family == b.family && a.taskId == b.taskId && a.params == b.params && a.epoch == b.epoch && a.decodeDir == b.decodeDir
  }

  /** All scorer calls of a trace share their setup, the logged epoch and the first set's `vocab`. */
  ghost predicate CallsAgree(t: seq<Event>, decodeDir: string)
  {
    && (forall k, l :: 0 <= k < |t| && 0 <= l < |t| && t[k].SetScored? && t[l].SetScored? ==> SameSetup(t[k].call, t[l].call))
    && (forall k, l :: 0 <= k < |t| && 0 <= l < |t| && t[k].EpochLogged? && t[l].SetScored? ==> t[l].call.epoch == t[k].epoch)
    && (forall l :: 0 <= l < |t| && t[l].SetScored? ==>
          && t[0].ModelBuilt? && t[l].call.decodeDir == decodeDir
          && "vocab" in t[l].call.params && t[l].call.params["vocab"] == Int(t[0].vocab))
  }

  lemma PreparedCallsAgree(p: Plan, sets: seq<string>, decodeDir: string, scores: seq<Score>, lines: seq<MeanLine>)
    requires Opening(p.prefix) && p.prefix[|p.prefix| - 1] == EpochLogged(p.epoch - 1)
    requires "vocab" in p.attrs && p.attrs["vocab"] == Int(p.prefix[0].vocab)
    requires |scores| == |sets|
    ensures CallsAgree(p.prefix + ScoredEvents(Calls(sets, p, decodeDir), scores) + MeanEvents(lines), decodeDir)
  {
    var calls := Calls(sets, p, decodeDir);
    var t := p.prefix + ScoredEvents(calls, scores) + MeanEvents(lines);
    forall l | 0 <= l < |t|
      ensures t[l].SetScored? ==> t[l].call == ScorerCall(p.route.family, sets[l - |p.prefix|], p.attrs, p.epoch - 1, decodeDir, p.route.taskId)
      ensures t[l].EpochLogged? ==> t[l].epoch == p.epoch - 1
      ensures l == 0 ==> t[l] == p.prefix[0]
    {
      PreparedTraceIndex(p.prefix, calls, scores, lines, l);
    }
  }

  lemma PreparedRunCallsAgree(attrs: map<string, Value>, model: string, decodeDir: string, sets: seq<string>, env: Env)
    requires sets != [] && Prepare(attrs, model, sets[0], env).Ok?
    ensures CallsAgree(EvalSets(attrs, model, decodeDir, sets, env).trace, decodeDir)
  {
    var p := Prepare(attrs, model, sets[0], env).value;
    PrepareShape(attrs, model, sets[0], env);
    PreparedRun(attrs, model, decodeDir, sets, env, p);
    var scores := ScoresOf(Calls(sets, p, decodeDir), env.scorer);
    PreparedCallsAgree(p, sets, decodeDir, scores,
                       MeanLines(StrAttr(attrs, "unit").value, Totals(p.route.family, scores), |sets| as real));
  }

  /**
   * Every set is scored with one scorer, one `task_id`, one parameter namespace and the
   * logged epoch; that namespace is `vars(args)`, so it shows the `vocab` set on the
   * first set.
   */
  lemma ScorerCallsShareFirstSet(attrs: map<string, Value>, model: string, decodeDir: string, sets: seq<string>, env: Env)
    ensures CallsAgree(EvalSets(attrs, model, decodeDir, sets, env).trace, decodeDir)
  {
    if sets != [] && Prepare(attrs, model, sets[0], env).Ok? {
      PreparedRunCallsAgree(attrs, model, decodeDir, sets, env);
    } else {
      EvalSetsAllOrNothing(attrs, model, decodeDir, sets, env);
      UnscoredAgree(EvalSets(attrs, model, decodeDir, sets, env).trace, decodeDir);
    }
  }

  lemma UnscoredAgree(t: seq<Event>, decodeDir: string)
    requires ScoredSets(t) == []
    ensures CallsAgree(t, decodeDir)
  {
    NoScoredEvent(t);
  }

  lemma {:induction false} NoScoredEvent(t: seq<Event>)
    requires ScoredSets(t) == []
    ensures forall l :: 0 <= l < |t| ==> !t[l].SetScored?
  {
    if t != [] {
      NoScoredEvent(t[1..]);
      forall l | 1 <= l < |t| ensures !t[l].SetScored? {
        assert t[l] == t[1..][l - 1];
      }
    }
  }

  // ---------------------------------------------------------------------------
  // The reported means.

  lemma UnitSubstrings()
    ensures !Contains("word", "char") && !Contains("word", "phone")
    ensures !Contains("wp", "char") && !Contains("wp", "phone")
    ensures Contains("word_char", "char") && Contains("char", "char")
    ensures !Contains("phone", "char") && Contains("phone", "phone")
  {
    assert "word"[..4][0] == 'w' && "word"[1..] == "ord";
    assert "phone"[..4][0] == 'p' && "phone"[1..] == "hone";
    assert "hone"[..4][0] == 'h' && "hone"[1..] == "one";
    assert "phone"[..5] == "phone" && "char"[..4] == "char";
    ContainsAt("word_char", "char");
    assert OccursAt("word_char", "char", 5);
  }

  /** The last event of a prepared run, and the scores it averages. */
  lemma PreparedMeans(attrs: map<string, Value>, model: string, decodeDir: string, sets: seq<string>, env: Env)
    requires sets != [] && Prepare(attrs, model, sets[0], env).Ok?
    ensures var p := Prepare(attrs, model, sets[0], env).value;
      var run := EvalSets(attrs, model, decodeDir, sets, env);
      var lines := MeanLines(StrAttr(attrs, "unit").value, Totals(p.route.family, ScoresIn(run.trace)), |sets| as real);
      && StrAttr(attrs, "unit").Ok? && run.Completed? && |ScoresIn(run.trace)| == |sets|
      && RouteOf(p.attrs) == Ok(p.route)
      && Attr(p.attrs, "recog_unit") == Attr(attrs, "recog_unit") && StrAttr(p.attrs, "unit") == StrAttr(attrs, "unit")
      && (lines != [] ==> run.trace != [] && run.trace[|run.trace| - 1] == MeanReported(lines[|lines| - 1]))
  {
    var p := Prepare(attrs, model, sets[0], env).value;
    PrepareShape(attrs, model, sets[0], env);
    PreparedRun(attrs, model, decodeDir, sets, env, p);
    var calls := Calls(sets, p, decodeDir);
    var scores := ScoresOf(calls, env.scorer);
    var lines := MeanLines(StrAttr(attrs, "unit").value, Totals(p.route.family, scores), |sets| as real);
    PreparedTrace(p.prefix, calls, scores, lines, sets);
    var t := p.prefix + ScoredEvents(calls, scores) + MeanEvents(lines);
    if lines != [] {
      assert t[|t| - 1] == MeanEvents(lines)[|lines| - 1];
    }
  }

  /** The last mean line of each unit, in terms of the sums of the scores. */
  lemma LastMeanOfUnit(unit: string, recog: Option<string>, scores: seq<Score>, n: real)
    requires n > 0.0 && Dispatch(unit, recog).Ok?
    ensures var lines := MeanLines(unit, Totals(Dispatch(unit, recog).value.0, scores), n);
      (unit == "word" || unit == "wp") ==> lines != [] && lines[|lines| - 1] == WerMean(SumErr(scores) / n)
    ensures var lines := MeanLines(unit, Totals(Dispatch(unit, recog).value.0, scores), n);
      unit == "word_char" && recog == None ==> lines == [WerCerMean(SumErr(scores) / n, 0.0)]
    ensures var lines := MeanLines(unit, Totals(Dispatch(unit, recog).value.0, scores), n);
      unit == "char" && recog == None ==> lines == [WerCerMean(SumErr(scores) / n, SumCer(scores) / n)]
    ensures var lines := MeanLines(unit, Totals(Dispatch(unit, recog).value.0, scores), n);
      unit == "phone" && recog == Some("phone") ==> lines == [PerMean(SumErr(scores) / n)]
  {
    var family := Dispatch(unit, recog).value.0;
    UnitSubstrings();
    DispatchOrder(unit, recog);
    PhoneNeedsRecogUnit();
    TotalsAreSums(family, scores);
    if unit == "word" {
      assert MeanLines(unit, Totals(family, scores), n) == [WerMean(Totals(family, scores).wer / n)];
    }
  }

  /** For `word` and `wp` the last line is the WER mean: the sum of the per-set WERs over the number of sets. */
  lemma WerMeanIsAverage(attrs: map<string, Value>, model: string, decodeDir: string, sets: seq<string>, env: Env)
    requires sets != [] && Prepare(attrs, model, sets[0], env).Ok?
    requires StrAttr(attrs, "unit") == Ok("word") || StrAttr(attrs, "unit") == Ok("wp")
    ensures var run := EvalSets(attrs, model, decodeDir, sets, env);
      && run.Completed? && |ScoresIn(run.trace)| == |sets| && run.trace != []
      && run.trace[|run.trace| - 1] == MeanReported(WerMean(SumErr(ScoresIn(run.trace)) / |sets| as real))
  {
    var p := Prepare(attrs, model, sets[0], env).value;
    var run := EvalSets(attrs, model, decodeDir, sets, env);
    PreparedMeans(attrs, model, decodeDir, sets, env);
    LastMeanOfUnit(StrAttr(attrs, "unit").value, OptionalUnitAttr(p.attrs, "recog_unit").value,
                   ScoresIn(run.trace), |sets| as real);
  }

  /**
   * `word_char` is scored as words but reported by the `char` branch: the WER mean
   * with a CER mean that nothing ever added to, 0.
   */
  lemma WordCharReportsZeroCer(attrs: map<string, Value>, model: string, decodeDir: string, sets: seq<string>, env: Env)
    requires sets != [] && Prepare(attrs, model, sets[0], env).Ok?
    requires StrAttr(attrs, "unit") == Ok("word_char") && Attr(attrs, "recog_unit") == Ok(Bool(false))
    ensures var run := EvalSets(attrs, model, decodeDir, sets, env);
      && run.Completed? && |ScoresIn(run.trace)| == |sets| && run.trace != []
      && run.trace[|run.trace| - 1] == MeanReported(WerCerMean(SumErr(ScoresIn(run.trace)) / |sets| as real, 0.0))
  {
    var p := Prepare(attrs, model, sets[0], env).value;
    var run := EvalSets(attrs, model, decodeDir, sets, env);
    PreparedMeans(attrs, model, decodeDir, sets, env);
    assert OptionalUnitAttr(p.attrs, "recog_unit") == Ok(None);
    LastMeanOfUnit("word_char", None, ScoresIn(run.trace), |sets| as real);
  }

  /** For `char` without `recog_unit` the last line holds the WER and the CER means. */
  lemma CharMeansAreAverages(attrs: map<string, Value>, model: string, decodeDir: string, sets: seq<string>, env: Env)
    requires sets != [] && Prepare(attrs, model, sets[0], env).Ok?
    requires StrAttr(attrs, "unit") == Ok("char") && Attr(attrs, "recog_unit") == Ok(Bool(false))
    ensures var run := EvalSets(attrs, model, decodeDir, sets, env);
      var n := |sets| as real;
      && run.Completed? && |ScoresIn(run.trace)| == |sets| && run.trace != []
      && run.trace[|run.trace| - 1] == MeanReported(WerCerMean(SumErr(ScoresIn(run.trace)) / n, SumCer(ScoresIn(run.trace)) / n))
  {
    var p := Prepare(attrs, model, sets[0], env).value;
    var run := EvalSets(attrs, model, decodeDir, sets, env);
    PreparedMeans(attrs, model, decodeDir, sets, env);
    assert OptionalUnitAttr(p.attrs, "recog_unit") == Ok(None);
    LastMeanOfUnit("char", None, ScoresIn(run.trace), |sets| as real);
  }

  /** For `phone` with `recog_unit` naming it, the last line is the PER mean. */
  lemma PhoneMeanIsAverage(attrs: map<string, Value>, model: string, decodeDir: string, sets: seq<string>, env: Env)
    requires sets != [] && Prepare(attrs, model, sets[0], env).Ok?
    requires StrAttr(attrs, "unit") == Ok("phone") && Attr(attrs, "recog_unit") == Ok(Str("phone"))
    ensures var run := EvalSets(attrs, model, decodeDir, sets, env);
      && run.Completed? && |ScoresIn(run.trace)| == |sets| && run.trace != []
      && run.trace[|run.trace| - 1] == MeanReported(PerMean(SumErr(ScoresIn(run.trace)) / |sets| as real))
  {
    var p := Prepare(attrs, model, sets[0], env).value;
    var run := EvalSets(attrs, model, decodeDir, sets, env);
    PreparedMeans(attrs, model, decodeDir, sets, env);
    assert OptionalUnitAttr(p.attrs, "recog_unit") == Ok(Some("phone"));
    LastMeanOfUnit("phone", Some("phone"), ScoresIn(run.trace), |sets| as real);
  }

  // ---------------------------------------------------------------------------
  // Runs that stop early.

  /** A unit the dataset rejects stops the run at the first `Dataset(...)`, before the model is built. */
  lemma UnknownUnitScoresNothing(attrs: map<string, Value>, model: string, decodeDir: string, sets: seq<string>, env: Env)
    requires sets != [] && StrAttr(attrs, "unit").Ok? && !LoaderAsr.IsMainUnit(StrAttr(attrs, "unit").value)
    ensures var run := EvalSets(attrs, model, decodeDir, sets, env);
      && run.Aborted? && run.trace == []
      && (run.error == DatasetFailed(LoaderAsr.InvalidUnit(StrAttr(attrs, "unit").value))
          || run.error.MissingAttribute? || run.error.BadAttribute?)
  {
    var open := OpenDataset(attrs, sets[0], env);
    if DatasetArgs(attrs, sets[0], env).Ok? {
      LoaderAsr.SetUpErrors(DatasetArgs(attrs, sets[0], env).value, env.countVocab);
      assert open == Err(DatasetFailed(LoaderAsr.InvalidUnit(StrAttr(attrs, "unit").value)));
    }
  }

  /**
   * A phone model with `recog_unit` left at False is built and loaded, and then the
   * dispatch raises before any set is scored.
   */
  lemma PhoneWithoutRecogUnitAborts(attrs: map<string, Value>, model: string, decodeDir: string, sets: seq<string>, env: Env)
    requires sets != [] && OpenDataset(attrs, sets[0], env).Ok?
    requires Initialize(attrs, OpenDataset(attrs, sets[0], env).value, model, sets[0], env).Ok?
    requires StrAttr(attrs, "unit") == Ok("phone") && Attr(attrs, "recog_unit") == Ok(Bool(false))
    ensures var loaded := Initialize(attrs, OpenDataset(attrs, sets[0], env).value, model, sets[0], env).value;
      && EvalSets(attrs, model, decodeDir, sets, env) == Aborted(loaded.prefix, RecogUnitNotIterable)
      && loaded.prefix[0].ModelBuilt?
  {
    var ds := OpenDataset(attrs, sets[0], env).value;
    InitializeShape(attrs, ds, model, sets[0], env);
    PhoneNeedsRecogUnit();
  }
}
