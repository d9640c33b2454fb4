/**
 * The ASR dataset of neural_sp/datasets/loader_asr.py: construction of a
 * `Dataset` from its manifests (converter selection, the length and CTC filters,
 * alignment with the first sub-task, ordering) and the assembly of one batch.
 */
module LoaderAsr {
  import opened Wrappers
  import opened Text
  import opened Manifest

  /**
   * The constructor's arguments. Python's falsy `False` defaults of the optional
   * paths and units are `None`; the manifests themselves are passed as parsed tables.
   */
  datatype Config = Config(
    csvPath: string,
    dictPath: string,
    unit: string,
    batchSize: int,
    nepochs: Option<int>,
    isTest: bool,
    minNframes: int,
    maxNframes: int,
    shuffle: bool,
    sortByInputLength: bool,
    short2long: bool,
    sortStopEpoch: Option<int>,
    nques: Option<int>,
    dynamicBatching: bool,
    ctc: bool,
    subsampleFactor: int,
    skipSpeech: bool,
    wpModel: Option<string>,
    wpModelSub1: Option<string>,
    wpModelSub2: Option<string>,
    dictPathSub1: Option<string>,
    unitSub1: Option<string>,
    ctcSub1: bool,
    subsampleFactorSub1: int,
    dictPathSub2: Option<string>,
    unitSub2: Option<string>,
    ctcSub2: bool,
    subsampleFactorSub2: int)

  /** The constructor's keyword defaults for the four required arguments. */
  function Defaults(csvPath: string, dictPath: string, unit: string, batchSize: int): (c: Config)
    ensures c.minNframes == 40 && c.maxNframes == 2000 && !c.isTest
    ensures !c.shuffle && !c.sortByInputLength && !c.ctc && c.subsampleFactor == 1
  {
    Config(csvPath, dictPath, unit, batchSize, None, false, 40, 2000, false, false, false, None, None,
           false, false, 1, false, None, None, None, None, None, false, 1, None, None, false, 1)
  }

  /** Python truthiness of an optional string argument. */
  predicate Truthy(o: Option<string>)
  {
    o.Some? && o.value != ""
  }

  // ---------------------------------------------------------------------------
  // Token converters.

  /** The converter pairs a dataset can hold: `id2word`/`word2id`, `id2wp`/`wp2id`, ... */
  datatype ConverterKind = WordConverters | WordpieceConverters | CharConverters | PhoneConverters

  /** What a converter pair is built from. */
  datatype Converters = Converters(dictPath: string, wpModel: Option<string>, wordCharMix: bool)

  /** `ValueError(unit)`. */
  datatype LoaderError = InvalidUnit(unit: string)

  predicate IsMainUnit(unit: string)
  {
    unit == "word" || unit == "word_char" || unit == "wp" || unit == "char" || Contains(unit, "phone")
  }

  /** The converters for the main task, tried in the source's order. */
  function MainConverters(unit: string, dictPath: string, wpModel: Option<string>)
    : (r: Result<(ConverterKind, Converters), LoaderError>)
    ensures r.Err? <==> !IsMainUnit(unit)
    ensures r.Err? ==> r.error == InvalidUnit(unit)
    ensures r.Ok? ==> r.value.1.dictPath == dictPath
    ensures r.Ok? ==> (r.value.0 == WordConverters <==> unit == "word" || unit == "word_char")
    ensures r.Ok? && r.value.0 == WordConverters ==> r.value.1.wordCharMix == (unit == "word_char")
    ensures r.Ok? ==> (r.value.0 == WordpieceConverters <==> unit == "wp")
    ensures r.Ok? && r.value.0 == WordpieceConverters ==> r.value.1.wpModel == wpModel
    ensures r.Ok? ==> (r.value.0 == CharConverters <==> unit == "char")
    ensures r.Ok? ==> (r.value.0 == PhoneConverters
                       <==> unit != "word" && unit != "word_char" && unit != "wp" && unit != "char")
  {
    if unit == "word" || unit == "word_char" then Ok((WordConverters, Converters(dictPath, None, unit == "word_char")))
    else if unit == "wp" then Ok((WordpieceConverters, Converters(dictPath, wpModel, false)))
    else if unit == "char" then Ok((CharConverters, Converters(dictPath, None, false)))
    else if Contains(unit, "phone") then Ok((PhoneConverters, Converters(dictPath, None, false)))
    else Err(InvalidUnit(unit))
  }

  predicate IsSubUnit(unit: string)
  {
    unit == "wp" || unit == "char" || Contains(unit, "phone")
  }

  /** The converters for a sub-task whose dictionary is given; a falsy unit installs none. */
  function SubConverters(unit: Option<string>, dictPath: string, wpModel: Option<string>)
    : (r: Result<Option<(ConverterKind, Converters)>, LoaderError>)
    ensures !Truthy(unit) ==> r == Ok(None)
    ensures Truthy(unit) ==> (r.Err? <==> !IsSubUnit(unit.value))
    ensures r.Err? ==> r.error == InvalidUnit(unit.value)
    ensures r.Ok? && r.value.Some? ==>
              Truthy(unit) && r.value.value.1.dictPath == dictPath && !r.value.value.1.wordCharMix
              && r.value.value.0 != WordConverters
              && (r.value.value.0 == WordpieceConverters <==> unit.value == "wp")
              && (r.value.value.0 == CharConverters <==> unit.value == "char")
  {
    if !Truthy(unit) then Ok(None)
    else if unit.value == "wp" then Ok(Some((WordpieceConverters, Converters(dictPath, wpModel, false))))
    else if unit.value == "char" then Ok(Some((CharConverters, Converters(dictPath, None, false))))
    else if Contains(unit.value, "phone") then Ok(Some((PhoneConverters, Converters(dictPath, None, false))))
    else Err(InvalidUnit(unit.value))
  }

  /** A sub-task's vocabulary size (-1 without a dictionary) and the converters it installs. */
  function SubTask(dictPath: Option<string>, unit: Option<string>, wpModel: Option<string>, countVocab: string -> nat)
    : (r: Result<(int, Option<(ConverterKind, Converters)>), LoaderError>)
    ensures !Truthy(dictPath) ==> r == Ok((-1, None))
    ensures Truthy(dictPath) ==> r.Ok? == SubConverters(unit, dictPath.value, wpModel).Ok?
    ensures Truthy(dictPath) && r.Ok? ==> r.value.0 == countVocab(dictPath.value) >= 0
  {
    var none: int := -1;
    if !Truthy(dictPath) then Ok((none, None))
    else
      match SubConverters(unit, dictPath.value, wpModel)
      case Err(e) => Err(e)
      case Ok(c) =>
        var size: int := countVocab(dictPath.value);
        Ok((size, c))
  }

  function Install(convs: map<ConverterKind, Converters>, c: Option<(ConverterKind, Converters)>)
    : map<ConverterKind, Converters>
  {
    if c.None? then convs else convs[c.value.0 := c.value.1]
  }

  /** Vocabulary sizes and the converters the constructor installs, in its order. */
  datatype Setup = Setup(vocab: int, vocabSub1: int, vocabSub2: int, converters: map<ConverterKind, Converters>)

  function SetUp(cfg: Config, countVocab: string -> nat): (r: Result<Setup, LoaderError>)
  {
    match MainConverters(cfg.unit, cfg.dictPath, cfg.wpModel)
    case Err(e) => Err(e)
    case Ok(main) =>
      match SubTask(cfg.dictPathSub1, cfg.unitSub1, cfg.wpModelSub1, countVocab)
      case Err(e) => Err(e)
      case Ok(sub1) =>
        match SubTask(cfg.dictPathSub2, cfg.unitSub2, cfg.wpModelSub2, countVocab)
        case Err(e) => Err(e)
        case Ok(sub2) =>
          Ok(Setup(countVocab(cfg.dictPath), sub1.0, sub2.0,
                   Install(Install(map[main.0 := main.1], sub1.1), sub2.1)))
  }

  /** Unit validation: an invalid main unit is reported first, then sub1's, then sub2's. */
  lemma SetUpErrors(cfg: Config, countVocab: string -> nat)
    ensures !IsMainUnit(cfg.unit) ==> SetUp(cfg, countVocab) == Err(InvalidUnit(cfg.unit))
    ensures IsMainUnit(cfg.unit) && Truthy(cfg.dictPathSub1) && Truthy(cfg.unitSub1) && !IsSubUnit(cfg.unitSub1.value)
            ==> SetUp(cfg, countVocab) == Err(InvalidUnit(cfg.unitSub1.value))
    ensures SetUp(cfg, countVocab).Ok? <==>
              IsMainUnit(cfg.unit)
              && (Truthy(cfg.dictPathSub1) && Truthy(cfg.unitSub1) ==> IsSubUnit(cfg.unitSub1.value))
              && (Truthy(cfg.dictPathSub2) && Truthy(cfg.unitSub2) ==> IsSubUnit(cfg.unitSub2.value))
  {
  }

  /** The converters and vocabulary sizes do not depend on which manifest is loaded. */
  lemma SetUpIgnoresCsvPath(cfg: Config, csvPath: string, countVocab: string -> nat)
    ensures SetUp(cfg.(csvPath := csvPath), countVocab) == SetUp(cfg, countVocab)
  {
  }

  /** What a successful setup holds: the sizes, and the main converters unless a sub-task replaced them. */
  lemma SetUpResult(cfg: Config, countVocab: string -> nat)
    requires SetUp(cfg, countVocab).Ok?
    ensures var s := SetUp(cfg, countVocab).value;
      && s.vocab == countVocab(cfg.dictPath)
      && (s.vocabSub1 == -1 <==> !Truthy(cfg.dictPathSub1))
      && (s.vocabSub2 == -1 <==> !Truthy(cfg.dictPathSub2))
      && MainConverters(cfg.unit, cfg.dictPath, cfg.wpModel).value.0 in s.converters
      && (cfg.unit == "word" || cfg.unit == "word_char" ==>
            s.converters[WordConverters] == Converters(cfg.dictPath, None, cfg.unit == "word_char"))
      && ((!Truthy(cfg.dictPathSub1) || !Truthy(cfg.unitSub1)) && (!Truthy(cfg.dictPathSub2) || !Truthy(cfg.unitSub2))
          ==> s.converters == map[MainConverters(cfg.unit, cfg.dictPath, cfg.wpModel).value.0
                                  := MainConverters(cfg.unit, cfg.dictPath, cfg.wpModel).value.1])
  {
  }

  // ---------------------------------------------------------------------------
  // Selecting and ordering rows.

  function CtcStage(t: Table, ctc: bool, factor: int): (r: Table)
    requires Valid(t)
    ensures Valid(r) && SubTable(r, t)
  {
    if ctc && factor > 1 then CtcFeasible(t, factor) else SubTableReflexive(t); t
  }

  /** Rows that pass the training filters of one table. */
  function Filtered(t: Table, minFrames: int, maxFrames: int, ctc: bool, factor: int): (r: Table)
    requires Valid(t)
    ensures Valid(r) && SubTable(r, t)
  {
    var w := WithinFrames(t, minFrames, maxFrames);
    var r := CtcStage(w, ctc, factor);
    SubTableTransitive(r, w, t);
    r
  }

  /** "Make up the number": cut both tables to their common labels, but only when their sizes differ. */
  function Align(df: Table, sub1: Table): (r: (Table, Table))
    requires Valid(df) && Valid(sub1)
    ensures Valid(r.0) && Valid(r.1) && SubTable(r.0, df) && SubTable(r.1, sub1)
  {
    if Size(df) != Size(sub1) then
      var d := Restrict(df, sub1.rows.Keys);
      (d, Restrict(sub1, d.rows.Keys))
    else
      SubTableReflexive(df);
      SubTableReflexive(sub1);
      (df, sub1)
  }

  /** The main and sub1 tables after the filtering stages of the constructor. */
  function Survivors(cfg: Config, main: Table, sub1: Option<Table>): (r: (Table, Option<Table>))
    requires Valid(main) && (sub1.Some? ==> Valid(sub1.value))
    ensures Valid(r.0) && SubTable(r.0, main)
    ensures r.1.Some? <==> sub1.Some?
    ensures r.1.Some? ==> Valid(r.1.value) && SubTable(r.1.value, sub1.value)
  {
    if cfg.isTest then
      SubTableReflexive(main);
      if sub1.Some? then SubTableReflexive(sub1.value); (main, sub1) else (main, sub1)
    else
      var df := Filtered(main, cfg.minNframes, cfg.maxNframes, cfg.ctc, cfg.subsampleFactor);
      if sub1.None? then (df, None)
      else
        var s1 := Filtered(sub1.value, cfg.minNframes, cfg.maxNframes, cfg.ctcSub1, cfg.subsampleFactorSub1);
        var aligned := Align(df, s1);
        SubTableTransitive(aligned.0, df, main);
        SubTableTransitive(aligned.1, s1, sub1.value);
        (aligned.0, Some(aligned.1))
  }

  function OrderingOf(cfg: Config): Ordering
  {
    if cfg.sortByInputLength then ByInputLength(cfg.short2long)
    else if cfg.shuffle then Shuffled
    else ByUttId
  }

  // ---------------------------------------------------------------------------
  // The dataset.

  /** `self.set`: the manifest's file name up to its first '.'. */
  function SetName(csvPath: string): string
  {
    FirstField(BaseName(csvPath))
  }

  /** The fields `__init__` sets. Nothing in this file changes them afterwards. */
  datatype Dataset = Dataset(
    cfg: Config,
    setName: string,
    vocab: int,
    vocabSub1: int,
    vocabSub2: int,
    converters: map<ConverterKind, Converters>,
    df: Table,
    dfSub1: Option<Table>,
    dfSub2: Option<Table>,
    rest: set<int>,
    inputDim: int)

  /**
   * `Dataset.__init__`. `countVocab` is the vocabulary count of a dictionary file and
   * `inputDim` the feature width read from the first utterance; both are file reads.
   */
  method Create(cfg: Config, csv: Table, csvSub1: Option<Table>, csvSub2: Option<Table>,
                countVocab: string -> nat, inputDim: int)
    returns (r: Result<Dataset, LoaderError>)
    requires Valid(csv) && (csvSub1.Some? ==> Valid(csvSub1.value)) && (csvSub2.Some? ==> Valid(csvSub2.value))
    ensures r.Err? <==> SetUp(cfg, countVocab).Err?
    ensures r.Err? ==> r.error == SetUp(cfg, countVocab).error
    ensures r.Ok? ==>
      var ds, setup, kept := r.value, SetUp(cfg, countVocab).value, Survivors(cfg, csv, csvSub1);
      && ds.cfg == cfg && ds.setName == SetName(cfg.csvPath) && ds.inputDim == inputDim
      && ds.vocab == setup.vocab && ds.vocabSub1 == setup.vocabSub1 && ds.vocabSub2 == setup.vocabSub2
      && ds.converters == setup.converters
      && Valid(ds.df) && ds.df.rows == kept.0.rows && Arranged(kept.0, OrderingOf(cfg), ds.df.labels)
      && ds.dfSub1 == kept.1 && ds.dfSub2 == csvSub2
      && ds.rest == ds.df.rows.Keys
  {
    var setup := SetUp(cfg, countVocab);
    if setup.Err? {
      return Err(setup.error);
    }
    var df, dfSub1 := FilterTables(cfg, csv, csvSub1);
    var ord := OrderingOf(cfg);
    ArrangementExists(df, ord);
    var order :| Arranged(df, ord, order);
    ArrangedValid(df, ord, order);
    var kept := df;
    df := Table(order, df.rows);
    assert df.rows.Keys == kept.rows.Keys;
    r := Ok(Dataset(cfg, SetName(cfg.csvPath), setup.value.vocab, setup.value.vocabSub1, setup.value.vocabSub2,
                    setup.value.converters, df, dfSub1, csvSub2, df.rows.Keys, inputDim));
  }

  /** The filtering stages of the constructor, applied to the tables in turn. */
  method FilterTables(cfg: Config, csv: Table, csvSub1: Option<Table>) returns (df: Table, dfSub1: Option<Table>)
    requires Valid(csv) && (csvSub1.Some? ==> Valid(csvSub1.value))
    ensures (df, dfSub1) == Survivors(cfg, csv, csvSub1)
  {
    df := csv;
    dfSub1 := csvSub1;
    if !cfg.isTest {
      df := WithinFrames(df, cfg.minNframes, cfg.maxNframes);
      if cfg.ctc && cfg.subsampleFactor > 1 {
        df := CtcFeasible(df, cfg.subsampleFactor);
      }
      assert df == Filtered(csv, cfg.minNframes, cfg.maxNframes, cfg.ctc, cfg.subsampleFactor);
      if dfSub1.Some? {
        var sub1 := WithinFrames(dfSub1.value, cfg.minNframes, cfg.maxNframes);
        if cfg.ctcSub1 && cfg.subsampleFactorSub1 > 1 {
          sub1 := CtcFeasible(sub1, cfg.subsampleFactorSub1);
        }
        assert sub1 == Filtered(csvSub1.value, cfg.minNframes, cfg.maxNframes, cfg.ctcSub1, cfg.subsampleFactorSub1);
        ghost var aligned := Align(df, sub1);
        if Size(df) != Size(sub1) {
          df := Restrict(df, sub1.rows.Keys);
          sub1 := Restrict(sub1, df.rows.Keys);
        }
        assert (df, sub1) == aligned;
        dfSub1 := Some(sub1);
      }
    }
  }

  // ---------------------------------------------------------------------------
  // Properties of the filtering stages.

  /** In training mode every surviving main row has `min_nframes <= x_len <= max_nframes`,
      and `y_len <= x_len // subsample_factor` when the CTC filter is on. */
  lemma TrainingRowsSatisfyFilters(cfg: Config, main: Table, sub1: Option<Table>)
    requires Valid(main) && (sub1.Some? ==> Valid(sub1.value))
    requires !cfg.isTest
    ensures var df := Survivors(cfg, main, sub1).0;
      forall l :: l in df.rows ==>
        && cfg.minNframes <= df.rows[l].xLen <= cfg.maxNframes
        && (cfg.ctc && cfg.subsampleFactor > 1 ==> df.rows[l].yLen <= df.rows[l].xLen / cfg.subsampleFactor)
  {
  }

  /** Without a sub1 table, a training-mode main row survives exactly when it passes both filters. */
  lemma TrainingFiltersComplete(cfg: Config, main: Table)
    requires Valid(main) && !cfg.isTest
    ensures var df := Survivors(cfg, main, None).0;
      forall l :: l in df.rows <==>
        && l in main.rows
        && cfg.minNframes <= main.rows[l].xLen <= cfg.maxNframes
        && (cfg.ctc && cfg.subsampleFactor > 1 ==> main.rows[l].yLen <= main.rows[l].xLen / cfg.subsampleFactor)
  {
  }

  /** In test mode no row is removed from any table. */
  lemma TestModeKeepsRows(cfg: Config, main: Table, sub1: Option<Table>)
    requires Valid(main) && (sub1.Some? ==> Valid(sub1.value))
    requires cfg.isTest
    ensures Survivors(cfg, main, sub1) == (main, sub1)
  {
  }

  /** Sub1 rows pass the thresholds and sub1's own CTC condition. */
  lemma Sub1RowsSatisfyFilters(cfg: Config, main: Table, sub1: Table)
    requires Valid(main) && Valid(sub1) && !cfg.isTest
    ensures var s := Survivors(cfg, main, Some(sub1)).1.value;
      forall l :: l in s.rows ==>
        && cfg.minNframes <= s.rows[l].xLen <= cfg.maxNframes
        && (cfg.ctcSub1 && cfg.subsampleFactorSub1 > 1 ==> s.rows[l].yLen <= s.rows[l].xLen / cfg.subsampleFactorSub1)
  {
  }

  /** When the filtered main and sub1 tables differ in size, both end with exactly their common labels. */
  lemma AlignedWhenSizesDiffer(df: Table, sub1: Table)
    requires Valid(df) && Valid(sub1) && Size(df) != Size(sub1)
    ensures Align(df, sub1).0.rows.Keys == df.rows.Keys * sub1.rows.Keys
    ensures Align(df, sub1).1.rows.Keys == df.rows.Keys * sub1.rows.Keys
  {
  }

  /** When the sizes agree, neither table is touched. */
  lemma EqualSizesUntouched(df: Table, sub1: Table)
    requires Valid(df) && Valid(sub1) && Size(df) == Size(sub1)
    ensures Align(df, sub1) == (df, sub1)
  {
  }

  /**
   * The size test does not guarantee alignment: if the main filters drop one
   * utterance and the sub1 filters another, the sizes agree and the label sets differ.
   */
  lemma EqualSizesCanStayMisaligned()
    ensures var r := Record("u", "f", 100, 80, "t", "5", 1, 10);
      var df := Table([0, 2], map[0 := r, 2 := r]);
      var sub1 := Table([0, 1], map[0 := r, 1 := r]);
      Valid(df) && Valid(sub1) && Align(df, sub1).0.rows.Keys != Align(df, sub1).1.rows.Keys
  {
    var r := Record("u", "f", 100, 80, "t", "5", 1, 10);
    var df := Table([0, 2], map[0 := r, 2 := r]);
    var sub1 := Table([0, 1], map[0 := r, 1 := r]);
    assert Size(df) == Size(sub1);
    assert 2 in df.rows.Keys && 2 !in sub1.rows.Keys;
  }

  /** Three utterances of 50, 150 and 2500 frames under the default thresholds: only the long one is dropped. */
  lemma DefaultThresholdExample(csvPath: string, dictPath: string)
    ensures var cfg := Defaults(csvPath, dictPath, "char", 1);
      var main := Table([0, 1, 2], map[0 := Utt(50), 1 := Utt(150), 2 := Utt(2500)]);
      Valid(main) && Survivors(cfg, main, None).0.rows.Keys == {0, 1}
  {
    var cfg := Defaults(csvPath, dictPath, "char", 1);
    var main := Table([0, 1, 2], map[0 := Utt(50), 1 := Utt(150), 2 := Utt(2500)]);
    assert cfg.minNframes == 40 && cfg.maxNframes == 2000 && !cfg.ctc;
    assert main.rows[0].xLen == 50 && main.rows[1].xLen == 150 && main.rows[2].xLen == 2500;
    TrainingFiltersComplete(cfg, main);
    var kept := Survivors(cfg, main, None).0;
    assert 2 !in kept.rows;
    assert 0 in kept.rows && 1 in kept.rows;
  }

  /** An utterance record with the given number of frames, for examples. */
  function Utt(frames: int): Record
  {
    Record("utt", "feats.ark:1", frames, 80, "a b", "4 5", 2, 10)
  }

  // ---------------------------------------------------------------------------
  // Batches.

  /** A target: raw text in test mode, token ids otherwise. */
  datatype Target = Transcript(text: string) | TokenIds(ids: seq<int>)

  /**
   * Why a batch cannot be made: a sub-task table has no row with the label (a
   * KeyError), or `int()` rejected a field of the row's `token_id` (a ValueError).
   */
  datatype BatchError = MissingRow(row: int) | BadTokenId(row: int)

  /** The value of `make_batch`; `M` is whatever the feature reader returns for a path. */
  datatype Batch<M> = Batch(
    xs: seq<M>,
    xlens: seq<int>,
    ys: seq<Target>,
    ylens: seq<int>,
    ysSub1: seq<Target>,
    ylensSub1: seq<int>,
    ysSub2: seq<Target>,
    ylensSub2: seq<int>,
    uttIds: seq<string>,
    text: seq<string>,
    featPath: seq<string>)

  predicate AllIn(t: Table, idx: seq<int>)
  {
    forall k :: 0 <= k < |idx| ==> idx[k] in t.rows
  }

  /** What row `l` gives as a target. */
  function TargetOf(t: Table, isTest: bool, l: int): Option<Target>
    requires l in t.rows
  {
    if isTest then Some(Transcript(t.rows[l].text))
    else
      match ParseTokenIds(t.rows[l].tokenId)
      case None => None
      case Some(ids) => Some(TokenIds(ids))
  }

  /** What the lookup of label `l` in `t` gives: its target, or the error it raises. */
  function RowTarget(t: Table, isTest: bool, l: int): (r: Result<Target, BatchError>)
    ensures r.Ok? <==> l in t.rows && TargetOf(t, isTest, l).Some?
    ensures r.Ok? ==> TargetOf(t, isTest, l) == Some(r.value)
    ensures r.Err? ==> r.error == if l in t.rows then BadTokenId(l) else MissingRow(l)
  {
    if l !in t.rows then Err(MissingRow(l))
    else
      match TargetOf(t, isTest, l)
      case None => Err(BadTokenId(l))
      case Some(y) => Ok(y)
  }

  /** Every label of `idx` is a row of `t` whose target can be read. */
  predicate RowsReadable(t: Table, isTest: bool, idx: seq<int>)
  {
    forall k :: 0 <= k < |idx| ==> RowTarget(t, isTest, idx[k]).Ok?
  }

  /**
   * The targets of the rows `idx`, in order; the comprehension stops at the first
   * label whose lookup raises, with that label's error.
   */
  function Targets(t: Table, isTest: bool, idx: seq<int>): (r: Result<seq<Target>, BatchError>)
    ensures r.Ok? <==> RowsReadable(t, isTest, idx)
    ensures r.Ok? ==> |r.value| == |idx| && forall k :: 0 <= k < |idx| ==> RowTarget(t, isTest, idx[k]) == Ok(r.value[k])
    ensures r.Err? ==> exists k :: 0 <= k < |idx| && RowTarget(t, isTest, idx[k]) == Err(r.error)
                                   && forall j :: 0 <= j < k ==> RowTarget(t, isTest, idx[j]).Ok?
  {
    if idx == [] then Ok([])
    else
      match RowTarget(t, isTest, idx[0])
      case Err(e) => Err(e)
      case Ok(y) =>
        var rest := Targets(t, isTest, idx[1..]);
        assert forall k :: 1 <= k < |idx| ==> idx[1..][k - 1] == idx[k];
        match rest
        case Err(e) =>
          ghost var k :| 0 <= k < |idx[1..]| && RowTarget(t, isTest, idx[1..][k]) == Err(e)
                         && forall j :: 0 <= j < k ==> RowTarget(t, isTest, idx[1..][j]).Ok?;
          assert RowTarget(t, isTest, idx[k + 1]) == Err(e);
          Err(e)
        case Ok(ys) => Ok([y] + ys)
  }

  /**
   * The `ys`/`ylens` pair of an optional sub-task table: empty lists when the table
   * is absent; `ylens` is only read once every target has been.
   */
  function SubTargets(t: Option<Table>, isTest: bool, idx: seq<int>): (r: Result<(seq<Target>, seq<int>), BatchError>)
    ensures t.None? ==> r == Ok(([], []))
    ensures t.Some? ==> (r.Ok? <==> RowsReadable(t.value, isTest, idx))
    ensures t.Some? && r.Ok? ==>
      && AllIn(t.value, idx)
      && |r.value.0| == |idx| && (forall k :: 0 <= k < |idx| ==> Some(r.value.0[k]) == TargetOf(t.value, isTest, idx[k]))
      && |r.value.1| == |idx| && (forall k :: 0 <= k < |idx| ==> r.value.1[k] == t.value.rows[idx[k]].yLen)
    ensures r.Err? ==> t.Some? && Targets(t.value, isTest, idx) == Err(r.error)
  {
    if t.None? then Ok(([], []))
    else
      match Targets(t.value, isTest, idx)
      case Err(e) => Err(e)
      case Ok(ys) =>
        assert AllIn(t.value, idx);
        Ok((ys, seq(|idx|, k requires 0 <= k < |idx| => t.value.rows[idx[k]].yLen)))
  }

  /** Every row the batch names exists in every table the dataset holds. */
  predicate Addressable(ds: Dataset, idx: seq<int>)
  {
    AllIn(ds.df, idx) && (ds.dfSub1.Some? ==> AllIn(ds.dfSub1.value, idx)) && (ds.dfSub2.Some? ==> AllIn(ds.dfSub2.value, idx))
  }

  /** The per-utterance fields of the main table that a batch carries, in batch order. */
  function Features<M>(t: Table, idx: seq<int>, skipSpeech: bool, readMat: string -> M): (r: (seq<M>, seq<int>))
    requires AllIn(t, idx)
    ensures skipSpeech ==> r == ([], [])
    ensures !skipSpeech ==>
      && |r.0| == |idx| && (forall k :: 0 <= k < |idx| ==> r.0[k] == readMat(t.rows[idx[k]].featPath))
      && |r.1| == |idx| && (forall k :: 0 <= k < |idx| ==> r.1[k] == t.rows[idx[k]].xLen)
  {
    if skipSpeech then ([], [])
    else (seq(|idx|, k requires 0 <= k < |idx| => readMat(t.rows[idx[k]].featPath)),
          seq(|idx|, k requires 0 <= k < |idx| => t.rows[idx[k]].xLen))
  }

  /** A batch from its targets and the main table's per-utterance columns. */
  function Assemble<M>(t: Table, idx: seq<int>, skipSpeech: bool, readMat: string -> M,
                       ys: seq<Target>, sub1: (seq<Target>, seq<int>), sub2: (seq<Target>, seq<int>)): (b: Batch<M>)
    requires AllIn(t, idx)
    ensures (b.xs, b.xlens) == Features(t, idx, skipSpeech, readMat)
    ensures b.ys == ys && (b.ysSub1, b.ylensSub1) == sub1 && (b.ysSub2, b.ylensSub2) == sub2
    ensures |b.ylens| == |idx| && forall k :: 0 <= k < |idx| ==> b.ylens[k] == t.rows[idx[k]].yLen
    ensures |b.uttIds| == |idx| && forall k :: 0 <= k < |idx| ==> b.uttIds[k] == t.rows[idx[k]].uttId
    ensures |b.text| == |idx| && forall k :: 0 <= k < |idx| ==> b.text[k] == t.rows[idx[k]].text
    ensures |b.featPath| == |idx| && forall k :: 0 <= k < |idx| ==> b.featPath[k] == t.rows[idx[k]].featPath
  {
    var x := Features(t, idx, skipSpeech, readMat);
    Batch(x.0, x.1, ys, seq(|idx|, k requires 0 <= k < |idx| => t.rows[idx[k]].yLen),
          sub1.0, sub1.1, sub2.0, sub2.1,
          seq(|idx|, k requires 0 <= k < |idx| => t.rows[idx[k]].uttId),
          seq(|idx|, k requires 0 <= k < |idx| => t.rows[idx[k]].text),
          seq(|idx|, k requires 0 <= k < |idx| => t.rows[idx[k]].featPath))
  }

  /** Every target the batch reads, in every table the dataset holds, can be looked up. */
  predicate BatchReadable(ds: Dataset, idx: seq<int>)
  {
    RowsReadable(ds.df, ds.cfg.isTest, idx)
    && (ds.dfSub1.Some? ==> RowsReadable(ds.dfSub1.value, ds.cfg.isTest, idx))
    && (ds.dfSub2.Some? ==> RowsReadable(ds.dfSub2.value, ds.cfg.isTest, idx))
  }

  /**
   * `make_batch(utt_indices)`. The labels are rows of the main table (they come from
   * its index); the sub-task tables are looked up by the same labels, after the main
   * targets and sub1 before sub2.
   */
  function MakeBatch<M>(ds: Dataset, idx: seq<int>, readMat: string -> M): (r: Result<Batch<M>, BatchError>)
    requires AllIn(ds.df, idx)
    ensures r.Ok? <==> BatchReadable(ds, idx)
    ensures r.Ok? ==>
      var b, rows := r.value, ds.df.rows;
      && (b.xs, b.xlens) == Features(ds.df, idx, ds.cfg.skipSpeech, readMat)
      && |b.ys| == |idx| && (forall k :: 0 <= k < |idx| ==> Some(b.ys[k]) == TargetOf(ds.df, ds.cfg.isTest, idx[k]))
      && SubTargets(ds.dfSub1, ds.cfg.isTest, idx) == Ok((b.ysSub1, b.ylensSub1))
      && SubTargets(ds.dfSub2, ds.cfg.isTest, idx) == Ok((b.ysSub2, b.ylensSub2))
    ensures r.Err? ==>
      var ys, sub1 := Targets(ds.df, ds.cfg.isTest, idx), SubTargets(ds.dfSub1, ds.cfg.isTest, idx);
      || (ys.Err? && r.error == ys.error)
      || (ys.Ok? && sub1.Err? && r.error == sub1.error)
      || (ys.Ok? && sub1.Ok? && SubTargets(ds.dfSub2, ds.cfg.isTest, idx) == Err(r.error))
  {
    var ys := Targets(ds.df, ds.cfg.isTest, idx);
    var sub1 := SubTargets(ds.dfSub1, ds.cfg.isTest, idx);
    var sub2 := SubTargets(ds.dfSub2, ds.cfg.isTest, idx);
    if ys.Err? then Err(ys.error)
    else if sub1.Err? then Err(sub1.error)
    else if sub2.Err? then Err(sub2.error)
    else Ok(Assemble(ds.df, idx, ds.cfg.skipSpeech, readMat, ys.value, sub1.value, sub2.value))
  }

  /** The per-utterance columns of a batch are read from the main table's rows, in the order of `idx`. */
  lemma BatchColumns<M>(ds: Dataset, idx: seq<int>, readMat: string -> M)
    requires AllIn(ds.df, idx) && MakeBatch(ds, idx, readMat).Ok?
    ensures var b, rows := MakeBatch(ds, idx, readMat).value, ds.df.rows;
      && |b.ylens| == |idx| && (forall k :: 0 <= k < |idx| ==> b.ylens[k] == rows[idx[k]].yLen)
      && |b.uttIds| == |idx| && (forall k :: 0 <= k < |idx| ==> b.uttIds[k] == rows[idx[k]].uttId)
      && |b.text| == |idx| && (forall k :: 0 <= k < |idx| ==> b.text[k] == rows[idx[k]].text)
      && |b.featPath| == |idx| && (forall k :: 0 <= k < |idx| ==> b.featPath[k] == rows[idx[k]].featPath)
  {
  }

  /** In training mode, rows whose `token_id` was written from id lists give those lists back as targets. */
  lemma TrainingTargetsRoundTrip<M>(ds: Dataset, idx: seq<int>, ids: seq<seq<int>>, readMat: string -> M)
    requires AllIn(ds.df, idx) && !ds.cfg.isTest && ds.dfSub1.None? && ds.dfSub2.None?
    requires |ids| == |idx| && forall k :: 0 <= k < |idx| ==> ds.df.rows[idx[k]].tokenId == FormatTokenIds(ids[k])
    ensures MakeBatch(ds, idx, readMat).Ok?
    ensures forall k :: 0 <= k < |idx| ==> MakeBatch(ds, idx, readMat).value.ys[k] == TokenIds(ids[k])
  {
    forall k | 0 <= k < |idx| ensures ParseTokenIds(ds.df.rows[idx[k]].tokenId) == Some(ids[k]) {
      ParseFormatTokenIds(ids[k]);
    }
  }

  /**
   * In test mode nothing is parsed: a batch fails exactly when a label is missing
   * from a sub-task table, and its targets are the transcripts.
   */
  lemma TestTargetsAreTranscripts<M>(ds: Dataset, idx: seq<int>, readMat: string -> M)
    requires AllIn(ds.df, idx) && ds.cfg.isTest
    ensures MakeBatch(ds, idx, readMat).Ok? <==> Addressable(ds, idx)
    ensures MakeBatch(ds, idx, readMat).Ok? ==>
              forall k :: 0 <= k < |idx| ==> MakeBatch(ds, idx, readMat).value.ys[k] == Transcript(ds.df.rows[idx[k]].text)
  {
  }

  /**
   * A batch label the first sub-task table lacks raises KeyError at the first such
   * label, once the main targets have been read; equal-size tables that were not
   * aligned reach this.
   */
  lemma MissingSub1RowFails<M>(ds: Dataset, idx: seq<int>, readMat: string -> M, k: nat)
    requires AllIn(ds.df, idx) && RowsReadable(ds.df, ds.cfg.isTest, idx) && ds.dfSub1.Some?
    requires k < |idx| && idx[k] !in ds.dfSub1.value.rows
    requires forall j :: 0 <= j < k ==> RowTarget(ds.dfSub1.value, ds.cfg.isTest, idx[j]).Ok?
    ensures MakeBatch(ds, idx, readMat) == Err(MissingRow(idx[k]))
  {
    var t := ds.dfSub1.value;
    var ys := Targets(t, ds.cfg.isTest, idx);
    assert RowTarget(t, ds.cfg.isTest, idx[k]).Err?;
    var k' :| 0 <= k' < |idx| && RowTarget(t, ds.cfg.isTest, idx[k']) == Err(ys.error)
              && forall j :: 0 <= j < k' ==> RowTarget(t, ds.cfg.isTest, idx[j]).Ok?;
    assert k' == k;
  }
}
