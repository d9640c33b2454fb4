/**
 * The bookkeeping of neural_sp/models/rnnlm/rnnlm_seq.py (`SeqRNNLM`): constructor
 * validation and layer shapes, the teacher-forcing sequences and masked accuracy
 * counts of `_forward`, the per-layer state list of `predict`, and
 * `initialize_hidden`. The recurrent layers, dropout and the output projection are
 * abstract functions supplied by the caller.
 */
module RnnLmSeq {
  import opened Wrappers

  /** Reserved ids: `<sos>` and `<eos>` share id 2, padding is id 3. */
  const SOS: int := 2
  const EOS: int := 2
  const PAD: int := 3

  /** The fields of `args` the constructor reads; `ndirs` is the attribute inherited from the model base class. */
  datatype Config = Config(
    embDim: nat,
    rnnType: string,
    nunits: nat,
    nlayers: nat,
    nprojs: int,
    tieWeights: bool,
    residual: bool,
    backward: bool,
    vocab: nat,
    ndirs: nat)

  datatype RnnType = Lstm | Gru

  /** `nn.LSTM(inputDim, hiddenDim, nlayers)` or `nn.GRU(...)`. */
  datatype Rnn = Rnn(kind: RnnType, inputDim: int, hiddenDim: int, nlayers: nat)

  /** `LinearND(inputDim, outputDim)`. */
  datatype Linear = Linear(inputDim: int, outputDim: int)

  /** One multi-layer RNN (`fast_impl`), or per-layer RNNs with their dropouts and optional projections. */
  datatype Layers = Fast(rnn: Rnn) | Stacked(rnns: seq<Rnn>, dropouts: nat, projs: Option<seq<Linear>>)

  datatype Lm = Lm(cfg: Config, kind: RnnType, layers: Layers, output: Linear, tied: bool)

  /** The assertion on `rnn_type`, and the ValueError of weight tying. */
  datatype LmError = UnsupportedRnnType(rnnType: string) | TiedWidthMismatch(nunits: int, embDim: int)

  function KindOf(rnnType: string): (r: Option<RnnType>)
    ensures r == Some(Lstm) <==> rnnType == "lstm"
    ensures r == Some(Gru) <==> rnnType == "gru"
    ensures r.None? <==> rnnType != "lstm" && rnnType != "gru"
  {
    if rnnType == "lstm" then Some(Lstm) else if rnnType == "gru" then Some(Gru) else None
  }

  predicate FastImpl(cfg: Config)
  {
    cfg.nprojs == 0 && !cfg.residual
  }

  /** The input width of stacked layer `l`. */
  function LayerInputDim(cfg: Config, l: nat): int
  {
    if l == 0 then cfg.embDim else if cfg.nprojs > 0 then cfg.nprojs else cfg.nunits
  }

  /** The width the output layer reads. */
  function OutputInputDim(cfg: Config): int
  {
    if cfg.nprojs > 0 then cfg.nprojs else cfg.nunits
  }

  /** One projection after every stacked layer but the last. */
  function ProjectionCount(nlayers: nat): nat
  {
    if nlayers == 0 then 0 else nlayers - 1
  }

  function StackedRnns(cfg: Config, kind: RnnType, n: nat): (r: seq<Rnn>)
    ensures |r| == n
    ensures forall l :: 0 <= l < n ==> r[l] == Rnn(kind, LayerInputDim(cfg, l), cfg.nunits, 1)
  {
    if n == 0 then [] else StackedRnns(cfg, kind, n - 1) + [Rnn(kind, LayerInputDim(cfg, n - 1), cfg.nunits, 1)]
  }

  function Projections(cfg: Config, n: nat): seq<Linear>
  {
    seq(n, _ => Linear(cfg.nunits * cfg.ndirs, cfg.nprojs))
  }

  /** The shape `SeqRNNLM(args)` builds, or the error it raises. */
  function Configure(cfg: Config): (r: Result<Lm, LmError>)
    ensures r.Err? <==> KindOf(cfg.rnnType).None? || (cfg.tieWeights && cfg.nunits != cfg.embDim)
    ensures KindOf(cfg.rnnType).None? ==> r == Err(UnsupportedRnnType(cfg.rnnType))
    ensures r.Ok? ==> r.value.cfg == cfg && Some(r.value.kind) == KindOf(cfg.rnnType) && r.value.tied == cfg.tieWeights
    ensures r.Ok? ==> (r.value.layers.Fast? <==> FastImpl(cfg))
    ensures r.Ok? ==> r.value.output == Linear(OutputInputDim(cfg), cfg.vocab)
    ensures r.Ok? && r.value.layers.Fast? ==> r.value.layers.rnn == Rnn(r.value.kind, cfg.embDim, cfg.nunits, cfg.nlayers)
    ensures r.Ok? && r.value.layers.Stacked? ==>
      var s := r.value.layers;
      && |s.rnns| == cfg.nlayers && s.dropouts == cfg.nlayers
      && (forall l :: 0 <= l < cfg.nlayers ==> s.rnns[l] == Rnn(r.value.kind, LayerInputDim(cfg, l), cfg.nunits, 1))
      && (s.projs.Some? <==> cfg.nprojs > 0)
      && (s.projs.Some? ==> |s.projs.value| == ProjectionCount(cfg.nlayers)
                            && forall p :: p in s.projs.value ==> p == Linear(cfg.nunits * cfg.ndirs, cfg.nprojs))
  {
    match KindOf(cfg.rnnType)
    case None => Err(UnsupportedRnnType(cfg.rnnType))
    case Some(kind) =>
      if cfg.tieWeights && cfg.nunits != cfg.embDim then Err(TiedWidthMismatch(cfg.nunits, cfg.embDim))
      else
        var layers :=
          if FastImpl(cfg) then Fast(Rnn(kind, cfg.embDim, cfg.nunits, cfg.nlayers))
          else Stacked(StackedRnns(cfg, kind, cfg.nlayers), cfg.nlayers,
                       if cfg.nprojs > 0 then Some(Projections(cfg, ProjectionCount(cfg.nlayers))) else None);
        Ok(Lm(cfg, kind, layers, Linear(OutputInputDim(cfg), cfg.vocab), cfg.tieWeights))
  }

  /** `SeqRNNLM.__init__`: the layer lists are appended one layer at a time. */
  method Build(cfg: Config) returns (r: Result<Lm, LmError>)
    ensures r == Configure(cfg)
  {
    var kind := KindOf(cfg.rnnType);
    if kind.None? {
      return Err(UnsupportedRnnType(cfg.rnnType));
    }
    var layers: Layers;
    if cfg.nprojs == 0 && !cfg.residual {
      layers := Fast(Rnn(kind.value, cfg.embDim, cfg.nunits, cfg.nlayers));
    } else {
      var rnns: seq<Rnn> := [];
      var dropouts: nat := 0;
      var projs: seq<Linear> := [];
      for l := 0 to cfg.nlayers
        invariant rnns == StackedRnns(cfg, kind.value, l)
        invariant dropouts == l
        invariant projs == Projections(cfg, if cfg.nprojs <= 0 then 0 else if l == cfg.nlayers then ProjectionCount(l) else l)
      {
        var idim := if l == 0 then cfg.embDim else if cfg.nprojs > 0 then cfg.nprojs else cfg.nunits;
        rnns := rnns + [Rnn(kind.value, idim, cfg.nunits, 1)];
        dropouts := dropouts + 1;
        if l != cfg.nlayers - 1 && cfg.nprojs > 0 {
          projs := projs + [Linear(cfg.nunits * cfg.ndirs, cfg.nprojs)];
        }
      }
      layers := Stacked(rnns, dropouts, if cfg.nprojs > 0 then Some(projs) else None);
    }
    var output := Linear(if cfg.nprojs > 0 then cfg.nprojs else cfg.nunits, cfg.vocab);
    if cfg.tieWeights && cfg.nunits != cfg.embDim {
      return Err(TiedWidthMismatch(cfg.nunits, cfg.embDim));
    }
    return Ok(Lm(cfg, kind.value, layers, output, cfg.tieWeights));
  }

  /**
   * Without projections, the stacked layers fit together: each layer reads the
   * width the layer below produces, and the output layer reads the top layer's width.
   */
  lemma StackedWidthsChain(cfg: Config)
    requires Configure(cfg).Ok? && Configure(cfg).value.layers.Stacked? && cfg.nprojs <= 0
    ensures var lm := Configure(cfg).value;
      && (forall l :: 0 < l < cfg.nlayers ==> lm.layers.rnns[l].inputDim == lm.layers.rnns[l - 1].hiddenDim)
      && (cfg.nlayers > 0 ==> lm.output.inputDim == lm.layers.rnns[cfg.nlayers - 1].hiddenDim)
  {
  }

  // ---------------------------------------------------------------------------
  // Teacher forcing.

  function Reversed(s: seq<int>): (r: seq<int>)
    ensures |r| == |s| && forall i :: 0 <= i < |s| ==> r[i] == s[|s| - 1 - i]
  {
    if s == [] then [] else Reversed(s[1..]) + [s[0]]
  }

  /** The longest length in a batch; 0 for an empty batch. */
  function MaxLen(ys: seq<seq<int>>): (n: nat)
    ensures forall b :: 0 <= b < |ys| ==> |ys[b]| <= n
    ensures ys == [] ==> n == 0
  {
    if ys == [] then 0
    else
      var m := MaxLen(ys[1..]);
      assert forall b :: 1 <= b < |ys| ==> ys[b] == ys[1..][b - 1];
      if |ys[0]| >= m then |ys[0]| else m
  }

  lemma {:induction false} MaxLenAttained(ys: seq<seq<int>>)
    requires ys != []
    ensures exists b :: 0 <= b < |ys| && |ys[b]| == MaxLen(ys)
  {
    if |ys[0]| < MaxLen(ys) {
      MaxLenAttained(ys[1..]);
      var b :| 0 <= b < |ys[1..]| && |ys[1..][b]| == MaxLen(ys[1..]);
      assert |ys[b + 1]| == MaxLen(ys);
    }
  }

  /** `pad_list(ys, pad)`: every sequence right-padded to the batch's longest length. */
  function PadList(ys: seq<seq<int>>, pad: int): (m: seq<seq<int>>)
    ensures |m| == |ys|
    ensures forall b :: 0 <= b < |ys| ==> |m[b]| == MaxLen(ys)
    ensures forall b, t :: 0 <= b < |ys| && 0 <= t < MaxLen(ys) ==>
              m[b][t] == if t < |ys[b]| then ys[b][t] else pad
  {
    var n := MaxLen(ys);
    seq(|ys|, b requires 0 <= b < |ys| => ys[b] + seq(n - |ys[b]|, _ => pad))
  }

  /** The sequences in reading order: reversed for a backward LM. */
  function Oriented(backward: bool, ys: seq<seq<int>>): (r: seq<seq<int>>)
    ensures |r| == |ys|
    ensures forall b :: 0 <= b < |ys| ==> r[b] == if backward then Reversed(ys[b]) else ys[b]
  {
    if backward then seq(|ys|, b requires 0 <= b < |ys| => Reversed(ys[b])) else ys
  }

  /** Token `t` of sequence `y` in reading order. */
  function ReadAt(backward: bool, y: seq<int>, t: int): int
    requires 0 <= t < |y|
  {
    if backward then y[|y| - 1 - t] else y[t]
  }

  /** The width of `ys_in` and `ys_out`: one less than the longest sequence. */
  function ShiftWidth(ys: seq<seq<int>>): nat
  {
    if MaxLen(ys) == 0 then 0 else MaxLen(ys) - 1
  }

  /**
   * `ys_in = ys[:, :-1]` and `ys_out = ys[:, 1:]` of the padded, possibly reversed
   * batch: `ys_in` holds tokens 0 .. L-2 and `ys_out` tokens 1 .. L-1, padding past each end.
   */
  function TeacherForcing(backward: bool, ys: seq<seq<int>>): (r: (seq<seq<int>>, seq<seq<int>>))
    ensures |r.0| == |ys| && |r.1| == |ys|
    ensures forall b :: 0 <= b < |ys| ==> |r.0[b]| == ShiftWidth(ys) && |r.1[b]| == ShiftWidth(ys)
    ensures forall b, t :: 0 <= b < |ys| && 0 <= t < ShiftWidth(ys) ==>
              r.0[b][t] == (if t < |ys[b]| then ReadAt(backward, ys[b], t) else PAD)
    ensures forall b, t :: 0 <= b < |ys| && 0 <= t < ShiftWidth(ys) ==>
              r.1[b][t] == (if t + 1 < |ys[b]| then ReadAt(backward, ys[b], t + 1) else PAD)
  {
    (ShiftedInputs(backward, ys), ShiftedOutputs(backward, ys))
  }

  /** The batch in reading order, padded to the longest sequence. */
  function PaddedOriented(backward: bool, ys: seq<seq<int>>): (m: seq<seq<int>>)
    ensures |m| == |ys| && forall b :: 0 <= b < |ys| ==> |m[b]| == MaxLen(ys)
    ensures forall b, t :: 0 <= b < |ys| && 0 <= t < MaxLen(ys) ==>
              m[b][t] == (if t < |ys[b]| then ReadAt(backward, ys[b], t) else PAD)
  {
    var o := Oriented(backward, ys);
    assert forall b :: 0 <= b < |ys| ==> |o[b]| == |ys[b]|;
    assert MaxLen(o) == MaxLen(ys) by {
      MaxLenSameLengths(o, ys);
    }
    PadList(o, PAD)
  }

  /** `ys_in`: tokens 0 .. L-2 of each padded sequence. */
  function ShiftedInputs(backward: bool, ys: seq<seq<int>>): (r: seq<seq<int>>)
    ensures |r| == |ys| && forall b :: 0 <= b < |ys| ==> |r[b]| == ShiftWidth(ys)
    ensures forall b, t :: 0 <= b < |ys| && 0 <= t < ShiftWidth(ys) ==>
              r[b][t] == (if t < |ys[b]| then ReadAt(backward, ys[b], t) else PAD)
  {
    var padded := PaddedOriented(backward, ys);
    seq(|ys|, b requires 0 <= b < |ys| => padded[b][..ShiftWidth(ys)])
  }

  /** `ys_out`: tokens 1 .. L-1 of each padded sequence. */
  function ShiftedOutputs(backward: bool, ys: seq<seq<int>>): (r: seq<seq<int>>)
    ensures |r| == |ys| && forall b :: 0 <= b < |ys| ==> |r[b]| == ShiftWidth(ys)
    ensures forall b, t :: 0 <= b < |ys| && 0 <= t < ShiftWidth(ys) ==>
              r[b][t] == (if t + 1 < |ys[b]| then ReadAt(backward, ys[b], t + 1) else PAD)
  {
    var padded := PaddedOriented(backward, ys);
    seq(|ys|, b requires 0 <= b < |ys| => if MaxLen(ys) == 0 then [] else padded[b][1..])
  }

  lemma {:induction false} MaxLenSameLengths(a: seq<seq<int>>, b: seq<seq<int>>)
    requires |a| == |b| && forall i :: 0 <= i < |a| ==> |a[i]| == |b[i]|
    ensures MaxLen(a) == MaxLen(b)
  {
    if a != [] {
      MaxLenSameLengths(a[1..], b[1..]);
    }
  }

  // ---------------------------------------------------------------------------
  // Masked accuracy.

  function Flatten(m: seq<seq<int>>): (r: seq<int>)
  {
    if m == [] then [] else m[0] + Flatten(m[1..])
  }

  predicate SameShape(a: seq<seq<int>>, b: seq<seq<int>>)
  {
    |a| == |b| && forall i :: 0 <= i < |a| ==> |a[i]| == |b[i]|
  }

  lemma {:induction false} FlattenSameShape(a: seq<seq<int>>, b: seq<seq<int>>)
    requires SameShape(a, b)
    ensures |Flatten(a)| == |Flatten(b)|
  {
    if a != [] {
      FlattenSameShape(a[1..], b[1..]);
    }
  }

  /** `ys_out != pad`, flattened. */
  function NotPadMask(ys: seq<int>): (mask: seq<bool>)
    ensures |mask| == |ys| && forall i :: 0 <= i < |ys| ==> mask[i] == (ys[i] != PAD)
  {
    seq(|ys|, i requires 0 <= i < |ys| => ys[i] != PAD)
  }

  /** `masked_select`: the entries at the positions the mask keeps, in order. */
  function MaskedSelect(xs: seq<int>, mask: seq<bool>): (r: seq<int>)
    requires |xs| == |mask|
  {
    if xs == [] then [] else (if mask[0] then [xs[0]] else []) + MaskedSelect(xs[1..], mask[1..])
  }

  /** `torch.sum(mask)`. */
  function CountTrue(mask: seq<bool>): nat
  {
    if mask == [] then 0 else (if mask[0] then 1 else 0) + CountTrue(mask[1..])
  }

  /** `torch.sum(a == b)`. */
  function CountEqual(a: seq<int>, b: seq<int>): nat
    requires |a| == |b|
  {
    if a == [] then 0 else (if a[0] == b[0] then 1 else 0) + CountEqual(a[1..], b[1..])
  }

  /** The non-pad entries of a matrix, counted row by row. */
  function CountNonPad(m: seq<seq<int>>): nat
  {
    if m == [] then 0 else RowNonPad(m[0]) + CountNonPad(m[1..])
  }

  function RowNonPad(row: seq<int>): nat
  {
    if row == [] then 0 else (if row[0] != PAD then 1 else 0) + RowNonPad(row[1..])
  }

  /** Positions where the target is not padding and the prediction equals it. */
  function Hits(preds: seq<int>, targets: seq<int>): nat
    requires |preds| == |targets|
  {
    if preds == [] then 0
    else (if targets[0] != PAD && preds[0] == targets[0] then 1 else 0) + Hits(preds[1..], targets[1..])
  }

  /** The numerator and denominator of the token accuracy: `pad_pred` is the argmax of the logits. */
  function AccuracyCounts(padPred: seq<seq<int>>, ysOut: seq<seq<int>>): (r: (nat, nat))
    requires SameShape(padPred, ysOut)
    ensures r.1 == CountNonPad(ysOut)
    ensures |Flatten(padPred)| == |Flatten(ysOut)| && r.0 == Hits(Flatten(padPred), Flatten(ysOut))
    ensures r.0 <= r.1
  {
    FlattenSameShape(padPred, ysOut);
    var fp, fy := Flatten(padPred), Flatten(ysOut);
    var mask := NotPadMask(fy);
    MaskedSelectLength(fp, mask);
    MaskedSelectLength(fy, mask);
    var num := CountEqual(MaskedSelect(fp, mask), MaskedSelect(fy, mask));
    MaskedHits(fp, fy);
    NonPadFlatten(ysOut);
    HitsBound(fp, fy);
    (num, CountTrue(mask))
  }

  lemma {:induction false} MaskedSelectLength(xs: seq<int>, mask: seq<bool>)
    requires |xs| == |mask|
    ensures |MaskedSelect(xs, mask)| == CountTrue(mask)
  {
    if xs != [] {
      MaskedSelectLength(xs[1..], mask[1..]);
    }
  }

  /** Comparing the two masked selections counts the hits at the unmasked positions. */
  lemma {:induction false} MaskedHits(preds: seq<int>, targets: seq<int>)
    requires |preds| == |targets|
    ensures |MaskedSelect(preds, NotPadMask(targets))| == |MaskedSelect(targets, NotPadMask(targets))|
    ensures CountEqual(MaskedSelect(preds, NotPadMask(targets)), MaskedSelect(targets, NotPadMask(targets)))
            == Hits(preds, targets)
  {
    var mask := NotPadMask(targets);
    MaskedSelectLength(preds, mask);
    MaskedSelectLength(targets, mask);
    if preds != [] {
      assert mask[1..] == NotPadMask(targets[1..]);
      MaskedHits(preds[1..], targets[1..]);
      var p, t := MaskedSelect(preds[1..], mask[1..]), MaskedSelect(targets[1..], mask[1..]);
      if mask[0] {
        assert MaskedSelect(preds, mask) == [preds[0]] + p;
        assert MaskedSelect(targets, mask) == [targets[0]] + t;
        assert ([preds[0]] + p)[1..] == p && ([targets[0]] + t)[1..] == t;
      } else {
        assert MaskedSelect(preds, mask) == p;
        assert MaskedSelect(targets, mask) == t;
      }
    }
  }

  lemma {:induction false} RowNonPadConcat(a: seq<int>, b: seq<int>)
    ensures CountTrue(NotPadMask(a + b)) == RowNonPad(a) + CountTrue(NotPadMask(b))
  {
    if a == [] {
      assert a + b == b;
    } else {
      assert (a + b)[1..] == a[1..] + b;
      assert NotPadMask(a + b)[1..] == NotPadMask((a + b)[1..]);
      RowNonPadConcat(a[1..], b);
    }
  }

  lemma {:induction false} NonPadFlatten(m: seq<seq<int>>)
    ensures CountTrue(NotPadMask(Flatten(m))) == CountNonPad(m)
  {
    if m != [] {
      RowNonPadConcat(m[0], Flatten(m[1..]));
      NonPadFlatten(m[1..]);
    }
  }

  lemma {:induction false} HitsBound(preds: seq<int>, targets: seq<int>)
    requires |preds| == |targets|
    ensures Hits(preds, targets) <= CountTrue(NotPadMask(targets))
  {
    if preds != [] {
      assert NotPadMask(targets)[1..] == NotPadMask(targets[1..]);
      HitsBound(preds[1..], targets[1..]);
    }
  }

  /** `acc = numerator * 100 / denominator` in exact arithmetic; a zero denominator raises ZeroDivisionError. */
  function Accuracy(numerator: nat, denominator: nat): (acc: Option<real>)
    ensures acc.None? <==> denominator == 0
    ensures acc.Some? && numerator <= denominator ==>
              0.0 <= acc.value <= 100.0 && (acc.value == 100.0 <==> numerator == denominator)
  {
    if denominator == 0 then None else Some((numerator as real) * 100.0 / (denominator as real))
  }

  /** The number of prediction targets of a sequence: every token but the first. */
  function TargetCount(y: seq<int>): nat
  {
    if y == [] then 0 else |y| - 1
  }

  function TotalTargets(ys: seq<seq<int>>): nat
  {
    if ys == [] then 0 else TargetCount(ys[0]) + TotalTargets(ys[1..])
  }

  lemma {:induction false} RowNonPadPrefix(row: seq<int>, k: nat)
    requires k <= |row| && forall t :: 0 <= t < |row| ==> (row[t] != PAD <==> t < k)
    ensures RowNonPad(row) == k
  {
    if row != [] {
      var k' := if k == 0 then 0 else k - 1;
      forall t | 0 <= t < |row[1..]| ensures row[1..][t] != PAD <==> t < k' {
        assert row[1..][t] == row[t + 1];
      }
      RowNonPadPrefix(row[1..], k');
    }
  }

  lemma {:induction false} CountNonPadByRows(m: seq<seq<int>>, ys: seq<seq<int>>)
    requires |m| == |ys| && forall b :: 0 <= b < |m| ==> RowNonPad(m[b]) == TargetCount(ys[b])
    ensures CountNonPad(m) == TotalTargets(ys)
  {
    if m != [] {
      assert forall b :: 0 <= b < |m[1..]| ==> m[1..][b] == m[b + 1] && ys[1..][b] == ys[b + 1];
      CountNonPadByRows(m[1..], ys[1..]);
    }
  }

  /** When no sequence contains the pad id, the accuracy denominator is the number of targets: n - 1 per sequence of length n. */
  lemma DenominatorCountsTargets(backward: bool, ys: seq<seq<int>>)
    requires forall b, t :: 0 <= b < |ys| && 0 <= t < |ys[b]| ==> ys[b][t] != PAD
    ensures CountNonPad(TeacherForcing(backward, ys).1) == TotalTargets(ys)
  {
    var out := TeacherForcing(backward, ys).1;
    forall b | 0 <= b < |ys| ensures RowNonPad(out[b]) == TargetCount(ys[b]) {
      forall t | 0 <= t < |out[b]| ensures out[b][t] != PAD <==> t < TargetCount(ys[b]) {
        if t + 1 < |ys[b]| {
          assert ReadAt(backward, ys[b], t + 1) != PAD;
        }
      }
      assert |ys[b]| <= MaxLen(ys);
      RowNonPadPrefix(out[b], TargetCount(ys[b]));
    }
    CountNonPadByRows(out, ys);
  }

  // ---------------------------------------------------------------------------
  // Running the stacked layers.

  /**
   * Stacked layers `l .. n-1` from input `y`: layer `l` runs `rnn(l, input, state)`,
   * its output goes through `drop(l, _)`. The result is the top output and the new
   * state of every layer run.
   */
  function RunLayers<H, S>(rnn: (nat, H, Option<S>) -> (H, S), drop: (nat, H) -> H,
                           y: H, states: seq<Option<S>>, l: nat, n: nat): (r: (H, seq<S>))
    requires n <= |states|
    ensures |r.1| == if l <= n then n - l else 0
    decreases n - l
  {
    if l >= n then (y, [])
    else
      var step := rnn(l, y, states[l]);
      var rest := RunLayers(rnn, drop, drop(l, step.0), states, l + 1, n);
      (rest.0, [step.1] + rest.1)
  }

  /**
   * `ys_in += xs_lower` runs with `xs_lower` still None at layer 1 (a TypeError), and
   * `self.rnn[l]` cannot index the single multi-layer RNN of the fast implementation.
   */
  datatype StepError = ResidualWithoutLower | FastRnnNotIndexable

  /**
   * How many stacked layers `predict` runs before it stops: none when `self.rnn` is
   * not a list, layers 0 and 1 when the residual addition raises, otherwise all.
   */
  function LayersRun(lm: Lm): (k: nat)
    ensures k <= lm.cfg.nlayers
  {
    if lm.layers.Fast? && lm.cfg.nlayers > 0 then 0
    else if lm.cfg.residual && lm.cfg.nlayers >= 2 then 2
    else lm.cfg.nlayers
  }

  function PredictError(lm: Lm): Option<StepError>
  {
    if lm.layers.Fast? && lm.cfg.nlayers > 0 then Some(FastRnnNotIndexable)
    else if lm.cfg.residual && lm.cfg.nlayers >= 2 then Some(ResidualWithoutLower)
    else None
  }

  /**
   * `predict(y, state)`: a null state starts from `[None] * nlayers`; the list is
   * then updated in place, entry `l` becoming layer `l`'s new state, up to the
   * layer where the source raises.
   */
  method Predict<H, S, G>(lm: Lm, y: H, state: array?<Option<S>>,
                          rnn: (nat, H, Option<S>) -> (H, S), drop: (nat, H) -> H, output: H -> G)
    returns (r: Result<(G, H), StepError>, newState: array<Option<S>>)
    requires state != null ==> state.Length >= lm.cfg.nlayers
    modifies state
    ensures state == null ==> fresh(newState) && newState.Length == lm.cfg.nlayers
    ensures state != null ==> newState == state
    ensures r.Err? <==> PredictError(lm).Some?
    ensures r.Err? ==> r.error == PredictError(lm).value
    ensures var init := if state == null then seq(lm.cfg.nlayers, _ => None) else old(state[..]);
      var k := LayersRun(lm);
      var run := RunLayers(rnn, drop, y, init, 0, k);
      && (r.Ok? ==> r.value == (output(run.0), run.0))
      && (forall l :: 0 <= l < k ==> newState[l] == Some(run.1[l]))
      && (forall l :: k <= l < newState.Length ==> newState[l] == init[l])
  {
    var n := lm.cfg.nlayers;
    if state == null {
      newState := new Option<S>[n](_ => None);
    } else {
      newState := state;
    }
    assert newState[..] == if state == null then seq(n, _ => None) else old(state[..]);
    if lm.layers.Fast? && n > 0 {
      return Err(FastRnnNotIndexable), newState;
    }
    if lm.cfg.residual && n >= 2 {
      var _ := StepLayers(newState, 2, y, rnn, drop);
      return Err(ResidualWithoutLower), newState;
    }
    var top := StepLayers(newState, n, y, rnn, drop);
    r := Ok((output(top), top));
  }

  /** The loop of `predict`: layer `l` reads `states[l]` and overwrites it with its new state. */
  method StepLayers<H, S>(states: array<Option<S>>, n: nat, y: H,
                          rnn: (nat, H, Option<S>) -> (H, S), drop: (nat, H) -> H)
    returns (top: H)
    requires n <= states.Length
    modifies states
    ensures var run := RunLayers(rnn, drop, y, old(states[..]), 0, n);
      && top == run.0
      && (forall l :: 0 <= l < n ==> states[l] == Some(run.1[l]))
      && (forall l :: n <= l < states.Length ==> states[l] == old(states[l]))
  {
    ghost var init := states[..];
    ghost var run := RunLayers(rnn, drop, y, init, 0, n);
    top := y;
    for l := 0 to n
      invariant forall j :: 0 <= j < l ==> states[j] == Some(run.1[j])
      invariant forall j :: l <= j < states.Length ==> states[j] == init[j]
      invariant RunLayers(rnn, drop, top, init, l, n).0 == run.0
      invariant RunLayers(rnn, drop, top, init, l, n).1 == run.1[l..]
    {
      var step := rnn(l, top, states[l]);
      ghost var rest := RunLayers(rnn, drop, drop(l, step.0), init, l + 1, n);
      assert RunLayers(rnn, drop, top, init, l, n) == (rest.0, [step.1] + rest.1);
      states[l] := Some(step.1);
      top := drop(l, step.0);
    }
  }

  /**
   * The layer section of `_forward`: one call of the multi-layer RNN and the top
   * dropout in the fast implementation, otherwise each stacked layer with no initial
   * state, stopping at the residual addition of layer 1.
   */
  method ForwardLayers<H, S>(lm: Lm, x: H, rnn: (nat, H, Option<S>) -> (H, S), drop: (nat, H) -> H,
                             fastRnn: H -> H, dropTop: H -> H)
    returns (y: Result<H, StepError>)
    ensures lm.layers.Fast? ==> y == Ok(dropTop(fastRnn(x)))
    ensures lm.layers.Stacked? ==>
      (y.Err? <==> lm.cfg.residual && lm.cfg.nlayers >= 2) && (y.Err? ==> y.error == ResidualWithoutLower)
    ensures lm.layers.Stacked? && y.Ok? ==>
      y.value == RunLayers(rnn, drop, x, seq(lm.cfg.nlayers, _ => None), 0, lm.cfg.nlayers).0
  {
    if lm.layers.Fast? {
      return Ok(dropTop(fastRnn(x)));
    }
    var n := lm.cfg.nlayers;
    ghost var none: seq<Option<S>> := seq(n, _ => None);
    var h := x;
    for l := 0 to n
      invariant l >= 2 ==> !lm.cfg.residual
      invariant RunLayers(rnn, drop, h, none, l, n).0 == RunLayers(rnn, drop, x, none, 0, n).0
    {
      var step := rnn(l, h, None);
      h := drop(l, step.0);
      if lm.cfg.residual && l > 0 {
        return Err(ResidualWithoutLower);
      }
    }
    y := Ok(h);
  }

  /** A configuration `SeqRNNLM` accepts with residual connections and two or more layers cannot run a step. */
  lemma ResidualStacksFail(cfg: Config)
    requires Configure(cfg).Ok? && cfg.residual && cfg.nlayers >= 2
    ensures Configure(cfg).value.layers.Stacked? && PredictError(Configure(cfg).value) == Some(ResidualWithoutLower)
  {
  }

  // ---------------------------------------------------------------------------
  // Initial hidden states.

  function Zeros(rows: nat, cols: nat): (m: seq<seq<real>>)
    ensures |m| == rows && forall i :: 0 <= i < rows ==> |m[i]| == cols && forall j :: 0 <= j < cols ==> m[i][j] == 0.0
  {
    seq(rows, _ => seq(cols, _ => 0.0))
  }

  /** `initialize_hidden(bs)`: `nlayers` zero states for `hx`, and for `cx` unless the RNN is a GRU. */
  function InitializeHidden(lm: Lm, bs: nat): (r: (seq<seq<seq<real>>>, Option<seq<seq<seq<real>>>>))
    ensures |r.0| == lm.cfg.nlayers && forall l :: 0 <= l < lm.cfg.nlayers ==> r.0[l] == Zeros(bs, lm.cfg.nunits)
    ensures r.1.None? <==> lm.kind == Gru
    ensures r.1.Some? ==> r.1.value == r.0
  {
    var hx := seq(lm.cfg.nlayers, _ => Zeros(bs, lm.cfg.nunits));
    match lm.kind
    case Lstm => (hx, Some(hx))
    case Gru => (hx, None)
  }

  /** The initial states match the stacked layers: one per layer, each `bs` rows of the layer's hidden width. */
  lemma InitialStatesFitLayers(cfg: Config, bs: nat)
    requires Configure(cfg).Ok? && Configure(cfg).value.layers.Stacked?
    ensures var lm := Configure(cfg).value; var hx := InitializeHidden(lm, bs).0;
      && |hx| == |lm.layers.rnns|
      && forall l, i :: 0 <= l < |hx| && 0 <= i < bs ==> |hx[l][i]| == lm.layers.rnns[l].hiddenDim
  {
  }
}
