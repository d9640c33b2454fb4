/**
 * A parsed manifest: the utterance records of one CSV file, keyed by their
 * integer row labels and kept in table order, with the row selections and
 * orderings that the loader applies to it.
 */
module Manifest {
  import opened Text

  /** One row of a manifest. */
  datatype Record = Record(
    uttId: string,
    featPath: string,
    xLen: int,
    xDim: int,
    text: string,
    tokenId: string,
    yLen: int,
    yDim: int)

  /** A data frame: its row labels (its index) in table order and the record of each label. */
  datatype Table = Table(labels: seq<int>, rows: map<int, Record>)

  ghost predicate Distinct(s: seq<int>)
  {
    forall i, j :: 0 <= i < j < |s| ==> s[i] != s[j]
  }

  /** Every label occurs once, and exactly the listed labels have records. */
  ghost predicate Valid(t: Table)
  {
    Distinct(t.labels) && forall l :: l in t.rows <==> l in t.labels
  }

  /** `len(df)`. */
  function Size(t: Table): nat
  {
    |t.labels|
  }

  lemma {:induction false} DistinctCard(s: seq<int>)
    requires Distinct(s)
    ensures |set x | x in s| == |s|
  {
    if s != [] {
      DistinctCard(s[1..]);
      assert (set x | x in s) == {s[0]} + (set x | x in s[1..]);
      assert s[0] !in (set x | x in s[1..]);
    }
  }

  /** The number of labels is the number of records. */
  lemma SizeIsRowCount(t: Table)
    requires Valid(t)
    ensures Size(t) == |t.rows|
  {
    DistinctCard(t.labels);
    assert t.rows.Keys == set x | x in t.labels;
  }

  // ---------------------------------------------------------------------------
  // Selecting rows.

  /** `a` lists some of the elements of `b`, in the order of `b`. */
  ghost predicate Subsequence(a: seq<int>, b: seq<int>)
    decreases |b|
  {
    a == [] || (b != [] && ((a[0] == b[0] && Subsequence(a[1..], b[1..])) || Subsequence(a, b[1..])))
  }

  /** `r` keeps some rows of `t`, in their order, with their records unchanged. */
  ghost predicate SubTable(r: Table, t: Table)
  {
    Subsequence(r.labels, t.labels) && forall l :: l in r.rows ==> l in t.rows && r.rows[l] == t.rows[l]
  }

  lemma {:induction false} SubsequenceReflexive(a: seq<int>)
    ensures Subsequence(a, a)
    decreases |a|
  {
    if a != [] {
      SubsequenceReflexive(a[1..]);
    }
  }

  lemma {:induction false} SubsequenceTransitive(a: seq<int>, b: seq<int>, c: seq<int>)
    requires Subsequence(a, b) && Subsequence(b, c)
    ensures Subsequence(a, c)
    decreases |c|
  {
    if a != [] {
      if b[0] == c[0] && Subsequence(b[1..], c[1..]) {
        if a[0] == b[0] && Subsequence(a[1..], b[1..]) {
          SubsequenceTransitive(a[1..], b[1..], c[1..]);
        } else {
          SubsequenceTransitive(a, b[1..], c[1..]);
        }
      } else {
        SubsequenceTransitive(a, b, c[1..]);
      }
    }
  }

  lemma SubTableReflexive(t: Table)
    ensures SubTable(t, t)
  {
    SubsequenceReflexive(t.labels);
  }

  lemma SubTableTransitive(a: Table, b: Table, c: Table)
    requires SubTable(a, b) && SubTable(b, c)
    ensures SubTable(a, c)
  {
    SubsequenceTransitive(a.labels, b.labels, c.labels);
  }

  function KeepLabels(ls: seq<int>, rows: map<int, Record>, keep: (int, Record) -> bool): (r: seq<int>)
    requires forall l :: l in ls ==> l in rows
    ensures forall l :: l in r <==> l in ls && keep(l, rows[l])
    ensures Subsequence(r, ls)
    ensures Distinct(ls) ==> Distinct(r)
  {
    if ls == [] then []
    else
      var x := ls[0];
      assert x in ls;
      var rest := KeepLabels(ls[1..], rows, keep);
      if keep(x, rows[x]) then
        assert Distinct(ls) ==> x !in ls[1..] by {
          forall k | 0 <= k < |ls| - 1 ensures Distinct(ls) ==> ls[1..][k] != x {
            assert ls[1..][k] == ls[k + 1];
          }
        }
        [x] + rest
      else rest
  }

  /** `df[mask]`: the rows whose label and record pass `keep`, in table order. */
  function Where(t: Table, keep: (int, Record) -> bool): (r: Table)
    requires Valid(t)
    ensures Valid(r) && SubTable(r, t)
    ensures forall l :: l in r.rows <==> l in t.rows && keep(l, t.rows[l])
  {
    var ls := KeepLabels(t.labels, t.rows, keep);
    Table(ls, map l | l in ls :: t.rows[l])
  }

  /** The length filter: `min_nframes <= x_len <= max_nframes`, both bounds inclusive. */
  function WithinFrames(t: Table, minFrames: int, maxFrames: int): (r: Table)
    requires Valid(t)
    ensures Valid(r) && SubTable(r, t)
    ensures forall l :: l in r.rows <==> l in t.rows && minFrames <= t.rows[l].xLen <= maxFrames
  {
    Where(t, (l: int, x: Record) => minFrames <= x.xLen <= maxFrames)
  }

  /**
   * The CTC filter: `y_len <= x_len // factor`. The factor is above 1 wherever the
   * loader applies it, and for a positive divisor Dafny's `/` is Python's floor
   * division `//`.
   */
  function CtcFeasible(t: Table, factor: int): (r: Table)
    requires Valid(t) && factor > 1
    ensures Valid(r) && SubTable(r, t)
    ensures forall l :: l in r.rows <==> l in t.rows && t.rows[l].yLen <= t.rows[l].xLen / factor
  {
    Where(t, (l: int, x: Record) => x.yLen <= x.xLen / factor)
  }

  /** `df.drop(df.index.difference(keys))`: the rows whose label is in `keys`. */
  function Restrict(t: Table, keys: set<int>): (r: Table)
    requires Valid(t)
    ensures Valid(r) && SubTable(r, t)
    ensures r.rows.Keys == t.rows.Keys * keys
  {
    Where(t, (l: int, x: Record) => l in keys)
  }

  // ---------------------------------------------------------------------------
  // Ordering rows.

  /** How the loader orders the main table. */
  datatype Ordering = ByInputLength(ascending: bool) | Shuffled | ByUttId

  /** Label `a` may precede label `b` under the ordering. */
  predicate InOrder(rows: map<int, Record>, ord: Ordering, a: int, b: int)
    requires a in rows && b in rows
  {
    match ord
    case ByInputLength(ascending) =>
      if ascending then rows[a].xLen <= rows[b].xLen else rows[a].xLen >= rows[b].xLen
    case Shuffled => true
    case ByUttId => StrLe(rows[a].uttId, rows[b].uttId)
  }

  predicate SortedBy(rows: map<int, Record>, ord: Ordering, s: seq<int>)
  {
    (forall k :: 0 <= k < |s| ==> s[k] in rows)
    && forall i, j :: 0 <= i < j < |s| ==> InOrder(rows, ord, s[i], s[j])
  }

  /**
   * `labels` is an order of the rows of `t` that the ordering allows: a
   * permutation of its labels, sorted by the ordering's key, in either direction.
   */
  predicate Arranged(t: Table, ord: Ordering, labels: seq<int>)
  {
    multiset(labels) == multiset(t.labels) && SortedBy(t.rows, ord, labels)
  }

  lemma InOrderTotal(rows: map<int, Record>, ord: Ordering, a: int, b: int)
    requires a in rows && b in rows
    ensures InOrder(rows, ord, a, b) || InOrder(rows, ord, b, a)
  {
    if ord.ByUttId? {
      StrLeTotal(rows[a].uttId, rows[b].uttId);
    }
  }

  lemma InOrderTransitive(rows: map<int, Record>, ord: Ordering, a: int, b: int, c: int)
    requires a in rows && b in rows && c in rows
    requires InOrder(rows, ord, a, b) && InOrder(rows, ord, b, c)
    ensures InOrder(rows, ord, a, c)
  {
    if ord.ByUttId? {
      StrLeTransitive(rows[a].uttId, rows[b].uttId, rows[c].uttId);
    }
  }

  function Insert(rows: map<int, Record>, ord: Ordering, x: int, s: seq<int>): (r: seq<int>)
    requires x in rows && forall k :: 0 <= k < |s| ==> s[k] in rows
    ensures multiset(r) == multiset(s) + multiset{x}
    ensures forall y :: y in r <==> y == x || y in s
    ensures forall k :: 0 <= k < |r| ==> r[k] in rows
  {
    if s == [] then [x]
    else if InOrder(rows, ord, x, s[0]) then [x] + s
    else
      assert s == [s[0]] + s[1..];
      [s[0]] + Insert(rows, ord, x, s[1..])
  }

  lemma SortedTail(rows: map<int, Record>, ord: Ordering, s: seq<int>)
    requires s != [] && SortedBy(rows, ord, s)
    ensures SortedBy(rows, ord, s[1..])
  {
    forall i, j | 0 <= i < j < |s| - 1 ensures InOrder(rows, ord, s[1..][i], s[1..][j]) {
      assert s[1..][i] == s[i + 1] && s[1..][j] == s[j + 1];
    }
  }

  lemma {:induction false} InsertSorted(rows: map<int, Record>, ord: Ordering, x: int, s: seq<int>)
    requires x in rows && SortedBy(rows, ord, s)
    ensures SortedBy(rows, ord, Insert(rows, ord, x, s))
  {
    if s == [] {
    } else if InOrder(rows, ord, x, s[0]) {
      var r := [x] + s;
      forall i, j | 0 <= i < j < |r| ensures InOrder(rows, ord, r[i], r[j]) {
        if i == 0 {
          if j > 1 {
            InOrderTransitive(rows, ord, x, s[0], s[j - 1]);
          }
        } else {
          assert r[i] == s[i - 1] && r[j] == s[j - 1];
        }
      }
    } else {
      InOrderTotal(rows, ord, x, s[0]);
      var tail := Insert(rows, ord, x, s[1..]);
      SortedTail(rows, ord, s);
      InsertSorted(rows, ord, x, s[1..]);
      forall j | 0 <= j < |tail| ensures InOrder(rows, ord, s[0], tail[j]) {
        assert tail[j] in tail;
        if tail[j] != x {
          var k :| 0 <= k < |s[1..]| && s[1..][k] == tail[j];
          assert s[k + 1] == tail[j];
        }
      }
      var r := [s[0]] + tail;
      forall i, j | 0 <= i < j < |r| ensures InOrder(rows, ord, r[i], r[j]) {
        if i == 0 {
          assert r[j] == tail[j - 1];
        } else {
          assert r[i] == tail[i - 1] && r[j] == tail[j - 1];
        }
      }
    }
  }

  /** Insertion sort: one sort of the labels under the ordering. */
  function SortLabels(rows: map<int, Record>, ord: Ordering, s: seq<int>): (r: seq<int>)
    requires forall k :: 0 <= k < |s| ==> s[k] in rows
    ensures multiset(r) == multiset(s)
    ensures forall k :: 0 <= k < |r| ==> r[k] in rows
  {
    if s == [] then []
    else
      assert s == [s[0]] + s[1..];
      Insert(rows, ord, s[0], SortLabels(rows, ord, s[1..]))
  }

  lemma {:induction false} SortLabelsSorted(rows: map<int, Record>, ord: Ordering, s: seq<int>)
    requires forall k :: 0 <= k < |s| ==> s[k] in rows
    ensures SortedBy(rows, ord, SortLabels(rows, ord, s))
  {
    if s != [] {
      var r := SortLabels(rows, ord, s[1..]);
      SortLabelsSorted(rows, ord, s[1..]);
      InsertSorted(rows, ord, s[0], r);
    }
  }

  /** Every table has an arrangement under every ordering. */
  lemma ArrangementExists(t: Table, ord: Ordering)
    requires Valid(t)
    ensures forall k :: 0 <= k < |t.labels| ==> t.labels[k] in t.rows
    ensures Arranged(t, ord, SortLabels(t.rows, ord, t.labels))
  {
    assert forall k :: 0 <= k < |t.labels| ==> t.labels[k] in t.labels;
    SortLabelsSorted(t.rows, ord, t.labels);
  }

  lemma {:induction false} DistinctCounts(s: seq<int>, x: int)
    requires Distinct(s)
    ensures multiset(s)[x] <= 1
  {
    if s != [] {
      assert s == [s[0]] + s[1..];
      DistinctCounts(s[1..], x);
      if x == s[0] {
        assert x !in s[1..];
      }
    }
  }

  /** A permutation of distinct labels has distinct labels. */
  lemma PermutationDistinct(a: seq<int>, b: seq<int>)
    requires Distinct(a) && multiset(a) == multiset(b)
    ensures Distinct(b)
  {
    forall i, j | 0 <= i < j < |b| ensures b[i] != b[j] {
      if b[i] == b[j] {
        assert b == b[..j] + b[j..];
        assert b[i] in b[..j];
        assert b[j] in b[j..];
        assert multiset(b)[b[i]] == multiset(b[..j])[b[i]] + multiset(b[j..])[b[i]];
        DistinctCounts(a, b[i]);
      }
    }
  }

  /** Reordering keeps the rows: the arranged table is valid and has the same records. */
  lemma ArrangedValid(t: Table, ord: Ordering, labels: seq<int>)
    requires Valid(t) && Arranged(t, ord, labels)
    ensures Valid(Table(labels, t.rows))
    ensures forall l :: l in labels <==> l in t.labels
  {
    PermutationDistinct(t.labels, labels);
    forall l ensures l in labels <==> l in t.labels {
      assert l in labels <==> l in multiset(labels);
      assert l in t.labels <==> l in multiset(t.labels);
    }
  }
}
