/**
 * The string operations of the Python standard library that the loader and the
 * evaluation driver rely on: substring tests (`sub in s`), string ordering,
 * `str.split()` without a separator, `int(token)`, and the two path helpers
 * `os.path.basename` and `os.path.join`.
 */
module Text {
  import opened Wrappers

  // ---------------------------------------------------------------------------
  // Substring test: Python's `sub in s` on two strings.

  predicate Contains(s: string, sub: string)
    decreases |s|
  {
    if |sub| > |s| then false
    else if s[..|sub|] == sub then true
    else Contains(s[1..], sub)
  }

  /** `sub` occurs in `s` starting at position `i`. */
  ghost predicate OccursAt(s: string, sub: string, i: int)
  {
    0 <= i <= |s| - |sub| && s[i..i + |sub|] == sub
  }

  /** `Contains` agrees with the positional definition of a substring. */
  lemma {:induction false} ContainsAt(s: string, sub: string)
    ensures Contains(s, sub) <==> exists i :: OccursAt(s, sub, i)
    decreases |s|
  {
    if |sub| > |s| {
    } else if s[..|sub|] == sub {
      assert OccursAt(s, sub, 0);
    } else {
      ContainsAt(s[1..], sub);
      assert s[0..0 + |sub|] == s[..|sub|];
      forall i | 0 <= i
        ensures OccursAt(s, sub, i) <==> i > 0 && OccursAt(s[1..], sub, i - 1)
      {
        if i > 0 && i <= |s| - |sub| {
          assert s[1..][i - 1..i - 1 + |sub|] == s[i..i + |sub|];
        }
      }
      if Contains(s[1..], sub) {
        var j :| OccursAt(s[1..], sub, j);
        assert OccursAt(s, sub, j + 1);
      }
    }
  }

  // ---------------------------------------------------------------------------
  // Python's ordering of strings: lexicographic on code points.

  predicate StrLe(a: string, b: string)
    decreases |a|
  {
    if a == [] then true
    else if b == [] then false
    else if a[0] != b[0] then a[0] < b[0]
    else StrLe(a[1..], b[1..])
  }

  lemma {:induction false} StrLeTotal(a: string, b: string)
    ensures StrLe(a, b) || StrLe(b, a)
    decreases |a|
  {
    if a != [] && b != [] && a[0] == b[0] {
      StrLeTotal(a[1..], b[1..]);
    }
  }

  lemma {:induction false} StrLeTransitive(a: string, b: string, c: string)
    requires StrLe(a, b) && StrLe(b, c)
    ensures StrLe(a, c)
    decreases |a|
  {
    if a != [] && b != [] && c != [] && a[0] == b[0] && b[0] == c[0] {
      StrLeTransitive(a[1..], b[1..], c[1..]);
    }
  }

  lemma {:induction false} StrLeAntisymmetric(a: string, b: string)
    requires StrLe(a, b) && StrLe(b, a)
    ensures a == b
    decreases |a|
  {
    if a != [] && b != [] {
      StrLeAntisymmetric(a[1..], b[1..]);
      assert a == [a[0]] + a[1..];
      assert b == [b[0]] + b[1..];
    }
  }

  // ---------------------------------------------------------------------------
  // `str.split()` with no separator: runs of whitespace separate the fields and
  // leading or trailing whitespace yields no empty field.

  /** The characters for which Python's `str.isspace()` holds. */
  predicate IsSpace(c: char)
  {
    var n := c as int;
    n == 0x20 || (0x09 <= n <= 0x0D) || (0x1C <= n <= 0x1F) || n == 0x85 || n == 0xA0
    || n == 0x1680 || (0x2000 <= n <= 0x200A) || n == 0x2028 || n == 0x2029
    || n == 0x202F || n == 0x205F || n == 0x3000
  }

  predicate NoSpace(s: string)
  {
    forall i :: 0 <= i < |s| ==> !IsSpace(s[i])
  }

  /** The longest prefix of `s` without whitespace. */
  function Word(s: string): (w: string)
    ensures w <= s && NoSpace(w)
    ensures |w| == |s| || IsSpace(s[|w|])
  {
    if s == [] || IsSpace(s[0]) then [] else [s[0]] + Word(s[1..])
  }

  function Split(s: string): (r: seq<string>)
    ensures forall k :: 0 <= k < |r| ==> r[k] != [] && NoSpace(r[k])
    decreases |s|
  {
    if s == [] then []
    else if IsSpace(s[0]) then Split(s[1..])
    else
      var w := Word(s);
      [w] + Split(s[|w|..])
  }

  /** The fields joined by single spaces, as the manifests store `token_id`. */
  function JoinSpaced(ts: seq<string>): string
  {
    if ts == [] then []
    else if |ts| == 1 then ts[0]
    else ts[0] + " " + JoinSpaced(ts[1..])
  }

  lemma {:induction false} WordOfField(t: string, rest: string)
    requires NoSpace(t)
    requires rest == [] || IsSpace(rest[0])
    ensures Word(t + rest) == t
    decreases |t|
  {
    if t != [] {
      assert (t + rest)[1..] == t[1..] + rest;
      WordOfField(t[1..], rest);
    }
  }

  /** Splitting fields joined by spaces gives the fields back. */
  lemma {:induction false} SplitJoinSpaced(ts: seq<string>)
    requires forall k :: 0 <= k < |ts| ==> ts[k] != [] && NoSpace(ts[k])
    ensures Split(JoinSpaced(ts)) == ts
  {
    if |ts| == 1 {
      WordOfField(ts[0], []);
      assert ts[0] + [] == ts[0];
    } else if |ts| > 1 {
      var t, rest := ts[0], JoinSpaced(ts[1..]);
      var s := t + " " + rest;
      assert s == t + (" " + rest);
      WordOfField(t, " " + rest);
      assert s[|t|..] == " " + rest;
      assert (" " + rest)[1..] == rest;
      SplitJoinSpaced(ts[1..]);
      assert ts == [ts[0]] + ts[1..];
    }
  }

  // ---------------------------------------------------------------------------
  // `int(token)` for a token without whitespace: an optional sign followed by
  // ASCII decimal digits.

  predicate IsDigit(c: char)
  {
    '0' <= c <= '9'
  }

  predicate AllDigits(s: string)
  {
    forall i :: 0 <= i < |s| ==> IsDigit(s[i])
  }

  function DigitsValue(s: string): nat
    requires AllDigits(s)
  {
    if s == [] then 0 else DigitsValue(s[..|s| - 1]) * 10 + (s[|s| - 1] as int - '0' as int)
  }

  function ParseInt(t: string): (r: Option<int>)
    ensures r.Some? <==> (|t| >= 2 && (t[0] == '-' || t[0] == '+') && AllDigits(t[1..]))
                         || (|t| >= 1 && AllDigits(t))
  {
    if |t| >= 2 && (t[0] == '-' || t[0] == '+') && AllDigits(t[1..]) then
      var v: int := DigitsValue(t[1..]);
      Some(if t[0] == '-' then -v else v)
    else if |t| >= 1 && AllDigits(t) then Some(DigitsValue(t))
    else None
  }

  function DigitChar(d: nat): (c: char)
    requires d < 10
    ensures IsDigit(c) && c as int - '0' as int == d
  {
    ('0' as int + d) as char
  }

  /** Decimal digits of a natural number, without leading zeros. */
  function FormatNat(n: nat): (s: string)
    ensures s != [] && AllDigits(s)
  {
    if n < 10 then [DigitChar(n)] else FormatNat(n / 10) + [DigitChar(n % 10)]
  }

  /** Python's `str(n)` for an integer. */
  function FormatInt(n: int): (s: string)
    ensures s != [] && NoSpace(s)
  {
    if n < 0 then "-" + FormatNat(-n) else FormatNat(n)
  }

  lemma {:induction false} DigitsOfFormatNat(n: nat)
    ensures DigitsValue(FormatNat(n)) == n
  {
    if n >= 10 {
      var f := FormatNat(n / 10);
      DigitsOfFormatNat(n / 10);
      assert (f + [DigitChar(n % 10)])[..|f|] == f;
    }
  }

  /** `int(str(n)) == n`. */
  lemma ParseFormatInt(n: int)
    ensures ParseInt(FormatInt(n)) == Some(n)
  {
    if n < 0 {
      var f := FormatNat(-n);
      DigitsOfFormatNat(-n);
      assert FormatInt(n) == "-" + f;
      assert ("-" + f)[1..] == f;
      assert ("-" + f)[0] == '-';
    } else {
      var f := FormatNat(n);
      DigitsOfFormatNat(n);
      assert IsDigit(f[0]);
    }
  }

  // ---------------------------------------------------------------------------
  // `list(map(int, field.split()))`: ValueError (None here) on the first field
  // that is not an integer.

  function ParseAll(ts: seq<string>): (r: Option<seq<int>>)
    ensures r.Some? <==> forall k :: 0 <= k < |ts| ==> ParseInt(ts[k]).Some?
    ensures r.Some? ==> |r.value| == |ts|
                        && forall k :: 0 <= k < |ts| ==> ParseInt(ts[k]) == Some(r.value[k])
  {
    if ts == [] then Some([])
    else
      match ParseInt(ts[0])
      case None => None
      case Some(v) =>
        match ParseAll(ts[1..])
        case None => None
        case Some(vs) => Some([v] + vs)
  }

  function ParseTokenIds(field: string): Option<seq<int>>
  {
    ParseAll(Split(field))
  }

  /** The way data preparation writes a list of token ids into a manifest. */
  function FormatTokenIds(ids: seq<int>): string
  {
    JoinSpaced(seq(|ids|, k requires 0 <= k < |ids| => FormatInt(ids[k])))
  }

  /** Parsing a written `token_id` field gives the ids back. */
  lemma ParseFormatTokenIds(ids: seq<int>)
    ensures ParseTokenIds(FormatTokenIds(ids)) == Some(ids)
  {
    var ts := seq(|ids|, k requires 0 <= k < |ids| => FormatInt(ids[k]));
    SplitJoinSpaced(ts);
    forall k | 0 <= k < |ts| ensures ParseInt(ts[k]) == Some(ids[k]) {
      ParseFormatInt(ids[k]);
    }
    var r := ParseAll(ts);
    assert r.Some?;
    assert r.value == ids;
  }

  // ---------------------------------------------------------------------------
  // Paths.

  /** `os.path.basename(p)`: whatever follows the last '/'. */
  function BaseName(p: string): (r: string)
    ensures |r| <= |p| && r == p[|p| - |r|..]
    ensures forall i :: 0 <= i < |r| ==> r[i] != '/'
    ensures |r| < |p| ==> p[|p| - |r| - 1] == '/'
  {
    if p == [] || p[|p| - 1] == '/' then []
    else BaseName(p[..|p| - 1]) + [p[|p| - 1]]
  }

  /** `s.split('.')[0]`: whatever precedes the first '.'. */
  function FirstField(s: string): (r: string)
    ensures r <= s
    ensures forall i :: 0 <= i < |r| ==> r[i] != '.'
    ensures |r| < |s| ==> s[|r|] == '.'
  {
    if s == [] || s[0] == '.' then [] else [s[0]] + FirstField(s[1..])
  }

  /** `os.path.join(dir, name)` for a relative `name`. */
  function PathJoin(dir: string, name: string): (r: string)
    ensures r == PathPrefix(dir) + name
  {
    if dir == [] || dir[|dir| - 1] == '/' then dir + name else dir + "/" + name
  }

  /** What `os.path.join` puts before the name. */
  function PathPrefix(dir: string): (p: string)
    ensures p == [] || p[|p| - 1] == '/'
  {
    if dir == [] || dir[|dir| - 1] == '/' then dir else dir + "/"
  }

  /** The base name of a joined path is the name that was joined. */
  lemma {:induction false} BaseNameOfJoin(dir: string, name: string)
    requires forall i :: 0 <= i < |name| ==> name[i] != '/'
    ensures BaseName(PathJoin(dir, name)) == name
  {
    BaseNameAfterSlash(PathPrefix(dir), name);
  }

  lemma {:induction false} BaseNameAfterSlash(prefix: string, name: string)
    requires prefix == [] || prefix[|prefix| - 1] == '/'
    requires forall i :: 0 <= i < |name| ==> name[i] != '/'
    ensures BaseName(prefix + name) == name
    decreases |name|
  {
    var p := prefix + name;
    if name == [] {
      assert p == prefix;
    } else {
      var init := name[..|name| - 1];
      var last := name[|name| - 1];
      assert p == (prefix + init) + [last];
      assert BaseName(p) == BaseName(prefix + init) + [last];
      BaseNameAfterSlash(prefix, init);
      assert name == init + [last];
    }
  }
}
