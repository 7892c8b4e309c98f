/**
 * The handful of Python `str` operations the LoRA key handling relies on:
 * `startswith`, `replace`, `split(".", 1)`, `rstrip`, f-string formatting of
 * non-negative integers, and the ordering `<` that `sort` and `bisect` use
 * (lexicographic by code point, a proper prefix sorting first).
 */
module PyStrings {
  import opened Wrappers

  predicate StartsWith(s: string, prefix: string) {
    |prefix| <= |s| && s[..|prefix|] == prefix
  }

  predicate OccursAt(s: string, sub: string, i: nat) {
    i + |sub| <= |s| && s[i..i + |sub|] == sub
  }

  /** `sub in s` */
  predicate Contains(s: string, sub: string) {
    exists i: nat | i <= |s| :: OccursAt(s, sub, i)
  }

  /**
   * `s.replace(pat, rep)`: every non-overlapping occurrence of `pat`, scanning
   * from the left, is replaced; an empty `pat` inserts `rep` before every
   * character and at the end.
   */
  function ReplaceAll(s: string, pat: string, rep: string): (r: string)
    decreases |s|
  {
    if |pat| == 0 then
      (if |s| == 0 then rep else rep + [s[0]] + ReplaceAll(s[1..], pat, rep))
    else if |s| < |pat| then s
    else if s[..|pat|] == pat then rep + ReplaceAll(s[|pat|..], pat, rep)
    else [s[0]] + ReplaceAll(s[1..], pat, rep)
  }

  /** A string that starts with `pat` has that occurrence replaced first. */
  lemma ReplaceLeading(pat: string, rep: string, rest: string)
    requires |pat| > 0
    ensures ReplaceAll(pat + rest, pat, rep) == rep + ReplaceAll(rest, pat, rep)
  {
    var s := pat + rest;
    assert s[..|pat|] == pat;
    assert s[|pat|..] == rest;
  }

  /** Position of the first `c` in `s`, if any. */
  function IndexOf(s: string, c: char): (r: Option<nat>)
    ensures r.Some? ==> r.value < |s| && s[r.value] == c && c !in s[..r.value]
    ensures r.None? <==> c !in s
  {
    if |s| == 0 then None
    else if s[0] == c then Some(0)
    else match IndexOf(s[1..], c)
      case None => None
      case Some(i) => assert s[1..][..i] == s[1..i + 1]; Some(i + 1)
  }

  /** `stem, leaf = s.split(".", 1)`: `None` when there is no `.` to split at (the unpacking raises). */
  function SplitFirstDot(s: string): (r: Option<(string, string)>)
  {
    match IndexOf(s, '.')
    case None => None
    case Some(i) => Some((s[..i], s[i + 1..]))
  }

  /** Splitting at the first `.` and joining again gives back the key; the stem has no `.`. */
  lemma SplitFirstDotJoin(s: string)
    ensures SplitFirstDot(s).None? <==> '.' !in s
    ensures SplitFirstDot(s).Some? ==>
      var (stem, leaf) := SplitFirstDot(s).value;
      '.' !in stem && stem + "." + leaf == s
  {
    if SplitFirstDot(s).Some? {
      var i := IndexOf(s, '.').value;
      assert s[..i] + "." + s[i + 1..] == s;
    }
  }

  /** Joining a `.`-free stem and any leaf with `.` splits back into the same stem and leaf. */
  lemma {:induction false} SplitFirstDotOfJoin(stem: string, leaf: string)
    requires '.' !in stem
    ensures SplitFirstDot(stem + "." + leaf) == Some((stem, leaf))
  {
    var s := stem + "." + leaf;
    assert s[|stem|] == '.';
    assert s[..|stem|] == stem;
    assert s[|stem| + 1..] == leaf;
    var i := IndexOf(s, '.').value;
    assert forall j :: 0 <= j < |stem| ==> s[j] == stem[j];
    assert forall j :: 0 <= j < i ==> s[..i][j] == s[j];
    assert i == |stem|;
  }

  /** `s.rstrip(c)`: drop every trailing `c`. */
  function RStrip(s: string, c: char): (r: string)
    ensures |r| <= |s| && r == s[..|r|]
    ensures |r| == 0 || r[|r| - 1] != c
    ensures forall i :: |r| <= i < |s| ==> s[i] == c
  {
    if |s| > 0 && s[|s| - 1] == c then RStrip(s[..|s| - 1], c) else s
  }

  /** `s.replace(a, b)` for one-character `a` and `b`, written character by character. */
  function MapChar(s: string, a: char, b: char): (r: string)
    ensures |r| == |s|
    ensures forall i :: 0 <= i < |s| ==> r[i] == (if s[i] == a then b else s[i])
  {
    if |s| == 0 then "" else [if s[0] == a then b else s[0]] + MapChar(s[1..], a, b)
  }

  /** Replacing a one-character pattern with `replace` agrees with mapping that character. */
  lemma {:induction false} ReplaceOneChar(s: string, a: char, b: char)
    ensures ReplaceAll(s, [a], [b]) == MapChar(s, a, b)
    decreases |s|
  {
    if |s| > 0 {
      ReplaceOneChar(s[1..], a, b);
      if s[..1] == [a] {
        assert s[1..] == s[|[a]|..];
      } else {
        assert s[0] != a;
      }
    }
  }

  function DigitChar(d: nat): char
    requires d < 10
  {
    "0123456789"[d]
  }

  /** The decimal rendering of a non-negative integer, as an f-string writes it. */
  function NatToString(n: nat): (r: string)
    ensures |r| > 0
    ensures forall i :: 0 <= i < |r| ==> '0' <= r[i] <= '9'
  {
    if n < 10 then [DigitChar(n)] else NatToString(n / 10) + [DigitChar(n % 10)]
  }

  // ---------------------------------------------------------------------
  // Ordering of strings, as Python compares them.

  /** `a < b` on Python strings. */
  predicate Less(a: string, b: string)
    decreases |a|
  {
    if |a| == 0 then |b| > 0
    else if |b| == 0 then false
    else if a[0] != b[0] then a[0] < b[0]
    else Less(a[1..], b[1..])
  }

  predicate LessEq(a: string, b: string) {
    a == b || Less(a, b)
  }

  lemma {:induction false} LessIrreflexive(a: string)
    ensures !Less(a, a)
    decreases |a|
  {
    if |a| > 0 { LessIrreflexive(a[1..]); }
  }

  lemma {:induction false} LessTransitive(a: string, b: string, c: string)
    requires Less(a, b) && Less(b, c)
    ensures Less(a, c)
    decreases |a|
  {
    if |a| > 0 && a[0] == b[0] && b[0] == c[0] {
      LessTransitive(a[1..], b[1..], c[1..]);
    }
  }

  lemma {:induction false} LessTotal(a: string, b: string)
    ensures Less(a, b) || a == b || Less(b, a)
    decreases |a|
  {
    if |a| > 0 && |b| > 0 && a[0] == b[0] {
      LessTotal(a[1..], b[1..]);
      if a[1..] == b[1..] {
        assert a == [a[0]] + a[1..] && b == [b[0]] + b[1..];
      }
    }
  }

  lemma LessAsymmetric(a: string, b: string)
    requires Less(a, b)
    ensures !Less(b, a) && a != b
  {
    LessIrreflexive(a);
    if Less(b, a) { LessTransitive(a, b, a); }
  }

  lemma LessEqTransitive(a: string, b: string, c: string)
    requires LessEq(a, b) && LessEq(b, c)
    ensures LessEq(a, c)
  {
    if Less(a, b) && Less(b, c) { LessTransitive(a, b, c); }
  }

  /** A prefix of a string sorts no later than the string. */
  lemma {:induction false} PrefixLessEq(k: string, s: string)
    requires StartsWith(s, k)
    ensures LessEq(k, s)
    decreases |k|
  {
    if |k| > 0 {
      assert StartsWith(s[1..], k[1..]) by { assert s[1..][..|k| - 1] == s[..|k|][1..]; }
      PrefixLessEq(k[1..], s[1..]);
      if k[1..] == s[1..] { assert k == s; }
    }
  }

  /**
   * Every string sorting between `k` and a string `s` that starts with `k`
   * also starts with `k`.
   */
  lemma {:induction false} BetweenPrefixSharesPrefix(k: string, t: string, s: string)
    requires StartsWith(s, k)
    requires LessEq(k, t) && LessEq(t, s)
    ensures StartsWith(t, k)
    decreases |k|
  {
    if |k| > 0 && t != k && t != s {
      assert |t| > 0;
      assert s[0] == k[0];
      assert t[0] == k[0];
      assert StartsWith(s[1..], k[1..]) by { assert s[1..][..|k| - 1] == s[..|k|][1..]; }
      BetweenPrefixSharesPrefix(k[1..], t[1..], s[1..]);
      assert t[..|k|] == [t[0]] + t[1..][..|k| - 1];
    }
  }
}
