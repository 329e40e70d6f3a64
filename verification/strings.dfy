/** The few JavaScript string operations the application relies on:
    `startsWith`, `replace` with a string pattern (which replaces only the
    FIRST occurrence, wherever it is) and `split(c)[0]`. */
module Strings {
  import opened Wrappers

  predicate StartsWith(s: string, prefix: string) {
    |prefix| <= |s| && s[..|prefix|] == prefix
  }

  /** `p` occurs in `s` starting at index `i`. */
  predicate OccursAt(s: string, p: string, i: nat) {
    i + |p| <= |s| && s[i..i + |p|] == p
  }

  /** Index of the first occurrence of `p` in `s`, as `String.indexOf`. */
  function IndexOf(s: string, p: string): (r: Option<nat>)
    ensures r.Some? ==> OccursAt(s, p, r.value)
    ensures r.Some? ==> forall i: nat :: i < r.value ==> !OccursAt(s, p, i)
    ensures r.None? ==> forall i: nat :: !OccursAt(s, p, i)
    decreases |s|
  {
    if |p| > |s| then None
    else if s[..|p|] == p then Some(0)
    else
      match IndexOf(s[1..], p)
      case None =>
        assert forall i: nat :: 0 < i && OccursAt(s, p, i) ==> OccursAt(s[1..], p, i - 1);
        None
      case Some(k) =>
        assert OccursAt(s[1..], p, k) ==> OccursAt(s, p, k + 1);
        assert forall i: nat :: 0 < i && OccursAt(s, p, i) ==> OccursAt(s[1..], p, i - 1);
        Some(k + 1)
  }

  /** `s.replace(p, '')`: the first occurrence of `p` is cut out; when there
      is none, `s` is returned unchanged. */
  function RemoveFirst(s: string, p: string): (r: string)
    ensures IndexOf(s, p).None? ==> r == s
    ensures IndexOf(s, p).Some? ==> |r| == |s| - |p|
    ensures IndexOf(s, p).Some? ==>
      var i := IndexOf(s, p).value; i <= |r| && s == r[..i] + p + r[i..]
  {
    match IndexOf(s, p)
    case None => s
    case Some(i) =>
      var r := s[..i] + s[i + |p|..];
      assert r[..i] == s[..i] && r[i..] == s[i + |p|..];
      assert s == s[..i] + s[i..i + |p|] + s[i + |p|..];
      r
  }

  /** `s.split(c)[0]`: everything before the first `c`, or all of `s`. */
  function BeforeFirst(s: string, c: char): (r: string)
    ensures c !in r
    ensures r <= s
    ensures |r| < |s| ==> s[|r|] == c
    ensures c !in s ==> r == s
  {
    if s == [] then []
    else if s[0] == c then []
    else [s[0]] + BeforeFirst(s[1..], c)
  }

  /** Removing a pattern from a string that begins with it strips exactly
      that leading copy, whatever follows. */
  lemma {:induction false} RemoveFirstOfPrefixed(p: string, t: string)
    ensures RemoveFirst(p + t, p) == t
  {
    assert OccursAt(p + t, p, 0);
    var r := IndexOf(p + t, p);
    assert r == Some(0);
    assert (p + t)[|p|..] == t;
  }

  lemma StartsWithAppend(p: string, t: string)
    ensures StartsWith(p + t, p)
  {
    assert (p + t)[..|p|] == p;
  }
}
