/** Splitting and prefix/suffix helpers on strings, used by the formatting functions and by
    the parsers that invert them. */
module Strings {
  import opened Wrappers

  /** `s` without its prefix `p`, or None when `s` does not start with `p`. */
  function After(p: string, s: string): (r: Option<string>)
    ensures r.Some? <==> |p| <= |s| && s[..|p|] == p
    ensures r.Some? ==> s == p + r.value
  {
    if |p| <= |s| && s[..|p|] == p then Some(s[|p|..]) else None
  }

  /** `s` without its suffix `p`, or None when `s` does not end with `p`. */
  function Before(p: string, s: string): (r: Option<string>)
    ensures r.Some? <==> |p| <= |s| && s[|s| - |p|..] == p
    ensures r.Some? ==> s == r.value + p
  {
    if |p| <= |s| && s[|s| - |p|..] == p then Some(s[..|s| - |p|]) else None
  }

  lemma AfterOf(p: string, t: string)
    ensures After(p, p + t) == Some(t)
  {
    assert (p + t)[..|p|] == p;
  }

  lemma BeforeOf(t: string, p: string)
    ensures Before(p, t + p) == Some(t)
  {
    assert (t + p)[|t|..] == p;
  }

  /** Splits `s` at the first occurrence of `c`: the text before it, and the rest starting
      with `c` (empty when `c` does not occur). */
  function SplitAt(s: string, c: char): (r: (string, string))
    ensures r.0 + r.1 == s
    ensures c !in r.0
    ensures r.1 == [] || r.1[0] == c
  {
    if s == [] then ([], [])
    else if s[0] == c then ([], s)
    else
      var (a, b) := SplitAt(s[1..], c);
      assert s == [s[0]] + s[1..];
      ([s[0]] + a, b)
  }

  /** SplitAt finds exactly the split point of a text that does not contain `c`. */
  lemma {:induction false} SplitAtOf(a: string, b: string, c: char)
    requires c !in a
    requires b == [] || b[0] == c
    ensures SplitAt(a + b, c) == (a, b)
  {
    if a == [] {
      assert a + b == b;
    } else {
      assert (a + b)[0] == a[0];
      assert (a + b)[1..] == a[1..] + b;
      SplitAtOf(a[1..], b, c);
      assert [a[0]] + a[1..] == a;
    }
  }

  /** Splits `s` before its longest suffix whose characters all satisfy `P`. */
  function SplitLastRun(s: string, P: char -> bool): (r: (string, string))
    ensures r.0 + r.1 == s
    ensures forall i :: 0 <= i < |r.1| ==> P(r.1[i])
    ensures r.0 == [] || !P(r.0[|r.0| - 1])
  {
    if s == [] || !P(s[|s| - 1]) then (s, [])
    else
      var (a, b) := SplitLastRun(s[..|s| - 1], P);
      assert s == s[..|s| - 1] + [s[|s| - 1]];
      (a, b + [s[|s| - 1]])
  }

  /** The run found by SplitLastRun is exactly `b` when `b` is made of `P` characters and
      the text before it does not end in one. */
  lemma {:induction false} SplitLastRunOf(a: string, b: string, P: char -> bool)
    requires forall i :: 0 <= i < |b| ==> P(b[i])
    requires a == [] || !P(a[|a| - 1])
    ensures SplitLastRun(a + b, P) == (a, b)
  {
    if b == [] {
      assert a + b == a;
    } else {
      var s := a + b;
      assert s[|s| - 1] == b[|b| - 1];
      assert s[..|s| - 1] == a + b[..|b| - 1];
      SplitLastRunOf(a, b[..|b| - 1], P);
      assert b[..|b| - 1] + [b[|b| - 1]] == b;
    }
  }
}
