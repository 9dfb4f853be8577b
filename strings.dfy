/** String helpers the model needs: Go's strings.HasPrefix and splitting at a delimiter. */
module Strings {

  import opened Wrappers

  /** Go's strings.HasPrefix. */
  predicate HasPrefix(s: string, p: string) {
    |p| <= |s| && s[..|p|] == p
  }

  lemma PrefixOfConcat(s: string, t: string, p: string)
    requires HasPrefix(s, p)
    ensures HasPrefix(s + t, p)
  {
  }

  /** Index of the first occurrence of `c` in `s`, or -1. */
  function IndexOf(s: string, c: char): (i: int)
    ensures -1 <= i < |s|
    ensures i >= 0 ==> s[i] == c && c !in s[..i]
    ensures i < 0 ==> c !in s
  {
    if |s| == 0 then -1
    else if s[0] == c then 0
    else
      var j := IndexOf(s[1..], c);
      if j < 0 then -1
      else
        assert s[..j + 1] == [s[0]] + s[1..][..j];
        j + 1
  }

  /** Index of the last occurrence of `c` in `s`, or -1. */
  function LastIndexOf(s: string, c: char): (i: int)
    ensures -1 <= i < |s|
    ensures i >= 0 ==> s[i] == c && c !in s[i + 1..]
    ensures i < 0 ==> c !in s
  {
    if |s| == 0 then -1
    else if s[|s| - 1] == c then |s| - 1
    else
      var j := LastIndexOf(s[..|s| - 1], c);
      if j >= 0 then
        assert s[j + 1..] == s[..|s| - 1][j + 1..] + [s[|s| - 1]];
        j
      else
        assert s == s[..|s| - 1] + [s[|s| - 1]];
        -1
  }

  /** The parts before and after the first `c`; None when `s` has no `c`. */
  function SplitFirst(s: string, c: char): Option<(string, string)> {
    var i := IndexOf(s, c);
    if i < 0 then None else Some((s[..i], s[i + 1..]))
  }

  /** The parts before and after the last `c`; None when `s` has no `c`. */
  function SplitLast(s: string, c: char): Option<(string, string)> {
    var i := LastIndexOf(s, c);
    if i < 0 then None else Some((s[..i], s[i + 1..]))
  }

  lemma {:induction false} IndexOfJoin(a: string, c: char, b: string)
    requires c !in a
    ensures IndexOf(a + [c] + b, c) == |a|
  {
    if a != [] {
      assert (a + [c] + b)[1..] == a[1..] + [c] + b;
      IndexOfJoin(a[1..], c, b);
    }
  }

  lemma {:induction false} LastIndexOfJoin(a: string, c: char, b: string)
    requires c !in b
    ensures LastIndexOf(a + [c] + b, c) == |a|
  {
    if b != [] {
      var s := a + [c] + b;
      assert s[|s| - 1] == b[|b| - 1];
      assert s[..|s| - 1] == a + [c] + b[..|b| - 1];
      LastIndexOfJoin(a, c, b[..|b| - 1]);
    }
  }

  /** A delimiter that does not occur before it is found again by SplitFirst. */
  lemma SplitFirstJoin(a: string, c: char, b: string)
    requires c !in a
    ensures SplitFirst(a + [c] + b, c) == Some((a, b))
  {
    IndexOfJoin(a, c, b);
    var s := a + [c] + b;
    assert s[..|a|] == a && s[|a| + 1..] == b;
  }

  /** A delimiter that does not occur after it is found again by SplitLast. */
  lemma SplitLastJoin(a: string, c: char, b: string)
    requires c !in b
    ensures SplitLast(a + [c] + b, c) == Some((a, b))
  {
    LastIndexOfJoin(a, c, b);
    var s := a + [c] + b;
    assert s[..|a|] == a && s[|a| + 1..] == b;
  }
}
