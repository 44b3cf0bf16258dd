/** Searching and trimming, for strings of any kind of character. */
module Sequences {

  /** The last place of `c`, or -1. */
  function LastIndex<T(==)>(s: seq<T>, c: T): (i: int)
    ensures -1 <= i < |s| && (i >= 0 ==> s[i] == c) && forall k :: i < k < |s| ==> s[k] != c
  {
    if s == [] then -1
    else if s[|s| - 1] == c then |s| - 1
    else LastIndex(s[..|s| - 1], c)
  }

  /** The first place of `c`, or the length. */
  function FirstIndex<T(==)>(s: seq<T>, c: T): (n: nat)
    ensures n <= |s| && (n < |s| ==> s[n] == c) && c !in s[..n]
  {
    if s == [] || s[0] == c then 0
    else
      var m := FirstIndex(s[1..], c);
      assert s[..m + 1] == [s[0]] + s[1..][..m];
      m + 1
  }

  function TrimLeft<T>(s: seq<T>, blank: T -> bool): (r: seq<T>)
    ensures r == [] || !blank(r[0])
  {
    if s == [] || !blank(s[0]) then s else TrimLeft(s[1..], blank)
  }

  function TrimRight<T>(s: seq<T>, blank: T -> bool): (r: seq<T>)
    ensures r <= s && (r == [] || !blank(r[|r| - 1]))
  {
    if s == [] || !blank(s[|s| - 1]) then s else TrimRight(s[..|s| - 1], blank)
  }

  function Trim<T>(s: seq<T>, blank: T -> bool): seq<T> {
    TrimRight(TrimLeft(s, blank), blank)
  }

  ghost predicate AllBlank<T>(s: seq<T>, blank: T -> bool) {
    forall i :: 0 <= i < |s| ==> blank(s[i])
  }

  /** Neither end of it would be trimmed. */
  ghost predicate Tight<T>(s: seq<T>, blank: T -> bool) {
    s == [] || (!blank(s[0]) && !blank(s[|s| - 1]))
  }

  lemma {:induction false} Trims<T>(left: seq<T>, core: seq<T>, right: seq<T>, blank: T -> bool)
    requires AllBlank(left, blank) && AllBlank(right, blank) && Tight(core, blank)
    ensures Trim(left + core + right, blank) == core
  {
    if left != [] {
      var s := left + core + right;
      assert s[0] == left[0] && s[1..] == left[1..] + core + right;
      Trims(left[1..], core, right, blank);
    } else {
      assert left + core + right == core + right;
      if core == [] {
        assert core + right == right;
        AllTrimmed(right, blank);
      } else {
        TrimsBehind(core, right, blank);
        assert (core + right)[0] == core[0];
      }
    }
  }

  lemma {:induction false} AllTrimmed<T>(s: seq<T>, blank: T -> bool)
    requires AllBlank(s, blank)
    ensures TrimLeft(s, blank) == []
  {
    if s != [] {
      AllTrimmed(s[1..], blank);
    }
  }

  lemma {:induction false} TrimsBehind<T>(core: seq<T>, right: seq<T>, blank: T -> bool)
    requires AllBlank(right, blank) && Tight(core, blank)
    ensures TrimRight(core + right, blank) == core
  {
    if right == [] {
      assert core + right == core;
    } else {
      assert (core + right)[..|core + right| - 1] == core + right[..|right| - 1];
      TrimsBehind(core, right[..|right| - 1], blank);
    }
  }

  /** The last separator of a string that has none behind it. */
  lemma LastIs<T>(front: seq<T>, c: T, rest: seq<T>)
    requires c !in rest
    ensures LastIndex(front + [c] + rest, c) == |front|
    ensures (front + [c] + rest)[..|front|] == front && (front + [c] + rest)[|front| + 1..] == rest
  {
    hide LastIndex;
    var s := front + [c] + rest;
    assert s[|front|] == c;
    assert forall k :: |front| < k < |s| ==> s[k] == rest[k - |front| - 1];
  }

  lemma {:induction false} FirstConcat<T>(s: seq<T>, t: seq<T>, c: T)
    requires c !in s
    ensures FirstIndex(s + t, c) == |s| + FirstIndex(t, c)
  {
    if s == [] {
      assert s + t == t;
    } else {
      assert (s + t)[1..] == s[1..] + t;
      FirstConcat(s[1..], t, c);
    }
  }

  /** The first separator of a string that has none in front of it. */
  lemma FirstIs<T>(front: seq<T>, c: T, rest: seq<T>)
    requires c !in front
    ensures FirstIndex(front + [c] + rest, c) == |front| && (front + [c] + rest)[..|front|] == front
  {
    assert front + [c] + rest == front + ([c] + rest);
    FirstConcat(front, [c] + rest, c);
  }
}
