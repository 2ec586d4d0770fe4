/** `Array.prototype.filter` over a sequence, and exactly which positions
    it keeps. */
module Sequences {

  /** `s.filter(p)`: the elements satisfying `p`, in their original order. */
  function Filter<T>(s: seq<T>, p: T -> bool): (r: seq<T>)
    ensures |r| <= |s|
    ensures forall x :: x in r ==> x in s && p(x)
  {
    if s == [] then []
    else
      var init := Filter(s[..|s| - 1], p);
      if p(s[|s| - 1]) then init + [s[|s| - 1]] else init
  }

  /** The positions of `s` whose elements satisfy `p`, in increasing order. */
  ghost function Kept<T>(s: seq<T>, p: T -> bool): (idx: seq<nat>)
  {
    if s == [] then []
    else
      var init := Kept(s[..|s| - 1], p);
      if p(s[|s| - 1]) then init + [|s| - 1] else init
  }

  /** `r` is the subsequence of `s` at the increasing positions `idx`,
      which are exactly the positions whose elements satisfy `p`. */
  ghost predicate SelectsExactly<T>(s: seq<T>, p: T -> bool, r: seq<T>, idx: seq<nat>) {
    && |r| == |idx|
    && (forall k :: 0 <= k < |idx| ==> idx[k] < |s| && r[k] == s[idx[k]])
    && (forall k, l :: 0 <= k < l < |idx| ==> idx[k] < idx[l])
    && (forall i :: 0 <= i < |s| ==> (i in idx <==> p(s[i])))
  }

  /** `Filter` keeps exactly the positions whose elements satisfy `p`,
      each once and in their original order. */
  lemma {:induction false} FilterKeeps<T>(s: seq<T>, p: T -> bool)
    ensures SelectsExactly(s, p, Filter(s, p), Kept(s, p))
  {
    if s != [] {
      var n := |s| - 1;
      var init := s[..n];
      FilterKeeps(init, p);
      var r0, idx0 := Filter(init, p), Kept(init, p);
      if p(s[n]) {
        StepKept(s, p, r0, idx0);
      } else {
        StepSkipped(s, p, r0, idx0);
      }
    }
  }

  lemma StepKept<T>(s: seq<T>, p: T -> bool, r0: seq<T>, idx0: seq<nat>)
    requires |s| > 0 && p(s[|s| - 1])
    requires SelectsExactly(s[..|s| - 1], p, r0, idx0)
    ensures SelectsExactly(s, p, r0 + [s[|s| - 1]], idx0 + [|s| - 1])
  {
    assert forall i :: 0 <= i < |s| - 1 ==> s[..|s| - 1][i] == s[i];
  }

  lemma StepSkipped<T>(s: seq<T>, p: T -> bool, r0: seq<T>, idx0: seq<nat>)
    requires |s| > 0 && !p(s[|s| - 1])
    requires SelectsExactly(s[..|s| - 1], p, r0, idx0)
    ensures SelectsExactly(s, p, r0, idx0)
  {
    assert forall i :: 0 <= i < |s| - 1 ==> s[..|s| - 1][i] == s[i];
  }
}
