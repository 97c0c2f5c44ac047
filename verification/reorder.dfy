/**
 Rearranging a sequence by an index map: `Gather(a, p)[i] == a[p[i]]`. When the
 map is injective and stays inside `a`, the result is a permutation of `a`.
 */
module Reorder {

  /** `p` picks every position of a length-`n` sequence exactly once. */
  predicate IsIndexMap(p: seq<nat>, n: nat)
  {
    && |p| == n
    && (forall i :: 0 <= i < |p| ==> p[i] < n)
    && (forall i, j :: 0 <= i < j < |p| ==> p[i] != p[j])
  }

  function Gather<T>(a: seq<T>, p: seq<nat>): (r: seq<T>)
    requires forall i :: 0 <= i < |p| ==> p[i] < |a|
    ensures |r| == |p|
    ensures forall i :: 0 <= i < |p| ==> r[i] == a[p[i]]
  {
    seq(|p|, i requires 0 <= i < |p| => a[p[i]])
  }

  /** Gathering through an index map keeps every value with its multiplicity. */
  lemma {:induction false} GatherPermutes<T>(a: seq<T>, p: seq<nat>)
    requires IsIndexMap(p, |a|)
    ensures multiset(Gather(a, p)) == multiset(a)
  {
    var n := |a|;
    if n > 0 {
      var k := p[n - 1];
      // drop position k from `a` and close the gap in the index map
      var a' := a[..k] + a[k + 1..];
      var p' := seq(n - 1, i requires 0 <= i < n - 1 => if p[i] < k then p[i] else p[i] - 1);
      assert forall i :: 0 <= i < n - 1 ==> p[i] != k;
      assert IsIndexMap(p', |a'|);
      GatherPermutes(a', p');
      var g := Gather(a, p);
      assert g[..n - 1] == Gather(a', p');
      assert g == g[..n - 1] + [a[k]];
      assert a == a[..k] + [a[k]] + a[k + 1..];
    }
  }
}
