/** Sets of hart numbers, and the orders in which harts step. */
module HartSets {

  /** Steps of `n` harts, in any order. */
  ghost predicate Schedule(n: nat, order: seq<nat>) {
    forall k :: 0 <= k < |order| ==> order[k] < n
  }

  /** The harts 0 to n - 1. */
  function Upto(n: nat): (r: set<int>)
    ensures forall i :: i in r <==> 0 <= i < n
    ensures |r| == n
  {
    if n == 0 then {} else Upto(n - 1) + {n - 1}
  }

  lemma SubsetSize(a: set<int>, b: set<int>)
    requires a <= b
    ensures |a| <= |b| && (|a| == |b| ==> a == b)
  {
    assert b == a + (b - a);
    if |a| == |b| {
      assert |b - a| == 0;
    }
  }

  lemma Everyone(w: set<int>, n: nat)
    requires w <= Upto(n) && forall i :: 0 <= i < n ==> i in w
    ensures w == Upto(n)
  {
    hide Upto;
  }

  /** A set without hart `i` has at most n - 1 of n harts, and if it has that many it has all others. */
  lemma AllBut(w: set<int>, i: int, n: nat)
    requires w <= Upto(n) && 0 <= i < n && i !in w
    ensures |w| <= n - 1
    ensures |w| == n - 1 ==> w == Upto(n) - {i}
  {
    hide Upto;
    SubsetSize(w, Upto(n) - {i});
  }
}
