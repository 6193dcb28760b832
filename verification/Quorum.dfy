/** How many acknowledgements make a quorum, and why two quorums always meet. */
module Quorum {

  /** The threshold as the view computes it: (size + 1) / 2.0 rounded up. */
  function Size(n: nat): (q: int)
  {
    -((-(((n + 1) as real) / 2.0)).Floor)
  }

  lemma SizeIsMajority(n: nat)
    ensures Size(n) == n / 2 + 1
    ensures 2 * Size(n) > n
    ensures n > 0 ==> Size(n) <= n
  {
    var h := n / 2;
    if n % 2 == 0 {
      assert ((n + 1) as real) / 2.0 == h as real + 0.5;
      assert (-(h as real + 0.5)).Floor == -h - 1;
    } else {
      assert ((n + 1) as real) / 2.0 == (h + 1) as real;
    }
  }

  /** The node ids of a cluster of n. */
  function Nodes(n: nat): (s: set<nat>)
    ensures |s| == n
    ensures forall i: int :: i in s <==> 0 <= i < n
  {
    if n == 0 then {} else Nodes(n - 1) + {n - 1}
  }

  lemma SubsetSize<T>(a: set<T>, b: set<T>)
    requires a <= b
    ensures |a| <= |b|
  {
    assert b == a + (b - a);
  }

  /** Any two groups of distinct nodes that pass the count share a node, whoever was asked. */
  lemma Intersect(n: nat, a: set<nat>, b: set<nat>)
    requires forall i :: i in a + b ==> i < n
    requires |a| >= Size(n) && |b| >= Size(n)
    ensures exists i :: i in a && i in b
  {
    SizeIsMajority(n);
    SubsetSize(a + b, Nodes(n));
    assert |a + b| + |a * b| == |a| + |b|;
    assert |a * b| > 0;
    var i :| i in a * b;
  }
}
