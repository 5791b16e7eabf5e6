/**
 * Paths in a dependency graph, and the argument used for every graph of
 * this project to show that it has no cycle: a rank that every edge
 * strictly increases.
 */
module Graphs {

  /** p is a non-empty walk along edges. */
  ghost predicate IsPath<T>(edges: set<(T, T)>, p: seq<T>)
  {
    |p| >= 1 && forall i :: 1 <= i < |p| ==> (p[i - 1], p[i]) in edges
  }

  /** Every edge goes from a lower to a higher rank. */
  ghost predicate RankIncreasing<T>(edges: set<(T, T)>, rank: T -> int)
  {
    forall e :: e in edges ==> rank(e.0) < rank(e.1)
  }

  /** Along a path of at least one edge the rank strictly grows. */
  lemma {:induction false} RankGrowsAlongPath<T>(edges: set<(T, T)>, rank: T -> int, p: seq<T>)
    requires RankIncreasing(edges, rank)
    requires IsPath(edges, p) && |p| >= 2
    ensures rank(p[0]) < rank(p[|p| - 1])
  {
    var n := |p|;
    assert (p[n - 2], p[n - 1]) in edges;
    if n > 2 {
      var q := p[..n - 1];
      assert forall i :: 0 <= i < |q| ==> q[i] == p[i];
      RankGrowsAlongPath(edges, rank, q);
    }
  }

  /** A graph whose edges all increase some rank has no cycle. */
  lemma NoCycle<T>(edges: set<(T, T)>, rank: T -> int, p: seq<T>)
    requires RankIncreasing(edges, rank)
    requires IsPath(edges, p) && |p| >= 2
    ensures p[0] != p[|p| - 1]
  {
    RankGrowsAlongPath(edges, rank, p);
  }
}
