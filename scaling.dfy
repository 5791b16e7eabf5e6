/**
 * The cluster-scaling plan of the segmentation pipeline: which scaling tasks
 * each stage graph carries, for a given batch level, HIGH_MIP and top level,
 * and the cluster sizes they request.
 */
module Scaling {
  import opened Tasks

  /** The worker clusters: the short-task cluster, the long-task cluster, the igneous cluster. */
  datatype Cluster = Cluster1 | Cluster2 | IgneousCluster

  /** A scaling task: grow a cluster (min, max), shrink it to a size, or reset it. */
  datatype ScaleOp =
    | ScaleUp(cluster: Cluster, minSize: nat, maxSize: nat)
    | ScaleDown(cluster: Cluster, size: nat)
    | ResetCluster(cluster: Cluster, size: nat)

  /** Minimum scale of the short-task cluster when it is grown back. */
  const RestoreMin: nat := 20
  /** Minimum scale of the long-task cluster. */
  const LongPoolMin: nat := 2
  /** Number of watershed remap tasks from which the cluster is reset after watershed. */
  const ResetThreshold: nat := 100
  /** The size a reset restores. */
  const ResetSize: nat := 20

  function Min(a: int, b: int): (m: int)
    ensures m <= a && m <= b && (m == a || m == b)
  {
    if a < b then a else b
  }

  /** The short-task cluster is shrunk a first time, after level batch+1, when more than two levels separate batch from min(high, top). */
  predicate ExtraDownOn(batchMip: nat, highMip: nat, topMip: nat)
  {
    Min(highMip, topMip) - batchMip > 2
  }

  /** The deep levels get their own long-task cluster when the top reaches HIGH_MIP. */
  predicate LongPoolOn(highMip: nat, topMip: nat)
  {
    topMip >= highMip
  }

  /** The short-task cluster is grown back after the top level. */
  predicate RestoreOn(batchMip: nat, highMip: nat, topMip: nat)
  {
    Min(highMip, topMip) - batchMip >= 2 || topMip >= highMip
  }

  /**
   * The scaling roles of one stage graph (the reset after watershed aside).
   * Every shrink of the short-task cluster is undone by the final grow, and
   * the long-task cluster is grown and shrunk together with the shrink at
   * HIGH_MIP - 1.
   */
  function Plan(batchMip: nat, highMip: nat, topMip: nat): (roles: set<ScaleRole>)
    ensures ExtraDown in roles || Down in roles ==> Up in roles
    ensures Down in roles <==> UpLong in roles
    ensures UpLong in roles <==> DownLong in roles
    ensures ResetAfterWs !in roles
    ensures Down in roles <==> topMip >= highMip
    ensures ExtraDown in roles ==> topMip > batchMip + 2 && highMip > batchMip + 2
    ensures Up in roles && topMip < highMip ==> topMip >= batchMip + 2
  {
    (if ExtraDownOn(batchMip, highMip, topMip) then {ExtraDown} else {})
    + (if LongPoolOn(highMip, topMip) then {Down, UpLong, DownLong} else {})
    + (if RestoreOn(batchMip, highMip, topMip) then {Up} else {})
  }

  /** Size of the long-task cluster: an eighth of the chunks at HIGH_MIP, at least one. */
  function LongPoolSize(count: nat): (r: nat)
    ensures r >= 1
    ensures count >= 8 ==> 8 * r <= count < 8 * r + 8
    ensures count < 8 ==> r == 1
  {
    if count / 8 < 1 then 1 else count / 8
  }

  /** A gap of exactly two levels grows the cluster back without having shrunk it. */
  lemma GapOfTwo(batchMip: nat, highMip: nat, topMip: nat)
    requires topMip < highMip && topMip == batchMip + 2
    ensures Plan(batchMip, highMip, topMip) == {Up}
  {
    assert !ExtraDownOn(batchMip, highMip, topMip);
  }
}
