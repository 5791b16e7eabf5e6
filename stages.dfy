/**
 * The manager graph "segmentation": it triggers the watershed graph, waits
 * for it, triggers the agglomeration graph, waits for it, then downsamples
 * and meshes, checks the segmentation and publishes a neuroglancer link;
 * with a ground truth it also evaluates the result. Three of its tasks
 * rescale clusters.
 */
module Stages {
  import opened Chunks
  import opened Graphs
  import opened Scaling

  /** The tasks of the manager graph. */
  datatype ManagerTask =
    | Start                  // slack message "start"
    | ResetFlags             // reset_flags
    | Trigger(stage: Stage)  // trigger_ws / trigger_agg
    | Wait(stage: Stage)     // ws_done / agg_done
    | Igneous                // Downsample_and_Mesh
    | End                    // slack message "end"
    | GlobalStart            // scale the short-task cluster up for the run
    | GlobalFinish           // scale it down once agglomeration is done
    | IgneousFinish          // scale the igneous cluster down after meshing
    | CheckSeg               // Check_Segmentation
    | NgLink                 // Generate_neuroglancer_link
    | Evaluation             // Evaluate_Segmentation, only with GT_PATH

  type ManagerEdge = (ManagerTask, ManagerTask)

  /** The tasks the manager graph declares; the evaluation exists only with a ground truth. */
  function ManagerTasks(hasGt: bool): set<ManagerTask>
  {
    {Start, ResetFlags, Trigger(Ws), Wait(Ws), Trigger(Agg), Wait(Agg), Igneous, End,
     GlobalStart, GlobalFinish, IgneousFinish, CheckSeg, NgLink}
    + (if hasGt then {Evaluation} else {})
  }

  /** The main chain, from start to end. */
  function MainChain(): seq<ManagerTask>
  {
    [Start, ResetFlags, Trigger(Ws), Wait(Ws), Trigger(Agg), Wait(Agg), Igneous, End]
  }

  /** The tasks each task is declared upstream of (its ">>" right-hand sides). */
  function Downstream(hasGt: bool, t: ManagerTask): set<ManagerTask>
  {
    match t
    case Start => {ResetFlags}
    case ResetFlags => {Trigger(Ws), GlobalStart}
    case Trigger(s) => {Wait(s)}
    case Wait(s) => if s == Ws then {Trigger(Agg)} else {Igneous, GlobalFinish, CheckSeg}
    case Igneous => {End, IgneousFinish, NgLink} + (if hasGt then {Evaluation} else {})
    case CheckSeg => {NgLink}
    case NgLink => {End}
    case Evaluation => {End}
    case _ => {}
  }

  /** The dependencies the manager graph declares. */
  function ManagerEdges(hasGt: bool): set<ManagerEdge>
  {
    set a, b | a in ManagerTasks(hasGt) && b in Downstream(hasGt, a) :: (a, b)
  }

  /** A dependency is a declared task and one of its downstream tasks. */
  lemma EdgeMembers(hasGt: bool, a: ManagerTask, b: ManagerTask)
    ensures (a, b) in ManagerEdges(hasGt) <==> a in ManagerTasks(hasGt) && b in Downstream(hasGt, a)
  {
  }

  /** The link task broadcasts its message only when there is no evaluation to report. */
  function NgLinkBroadcast(hasGt: bool): bool
  {
    !hasGt
  }

  /**
   * The link broadcasts exactly when the manager graph has no evaluation
   * task, so exactly when nothing else reports to the end message.
   */
  lemma BroadcastWithoutEvaluation(hasGt: bool)
    ensures NgLinkBroadcast(hasGt) <==> Evaluation !in ManagerTasks(hasGt)
    ensures NgLinkBroadcast(hasGt) <==> (Evaluation, End) !in ManagerEdges(hasGt)
  {
    EdgeMembers(hasGt, Evaluation, End);
  }

  /** The cluster operations of the manager graph's scaling tasks; cluster1 is the number of watershed remap tasks. */
  function ManagerScaling(cluster1: nat): map<ManagerTask, ScaleOp>
  {
    map[GlobalStart := ScaleUp(Cluster1, RestoreMin, cluster1),
        GlobalFinish := ScaleDown(Cluster1, 0),
        IgneousFinish := ScaleDown(IgneousCluster, 0)]
  }

  /** Position of a task in a topological order of the manager graph. */
  function ManagerRank(t: ManagerTask): nat
  {
    match t
    case Start => 0
    case ResetFlags => 2
    case Trigger(s) => if s == Ws then 4 else 8
    case Wait(s) => if s == Ws then 6 else 10
    case Igneous => 12
    case End => 14
    case GlobalStart => 3
    case GlobalFinish => 11
    case CheckSeg => 11
    case IgneousFinish => 13
    case NgLink => 13
    case Evaluation => 13
  }

  /** Every dependency joins two declared tasks. */
  lemma ManagerEdgesDeclared(hasGt: bool, e: ManagerEdge)
    requires e in ManagerEdges(hasGt)
    ensures e.0 in ManagerTasks(hasGt) && e.1 in ManagerTasks(hasGt)
  {
  }

  /** The manager graph has no cycle. */
  lemma ManagerAcyclic(hasGt: bool, path: seq<ManagerTask>)
    requires IsPath(ManagerEdges(hasGt), path) && |path| >= 2
    ensures path[0] != path[|path| - 1]
  {
    var rank := t => ManagerRank(t) as int;
    forall e | e in ManagerEdges(hasGt)
      ensures rank(e.0) < rank(e.1)
    {
      EdgeMembers(hasGt, e.0, e.1);
    }
    NoCycle(ManagerEdges(hasGt), rank, path);
  }

  /** The main chain is a path: watershed runs and completes before agglomeration is triggered, and meshing follows agglomeration. */
  lemma StagesInOrder(hasGt: bool)
    ensures IsPath(ManagerEdges(hasGt), MainChain())
  {
  }

  /** Agglomeration is triggered only after the watershed graph is done, and nothing else gates it. */
  lemma AggWaitsForWs(hasGt: bool, x: ManagerTask)
    ensures (x, Trigger(Agg)) in ManagerEdges(hasGt) <==> x == Wait(Ws)
    ensures (x, Trigger(Ws)) in ManagerEdges(hasGt) <==> x == ResetFlags
  {
  }

  /** The end message waits for meshing and the link, and for the evaluation when there is a ground truth. */
  lemma EndWaitsFor(hasGt: bool, x: ManagerTask)
    ensures (x, End) in ManagerEdges(hasGt) <==> x == Igneous || x == NgLink || (hasGt && x == Evaluation)
  {
  }

  /** The tasks nothing waits for: the end message and the three cluster-scaling tasks. */
  lemma ManagerSinks(hasGt: bool, x: ManagerTask)
    requires x in ManagerTasks(hasGt)
    ensures (forall y :: (x, y) !in ManagerEdges(hasGt)) <==> x in {End, GlobalStart, GlobalFinish, IgneousFinish}
  {
    if x !in {End, GlobalStart, GlobalFinish, IgneousFinish} {
      match x
      case Start => assert (Start, ResetFlags) in ManagerEdges(hasGt);
      case ResetFlags => assert (ResetFlags, GlobalStart) in ManagerEdges(hasGt);
      case Trigger(s) =>
        assert s == Ws || s == Agg;
        assert (Trigger(s), Wait(s)) in ManagerEdges(hasGt);
      case Wait(s) =>
        if s == Ws {
          assert (Wait(Ws), Trigger(Agg)) in ManagerEdges(hasGt);
        } else {
          assert (Wait(Agg), CheckSeg) in ManagerEdges(hasGt);
        }
      case Igneous => assert (Igneous, End) in ManagerEdges(hasGt);
      case CheckSeg => assert (CheckSeg, NgLink) in ManagerEdges(hasGt);
      case NgLink => assert (NgLink, End) in ManagerEdges(hasGt);
      case Evaluation => assert (Evaluation, End) in ManagerEdges(hasGt);
    }
  }

  /** The next task on the way to the end message. */
  function TowardEnd(t: ManagerTask): ManagerTask
  {
    match t
    case Start => ResetFlags
    case ResetFlags => Trigger(Ws)
    case Trigger(s) => Wait(s)
    case Wait(s) => if s == Ws then Trigger(Agg) else Igneous
    case CheckSeg => NgLink
    case _ => End
  }

  /**
   * The cluster-scaling tasks of the manager graph are exactly its sinks
   * other than the end message: nothing waits for a rescale. The run-wide
   * grow asks for between 20 and cluster1 workers of the short-task
   * cluster, and the two shrinks empty the short-task and igneous clusters.
   */
  lemma ScalingTasksAreSinks(hasGt: bool, cluster1: nat, x: ManagerTask)
    requires x in ManagerTasks(hasGt)
    ensures x in ManagerScaling(cluster1) <==> x != End && forall y :: (x, y) !in ManagerEdges(hasGt)
    ensures x in ManagerScaling(cluster1) && ManagerScaling(cluster1)[x].ScaleUp? ==>
      x == GlobalStart && ManagerScaling(cluster1)[x] == ScaleUp(Cluster1, RestoreMin, cluster1)
    ensures x in ManagerScaling(cluster1) && ManagerScaling(cluster1)[x].ScaleDown? ==> ManagerScaling(cluster1)[x].size == 0
  {
    ManagerSinks(hasGt, x);
  }

  /** Every task that is not a sink reaches the end message along the graph. */
  lemma {:induction false} ReachesEnd(hasGt: bool, x: ManagerTask)
    requires x in ManagerTasks(hasGt) && x !in {End, GlobalStart, GlobalFinish, IgneousFinish}
    ensures exists path :: IsPath(ManagerEdges(hasGt), path) && |path| >= 2 && path[0] == x && path[|path| - 1] == End
    decreases 14 - ManagerRank(x)
  {
    var y := TowardEnd(x);
    EdgeMembers(hasGt, x, y);
    assert (x, y) in ManagerEdges(hasGt);
    if y == End {
      assert IsPath(ManagerEdges(hasGt), [x, End]);
    } else {
      ReachesEnd(hasGt, y);
      var rest :| IsPath(ManagerEdges(hasGt), rest) && |rest| >= 2 && rest[0] == y && rest[|rest| - 1] == End;
      var path := [x] + rest;
      assert IsPath(ManagerEdges(hasGt), path) by {
        forall j | 1 <= j < |path|
          ensures (path[j - 1], path[j]) in ManagerEdges(hasGt)
        {
          if j > 1 {
            assert path[j - 1] == rest[j - 2] && path[j] == rest[j - 1];
          }
        }
      }
      assert path[|path| - 1] == rest[|rest| - 1];
    }
  }
}
