/**
 * The two-stage chunk-graph builder of the segmentation pipeline: for every
 * chunk of the octree, from the top level down to the batch level, it
 * declares the watershed ("ws") and agglomeration ("agg") tasks, the queue
 * each runs on, and their dependencies.
 *
 * The pure functions (Process, After) say what the graph is after each
 * chunk; the class SegmentationDags builds it in place, as the source does
 * with its shared dictionaries, and its methods are proved to follow them.
 * The lemmas at the end state the properties of the built graph.
 */
module Segmentation {
  import opened Chunks
  import opened Tasks
  import opened Graphs
  import Scaling

  /** The settings the builder reads: BATCH_MIP, HIGH_MIP and OVERLAP. */
  datatype Config = Config(batchMip: nat, highMip: nat, overlap: bool)

  /** BATCH_MIP and HIGH_MIP when the parameters do not set them. */
  const DefaultBatchMip: nat := 3
  const DefaultHighMip: nat := 5

  /** The level where chunks switch from wrap tasks to batch tasks: BATCH_MIP clamped to the top. */
  function BatchLevel(cfg: Config, topMip: nat): (l: nat)
    ensures l <= topMip && l <= cfg.batchMip
    ensures l == topMip || l == cfg.batchMip
  {
    if topMip < cfg.batchMip then topMip else cfg.batchMip
  }

  /** OVERLAP as the builder sees it: the driver forces it off when the top is the batch level. */
  predicate OverlapOn(cfg: Config, topMip: nat)
  {
    cfg.overlap && topMip != cfg.batchMip
  }

  /** Queue of a wrap task: the shared "atomic" queue below HIGH_MIP, "composite_<level>" from it up. */
  function WrapQueue(cfg: Config, level: nat): Queue
  {
    if level < cfg.highMip then Atomic else PerLevel(level)
  }

  /** The generate operator of a handled chunk: wrap above the batch level, batch at it. */
  function GenerateOp(cfg: Config, topMip: nat, c: Chunk): Op
  {
    if c.level > BatchLevel(cfg, topMip) then Op(Wrap, WrapQueue(cfg, c.level)) else Op(Batch, Atomic)
  }

  /** The agglomeration chunk whose reduction edge starts at its overlap task (tested against BATCH_MIP). */
  predicate OverlapAt(cfg: Config, topMip: nat, s: Stage, c: Chunk)
  {
    s == Agg && OverlapOn(cfg, topMip) && c.level == cfg.batchMip
  }

  /** Where the reduction edge of chunk c in stage s starts. */
  function ReductionSource(cfg: Config, topMip: nat, s: Stage, c: Chunk): Task
  {
    if OverlapAt(cfg, topMip, s, c) then Overlap(c) else Generate(s, c)
  }

  /**
   * The builder's state: generate_chunks, overlap_chunks, remap_chunks, the
   * milestone tasks of slack_ops, the dependencies, and scaling_ops.
   */
  datatype Graph = Graph(
    generate: map<(Stage, Chunk), Op>,
    overlap: map<Chunk, Op>,
    remap: map<(Stage, Chunk), Op>,
    milestones: set<Task>,
    edges: set<Edge>,
    scaling: map<(Stage, ScaleRole), Scaling.ScaleOp>)

  /** The state before the first chunk: only the overlap milestone, when overlap is on. */
  function Initial(cfg: Config, topMip: nat): Graph
  {
    Graph(map[], map[], map[], if OverlapOn(cfg, topMip) then {OverlapDone} else {}, {}, map[])
  }

  /** Task t exists in the stage graphs (the init and mark-done tasks always do). */
  predicate Declared(g: Graph, t: Task)
  {
    match t
    case Generate(s, c) => (s, c) in g.generate
    case Overlap(c) => c in g.overlap
    case Remap(s, c) => (s, c) in g.remap
    case Init(_) => true
    case MarkDone(_) => true
    case Scale(s, r) => (s, r) in g.scaling
    case Finish => false
    case _ => t in g.milestones
  }

  /**
   * The milestones the driver loop creates when it opens a level, in both
   * stages: "MIP <level> finished", and at the batch level "Remaping
   * finished". The loop creates them the first time it meets the level;
   * meeting it again adds nothing, which set union states directly.
   */
  function LevelMilestones(level: nat, lbm: nat): set<Task>
  {
    {LevelDone(Ws, level), LevelDone(Agg, level)} + (if level == lbm then {RemapDone(Ws), RemapDone(Agg)} else {})
  }

  /** At the batch level, the remap milestone of each stage precedes its mark-done task. */
  function MarkEdges(level: nat, lbm: nat): set<Edge>
  {
    if level == lbm then {(RemapDone(Ws), MarkDone(Ws)), (RemapDone(Agg), MarkDone(Agg))} else {}
  }

  /** The driver loop opening the level of chunk c in both stages. */
  function OpenLevel(cfg: Config, topMip: nat, g: Graph, c: Chunk): Graph
  {
    var lbm := BatchLevel(cfg, topMip);
    g.(milestones := g.milestones + LevelMilestones(c.level, lbm), edges := g.edges + MarkEdges(c.level, lbm))
  }

  /**
   * Overlap wiring of chunk c against its neighbours ns: every neighbour
   * already built at c's level feeds c's overlap task, and c feeds the
   * overlap task of every such neighbour other than itself.
   */
  function NeighbourEdges(ns: seq<Chunk>, generate: map<(Stage, Chunk), Op>, c: Chunk): set<Edge>
  {
    (set n | n in ns && n.level == c.level && (Agg, n) in generate :: (Generate(Agg, n), Overlap(c)))
    + (set n | n in ns && n.level == c.level && (Agg, n) in generate && n != c :: (Generate(Agg, c), Overlap(n)))
  }

  /** The edges of a batch-level chunk's tasks in stage s: remap gated by the top, init before the batch task. */
  function BatchEdges(s: Stage, c: Chunk, topMip: nat): set<Edge>
  {
    {(Remap(s, c), RemapDone(s)), (Generate(s, Top(topMip)), Remap(s, c)), (Init(s), Generate(s, c))}
  }

  /** The edges of a batch-level chunk's overlap task. */
  function OverlapEdges(it: ChunkIterator, generate: map<(Stage, Chunk), Op>, c: Chunk): set<Edge>
  {
    NeighbourEdges(it.neighbours(c), generate, c) + {(Overlap(c), OverlapDone)}
  }

  /** The edges declared for chunk c in stage s, apart from the reduction edge. */
  function NodeEdges(cfg: Config, it: ChunkIterator, generate: map<(Stage, Chunk), Op>, s: Stage, c: Chunk): set<Edge>
  {
    var T := it.topMip;
    var lbm := BatchLevel(cfg, T);
    {(Generate(s, c), LevelDone(s, c.level))}
    + (if c.level == lbm then BatchEdges(s, c, T) else {})
    + (if c.level == lbm && s == Agg && OverlapOn(cfg, T) then OverlapEdges(it, generate, c) else {})
  }

  /** The reduction edge of chunk c in stage s: to its parent, unless c is the top. */
  function ReductionEdges(cfg: Config, topMip: nat, s: Stage, c: Chunk): set<Edge>
  {
    if c.level < topMip then {(ReductionSource(cfg, topMip, s, c), Generate(s, Parent(c)))} else {}
  }

  /** All edges process_composite_tasks declares for chunk c, given the generate tasks once c's are in. */
  function ChunkEdges(cfg: Config, it: ChunkIterator, generate: map<(Stage, Chunk), Op>, c: Chunk): set<Edge>
  {
    NodeEdges(cfg, it, generate, Ws, c) + NodeEdges(cfg, it, generate, Agg, c)
    + ReductionEdges(cfg, it.topMip, Ws, c) + ReductionEdges(cfg, it.topMip, Agg, c)
  }

  /** process_composite_tasks on chunk c: nothing below the batch level. */
  function Process(cfg: Config, it: ChunkIterator, g: Graph, c: Chunk): Graph
  {
    var T := it.topMip;
    var lbm := BatchLevel(cfg, T);
    if c.level < lbm then g
    else
      var op := GenerateOp(cfg, T, c);
      var generate := g.generate[(Ws, c) := op][(Agg, c) := op];
      g.(generate := generate,
         overlap := if c.level == lbm && OverlapOn(cfg, T) then g.overlap[c := Op(OverlapKind, Atomic)] else g.overlap,
         remap := if c.level == lbm then g.remap[(Ws, c) := Op(RemapKind, Atomic)][(Agg, c) := Op(RemapKind, Atomic)] else g.remap,
         edges := g.edges + ChunkEdges(cfg, it, generate, c))
  }

  /** One turn of the driver loop over a chunk at or above the batch level. */
  function Step(cfg: Config, it: ChunkIterator, g: Graph, c: Chunk): Graph
  {
    Process(cfg, it, OpenLevel(cfg, it.topMip, g, c), c)
  }

  /** The state after the driver loop has handled the chunks of p in order. */
  function After(cfg: Config, it: ChunkIterator, p: seq<Chunk>): Graph
  {
    if p == [] then Initial(cfg, it.topMip)
    else Step(cfg, it, After(cfg, it, p[..|p| - 1]), p[|p| - 1])
  }

  /** What one stage needs to exist before chunk c's tasks are wired (lookups that would raise otherwise). */
  ghost predicate StageReady(cfg: Config, it: ChunkIterator, g: Graph, s: Stage, c: Chunk)
  {
    var T := it.topMip;
    var lbm := BatchLevel(cfg, T);
    && LevelDone(s, c.level) in g.milestones
    && (c.level == lbm ==> RemapDone(s) in g.milestones && (c == Top(T) || (s, Top(T)) in g.generate))
    && (c.level == lbm && s == Agg && OverlapOn(cfg, T) ==>
          && OverlapDone in g.milestones
          && forall n :: (Agg, n) in g.generate && n.level == c.level ==> n in g.overlap)
  }

  /** What must exist before process_composite_tasks(c): milestones, the top task, the parent tasks. */
  ghost predicate ChunkReady(cfg: Config, it: ChunkIterator, g: Graph, c: Chunk)
  {
    c.level >= BatchLevel(cfg, it.topMip) ==>
      && StageReady(cfg, it, g, Ws, c)
      && StageReady(cfg, it, g, Agg, c)
      && (c.level < it.topMip ==> (Ws, Parent(c)) in g.generate && (Agg, Parent(c)) in g.generate)
  }

  // ---------------------------------------------------------------------
  // The cluster-scaling overlay, added once the driver loop is done
  // ---------------------------------------------------------------------

  /** len(generate_chunks[stage][level]): the stage's generate tasks at a level. */
  function CountAt(g: Graph, s: Stage, level: int): nat
  {
    |set k | k in g.generate && k.0 == s && k.1.level == level|
  }

  /** cluster1_size = len(remap_chunks["ws"]): the watershed remap tasks. */
  function WsRemapCount(g: Graph): nat
  {
    |set k | k in g.remap && k.0 == Ws|
  }

  /** The per-level dictionaries of both stages exist: the loop creates them with the level's milestones. */
  predicate HasLevel(milestones: set<Task>, level: int)
  {
    level >= 0 && LevelDone(Ws, level) in milestones && LevelDone(Agg, level) in milestones
  }

  /** The reset block's lookup of the watershed remap milestone hits (count is cluster1_size). */
  predicate ResetLookupHits(count: nat, milestones: set<Task>)
  {
    count >= Scaling.ResetThreshold ==> RemapDone(Ws) in milestones
  }

  /** The extra-shrink block's lookups of levels BATCH_MIP + 2 and BATCH_MIP + 1 hit. */
  predicate ExtraDownLookupsHit(cfg: Config, topMip: nat, milestones: set<Task>)
  {
    Scaling.ExtraDownOn(cfg.batchMip, cfg.highMip, topMip) ==>
      HasLevel(milestones, cfg.batchMip + 2) && HasLevel(milestones, cfg.batchMip + 1)
  }

  /** The long-pool block's lookups of levels HIGH_MIP - 1, HIGH_MIP and the top hit. */
  predicate LongPoolLookupsHit(cfg: Config, topMip: nat, milestones: set<Task>)
  {
    Scaling.LongPoolOn(cfg.highMip, topMip) ==>
      HasLevel(milestones, cfg.highMip - 1) && HasLevel(milestones, cfg.highMip) && HasLevel(milestones, topMip)
  }

  /** The final-grow block's lookup of the top level hits. */
  predicate RestoreLookupsHit(cfg: Config, topMip: nat, milestones: set<Task>)
  {
    Scaling.RestoreOn(cfg.batchMip, cfg.highMip, topMip) ==> HasLevel(milestones, topMip)
  }

  /** Every dictionary lookup of the overlay hits; otherwise the source raises KeyError. */
  predicate ScalingLookupsHit(cfg: Config, topMip: nat, g: Graph)
  {
    && ResetLookupHits(WsRemapCount(g), g.milestones)
    && ExtraDownLookupsHit(cfg, topMip, g.milestones)
    && LongPoolLookupsHit(cfg, topMip, g.milestones)
    && RestoreLookupsHit(cfg, topMip, g.milestones)
  }

  /** The cluster and size each scaling task asks for. */
  function ScaleOpOf(cfg: Config, g: Graph, s: Stage, r: ScaleRole): Scaling.ScaleOp
  {
    match r
    case ResetAfterWs => Scaling.ResetCluster(Scaling.Cluster1, Scaling.ResetSize)
    case ExtraDown => Scaling.ScaleDown(Scaling.Cluster1, 2 * CountAt(g, s, cfg.batchMip + 2))
    case Down => Scaling.ScaleDown(Scaling.Cluster1, 0)
    case UpLong => Scaling.ScaleUp(Scaling.Cluster2, Scaling.LongPoolMin, Scaling.LongPoolSize(CountAt(g, s, cfg.highMip)))
    case DownLong => Scaling.ScaleDown(Scaling.Cluster2, 0)
    case Up => Scaling.ScaleUp(Scaling.Cluster1, Scaling.RestoreMin, WsRemapCount(g))
  }

  /** The generate keys of stage s at a level: the dictionary generate_chunks[stage][level]. */
  function LevelKeys(generate: map<(Stage, Chunk), Op>, s: Stage, level: int): set<(Stage, Chunk)>
  {
    set k | k in generate && k.0 == s && k.1.level == level
  }

  /** up_long of stage s waits for the generate tasks keys. */
  function UpLongFrom(keys: set<(Stage, Chunk)>, s: Stage): set<Edge>
  {
    set k | k in keys :: (Generate(s, k.1), Scale(s, UpLong))
  }

  /** The long-task cluster of a stage grows once every generate task at HIGH_MIP - 1 is done. */
  function UpLongEdges(g: Graph, s: Stage, level: int): set<Edge>
  {
    UpLongFrom(LevelKeys(g.generate, s, level), s)
  }

  /** The tasks scaling task (s, r) waits for. */
  function Gates(cfg: Config, topMip: nat, g: Graph, s: Stage, r: ScaleRole): set<Edge>
    requires r == Down ==> cfg.highMip >= 1
  {
    match r
    case ResetAfterWs => {(RemapDone(s), Scale(s, ResetAfterWs))}
    case ExtraDown => {(LevelDone(s, cfg.batchMip + 1), Scale(s, ExtraDown))}
    case Down => {(LevelDone(s, cfg.highMip - 1), Scale(s, Down))}
    case UpLong => UpLongEdges(g, s, cfg.highMip - 1)
    case DownLong => {(LevelDone(s, topMip), Scale(s, DownLong))}
    case Up => {(LevelDone(s, topMip), Scale(s, Up))}
  }

  /** Scaling task k needs HIGH_MIP >= 1 when it is the shrink at HIGH_MIP - 1. */
  predicate GateDefined(cfg: Config, k: (Stage, ScaleRole))
  {
    k.1 == Down ==> cfg.highMip >= 1
  }

  /** One scaling task: created with its size, then wired after its gates. */
  function ScaleStep(cfg: Config, topMip: nat, g: Graph, k: (Stage, ScaleRole)): Graph
    requires GateDefined(cfg, k)
  {
    g.(scaling := g.scaling[k := ScaleOpOf(cfg, g, k.0, k.1)], edges := g.edges + Gates(cfg, topMip, g, k.0, k.1))
  }

  /** The scaling tasks ks added one after the other. */
  function ApplyScaling(cfg: Config, topMip: nat, g: Graph, ks: seq<(Stage, ScaleRole)>): Graph
    requires forall i :: 0 <= i < |ks| ==> GateDefined(cfg, ks[i])
  {
    if ks == [] then g
    else ScaleStep(cfg, topMip, ApplyScaling(cfg, topMip, g, ks[..|ks| - 1]), ks[|ks| - 1])
  }

  /** The reset block: the reset after watershed, when there are 100 watershed remap tasks or more. */
  function ResetPart(g: Graph): seq<(Stage, ScaleRole)>
  {
    if WsRemapCount(g) >= Scaling.ResetThreshold then [(Ws, ResetAfterWs)] else []
  }

  /** The extra-shrink block, in both stages. */
  function ExtraDownPart(b: nat, h: nat, topMip: nat): seq<(Stage, ScaleRole)>
  {
    if Scaling.ExtraDownOn(b, h, topMip) then [(Ws, ExtraDown), (Agg, ExtraDown)] else []
  }

  /** The long-pool tasks of one stage, in source order. */
  function StageLongPool(s: Stage): seq<(Stage, ScaleRole)>
  {
    [(s, Down), (s, UpLong), (s, DownLong)]
  }

  /** The long-pool block: the watershed tasks, then the agglomeration ones. */
  function LongPoolPart(h: nat, topMip: nat): seq<(Stage, ScaleRole)>
  {
    if Scaling.LongPoolOn(h, topMip) then StageLongPool(Ws) + StageLongPool(Agg) else []
  }

  /** The final-grow block, in both stages. */
  function RestorePart(b: nat, h: nat, topMip: nat): seq<(Stage, ScaleRole)>
  {
    if Scaling.RestoreOn(b, h, topMip) then [(Ws, Up), (Agg, Up)] else []
  }

  /** The scaling tasks of the overlay in the order the source declares them. */
  function ScaleOrder(cfg: Config, topMip: nat, g: Graph): seq<(Stage, ScaleRole)>
  {
    var b, h := cfg.batchMip, cfg.highMip;
    ResetPart(g) + ExtraDownPart(b, h, topMip) + LongPoolPart(h, topMip) + RestorePart(b, h, topMip)
  }

  /** The graph once the overlay is added (when its lookups hit). */
  function WithScaling(cfg: Config, topMip: nat, g: Graph): Graph
    requires ScalingLookupsHit(cfg, topMip, g)
  {
    ApplyScaling(cfg, topMip, g, ScaleOrder(cfg, topMip, g))
  }

  /** Adding one more scaling task. */
  lemma ApplySnoc(cfg: Config, topMip: nat, g: Graph, ks: seq<(Stage, ScaleRole)>, k: (Stage, ScaleRole))
    requires forall i :: 0 <= i < |ks| ==> GateDefined(cfg, ks[i])
    requires GateDefined(cfg, k)
    ensures forall i :: 0 <= i < |ks + [k]| ==> GateDefined(cfg, (ks + [k])[i])
    ensures ApplyScaling(cfg, topMip, g, ks + [k]) == ScaleStep(cfg, topMip, ApplyScaling(cfg, topMip, g, ks), k)
  {
    assert (ks + [k])[..|ks|] == ks;
  }

  /** The graph builder, holding the dictionaries the source fills in place. */
  class SegmentationDags {
    const cfg: Config
    const it: ChunkIterator
    var generate: map<(Stage, Chunk), Op>
    var overlap: map<Chunk, Op>
    var remap: map<(Stage, Chunk), Op>
    var milestones: set<Task>
    var edges: set<Edge>
    var scaling: map<(Stage, ScaleRole), Scaling.ScaleOp>

    function Snapshot(): Graph
      reads this
    {
      Graph(generate, overlap, remap, milestones, edges, scaling)
    }

    /** Empty dictionaries, and the overlap milestone when overlap is on. */
    constructor (cfg: Config, it: ChunkIterator)
      ensures this.cfg == cfg && this.it == it
      ensures Snapshot() == Initial(cfg, it.topMip)
    {
      this.cfg := cfg;
      this.it := it;
      generate, overlap, remap, edges, scaling := map[], map[], map[], {}, map[];
      milestones := if OverlapOn(cfg, it.topMip) then {OverlapDone} else {};
    }

    /** a.set_downstream(b): both tasks must already exist. */
    method Link(a: Task, b: Task)
      requires Declared(Snapshot(), a) && Declared(Snapshot(), b)
      modifies this`edges
      ensures edges == old(edges) + {(a, b)}
    {
      edges := edges + {(a, b)};
    }

    /** The driver loop's milestone creation for one stage: only the first time the level is met. */
    method OpenStage(s: Stage, level: nat)
      modifies this`milestones, this`edges
      ensures LevelDone(s, level) in old(milestones) ==> milestones == old(milestones) && edges == old(edges)
      ensures LevelDone(s, level) !in old(milestones) ==>
        && milestones == old(milestones) + {LevelDone(s, level)}
                         + (if level == BatchLevel(cfg, it.topMip) then {RemapDone(s)} else {})
        && edges == old(edges) + (if level == BatchLevel(cfg, it.topMip) then {(RemapDone(s), MarkDone(s))} else {})
    {
      if LevelDone(s, level) !in milestones {
        milestones := milestones + {LevelDone(s, level)};
        if level == BatchLevel(cfg, it.topMip) {
          milestones := milestones + {RemapDone(s)};
          Link(RemapDone(s), MarkDone(s));
        }
      }
    }

    /** The loop over c.neighbours() that wires c's overlap task. */
    method LinkNeighbours(c: Chunk)
      requires c in overlap && (Agg, c) in generate
      requires forall n :: (Agg, n) in generate && n.level == c.level ==> n in overlap
      modifies this`edges
      ensures edges == old(edges) + NeighbourEdges(it.neighbours(c), generate, c)
    {
      var ns := it.neighbours(c);
      for k := 0 to |ns|
        invariant edges == old(edges) + NeighbourEdges(ns[..k], generate, c)
      {
        var n := ns[k];
        if n.level == c.level && (Agg, n) in generate {
          Link(Generate(Agg, n), Overlap(c));
          if n != c {
            Link(Generate(Agg, c), Overlap(n));
          }
        }
        NeighbourEdgesSnoc(ns[..k], n, generate, c);
        assert ns[..k + 1] == ns[..k] + [n];
      }
      assert ns[..|ns|] == ns;
    }

    /** The wrap branch of the per-stage loop of process_composite_tasks. */
    method AddWrap(s: Stage, c: Chunk)
      requires c.level > BatchLevel(cfg, it.topMip)
      requires LevelDone(s, c.level) in milestones
      modifies this`generate, this`edges
      ensures generate == old(generate)[(s, c) := GenerateOp(cfg, it.topMip, c)]
      ensures edges == old(edges) + NodeEdges(cfg, it, generate, s, c)
    {
      generate := generate[(s, c) := Op(Wrap, WrapQueue(cfg, c.level))];
      Link(Generate(s, c), LevelDone(s, c.level));
    }

    /** The overlap task of a batch-level chunk and its wiring. */
    method AddOverlap(c: Chunk)
      requires (Agg, c) in generate && OverlapDone in milestones
      requires forall n :: (Agg, n) in generate && n.level == c.level && n != c ==> n in overlap
      modifies this`overlap, this`edges
      ensures overlap == old(overlap)[c := Op(OverlapKind, Atomic)]
      ensures edges == old(edges) + OverlapEdges(it, generate, c)
    {
      overlap := overlap[c := Op(OverlapKind, Atomic)];
      LinkNeighbours(c);
      Link(Overlap(c), OverlapDone);
    }

    /** The batch branch of the per-stage loop of process_composite_tasks. */
    method AddBatch(s: Stage, c: Chunk)
      requires c.level == BatchLevel(cfg, it.topMip)
      requires StageReady(cfg, it, Snapshot(), s, c)
      modifies this`generate, this`overlap, this`remap, this`edges
      ensures generate == old(generate)[(s, c) := GenerateOp(cfg, it.topMip, c)]
      ensures overlap == if s == Agg && OverlapOn(cfg, it.topMip) then old(overlap)[c := Op(OverlapKind, Atomic)] else old(overlap)
      ensures remap == old(remap)[(s, c) := Op(RemapKind, Atomic)]
      ensures edges == old(edges) + NodeEdges(cfg, it, generate, s, c)
    {
      var T := it.topMip;
      generate := generate[(s, c) := Op(Batch, Atomic)];
      ghost var before := edges;
      if OverlapOn(cfg, T) && s == Agg {
        AddOverlap(c);
      }
      ghost var withOverlap := edges;
      AddRemap(s, c);
      assert edges == before + (withOverlap - before) + ({(Generate(s, c), LevelDone(s, c.level))} + BatchEdges(s, c, T));
    }

    /** The level, remap and init wiring of a batch-level chunk's tasks in stage s. */
    method AddRemap(s: Stage, c: Chunk)
      requires (s, c) in generate && LevelDone(s, c.level) in milestones && RemapDone(s) in milestones
      requires (s, Top(it.topMip)) in generate || c == Top(it.topMip)
      modifies this`remap, this`edges
      ensures remap == old(remap)[(s, c) := Op(RemapKind, Atomic)]
      ensures edges == old(edges) + {(Generate(s, c), LevelDone(s, c.level))} + BatchEdges(s, c, it.topMip)
    {
      var T := it.topMip;
      Link(Generate(s, c), LevelDone(s, c.level));
      remap := remap[(s, c) := Op(RemapKind, Atomic)];
      Link(Remap(s, c), RemapDone(s));
      Link(Generate(s, Top(T)), Remap(s, c));
      Link(Init(s), Generate(s, c));
    }

    /** The reduction edges of chunk c, to its parent, in both stages. */
    method LinkToParent(c: Chunk)
      requires c.level >= BatchLevel(cfg, it.topMip)
      requires c.level < it.topMip ==> (Ws, Parent(c)) in generate && (Agg, Parent(c)) in generate
      requires (Ws, c) in generate && (Agg, c) in generate
      requires c.level < it.topMip && OverlapAt(cfg, it.topMip, Agg, c) ==> c in overlap
      modifies this`edges
      ensures edges == old(edges) + ReductionEdges(cfg, it.topMip, Ws, c) + ReductionEdges(cfg, it.topMip, Agg, c)
    {
      var T := it.topMip;
      if c.level < T {
        Link(Generate(Ws, c), Generate(Ws, Parent(c)));
        if OverlapOn(cfg, T) && c.level == cfg.batchMip {
          Link(Overlap(c), Generate(Agg, Parent(c)));
        } else {
          Link(Generate(Agg, c), Generate(Agg, Parent(c)));
        }
      }
    }

    /** process_composite_tasks(c). */
    method ProcessCompositeTasks(c: Chunk)
      requires ChunkReady(cfg, it, Snapshot(), c)
      modifies this`generate, this`overlap, this`remap, this`edges
      ensures Snapshot() == Process(cfg, it, old(Snapshot()), c)
    {
      var lbm := BatchLevel(cfg, it.topMip);
      if c.level < lbm {
        return;
      }
      if c.level > lbm {
        ProcessAboveBatch(c);
      } else {
        ProcessAtBatch(c);
      }
      ghost var nodes := edges;
      LinkToParent(c);
      ChunkEdgesSplit(cfg, it, generate, c, old(edges), nodes, edges);
    }

    /** The per-stage loop of process_composite_tasks for a chunk above the batch level: wrap tasks. */
    method ProcessAboveBatch(c: Chunk)
      requires c.level > BatchLevel(cfg, it.topMip)
      requires LevelDone(Ws, c.level) in milestones && LevelDone(Agg, c.level) in milestones
      modifies this`generate, this`edges
      ensures generate == old(generate)[(Ws, c) := GenerateOp(cfg, it.topMip, c)][(Agg, c) := GenerateOp(cfg, it.topMip, c)]
      ensures edges == old(edges) + NodeEdges(cfg, it, generate, Ws, c) + NodeEdges(cfg, it, generate, Agg, c)
    {
      AddWrap(Ws, c);
      AddWrap(Agg, c);
    }

    /** The per-stage loop of process_composite_tasks for a chunk at the batch level. */
    method ProcessAtBatch(c: Chunk)
      requires c.level == BatchLevel(cfg, it.topMip)
      requires StageReady(cfg, it, Snapshot(), Ws, c) && StageReady(cfg, it, Snapshot(), Agg, c)
      modifies this`generate, this`overlap, this`remap, this`edges
      ensures generate == old(generate)[(Ws, c) := GenerateOp(cfg, it.topMip, c)][(Agg, c) := GenerateOp(cfg, it.topMip, c)]
      ensures overlap == if OverlapOn(cfg, it.topMip) then old(overlap)[c := Op(OverlapKind, Atomic)] else old(overlap)
      ensures remap == old(remap)[(Ws, c) := Op(RemapKind, Atomic)][(Agg, c) := Op(RemapKind, Atomic)]
      ensures edges == old(edges) + NodeEdges(cfg, it, generate, Ws, c) + NodeEdges(cfg, it, generate, Agg, c)
    {
      ghost var gen1 := generate[(Ws, c) := GenerateOp(cfg, it.topMip, c)];
      AddBatch(Ws, c);
      AddBatch(Agg, c);
      assert NodeEdges(cfg, it, gen1, Ws, c) == NodeEdges(cfg, it, generate, Ws, c);
    }

    /**
     * The loop over both stages that opens c's level: its milestones, created
     * the first time the level is met.
     */
    method OpenLevels(c: Chunk)
      requires LevelDone(Agg, c.level) in milestones <==> LevelDone(Ws, c.level) in milestones
      requires LevelDone(Ws, c.level) in milestones ==>
                 && LevelMilestones(c.level, BatchLevel(cfg, it.topMip)) <= milestones
                 && MarkEdges(c.level, BatchLevel(cfg, it.topMip)) <= edges
      modifies this`milestones, this`edges
      ensures milestones == old(milestones) + LevelMilestones(c.level, BatchLevel(cfg, it.topMip))
      ensures edges == old(edges) + MarkEdges(c.level, BatchLevel(cfg, it.topMip))
    {
      var lbm := BatchLevel(cfg, it.topMip);
      var l := c.level;
      OpenStage(Ws, l);
      OpenStage(Agg, l);
    }

    /** One turn of the driver loop: open c's level in both stages, then process_composite_tasks(c). */
    method HandleChunk(ghost p: seq<Chunk>, c: Chunk)
      requires Admissible(cfg, it, p + [c])
      requires Snapshot() == After(cfg, it, p)
      modifies this`generate, this`overlap, this`remap, this`milestones, this`edges
      ensures Snapshot() == After(cfg, it, p + [c])
    {
      AdmissibleSnoc(cfg, it, p, c);
      ReadyToProcess(cfg, it, p, c);
      ReopenLevel(cfg, it, p, c.level);
      OpenLevels(c);
      ProcessCompositeTasks(c);
    }

    /** The driver loop: walk the iterator top-down, stop at the first chunk below the batch level. */
    method BuildChunkGraph()
      requires it.Valid()
      requires Snapshot() == Initial(cfg, it.topMip)
      modifies this`generate, this`overlap, this`remap, this`milestones, this`edges
      ensures Snapshot() == After(cfg, it, Processed(it.chunks, BatchLevel(cfg, it.topMip)))
    {
      var cs := it.chunks;
      var lbm := BatchLevel(cfg, it.topMip);
      var i := 0;
      while i < |cs|
        invariant 0 <= i <= |cs|
        invariant forall j :: 0 <= j < i ==> cs[j].level >= lbm
        invariant Snapshot() == After(cfg, it, cs[..i])
      {
        var c := cs[i];
        if c.level < lbm {
          break;
        }
        LoopAdmissible(cfg, it, i);
        HandleChunk(cs[..i], c);
        i := i + 1;
      }
      ProcessedIsLoopPrefix(cs, lbm, i);
    }

    /** The reset of the short-task cluster after watershed, after the watershed remap milestone. */
    method ScaleReset()
      requires RemapDone(Ws) in milestones
      modifies this`scaling, this`edges
      ensures Snapshot() == ScaleStep(cfg, it.topMip, old(Snapshot()), (Ws, ResetAfterWs))
    {
      scaling := scaling[(Ws, ResetAfterWs) := Scaling.ResetCluster(Scaling.Cluster1, 20)];
      Link(RemapDone(Ws), Scale(Ws, ResetAfterWs));
    }

    /** The extra shrink of the short-task cluster in stage s, after level BATCH_MIP + 1. */
    method ScaleExtraDown(s: Stage)
      requires LevelDone(s, cfg.batchMip + 1) in milestones
      modifies this`scaling, this`edges
      ensures Snapshot() == ScaleStep(cfg, it.topMip, old(Snapshot()), (s, ExtraDown))
    {
      var dsize := |set k | k in generate && k.0 == s && k.1.level == cfg.batchMip + 2| * 2;
      scaling := scaling[(s, ExtraDown) := Scaling.ScaleDown(Scaling.Cluster1, dsize)];
      Link(LevelDone(s, cfg.batchMip + 1), Scale(s, ExtraDown));
    }

    /** The shrink of the short-task cluster at HIGH_MIP - 1 in stage s. */
    method ScaleDownAtHigh(s: Stage)
      requires cfg.highMip >= 1 && LevelDone(s, cfg.highMip - 1) in milestones
      modifies this`scaling, this`edges
      ensures Snapshot() == ScaleStep(cfg, it.topMip, old(Snapshot()), (s, Down))
    {
      scaling := scaling[(s, Down) := Scaling.ScaleDown(Scaling.Cluster1, 0)];
      Link(LevelDone(s, cfg.highMip - 1), Scale(s, Down));
    }

    /** up_long.set_upstream(t) for every generate task t of stage s at the given level. */
    method LinkUpLong(s: Stage, level: int)
      requires (s, UpLong) in scaling
      modifies this`edges
      ensures edges == old(edges) + UpLongEdges(Snapshot(), s, level)
    {
      var todo := LevelKeys(generate, s, level);
      ghost var linked: set<(Stage, Chunk)> := {};
      while todo != {}
        invariant linked + todo == LevelKeys(generate, s, level)
        invariant edges == old(edges) + UpLongFrom(linked, s)
        decreases |todo|
      {
        var k :| k in todo;
        assert k == (s, k.1) && k in generate;
        Link(Generate(s, k.1), Scale(s, UpLong));
        UpLongAdd(linked, k, s);
        todo := todo - {k};
        linked := linked + {k};
      }
    }

    /** The long-task cluster of stage s, sized from the chunks at HIGH_MIP, after every generate task at HIGH_MIP - 1. */
    method ScaleUpLong(s: Stage)
      modifies this`scaling, this`edges
      ensures Snapshot() == ScaleStep(cfg, it.topMip, old(Snapshot()), (s, UpLong))
    {
      var count := |set k | k in generate && k.0 == s && k.1.level == cfg.highMip|;
      var cluster2 := if 1 < count / 8 then count / 8 else 1;
      scaling := scaling[(s, UpLong) := Scaling.ScaleUp(Scaling.Cluster2, 2, cluster2)];
      LinkUpLong(s, cfg.highMip - 1);
    }

    /** The shrink of the long-task cluster of stage s after the top level. */
    method ScaleDownLong(s: Stage)
      requires LevelDone(s, it.topMip) in milestones
      modifies this`scaling, this`edges
      ensures Snapshot() == ScaleStep(cfg, it.topMip, old(Snapshot()), (s, DownLong))
    {
      scaling := scaling[(s, DownLong) := Scaling.ScaleDown(Scaling.Cluster2, 0)];
      Link(LevelDone(s, it.topMip), Scale(s, DownLong));
    }

    /** The final grow of the short-task cluster in stage s, after the top level. */
    method ScaleRestore(s: Stage, cluster1: nat)
      requires cluster1 == WsRemapCount(Snapshot())
      requires LevelDone(s, it.topMip) in milestones
      modifies this`scaling, this`edges
      ensures Snapshot() == ScaleStep(cfg, it.topMip, old(Snapshot()), (s, Up))
    {
      scaling := scaling[(s, Up) := Scaling.ScaleUp(Scaling.Cluster1, 20, cluster1)];
      Link(LevelDone(s, it.topMip), Scale(s, Up));
    }

    /** The extra-shrink block: both stages, when min(HIGH_MIP, top) - BATCH_MIP > 2. */
    method ExtraDownBlock(ghost g: Graph, ghost done: seq<(Stage, ScaleRole)>) returns (ok: bool)
      requires forall i :: 0 <= i < |done| ==> GateDefined(cfg, done[i])
      requires Snapshot() == ApplyScaling(cfg, it.topMip, g, done)
      modifies this`scaling, this`edges
      ensures ok <==> ExtraDownLookupsHit(cfg, it.topMip, milestones)
      ensures ok ==> Snapshot() == ApplyScaling(cfg, it.topMip, g, done + ExtraDownPart(cfg.batchMip, cfg.highMip, it.topMip))
    {
      var b := cfg.batchMip;
      if Scaling.Min(cfg.highMip, it.topMip) - b > 2 {
        if !HasLevel(milestones, b + 2) || !HasLevel(milestones, b + 1) {
          return false;
        }
        ScaleExtraDown(Ws);
        ApplySnoc(cfg, it.topMip, g, done, (Ws, ExtraDown));
        ScaleExtraDown(Agg);
        ApplySnoc(cfg, it.topMip, g, done + [(Ws, ExtraDown)], (Agg, ExtraDown));
        assert done + [(Ws, ExtraDown)] + [(Agg, ExtraDown)] == done + [(Ws, ExtraDown), (Agg, ExtraDown)];
      } else {
        assert done + [] == done;
      }
      ok := true;
    }

    /** The long-pool tasks of stage s, in source order. */
    method LongPoolStage(ghost g: Graph, ghost done: seq<(Stage, ScaleRole)>, s: Stage)
      requires forall i :: 0 <= i < |done| ==> GateDefined(cfg, done[i])
      requires Snapshot() == ApplyScaling(cfg, it.topMip, g, done)
      requires cfg.highMip >= 1 && LevelDone(s, cfg.highMip - 1) in milestones && LevelDone(s, it.topMip) in milestones
      modifies this`scaling, this`edges
      ensures forall i :: 0 <= i < |done + StageLongPool(s)| ==> GateDefined(cfg, (done + StageLongPool(s))[i])
      ensures Snapshot() == ApplyScaling(cfg, it.topMip, g, done + StageLongPool(s))
    {
      ScaleDownAtHigh(s);
      ApplySnoc(cfg, it.topMip, g, done, (s, Down));
      ScaleUpLong(s);
      ApplySnoc(cfg, it.topMip, g, done + [(s, Down)], (s, UpLong));
      ScaleDownLong(s);
      ApplySnoc(cfg, it.topMip, g, done + [(s, Down)] + [(s, UpLong)], (s, DownLong));
      assert done + [(s, Down)] + [(s, UpLong)] + [(s, DownLong)] == done + StageLongPool(s);
    }

    /** The long-pool block: both stages, when the top reaches HIGH_MIP. */
    method LongPoolBlock(ghost g: Graph, ghost done: seq<(Stage, ScaleRole)>) returns (ok: bool)
      requires forall i :: 0 <= i < |done| ==> GateDefined(cfg, done[i])
      requires Snapshot() == ApplyScaling(cfg, it.topMip, g, done)
      modifies this`scaling, this`edges
      ensures ok <==> LongPoolLookupsHit(cfg, it.topMip, milestones)
      ensures ok ==> Snapshot() == ApplyScaling(cfg, it.topMip, g, done + LongPoolPart(cfg.highMip, it.topMip))
    {
      var h := cfg.highMip;
      if it.topMip >= h {
        if !(h >= 1 && HasLevel(milestones, h - 1) && HasLevel(milestones, h) && HasLevel(milestones, it.topMip)) {
          return false;
        }
        LongPoolStage(g, done, Ws);
        LongPoolStage(g, done + StageLongPool(Ws), Agg);
        assert done + StageLongPool(Ws) + StageLongPool(Agg) == done + (StageLongPool(Ws) + StageLongPool(Agg));
      } else {
        assert done + [] == done;
      }
      ok := true;
    }

    /** The final-grow block: both stages, when the cluster was shrunk or the gap is two levels or more. */
    method RestoreBlock(ghost g: Graph, ghost done: seq<(Stage, ScaleRole)>, cluster1: nat) returns (ok: bool)
      requires forall i :: 0 <= i < |done| ==> GateDefined(cfg, done[i])
      requires Snapshot() == ApplyScaling(cfg, it.topMip, g, done)
      requires cluster1 == WsRemapCount(Snapshot())
      modifies this`scaling, this`edges
      ensures ok <==> RestoreLookupsHit(cfg, it.topMip, milestones)
      ensures ok ==> Snapshot() == ApplyScaling(cfg, it.topMip, g, done + RestorePart(cfg.batchMip, cfg.highMip, it.topMip))
    {
      var T := it.topMip;
      if Scaling.Min(cfg.highMip, T) - cfg.batchMip >= 2 || T >= cfg.highMip {
        if !HasLevel(milestones, T) {
          return false;
        }
        ScaleRestore(Ws, cluster1);
        ApplySnoc(cfg, T, g, done, (Ws, Up));
        ScaleRestore(Agg, cluster1);
        ApplySnoc(cfg, T, g, done + [(Ws, Up)], (Agg, Up));
        assert done + [(Ws, Up)] + [(Agg, Up)] == done + [(Ws, Up), (Agg, Up)];
      } else {
        assert done + [] == done;
      }
      ok := true;
    }

    /** The reset block: when there are 100 watershed remap tasks or more. */
    method ResetBlock(ghost g: Graph, cluster1: nat) returns (ok: bool)
      requires Snapshot() == g && cluster1 == WsRemapCount(g)
      modifies this`scaling, this`edges
      ensures ok <==> ResetLookupHits(cluster1, milestones)
      ensures ok ==> Snapshot() == ApplyScaling(cfg, it.topMip, g, ResetPart(g))
    {
      if cluster1 >= 100 {
        if RemapDone(Ws) !in milestones {
          return false;
        }
        ScaleReset();
        ApplySnoc(cfg, it.topMip, g, [], (Ws, ResetAfterWs));
      }
      ok := true;
    }

    /**
     * The scaling overlay after the driver loop. ok is false exactly when one
     * of its dictionary lookups misses (a KeyError in the source); the state
     * reached by then is not described.
     */
    method AddScaling() returns (ok: bool)
      modifies this`scaling, this`edges
      ensures ok <==> ScalingLookupsHit(cfg, it.topMip, old(Snapshot()))
      ensures ok ==> Snapshot() == WithScaling(cfg, it.topMip, old(Snapshot()))
    {
      ghost var g := Snapshot();
      var T, b, h := it.topMip, cfg.batchMip, cfg.highMip;
      var cluster1 := |set k | k in remap && k.0 == Ws|;
      ghost var r := ResetPart(g);
      ghost var e := ExtraDownPart(b, h, T);
      ghost var l := LongPoolPart(h, T);
      ghost var u := RestorePart(b, h, T);
      assert cluster1 == WsRemapCount(g);
      ok := ResetBlock(g, cluster1);
      if !ok {
        return;
      }
      ok := ExtraDownBlock(g, r);
      if !ok {
        return;
      }
      ok := LongPoolBlock(g, r + e);
      if !ok {
        return;
      }
      ok := RestoreBlock(g, r + e + l, cluster1);
    }
  }

  lemma UpLongAdd(keys: set<(Stage, Chunk)>, k: (Stage, Chunk), s: Stage)
    ensures UpLongFrom(keys + {k}, s) == UpLongFrom(keys, s) + {(Generate(s, k.1), Scale(s, UpLong))}
  {
  }

  lemma NeighbourEdgesSnoc(ns: seq<Chunk>, n: Chunk, generate: map<(Stage, Chunk), Op>, c: Chunk)
    ensures NeighbourEdges(ns + [n], generate, c)
         == NeighbourEdges(ns, generate, c)
          + (if n.level == c.level && (Agg, n) in generate
             then {(Generate(Agg, n), Overlap(c))} + (if n != c then {(Generate(Agg, c), Overlap(n))} else {})
             else {})
  {
  }

  // ---------------------------------------------------------------------
  // The handled chunks and the tasks of the built graph
  // ---------------------------------------------------------------------

  /** p is what the driver loop has handled so far: a prefix of a valid iteration, all at or above the batch level. */
  ghost predicate Admissible(cfg: Config, it: ChunkIterator, p: seq<Chunk>)
  {
    it.Valid() && p <= it.chunks && AtOrAbove(cfg, it.topMip, p)
  }

  /** The levels of the handled chunks. */
  function Levels(p: seq<Chunk>): set<nat>
  {
    if p == [] then {} else Levels(p[..|p| - 1]) + {p[|p| - 1].level}
  }

  /** A level has been handled exactly when some handled chunk is at it. */
  lemma {:induction false} LevelsMembers(p: seq<Chunk>, l: nat)
    ensures l in Levels(p) <==> exists c :: c in p && c.level == l
  {
    if p != [] {
      var q, d := p[..|p| - 1], p[|p| - 1];
      assert p == q + [d];
      LevelsMembers(q, l);
      if l in Levels(p) && l != d.level {
        var c :| c in q && c.level == l;
        assert c in p;
      }
    }
  }

  /** The milestones after handling p: one per level and stage, a remap one per stage, and the overlap one. */
  predicate MilestoneOf(cfg: Config, topMip: nat, p: seq<Chunk>, t: Task)
  {
    match t
    case LevelDone(_, l) => l in Levels(p)
    case RemapDone(_) => BatchLevel(cfg, topMip) in Levels(p)
    case OverlapDone => OverlapOn(cfg, topMip)
    case _ => false
  }
  /** Every handled chunk is at or above the batch level. */
  predicate AtOrAbove(cfg: Config, topMip: nat, p: seq<Chunk>)
  {
    forall c :: c in p ==> c.level >= BatchLevel(cfg, topMip)
  }

  /** The tasks of the built graph, each with its kind and queue. */
  ghost predicate NodesAsExpected(cfg: Config, topMip: nat, p: seq<Chunk>, g: Graph)
  {
    var lbm := BatchLevel(cfg, topMip);
    && (forall s, c :: (s, c) in g.generate <==> c in p)
    && (forall k :: k in g.generate ==> g.generate[k] == GenerateOp(cfg, topMip, k.1))
    && (forall s, c :: (s, c) in g.remap <==> c in p && c.level == lbm)
    && (forall k :: k in g.remap ==> g.remap[k] == Op(RemapKind, Atomic))
    && (forall c :: c in g.overlap <==> OverlapOn(cfg, topMip) && c in p && c.level == lbm)
    && (forall c :: c in g.overlap ==> g.overlap[c] == Op(OverlapKind, Atomic))
    && (forall t :: t in g.milestones <==> MilestoneOf(cfg, topMip, p, t))
    && g.scaling == map[]
  }

  lemma AdmissibleSnoc(cfg: Config, it: ChunkIterator, p: seq<Chunk>, c: Chunk)
    requires Admissible(cfg, it, p + [c])
    ensures Admissible(cfg, it, p)
    ensures c.level >= BatchLevel(cfg, it.topMip)
    ensures After(cfg, it, p + [c]) == Step(cfg, it, After(cfg, it, p), c)
  {
    assert (p + [c])[..|p|] == p;
    assert c in p + [c];
  }

  /** The chunks up to index i of a valid iteration, all at or above the batch level, are admissible. */
  lemma LoopAdmissible(cfg: Config, it: ChunkIterator, i: nat)
    requires it.Valid() && i < |it.chunks|
    requires forall j :: 0 <= j <= i ==> it.chunks[j].level >= BatchLevel(cfg, it.topMip)
    ensures it.chunks[..i + 1] == it.chunks[..i] + [it.chunks[i]]
    ensures Admissible(cfg, it, it.chunks[..i] + [it.chunks[i]])
  {
    assert it.chunks[..i + 1] == it.chunks[..i] + [it.chunks[i]];
    assert it.chunks[..i + 1] <= it.chunks;
  }

  /** The edges of a chunk, added as its node edges and then its reduction edges. */
  lemma ChunkEdgesSplit(cfg: Config, it: ChunkIterator, generate: map<(Stage, Chunk), Op>, c: Chunk,
                        before: set<Edge>, nodes: set<Edge>, after: set<Edge>)
    requires nodes == before + NodeEdges(cfg, it, generate, Ws, c) + NodeEdges(cfg, it, generate, Agg, c)
    requires after == nodes + ReductionEdges(cfg, it.topMip, Ws, c) + ReductionEdges(cfg, it.topMip, Agg, c)
    ensures after == before + ChunkEdges(cfg, it, generate, c)
  {
  }

  /** The tasks one turn of the driver loop adds, for a chunk at or above the batch level. */
  lemma StepFields(cfg: Config, it: ChunkIterator, g: Graph, c: Chunk)
    requires c.level >= BatchLevel(cfg, it.topMip)
    ensures var r := Step(cfg, it, g, c);
      && r.generate == g.generate[(Ws, c) := GenerateOp(cfg, it.topMip, c)][(Agg, c) := GenerateOp(cfg, it.topMip, c)]
      && r.remap == (if c.level == BatchLevel(cfg, it.topMip)
                     then g.remap[(Ws, c) := Op(RemapKind, Atomic)][(Agg, c) := Op(RemapKind, Atomic)]
                     else g.remap)
      && r.overlap == (if c.level == BatchLevel(cfg, it.topMip) && OverlapOn(cfg, it.topMip)
                       then g.overlap[c := Op(OverlapKind, Atomic)]
                       else g.overlap)
      && r.milestones == g.milestones + LevelMilestones(c.level, BatchLevel(cfg, it.topMip))
      && r.edges == g.edges + MarkEdges(c.level, BatchLevel(cfg, it.topMip)) + ChunkEdges(cfg, it, r.generate, c)
      && r.scaling == g.scaling
  {
  }

  /** Generate tasks: one per handled chunk and stage, with the kind and queue GenerateOp gives. */
  lemma {:induction false} GenerateKey(cfg: Config, it: ChunkIterator, p: seq<Chunk>, s: Stage, c: Chunk)
    requires AtOrAbove(cfg, it.topMip, p)
    ensures (s, c) in After(cfg, it, p).generate <==> c in p
    ensures (s, c) in After(cfg, it, p).generate ==> After(cfg, it, p).generate[(s, c)] == GenerateOp(cfg, it.topMip, c)
  {
    if p != [] {
      var q, d := p[..|p| - 1], p[|p| - 1];
      assert p == q + [d];
      GenerateKey(cfg, it, q, s, c);
      StepFields(cfg, it, After(cfg, it, q), d);
    }
  }

  /** Remap tasks: one per batch-level chunk and stage. */
  lemma {:induction false} RemapKey(cfg: Config, it: ChunkIterator, p: seq<Chunk>, s: Stage, c: Chunk)
    requires AtOrAbove(cfg, it.topMip, p)
    ensures (s, c) in After(cfg, it, p).remap <==> c in p && c.level == BatchLevel(cfg, it.topMip)
    ensures (s, c) in After(cfg, it, p).remap ==> After(cfg, it, p).remap[(s, c)] == Op(RemapKind, Atomic)
  {
    if p != [] {
      var q, d := p[..|p| - 1], p[|p| - 1];
      assert p == q + [d];
      RemapKey(cfg, it, q, s, c);
      StepFields(cfg, it, After(cfg, it, q), d);
    }
  }

  /** Overlap tasks: one per batch-level chunk, when overlap is on. */
  lemma {:induction false} OverlapKey(cfg: Config, it: ChunkIterator, p: seq<Chunk>, c: Chunk)
    requires AtOrAbove(cfg, it.topMip, p)
    ensures c in After(cfg, it, p).overlap <==> OverlapOn(cfg, it.topMip) && c in p && c.level == BatchLevel(cfg, it.topMip)
    ensures c in After(cfg, it, p).overlap ==> After(cfg, it, p).overlap[c] == Op(OverlapKind, Atomic)
  {
    if p != [] {
      var q, d := p[..|p| - 1], p[|p| - 1];
      assert p == q + [d];
      OverlapKey(cfg, it, q, c);
      StepFields(cfg, it, After(cfg, it, q), d);
    }
  }

  /** Handling one more chunk adds the milestones of its level. */
  lemma MilestoneOfSnoc(cfg: Config, topMip: nat, p: seq<Chunk>, t: Task)
    requires p != []
    ensures MilestoneOf(cfg, topMip, p, t)
        <==> MilestoneOf(cfg, topMip, p[..|p| - 1], t) || t in LevelMilestones(p[|p| - 1].level, BatchLevel(cfg, topMip))
  {
    match t
    case LevelDone(s, _) =>
      assert s == Ws || s == Agg;
    case RemapDone(s) =>
      assert s == Ws || s == Agg;
    case _ =>
  }

  /** Milestones: one per handled level and stage, the remap ones once the batch level is reached, and the overlap one. */
  lemma {:induction false} MilestoneKey(cfg: Config, it: ChunkIterator, p: seq<Chunk>, t: Task)
    requires AtOrAbove(cfg, it.topMip, p)
    ensures t in After(cfg, it, p).milestones <==> MilestoneOf(cfg, it.topMip, p, t)
  {
    if p != [] {
      var q, d := p[..|p| - 1], p[|p| - 1];
      assert p == q + [d];
      MilestoneKey(cfg, it, q, t);
      StepFields(cfg, it, After(cfg, it, q), d);
      MilestoneOfSnoc(cfg, it.topMip, p, t);
    }
  }

  /** No scaling task exists while the chunk tasks are built. */
  lemma {:induction false} NoScalingYet(cfg: Config, it: ChunkIterator, p: seq<Chunk>)
    requires AtOrAbove(cfg, it.topMip, p)
    ensures After(cfg, it, p).scaling == map[]
  {
    if p != [] {
      var q, d := p[..|p| - 1], p[|p| - 1];
      assert p == q + [d];
      NoScalingYet(cfg, it, q);
      StepFields(cfg, it, After(cfg, it, q), d);
    }
  }

  /**
   * Every handled chunk has one generate task per stage, a wrap task above
   * the batch level and a batch task at it, with the queue rule; the
   * batch-level chunks, and only they, have a remap task per stage and, when
   * overlap is on, an overlap task; the milestones are one per level and
   * stage, one remap milestone per stage and the overlap milestone.
   */
  lemma AfterNodes(cfg: Config, it: ChunkIterator, p: seq<Chunk>)
    requires AtOrAbove(cfg, it.topMip, p)
    ensures NodesAsExpected(cfg, it.topMip, p, After(cfg, it, p))
  {
    var g := After(cfg, it, p);
    forall s, c ensures (s, c) in g.generate <==> c in p {
      GenerateKey(cfg, it, p, s, c);
    }
    forall k | k in g.generate ensures g.generate[k] == GenerateOp(cfg, it.topMip, k.1) {
      GenerateKey(cfg, it, p, k.0, k.1);
    }
    forall s, c ensures (s, c) in g.remap <==> c in p && c.level == BatchLevel(cfg, it.topMip) {
      RemapKey(cfg, it, p, s, c);
    }
    forall k | k in g.remap ensures g.remap[k] == Op(RemapKind, Atomic) {
      RemapKey(cfg, it, p, k.0, k.1);
    }
    forall c ensures c in g.overlap <==> OverlapOn(cfg, it.topMip) && c in p && c.level == BatchLevel(cfg, it.topMip) {
      OverlapKey(cfg, it, p, c);
    }
    forall c | c in g.overlap ensures g.overlap[c] == Op(OverlapKind, Atomic) {
      OverlapKey(cfg, it, p, c);
    }
    forall t ensures t in g.milestones <==> MilestoneOf(cfg, it.topMip, p, t) {
      MilestoneKey(cfg, it, p, t);
    }
    NoScalingYet(cfg, it, p);
  }

  /** Before chunk c is handled, everything process_composite_tasks looks up exists. */
  lemma ReadyToProcess(cfg: Config, it: ChunkIterator, p: seq<Chunk>, c: Chunk)
    requires Admissible(cfg, it, p + [c])
    ensures ChunkReady(cfg, it, OpenLevel(cfg, it.topMip, After(cfg, it, p), c), c)
  {
    AdmissibleSnoc(cfg, it, p, c);
    PrefixStep(it, p, c);
    var T := it.topMip;
    var lbm := BatchLevel(cfg, T);
    var g := After(cfg, it, p);
    var g' := OpenLevel(cfg, T, g, c);
    assert g'.generate == g.generate && g'.overlap == g.overlap;
    assert LevelDone(Ws, c.level) in g'.milestones && LevelDone(Agg, c.level) in g'.milestones;
    if c.level == lbm {
      assert RemapDone(Ws) in g'.milestones && RemapDone(Agg) in g'.milestones;
      if c != Top(T) {
        GeneratePresent(cfg, it, p, Top(T));
      }
      if OverlapOn(cfg, T) {
        OverlapReady(cfg, it, p);
      }
    }
    if c.level < T {
      GeneratePresent(cfg, it, p, Parent(c));
    }
  }

  /** A handled chunk has its generate task in both stages. */
  lemma GeneratePresent(cfg: Config, it: ChunkIterator, p: seq<Chunk>, c: Chunk)
    requires AtOrAbove(cfg, it.topMip, p) && c in p
    ensures (Ws, c) in After(cfg, it, p).generate && (Agg, c) in After(cfg, it, p).generate
  {
    GenerateKey(cfg, it, p, Ws, c);
    GenerateKey(cfg, it, p, Agg, c);
  }

  /** With overlap on, the overlap milestone exists and every batch-level agglomeration chunk has its overlap task. */
  lemma OverlapReady(cfg: Config, it: ChunkIterator, p: seq<Chunk>)
    requires AtOrAbove(cfg, it.topMip, p) && OverlapOn(cfg, it.topMip)
    ensures OverlapDone in After(cfg, it, p).milestones
    ensures forall n :: (Agg, n) in After(cfg, it, p).generate && n.level == BatchLevel(cfg, it.topMip) ==> n in After(cfg, it, p).overlap
  {
    MilestoneKey(cfg, it, p, OverlapDone);
    forall n | (Agg, n) in After(cfg, it, p).generate && n.level == BatchLevel(cfg, it.topMip)
      ensures n in After(cfg, it, p).overlap
    {
      GenerateKey(cfg, it, p, Agg, n);
      OverlapKey(cfg, it, p, n);
    }
  }

  /** Meeting a level again (the driver's "not in slack_ops" test fails) adds nothing new. */
  lemma ReopenLevel(cfg: Config, it: ChunkIterator, p: seq<Chunk>, l: nat)
    requires AtOrAbove(cfg, it.topMip, p)
    ensures LevelDone(Agg, l) in After(cfg, it, p).milestones <==> LevelDone(Ws, l) in After(cfg, it, p).milestones
    ensures LevelDone(Ws, l) in After(cfg, it, p).milestones ==>
              && LevelMilestones(l, BatchLevel(cfg, it.topMip)) <= After(cfg, it, p).milestones
              && MarkEdges(l, BatchLevel(cfg, it.topMip)) <= After(cfg, it, p).edges
  {
    var lbm := BatchLevel(cfg, it.topMip);
    MilestoneKey(cfg, it, p, LevelDone(Ws, l));
    MilestoneKey(cfg, it, p, LevelDone(Agg, l));
    if LevelDone(Ws, l) in After(cfg, it, p).milestones && l == lbm {
      MilestoneKey(cfg, it, p, RemapDone(Ws));
      MilestoneKey(cfg, it, p, RemapDone(Agg));
      MarkEdgeKey(cfg, it, p);
    }
  }

  /** Once the batch level has been handled, each stage's remap milestone precedes its mark-done task. */
  lemma {:induction false} MarkEdgeKey(cfg: Config, it: ChunkIterator, p: seq<Chunk>)
    requires AtOrAbove(cfg, it.topMip, p)
    requires BatchLevel(cfg, it.topMip) in Levels(p)
    ensures MarkEdges(BatchLevel(cfg, it.topMip), BatchLevel(cfg, it.topMip)) <= After(cfg, it, p).edges
  {
    var q, d := p[..|p| - 1], p[|p| - 1];
    assert p == q + [d];
    StepFields(cfg, it, After(cfg, it, q), d);
    if d.level != BatchLevel(cfg, it.topMip) {
      MarkEdgeKey(cfg, it, q);
    }
  }
}
