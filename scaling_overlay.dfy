/**
 * What the cluster-scaling overlay adds to the stage graphs, stated task by
 * task and dependency by dependency, and when the overlay can be built at
 * all on the graph the driver loop leaves.
 */
module ScalingOverlay {
  import opened Chunks
  import opened Tasks
  import opened Graphs
  import opened Scaling
  import opened Segmentation
  import opened SegmentationEdges

  /** The scaling tasks of the overlay: the reset after watershed, and the plan in both stages. */
  function ScaleKeys(cfg: Config, topMip: nat, g: Graph): set<(Stage, ScaleRole)>
  {
    (if WsRemapCount(g) >= ResetThreshold then {(Ws, ResetAfterWs)} else {})
    + (set s, r | s in {Ws, Agg} && r in Plan(cfg.batchMip, cfg.highMip, topMip) :: (s, r))
  }

  /** What scaling task (s, r) waits for. */
  predicate IsGate(cfg: Config, topMip: nat, g: Graph, x: Task, s: Stage, r: ScaleRole)
  {
    match r
    case ResetAfterWs => x == RemapDone(s)
    case ExtraDown => x == LevelDone(s, cfg.batchMip + 1)
    case Down => cfg.highMip >= 1 && x == LevelDone(s, cfg.highMip - 1)
    case UpLong => x.Generate? && x.stage == s && (s, x.chunk) in g.generate && x.chunk.level + 1 == cfg.highMip
    case DownLong => x == LevelDone(s, topMip)
    case Up => x == LevelDone(s, topMip)
  }

  /** A dependency the overlay adds: into one of its tasks, from that task's gate. */
  predicate ScaleGate(cfg: Config, topMip: nat, g: Graph, e: Edge)
  {
    e.1.Scale? && (e.1.stage, e.1.role) in ScaleKeys(cfg, topMip, g) && IsGate(cfg, topMip, g, e.0, e.1.stage, e.1.role)
  }

  /** The gates of scaling task (s, r) are the dependencies from an IsGate task into it. */
  lemma GatesMembers(cfg: Config, topMip: nat, g: Graph, s: Stage, r: ScaleRole, e: Edge)
    requires GateDefined(cfg, (s, r))
    ensures e in Gates(cfg, topMip, g, s, r) <==> e.1 == Scale(s, r) && IsGate(cfg, topMip, g, e.0, s, r)
  {
    if r == UpLong && e.1 == Scale(s, UpLong) && IsGate(cfg, topMip, g, e.0, s, r) {
      var k := (s, e.0.chunk);
      assert k in LevelKeys(g.generate, s, cfg.highMip - 1);
      assert e == (Generate(s, k.1), Scale(s, UpLong));
    }
  }

  /**
   * Adding the scaling tasks ks changes only the scaling tasks and the
   * dependencies: each task of ks gets the size ScaleOpOf gives for the
   * graph it started from, every other task keeps its own.
   */
  lemma {:induction false} ApplyTasks(cfg: Config, topMip: nat, g: Graph, ks: seq<(Stage, ScaleRole)>, s: Stage, r: ScaleRole)
    requires forall i :: 0 <= i < |ks| ==> GateDefined(cfg, ks[i])
    ensures var g' := ApplyScaling(cfg, topMip, g, ks);
      && g'.generate == g.generate && g'.overlap == g.overlap && g'.remap == g.remap && g'.milestones == g.milestones
      && ((s, r) in g'.scaling <==> (s, r) in g.scaling || (s, r) in ks)
      && ((s, r) in g'.scaling ==> g'.scaling[(s, r)] == if (s, r) in ks then ScaleOpOf(cfg, g, s, r) else g.scaling[(s, r)])
  {
    if ks != [] {
      var q, k := ks[..|ks| - 1], ks[|ks| - 1];
      assert ks == q + [k];
      ApplyTasks(cfg, topMip, g, q, s, r);
    }
  }

  /** Adding the scaling tasks ks adds exactly their gates. */
  lemma {:induction false} ApplyEdges(cfg: Config, topMip: nat, g: Graph, ks: seq<(Stage, ScaleRole)>, e: Edge)
    requires forall i :: 0 <= i < |ks| ==> GateDefined(cfg, ks[i])
    ensures e in ApplyScaling(cfg, topMip, g, ks).edges
        <==> (e in g.edges || (e.1.Scale? && (e.1.stage, e.1.role) in ks && IsGate(cfg, topMip, g, e.0, e.1.stage, e.1.role)))
  {
    if ks != [] {
      var q, k := ks[..|ks| - 1], ks[|ks| - 1];
      assert ks == q + [k];
      ApplyEdges(cfg, topMip, g, q, e);
      ApplyTasks(cfg, topMip, g, q, k.0, k.1);
      var gq := ApplyScaling(cfg, topMip, g, q);
      GatesMembers(cfg, topMip, gq, k.0, k.1, e);
      assert IsGate(cfg, topMip, gq, e.0, k.0, k.1) == IsGate(cfg, topMip, g, e.0, k.0, k.1);
    }
  }

  /** Scaling task (s, r) is one the overlay wants. */
  predicate Wanted(cfg: Config, topMip: nat, g: Graph, s: Stage, r: ScaleRole)
  {
    if r == ResetAfterWs then s == Ws && WsRemapCount(g) >= ResetThreshold
    else r in Plan(cfg.batchMip, cfg.highMip, topMip)
  }

  lemma ResetPartMembers(g: Graph, s: Stage, r: ScaleRole)
    ensures (s, r) in ResetPart(g) <==> r == ResetAfterWs && s == Ws && WsRemapCount(g) >= ResetThreshold
  {
  }

  lemma ExtraDownPartMembers(b: nat, h: nat, topMip: nat, s: Stage, r: ScaleRole)
    ensures (s, r) in ExtraDownPart(b, h, topMip) <==> r == ExtraDown && ExtraDownOn(b, h, topMip)
  {
    assert s == Ws || s == Agg;
  }

  lemma LongPoolPartMembers(h: nat, topMip: nat, s: Stage, r: ScaleRole)
    ensures (s, r) in LongPoolPart(h, topMip) <==> r in {Down, UpLong, DownLong} && LongPoolOn(h, topMip)
  {
    assert s == Ws || s == Agg;
    assert (s, r) in StageLongPool(Ws) + StageLongPool(Agg) <==> (s, r) in StageLongPool(Ws) || (s, r) in StageLongPool(Agg);
  }

  lemma RestorePartMembers(b: nat, h: nat, topMip: nat, s: Stage, r: ScaleRole)
    ensures (s, r) in RestorePart(b, h, topMip) <==> r == Up && RestoreOn(b, h, topMip)
  {
    assert s == Ws || s == Agg;
  }

  /** Membership in four concatenated blocks. */
  lemma InFour<T>(x: T, a: seq<T>, b: seq<T>, c: seq<T>, d: seq<T>)
    ensures x in a + b + c + d <==> x in a || x in b || x in c || x in d
  {
  }

  /** The overlay's tasks, in source order, are the wanted ones. */
  lemma OrderMembers(cfg: Config, topMip: nat, g: Graph, s: Stage, r: ScaleRole)
    ensures (s, r) in ScaleOrder(cfg, topMip, g) <==> Wanted(cfg, topMip, g, s, r)
  {
    var b, h := cfg.batchMip, cfg.highMip;
    InFour((s, r), ResetPart(g), ExtraDownPart(b, h, topMip), LongPoolPart(h, topMip), RestorePart(b, h, topMip));
    ResetPartMembers(g, s, r);
    ExtraDownPartMembers(b, h, topMip, s, r);
    LongPoolPartMembers(h, topMip, s, r);
    RestorePartMembers(b, h, topMip, s, r);
  }

  /** The tasks ScaleKeys names are the wanted ones. */
  lemma KeysMembers(cfg: Config, topMip: nat, g: Graph, s: Stage, r: ScaleRole)
    ensures (s, r) in ScaleKeys(cfg, topMip, g) <==> Wanted(cfg, topMip, g, s, r)
  {
    assert s == Ws || s == Agg;
    if Wanted(cfg, topMip, g, s, r) && r != ResetAfterWs {
      assert s in {Ws, Agg} && r in Plan(cfg.batchMip, cfg.highMip, topMip);
    }
  }

  /**
   * The overlay creates exactly the tasks ScaleKeys names, with the sizes
   * ScaleOpOf gives, and leaves the chunk tasks and milestones alone.
   */
  lemma WithScalingTasks(cfg: Config, topMip: nat, g: Graph, s: Stage, r: ScaleRole)
    requires ScalingLookupsHit(cfg, topMip, g)
    ensures var g' := WithScaling(cfg, topMip, g);
      && g'.generate == g.generate && g'.overlap == g.overlap && g'.remap == g.remap && g'.milestones == g.milestones
      && ((s, r) in g'.scaling <==> (s, r) in g.scaling || (s, r) in ScaleKeys(cfg, topMip, g))
      && ((s, r) in ScaleKeys(cfg, topMip, g) ==> g'.scaling[(s, r)] == ScaleOpOf(cfg, g, s, r))
  {
    ApplyTasks(cfg, topMip, g, ScaleOrder(cfg, topMip, g), s, r);
    OrderMembers(cfg, topMip, g, s, r);
    KeysMembers(cfg, topMip, g, s, r);
  }

  /** The dependencies the overlay adds are exactly the gates of its tasks. */
  lemma WithScalingEdges(cfg: Config, topMip: nat, g: Graph, e: Edge)
    requires ScalingLookupsHit(cfg, topMip, g)
    ensures e in WithScaling(cfg, topMip, g).edges <==> e in g.edges || ScaleGate(cfg, topMip, g, e)
  {
    ApplyEdges(cfg, topMip, g, ScaleOrder(cfg, topMip, g), e);
    if e.1.Scale? {
      OrderMembers(cfg, topMip, g, e.1.stage, e.1.role);
      KeysMembers(cfg, topMip, g, e.1.stage, e.1.role);
    }
  }

  /** Every level between a handled chunk and the top has been handled: the chunk's ancestors come before it. */
  lemma {:induction false} AncestorLevels(it: ChunkIterator, p: seq<Chunk>, c: Chunk, l: nat)
    requires it.Valid() && p <= it.chunks && c in p
    requires c.level <= l <= it.topMip
    ensures l in Levels(p)
    decreases l - c.level
  {
    LevelsMembers(p, l);
    if l != c.level {
      PrefixClosed(it, p, c);
      AncestorLevels(it, p, Parent(c), l);
    }
  }

  /** The handled levels lie between the batch level and the top. */
  lemma LevelsWithin(cfg: Config, it: ChunkIterator, p: seq<Chunk>, l: nat)
    requires Admissible(cfg, it, p)
    requires l in Levels(p)
    ensures BatchLevel(cfg, it.topMip) <= l <= it.topMip
  {
    LevelsMembers(p, l);
    var c :| c in p && c.level == l;
    PrefixClosed(it, p, c);
  }

  /** After the whole loop, both stages hold the milestones of every level from the batch level to the top. */
  lemma FullBuildLevels(cfg: Config, it: ChunkIterator, l: int)
    requires it.Valid()
    requires exists c :: c in it.chunks && c.level == BatchLevel(cfg, it.topMip)
    ensures var p := Processed(it.chunks, BatchLevel(cfg, it.topMip));
      HasLevel(After(cfg, it, p).milestones, l) <==> BatchLevel(cfg, it.topMip) <= l <= it.topMip
  {
    var lbm := BatchLevel(cfg, it.topMip);
    var p := Processed(it.chunks, lbm);
    ProcessedMembers(it, lbm);
    assert Admissible(cfg, it, p);
    if l >= 0 {
      MilestoneKey(cfg, it, p, LevelDone(Ws, l));
      MilestoneKey(cfg, it, p, LevelDone(Agg, l));
      if lbm <= l <= it.topMip {
        var c :| c in it.chunks && c.level == lbm;
        AncestorLevels(it, p, c, l);
      } else if l in Levels(p) {
        LevelsWithin(cfg, it, p, l);
      }
    }
  }

  /** Once a batch-level chunk has been handled, the watershed remap milestone exists. */
  lemma RemapDoneOnceBatchLevel(cfg: Config, it: ChunkIterator, p: seq<Chunk>, c: Chunk)
    requires AtOrAbove(cfg, it.topMip, p)
    requires c in p && c.level == BatchLevel(cfg, it.topMip)
    ensures RemapDone(Ws) in After(cfg, it, p).milestones
  {
    LevelsMembers(p, c.level);
    MilestoneKey(cfg, it, p, RemapDone(Ws));
  }

  /** The milestones of the whole loop, as the overlay's lookups see them. */
  lemma FullBuildMilestones(cfg: Config, it: ChunkIterator)
    requires it.Valid()
    requires exists c :: c in it.chunks && c.level == BatchLevel(cfg, it.topMip)
    ensures var m := After(cfg, it, Processed(it.chunks, BatchLevel(cfg, it.topMip))).milestones;
      && RemapDone(Ws) in m
      && forall l :: HasLevel(m, l) <==> BatchLevel(cfg, it.topMip) <= l <= it.topMip
  {
    var lbm := BatchLevel(cfg, it.topMip);
    ProcessedMembers(it, lbm);
    var c :| c in it.chunks && c.level == lbm;
    RemapDoneOnceBatchLevel(cfg, it, Processed(it.chunks, lbm), c);
    forall l
      ensures HasLevel(After(cfg, it, Processed(it.chunks, BatchLevel(cfg, it.topMip))).milestones, l)
          <==> BatchLevel(cfg, it.topMip) <= l <= it.topMip
    {
      FullBuildLevels(cfg, it, l);
    }
  }

  /**
   * The overlay's lookups on a graph whose levels are exactly those from the
   * batch level to the top, with the watershed remap milestone present.
   */
  lemma LookupsOnLevels(cfg: Config, topMip: nat, g: Graph)
    requires RemapDone(Ws) in g.milestones
    requires forall l :: HasLevel(g.milestones, l) <==> BatchLevel(cfg, topMip) <= l <= topMip
    ensures ScalingLookupsHit(cfg, topMip, g)
        <==> !(LongPoolOn(cfg.highMip, topMip) && cfg.highMip <= BatchLevel(cfg, topMip))
  {
    var b, h := cfg.batchMip, cfg.highMip;
    assert HasLevel(g.milestones, b + 1) <==> BatchLevel(cfg, topMip) <= b + 1 <= topMip;
    assert HasLevel(g.milestones, b + 2) <==> BatchLevel(cfg, topMip) <= b + 2 <= topMip;
    assert HasLevel(g.milestones, h - 1) <==> BatchLevel(cfg, topMip) <= h - 1 <= topMip;
    assert HasLevel(g.milestones, h) <==> BatchLevel(cfg, topMip) <= h <= topMip;
    assert HasLevel(g.milestones, topMip);
  }

  /**
   * On the graph the whole loop builds, the overlay's lookups all hit unless
   * the long-task pool is planned with HIGH_MIP at or below the batch level:
   * then the level HIGH_MIP - 1 was never opened and the source stops with
   * a missing key.
   */
  lemma FullBuildLookups(cfg: Config, it: ChunkIterator)
    requires it.Valid()
    requires exists c :: c in it.chunks && c.level == BatchLevel(cfg, it.topMip)
    ensures var lbm := BatchLevel(cfg, it.topMip);
      (ScalingLookupsHit(cfg, it.topMip, After(cfg, it, Processed(it.chunks, lbm))))
      <==> !(LongPoolOn(cfg.highMip, it.topMip) && cfg.highMip <= lbm)
  {
    FullBuildMilestones(cfg, it);
    LookupsOnLevels(cfg, it.topMip, After(cfg, it, Processed(it.chunks, BatchLevel(cfg, it.topMip))));
  }

  /** Every dependency the overlay adds joins two tasks that exist, once its lookups hit. */
  lemma OverlayEdgesDeclared(cfg: Config, topMip: nat, g: Graph, e: Edge)
    requires ScalingLookupsHit(cfg, topMip, g)
    requires ScaleGate(cfg, topMip, g, e)
    ensures Declared(WithScaling(cfg, topMip, g), e.0) && Declared(WithScaling(cfg, topMip, g), e.1)
  {
    var s, r := e.1.stage, e.1.role;
    WithScalingTasks(cfg, topMip, g, s, r);
    KeysMembers(cfg, topMip, g, s, r);
    PlanRoles(cfg.batchMip, cfg.highMip, topMip, r);
    if r == UpLong {
      WithScalingTasks(cfg, topMip, g, s, r);
    }
  }

  /** Which plan a role belongs to. */
  lemma PlanRoles(b: nat, h: nat, topMip: nat, r: ScaleRole)
    ensures r == ExtraDown ==> (r in Plan(b, h, topMip) <==> ExtraDownOn(b, h, topMip))
    ensures r == Up ==> (r in Plan(b, h, topMip) <==> RestoreOn(b, h, topMip))
    ensures r in {Down, UpLong, DownLong} ==> (r in Plan(b, h, topMip) <==> LongPoolOn(h, topMip))
  {
  }

  /** A scaling task ranks above every task it waits for. */
  lemma GateRaisesRank(cfg: Config, it: ChunkIterator, p: seq<Chunk>, e: Edge)
    requires Admissible(cfg, it, p)
    requires e.1.Scale? && IsGate(cfg, it.topMip, After(cfg, it, p), e.0, e.1.stage, e.1.role)
    ensures Rank(it.topMip, e.0) < Rank(it.topMip, e.1)
  {
    if e.1.role == UpLong {
      GenerateKey(cfg, it, p, e.0.stage, e.0.chunk);
      PrefixClosed(it, p, e.0.chunk);
    }
  }

  /**
   * The overlay keeps the stage graphs acyclic: every scaling task ranks
   * above the milestones and chunk tasks it waits for, and nothing waits
   * for a scaling task.
   */
  lemma OverlayRaisesRank(cfg: Config, it: ChunkIterator, p: seq<Chunk>, e: Edge)
    requires Admissible(cfg, it, p)
    requires ScalingLookupsHit(cfg, it.topMip, After(cfg, it, p))
    requires e in WithScaling(cfg, it.topMip, After(cfg, it, p)).edges
    ensures Rank(it.topMip, e.0) < Rank(it.topMip, e.1)
  {
    var g := After(cfg, it, p);
    WithScalingEdges(cfg, it.topMip, g, e);
    if e in g.edges {
      EdgesRaiseRank(cfg, it, p, e);
    } else {
      GateRaisesRank(cfg, it, p, e);
    }
  }

  /** With the overlay added, the stage graphs still have no cycle. */
  lemma OverlayAcyclic(cfg: Config, it: ChunkIterator, p: seq<Chunk>, path: seq<Task>)
    requires Admissible(cfg, it, p)
    requires ScalingLookupsHit(cfg, it.topMip, After(cfg, it, p))
    requires IsPath(WithScaling(cfg, it.topMip, After(cfg, it, p)).edges, path) && |path| >= 2
    ensures path[0] != path[|path| - 1]
  {
    var edges := WithScaling(cfg, it.topMip, After(cfg, it, p)).edges;
    var rank := t => Rank(it.topMip, t);
    forall e | e in edges
      ensures rank(e.0) < rank(e.1)
    {
      OverlayRaisesRank(cfg, it, p, e);
    }
    NoCycle(edges, rank, path);
  }
}
