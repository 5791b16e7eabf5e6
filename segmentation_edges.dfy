/**
 * The dependencies of the two stage graphs once the driver loop has handled
 * the chunks p: one lemma per family of edges, each an exact
 * characterisation, and EdgesAsExpected gathering them.
 */
module SegmentationEdges {
  import opened Chunks
  import opened Tasks
  import opened Segmentation
  import opened Graphs

  /** Chunk a had its generate task when b was handled (at some handling of b). */
  predicate BuiltBy(p: seq<Chunk>, a: Chunk, b: Chunk)
  {
    p != [] && ((p[|p| - 1] == b && a in p) || BuiltBy(p[..|p| - 1], a, b))
  }

  // ---------------------------------------------------------------------
  // Which edges one chunk contributes, family by family
  // ---------------------------------------------------------------------

  lemma NodeGenGen(cfg: Config, it: ChunkIterator, gen: map<(Stage, Chunk), Op>, s0: Stage, x: Chunk, s: Stage, c: Chunk, s2: Stage, d: Chunk)
    ensures (Generate(s, c), Generate(s2, d)) !in NodeEdges(cfg, it, gen, s0, x)
  {
  }

  lemma RedGenGen(cfg: Config, T: nat, s0: Stage, x: Chunk, s: Stage, c: Chunk, s2: Stage, d: Chunk)
    ensures (Generate(s, c), Generate(s2, d)) in ReductionEdges(cfg, T, s0, x)
        <==> s == s0 && s2 == s0 && c == x && x.level < T && d == Parent(x) && !OverlapAt(cfg, T, s0, x)
  {
  }

  lemma ChunkGenGen(cfg: Config, it: ChunkIterator, gen: map<(Stage, Chunk), Op>, x: Chunk, s: Stage, c: Chunk, s2: Stage, d: Chunk)
    ensures (Generate(s, c), Generate(s2, d)) in ChunkEdges(cfg, it, gen, x)
        <==> s == s2 && c == x && x.level < it.topMip && d == Parent(x) && !OverlapAt(cfg, it.topMip, s, x)
  {
    NodeGenGen(cfg, it, gen, Ws, x, s, c, s2, d);
    NodeGenGen(cfg, it, gen, Agg, x, s, c, s2, d);
    RedGenGen(cfg, it.topMip, Ws, x, s, c, s2, d);
    RedGenGen(cfg, it.topMip, Agg, x, s, c, s2, d);
    assert s == Ws || s == Agg;
  }

  lemma NodeOvGen(cfg: Config, it: ChunkIterator, gen: map<(Stage, Chunk), Op>, s0: Stage, x: Chunk, c: Chunk, s: Stage, d: Chunk)
    ensures (Overlap(c), Generate(s, d)) !in NodeEdges(cfg, it, gen, s0, x)
  {
  }

  lemma RedOvGen(cfg: Config, T: nat, s0: Stage, x: Chunk, c: Chunk, s: Stage, d: Chunk)
    ensures (Overlap(c), Generate(s, d)) in ReductionEdges(cfg, T, s0, x)
        <==> s0 == Agg && s == Agg && c == x && x.level < T && d == Parent(x) && OverlapAt(cfg, T, Agg, x)
  {
  }

  lemma ChunkOvGen(cfg: Config, it: ChunkIterator, gen: map<(Stage, Chunk), Op>, x: Chunk, c: Chunk, s: Stage, d: Chunk)
    ensures (Overlap(c), Generate(s, d)) in ChunkEdges(cfg, it, gen, x)
        <==> s == Agg && c == x && x.level < it.topMip && d == Parent(x) && OverlapAt(cfg, it.topMip, Agg, x)
  {
    NodeOvGen(cfg, it, gen, Ws, x, c, s, d);
    NodeOvGen(cfg, it, gen, Agg, x, c, s, d);
    RedOvGen(cfg, it.topMip, Ws, x, c, s, d);
    RedOvGen(cfg, it.topMip, Agg, x, c, s, d);
  }

  lemma NodeLevel(cfg: Config, it: ChunkIterator, gen: map<(Stage, Chunk), Op>, s0: Stage, x: Chunk, s: Stage, c: Chunk, s2: Stage, l: nat)
    ensures (Generate(s, c), LevelDone(s2, l)) in NodeEdges(cfg, it, gen, s0, x) <==> s == s0 && s2 == s0 && c == x && l == x.level
  {
  }

  lemma ChunkLevel(cfg: Config, it: ChunkIterator, gen: map<(Stage, Chunk), Op>, x: Chunk, s: Stage, c: Chunk, s2: Stage, l: nat)
    ensures (Generate(s, c), LevelDone(s2, l)) in ChunkEdges(cfg, it, gen, x) <==> s == s2 && c == x && l == x.level
  {
    NodeLevel(cfg, it, gen, Ws, x, s, c, s2, l);
    NodeLevel(cfg, it, gen, Agg, x, s, c, s2, l);
    assert s == Ws || s == Agg;
  }

  lemma NodeRemapGate(cfg: Config, it: ChunkIterator, gen: map<(Stage, Chunk), Op>, s0: Stage, x: Chunk, s: Stage, t: Chunk, s2: Stage, c: Chunk)
    ensures (Generate(s, t), Remap(s2, c)) in NodeEdges(cfg, it, gen, s0, x)
        <==> s == s0 && s2 == s0 && t == Top(it.topMip) && c == x && x.level == BatchLevel(cfg, it.topMip)
  {
  }

  lemma ChunkRemapGate(cfg: Config, it: ChunkIterator, gen: map<(Stage, Chunk), Op>, x: Chunk, s: Stage, t: Chunk, s2: Stage, c: Chunk)
    ensures (Generate(s, t), Remap(s2, c)) in ChunkEdges(cfg, it, gen, x)
        <==> s == s2 && t == Top(it.topMip) && c == x && x.level == BatchLevel(cfg, it.topMip)
  {
    NodeRemapGate(cfg, it, gen, Ws, x, s, t, s2, c);
    NodeRemapGate(cfg, it, gen, Agg, x, s, t, s2, c);
    assert s == Ws || s == Agg;
  }

  lemma NodeInit(cfg: Config, it: ChunkIterator, gen: map<(Stage, Chunk), Op>, s0: Stage, x: Chunk, s: Stage, s2: Stage, c: Chunk)
    ensures (Init(s), Generate(s2, c)) in NodeEdges(cfg, it, gen, s0, x)
        <==> s == s0 && s2 == s0 && c == x && x.level == BatchLevel(cfg, it.topMip)
  {
  }

  lemma ChunkInit(cfg: Config, it: ChunkIterator, gen: map<(Stage, Chunk), Op>, x: Chunk, s: Stage, s2: Stage, c: Chunk)
    ensures (Init(s), Generate(s2, c)) in ChunkEdges(cfg, it, gen, x)
        <==> s == s2 && c == x && x.level == BatchLevel(cfg, it.topMip)
  {
    NodeInit(cfg, it, gen, Ws, x, s, s2, c);
    NodeInit(cfg, it, gen, Agg, x, s, s2, c);
    assert s == Ws || s == Agg;
  }

  lemma NodeRemapDone(cfg: Config, it: ChunkIterator, gen: map<(Stage, Chunk), Op>, s0: Stage, x: Chunk, s: Stage, c: Chunk, s2: Stage)
    ensures (Remap(s, c), RemapDone(s2)) in NodeEdges(cfg, it, gen, s0, x)
        <==> s == s0 && s2 == s0 && c == x && x.level == BatchLevel(cfg, it.topMip)
  {
  }

  lemma ChunkRemapDone(cfg: Config, it: ChunkIterator, gen: map<(Stage, Chunk), Op>, x: Chunk, s: Stage, c: Chunk, s2: Stage)
    ensures (Remap(s, c), RemapDone(s2)) in ChunkEdges(cfg, it, gen, x)
        <==> s == s2 && c == x && x.level == BatchLevel(cfg, it.topMip)
  {
    NodeRemapDone(cfg, it, gen, Ws, x, s, c, s2);
    NodeRemapDone(cfg, it, gen, Agg, x, s, c, s2);
    assert s == Ws || s == Agg;
  }

  lemma NodeMarkDone(cfg: Config, it: ChunkIterator, gen: map<(Stage, Chunk), Op>, s0: Stage, x: Chunk, s: Stage, s2: Stage)
    ensures (RemapDone(s), MarkDone(s2)) !in NodeEdges(cfg, it, gen, s0, x)
  {
  }

  lemma RedMarkDone(cfg: Config, T: nat, s0: Stage, x: Chunk, s: Stage, s2: Stage)
    ensures (RemapDone(s), MarkDone(s2)) !in ReductionEdges(cfg, T, s0, x)
  {
  }

  lemma ChunkMarkDone(cfg: Config, it: ChunkIterator, gen: map<(Stage, Chunk), Op>, x: Chunk, s: Stage, s2: Stage)
    ensures (RemapDone(s), MarkDone(s2)) !in ChunkEdges(cfg, it, gen, x)
  {
    NodeMarkDone(cfg, it, gen, Ws, x, s, s2);
    NodeMarkDone(cfg, it, gen, Agg, x, s, s2);
    RedMarkDone(cfg, it.topMip, Ws, x, s, s2);
    RedMarkDone(cfg, it.topMip, Agg, x, s, s2);
  }

  lemma NodeOverlapDone(cfg: Config, it: ChunkIterator, gen: map<(Stage, Chunk), Op>, s0: Stage, x: Chunk, c: Chunk)
    ensures (Overlap(c), OverlapDone) in NodeEdges(cfg, it, gen, s0, x)
        <==> s0 == Agg && c == x && x.level == BatchLevel(cfg, it.topMip) && OverlapOn(cfg, it.topMip)
  {
  }

  lemma ChunkOverlapDone(cfg: Config, it: ChunkIterator, gen: map<(Stage, Chunk), Op>, x: Chunk, c: Chunk)
    ensures (Overlap(c), OverlapDone) in ChunkEdges(cfg, it, gen, x)
        <==> c == x && x.level == BatchLevel(cfg, it.topMip) && OverlapOn(cfg, it.topMip)
  {
    NodeOverlapDone(cfg, it, gen, Ws, x, c);
    NodeOverlapDone(cfg, it, gen, Agg, x, c);
  }

  /** The overlap wiring chunk x declares: neighbours already built feed x, and x feeds them. */
  lemma NeighbourMembers(ns: seq<Chunk>, gen: map<(Stage, Chunk), Op>, x: Chunk, s: Stage, a: Chunk, b: Chunk)
    ensures (Generate(s, a), Overlap(b)) in NeighbourEdges(ns, gen, x)
        <==> (s == Agg
              && ((b == x && a in ns && a.level == x.level && (Agg, a) in gen)
               || (a == x && b in ns && b.level == x.level && (Agg, b) in gen && b != x)))
  {
    if s == Agg && b == x && a in ns && a.level == x.level && (Agg, a) in gen {
      assert (Generate(Agg, a), Overlap(x)) in (set n | n in ns && n.level == x.level && (Agg, n) in gen :: (Generate(Agg, n), Overlap(x)));
    }
    if s == Agg && a == x && b in ns && b.level == x.level && (Agg, b) in gen && b != x {
      assert (Generate(Agg, x), Overlap(b)) in (set n | n in ns && n.level == x.level && (Agg, n) in gen && n != x :: (Generate(Agg, x), Overlap(n)));
    }
  }

  lemma NodeNeighbour(cfg: Config, it: ChunkIterator, gen: map<(Stage, Chunk), Op>, s0: Stage, x: Chunk, s: Stage, a: Chunk, b: Chunk)
    ensures (Generate(s, a), Overlap(b)) in NodeEdges(cfg, it, gen, s0, x)
        <==> (s0 == Agg && x.level == BatchLevel(cfg, it.topMip) && OverlapOn(cfg, it.topMip)
              && (Generate(s, a), Overlap(b)) in NeighbourEdges(it.neighbours(x), gen, x))
  {
  }

  lemma ChunkNeighbour(cfg: Config, it: ChunkIterator, gen: map<(Stage, Chunk), Op>, x: Chunk, s: Stage, a: Chunk, b: Chunk)
    ensures (Generate(s, a), Overlap(b)) in ChunkEdges(cfg, it, gen, x)
        <==> (x.level == BatchLevel(cfg, it.topMip) && OverlapOn(cfg, it.topMip) && s == Agg
              && ((b == x && a in it.neighbours(x) && a.level == x.level && (Agg, a) in gen)
               || (a == x && b in it.neighbours(x) && b.level == x.level && (Agg, b) in gen && b != x)))
  {
    NodeNeighbour(cfg, it, gen, Ws, x, s, a, b);
    NodeNeighbour(cfg, it, gen, Agg, x, s, a, b);
    NeighbourMembers(it.neighbours(x), gen, x, s, a, b);
  }

  // ---------------------------------------------------------------------
  // The edges after the driver loop, family by family
  // ---------------------------------------------------------------------

  /** Reduction edge from a generate task: to the parent's generate task, unless it leaves from the overlap task. */
  lemma {:induction false} ReductionEdgeKey(cfg: Config, it: ChunkIterator, p: seq<Chunk>, s: Stage, c: Chunk, s2: Stage, d: Chunk)
    requires AtOrAbove(cfg, it.topMip, p)
    ensures (Generate(s, c), Generate(s2, d)) in After(cfg, it, p).edges
        <==> s == s2 && c in p && c.level < it.topMip && d == Parent(c) && !OverlapAt(cfg, it.topMip, s, c)
  {
    if p != [] {
      var q, x := p[..|p| - 1], p[|p| - 1];
      assert p == q + [x];
      ReductionEdgeKey(cfg, it, q, s, c, s2, d);
      ChunkGenGen(cfg, it, Step(cfg, it, After(cfg, it, q), x).generate, x, s, c, s2, d);
      StepFields(cfg, it, After(cfg, it, q), x);
    }
  }

  /** Reduction edge from an overlap task: only in the agglomeration stage, at BATCH_MIP, with overlap on. */
  lemma {:induction false} OverlapReductionKey(cfg: Config, it: ChunkIterator, p: seq<Chunk>, c: Chunk, s: Stage, d: Chunk)
    requires AtOrAbove(cfg, it.topMip, p)
    ensures (Overlap(c), Generate(s, d)) in After(cfg, it, p).edges
        <==> s == Agg && c in p && c.level < it.topMip && d == Parent(c) && OverlapAt(cfg, it.topMip, Agg, c)
  {
    if p != [] {
      var q, x := p[..|p| - 1], p[|p| - 1];
      assert p == q + [x];
      OverlapReductionKey(cfg, it, q, c, s, d);
      ChunkOvGen(cfg, it, Step(cfg, it, After(cfg, it, q), x).generate, x, c, s, d);
      StepFields(cfg, it, After(cfg, it, q), x);
    }
  }

  /** Every generate task precedes its level's milestone, and nothing else does. */
  lemma {:induction false} LevelEdgeKey(cfg: Config, it: ChunkIterator, p: seq<Chunk>, s: Stage, c: Chunk, s2: Stage, l: nat)
    requires AtOrAbove(cfg, it.topMip, p)
    ensures (Generate(s, c), LevelDone(s2, l)) in After(cfg, it, p).edges <==> s == s2 && c in p && l == c.level
  {
    if p != [] {
      var q, x := p[..|p| - 1], p[|p| - 1];
      assert p == q + [x];
      LevelEdgeKey(cfg, it, q, s, c, s2, l);
      ChunkLevel(cfg, it, Step(cfg, it, After(cfg, it, q), x).generate, x, s, c, s2, l);
      StepFields(cfg, it, After(cfg, it, q), x);
    }
  }

  /** Every batch-level remap task waits for its stage's top task, and for nothing else. */
  lemma {:induction false} RemapGateKey(cfg: Config, it: ChunkIterator, p: seq<Chunk>, s: Stage, t: Chunk, s2: Stage, c: Chunk)
    requires AtOrAbove(cfg, it.topMip, p)
    ensures (Generate(s, t), Remap(s2, c)) in After(cfg, it, p).edges
        <==> s == s2 && t == Top(it.topMip) && c in p && c.level == BatchLevel(cfg, it.topMip)
  {
    if p != [] {
      var q, x := p[..|p| - 1], p[|p| - 1];
      assert p == q + [x];
      RemapGateKey(cfg, it, q, s, t, s2, c);
      ChunkRemapGate(cfg, it, Step(cfg, it, After(cfg, it, q), x).generate, x, s, t, s2, c);
      StepFields(cfg, it, After(cfg, it, q), x);
    }
  }

  /** The stage's init task precedes exactly the batch-level generate tasks. */
  lemma {:induction false} InitEdgeKey(cfg: Config, it: ChunkIterator, p: seq<Chunk>, s: Stage, s2: Stage, c: Chunk)
    requires AtOrAbove(cfg, it.topMip, p)
    ensures (Init(s), Generate(s2, c)) in After(cfg, it, p).edges
        <==> s == s2 && c in p && c.level == BatchLevel(cfg, it.topMip)
  {
    if p != [] {
      var q, x := p[..|p| - 1], p[|p| - 1];
      assert p == q + [x];
      InitEdgeKey(cfg, it, q, s, s2, c);
      ChunkInit(cfg, it, Step(cfg, it, After(cfg, it, q), x).generate, x, s, s2, c);
      StepFields(cfg, it, After(cfg, it, q), x);
    }
  }

  /** The remap milestone of a stage waits for every remap task of that stage. */
  lemma {:induction false} RemapDoneKey(cfg: Config, it: ChunkIterator, p: seq<Chunk>, s: Stage, c: Chunk, s2: Stage)
    requires AtOrAbove(cfg, it.topMip, p)
    ensures (Remap(s, c), RemapDone(s2)) in After(cfg, it, p).edges
        <==> s == s2 && c in p && c.level == BatchLevel(cfg, it.topMip)
  {
    if p != [] {
      var q, x := p[..|p| - 1], p[|p| - 1];
      assert p == q + [x];
      RemapDoneKey(cfg, it, q, s, c, s2);
      ChunkRemapDone(cfg, it, Step(cfg, it, After(cfg, it, q), x).generate, x, s, c, s2);
      StepFields(cfg, it, After(cfg, it, q), x);
    }
  }

  /** The remap milestone of a stage precedes its mark-done task once the batch level is reached. */
  lemma {:induction false} MarkDoneKey(cfg: Config, it: ChunkIterator, p: seq<Chunk>, s: Stage, s2: Stage)
    requires AtOrAbove(cfg, it.topMip, p)
    ensures (RemapDone(s), MarkDone(s2)) in After(cfg, it, p).edges
        <==> s == s2 && BatchLevel(cfg, it.topMip) in Levels(p)
  {
    if p != [] {
      var q, x := p[..|p| - 1], p[|p| - 1];
      assert p == q + [x];
      MarkDoneKey(cfg, it, q, s, s2);
      ChunkMarkDone(cfg, it, Step(cfg, it, After(cfg, it, q), x).generate, x, s, s2);
      StepFields(cfg, it, After(cfg, it, q), x);
    }
  }

  /** With overlap on, the overlap milestone waits for every overlap task. */
  lemma {:induction false} OverlapDoneKey(cfg: Config, it: ChunkIterator, p: seq<Chunk>, c: Chunk)
    requires AtOrAbove(cfg, it.topMip, p)
    ensures (Overlap(c), OverlapDone) in After(cfg, it, p).edges
        <==> OverlapOn(cfg, it.topMip) && c in p && c.level == BatchLevel(cfg, it.topMip)
  {
    if p != [] {
      var q, x := p[..|p| - 1], p[|p| - 1];
      assert p == q + [x];
      OverlapDoneKey(cfg, it, q, c);
      ChunkOverlapDone(cfg, it, Step(cfg, it, After(cfg, it, q), x).generate, x, c);
      StepFields(cfg, it, After(cfg, it, q), x);
    }
  }

  /**
   * Overlap wiring: in the agglomeration stage, with overlap on, between
   * batch-level neighbours, in whichever direction the chunk handled second
   * declared it.
   */
  lemma {:induction false} NeighbourKey(cfg: Config, it: ChunkIterator, p: seq<Chunk>, s: Stage, a: Chunk, b: Chunk)
    requires AtOrAbove(cfg, it.topMip, p)
    ensures (Generate(s, a), Overlap(b)) in After(cfg, it, p).edges
        <==> (s == Agg && OverlapOn(cfg, it.topMip)
              && a.level == BatchLevel(cfg, it.topMip) && b.level == BatchLevel(cfg, it.topMip)
              && ((a in it.neighbours(b) && BuiltBy(p, a, b))
               || (b in it.neighbours(a) && a != b && BuiltBy(p, b, a))))
  {
    if p != [] {
      var q, x := p[..|p| - 1], p[|p| - 1];
      assert p == q + [x];
      NeighbourKey(cfg, it, q, s, a, b);
      GenerateKey(cfg, it, q, Agg, a);
      GenerateKey(cfg, it, q, Agg, b);
      ChunkNeighbour(cfg, it, Step(cfg, it, After(cfg, it, q), x).generate, x, s, a, b);
      StepFields(cfg, it, After(cfg, it, q), x);
    }
  }

  // ---------------------------------------------------------------------
  // Nothing else: the complete edge set
  // ---------------------------------------------------------------------

  /** The shapes of dependency process_composite_tasks and the driver loop declare. */
  predicate Shaped(e: Edge)
  {
    || (e.0.Generate? && (e.1.Generate? || e.1.LevelDone? || e.1.Remap? || e.1.Overlap?))
    || (e.0.Overlap? && (e.1.Generate? || e.1.OverlapDone?))
    || (e.0.Init? && e.1.Generate?)
    || (e.0.Remap? && e.1.RemapDone?)
    || (e.0.RemapDone? && e.1.MarkDone?)
  }

  lemma NodeShaped(cfg: Config, it: ChunkIterator, gen: map<(Stage, Chunk), Op>, s0: Stage, x: Chunk, e: Edge)
    requires e in NodeEdges(cfg, it, gen, s0, x)
    ensures Shaped(e)
  {
  }

  lemma RedShaped(cfg: Config, T: nat, s0: Stage, x: Chunk, e: Edge)
    requires e in ReductionEdges(cfg, T, s0, x)
    ensures Shaped(e)
  {
  }

  lemma ChunkShaped(cfg: Config, it: ChunkIterator, gen: map<(Stage, Chunk), Op>, x: Chunk, e: Edge)
    requires e in ChunkEdges(cfg, it, gen, x)
    ensures Shaped(e)
  {
    if e in NodeEdges(cfg, it, gen, Ws, x) {
      NodeShaped(cfg, it, gen, Ws, x, e);
    } else if e in NodeEdges(cfg, it, gen, Agg, x) {
      NodeShaped(cfg, it, gen, Agg, x, e);
    } else if e in ReductionEdges(cfg, it.topMip, Ws, x) {
      RedShaped(cfg, it.topMip, Ws, x, e);
    } else {
      RedShaped(cfg, it.topMip, Agg, x, e);
    }
  }

  /** Every dependency of the built graph has one of the declared shapes. */
  lemma {:induction false} EdgesShaped(cfg: Config, it: ChunkIterator, p: seq<Chunk>, e: Edge)
    requires AtOrAbove(cfg, it.topMip, p)
    requires e in After(cfg, it, p).edges
    ensures Shaped(e)
  {
    var q, x := p[..|p| - 1], p[|p| - 1];
    assert p == q + [x];
    var g := After(cfg, it, q);
    StepFields(cfg, it, g, x);
    var lbm := BatchLevel(cfg, it.topMip);
    if e in g.edges {
      EdgesShaped(cfg, it, q, e);
    } else if e !in MarkEdges(x.level, lbm) {
      ChunkShaped(cfg, it, Step(cfg, it, g, x).generate, x, e);
    }
  }

  /** The dependencies of the stage graphs after the driver loop has handled p. */
  predicate ExpectedEdge(cfg: Config, it: ChunkIterator, p: seq<Chunk>, e: Edge)
  {
    var T := it.topMip;
    var lbm := BatchLevel(cfg, T);
    match e
    case (Generate(s, c), Generate(s2, d)) =>
      s == s2 && c in p && c.level < T && d == Parent(c) && !OverlapAt(cfg, T, s, c)
    case (Overlap(c), Generate(s, d)) =>
      s == Agg && c in p && c.level < T && d == Parent(c) && OverlapAt(cfg, T, Agg, c)
    case (Generate(s, c), LevelDone(s2, l)) =>
      s == s2 && c in p && l == c.level
    case (Generate(s, t), Remap(s2, c)) =>
      s == s2 && t == Top(T) && c in p && c.level == lbm
    case (Generate(s, a), Overlap(b)) =>
      && s == Agg && OverlapOn(cfg, T) && a.level == lbm && b.level == lbm
      && ((a in it.neighbours(b) && BuiltBy(p, a, b)) || (b in it.neighbours(a) && a != b && BuiltBy(p, b, a)))
    case (Init(s), Generate(s2, c)) =>
      s == s2 && c in p && c.level == lbm
    case (Remap(s, c), RemapDone(s2)) =>
      s == s2 && c in p && c.level == lbm
    case (RemapDone(s), MarkDone(s2)) =>
      s == s2 && lbm in Levels(p)
    case (Overlap(c), OverlapDone) =>
      OverlapOn(cfg, T) && c in p && c.level == lbm
    case _ => false
  }

  /** The built graph has exactly the expected dependencies. */
  lemma EdgeKey(cfg: Config, it: ChunkIterator, p: seq<Chunk>, e: Edge)
    requires AtOrAbove(cfg, it.topMip, p)
    ensures e in After(cfg, it, p).edges <==> ExpectedEdge(cfg, it, p, e)
  {
    match e
    case (Generate(s, c), Generate(s2, d)) => ReductionEdgeKey(cfg, it, p, s, c, s2, d);
    case (Overlap(c), Generate(s, d)) => OverlapReductionKey(cfg, it, p, c, s, d);
    case (Generate(s, c), LevelDone(s2, l)) => LevelEdgeKey(cfg, it, p, s, c, s2, l);
    case (Generate(s, t), Remap(s2, c)) => RemapGateKey(cfg, it, p, s, t, s2, c);
    case (Generate(s, a), Overlap(b)) => NeighbourKey(cfg, it, p, s, a, b);
    case (Init(s), Generate(s2, c)) => InitEdgeKey(cfg, it, p, s, s2, c);
    case (Remap(s, c), RemapDone(s2)) => RemapDoneKey(cfg, it, p, s, c, s2);
    case (RemapDone(s), MarkDone(s2)) => MarkDoneKey(cfg, it, p, s, s2);
    case (Overlap(c), OverlapDone) => OverlapDoneKey(cfg, it, p, c);
    case _ =>
      if e in After(cfg, it, p).edges {
        EdgesShaped(cfg, it, p, e);
      }
  }

  // ---------------------------------------------------------------------
  // Consequences
  // ---------------------------------------------------------------------

  /**
   * Each handled chunk has, per stage, exactly one reduction edge: from its
   * reduction source to the parent's generate task of the same stage, and
   * only when it is below the top. Its other task in that stage has none.
   */
  lemma OneReductionEdge(cfg: Config, it: ChunkIterator, p: seq<Chunk>, s: Stage, c: Chunk)
    requires AtOrAbove(cfg, it.topMip, p)
    requires c in p
    ensures forall d :: (ReductionSource(cfg, it.topMip, s, c), Generate(s, d)) in After(cfg, it, p).edges
                        <==> c.level < it.topMip && d == Parent(c)
    ensures forall t, d :: t in {Generate(s, c), Overlap(c)} && (t, Generate(s, d)) in After(cfg, it, p).edges
                           ==> t == ReductionSource(cfg, it.topMip, s, c)
  {
    forall t, d ensures (t == Generate(s, c) || t == Overlap(c)) ==>
                          ((t, Generate(s, d)) in After(cfg, it, p).edges <==>
                           (t == ReductionSource(cfg, it.topMip, s, c) && c.level < it.topMip && d == Parent(c)))
    {
      ReductionEdgeKey(cfg, it, p, s, c, s, d);
      OverlapReductionKey(cfg, it, p, c, s, d);
    }
  }

  /** Chunk a and chunk b are among the handled chunks when BuiltBy(p, a, b). */
  lemma {:induction false} BuiltByMembers(p: seq<Chunk>, a: Chunk, b: Chunk)
    requires BuiltBy(p, a, b)
    ensures a in p && b in p
  {
    var q, x := p[..|p| - 1], p[|p| - 1];
    assert p == q + [x];
    if !(x == b && a in p) {
      BuiltByMembers(q, a, b);
    }
  }

  /**
   * A rank for the tasks of the stage graphs: init first, then the chunk
   * tasks level by level from the batch level up (generate before overlap),
   * then the remaps, the milestones, mark-done, the scaling tasks.
   */
  function Rank(topMip: nat, t: Task): (r: int)
    ensures r >= 0
  {
    match t
    case Init(_) => 0
    case Generate(_, c) => 2 * c.level + 1
    case Overlap(c) => 2 * c.level + 2
    case Remap(_, _) => 2 * topMip + 2
    case LevelDone(_, _) => 2 * topMip + 3
    case RemapDone(_) => 2 * topMip + 3
    case OverlapDone => 2 * topMip + 3
    case MarkDone(_) => 2 * topMip + 4
    case Scale(_, _) => 2 * topMip + 5
    case Finish => 2 * topMip + 6
  }

  /** Every dependency of the built graph goes up in rank. */
  lemma EdgesRaiseRank(cfg: Config, it: ChunkIterator, p: seq<Chunk>, e: Edge)
    requires Admissible(cfg, it, p)
    requires e in After(cfg, it, p).edges
    ensures Rank(it.topMip, e.0) < Rank(it.topMip, e.1)
  {
    match e
    case (Generate(s, c), Generate(s2, d)) => ReductionEdgeKey(cfg, it, p, s, c, s2, d);
    case (Overlap(c), Generate(s, d)) => OverlapReductionKey(cfg, it, p, c, s, d);
    case (Generate(s, c), LevelDone(s2, l)) =>
      LevelEdgeKey(cfg, it, p, s, c, s2, l);
      PrefixClosed(it, p, c);
    case (Generate(s, t), Remap(s2, c)) => RemapGateKey(cfg, it, p, s, t, s2, c);
    case (Generate(s, a), Overlap(b)) => NeighbourKey(cfg, it, p, s, a, b);
    case (Init(s), Generate(s2, c)) =>
    case (Remap(s, c), RemapDone(s2)) =>
    case (RemapDone(s), MarkDone(s2)) =>
    case (Overlap(c), OverlapDone) =>
      OverlapDoneKey(cfg, it, p, c);
      PrefixClosed(it, p, c);
    case _ => EdgesShaped(cfg, it, p, e);
  }

  /** The stage graphs built by the driver loop have no cycle. */
  lemma BuiltGraphAcyclic(cfg: Config, it: ChunkIterator, p: seq<Chunk>, path: seq<Task>)
    requires Admissible(cfg, it, p)
    requires IsPath(After(cfg, it, p).edges, path) && |path| >= 2
    ensures path[0] != path[|path| - 1]
  {
    var rank := t => Rank(it.topMip, t);
    forall e | e in After(cfg, it, p).edges
      ensures rank(e.0) < rank(e.1)
    {
      EdgesRaiseRank(cfg, it, p, e);
    }
    NoCycle(After(cfg, it, p).edges, rank, path);
  }

  /** Every dependency joins two tasks the builder has created: every lookup the source does hits. */
  lemma EdgesDeclared(cfg: Config, it: ChunkIterator, p: seq<Chunk>, e: Edge)
    requires Admissible(cfg, it, p)
    requires e in After(cfg, it, p).edges
    ensures Declared(After(cfg, it, p), e.0) && Declared(After(cfg, it, p), e.1)
  {
    var T := it.topMip;
    var lbm := BatchLevel(cfg, T);
    EdgeKey(cfg, it, p, e);
    match e
    case (Generate(s, c), Generate(_, d)) =>
      PrefixClosed(it, p, c);
      GenerateKey(cfg, it, p, s, c);
      GenerateKey(cfg, it, p, s, d);
    case (Overlap(c), Generate(s, d)) =>
      PrefixClosed(it, p, c);
      OverlapKey(cfg, it, p, c);
      GenerateKey(cfg, it, p, s, d);
    case (Generate(s, c), LevelDone(_, l)) =>
      GenerateKey(cfg, it, p, s, c);
      LevelsMembers(p, l);
      MilestoneKey(cfg, it, p, LevelDone(s, l));
    case (Generate(s, t), Remap(_, c)) =>
      PrefixClosed(it, p, c);
      GenerateKey(cfg, it, p, s, t);
      RemapKey(cfg, it, p, s, c);
    case (Generate(s, a), Overlap(b)) =>
      if BuiltBy(p, a, b) {
        BuiltByMembers(p, a, b);
      } else {
        BuiltByMembers(p, b, a);
      }
      GenerateKey(cfg, it, p, s, a);
      OverlapKey(cfg, it, p, b);
    case (Init(_), Generate(s, c)) =>
      GenerateKey(cfg, it, p, s, c);
    case (Remap(s, c), RemapDone(_)) =>
      RemapKey(cfg, it, p, s, c);
      LevelsMembers(p, lbm);
      MilestoneKey(cfg, it, p, RemapDone(s));
    case (RemapDone(s), MarkDone(_)) =>
      MilestoneKey(cfg, it, p, RemapDone(s));
    case (Overlap(c), OverlapDone) =>
      OverlapKey(cfg, it, p, c);
      MilestoneKey(cfg, it, p, OverlapDone);
    case _ =>
  }
}
