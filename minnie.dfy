/**
 * The older single-graph variant "ranl_minnie_seg": both stages in one
 * graph, batch level fixed at 2 with no clamp to the top level, HIGH_MIP
 * fixed at 5, one "composite" queue for the deep levels, and an explicit
 * barrier between the stages: every watershed remap precedes
 * Init_Agglomeration, and every agglomeration remap precedes Finish.
 */
module Minnie {
  import opened Chunks
  import opened Tasks
  import opened Graphs

  /** batch_mip and high_mip of this variant. */
  const MinnieBatchMip: nat := 2
  const MinnieHighMip: nat := 5

  /** The kind and queue of a chunk's generate task: wrap tasks of the deep levels on the single "composite" queue. */
  function MinnieOp(c: Chunk): (op: Op)
    ensures op.queue == Composite <==> c.level > MinnieBatchMip && c.level >= MinnieHighMip
    ensures op.kind == Batch <==> c.level <= MinnieBatchMip
  {
    if c.level > MinnieBatchMip then Op(Wrap, if c.level < MinnieHighMip then Atomic else Composite)
    else Op(Batch, Atomic)
  }

  /** The dictionaries generate_chunks_ws/agg and remap_chunks_ws/agg, and the dependencies. */
  datatype MGraph = MGraph(generate: map<(Stage, Chunk), Op>, remap: map<(Stage, Chunk), Op>, edges: set<Edge>)

  /** The task exists: the two init tasks and Finish always do. */
  predicate MDeclared(g: MGraph, t: Task)
  {
    match t
    case Generate(s, c) => (s, c) in g.generate
    case Remap(s, c) => (s, c) in g.remap
    case Init(_) => true
    case Finish => true
    case _ => false
  }

  /** The edges of a batch-level chunk: remaps gated by the top, inits before the batch tasks, and the cross-stage barrier. */
  function MBatchEdges(topMip: nat, c: Chunk): set<Edge>
  {
    {(Generate(Ws, Top(topMip)), Remap(Ws, c)), (Generate(Agg, Top(topMip)), Remap(Agg, c)),
     (Init(Ws), Generate(Ws, c)), (Init(Agg), Generate(Agg, c)),
     (Remap(Ws, c), Init(Agg)), (Remap(Agg, c), Finish)}
  }

  /** The reduction edges of a chunk below the top, in both stages. */
  function MReductionEdges(topMip: nat, c: Chunk): set<Edge>
  {
    if c.level < topMip then {(Generate(Ws, c), Generate(Ws, Parent(c))), (Generate(Agg, c), Generate(Agg, Parent(c)))} else {}
  }

  function MChunkEdges(topMip: nat, c: Chunk): set<Edge>
  {
    (if c.level == MinnieBatchMip then MBatchEdges(topMip, c) else {}) + MReductionEdges(topMip, c)
  }

  /** process_composite_tasks(c, top_mip) of this variant. */
  function MProcess(topMip: nat, g: MGraph, c: Chunk): MGraph
  {
    if c.level < MinnieBatchMip then g
    else
      MGraph(g.generate[(Ws, c) := MinnieOp(c)][(Agg, c) := MinnieOp(c)],
             if c.level == MinnieBatchMip then g.remap[(Ws, c) := Op(RemapKind, Atomic)][(Agg, c) := Op(RemapKind, Atomic)] else g.remap,
             g.edges + MChunkEdges(topMip, c))
  }

  /** The graph after the loop has handled the chunks of p. */
  function MAfter(topMip: nat, p: seq<Chunk>): MGraph
  {
    if p == [] then MGraph(map[], map[], {}) else MProcess(topMip, MAfter(topMip, p[..|p| - 1]), p[|p| - 1])
  }

  /** What must exist before process_composite_tasks(c): the top tasks (unless c is the top) and the parent tasks. */
  predicate MReady(topMip: nat, g: MGraph, c: Chunk)
  {
    && (c.level == MinnieBatchMip && c != Top(topMip) ==> (Ws, Top(topMip)) in g.generate && (Agg, Top(topMip)) in g.generate)
    && (c.level >= MinnieBatchMip && c.level < topMip ==> (Ws, Parent(c)) in g.generate && (Agg, Parent(c)) in g.generate)
  }

  /** The graph of this variant, built in place. */
  class MinnieDag {
    const it: ChunkIterator
    var generate: map<(Stage, Chunk), Op>
    var remap: map<(Stage, Chunk), Op>
    var edges: set<Edge>

    function Snapshot(): MGraph
      reads this
    {
      MGraph(generate, remap, edges)
    }

    constructor (it: ChunkIterator)
      ensures this.it == it && Snapshot() == MGraph(map[], map[], {})
    {
      this.it := it;
      generate, remap, edges := map[], map[], {};
    }

    /** a.set_downstream(b): both tasks must exist. */
    method Link(a: Task, b: Task)
      requires MDeclared(Snapshot(), a) && MDeclared(Snapshot(), b)
      modifies this`edges
      ensures edges == old(edges) + {(a, b)}
    {
      edges := edges + {(a, b)};
    }

    /** process_composite_tasks(c, top_mip). */
    method ProcessCompositeTasks(c: Chunk)
      requires MReady(it.topMip, Snapshot(), c)
      modifies this
      ensures Snapshot() == MProcess(it.topMip, old(Snapshot()), c)
    {
      if c.level < MinnieBatchMip {
        return;
      }
      if c.level > MinnieBatchMip {
        var queue := if c.level < MinnieHighMip then Atomic else Composite;
        generate := generate[(Ws, c) := Op(Wrap, queue)][(Agg, c) := Op(Wrap, queue)];
      } else {
        AddBatchLevel(c);
      }
      if c.level < it.topMip {
        AddReduction(c);
      }
    }

    /** The batch, remap and barrier tasks of a chunk at level 2, in both stages. */
    method AddBatchLevel(c: Chunk)
      requires c.level == MinnieBatchMip
      requires c != Top(it.topMip) ==> (Ws, Top(it.topMip)) in generate && (Agg, Top(it.topMip)) in generate
      modifies this
      ensures generate == old(generate)[(Ws, c) := Op(Batch, Atomic)][(Agg, c) := Op(Batch, Atomic)]
      ensures remap == old(remap)[(Ws, c) := Op(RemapKind, Atomic)][(Agg, c) := Op(RemapKind, Atomic)]
      ensures edges == old(edges) + MBatchEdges(it.topMip, c)
    {
      generate := generate[(Ws, c) := Op(Batch, Atomic)];
      remap := remap[(Ws, c) := Op(RemapKind, Atomic)];
      generate := generate[(Agg, c) := Op(Batch, Atomic)];
      remap := remap[(Agg, c) := Op(RemapKind, Atomic)];
      LinkBatch(c);
    }

    /** The six dependencies of a batch-level chunk whose tasks and top tasks exist. */
    method LinkBatch(c: Chunk)
      requires (Ws, c) in generate && (Agg, c) in generate && (Ws, c) in remap && (Agg, c) in remap
      requires (Ws, Top(it.topMip)) in generate && (Agg, Top(it.topMip)) in generate
      modifies this`edges
      ensures edges == old(edges) + MBatchEdges(it.topMip, c)
    {
      var T := it.topMip;
      Link(Generate(Ws, Top(T)), Remap(Ws, c));
      Link(Generate(Agg, Top(T)), Remap(Agg, c));
      Link(Init(Ws), Generate(Ws, c));
      Link(Init(Agg), Generate(Agg, c));
      Link(Remap(Ws, c), Init(Agg));
      Link(Remap(Agg, c), Finish);
    }

    /** The reduction edges from a chunk's tasks to its parent's, in both stages. */
    method AddReduction(c: Chunk)
      requires c.level < it.topMip
      requires (Ws, c) in generate && (Agg, c) in generate
      requires (Ws, Parent(c)) in generate && (Agg, Parent(c)) in generate
      modifies this`edges
      ensures edges == old(edges) + MReductionEdges(it.topMip, c)
    {
      Link(Generate(Ws, c), Generate(Ws, Parent(c)));
      Link(Generate(Agg, c), Generate(Agg, Parent(c)));
    }

    /** The loop over the iterator: stop at the first chunk below level 2. */
    method BuildGraph()
      requires it.Valid()
      requires Snapshot() == MGraph(map[], map[], {})
      modifies this
      ensures Snapshot() == MAfter(it.topMip, Processed(it.chunks, MinnieBatchMip))
    {
      var cs := it.chunks;
      var i := 0;
      while i < |cs|
        invariant 0 <= i <= |cs|
        invariant forall j :: 0 <= j < i ==> cs[j].level >= MinnieBatchMip
        invariant Snapshot() == MAfter(it.topMip, cs[..i])
      {
        var c := cs[i];
        if c.level < MinnieBatchMip {
          break;
        }
        assert cs[..i + 1] == cs[..i] + [c];
        assert cs[..i + 1] <= cs;
        Ready(it, cs[..i], c);
        ProcessCompositeTasks(c);
        assert cs[..i + 1][..i] == cs[..i];
        i := i + 1;
      }
      ProcessedIsLoopPrefix(cs, MinnieBatchMip, i);
    }
  }

  /** Every handled chunk is at level 2 or above. */
  predicate FromBatchUp(p: seq<Chunk>)
  {
    forall c :: c in p ==> c.level >= MinnieBatchMip
  }

  /** Generate tasks: one per handled chunk and stage, with MinnieOp's kind and queue. */
  lemma {:induction false} MGenerateKey(topMip: nat, p: seq<Chunk>, s: Stage, c: Chunk)
    requires FromBatchUp(p)
    ensures (s, c) in MAfter(topMip, p).generate <==> c in p
    ensures (s, c) in MAfter(topMip, p).generate ==> MAfter(topMip, p).generate[(s, c)] == MinnieOp(c)
  {
    if p != [] {
      var q, d := p[..|p| - 1], p[|p| - 1];
      assert p == q + [d];
      MGenerateKey(topMip, q, s, c);
    }
  }

  /** Remap tasks: one per handled chunk at level 2 and stage. */
  lemma {:induction false} MRemapKey(topMip: nat, p: seq<Chunk>, s: Stage, c: Chunk)
    requires FromBatchUp(p)
    ensures (s, c) in MAfter(topMip, p).remap <==> c in p && c.level == MinnieBatchMip
    ensures (s, c) in MAfter(topMip, p).remap ==> MAfter(topMip, p).remap[(s, c)] == Op(RemapKind, Atomic)
  {
    if p != [] {
      var q, d := p[..|p| - 1], p[|p| - 1];
      assert p == q + [d];
      MRemapKey(topMip, q, s, c);
    }
  }

  /** Before chunk c of a valid iteration, its parent's and the top's tasks exist. */
  lemma Ready(it: ChunkIterator, p: seq<Chunk>, c: Chunk)
    requires it.Valid() && p + [c] <= it.chunks
    requires FromBatchUp(p)
    ensures MReady(it.topMip, MAfter(it.topMip, p), c)
  {
    PrefixStep(it, p, c);
    var T := it.topMip;
    MGenerateKey(T, p, Ws, Top(T));
    MGenerateKey(T, p, Agg, Top(T));
    if c.level < T {
      MGenerateKey(T, p, Ws, Parent(c));
      MGenerateKey(T, p, Agg, Parent(c));
    }
  }

  /** Without a clamp, a volume whose top level is below 2 gets no chunk task at all. */
  lemma NoTasksBelowBatchTop(it: ChunkIterator)
    requires it.Valid() && it.topMip < MinnieBatchMip
    ensures MAfter(it.topMip, Processed(it.chunks, MinnieBatchMip)) == MGraph(map[], map[], {})
  {
    var p := Processed(it.chunks, MinnieBatchMip);
    if p != [] {
      PrefixClosed(it, p, p[0]);
      assert false;
    }
  }

  /** The dependencies of the built graph, by shape. */
  predicate MExpected(topMip: nat, p: seq<Chunk>, e: Edge)
  {
    match e
    case (Generate(s, c), Generate(s2, d)) => s == s2 && c in p && c.level < topMip && d == Parent(c)
    case (Generate(s, t), Remap(s2, c)) => s == s2 && t == Top(topMip) && c in p && c.level == MinnieBatchMip
    case (Init(s), Generate(s2, c)) => s == s2 && c in p && c.level == MinnieBatchMip
    case (Remap(s, c), Init(s2)) => s == Ws && s2 == Agg && c in p && c.level == MinnieBatchMip
    case (Remap(s, c), Finish) => s == Agg && c in p && c.level == MinnieBatchMip
    case _ => false
  }

  /** The dependencies one chunk adds are the expected ones about that chunk. */
  lemma MChunkEdgesShape(topMip: nat, d: Chunk, e: Edge)
    requires d.level >= MinnieBatchMip
    ensures e in MChunkEdges(topMip, d) <==> MExpected(topMip, [d], e)
  {
    match e
    case (Generate(s, c), Generate(s2, _)) =>
      assert s == Ws || s == Agg;
    case (Generate(s, _), Remap(s2, c)) =>
      assert s == Ws || s == Agg;
    case (Init(s), Generate(s2, c)) =>
      assert s == Ws || s == Agg;
    case _ =>
  }

  /** Membership of a chunk in p + [d] is membership in p or being d. */
  lemma MExpectedSnoc(topMip: nat, q: seq<Chunk>, d: Chunk, e: Edge)
    ensures MExpected(topMip, q + [d], e) <==> MExpected(topMip, q, e) || MExpected(topMip, [d], e)
  {
    assert forall c :: c in q + [d] <==> c in q || c == d;
  }

  /** The built graph has exactly the expected dependencies. */
  lemma {:induction false} MEdgeKey(topMip: nat, p: seq<Chunk>, e: Edge)
    requires FromBatchUp(p)
    ensures e in MAfter(topMip, p).edges <==> MExpected(topMip, p, e)
  {
    if p != [] {
      var q, d := p[..|p| - 1], p[|p| - 1];
      assert p == q + [d];
      MEdgeKey(topMip, q, e);
      MChunkEdgesShape(topMip, d, e);
      MExpectedSnoc(topMip, q, d, e);
    }
  }

  /**
   * The cross-stage barrier: Init_Agglomeration waits for exactly the
   * watershed remaps, Finish for exactly the agglomeration remaps, and
   * Init_Agglomeration precedes exactly the agglomeration batch tasks.
   */
  lemma Barrier(topMip: nat, p: seq<Chunk>, x: Task)
    requires FromBatchUp(p)
    ensures (x, Init(Agg)) in MAfter(topMip, p).edges <==> x.Remap? && x.stage == Ws && x.chunk in p && x.chunk.level == MinnieBatchMip
    ensures (x, Finish) in MAfter(topMip, p).edges <==> x.Remap? && x.stage == Agg && x.chunk in p && x.chunk.level == MinnieBatchMip
    ensures (Init(Agg), x) in MAfter(topMip, p).edges <==> x.Generate? && x.stage == Agg && x.chunk in p && x.chunk.level == MinnieBatchMip
  {
    MEdgeKey(topMip, p, (x, Init(Agg)));
    MEdgeKey(topMip, p, (x, Finish));
    MEdgeKey(topMip, p, (Init(Agg), x));
  }

  /** Every watershed remap comes before every agglomeration batch task, through Init_Agglomeration. */
  lemma WsBeforeAgg(topMip: nat, p: seq<Chunk>, a: Chunk, b: Chunk)
    requires FromBatchUp(p)
    requires a in p && a.level == MinnieBatchMip && b in p && b.level == MinnieBatchMip
    ensures IsPath(MAfter(topMip, p).edges, [Remap(Ws, a), Init(Agg), Generate(Agg, b)])
  {
    Barrier(topMip, p, Remap(Ws, a));
    Barrier(topMip, p, Generate(Agg, b));
  }

  /** Every handled chunk below the top has exactly one reduction edge per stage, to its parent. */
  lemma ReductionToParent(it: ChunkIterator, p: seq<Chunk>, s: Stage, c: Chunk, d: Chunk)
    requires FromBatchUp(p)
    requires c in p
    ensures (Generate(s, c), Generate(s, d)) in MAfter(it.topMip, p).edges <==> c.level < it.topMip && d == Parent(c)
  {
    MEdgeKey(it.topMip, p, (Generate(s, c), Generate(s, d)));
  }

  /** A topological rank: the watershed tasks, then Init_Agglomeration, the agglomeration tasks and Finish. */
  function MRank(topMip: nat, t: Task): int
  {
    match t
    case Init(s) => if s == Ws then 0 else topMip + 3
    case Generate(s, c) => if s == Ws then c.level + 1 else topMip + 4 + c.level
    case Remap(s, _) => if s == Ws then topMip + 2 else 2 * topMip + 5
    case Finish => 2 * topMip + 6
    case _ => 0
  }

  /** Every dependency of the built graph raises the rank. */
  lemma MEdgesRaiseRank(it: ChunkIterator, p: seq<Chunk>, e: Edge)
    requires it.Valid() && p <= it.chunks && FromBatchUp(p)
    requires e in MAfter(it.topMip, p).edges
    ensures MRank(it.topMip, e.0) < MRank(it.topMip, e.1)
  {
    MEdgeKey(it.topMip, p, e);
    match e
    case (Generate(s, c), Remap(_, _)) =>
    case (Generate(_, c), Generate(_, _)) =>
    case (Init(_), Generate(_, c)) =>
    case _ =>
  }

  /** The single graph of this variant has no cycle. */
  lemma MinnieAcyclic(it: ChunkIterator, p: seq<Chunk>, path: seq<Task>)
    requires it.Valid() && p <= it.chunks && FromBatchUp(p)
    requires IsPath(MAfter(it.topMip, p).edges, path) && |path| >= 2
    ensures path[0] != path[|path| - 1]
  {
    var rank := t => MRank(it.topMip, t);
    forall e | e in MAfter(it.topMip, p).edges
      ensures rank(e.0) < rank(e.1)
    {
      MEdgesRaiseRank(it, p, e);
    }
    NoCycle(MAfter(it.topMip, p).edges, rank, path);
  }

  /** Every dependency joins two tasks that exist: the lookups of the source all hit. */
  lemma MEdgesDeclared(it: ChunkIterator, p: seq<Chunk>, e: Edge)
    requires it.Valid() && p <= it.chunks && FromBatchUp(p)
    requires e in MAfter(it.topMip, p).edges
    ensures MDeclared(MAfter(it.topMip, p), e.0) && MDeclared(MAfter(it.topMip, p), e.1)
  {
    var T := it.topMip;
    MEdgeKey(T, p, e);
    match e
    case (Generate(s, c), Generate(_, d)) =>
      PrefixClosed(it, p, c);
      MGenerateKey(T, p, s, c);
      MGenerateKey(T, p, s, d);
    case (Generate(s, t), Remap(_, c)) =>
      PrefixClosed(it, p, c);
      MGenerateKey(T, p, s, t);
      MRemapKey(T, p, s, c);
    case (Init(s), Generate(_, c)) =>
      MGenerateKey(T, p, s, c);
    case (Remap(s, c), _) =>
      MRemapKey(T, p, s, c);
    case _ =>
  }

  // ---------------------------------------------------------------------
  // The retry notification of this variant's tasks

  /** What task_retry_alert sends: nothing, or a retry notice with a count. */
  datatype RetryNotice = Quiet | UpForRetry(count: int)

  /**
   * task_retry_alert: the first retries stay quiet; from try number 3 on a
   * notice is sent, reporting the try number minus one.
   */
  function RetryAlert(tryNumber: int): (r: RetryNotice)
    ensures r.UpForRetry? <==> tryNumber > 2
    ensures r.UpForRetry? ==> r.count == tryNumber - 1 && r.count >= 2
  {
    if tryNumber > 2 then UpForRetry(tryNumber - 1) else Quiet
  }
}
