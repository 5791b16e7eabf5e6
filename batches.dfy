/**
 * generate_batches: the split of the chunk iterator that the statistics and
 * evaluation jobs use. Chunks above the batch level are handled one by one
 * ("high-mip chunks"); each chunk at the batch level starts a sub-iterator
 * over its subtree. The batch level starts at 3 and moves up to a level as
 * soon as the level above it turned out to hold more than 50 chunks.
 */
module Batches {
  import opened Chunks

  /** A sub-iterator handed to a job: the whole iterator, or the subtree of one batch-level chunk. */
  datatype Batch = Whole | From(start: Chunk)

  /** The batch level generate_batches starts from (a constant of its own, not the BATCH_MIP parameter). */
  const FirstBatchMip: nat := 3
  /** A level with more than this many chunks makes the next level down the batch level. */
  const BusyLevel: nat := 50

  /** The loop's variables: batch_mip, current_mip, mip_tasks, the two result lists, and whether it broke out. */
  datatype ScanState = ScanState(batchMip: nat, currentMip: nat, mipTasks: nat, high: seq<Chunk>, batches: seq<Batch>, stopped: bool)

  function Begin(topMip: nat): ScanState
  {
    ScanState(FirstBatchMip, topMip, 0, [], [], false)
  }

  /** The loop moves the batch level up to c's level: c opens a new level after a level of more than 50 chunks above the batch level. */
  predicate Raises(st: ScanState, c: Chunk)
  {
    c.level > st.batchMip && st.currentMip != c.level && st.currentMip > st.batchMip && st.mipTasks > BusyLevel
  }

  /**
   * One turn of the loop. As written (corrected == false) the chunk that
   * raises the batch level is appended to the high-mip chunks; corrected,
   * it starts a batch like the other chunks of its level.
   */
  function ScanStep(st: ScanState, c: Chunk, corrected: bool): ScanState
  {
    if st.stopped then st
    else if c.level > st.batchMip then
      var raise := Raises(st, c);
      st.(batchMip := if raise then c.level else st.batchMip,
          currentMip := c.level,
          mipTasks := if st.currentMip != c.level then 1 else st.mipTasks + 1,
          high := if raise && corrected then st.high else st.high + [c],
          batches := if raise && corrected then st.batches + [From(c)] else st.batches)
    else if c.level < st.batchMip then st.(stopped := true)
    else st.(batches := st.batches + [From(c)])
  }

  /** The loop's variables after the chunks cs. */
  function Scan(cs: seq<Chunk>, topMip: nat, corrected: bool): ScanState
  {
    if cs == [] then Begin(topMip) else ScanStep(Scan(cs[..|cs| - 1], topMip, corrected), cs[|cs| - 1], corrected)
  }

  /** What generate_batches returns: the high-mip chunks and the sub-iterators. */
  function BatchesOf(it: ChunkIterator): (seq<Chunk>, seq<Batch>)
  {
    if it.topMip > FirstBatchMip then
      var st := Scan(it.chunks, it.topMip, false);
      (st.high, st.batches)
    else ([], [Whole])
  }

  /** generate_batches(param). */
  method GenerateBatches(it: ChunkIterator) returns (high: seq<Chunk>, batches: seq<Batch>)
    ensures (high, batches) == BatchesOf(it)
  {
    var topMip := it.topMip;
    var batchMip := FirstBatchMip;
    high, batches := [], [];
    var currentMip := topMip;
    var mipTasks := 0;
    if topMip > batchMip {
      var cs := it.chunks;
      var i := 0;
      while i < |cs|
        invariant 0 <= i <= |cs|
        invariant Scan(cs[..i], topMip, false) == ScanState(batchMip, currentMip, mipTasks, high, batches, false)
      {
        var c := cs[i];
        ScanPrefixStep(cs, i, topMip, false);
        if c.level > batchMip {
          if currentMip != c.level {
            if currentMip > batchMip && mipTasks > BusyLevel {
              batchMip := c.level;
            }
            currentMip := c.level;
            mipTasks := 1;
          } else {
            mipTasks := mipTasks + 1;
          }
          high := high + [c];
        } else if c.level < batchMip {
          StopIsFinal(cs, i + 1, topMip, false);
          assert cs[..|cs|] == cs;
          return;
        } else {
          batches := batches + [From(c)];
        }
        i := i + 1;
      }
      assert cs[..i] == cs;
    } else {
      batches := [Whole];
    }
  }

  /** The loop's variables after one more chunk. */
  lemma ScanPrefixStep(cs: seq<Chunk>, i: nat, topMip: nat, corrected: bool)
    requires i < |cs|
    ensures Scan(cs[..i + 1], topMip, corrected) == ScanStep(Scan(cs[..i], topMip, corrected), cs[i], corrected)
  {
    assert cs[..i + 1][..i] == cs[..i];
  }

  /** With a top level of at most 3 there are no high-mip chunks and the whole iterator is the one batch. */
  lemma SmallVolumeIsOneBatch(it: ChunkIterator)
    requires it.topMip <= FirstBatchMip
    ensures BatchesOf(it) == ([], [Whole])
  {
  }

  /** Once the loop has broken out, the remaining chunks change nothing. */
  lemma {:induction false} StopIsFinal(cs: seq<Chunk>, i: nat, topMip: nat, corrected: bool)
    requires i <= |cs|
    requires Scan(cs[..i], topMip, corrected).stopped
    ensures Scan(cs, topMip, corrected) == Scan(cs[..i], topMip, corrected)
    decreases |cs|
  {
    if i < |cs| {
      var q := cs[..|cs| - 1];
      assert q[..i] == cs[..i];
      StopIsFinal(q, i, topMip, corrected);
    } else {
      assert cs[..i] == cs;
    }
  }

  /** The loop breaks exactly at a chunk below the batch level. */
  lemma StopsBelowBatchLevel(st: ScanState, c: Chunk, corrected: bool)
    requires !st.stopped
    ensures ScanStep(st, c, corrected).stopped <==> c.level < st.batchMip
  {
  }

  /** The batch level never goes down. */
  lemma {:induction false} BatchLevelNeverFalls(cs: seq<Chunk>, i: nat, topMip: nat, corrected: bool)
    requires i <= |cs|
    ensures Scan(cs[..i], topMip, corrected).batchMip <= Scan(cs, topMip, corrected).batchMip
    ensures Scan(cs, topMip, corrected).batchMip >= FirstBatchMip
    decreases |cs|
  {
    if cs != [] {
      var q := cs[..|cs| - 1];
      if i < |cs| {
        assert q[..i] == cs[..i];
        BatchLevelNeverFalls(q, i, topMip, corrected);
      } else {
        assert cs[..i] == cs;
        BatchLevelNeverFalls(q, 0, topMip, corrected);
      }
    }
  }

  /** The number of chunks at the end of s that are at level l. */
  function TrailingRun(s: seq<Chunk>, l: nat): (n: nat)
    ensures n <= |s|
  {
    if s != [] && s[|s| - 1].level == l then TrailingRun(s[..|s| - 1], l) + 1 else 0
  }

  /** mip_tasks counts the high-mip chunks at current_mip appended last; the last one is at current_mip. */
  predicate Counting(st: ScanState)
  {
    && st.mipTasks == TrailingRun(st.high, st.currentMip)
    && (st.high != [] ==> st.high[|st.high| - 1].level == st.currentMip)
  }

  /** The loop as written keeps mip_tasks counting. */
  lemma {:induction false} ScanCounts(cs: seq<Chunk>, topMip: nat)
    ensures Counting(Scan(cs, topMip, false))
  {
    if cs != [] {
      var q, c := cs[..|cs| - 1], cs[|cs| - 1];
      var st := Scan(q, topMip, false);
      ScanCounts(q, topMip);
      if !st.stopped && c.level > st.batchMip {
        var h := st.high + [c];
        assert h[..|h| - 1] == st.high;
      }
    }
  }

  /**
   * The batch level moves only to the level of the chunk being handled,
   * only when that chunk opens a new level, and only after more than 50
   * consecutive high-mip chunks at the level before it.
   */
  lemma RisesOnlyAfterBusyLevel(cs: seq<Chunk>, topMip: nat, c: Chunk)
    ensures var st := Scan(cs, topMip, false);
      ScanStep(st, c, false).batchMip != st.batchMip ==>
        && ScanStep(st, c, false).batchMip == c.level
        && st.currentMip != c.level && st.currentMip > st.batchMip
        && TrailingRun(st.high, st.currentMip) > BusyLevel
  {
    ScanCounts(cs, topMip);
  }

  // ---------------------------------------------------------------------
  // The chunk that raises the batch level

  /**
   * As written, the chunk that raises the batch level goes to the high-mip
   * chunks although it is at the new batch level, and no sub-iterator starts
   * at it: the chunks below it are in no batch.
   */
  lemma RaisingChunkStartsNoBatch(st: ScanState, c: Chunk)
    requires !st.stopped && Raises(st, c)
    ensures var st' := ScanStep(st, c, false);
      && st'.high == st.high + [c]
      && c.level == st'.batchMip
      && st'.batches == st.batches
  {
  }

  /** Every handled chunk of a top-down iteration is at or below the one before it and at most at the top. */
  predicate TopDown(cs: seq<Chunk>, topMip: nat)
  {
    && (forall i :: 0 <= i < |cs| ==> cs[i].level <= topMip)
    && (forall i, j :: 0 <= i < j < |cs| ==> cs[j].level <= cs[i].level)
  }

  /** What the corrected loop keeps, given the level last of the last chunk handled. */
  predicate Split(st: ScanState, last: nat)
  {
    && (forall d :: d in st.high ==> d.level > st.batchMip && d.level >= st.currentMip)
    && (forall b :: b in st.batches ==> b.From? && b.start.level == st.batchMip)
    && (st.batches != [] ==> last <= st.batchMip)
    && (st.high != [] ==> last <= st.currentMip)
  }

  /** One corrected turn keeps the split when the chunk is not above the last one. */
  lemma SplitStep(st: ScanState, last: nat, c: Chunk)
    requires Split(st, last) && c.level <= last
    ensures Split(ScanStep(st, c, true), c.level)
  {
  }

  /** The corrected loop keeps the split over a top-down iteration. */
  lemma {:induction false} ScanSplit(cs: seq<Chunk>, topMip: nat)
    requires TopDown(cs, topMip)
    ensures Split(Scan(cs, topMip, true), if cs == [] then topMip else cs[|cs| - 1].level)
  {
    if cs != [] {
      var q, c := cs[..|cs| - 1], cs[|cs| - 1];
      assert TopDown(q, topMip);
      ScanSplit(q, topMip);
      if q != [] {
        assert q[|q| - 1] == cs[|cs| - 2];
      }
      SplitStep(Scan(q, topMip, true), if q == [] then topMip else q[|q| - 1].level, c);
    }
  }

  /**
   * Every handled chunk at or above the batch level is accounted for: those
   * above it are high-level chunks and those at it start a batch. Once the
   * loop has broken out, the last chunk is below the batch level.
   */
  predicate Covers(q: seq<Chunk>, st: ScanState, last: nat)
  {
    && (forall d :: d in q && d.level > st.batchMip ==> d in st.high)
    && (forall d :: d in q && d.level == st.batchMip ==> From(d) in st.batches)
    && (st.stopped ==> last < st.batchMip)
  }

  /**
   * One corrected turn keeps every chunk accounted for when the chunk is at
   * or below every chunk before it. The only chunk that can raise the batch
   * level is the first of its level, so no earlier chunk of that level is
   * left among the high-level chunks.
   */
  lemma CoverStep(q: seq<Chunk>, st: ScanState, last: nat, c: Chunk)
    requires Split(st, last) && Covers(q, st, last)
    requires c.level <= last
    requires forall d :: d in q ==> c.level <= d.level
    ensures Covers(q + [c], ScanStep(st, c, true), c.level)
  {
    var st' := ScanStep(st, c, true);
    forall d | d in q + [c] && d.level > st'.batchMip
      ensures d in st'.high
    {
      if d != c {
        assert d in q;
      }
    }
    forall d | d in q + [c] && d.level == st'.batchMip
      ensures From(d) in st'.batches
    {
      if d != c {
        assert d in q;
      }
    }
  }

  /** The corrected loop accounts for every chunk of a top-down iteration at or above the final batch level. */
  lemma {:induction false} ScanCovers(cs: seq<Chunk>, topMip: nat)
    requires TopDown(cs, topMip)
    ensures Covers(cs, Scan(cs, topMip, true), if cs == [] then topMip else cs[|cs| - 1].level)
  {
    if cs != [] {
      var q, c := cs[..|cs| - 1], cs[|cs| - 1];
      assert cs == q + [c];
      assert TopDown(q, topMip);
      ScanCovers(q, topMip);
      ScanSplit(q, topMip);
      var last := if q == [] then topMip else q[|q| - 1].level;
      if q != [] {
        assert q[|q| - 1] == cs[|cs| - 2];
      }
      forall d | d in q
        ensures c.level <= d.level
      {
        var i :| 0 <= i < |q| && q[i] == d;
        assert cs[i] == d;
      }
      CoverStep(q, Scan(q, topMip, true), last, c);
    }
  }

  /**
   * Corrected, on a top-down iteration, the high-level chunks are exactly
   * the iterated chunks above the final batch level and the batches start
   * exactly at the iterated chunks of that level: every subtree below the
   * batch level belongs to a batch.
   */
  lemma CorrectedSplitsAtBatchLevel(it: ChunkIterator)
    requires it.Valid()
    ensures var st := Scan(it.chunks, it.topMip, true);
      && (forall d :: d in st.high ==> d.level > st.batchMip)
      && (forall b :: b in st.batches ==> b.From? && b.start.level == st.batchMip)
      && (forall c :: c in it.chunks && c.level > st.batchMip ==> c in st.high)
      && (forall c :: c in it.chunks && c.level == st.batchMip ==> From(c) in st.batches)
  {
    ScanSplit(it.chunks, it.topMip);
    ScanCovers(it.chunks, it.topMip);
  }
}
