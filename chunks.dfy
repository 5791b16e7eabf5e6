/**
 * Chunks of the octree and what the graph builders rely on from the chunk
 * iterator. The iterator itself (bounding-box arithmetic, neighbour search,
 * resuming) is an input: a sequence of chunks, the top level and a neighbour
 * function, together with the ordering contract the builders depend on.
 */
module Chunks {

  /** A chunk: its mip level and its grid coordinate at that level. */
  datatype Chunk = Chunk(level: nat, x: nat, y: nat, z: nat)

  /** The two processing stages: watershed, then agglomeration. */
  datatype Stage = Ws | Agg

  /** The chunk one level up that this chunk is merged into (coordinate // 2). */
  function Parent(c: Chunk): (p: Chunk)
    ensures p.level == c.level + 1
    ensures 2 * p.x <= c.x <= 2 * p.x + 1
    ensures 2 * p.y <= c.y <= 2 * p.y + 1
    ensures 2 * p.z <= c.z <= 2 * p.z + 1
  {
    Chunk(c.level + 1, c.x / 2, c.y / 2, c.z / 2)
  }

  /** The single chunk covering the whole volume, tagged "top_0_0_0". */
  function Top(topMip: nat): Chunk
  {
    Chunk(topMip, 0, 0, 0)
  }

  /**
   * The chunk iterator as the builders see it: the chunks in iteration
   * order, the top mip level and the neighbours of a chunk.
   */
  datatype ChunkIterator = ChunkIterator(chunks: seq<Chunk>, topMip: nat, neighbours: Chunk -> seq<Chunk>)
  {
    /**
     * The iteration order the builders depend on: top-down by level, every
     * chunk once, the only chunk at the top level is the top chunk, and a
     * chunk below the top comes after its parent.
     */
    ghost predicate Valid()
    {
      && (forall i :: 0 <= i < |chunks| ==> chunks[i].level < topMip || chunks[i] == Top(topMip))
      && (forall i, j :: 0 <= i < j < |chunks| ==> chunks[j].level <= chunks[i].level)
      && (forall i, j :: 0 <= i < j < |chunks| ==> chunks[i] != chunks[j])
      && (forall j {:trigger ParentBefore(j)} :: 0 <= j < |chunks| && chunks[j].level < topMip ==> ParentBefore(j))
    }

    /** The parent of the j-th chunk comes before it. */
    ghost predicate ParentBefore(j: int)
      requires 0 <= j < |chunks|
    {
      Parent(chunks[j]) in chunks[..j]
    }
  }

  /**
   * The chunks a build loop handles: it walks the iterator and stops at the
   * first chunk below `floor`.
   */
  function Processed(cs: seq<Chunk>, floor: nat): (p: seq<Chunk>)
    ensures p <= cs
    ensures forall c :: c in p ==> c.level >= floor
    ensures |p| < |cs| ==> cs[|p|].level < floor
  {
    if cs == [] || cs[0].level < floor then [] else [cs[0]] + Processed(cs[1..], floor)
  }

  /** A loop that stopped at index i (or ran to the end) has handled Processed(cs, floor). */
  lemma {:induction false} ProcessedIsLoopPrefix(cs: seq<Chunk>, floor: nat, i: nat)
    requires i <= |cs|
    requires forall j :: 0 <= j < i ==> cs[j].level >= floor
    requires i < |cs| ==> cs[i].level < floor
    ensures Processed(cs, floor) == cs[..i]
  {
    if i > 0 {
      ProcessedIsLoopPrefix(cs[1..], floor, i - 1);
      assert cs[..i] == [cs[0]] + cs[1..][..i - 1];
    }
  }

  /**
   * Stopping at the first chunk below `floor` loses nothing: on a top-down
   * iteration, the handled chunks are exactly those at or above `floor`.
   */
  lemma ProcessedMembers(it: ChunkIterator, floor: nat)
    requires it.Valid()
    ensures forall c :: c in Processed(it.chunks, floor) <==> c in it.chunks && c.level >= floor
  {
    var cs := it.chunks;
    var p := Processed(cs, floor);
    forall c | c in cs && c.level >= floor
      ensures c in p
    {
      var j :| 0 <= j < |cs| && cs[j] == c;
      assert cs[j] == p[j];
    }
  }

  /** The handled chunks of a valid iteration form a valid prefix: facts for one step. */
  lemma PrefixStep(it: ChunkIterator, p: seq<Chunk>, c: Chunk)
    requires it.Valid()
    requires p + [c] <= it.chunks
    ensures p <= it.chunks
    ensures c !in p
    ensures c.level <= it.topMip
    ensures c.level < it.topMip ==> Parent(c) in p
    ensures c == Top(it.topMip) <==> p == []
    ensures p != [] ==> Top(it.topMip) in p
    ensures forall d :: d in p ==> c.level <= d.level
  {
    var cs := it.chunks;
    var k := |p|;
    assert cs[k] == c;
    assert cs[..k] == p;
    ParentComesFirst(it, k);
    FirstIsTop(it);
    if p != [] {
      assert cs[0] == p[0];
    }
  }

  /** Every chunk a prefix of a valid iteration holds is at most at the top level, and its parent and the top chunk are held too. */
  lemma PrefixClosed(it: ChunkIterator, p: seq<Chunk>, c: Chunk)
    requires it.Valid()
    requires p <= it.chunks && c in p
    ensures c.level <= it.topMip
    ensures c.level < it.topMip ==> Parent(c) in p
    ensures Top(it.topMip) in p
  {
    var j :| 0 <= j < |p| && p[j] == c;
    assert p[..j] + [c] == p[..j + 1];
    PrefixStep(it, p[..j], c);
    if j == 0 {
      assert p[0] == c;
    }
  }

  /** A valid iteration starts with the top chunk: any other first chunk would have no parent before it. */
  lemma FirstIsTop(it: ChunkIterator)
    requires it.Valid() && |it.chunks| > 0
    ensures it.chunks[0] == Top(it.topMip)
  {
    ParentComesFirst(it, 0);
  }

  /** The ordering clause on parents, for one position. */
  lemma ParentComesFirst(it: ChunkIterator, j: int)
    requires it.Valid() && 0 <= j < |it.chunks|
    ensures it.chunks[j].level < it.topMip ==> Parent(it.chunks[j]) in it.chunks[..j]
  {
    if it.chunks[j].level < it.topMip {
      assert it.ParentBefore(j);
    }
  }
}
