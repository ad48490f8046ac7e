/**
 * The world (Game/World.hpp, Game/World.cpp): the map of active chunks and
 * their neighbour links, the three job queues with their outstanding-job
 * counters, the job system's pending and completed jobs, the light-dirty
 * queue and the mesh-build queue. Chunk::SetBlockType, which reaches the
 * world through a global in the source, is a method of the world here.
 */
module Worlds {
  import opened GameCommon
  import opened Blocks
  import opened ChunkIndex
  import opened Chunks
  import opened BlockIterators
  import opened WorldLinks
  import opened WorldLight
  import opened WorldJobs
  import opened MeshQueue
  import opened ChunkFile
  import opened TreeStamps
  import opened Terrain
  import opened Meshing
  import opened LightInit
  import opened StreamScan
  import opened ChunkStates

  /** The only change a marking pass makes to a block: the light-dirty flag set where it was clear, or nothing. */
  predicate Dirtied(before: Block, after: Block) {
    after == before || (!before.IsLightDirty() && after == before.SetIsLightDirty(true))
  }

  /** Two marking passes in a row are one marking pass. */
  lemma DirtiedTwice(a: Block, b: Block, c: Block)
    requires Dirtied(a, b) && Dirtied(b, c)
    ensures Dirtied(a, c)
  {
  }

  /** Every active chunk's blocks as the heap holds them now. */
  ghost function BlocksOf(m: ChunkMap): map<IntVec2, seq<Block>>
    reads Arrays(m)
  {
    map k | k in m :: m[k].blocks[..]
  }

  /** Two marking steps in a row, recorded as three snapshots, are one marking step. */
  lemma DirtiedChain(m: ChunkMap, start: map<IntVec2, seq<Block>>, prev: map<IntVec2, seq<Block>>, cur: map<IntVec2, seq<Block>>)
    requires Covers(start, m) && Covers(prev, m) && Covers(cur, m)
    requires forall k, n | k in m && InIndexRange(n) :: Dirtied(start[k][n], prev[k][n])
    requires forall k, n | k in m && InIndexRange(n) :: Dirtied(prev[k][n], cur[k][n])
    ensures forall k, n | k in m && InIndexRange(n) :: Dirtied(start[k][n], cur[k][n])
  {
    forall k, n | k in m && InIndexRange(n)
      ensures Dirtied(start[k][n], cur[k][n])
    {
      DirtiedTwice(start[k][n], prev[k][n], cur[k][n]);
    }
  }

  /** A marking step keeps the marks a snapshot records for the first `i` iterators of `xs`. */
  lemma MarksKept(m: ChunkMap, prev: map<IntVec2, seq<Block>>, cur: map<IntVec2, seq<Block>>, xs: seq<BlockIterator>, i: int)
    requires Covers(prev, m) && Covers(cur, m) && prev.Keys == m.Keys && cur.Keys == m.Keys && 0 <= i < |xs|
    requires forall k, n | k in m && InIndexRange(n) :: Dirtied(prev[k][n], cur[k][n])
    requires forall j | 0 <= j < i :: MarkedIn(prev, xs[j])
    requires MarkedIn(cur, xs[i])
    ensures forall j | 0 <= j <= i :: MarkedIn(cur, xs[j])
  {
    forall j | 0 <= j < i
      ensures MarkedIn(cur, xs[j])
    {
      var x := xs[j];
      assert MarkedIn(prev, x);
      if x.InRange() && x.chunk.chunkCoords in m {
        assert Dirtied(prev[x.chunk.chunkCoords][x.blockIndex], cur[x.chunk.chunkCoords][x.blockIndex]);
      }
    }
  }

  /** A mark a snapshot of the heap records for an iterator into an active chunk is a mark in the heap. */
  lemma MarkedFromSnapshot(m: ChunkMap, snap: map<IntVec2, seq<Block>>, x: BlockIterator)
    requires Keyed(m) && snap == BlocksOf(m) && (x.chunk != null ==> IsActive(m, x.chunk))
    requires MarkedIn(snap, x)
    ensures Marked(x)
  {
  }

  /** The block under `n`, if it exists and is not opaque, is flagged light-dirty. */
  predicate Marked(n: BlockIterator)
    reads if n.chunk == null then {} else {n.chunk.blocks}
  {
    n.InRange() && n.chunk.Sized() && !n.chunk.blocks[n.blockIndex].IsFullOpaque() ==> n.chunk.blocks[n.blockIndex].IsLightDirty()
  }

  /** The neighbour at position `i` of LightNeighbors of block `n` of `c` is marked. */
  predicate NeighborMarked(c: Chunk, n: int, i: int)
    requires 0 <= i < 6
    reads c.AroundFrame()
  {
    Marked(LightNeighbors(BlockIterator(c, n))[i])
  }

  /** Marked, read off a snapshot of the active chunks' blocks rather than the heap. */
  predicate MarkedIn(snap: map<IntVec2, seq<Block>>, x: BlockIterator) {
    (x.InRange() && x.chunk.chunkCoords in snap && |snap[x.chunk.chunkCoords]| == CHUNK_BLOCK_TOTAL &&
     !snap[x.chunk.chunkCoords][x.blockIndex].IsFullOpaque()) ==> snap[x.chunk.chunkCoords][x.blockIndex].IsLightDirty()
  }

  /** NeighborMarked, read off a snapshot. */
  predicate NeighborMarkedIn(snap: map<IntVec2, seq<Block>>, c: Chunk, n: int, i: int)
    requires 0 <= i < 6
    reads c
  {
    MarkedIn(snap, LightNeighbors(BlockIterator(c, n))[i])
  }

  /** A snapshot of the active chunks' blocks records the neighbour marks the heap holds. */
  lemma NeighborMarksSnapshot(m: ChunkMap, c: Chunk, snap: map<IntVec2, seq<Block>>, lit: set<int>)
    requires Keyed(m) && LinksOk(m) && IsActive(m, c)
    requires forall k | k in m :: k in snap && snap[k] == m[k].blocks[..]
    requires forall j, i | j in lit && 0 <= i < 4 :: NeighborMarked(c, j, i)
    ensures forall j, i | j in lit && 0 <= i < 4 :: NeighborMarkedIn(snap, c, j, i)
  {
    AroundActive(m, c);
    forall j, i | j in lit && 0 <= i < 4
      ensures NeighborMarkedIn(snap, c, j, i)
    {
      assert NeighborMarked(c, j, i);
      var x := LightNeighbors(BlockIterator(c, j))[i];
      if x.InRange() {
        assert IsActive(m, x.chunk);
      }
    }
  }

  /** What a marking step keeps of a block: its opacity, and its light-dirty flag once set. */
  predicate Kept(before: Block, after: Block) {
    after.IsFullOpaque() == before.IsFullOpaque() && (before.IsLightDirty() ==> after.IsLightDirty())
  }

  /** Where the sky pass leaves a block: sky-lit if `lit`, otherwise changed at most by gaining the light-dirty flag. */
  predicate SkyStage(before: Block, after: Block, lit: bool) {
    if lit then SkyLit(before, after) else Dirtied(before, after)
  }

  /** A later flag gain keeps a block where the sky pass left it. */
  lemma SkyStageThenDirtied(a: Block, b: Block, c: Block, lit: bool)
    requires SkyStage(a, b, lit) && Dirtied(b, c)
    ensures SkyStage(a, c, lit)
  {
  }

  /** Lighting a block that so far only gained the flag leaves it sky-lit. */
  lemma DirtiedThenSkyLit(a: Block, b: Block, c: Block)
    requires Dirtied(a, b) && SkyLit(b, c)
    ensures SkyLit(a, c)
  {
  }

  /**
   * One sky-lit step carried over the pass's per-block invariant: the block
   * visited at step `t` becomes sky-lit, every other block keeps its stage.
   */
  lemma SkyStageAdvance(sc: seq<Block>, prev: seq<Block>, now: seq<Block>, t: int, n: int)
    requires |sc| == CHUNK_BLOCK_TOTAL && |prev| == CHUNK_BLOCK_TOTAL && |now| == CHUNK_BLOCK_TOTAL
    requires InIndexRange(n) && SkyOrder(n) == t && SeesSky(sc, n)
    requires forall j | InIndexRange(j) :: SkyStage(sc[j], prev[j], SkyOrder(j) < t && SeesSky(sc, j))
    requires SkyLit(prev[n], now[n])
    requires forall j | InIndexRange(j) && j != n :: Dirtied(prev[j], now[j])
    ensures forall j | InIndexRange(j) :: SkyStage(sc[j], now[j], SkyOrder(j) < t + 1 && SeesSky(sc, j))
  {
    forall j | InIndexRange(j)
      ensures SkyStage(sc[j], now[j], SkyOrder(j) < t + 1 && SeesSky(sc, j))
    {
      SkyVisitsEach(j);
      SkyVisitsEach(n);
      if j == n {
        DirtiedThenSkyLit(sc[j], prev[j], now[j]);
      } else {
        SkyStageThenDirtied(sc[j], prev[j], now[j], SkyOrder(j) < t && SeesSky(sc, j));
      }
    }
  }

  /** Once the sky pass has taken every step, each block's stage is decided by whether it sees the sky. */
  lemma SkyPassDone(sc: seq<Block>, now: seq<Block>)
    requires |sc| == CHUNK_BLOCK_TOTAL && |now| == CHUNK_BLOCK_TOTAL
    requires forall j | InIndexRange(j) :: SkyStage(sc[j], now[j], SkyOrder(j) < CHUNK_BLOCK_TOTAL && SeesSky(sc, j))
    ensures forall j | InIndexRange(j) :: SkyStage(sc[j], now[j], SeesSky(sc, j))
  {
    forall j | InIndexRange(j)
      ensures SkyStage(sc[j], now[j], SeesSky(sc, j))
    {
      SkyVisitsEach(j);
    }
  }

  /**
   * One sky-lit step carried over the pass's block invariants: blocks of
   * other chunks still changed at most by gaining the flag, and every block
   * of `c` at the stage its position in the visiting order gives it.
   */
  lemma SkyStagesAdvance(m: ChunkMap, c: Chunk, start: map<IntVec2, seq<Block>>, prev: map<IntVec2, seq<Block>>, t: int, n: int)
    requires Keyed(m) && IsActive(m, c) && Covers(start, m) && Covers(prev, m)
    requires InIndexRange(n) && SkyOrder(n) == t && SeesSky(start[c.chunkCoords], n)
    requires forall k, j | k in m && k != c.chunkCoords && InIndexRange(j) :: Dirtied(start[k][j], prev[k][j])
    requires forall j | InIndexRange(j) ::
      SkyStage(start[c.chunkCoords][j], prev[c.chunkCoords][j], SkyOrder(j) < t && SeesSky(start[c.chunkCoords], j))
    requires forall k, j | k in m && InIndexRange(j) && (k != c.chunkCoords || j != n) ::
      Dirtied(prev[k][j], m[k].blocks[j])
    requires SkyLit(prev[c.chunkCoords][n], c.blocks[n])
    ensures forall k, j | k in m && k != c.chunkCoords && InIndexRange(j) :: Dirtied(start[k][j], m[k].blocks[j])
    ensures forall j | InIndexRange(j) ::
      SkyStage(start[c.chunkCoords][j], c.blocks[j], SkyOrder(j) < t + 1 && SeesSky(start[c.chunkCoords], j))
  {
    SkyStageAdvance(start[c.chunkCoords], prev[c.chunkCoords], c.blocks[..], t, n);
  }

  /**
   * One sky-lit step carried over the pass's neighbour marks: the marks
   * made before (recorded in `prev`) stay, since no block loses its flag
   * or changes opacity, and block `n`'s own neighbours are now marked too.
   */
  lemma SideMarksAdvance(m: ChunkMap, c: Chunk, prev: map<IntVec2, seq<Block>>, lit: set<int>, n: int)
    requires Keyed(m) && LinksOk(m) && IsActive(m, c) && Covers(prev, m) && InIndexRange(n)
    requires forall k, j | k in m && InIndexRange(j) && (k != c.chunkCoords || j != n) ::
      Dirtied(prev[k][j], m[k].blocks[j])
    requires SkyLit(prev[c.chunkCoords][n], c.blocks[n])
    requires forall j, i | j in lit && 0 <= i < 4 :: NeighborMarkedIn(prev, c, j, i)
    requires forall i | 0 <= i < 4 :: NeighborMarked(c, n, i)
    ensures forall j, i | j in lit + {n} && 0 <= i < 4 :: NeighborMarked(c, j, i)
  {
    AroundActive(m, c);
    forall j, i | j in lit && j != n && 0 <= i < 4
      ensures NeighborMarked(c, j, i)
    {
      assert NeighborMarkedIn(prev, c, j, i);
      var x := LightNeighbors(BlockIterator(c, j))[i];
      if x.InRange() {
        assert IsActive(m, x.chunk);
        assert Kept(prev[x.chunk.chunkCoords][x.blockIndex], x.chunk.blocks[x.blockIndex]);
      }
    }
  }

  /** Block by block, `after` differs from `before` at most by light-dirty flags set. */
  ghost predicate AllDirtied(before: seq<Block>, after: seq<Block>)
    requires |before| == CHUNK_BLOCK_TOTAL && |after| == CHUNK_BLOCK_TOTAL
  {
    forall n | InIndexRange(n) :: Dirtied(before[n], after[n])
  }

  /** Every block of `after` is at the sky pass's stage for `before`: sky-lit where it sees the sky, else at most flagged. */
  ghost predicate SkyStaged(before: seq<Block>, after: seq<Block>)
    requires |before| == CHUNK_BLOCK_TOTAL && |after| == CHUNK_BLOCK_TOTAL
  {
    forall n | InIndexRange(n) :: SkyStage(before[n], after[n], SeesSky(before, n))
  }

  /** Every non-opaque block of `blocks` on a side that has a neighbour chunk (per `sides`) is light-dirty. */
  ghost predicate SidesMarked(sides: Sides, blocks: seq<Block>)
    requires |blocks| == CHUNK_BLOCK_TOTAL
  {
    forall n | InIndexRange(n) && OnSide(sides, n) && !blocks[n].IsFullOpaque() :: blocks[n].IsLightDirty()
  }

  /** Every emissive block of `blocks` is light-dirty. */
  ghost predicate EmittersMarked(blocks: seq<Block>, defs: DefTable)
    requires |blocks| == CHUNK_BLOCK_TOTAL
  {
    forall n | InIndexRange(n) && Emissive(blocks[n], defs) :: blocks[n].IsLightDirty()
  }

  /**
   * One block through the three marking passes of InitializeChunkLighting:
   * the pass stages compose to the sky pass's stage, and a flag the first
   * pass sets is still set at the end.
   */
  lemma InitBlockChain(a: Block, b: Block, c: Block, d: Block, sees: bool)
    requires Dirtied(a, b) && SkyStage(b, c, sees) && Dirtied(c, d)
    ensures SkyStage(a, d, sees)
    ensures b.IsLightDirty() ==> d.IsLightDirty()
    ensures d.IsFullOpaque() == b.IsFullOpaque()
  {
    if sees {
      DirtiedThenSkyLit(a, b, c);
    } else {
      DirtiedTwice(a, b, c);
      DirtiedTwice(a, c, d);
    }
  }

  /** The chunk's blocks through the three marking passes, with `s1` after the first pass. */
  lemma InitChain(sides: Sides, defs: DefTable, s0: seq<Block>, s1: seq<Block>, s2: seq<Block>, s3: seq<Block>)
    requires |s0| == CHUNK_BLOCK_TOTAL && |s1| == CHUNK_BLOCK_TOTAL && |s2| == CHUNK_BLOCK_TOTAL && |s3| == CHUNK_BLOCK_TOTAL
    requires AllDirtied(s0, s1) && SidesMarked(sides, s1)
    requires SkyStaged(s1, s2)
    requires AllDirtied(s2, s3) && EmittersMarked(s3, defs)
    ensures SkyStaged(s0, s3) && SidesMarked(sides, s3) && EmittersMarked(s3, defs)
  {
    forall n | InIndexRange(n)
      ensures SkyStage(s0[n], s3[n], SeesSky(s0, n))
      ensures s1[n].IsLightDirty() ==> s3[n].IsLightDirty()
      ensures s3[n].IsFullOpaque() == s1[n].IsFullOpaque()
    {
      SeesSkySameOpacity(s0, s1, n);
      InitBlockChain(s0[n], s1[n], s2[n], s3[n], SeesSky(s1, n));
    }
  }

  /** Between snapshots `a` and `b`, every active chunk but the one at `k0` at most gained light-dirty flags. */
  ghost predicate DirtiedExcept(m: ChunkMap, k0: IntVec2, a: map<IntVec2, seq<Block>>, b: map<IntVec2, seq<Block>>) {
    Covers(a, m) && Covers(b, m) && forall k | k in m && k != k0 :: AllDirtied(a[k], b[k])
  }

  /** Three marking steps in a row, the middle one sparing the chunk at `k0`, leave the other chunks marked. */
  lemma DirtiedChainExcept(m: ChunkMap, k0: IntVec2, a: map<IntVec2, seq<Block>>, b: map<IntVec2, seq<Block>>,
                           c: map<IntVec2, seq<Block>>, d: map<IntVec2, seq<Block>>)
    requires DirtiedExcept(m, k0, a, b) && DirtiedExcept(m, k0, b, c) && DirtiedExcept(m, k0, c, d)
    ensures DirtiedExcept(m, k0, a, d)
  {
    forall k, n | k in m && k != k0 && InIndexRange(n)
      ensures Dirtied(a[k][n], d[k][n])
    {
      DirtiedTwice(a[k][n], b[k][n], c[k][n]);
      DirtiedTwice(a[k][n], c[k][n], d[k][n]);
    }
  }

  /**
   * The chunks that were active before `c` joined kept their blocks through
   * the insertion (which only reset `c`'s own), so what the later steps did
   * to them is all that happened to them.
   */
  lemma DirtiedAcrossInsert(m: ChunkMap, c: Chunk, before: map<IntVec2, seq<Block>>, reset: seq<Block>,
                            final: map<IntVec2, seq<Block>>)
    requires c.chunkCoords !in m && Covers(before, m)
    requires DirtiedExcept(m[c.chunkCoords := c], c.chunkCoords, before[c.chunkCoords := reset], final)
    ensures DirtiedExcept(m, c.chunkCoords, before, final)
  {
    var m2 := m[c.chunkCoords := c];
    forall k | k in m
      ensures AllDirtied(before[k], final[k])
    {
      assert k in m2 && k != c.chunkCoords;
    }
  }

  /** The sides of the chunk at `k` on which `m` holds an active chunk. */
  function SidesAround(m: ChunkMap, k: IntVec2): Sides {
    Sides(Beside(k, BLOCK_FACE_NORTH) in m, Beside(k, BLOCK_FACE_SOUTH) in m,
          Beside(k, BLOCK_FACE_EAST) in m, Beside(k, BLOCK_FACE_WEST) in m)
  }

  /** A chunk whose links agree with `m` has a neighbour pointer set exactly on the sides where `m` holds a chunk. */
  lemma SidesOfHooked(m: ChunkMap, c: Chunk)
    requires forall f | Horizontal(f) :: NeighborPointer(c, f) == Lookup(m, Beside(c.chunkCoords, f))
    ensures SidesOf(c) == SidesAround(m, c.chunkCoords)
  {
    assert Horizontal(BLOCK_FACE_NORTH) && Horizontal(BLOCK_FACE_SOUTH);
    assert Horizontal(BLOCK_FACE_EAST) && Horizontal(BLOCK_FACE_WEST);
  }

  /**
   * The lighting an activated chunk starts with, from the blocks `orig` it
   * arrived with and the sides `sides` on which it has neighbours: every
   * block at the sky pass's stage for the reset blocks, and the non-opaque
   * blocks on linked sides and the emissive blocks flagged light-dirty.
   */
  ghost predicate LitOnActivation(orig: seq<Block>, sides: Sides, blocks: seq<Block>, defs: DefTable)
    requires |orig| == CHUNK_BLOCK_TOTAL && |blocks| == CHUNK_BLOCK_TOTAL
  {
    SkyStaged(ResetBlocks(orig), blocks) && SidesMarked(sides, blocks) && EmittersMarked(blocks, defs)
  }

  /**
   * What an activated chunk's blocks hold once its lighting is initialised:
   * the type is kept, indoor light is 0, and a block is sky with outdoor
   * light 15 exactly when nothing opaque stands in its column from it up,
   * else it is not sky and has outdoor light 0.
   */
  lemma ActivatedLight(orig: seq<Block>, after: seq<Block>, n: int)
    requires |orig| == CHUNK_BLOCK_TOTAL && |after| == CHUNK_BLOCK_TOTAL && InIndexRange(n)
    requires SkyStaged(ResetBlocks(orig), after)
    ensures after[n].blockType == orig[n].blockType && after[n].GetIndoorLight() == 0
    ensures after[n].IsSky() <==> SeesSky(orig, n)
    ensures after[n].GetOutdoorLight() == if SeesSky(orig, n) then 15 else 0
  {
    var reset := ResetBlocks(orig);
    SeesSkySameOpacity(orig, reset, n);
    assert SkyStage(reset[n], after[n], SeesSky(reset, n));
  }

  /** `start` holds a chunk-sized block sequence for every key of `m`. */
  predicate Covers(start: map<IntVec2, seq<Block>>, m: ChunkMap) {
    forall k | k in m :: k in start && |start[k]| == CHUNK_BLOCK_TOTAL
  }

  /**
   * Inserting a chunk that is not active, has no links, owns its block
   * array, has no flagged block and only known types keeps the lighting
   * state of the map, with the new chunk's links still to be hooked up.
   */
  lemma InsertKeepsLightState(m: ChunkMap, q: seq<BlockIterator>, c: Chunk, defs: DefTable)
    requires Keyed(m) && LinksOk(m) && ArraysDistinct(m) && DirtyOk(m, q) && TypesKnown(m, defs)
    requires c.chunkCoords !in m && c.Sized() && c.Unlinked() && BlockTypesKnown(c, defs)
    requires forall k | k in m :: m[k].blocks != c.blocks
    requires forall n | InIndexRange(n) :: !c.blocks[n].IsLightDirty()
    ensures Keyed(m[c.chunkCoords := c]) && LinksOkBut(m[c.chunkCoords := c], c.chunkCoords, HORIZONTAL_FACES)
    ensures ArraysDistinct(m[c.chunkCoords := c]) && DirtyOk(m[c.chunkCoords := c], q)
    ensures TypesKnown(m[c.chunkCoords := c], defs)
  {
    var m' := m[c.chunkCoords := c];
    InsertUnlinked(m, c);
    DirtyOkInsert(m, q, c);
    forall k, n | k in m' && InIndexRange(n)
      ensures KnownType(defs, m'[k].blocks[n].blockType)
    {
      if k == c.chunkCoords {
        assert c.blocks[..][n] == c.blocks[n];
      }
    }
  }

  /**
   * Taking out an active chunk that nothing in the light queue names keeps
   * the lighting state of the rest of the map.
   */
  lemma RemoveKeepsLightState(m: ChunkMap, q: seq<BlockIterator>, k: IntVec2, defs: DefTable)
    requires k in m && Keyed(m) && ArraysDistinct(m) && DirtyOk(m, q) && TypesKnown(m, defs)
    requires NoneQueuedFor(q, m[k])
    ensures Keyed(m - {k}) && ArraysDistinct(m - {k}) && DirtyOk(m - {k}, q) && TypesKnown(m - {k}, defs)
  {
    DirtyOkRemove(m, q, k);
  }

  /** A light level as the nibble value a block stores. */
  function Level(v: int): (r: bv8)
    requires 0 <= v <= 15
    ensures r as int == v && r & 0x0F == r
  {
    v as bv8
  }

  /** The light a block holds, as levels. */
  function LightOf(b: Block): Light {
    Light(b.GetIndoorLight() as int, b.GetOutdoorLight() as int)
  }

  /**
   * The chunks whose meshes MarkChunkMeshesDirtyAround marks: the block's own
   * chunk and the chunk of every valid neighbour iterator.
   */
  function MeshesAround(it: BlockIterator): set<Chunk?>
    reads it.chunk
  {
    var ns := LightNeighbors(it);
    {it.chunk} + set i | 0 <= i < 6 && ns[i].IsValid() :: ns[i].chunk
  }

  /**
   * The chunks a scan created wait where the streaming invariant says
   * queued chunks wait: each is in the load or the generate queue as its
   * save file decides, so it is in that queue's state, full size and
   * unlinked.
   */
  lemma WaitingFromQueues(made: seq<Chunk>, files: map<IntVec2, seq<byte>>, defs: DefTable, active: ChunkMap,
                          gq: seq<Chunk>, lq: seq<Chunk>, sq: seq<Chunk>, pending: seq<ChunkJob>, completed: seq<ChunkJob>,
                          arriving: set<Chunk>, owners: map<array<Block>, Chunk>, load0: seq<Chunk>, gen0: seq<Chunk>)
    requires StreamingInvariant(defs, active, gq, lq, sq, pending, completed, arriving, owners)
    requires QueuedAfter(made, files, load0, gen0, lq, gq)
    ensures Waiting(made, files)
  {
    LoadsGeneratesSplit(made, files);
    forall i | 0 <= i < |made|
      ensures made[i].Sized() && made[i].Unlinked()
      ensures made[i].chunkState == QueuedState(if made[i].chunkCoords in files then LOAD else GENERATE)
    {
      var c := made[i];
      assert c in multiset(made);
      var q := if c.chunkCoords in files then lq else gq;
      assert c in q;
      var j :| 0 <= j < |q| && q[j] == c;
      assert c in arriving;
    }
  }

  class World {
    /** The block definition table and the tree stamps; both are fixed for the run. */
    const defs: DefTable
    const stamps: map<TreeSpecies, TreeStamp>
    var lightingEnabled: bool
    var activeChunks: ChunkMap
    var meshBuildQueue: seq<Chunk>
    var dirtyLightBlocks: seq<BlockIterator>
    var chunksQueuedForGeneration: seq<Chunk>
    var chunksQueuedForLoad: seq<Chunk>
    var chunksQueuedForSave: seq<Chunk>
    var outstandingGenerateJobs: int
    var outstandingLoadJobs: int
    var outstandingSaveJobs: int
    /** Jobs handed to the job system and not yet executed, in hand-over order. */
    var pendingJobs: seq<ChunkJob>
    /** Executed jobs waiting for the main thread to retrieve them. */
    var completedJobs: seq<ChunkJob>
    /** The save directory: one byte buffer per chunk file. */
    var saveFiles: map<IntVec2, seq<byte>>
    /** Proof bookkeeping: the chunks on their way in, queued for or in a generate or load job. */
    ghost var arriving: set<Chunk>
    /** Proof bookkeeping: the chunk each arriving chunk's block array was allocated for. */
    ghost var owners: map<array<Block>, Chunk>

    // -------------------------------------------------------------------
    // Lighting

    /** The state the lighting code works on: links right, queue and flags in step, types known. */
    ghost predicate LightReady()
      reads this`activeChunks, this`dirtyLightBlocks
      reads activeChunks.Values`northNeighbor, activeChunks.Values`southNeighbor
      reads activeChunks.Values`eastNeighbor, activeChunks.Values`westNeighbor
      reads Arrays(activeChunks)
    {
      && LightLevelsFit(defs)
      && Keyed(activeChunks) && LinksOk(activeChunks) && ArraysDistinct(activeChunks)
      && DirtyOk(activeChunks, dirtyLightBlocks) && TypesKnown(activeChunks, defs)
    }

    /**
     * MarkLightingDirty: flags the block and queues its iterator, unless
     * there is no block or it is already flagged. Calling it again for the
     * same block therefore changes nothing.
     */
    method MarkLightingDirty(it: BlockIterator)
      requires LightReady() && (it.chunk == null || IsActive(activeChunks, it.chunk))
      modifies this`dirtyLightBlocks, if it.chunk == null then {} else {it.chunk.blocks}
      ensures LightReady()
      ensures forall k, n | k in activeChunks && InIndexRange(n) ::
        if activeChunks[k] == it.chunk && n == it.blockIndex then Dirtied(old(activeChunks[k].blocks[n]), activeChunks[k].blocks[n])
        else activeChunks[k].blocks[n] == old(activeChunks[k].blocks[n])
      ensures it.InRange() ==> it.chunk.blocks[it.blockIndex].IsLightDirty()
      ensures it.InRange() && !old(it.chunk.blocks[it.blockIndex].IsLightDirty()) ==>
        && it.chunk.blocks[..] == old(it.chunk.blocks[..])[it.blockIndex := old(it.chunk.blocks[it.blockIndex]).SetIsLightDirty(true)]
        && dirtyLightBlocks == old(dirtyLightBlocks) + [it]
      ensures !it.InRange() || old(it.chunk.blocks[it.blockIndex].IsLightDirty()) ==>
        && (it.chunk != null ==> it.chunk.blocks[..] == old(it.chunk.blocks[..]))
        && dirtyLightBlocks == old(dirtyLightBlocks)
    {
      GetBlockExists(it);
      var block := it.GetBlock();
      if block.None? {
        return;
      }
      if block.value.IsLightDirty() {
        return;
      }
      it.chunk.blocks[it.blockIndex] := block.value.SetIsLightDirty(true);
      dirtyLightBlocks := dirtyLightBlocks + [it];
    }

    /** MarkLightingDirtyIfNotOpaque: MarkLightingDirty for an existing block that is not opaque. */
    method MarkLightingDirtyIfNotOpaque(it: BlockIterator)
      requires LightReady() && (it.chunk == null || IsActive(activeChunks, it.chunk))
      modifies this`dirtyLightBlocks, if it.chunk == null then {} else {it.chunk.blocks}
      ensures LightReady()
      ensures forall k, n | k in activeChunks && InIndexRange(n) ::
        if activeChunks[k] == it.chunk && n == it.blockIndex then Dirtied(old(activeChunks[k].blocks[n]), activeChunks[k].blocks[n])
        else activeChunks[k].blocks[n] == old(activeChunks[k].blocks[n])
      ensures old(dirtyLightBlocks) <= dirtyLightBlocks
      ensures it.InRange() && !it.chunk.blocks[it.blockIndex].IsFullOpaque() ==> it.chunk.blocks[it.blockIndex].IsLightDirty()
      ensures it.InRange() && !old(it.chunk.blocks[it.blockIndex].IsFullOpaque()) && !old(it.chunk.blocks[it.blockIndex].IsLightDirty()) ==>
        && it.chunk.blocks[..] == old(it.chunk.blocks[..])[it.blockIndex := old(it.chunk.blocks[it.blockIndex]).SetIsLightDirty(true)]
        && dirtyLightBlocks == old(dirtyLightBlocks) + [it]
      ensures !it.InRange() || old(it.chunk.blocks[it.blockIndex].IsFullOpaque()) || old(it.chunk.blocks[it.blockIndex].IsLightDirty()) ==>
        && (it.chunk != null ==> it.chunk.blocks[..] == old(it.chunk.blocks[..]))
        && dirtyLightBlocks == old(dirtyLightBlocks)
    {
      GetBlockExists(it);
      var block := it.GetBlock();
      if block.None? {
        return;
      }
      if !block.value.IsFullOpaque() {
        MarkLightingDirty(it);
      }
    }

    /**
     * MarkChunkMeshesDirtyAround: marks the mesh of the block's chunk and of
     * the chunk under each valid neighbour iterator; no other flag changes.
     */
    method MarkChunkMeshesDirtyAround(it: BlockIterator)
      requires Keyed(activeChunks) && LinksOk(activeChunks)
      requires it.chunk == null || IsActive(activeChunks, it.chunk)
      modifies activeChunks.Values`isMeshDirty
      ensures forall k | k in activeChunks ::
        (activeChunks[k].isMeshDirty == (old(activeChunks[k].isMeshDirty) || (it.chunk != null && activeChunks[k] in MeshesAround(it))))
    {
      var centerChunk := it.GetChunk();
      if centerChunk == null {
        return;
      }
      centerChunk.isMeshDirty := true;
      AroundActive(activeChunks, centerChunk);
      var neighbors := LightNeighbors(it);
      var i := 0;
      while i < 6
        invariant 0 <= i <= 6
        invariant neighbors == LightNeighbors(it)
        invariant forall k | k in activeChunks ::
          (activeChunks[k].isMeshDirty == (old(activeChunks[k].isMeshDirty) || activeChunks[k] == centerChunk
           || exists j | 0 <= j < i :: neighbors[j].IsValid() && neighbors[j].chunk == activeChunks[k]))
      {
        var neighbor := neighbors[i];
        if neighbor.IsValid() {
          var neighborChunk := neighbor.GetChunk();
          if neighborChunk != centerChunk {
            neighborChunk.isMeshDirty := true;
          }
        }
        i := i + 1;
      }
    }

    /**
     * The pop at the head of ProcessNextDirtyLightBlock: takes the front
     * iterator off the queue and clears its block's light-dirty flag.
     */
    method PopDirtyLightBlock() returns (it: BlockIterator)
      requires LightReady() && dirtyLightBlocks != []
      modifies this`dirtyLightBlocks, dirtyLightBlocks[0].chunk.blocks
      ensures it == old(dirtyLightBlocks[0]) && dirtyLightBlocks == old(dirtyLightBlocks[1..])
      ensures it.InRange() && IsActive(activeChunks, it.chunk)
      ensures LightReady()
      ensures it.chunk.blocks[..] == old(it.chunk.blocks[..])[it.blockIndex := old(it.chunk.blocks[it.blockIndex]).SetIsLightDirty(false)]
    {
      it := dirtyLightBlocks[0];
      var q := dirtyLightBlocks;
      var m := activeChunks;
      it.chunk.blocks[it.blockIndex] := it.chunk.blocks[it.blockIndex].SetIsLightDirty(false);
      dirtyLightBlocks := dirtyLightBlocks[1..];
      forall k, n | k in m && InIndexRange(n)
        ensures m[k].blocks[n].IsLightDirty() <==> BlockIterator(m[k], n) in q[1..]
        ensures KnownType(defs, m[k].blocks[n].blockType)
      {
        if m[k] == it.chunk && n == it.blockIndex {
          assert BlockIterator(m[k], n) == q[0];
          assert forall j | 1 <= j < |q| :: q[j] != q[0];
        } else {
          assert m[k].blocks[n] == old(m[k].blocks[n]);
          assert BlockIterator(m[k], n) in q[1..] <==> BlockIterator(m[k], n) in q;
        }
      }
    }

    /** Stores both light levels of an existing block of an active chunk; its flags and type stay. */
    method StoreLight(it: BlockIterator, l: Light)
      requires LightReady() && it.InRange() && IsActive(activeChunks, it.chunk)
      requires 0 <= l.indoor <= 15 && 0 <= l.outdoor <= 15
      modifies it.chunk.blocks
      ensures LightReady()
      ensures it.chunk.blocks[..] == old(it.chunk.blocks[..])[it.blockIndex :=
        old(it.chunk.blocks[it.blockIndex]).SetIndoorLight(Level(l.indoor)).SetOutdoorLight(Level(l.outdoor))]
      ensures LightOf(it.chunk.blocks[it.blockIndex]) == l
    {
      var m := activeChunks;
      var block := it.chunk.blocks[it.blockIndex];
      it.chunk.blocks[it.blockIndex] := block.SetIndoorLight(Level(l.indoor)).SetOutdoorLight(Level(l.outdoor));
      forall k, n | k in m && InIndexRange(n)
        ensures m[k].blocks[n].IsLightDirty() == old(m[k].blocks[n].IsLightDirty())
        ensures m[k].blocks[n].blockType == old(m[k].blocks[n].blockType)
      {
        if m[k] != it.chunk || n != it.blockIndex {
          assert m[k].blocks[n] == old(m[k].blocks[n]);
        }
      }
    }

    /**
     * The first half of ProcessNextDirtyLightBlock: pops the front iterator,
     * clears the block's flag and stores its correct light; `changed` tells
     * whether that light differs from what the block held. The queue
     * invariant guarantees a block there, so the source's null check never
     * fires. The correct light is read before the flag is cleared; it does
     * not depend on the flag.
     */
    method RelightFront() returns (it: BlockIterator, changed: bool)
      requires LightReady() && dirtyLightBlocks != []
      modifies this`dirtyLightBlocks, dirtyLightBlocks[0].chunk.blocks
      ensures it == old(dirtyLightBlocks[0]) && dirtyLightBlocks == old(dirtyLightBlocks[1..])
      ensures it.InRange() && IsActive(activeChunks, it.chunk)
      ensures LightReady()
      ensures var b := it.chunk.blocks[it.blockIndex];
        var before := old(it.chunk.blocks[it.blockIndex]);
        && it.chunk.blocks[..] == old(it.chunk.blocks[..])[it.blockIndex := b]
        && !b.IsLightDirty() && b.blockType == before.blockType
        && b.IsSky() == before.IsSky() && b.IsFullOpaque() == before.IsFullOpaque()
        && LightOf(b) == old(CorrectLight(it, defs))
        && (changed <==> LightOf(before) != LightOf(b))
    {
      it := dirtyLightBlocks[0];
      GetBlockExists(it);
      var block := it.chunk.blocks[it.blockIndex];
      var correct := CorrectLight(it, defs);
      var popped := PopDirtyLightBlock();
      changed := correct != LightOf(block);
      if changed {
        StoreLight(it, correct);
      }
    }

    /**
     * MarkLightingDirtyIfNotOpaque on the first `count` entries of
     * LightNeighbors: all six in the propagation loop of
     * ProcessNextDirtyLightBlock, the four horizontal ones in the sky pass.
     * Blocks change at most by gaining the flag, the block itself not at
     * all, and the queue only grows at its end.
     */
    method MarkNeighborsDirty(it: BlockIterator, count: int)
      requires LightReady() && it.InRange() && IsActive(activeChunks, it.chunk) && 0 <= count <= 6
      modifies this`dirtyLightBlocks, Arrays(activeChunks)
      ensures LightReady()
      ensures old(dirtyLightBlocks) <= dirtyLightBlocks
      ensures it.chunk.blocks[it.blockIndex] == old(it.chunk.blocks[it.blockIndex])
      ensures forall k, n | k in activeChunks && InIndexRange(n) ::
        Dirtied(old(activeChunks[k].blocks[n]), activeChunks[k].blocks[n])
      ensures forall i | 0 <= i < count :: Marked(LightNeighbors(it)[i])
    {
      var m := activeChunks;
      var neighbors := LightNeighbors(it);
      AroundActive(m, it.chunk);
      forall j | 0 <= j < 6
        ensures neighbors[j] != it && (neighbors[j].chunk != null ==> IsActive(m, neighbors[j].chunk))
      {
        NeighborIsElsewhere(m, it, j);
      }
      ghost var start := BlocksOf(m);
      ghost var cur := MarkEachNeighbor(it, neighbors, count, start);
      forall k, n | k in m && InIndexRange(n)
        ensures Dirtied(old(m[k].blocks[n]), m[k].blocks[n])
      {
        assert start[k][n] == old(m[k].blocks[n]) && cur[k][n] == m[k].blocks[n];
      }
      var ik := it.chunk.chunkCoords;
      assert it.chunk == m[ik];
      assert cur[ik][it.blockIndex] == start[ik][it.blockIndex];
      forall j | 0 <= j < count
        ensures Marked(LightNeighbors(it)[j])
      {
        MarkedFromSnapshot(m, cur, neighbors[j]);
      }
    }

    /**
     * The loop of MarkNeighborsDirty over the first `count` of `neighbors`,
     * seen through snapshots of the active chunks' blocks: `start` before
     * the loop, `cur` after it. Blocks change at most by gaining the flag,
     * the block of `it` not at all, and every visited neighbour is marked.
     */
    method MarkEachNeighbor(it: BlockIterator, neighbors: seq<BlockIterator>, count: int,
                            ghost start: map<IntVec2, seq<Block>>)
      returns (ghost cur: map<IntVec2, seq<Block>>)
      requires LightReady() && it.InRange() && IsActive(activeChunks, it.chunk) && 0 <= count <= |neighbors|
      requires forall j | 0 <= j < |neighbors| ::
        neighbors[j] != it && (neighbors[j].chunk != null ==> IsActive(activeChunks, neighbors[j].chunk))
      requires start == BlocksOf(activeChunks)
      modifies this`dirtyLightBlocks, Arrays(activeChunks)
      ensures LightReady() && activeChunks == old(activeChunks)
      ensures old(dirtyLightBlocks) <= dirtyLightBlocks
      ensures cur == BlocksOf(activeChunks) && Covers(start, activeChunks) && cur.Keys == start.Keys
      ensures cur[it.chunk.chunkCoords][it.blockIndex] == start[it.chunk.chunkCoords][it.blockIndex]
      ensures forall k, n | k in activeChunks && InIndexRange(n) :: Dirtied(start[k][n], cur[k][n])
      ensures forall j | 0 <= j < count :: MarkedIn(cur, neighbors[j])
    {
      var m := activeChunks;
      cur := start;
      var i := 0;
      while i < count
        invariant 0 <= i <= count
        invariant LightReady() && activeChunks == m
        invariant old(dirtyLightBlocks) <= dirtyLightBlocks
        invariant cur == BlocksOf(m)
        invariant Covers(start, m) && cur.Keys == start.Keys
        invariant cur[it.chunk.chunkCoords][it.blockIndex] == start[it.chunk.chunkCoords][it.blockIndex]
        invariant forall k, n | k in m && InIndexRange(n) :: Dirtied(start[k][n], cur[k][n])
        invariant forall j | 0 <= j < i :: MarkedIn(cur, neighbors[j])
      {
        ghost var prev := cur;
        cur := MarkNeighborDirty(neighbors[i], it, prev);
        MarksKept(m, prev, cur, neighbors, i);
        DirtiedChain(m, start, prev, cur);
        i := i + 1;
      }
    }

    /**
     * One step of the neighbour loop, MarkLightingDirtyIfNotOpaque(n), seen
     * through snapshots of the active chunks' blocks: `prev` before the step,
     * `next` after it. Only `n`'s block may change, and only by gaining the
     * flag; `other` is a block that is not `n` and so stays.
     */
    method MarkNeighborDirty(n: BlockIterator, other: BlockIterator, ghost prev: map<IntVec2, seq<Block>>)
      returns (ghost next: map<IntVec2, seq<Block>>)
      requires LightReady() && (n.chunk != null ==> IsActive(activeChunks, n.chunk))
      requires other.InRange() && IsActive(activeChunks, other.chunk) && n != other
      requires prev == BlocksOf(activeChunks)
      modifies this`dirtyLightBlocks, if n.chunk == null then {} else {n.chunk.blocks}
      ensures LightReady() && activeChunks == old(activeChunks)
      ensures old(dirtyLightBlocks) <= dirtyLightBlocks
      ensures next == BlocksOf(activeChunks) && next.Keys == prev.Keys
      ensures forall k, idx | k in activeChunks && InIndexRange(idx) :: Dirtied(prev[k][idx], next[k][idx])
      ensures next[other.chunk.chunkCoords][other.blockIndex] == prev[other.chunk.chunkCoords][other.blockIndex]
      ensures MarkedIn(next, n)
    {
      var m := activeChunks;
      MarkLightingDirtyIfNotOpaque(n);
      next := BlocksOf(m);
      forall k, idx | k in m && InIndexRange(idx)
        ensures Dirtied(prev[k][idx], next[k][idx])
      {
        assert prev[k][idx] == old(m[k].blocks[idx]) && next[k][idx] == m[k].blocks[idx];
      }
      var ok := other.chunk.chunkCoords;
      assert other.chunk == m[ok];
      assert next[ok][other.blockIndex] == m[ok].blocks[other.blockIndex] == old(m[ok].blocks[other.blockIndex]);
    }

    /**
     * What ProcessNextDirtyLightBlock does after a light change: marks the
     * surrounding meshes dirty and queues every existing, non-opaque
     * neighbour.
     */
    method PropagateLightChange(it: BlockIterator)
      requires LightReady() && it.InRange() && IsActive(activeChunks, it.chunk)
      modifies this`dirtyLightBlocks, Arrays(activeChunks), activeChunks.Values`isMeshDirty
      ensures LightReady()
      ensures old(dirtyLightBlocks) <= dirtyLightBlocks
      ensures it.chunk.blocks[it.blockIndex] == old(it.chunk.blocks[it.blockIndex])
      ensures forall k, n | k in activeChunks && InIndexRange(n) ::
        Dirtied(old(activeChunks[k].blocks[n]), activeChunks[k].blocks[n])
      ensures forall i | 0 <= i < 6 :: Marked(LightNeighbors(it)[i])
      ensures forall k | k in activeChunks ::
        (activeChunks[k].isMeshDirty == (old(activeChunks[k].isMeshDirty) || activeChunks[k] in MeshesAround(it)))
    {
      MarkChunkMeshesDirtyAround(it);
      MarkNeighborsDirty(it, 6);
    }

    /**
     * ProcessNextDirtyLightBlock on a non-empty queue: pops the front
     * iterator, clears its flag and stores the block's correct light. Only
     * when that light differs from what the block held does it propagate
     * the change; otherwise nothing else changes.
     */
    method ProcessFrontDirtyLightBlock() returns (it: BlockIterator)
      requires LightReady() && dirtyLightBlocks != []
      modifies this`dirtyLightBlocks, Arrays(activeChunks), activeChunks.Values`isMeshDirty
      ensures LightReady()
      ensures it == old(dirtyLightBlocks[0]) && it.InRange() && IsActive(activeChunks, it.chunk)
      ensures var q1 := old(dirtyLightBlocks[1..]);
        |dirtyLightBlocks| >= |q1| && dirtyLightBlocks[..|q1|] == q1
      ensures var b := it.chunk.blocks[it.blockIndex];
        var before := old(it.chunk.blocks[it.blockIndex]);
        && !b.IsLightDirty() && b.blockType == before.blockType
        && b.IsSky() == before.IsSky() && b.IsFullOpaque() == before.IsFullOpaque()
        && LightOf(b) == old(CorrectLight(it, defs))
      ensures forall k, n | k in activeChunks && InIndexRange(n) && (activeChunks[k] != it.chunk || n != it.blockIndex) ::
        Dirtied(old(activeChunks[k].blocks[n]), activeChunks[k].blocks[n])
      ensures LightOf(old(it.chunk.blocks[it.blockIndex])) == LightOf(it.chunk.blocks[it.blockIndex]) ==>
        && dirtyLightBlocks == old(dirtyLightBlocks[1..])
        && (forall k | k in activeChunks :: activeChunks[k].isMeshDirty == old(activeChunks[k].isMeshDirty))
        && forall k, n | k in activeChunks && InIndexRange(n) && (activeChunks[k] != it.chunk || n != it.blockIndex) ::
             activeChunks[k].blocks[n] == old(activeChunks[k].blocks[n])
      ensures LightOf(old(it.chunk.blocks[it.blockIndex])) != LightOf(it.chunk.blocks[it.blockIndex]) ==>
        && (forall k | k in activeChunks ::
              (activeChunks[k].isMeshDirty == (old(activeChunks[k].isMeshDirty) || activeChunks[k] in MeshesAround(it))))
        && forall i | 0 <= i < 6 :: Marked(LightNeighbors(it)[i])
    {
      var m := activeChunks;
      var changed;
      it, changed := RelightFront();
      assert it.chunk == m[it.chunk.chunkCoords];
      if changed {
        label Relit:
        PropagateLightChange(it);
        forall k, n | k in m && InIndexRange(n) && (m[k] != it.chunk || n != it.blockIndex)
          ensures Dirtied(old(m[k].blocks[n]), m[k].blocks[n])
        {
          assert old@Relit(m[k].blocks[n]) == old(m[k].blocks[n]);
        }
      } else {
        forall k, n | k in m && InIndexRange(n) && (m[k] != it.chunk || n != it.blockIndex)
          ensures m[k].blocks[n] == old(m[k].blocks[n])
        {
        }
      }
    }

    /**
     * ProcessNextDirtyLightBlock: on an empty queue nothing changes;
     * otherwise the front block is popped, unflagged and given its correct
     * light, and the queue keeps its remaining entries in order at its
     * front. No block changes type.
     */
    method ProcessNextDirtyLightBlock()
      requires LightReady()
      modifies this`dirtyLightBlocks, Arrays(activeChunks), activeChunks.Values`isMeshDirty
      ensures LightReady()
      ensures forall k, n | k in activeChunks && InIndexRange(n) ::
        activeChunks[k].blocks[n].blockType == old(activeChunks[k].blocks[n].blockType)
      ensures old(dirtyLightBlocks) == [] ==> dirtyLightBlocks == []
      ensures old(dirtyLightBlocks) == [] ==>
        forall k, n | k in activeChunks && InIndexRange(n) :: activeChunks[k].blocks[n] == old(activeChunks[k].blocks[n])
      ensures old(dirtyLightBlocks) != [] ==>
        var it := old(dirtyLightBlocks[0]);
        var q1 := old(dirtyLightBlocks[1..]);
        && it.InRange() && IsActive(activeChunks, it.chunk)
        && !it.chunk.blocks[it.blockIndex].IsLightDirty()
        && LightOf(it.chunk.blocks[it.blockIndex]) == old(CorrectLight(it, defs))
        && |dirtyLightBlocks| >= |q1| && dirtyLightBlocks[..|q1|] == q1
    {
      if dirtyLightBlocks == [] {
        return;
      }
      var m := activeChunks;
      var it := ProcessFrontDirtyLightBlock();
      forall k, n | k in m && InIndexRange(n)
        ensures m[k].blocks[n].blockType == old(m[k].blocks[n].blockType)
      {
        if m[k] != it.chunk || n != it.blockIndex {
          assert Dirtied(old(m[k].blocks[n]), m[k].blocks[n]);
        }
      }
    }

    /**
     * ProcessDirtyLighting: processes queued blocks until the queue is
     * empty, here within a step budget. When the queue drains, no block of
     * any active chunk is left light-dirty.
     */
    method ProcessDirtyLighting(budget: nat) returns (drained: bool)
      requires LightReady()
      modifies this`dirtyLightBlocks, Arrays(activeChunks), activeChunks.Values`isMeshDirty
      ensures LightReady()
      ensures drained <==> dirtyLightBlocks == []
      ensures drained ==> forall k, n | k in activeChunks && InIndexRange(n) :: !activeChunks[k].blocks[n].IsLightDirty()
      ensures forall k, n | k in activeChunks && InIndexRange(n) ::
        activeChunks[k].blocks[n].blockType == old(activeChunks[k].blocks[n].blockType)
    {
      var steps := 0;
      while dirtyLightBlocks != [] && steps < budget
        invariant LightReady() && 0 <= steps <= budget
        invariant forall k, n | k in activeChunks && InIndexRange(n) ::
          activeChunks[k].blocks[n].blockType == old(activeChunks[k].blocks[n].blockType)
        decreases budget - steps
      {
        ProcessNextDirtyLightBlock();
        steps := steps + 1;
      }
      drained := dirtyLightBlocks == [];
    }

    // -------------------------------------------------------------------
    // Lighting a chunk that has just become active

    /**
     * The three marking passes of InitializeChunkLighting on a chunk whose
     * blocks are already reset: each block ends at the sky pass's stage
     * (sky-lit if it sees the sky, otherwise changed at most by gaining the
     * flag), a non-opaque block on a linked side and an emissive block are
     * light-dirty, and blocks of other chunks at most gain the flag.
     */
    method InitializeChunkLighting(c: Chunk, ghost prev: map<IntVec2, seq<Block>>) returns (ghost next: map<IntVec2, seq<Block>>)
      requires LightReady() && IsActive(activeChunks, c) && prev == BlocksOf(activeChunks)
      modifies this`dirtyLightBlocks, Arrays(activeChunks)
      ensures LightReady() && next == BlocksOf(activeChunks) && DirtiedExcept(activeChunks, c.chunkCoords, prev, next)
      ensures SkyStaged(prev[c.chunkCoords], next[c.chunkCoords])
      ensures SidesMarked(old(SidesOf(c)), next[c.chunkCoords]) && EmittersMarked(next[c.chunkCoords], defs)
    {
      var m := activeChunks;
      ghost var sides := SidesOf(c);
      ghost var b := BoundaryStage(c, prev);
      ghost var d := SkyStageOf(c, b);
      next := EmissiveStage(c, d);
      InitChain(sides, defs, prev[c.chunkCoords], b[c.chunkCoords], d[c.chunkCoords], next[c.chunkCoords]);
      DirtiedChainExcept(m, c.chunkCoords, prev, b, d, next);
    }

    /** MarkBoundaryBlocksDirty, its effect stated on snapshots of the active chunks' blocks. */
    method BoundaryStage(c: Chunk, ghost prev: map<IntVec2, seq<Block>>) returns (ghost next: map<IntVec2, seq<Block>>)
      requires LightReady() && IsActive(activeChunks, c) && prev == BlocksOf(activeChunks)
      modifies this`dirtyLightBlocks, Arrays(activeChunks)
      ensures LightReady() && next == BlocksOf(activeChunks) && DirtiedExcept(activeChunks, c.chunkCoords, prev, next)
      ensures AllDirtied(prev[c.chunkCoords], next[c.chunkCoords]) && SidesMarked(old(SidesOf(c)), next[c.chunkCoords])
    {
      var m := activeChunks;
      MarkBoundaryBlocksDirty(c);
      next := BlocksOf(m);
      forall k, n | k in m && InIndexRange(n)
        ensures Dirtied(prev[k][n], next[k][n])
      {
        assert prev[k][n] == old(m[k].blocks[n]) && next[k][n] == m[k].blocks[n];
      }
      forall n | InIndexRange(n) && OnLinkedSide(c, n)
        ensures !next[c.chunkCoords][n].IsFullOpaque() ==> next[c.chunkCoords][n].IsLightDirty()
      {
        assert Marked(BlockIterator(c, n));
      }
    }

    /** MarkSkyAndOutdoorLight, its effect stated on snapshots of the active chunks' blocks. */
    method SkyStageOf(c: Chunk, ghost prev: map<IntVec2, seq<Block>>) returns (ghost next: map<IntVec2, seq<Block>>)
      requires LightReady() && IsActive(activeChunks, c) && prev == BlocksOf(activeChunks)
      modifies this`dirtyLightBlocks, Arrays(activeChunks)
      ensures LightReady() && next == BlocksOf(activeChunks) && DirtiedExcept(activeChunks, c.chunkCoords, prev, next)
      ensures SkyStaged(prev[c.chunkCoords], next[c.chunkCoords])
    {
      var m := activeChunks;
      MarkSkyAndOutdoorLight(c);
      next := BlocksOf(m);
      forall k, n | k in m && k != c.chunkCoords && InIndexRange(n)
        ensures Dirtied(prev[k][n], next[k][n])
      {
        assert prev[k][n] == old(m[k].blocks[n]) && next[k][n] == m[k].blocks[n];
      }
    }

    /** MarkEmissiveBlocksDirty, its effect stated on snapshots of the active chunks' blocks. */
    method EmissiveStage(c: Chunk, ghost prev: map<IntVec2, seq<Block>>) returns (ghost next: map<IntVec2, seq<Block>>)
      requires LightReady() && IsActive(activeChunks, c) && prev == BlocksOf(activeChunks)
      modifies this`dirtyLightBlocks, Arrays(activeChunks)
      ensures LightReady() && next == BlocksOf(activeChunks) && DirtiedExcept(activeChunks, c.chunkCoords, prev, next)
      ensures AllDirtied(prev[c.chunkCoords], next[c.chunkCoords]) && EmittersMarked(next[c.chunkCoords], defs)
    {
      var m := activeChunks;
      MarkEmissiveBlocksDirty(c);
      next := BlocksOf(m);
      forall k, n | k in m && InIndexRange(n)
        ensures Dirtied(prev[k][n], next[k][n])
      {
        assert prev[k][n] == old(m[k].blocks[n]) && next[k][n] == m[k].blocks[n];
      }
    }

    /**
     * MarkBoundaryBlocksDirty: every block on a side of `c` that has a
     * neighbour chunk is marked light-dirty unless it is opaque. Blocks
     * change at most by gaining the flag.
     */
    method MarkBoundaryBlocksDirty(c: Chunk)
      requires LightReady() && IsActive(activeChunks, c)
      modifies this`dirtyLightBlocks, Arrays(activeChunks)
      ensures LightReady()
      ensures forall k, n | k in activeChunks && InIndexRange(n) ::
        Dirtied(old(activeChunks[k].blocks[n]), activeChunks[k].blocks[n])
      ensures forall n | InIndexRange(n) && OnLinkedSide(c, n) :: Marked(BlockIterator(c, n))
    {
      var m := activeChunks;
      ghost var start := map k | k in m :: m[k].blocks[..];
      var s := 0;
      while s < CHUNK_BLOCK_TOTAL
        invariant 0 <= s <= CHUNK_BLOCK_TOTAL
        invariant LightReady()
        invariant forall k, n | k in m && InIndexRange(n) :: start[k][n] == old(m[k].blocks[n])
        invariant Covers(start, m)
        invariant forall k, n | k in m && InIndexRange(n) :: Dirtied(start[k][n], m[k].blocks[n])
        invariant forall n | InIndexRange(n) && BoundaryOrder(n) < s && OnLinkedSide(c, n) :: Marked(BlockIterator(c, n))
      {
        MarkBoundaryBlock(c, s, start);
        s := s + 1;
      }
    }

    /** One step of MarkBoundaryBlocksDirty: the block its nested loops visit at step `s`. */
    method MarkBoundaryBlock(c: Chunk, s: int, ghost start: map<IntVec2, seq<Block>>)
      requires LightReady() && IsActive(activeChunks, c) && InIndexRange(s)
      requires Covers(start, activeChunks)
      requires forall k, n | k in activeChunks && InIndexRange(n) :: Dirtied(start[k][n], activeChunks[k].blocks[n])
      requires forall n | InIndexRange(n) && BoundaryOrder(n) < s && OnLinkedSide(c, n) :: Marked(BlockIterator(c, n))
      modifies this`dirtyLightBlocks, Arrays(activeChunks)
      ensures LightReady()
      ensures forall k, n | k in activeChunks && InIndexRange(n) :: Dirtied(start[k][n], activeChunks[k].blocks[n])
      ensures forall n | InIndexRange(n) && BoundaryOrder(n) <= s && OnLinkedSide(c, n) :: Marked(BlockIterator(c, n))
    {
      var m := activeChunks;
      var n := BoundaryIndex(s);
      BoundaryStep(s);
      if OnLinkedSide(c, n) {
        MarkLightingDirtyIfNotOpaque(BlockIterator(c, n));
      }
      forall k, i | k in m && InIndexRange(i)
        ensures Dirtied(start[k][i], m[k].blocks[i])
      {
        assert Dirtied(start[k][i], old(m[k].blocks[i]));
      }
      forall j | InIndexRange(j) && BoundaryOrder(j) <= s && OnLinkedSide(c, j)
        ensures Marked(BlockIterator(c, j))
      {
        assert c == m[c.chunkCoords];
        if BoundaryOrder(j) == s {
          BoundaryVisitsEach(j);
        } else {
          assert old(Marked(BlockIterator(c, j)));
        }
      }
    }

    /** The sky pass's write to a block that sees the sky: the sky flag and full outdoor light; its other light and flags stay. */
    method StoreSky(it: BlockIterator)
      requires LightReady() && it.InRange() && IsActive(activeChunks, it.chunk)
      modifies it.chunk.blocks
      ensures LightReady()
      ensures it.chunk.blocks[..] == old(it.chunk.blocks[..])[it.blockIndex :=
        old(it.chunk.blocks[it.blockIndex]).SetIsSky(true).SetOutdoorLight(15)]
    {
      var m := activeChunks;
      var block := it.chunk.blocks[it.blockIndex];
      it.chunk.blocks[it.blockIndex] := block.SetIsSky(true).SetOutdoorLight(15);
      forall k, n | k in m && InIndexRange(n)
        ensures m[k].blocks[n].IsLightDirty() == old(m[k].blocks[n].IsLightDirty())
        ensures m[k].blocks[n].blockType == old(m[k].blocks[n].blockType)
      {
        if m[k] != it.chunk || n != it.blockIndex {
          assert m[k].blocks[n] == old(m[k].blocks[n]);
        }
      }
    }

    /** The sky pass's change to the block itself: sky flag, full outdoor light, and queued. No other block changes. */
    method StoreSkyAndQueue(it: BlockIterator)
      requires LightReady() && it.InRange() && IsActive(activeChunks, it.chunk)
      modifies this`dirtyLightBlocks, it.chunk.blocks
      ensures LightReady()
      ensures SkyLit(old(it.chunk.blocks[it.blockIndex]), it.chunk.blocks[it.blockIndex])
      ensures forall n | InIndexRange(n) && n != it.blockIndex :: it.chunk.blocks[n] == old(it.chunk.blocks[n])
    {
      StoreSky(it);
      MarkLightingDirty(it);
    }

    /**
     * What the sky pass does to a block that sees the sky: sky flag and full
     * outdoor light, the block queued, its horizontal neighbours queued
     * unless opaque. Every other block changes at most by gaining the flag.
     */
    method LightSkyBlock(it: BlockIterator)
      requires LightReady() && it.InRange() && IsActive(activeChunks, it.chunk)
      modifies this`dirtyLightBlocks, Arrays(activeChunks)
      ensures LightReady()
      ensures SkyLit(old(it.chunk.blocks[it.blockIndex]), it.chunk.blocks[it.blockIndex])
      ensures forall k, n | k in activeChunks && InIndexRange(n) && (k != it.chunk.chunkCoords || n != it.blockIndex) ::
        Dirtied(old(activeChunks[k].blocks[n]), activeChunks[k].blocks[n])
      ensures forall i | 0 <= i < 4 :: Marked(LightNeighbors(it)[i])
    {
      var m := activeChunks;
      ghost var before := map k | k in m :: m[k].blocks[..];
      StoreSkyAndQueue(it);
      ghost var mid := map k | k in m :: m[k].blocks[..];
      MarkNeighborsDirty(it, 4);
      forall k, n | k in m && InIndexRange(n) && (k != it.chunk.chunkCoords || n != it.blockIndex)
        ensures Dirtied(old(m[k].blocks[n]), m[k].blocks[n])
      {
        assert mid[k][n] == before[k][n];
      }
    }

    /**
     * MarkSkyAndOutdoorLight: walking each column of `c` from the top
     * down, every block above the first opaque one is sky-lit and queued
     * with its horizontal neighbours. Every block of `c` ends sky-lit if it
     * sees the sky and otherwise changes at most by gaining the flag;
     * blocks of other chunks change at most by gaining the flag.
     */
    method MarkSkyAndOutdoorLight(c: Chunk)
      requires LightReady() && IsActive(activeChunks, c)
      modifies this`dirtyLightBlocks, Arrays(activeChunks)
      ensures LightReady()
      ensures forall k, n | k in activeChunks && k != c.chunkCoords && InIndexRange(n) ::
        Dirtied(old(activeChunks[k].blocks[n]), activeChunks[k].blocks[n])
      ensures forall n | InIndexRange(n) :: SkyStage(old(c.blocks[n]), c.blocks[n], SeesSky(old(c.blocks[..]), n))
      ensures forall n, i | InIndexRange(n) && SeesSky(old(c.blocks[..]), n) && 0 <= i < 4 ::
        NeighborMarked(c, n, i)
    {
      var m := activeChunks;
      ghost var start := map k | k in m :: m[k].blocks[..];
      ghost var sc := start[c.chunkCoords];
      SkyPass(c, start);
      SkyPassDone(sc, c.blocks[..]);
      SkyLitAll(sc);
    }

    /** The loop of MarkSkyAndOutdoorLight, with `start` the blocks of every active chunk when it begins. */
    method SkyPass(c: Chunk, ghost start: map<IntVec2, seq<Block>>)
      requires LightReady() && IsActive(activeChunks, c) && Covers(start, activeChunks)
      requires forall k, n | k in activeChunks && InIndexRange(n) :: start[k][n] == activeChunks[k].blocks[n]
      modifies this`dirtyLightBlocks, Arrays(activeChunks)
      ensures LightReady()
      ensures forall k, n | k in activeChunks && k != c.chunkCoords && InIndexRange(n) :: Dirtied(start[k][n], activeChunks[k].blocks[n])
      ensures forall n | InIndexRange(n) ::
        SkyStage(start[c.chunkCoords][n], c.blocks[n], SkyOrder(n) < CHUNK_BLOCK_TOTAL && SeesSky(start[c.chunkCoords], n))
      ensures forall n, i | n in SkyLitBefore(start[c.chunkCoords], CHUNK_BLOCK_TOTAL) && 0 <= i < 4 ::
        NeighborMarked(c, n, i)
    {
      var m := activeChunks;
      ghost var sc := start[c.chunkCoords];
      var t := 0;
      var isSkyBlocked := false;
      while t < CHUNK_BLOCK_TOTAL
        invariant 0 <= t <= CHUNK_BLOCK_TOTAL
        invariant LightReady()
        invariant forall k, n | k in m && k != c.chunkCoords && InIndexRange(n) :: Dirtied(start[k][n], m[k].blocks[n])
        invariant forall n | InIndexRange(n) :: SkyStage(sc[n], c.blocks[n], SkyOrder(n) < t && SeesSky(sc, n))
        invariant forall n, i | n in SkyLitBefore(sc, t) && 0 <= i < 4 ::
          NeighborMarked(c, n, i)
        invariant t < CHUNK_BLOCK_TOTAL && t % CHUNK_SIZE_Z != 0 ==>
          (isSkyBlocked <==> !ClearAbove(sc, SkyX(t), SkyY(t), SkyZ(t) + 1))
      {
        if t % CHUNK_SIZE_Z == 0 {
          isSkyBlocked := false;
          SkyColumnTop(t);
        }
        isSkyBlocked := MarkSkyStep(c, t, isSkyBlocked, start);
        if (t + 1) % CHUNK_SIZE_Z != 0 {
          SkyNextStep(t);
        }
        t := t + 1;
      }
    }

    /**
     * One step of MarkSkyAndOutdoorLight: the block its nested loops visit
     * at step `t`, with `isSkyBlocked` telling whether an opaque block lies
     * above it in its column. Returns whether one lies at or above it. The
     * source's null check on the block never fires: the index is in range.
     */
    method MarkSkyStep(c: Chunk, t: int, isSkyBlocked: bool, ghost start: map<IntVec2, seq<Block>>) returns (blocked: bool)
      requires LightReady() && IsActive(activeChunks, c) && InIndexRange(t)
      requires Covers(start, activeChunks)
      requires forall k, n | k in activeChunks && k != c.chunkCoords && InIndexRange(n) :: Dirtied(start[k][n], activeChunks[k].blocks[n])
      requires forall n | InIndexRange(n) ::
        SkyStage(start[c.chunkCoords][n], c.blocks[n], SkyOrder(n) < t && SeesSky(start[c.chunkCoords], n))
      requires forall n, i | n in SkyLitBefore(start[c.chunkCoords], t) && 0 <= i < 4 ::
        NeighborMarked(c, n, i)
      requires isSkyBlocked <==> !ClearAbove(start[c.chunkCoords], SkyX(t), SkyY(t), SkyZ(t) + 1)
      modifies this`dirtyLightBlocks, Arrays(activeChunks)
      ensures LightReady()
      ensures forall k, n | k in activeChunks && k != c.chunkCoords && InIndexRange(n) :: Dirtied(start[k][n], activeChunks[k].blocks[n])
      ensures forall n | InIndexRange(n) ::
        SkyStage(start[c.chunkCoords][n], c.blocks[n], SkyOrder(n) < t + 1 && SeesSky(start[c.chunkCoords], n))
      ensures forall n, i | n in SkyLitBefore(start[c.chunkCoords], t + 1) && 0 <= i < 4 ::
        NeighborMarked(c, n, i)
      ensures blocked <==> !ClearAbove(start[c.chunkCoords], SkyX(t), SkyY(t), SkyZ(t))
    {
      var m := activeChunks;
      ghost var sc := start[c.chunkCoords];
      SkyStep(t);
      var x, y, z := SkyX(t), SkyY(t), SkyZ(t);
      var n := GetBlockIndex(x, y, z);
      ClearAboveStep(sc, x, y, z);
      var block := c.blocks[n];
      assert block.IsFullOpaque() == sc[n].IsFullOpaque();
      blocked := isSkyBlocked;
      if !isSkyBlocked && !block.IsFullOpaque() {
        LightSkyStep(c, t, start);
      } else {
        if block.IsFullOpaque() {
          blocked := true;
        }
        forall j | InIndexRange(j) && SkyOrder(j) == t
          ensures !SeesSky(sc, j)
        {
          SkyVisitsEach(j);
        }
        SkyLitStep(sc, t);
      }
    }

    /** MarkSkyStep for a block that sees the sky: LightSkyBlock, and the pass's invariants carried one step on. */
    method LightSkyStep(c: Chunk, t: int, ghost start: map<IntVec2, seq<Block>>)
      requires LightReady() && IsActive(activeChunks, c) && InIndexRange(t)
      requires Covers(start, activeChunks)
      requires forall k, n | k in activeChunks && k != c.chunkCoords && InIndexRange(n) :: Dirtied(start[k][n], activeChunks[k].blocks[n])
      requires forall n | InIndexRange(n) ::
        SkyStage(start[c.chunkCoords][n], c.blocks[n], SkyOrder(n) < t && SeesSky(start[c.chunkCoords], n))
      requires forall n, i | n in SkyLitBefore(start[c.chunkCoords], t) && 0 <= i < 4 ::
        NeighborMarked(c, n, i)
      requires ClearAbove(start[c.chunkCoords], SkyX(t), SkyY(t), SkyZ(t))
      modifies this`dirtyLightBlocks, Arrays(activeChunks)
      ensures LightReady()
      ensures forall k, n | k in activeChunks && k != c.chunkCoords && InIndexRange(n) :: Dirtied(start[k][n], activeChunks[k].blocks[n])
      ensures forall n | InIndexRange(n) ::
        SkyStage(start[c.chunkCoords][n], c.blocks[n], SkyOrder(n) < t + 1 && SeesSky(start[c.chunkCoords], n))
      ensures forall n, i | n in SkyLitBefore(start[c.chunkCoords], t + 1) && 0 <= i < 4 ::
        NeighborMarked(c, n, i)
    {
      var m := activeChunks;
      ghost var sc := start[c.chunkCoords];
      SkyStep(t);
      var n := GetBlockIndex(SkyX(t), SkyY(t), SkyZ(t));
      assert SeesSky(sc, n);
      assert c == m[c.chunkCoords];
      ghost var prev := map k | k in m :: m[k].blocks[..];
      NeighborMarksSnapshot(m, c, prev, SkyLitBefore(sc, t));
      LightSkyBlock(BlockIterator(c, n));
      SkyStagesAdvance(m, c, start, prev, t, n);
      SkyLitStep(sc, t);
      SideMarksAdvance(m, c, prev, SkyLitBefore(sc, t), n);
    }

    /**
     * MarkEmissiveBlocksDirty: every block of `c` whose definition gives
     * off light is marked light-dirty. Blocks change at most by gaining the
     * flag.
     */
    method MarkEmissiveBlocksDirty(c: Chunk)
      requires LightReady() && IsActive(activeChunks, c)
      modifies this`dirtyLightBlocks, Arrays(activeChunks)
      ensures LightReady()
      ensures forall k, n | k in activeChunks && InIndexRange(n) ::
        Dirtied(old(activeChunks[k].blocks[n]), activeChunks[k].blocks[n])
      ensures forall n | InIndexRange(n) && Emissive(c.blocks[n], defs) :: c.blocks[n].IsLightDirty()
    {
      var m := activeChunks;
      ghost var start := map k | k in m :: m[k].blocks[..];
      var i := 0;
      while i < CHUNK_BLOCK_TOTAL
        invariant 0 <= i <= CHUNK_BLOCK_TOTAL
        invariant LightReady()
        invariant forall k, n | k in m && InIndexRange(n) :: start[k][n] == old(m[k].blocks[n])
        invariant Covers(start, m)
        invariant forall k, n | k in m && InIndexRange(n) :: Dirtied(start[k][n], m[k].blocks[n])
        invariant forall n | 0 <= n < i && Emissive(c.blocks[n], defs) :: c.blocks[n].IsLightDirty()
      {
        MarkEmissiveBlock(c, i, start);
        i := i + 1;
      }
    }

    /** One step of MarkEmissiveBlocksDirty: block `i`. */
    method MarkEmissiveBlock(c: Chunk, i: int, ghost start: map<IntVec2, seq<Block>>)
      requires LightReady() && IsActive(activeChunks, c) && InIndexRange(i)
      requires Covers(start, activeChunks)
      requires forall k, n | k in activeChunks && InIndexRange(n) :: Dirtied(start[k][n], activeChunks[k].blocks[n])
      requires forall n | 0 <= n < i && Emissive(c.blocks[n], defs) :: c.blocks[n].IsLightDirty()
      modifies this`dirtyLightBlocks, Arrays(activeChunks)
      ensures LightReady()
      ensures forall k, n | k in activeChunks && InIndexRange(n) :: Dirtied(start[k][n], activeChunks[k].blocks[n])
      ensures forall n | 0 <= n <= i && Emissive(c.blocks[n], defs) :: c.blocks[n].IsLightDirty()
    {
      var m := activeChunks;
      assert c == m[c.chunkCoords];
      var block := c.blocks[i];
      if Emissive(block, defs) {
        MarkLightingDirty(BlockIterator(c, i));
      }
      forall k, j | k in m && InIndexRange(j)
        ensures Dirtied(start[k][j], m[k].blocks[j])
      {
        assert Dirtied(start[k][j], old(m[k].blocks[j]));
      }
      forall j | 0 <= j <= i && Emissive(c.blocks[j], defs)
        ensures c.blocks[j].IsLightDirty()
      {
        if j < i {
          assert Dirtied(old(c.blocks[j]), c.blocks[j]);
        }
      }
    }

    // -------------------------------------------------------------------
    // Downward sky walks

    /** Stores the sky flag of an existing block of an active chunk; nothing else changes. */
    method StoreSkyFlag(it: BlockIterator, on: bool)
      requires LightReady() && it.InRange() && IsActive(activeChunks, it.chunk)
      modifies it.chunk.blocks
      ensures LightReady()
      ensures it.chunk.blocks[..] == old(it.chunk.blocks[..])[it.blockIndex := old(it.chunk.blocks[it.blockIndex]).SetIsSky(on)]
    {
      var m := activeChunks;
      var block := it.chunk.blocks[it.blockIndex];
      it.chunk.blocks[it.blockIndex] := block.SetIsSky(on);
      forall k, n | k in m && InIndexRange(n)
        ensures m[k].blocks[n].IsLightDirty() == old(m[k].blocks[n].IsLightDirty())
        ensures m[k].blocks[n].blockType == old(m[k].blocks[n].blockType)
      {
        if m[k] != it.chunk || n != it.blockIndex {
          assert m[k].blocks[n] == old(m[k].blocks[n]);
        }
      }
    }

    /**
     * One pass of the walk loops of PropagateSkyDown and ClearSkyDown: the
     * block's sky flag set to `on`, then MarkLightingDirty.
     */
    method WalkSkyBlock(it: BlockIterator, on: bool)
      requires LightReady() && it.InRange() && IsActive(activeChunks, it.chunk)
      modifies this`dirtyLightBlocks, it.chunk.blocks
      ensures LightReady()
      ensures it.chunk.blocks[..] == old(it.chunk.blocks[..])[it.blockIndex := Walked(old(it.chunk.blocks[it.blockIndex]), on)]
      ensures dirtyLightBlocks == old(dirtyLightBlocks) + if old(it.chunk.blocks[it.blockIndex].IsLightDirty()) then [] else [it]
    {
      ghost var b := it.chunk.blocks[it.blockIndex];
      StoreSkyFlag(it, on);
      MarkLightingDirty(it);
      if b.IsLightDirty() {
        SetLightDirtyAgain(b.SetIsSky(on));
      }
    }

    /**
     * PropagateSkyDown (`on`) and ClearSkyDown (not `on`): from `start`
     * straight down, each block's sky flag set to `on` and the block queued,
     * until the iterator leaves the chunk or reaches an opaque block. The
     * chunk ends as SkyWalked says and the queue grows by WalkPushes; no
     * other chunk changes.
     */
    method WalkSkyDown(start: BlockIterator, on: bool)
      requires LightReady() && (start.chunk != null ==> IsActive(activeChunks, start.chunk))
      modifies this`dirtyLightBlocks, if start.chunk == null then {} else {start.chunk.blocks}
      ensures LightReady()
      ensures start.chunk != null ==> start.chunk.blocks[..] == SkyWalked(old(start.chunk.blocks[..]), start.blockIndex, on)
      ensures dirtyLightBlocks == old(dirtyLightBlocks) +
        if start.chunk == null then [] else WalkPushes(start.chunk, old(start.chunk.blocks[..]), start.blockIndex, on)
    {
      if start.chunk == null {
        return;
      }
      var c := start.chunk;
      var it := start;
      ghost var b0 := c.blocks[..];
      while it.IsValid()
        invariant it.chunk == c && c.Sized()
        invariant LightReady()
        invariant SkyWalked(c.blocks[..], it.blockIndex, on) == SkyWalked(b0, start.blockIndex, on)
        invariant dirtyLightBlocks + WalkPushes(c, c.blocks[..], it.blockIndex, on)
               == old(dirtyLightBlocks) + WalkPushes(c, b0, start.blockIndex, on)
        decreases it.blockIndex
      {
        GetBlockExists(it);
        var block := it.GetBlock();
        if block.None? || block.value.IsFullOpaque() {
          break;
        }
        it := WalkSkyStep(it, on);
      }
      SkyWalkStops(c, c.blocks[..], it.blockIndex, on);
    }

    /**
     * One pass of the walk loop on a non-opaque block: the block walked, and
     * the iterator below it, with what remains of the walk from there.
     */
    method WalkSkyStep(it: BlockIterator, on: bool) returns (below: BlockIterator)
      requires LightReady() && it.InRange() && IsActive(activeChunks, it.chunk)
      requires !it.chunk.blocks[it.blockIndex].IsFullOpaque()
      modifies this`dirtyLightBlocks, it.chunk.blocks
      ensures LightReady()
      ensures below == it.GetDownNeighbor() && below.chunk == it.chunk && below.blockIndex < it.blockIndex
      ensures SkyWalked(it.chunk.blocks[..], below.blockIndex, on) == SkyWalked(old(it.chunk.blocks[..]), it.blockIndex, on)
      ensures dirtyLightBlocks + WalkPushes(it.chunk, it.chunk.blocks[..], below.blockIndex, on)
           == old(dirtyLightBlocks) + WalkPushes(it.chunk, old(it.chunk.blocks[..]), it.blockIndex, on)
    {
      ghost var before := it.chunk.blocks[..];
      ghost var q := dirtyLightBlocks;
      SkyWalkStep(it.chunk, before, it.blockIndex, on);
      WalkSkyBlock(it, on);
      VerticalSteps(it);
      below := it.GetDownNeighbor();
      AppendAssoc(q, if before[it.blockIndex].IsLightDirty() then [] else [it],
        WalkPushes(it.chunk, it.chunk.blocks[..], below.blockIndex, on));
    }

    // -------------------------------------------------------------------
    // Block edits

    /**
     * Chunk::SetBlockType: coordinates outside the chunk and an edit to the
     * type the block already has change nothing. Otherwise the chunk's mesh
     * is dirty, it needs saving, and its blocks and the light queue change
     * as EditedBlocks and EditPushes say (see EditCells).
     */
    method SetChunkBlockType(c: Chunk, x: int, y: int, z: int, t: byte)
      requires LightReady() && IsActive(activeChunks, c) && KnownType(defs, t)
      modifies this`dirtyLightBlocks, c.blocks, c`isMeshDirty, c`needsSaving
      ensures LightReady()
      ensures !InChunk(x, y, z) || old(c.blocks[GetBlockIndex(x, y, z)].blockType) == t ==>
        && c.blocks[..] == old(c.blocks[..]) && dirtyLightBlocks == old(dirtyLightBlocks)
        && c.isMeshDirty == old(c.isMeshDirty) && c.needsSaving == old(c.needsSaving)
      ensures InChunk(x, y, z) && old(c.blocks[GetBlockIndex(x, y, z)].blockType) != t ==>
        var i := GetBlockIndex(x, y, z);
        && c.blocks[..] == EditedBlocks(old(c.blocks[..]), i, t, defs)
        && dirtyLightBlocks == old(dirtyLightBlocks) + EditPushes(c, old(c.blocks[..]), i, t, defs)
        && c.isMeshDirty && c.needsSaving
    {
      if x < 0 || x >= CHUNK_SIZE_X || y < 0 || y >= CHUNK_SIZE_Y || z < 0 || z >= CHUNK_SIZE_Z {
        return;
      }
      IndexInRange(x, y, z);
      var i := GetBlockIndex(x, y, z);
      if c.blocks[i].blockType == t {
        return;
      }
      c.isMeshDirty := true;
      c.needsSaving := true;
      EditBlock(BlockIterator(c, i), t);
    }

    /** The part of Chunk::SetBlockType after its two early returns, on the block under `it`. */
    method EditBlock(it: BlockIterator, t: byte)
      requires LightReady() && it.InRange() && IsActive(activeChunks, it.chunk) && KnownType(defs, t)
      modifies this`dirtyLightBlocks, it.chunk.blocks
      ensures LightReady()
      ensures it.chunk.blocks[..] == EditedBlocks(old(it.chunk.blocks[..]), it.blockIndex, t, defs)
      ensures dirtyLightBlocks == old(dirtyLightBlocks) + EditPushes(it.chunk, old(it.chunk.blocks[..]), it.blockIndex, t, defs)
    {
      ghost var b0 := it.chunk.blocks[..];
      ghost var q0 := dirtyLightBlocks;
      var above := it.GetUpNeighbor();
      var below := it.GetDownNeighbor();
      VerticalSteps(it);
      GetBlockExists(above);
      // The block above is a different block, so reading it before the store reads the same value.
      var aboveBlock := above.GetBlock();
      assert aboveBlock.Some? && aboveBlock.value.IsSky() <==> SkyAbove(b0, it.blockIndex);
      PlaceBlockType(it, t);
      ghost var first := if b0[it.blockIndex].IsLightDirty() then [] else [it];
      ghost var placed := it.chunk.blocks[..];
      EditInSteps(it.chunk, b0, it.blockIndex, t, defs);
      if !defs[t].isOpaque {
        if aboveBlock.Some? && aboveBlock.value.IsSky() {
          SkyEdit(it, below, true);
          AppendAssoc(q0, first, WalkPushes(it.chunk, placed[it.blockIndex := SkyFlagged(placed[it.blockIndex], true)], BelowIndex(it.blockIndex), true));
        }
      } else {
        SkyEdit(it, below, false);
        AppendAssoc(q0, first, WalkPushes(it.chunk, placed[it.blockIndex := SkyFlagged(placed[it.blockIndex], false)], BelowIndex(it.blockIndex), false));
      }
    }

    /**
     * The sky part of an edit on a light-dirty block: its sky flag per
     * SkyFlagged, MarkLightingDirty (which finds it queued already), then the
     * walk from the block below.
     */
    method SkyEdit(it: BlockIterator, below: BlockIterator, on: bool)
      requires LightReady() && it.InRange() && IsActive(activeChunks, it.chunk)
      requires it.chunk.blocks[it.blockIndex].IsLightDirty()
      requires below == BlockIterator(it.chunk, BelowIndex(it.blockIndex))
      modifies this`dirtyLightBlocks, it.chunk.blocks
      ensures LightReady()
      ensures var flagged := old(it.chunk.blocks[..])[it.blockIndex := SkyFlagged(old(it.chunk.blocks[it.blockIndex]), on)];
        && it.chunk.blocks[..] == SkyWalked(flagged, BelowIndex(it.blockIndex), on)
        && dirtyLightBlocks == old(dirtyLightBlocks) + WalkPushes(it.chunk, flagged, BelowIndex(it.blockIndex), on)
    {
      ghost var flagged := it.chunk.blocks[..][it.blockIndex := SkyFlagged(it.chunk.blocks[it.blockIndex], on)];
      ghost var q0 := dirtyLightBlocks;
      if on || it.chunk.blocks[it.blockIndex].IsSky() {
        StoreSkyFlag(it, on);
      } else {
        assert it.chunk.blocks[..] == flagged;
      }
      MarkLightingDirty(it);
      assert it.chunk.blocks[..] == flagged && dirtyLightBlocks == q0;
      WalkSkyDown(below, on);
    }

    /** The new type stored in the block, then MarkLightingDirty on it; no other block changes. */
    method PlaceBlockType(it: BlockIterator, t: byte)
      requires LightReady() && it.InRange() && IsActive(activeChunks, it.chunk) && KnownType(defs, t)
      modifies this`dirtyLightBlocks, it.chunk.blocks
      ensures LightReady()
      ensures it.chunk.blocks[..] == old(it.chunk.blocks[..])[it.blockIndex :=
        old(it.chunk.blocks[it.blockIndex]).SetBlockType(t, defs).SetIsLightDirty(true)]
      ensures dirtyLightBlocks == old(dirtyLightBlocks) + if old(it.chunk.blocks[it.blockIndex].IsLightDirty()) then [] else [it]
    {
      ghost var b := it.chunk.blocks[it.blockIndex];
      StoreBlockType(it, t);
      MarkLightingDirty(it);
      if b.IsLightDirty() {
        SetLightDirtyAgain(b.SetBlockType(t, defs));
      }
    }

    /** Block::SetBlockType on an existing block of an active chunk; nothing else changes. */
    method StoreBlockType(it: BlockIterator, t: byte)
      requires LightReady() && it.InRange() && IsActive(activeChunks, it.chunk) && KnownType(defs, t)
      modifies it.chunk.blocks
      ensures LightReady()
      ensures it.chunk.blocks[..] == old(it.chunk.blocks[..])[it.blockIndex := old(it.chunk.blocks[it.blockIndex]).SetBlockType(t, defs)]
    {
      var m := activeChunks;
      var block := it.chunk.blocks[it.blockIndex];
      it.chunk.blocks[it.blockIndex] := block.SetBlockType(t, defs);
      forall k, n | k in m && InIndexRange(n)
        ensures m[k].blocks[n].IsLightDirty() == old(m[k].blocks[n].IsLightDirty())
        ensures KnownType(defs, m[k].blocks[n].blockType)
      {
        if m[k] != it.chunk || n != it.blockIndex {
          assert m[k].blocks[n] == old(m[k].blocks[n]);
        }
      }
    }

    // -------------------------------------------------------------------
    // Blocks by global coordinates. GetGlobalChunkCoords divides as floats
    // and rounds down, which is the floor division of GetChunkCoords.

    /** The active chunk holding global coordinates `g` on x and y, as a set of at most one chunk. */
    function ChunkAt(g: IntVec3): (s: set<Chunk>)
      reads this`activeChunks
      ensures GetChunkCoords(g) in activeChunks ==> s == {activeChunks[GetChunkCoords(g)]}
      ensures GetChunkCoords(g) !in activeChunks ==> s == {}
    {
      var c := GetWorldChunk(GetChunkCoords(g));
      if c == null then {} else {c}
    }

    /**
     * GetBlockTypeAtCoords as written: z is masked like x and y, so every z
     * names a block of the chunk, and a z above the top or below the floor
     * reads the block at z mod 128 instead of finding none (see
     * WrappedReadAbove and GetBlockTypeAtCoordsCorrected).
     */
    function GetBlockTypeAtCoords(g: IntVec3): (t: byte)
      requires Keyed(activeChunks)
      reads this`activeChunks, Arrays(activeChunks)
      ensures GetChunkCoords(g) !in activeChunks ==> t == BLOCKTYPE_AIR
    {
      var chunk := GetWorldChunk(GetChunkCoords(g));
      if chunk == null then BLOCKTYPE_AIR
      else
        var l := GlobalCoordsToLocalCoords(g);
        match BlockIndexAtLocalCoords(l.x, l.y, l.z)
        case None => BLOCKTYPE_AIR
        case Some(i) => chunk.blocks[i].blockType
    }

    /**
     * GetBlockTypeAtCoords corrected: z is passed through unmasked, so that
     * GetBlockAtLocalCoords finds no block above the top or below the floor.
     * Coordinates outside the active chunks or outside the height range
     * read as air (see BlockTypeAtOwnCoords for the rest).
     */
    function GetBlockTypeAtCoordsCorrected(g: IntVec3): (t: byte)
      requires Keyed(activeChunks)
      reads this`activeChunks, Arrays(activeChunks)
      ensures GetChunkCoords(g) !in activeChunks ==> t == BLOCKTYPE_AIR
      ensures !(0 <= g.z < CHUNK_SIZE_Z) ==> t == BLOCKTYPE_AIR
    {
      var chunk := GetWorldChunk(GetChunkCoords(g));
      if chunk == null then BLOCKTYPE_AIR
      else
        var l := GlobalCoordsToLocalCoords(g);
        match BlockIndexAtLocalCoords(l.x, l.y, g.z)
        case None => BLOCKTYPE_AIR
        case Some(i) => chunk.blocks[i].blockType
    }

    /**
     * Every block of every active chunk is read back at its own global
     * coordinates; with GetBlockTypeAtCoordsCorrected's contract this covers every
     * coordinate, since every in-height coordinate is some block's own.
     */
    lemma BlockTypeAtOwnCoords(k: IntVec2, i: int)
      requires Keyed(activeChunks) && k in activeChunks && InIndexRange(i)
      ensures GetBlockTypeAtCoordsCorrected(IndexToGlobalCoords(k, i)) == activeChunks[k].blocks[i].blockType
    {
      var g := IndexToGlobalCoords(k, i);
      GlobalIndexRoundTrip(k, i);
      IndexDecomposition(i);
      ChunkLocalSplit(g);
    }

    /**
     * The as-written read, 128 blocks above any block of an active chunk,
     * returns that block's type; the corrected read returns air there.
     */
    lemma WrappedReadAbove(k: IntVec2, i: int)
      requires Keyed(activeChunks) && k in activeChunks && InIndexRange(i)
      ensures var g := IndexToGlobalCoords(k, i);
        var above := IntVec3(g.x, g.y, g.z + CHUNK_SIZE_Z);
        && GetBlockTypeAtCoords(above) == activeChunks[k].blocks[i].blockType
        && GetBlockTypeAtCoordsCorrected(above) == BLOCKTYPE_AIR
    {
      var g := IndexToGlobalCoords(k, i);
      var above := IntVec3(g.x, g.y, g.z + CHUNK_SIZE_Z);
      GlobalIndexRoundTrip(k, i);
      IndexDecomposition(i);
      assert GetChunkCoords(above) == GetChunkCoords(g);
      assert GlobalCoordsToLocalCoords(above) == GlobalCoordsToLocalCoords(g);
    }

    /**
     * SetBlockTypeAtCoords as written: false when no active chunk holds `g`;
     * otherwise the edit goes to the block at the masked coordinates, which
     * always exists, so a z above the top or below the floor edits the
     * block at z mod 128 (see WrappedEditIndex), and the result is true.
     */
    method SetBlockTypeAtCoords(g: IntVec3, t: byte) returns (ok: bool)
      requires LightReady() && KnownType(defs, t)
      modifies this`dirtyLightBlocks, set c | c in ChunkAt(g) :: c.blocks
      modifies ChunkAt(g)`isMeshDirty, ChunkAt(g)`needsSaving
      ensures LightReady()
      ensures ok <==> GetChunkCoords(g) in activeChunks
      ensures ok ==>
        var c := activeChunks[GetChunkCoords(g)];
        var i := GlobalCoordsToIndex(g);
        && (old(c.blocks[i].blockType) == t ==> c.blocks[..] == old(c.blocks[..]) && dirtyLightBlocks == old(dirtyLightBlocks))
        && (old(c.blocks[i].blockType) != t ==>
              && c.blocks[..] == EditedBlocks(old(c.blocks[..]), i, t, defs)
              && dirtyLightBlocks == old(dirtyLightBlocks) + EditPushes(c, old(c.blocks[..]), i, t, defs)
              && c.isMeshDirty && c.needsSaving)
      ensures !ok ==> dirtyLightBlocks == old(dirtyLightBlocks)
    {
      var chunk := GetWorldChunk(GetChunkCoords(g));
      if chunk == null {
        return false;
      }
      var l := GlobalCoordsToLocalCoords(g);
      SetChunkBlockType(chunk, l.x, l.y, l.z, t);
      return true;
    }

    /**
     * SetBlockTypeAtCoords corrected: z is passed through unmasked, so Chunk::SetBlockType's
     * own range check then turns away a z outside the height range, and the
     * block it edits is the one whose own global coordinates are `g`.
     */
    method SetBlockTypeAtCoordsCorrected(g: IntVec3, t: byte) returns (ok: bool)
      requires LightReady() && KnownType(defs, t)
      modifies this`dirtyLightBlocks, set c | c in ChunkAt(g) :: c.blocks
      modifies ChunkAt(g)`isMeshDirty, ChunkAt(g)`needsSaving
      ensures LightReady()
      ensures ok <==> GetChunkCoords(g) in activeChunks
      ensures ok && 0 <= g.z < CHUNK_SIZE_Z ==> IndexToGlobalCoords(GetChunkCoords(g), GlobalCoordsToIndex(g)) == g
      ensures ok ==>
        var c := activeChunks[GetChunkCoords(g)];
        var i := GlobalCoordsToIndex(g);
        && (!(0 <= g.z < CHUNK_SIZE_Z) || old(c.blocks[i].blockType) == t ==>
              c.blocks[..] == old(c.blocks[..]) && dirtyLightBlocks == old(dirtyLightBlocks))
        && (0 <= g.z < CHUNK_SIZE_Z && old(c.blocks[i].blockType) != t ==>
              && c.blocks[..] == EditedBlocks(old(c.blocks[..]), i, t, defs)
              && dirtyLightBlocks == old(dirtyLightBlocks) + EditPushes(c, old(c.blocks[..]), i, t, defs)
              && c.isMeshDirty && c.needsSaving)
      ensures !ok ==> dirtyLightBlocks == old(dirtyLightBlocks)
    {
      var chunk := GetWorldChunk(GetChunkCoords(g));
      if chunk == null {
        return false;
      }
      var l := GlobalCoordsToLocalCoords(g);
      ChunkLocalSplit(g);
      if 0 <= g.z < CHUNK_SIZE_Z {
        GlobalCoordsRoundTrip(g);
      }
      SetChunkBlockType(chunk, l.x, l.y, g.z, t);
      return true;
    }

    // -------------------------------------------------------------------
    // Mesh building (Game/World.cpp:209-291)

    /**
     * UpdateMeshBuildQueue: empties the queue, gathers every active chunk
     * that is mesh-dirty and within CHUNK_MESH_BUILD_RANGE of the camera,
     * then sorts the queue closest first.
     */
    method UpdateMeshBuildQueue(cam: Vec2)
      requires Keyed(activeChunks)
      modifies this`meshBuildQueue
      ensures Members(meshBuildQueue) == MeshCandidates(activeChunks, cam)
      ensures NoDuplicates(meshBuildQueue)
      ensures SortedByDistance(meshBuildQueue, cam)
    {
      meshBuildQueue := [];
      meshBuildQueue := GatherCandidates(activeChunks, cam);
      var gathered := meshBuildQueue;
      meshBuildQueue := SortByDistance(gathered, cam);
      PermutationNoDuplicates(gathered, meshBuildQueue);
    }


    /**
     * CleanUpMeshBuildQueue: erases every entry that is no longer mesh-dirty,
     * keeping the order of the rest.
     */
    method CleanUpMeshBuildQueue()
      modifies this`meshBuildQueue
      ensures meshBuildQueue == DirtyOnly(old(meshBuildQueue))
    {
      var queue := EraseMeshClean(meshBuildQueue);
      meshBuildQueue := queue;
    }

    /** CleanUpMeshBuildQueue leaves what the frame's build loop just did as it was. */
    method CleanUpAfterBuild(ghost ready: seq<bool>, ghost built: set<Chunk>)
      requires FrameBuilt(meshBuildQueue, ready, built)
      requires forall c | c in built :: MeshIsCurrent(c, defs, lightingEnabled)
      modifies this`meshBuildQueue
      ensures meshBuildQueue == DirtyOnly(old(meshBuildQueue))
      ensures FrameBuilt(old(meshBuildQueue), ready, built)
      ensures forall c | c in built :: MeshIsCurrent(c, defs, lightingEnabled)
      ensures old(StreamingOk()) ==> StreamingOk()
      ensures old(LightReady()) ==> LightReady()
    {
      CleanUpKeepingMeshes(built);
    }

    /** CleanUpMeshBuildQueue leaves every chunk's mesh as it was. */
    method CleanUpKeepingMeshes(ghost built: set<Chunk>)
      requires forall c | c in built :: MeshIsCurrent(c, defs, lightingEnabled)
      modifies this`meshBuildQueue
      ensures meshBuildQueue == DirtyOnly(old(meshBuildQueue))
      ensures forall c | c in built :: MeshIsCurrent(c, defs, lightingEnabled)
      ensures old(StreamingOk()) ==> StreamingOk()
      ensures old(LightReady()) ==> LightReady()
    {
      CleanUpBesideInvariants();
    }

    /** CleanUpMeshBuildQueue touches nothing the streaming or lighting invariants read. */
    method CleanUpBesideInvariants()
      modifies this`meshBuildQueue
      ensures meshBuildQueue == DirtyOnly(old(meshBuildQueue))
      ensures old(StreamingOk()) ==> StreamingOk()
      ensures old(LightReady()) ==> LightReady()
    {
      CleanUpMeshBuildQueue();
    }

    /**
     * BuildMeshesThisFrame: relights (up to `lightBudget` steps), builds up to
     * MAX_MESHES_PER_FRAME queued meshes, then keeps in the queue only the
     * chunks still waiting for a mesh. `drained` says the light queue was
     * emptied; the chunks waiting for a job are not touched. `ready` is each
     * entry's readiness once relighting is done (mesh-dirty, all four
     * neighbours linked), and `built` the entries rebuilt: the ready ones in
     * queue order up to the cap, the others skipped.
     */
    method BuildMeshesThisFrame(lightBudget: nat) returns (drained: bool, ghost ready: seq<bool>, ghost built: set<Chunk>)
      requires LightReady() && StreamingOk()
      requires NoDuplicates(meshBuildQueue)
      requires forall c | c in meshBuildQueue :: c.Sized()
      modifies this`dirtyLightBlocks, Arrays(activeChunks), activeChunks.Values`isMeshDirty
      modifies this`meshBuildQueue, Members(meshBuildQueue)`mesh, Members(meshBuildQueue)`isMeshDirty
      ensures LightReady() && StreamingOk()
      ensures drained <==> dirtyLightBlocks == []
      ensures FrameBuilt(old(meshBuildQueue), ready, built)
      ensures forall c | c in built :: MeshIsCurrent(c, defs, lightingEnabled)
      ensures meshBuildQueue == DirtyOnly(old(meshBuildQueue))
      ensures forall c | c in old(meshBuildQueue) :: c in meshBuildQueue <==> c.isMeshDirty
    {
      drained := RelightBesideArrivals(lightBudget);
      ready, built := BuildAndCleanUp();
    }

    /** ProcessDirtyLighting leaves the arriving chunks, and so the streaming invariant, alone. */
    method RelightBesideArrivals(budget: nat) returns (drained: bool)
      requires LightReady() && StreamingOk()
      modifies this`dirtyLightBlocks, Arrays(activeChunks), activeChunks.Values`isMeshDirty
      ensures LightReady() && StreamingOk()
      ensures drained <==> dirtyLightBlocks == []
    {
      ArrivingArraysApart(activeChunks, arriving, owners, defs);
      drained := ProcessDirtyLighting(budget);
      ArrivalsUntouchedKeepStreaming();
    }

    /** The streaming invariant reads only these parts of the world. */
    twostate lemma ArrivalsUntouchedKeepStreaming()
      requires unchanged(this`activeChunks, this`chunksQueuedForGeneration, this`chunksQueuedForLoad, this`chunksQueuedForSave)
      requires unchanged(this`pendingJobs, this`completedJobs, this`arriving, this`owners)
      requires unchanged(ArraysOf(arriving))
      requires unchanged(arriving`northNeighbor, arriving`southNeighbor, arriving`eastNeighbor, arriving`westNeighbor)
      requires unchanged(chunksQueuedForGeneration`chunkState, chunksQueuedForLoad`chunkState, chunksQueuedForSave`chunkState)
      requires unchanged(ChunksOf(pendingJobs)`chunkState, ChunksOf(completedJobs)`chunkState, activeChunks.Values`chunkState)
      ensures old(StreamingOk()) ==> StreamingOk()
    {
    }

    /**
     * The mesh half of BuildMeshesThisFrame: the build loop, then the
     * clean-up of the queue. The chunks rebuilt are `built`, those Built
     * picks from the queue's readiness on entry; the queue keeps exactly
     * the entries still mesh-dirty, in order.
     */
    method BuildAndCleanUp() returns (ghost ready: seq<bool>, ghost built: set<Chunk>)
      requires NoDuplicates(meshBuildQueue)
      requires forall c | c in meshBuildQueue :: c.Sized()
      modifies this`meshBuildQueue, Members(meshBuildQueue)`mesh, Members(meshBuildQueue)`isMeshDirty
      ensures FrameBuilt(old(meshBuildQueue), ready, built)
      ensures forall c | c in built :: MeshIsCurrent(c, defs, lightingEnabled)
      ensures forall c | c in old(meshBuildQueue) :: c.isMeshDirty == (old(c.isMeshDirty) && c !in built)
      ensures meshBuildQueue == DirtyOnly(old(meshBuildQueue))
      ensures forall c | c in old(meshBuildQueue) :: c in meshBuildQueue <==> c.isMeshDirty
      ensures old(StreamingOk()) ==> StreamingOk()
      ensures old(LightReady()) ==> LightReady()
    {
      ready, built := BuildQueued();
      CleanUpAfterBuild(ready, built);
      DirtyOnlyKeepsDirty(old(meshBuildQueue));
    }

    /** The build loop of BuildMeshesThisFrame over the queue; it touches only meshes and mesh flags. */
    method BuildQueued() returns (ghost ready: seq<bool>, ghost built: set<Chunk>)
      requires NoDuplicates(meshBuildQueue)
      requires forall c | c in meshBuildQueue :: c.Sized()
      modifies Members(meshBuildQueue)`mesh, Members(meshBuildQueue)`isMeshDirty
      ensures FrameBuilt(meshBuildQueue, ready, built)
      ensures forall c | c in built :: MeshIsCurrent(c, defs, lightingEnabled)
      ensures forall c | c in meshBuildQueue :: c.isMeshDirty == (old(c.isMeshDirty) && c !in built)
      ensures old(StreamingOk()) ==> StreamingOk()
      ensures old(LightReady()) ==> LightReady()
    {
      ready, built := BuildQueuedMeshesOnly();
      MeshWorkKeepsInvariants();
    }

    /** BuildQueued's effect on the queued chunks alone. */
    method BuildQueuedMeshesOnly() returns (ghost ready: seq<bool>, ghost built: set<Chunk>)
      requires NoDuplicates(meshBuildQueue)
      requires forall c | c in meshBuildQueue :: c.Sized()
      modifies Members(meshBuildQueue)`mesh, Members(meshBuildQueue)`isMeshDirty
      ensures FrameBuilt(meshBuildQueue, ready, built)
      ensures forall c | c in built :: MeshIsCurrent(c, defs, lightingEnabled)
      ensures forall c | c in meshBuildQueue :: c.isMeshDirty == (old(c.isMeshDirty) && c !in built)
    {
      ready, built := BuildFrame(meshBuildQueue, Members(meshBuildQueue), defs, lightingEnabled);
    }

    /**
     * The streaming and lighting invariants read no mesh and no mesh-dirty
     * flag, so a step that changes only those keeps them.
     */
    twostate lemma MeshWorkKeepsInvariants()
      requires unchanged(this)
      requires unchanged(Arrays(activeChunks), ArraysOf(arriving))
      requires unchanged(activeChunks.Values`northNeighbor, activeChunks.Values`southNeighbor)
      requires unchanged(activeChunks.Values`eastNeighbor, activeChunks.Values`westNeighbor)
      requires unchanged(arriving`northNeighbor, arriving`southNeighbor, arriving`eastNeighbor, arriving`westNeighbor)
      requires unchanged(chunksQueuedForGeneration`chunkState, chunksQueuedForLoad`chunkState, chunksQueuedForSave`chunkState)
      requires unchanged(ChunksOf(pendingJobs)`chunkState, ChunksOf(completedJobs)`chunkState, activeChunks.Values`chunkState)
      ensures old(StreamingOk()) ==> StreamingOk()
      ensures old(LightReady()) ==> LightReady()
    {
    }

    // -------------------------------------------------------------------
    // Streaming state

    /** The definition table and the tree stamps are fit for generation and lighting. */
    predicate TablesOk() {
      LightLevelsFit(defs) && |defs| >= BLOCKTYPE_NUM && StampsFit(stamps, defs)
    }

    /** Each outstanding counter equals the number of its kind's jobs not yet retrieved, within its cap. */
    predicate CountersOk()
      reads this`pendingJobs, this`completedJobs
      reads this`outstandingGenerateJobs, this`outstandingLoadJobs, this`outstandingSaveJobs
    {
      CountsMatch(pendingJobs + completedJobs, outstandingGenerateJobs, outstandingLoadJobs, outstandingSaveJobs)
    }

    /**
     * A world with nothing active, nothing queued and no jobs; lighting is
     * on. The save directory's contents are given.
     */
    constructor(defs: DefTable, stamps: map<TreeSpecies, TreeStamp>, saveFiles: map<IntVec2, seq<byte>>)
      requires LightLevelsFit(defs) && |defs| >= BLOCKTYPE_NUM && StampsFit(stamps, defs)
      ensures TablesOk() && LightReady() && CountersOk() && StreamingOk()
      ensures this.defs == defs && this.stamps == stamps && this.saveFiles == saveFiles
      ensures lightingEnabled
      ensures activeChunks == map[] && meshBuildQueue == [] && dirtyLightBlocks == []
      ensures chunksQueuedForGeneration == [] && chunksQueuedForLoad == [] && chunksQueuedForSave == []
      ensures pendingJobs == [] && completedJobs == []
      ensures outstandingGenerateJobs == 0 && outstandingLoadJobs == 0 && outstandingSaveJobs == 0
    {
      this.defs := defs;
      this.stamps := stamps;
      lightingEnabled := true;
      activeChunks := map[];
      meshBuildQueue := [];
      dirtyLightBlocks := [];
      chunksQueuedForGeneration := [];
      chunksQueuedForLoad := [];
      chunksQueuedForSave := [];
      outstandingGenerateJobs := 0;
      outstandingLoadJobs := 0;
      outstandingSaveJobs := 0;
      pendingJobs := [];
      completedJobs := [];
      this.saveFiles := saveFiles;
      arriving := {};
      owners := map[];
    }

    /** GetWorldChunk: the active chunk at `coords`, or null when there is none. */
    function GetWorldChunk(coords: IntVec2): (c: Chunk?)
      reads this`activeChunks
      ensures c != null <==> coords in activeChunks
      ensures c != null ==> c == activeChunks[coords]
    {
      if coords in activeChunks then activeChunks[coords] else null
    }

    /**
     * ActivateChunk: a chunk whose coordinates are already active is left
     * alone; otherwise it waits for a load job when its save file exists and
     * for a generate job when not.
     */
    method ActivateChunk(c: Chunk)
      requires StreamingOk() && c in arriving && c.chunkState == CONSTRUCTING
      modifies this`chunksQueuedForGeneration, this`chunksQueuedForLoad, c`chunkState
      ensures StreamingOk()
      ensures c.chunkCoords in activeChunks ==>
        && chunksQueuedForGeneration == old(chunksQueuedForGeneration) && chunksQueuedForLoad == old(chunksQueuedForLoad)
        && c.chunkState == old(c.chunkState)
      ensures c.chunkCoords !in activeChunks && c.chunkCoords in saveFiles ==>
        && chunksQueuedForLoad == old(chunksQueuedForLoad) + [c] && chunksQueuedForGeneration == old(chunksQueuedForGeneration)
        && c.chunkState == QueuedState(LOAD)
      ensures c.chunkCoords !in activeChunks && c.chunkCoords !in saveFiles ==>
        && chunksQueuedForGeneration == old(chunksQueuedForGeneration) + [c] && chunksQueuedForLoad == old(chunksQueuedForLoad)
        && c.chunkState == QueuedState(GENERATE)
    {
      if c.chunkCoords in activeChunks {
        return;
      }
      if c.chunkCoords in saveFiles {
        QueueForLoad(c);
      } else {
        QueueForGeneration(c);
      }
    }

    /** The load branch of ActivateChunk: the chunk waits in the load queue. */
    method QueueForLoad(c: Chunk)
      requires StreamingOk() && c in arriving && c.chunkState == CONSTRUCTING
      modifies this`chunksQueuedForLoad, c`chunkState
      ensures StreamingOk()
      ensures chunksQueuedForLoad == old(chunksQueuedForLoad) + [c] && c.chunkState == QueuedState(LOAD)
    {
      c.chunkState := ACTIVATING_QUEUED_LOAD;
      chunksQueuedForLoad := chunksQueuedForLoad + [c];
    }

    /** The generate branch of ActivateChunk: the chunk waits in the generate queue. */
    method QueueForGeneration(c: Chunk)
      requires StreamingOk() && c in arriving && c.chunkState == CONSTRUCTING
      modifies this`chunksQueuedForGeneration, c`chunkState
      ensures StreamingOk()
      ensures chunksQueuedForGeneration == old(chunksQueuedForGeneration) + [c] && c.chunkState == QueuedState(GENERATE)
    {
      c.chunkState := ACTIVATING_QUEUED_GENERATE;
      chunksQueuedForGeneration := chunksQueuedForGeneration + [c];
    }

    /**
     * QueueClosestMissingChunk: with fewer than MAX_ACTIVE_CHUNKS active
     * chunks, walks the square of positions around the camera's chunk and
     * creates and activates a chunk for each position the scan picks (see
     * Picks), at most SCAN_BUDGET of them; each goes to the load queue when
     * its save file exists and to the generate queue otherwise. The new
     * chunks are returned as a ghost record.
     */
    method QueueClosestMissingChunk(cam: Vec2) returns (ghost made: seq<Chunk>)
      requires StreamingOk()
      modifies this`chunksQueuedForGeneration, this`chunksQueuedForLoad, this`arriving, this`owners
      ensures StreamingOk()
      ensures |activeChunks| >= MAX_ACTIVE_CHUNKS ==> made == []
      ensures |activeChunks| < MAX_ACTIVE_CHUNKS ==> CoordsOf(made) == Picks(activeChunks.Keys, cam)
      ensures forall c | c in made :: fresh(c)
      ensures Waiting(made, saveFiles)
      ensures QueuedAfter(made, saveFiles, old(chunksQueuedForLoad), old(chunksQueuedForGeneration), chunksQueuedForLoad, chunksQueuedForGeneration)
    {
      made := [];
      if |activeChunks| >= MAX_ACTIVE_CHUNKS {
        return;
      }
      var k := CameraChunkCoords(cam);
      ghost var dist := DistFrom(cam);
      ghost var rest := RestFrom(k, activeChunks.Keys, dist);
      DistFromIs(cam);
      RestFromIs(k, activeChunks.Keys, dist);
      made := ScanAround(k, cam, dist, rest);
      WaitingFromQueues(made, saveFiles, defs, activeChunks, chunksQueuedForGeneration, chunksQueuedForLoad,
        chunksQueuedForSave, pendingJobs, completedJobs, arriving, owners, old(chunksQueuedForLoad), old(chunksQueuedForGeneration));
    }

    /** QueueClosestMissingChunk's scan of the rows around the camera's chunk `k`. */
    method ScanAround(k: IntVec2, cam: Vec2, ghost dist: IntVec2 -> real, ghost rest: ScanRest) returns (ghost made: seq<Chunk>)
      requires DistIs(dist, cam) && RestIs(rest, k, activeChunks.Keys, dist)
      requires StreamingOk()
      modifies this`chunksQueuedForGeneration, this`chunksQueuedForLoad, this`arriving, this`owners
      ensures StreamingOk()
      ensures CoordsOf(made) == rest(-CHUNK_ACTIVATION_RADIUS_X, -CHUNK_ACTIVATION_RADIUS_Y, FLT_MAX, SCAN_BUDGET)
      ensures forall c | c in made :: fresh(c)
      ensures QueuedAfter(made, saveFiles, old(chunksQueuedForLoad), old(chunksQueuedForGeneration), chunksQueuedForLoad, chunksQueuedForGeneration)
    {
      ghost var total := rest(-CHUNK_ACTIVATION_RADIUS_X, -CHUNK_ACTIVATION_RADIUS_Y, FLT_MAX, SCAN_BUDGET);
      var closest, toProcess, done;
      closest, toProcess, made, done := ScanRows(k, cam, dist, rest, total);
      if !done {
        ScanEnd(k, rest, activeChunks.Keys, dist, closest, toProcess);
      }
    }

    /**
     * The outer loop of QueueClosestMissingChunk; `done` when the budget ran
     * out, otherwise the scan has passed the last row.
     */
    method ScanRows(k: IntVec2, cam: Vec2, ghost dist: IntVec2 -> real, ghost rest: ScanRest, ghost total: seq<IntVec2>)
      returns (closest: real, toProcess: nat, ghost made: seq<Chunk>, done: bool)
      requires DistIs(dist, cam) && RestIs(rest, k, activeChunks.Keys, dist)
      requires total == rest(-CHUNK_ACTIVATION_RADIUS_X, -CHUNK_ACTIVATION_RADIUS_Y, FLT_MAX, SCAN_BUDGET)
      requires StreamingOk()
      modifies this`chunksQueuedForGeneration, this`chunksQueuedForLoad, this`arriving, this`owners
      ensures StreamingOk()
      ensures done ==> CoordsOf(made) == total
      ensures !done ==> CoordsOf(made) + rest(CHUNK_ACTIVATION_RADIUS_X + 1, -CHUNK_ACTIVATION_RADIUS_Y, closest, toProcess) == total
      ensures forall c | c in made :: fresh(c)
      ensures QueuedAfter(made, saveFiles, old(chunksQueuedForLoad), old(chunksQueuedForGeneration), chunksQueuedForLoad, chunksQueuedForGeneration)
    {
      made := [];
      ghost var load0, gen0 := chunksQueuedForLoad, chunksQueuedForGeneration;
      closest := FLT_MAX;
      toProcess := SCAN_BUDGET;
      var x := -CHUNK_ACTIVATION_RADIUS_X;
      done := false;
      while x <= CHUNK_ACTIVATION_RADIUS_X && !done
        invariant -CHUNK_ACTIVATION_RADIUS_X <= x <= CHUNK_ACTIVATION_RADIUS_X + 1
        invariant done ==> CoordsOf(made) == total
        invariant !done ==> CoordsOf(made) + rest(x, -CHUNK_ACTIVATION_RADIUS_Y, closest, toProcess) == total
        invariant forall c | c in made :: fresh(c)
        invariant QueuedAfter(made, saveFiles, load0, gen0, chunksQueuedForLoad, chunksQueuedForGeneration)
        invariant StreamingOk()
        decreases CHUNK_ACTIVATION_RADIUS_X + 1 - x
      {
        closest, toProcess, made, done := ScanRow(k, x, cam, closest, toProcess, dist, rest, made, load0, gen0, total);
        x := x + 1;
      }
    }

    /**
     * The inner loop of QueueClosestMissingChunk, over row `x`; `done` when
     * the budget ran out, where the source returns.
     */
    method ScanRow(k: IntVec2, x: int, cam: Vec2, closest: real, toProcess: nat, ghost dist: IntVec2 -> real,
                   ghost rest: ScanRest, ghost made: seq<Chunk>, ghost load0: seq<Chunk>, ghost gen0: seq<Chunk>,
                   ghost total: seq<IntVec2>)
      returns (closest': real, toProcess': nat, ghost made': seq<Chunk>, done: bool)
      requires -CHUNK_ACTIVATION_RADIUS_X <= x <= CHUNK_ACTIVATION_RADIUS_X
      requires DistIs(dist, cam) && RestIs(rest, k, activeChunks.Keys, dist)
      requires CoordsOf(made) + rest(x, -CHUNK_ACTIVATION_RADIUS_Y, closest, toProcess) == total
      requires QueuedAfter(made, saveFiles, load0, gen0, chunksQueuedForLoad, chunksQueuedForGeneration)
      requires StreamingOk()
      modifies this`chunksQueuedForGeneration, this`chunksQueuedForLoad, this`arriving, this`owners
      ensures StreamingOk()
      ensures done ==> CoordsOf(made') == total
      ensures !done ==> CoordsOf(made') + rest(x + 1, -CHUNK_ACTIVATION_RADIUS_Y, closest', toProcess') == total
      ensures forall c | c in made' :: c in made || fresh(c)
      ensures QueuedAfter(made', saveFiles, load0, gen0, chunksQueuedForLoad, chunksQueuedForGeneration)
    {
      closest', toProcess', made', done := closest, toProcess, made, false;
      var y := -CHUNK_ACTIVATION_RADIUS_Y;
      // The source tests the budget at the top of each iteration and returns when it is spent.
      while y <= CHUNK_ACTIVATION_RADIUS_Y && toProcess' > 0
        invariant -CHUNK_ACTIVATION_RADIUS_Y <= y <= CHUNK_ACTIVATION_RADIUS_Y + 1
        invariant CoordsOf(made') + rest(x, y, closest', toProcess') == total
        invariant forall c | c in made' :: c in made || fresh(c)
        invariant QueuedAfter(made', saveFiles, load0, gen0, chunksQueuedForLoad, chunksQueuedForGeneration)
        invariant StreamingOk()
        decreases CHUNK_ACTIVATION_RADIUS_Y + 1 - y
      {
        closest', toProcess', made' := ScanStep(k, x, y, cam, closest', toProcess', dist, rest, made', load0, gen0, total);
        y := y + 1;
      }
      if toProcess' == 0 {
        ScanSpent(k, x, y, rest, activeChunks.Keys, dist, closest');
        done := true;
      } else {
        RowDone(k, x, rest, activeChunks.Keys, dist, closest', toProcess');
      }
    }

    /** One iteration of ScanRow's loop: ScanPosition, and the new chunk, if any, appended to the record. */
    method ScanStep(k: IntVec2, x: int, y: int, cam: Vec2, closest: real, toProcess: nat, ghost dist: IntVec2 -> real,
                    ghost rest: ScanRest, ghost made: seq<Chunk>, ghost load0: seq<Chunk>,
                    ghost gen0: seq<Chunk>, ghost total: seq<IntVec2>)
      returns (closest': real, toProcess': nat, ghost made': seq<Chunk>)
      requires -CHUNK_ACTIVATION_RADIUS_X <= x <= CHUNK_ACTIVATION_RADIUS_X
      requires -CHUNK_ACTIVATION_RADIUS_Y <= y <= CHUNK_ACTIVATION_RADIUS_Y
      requires toProcess > 0 && DistIs(dist, cam) && RestIs(rest, k, activeChunks.Keys, dist)
      requires CoordsOf(made) + rest(x, y, closest, toProcess) == total
      requires QueuedAfter(made, saveFiles, load0, gen0, chunksQueuedForLoad, chunksQueuedForGeneration)
      requires StreamingOk()
      modifies this`chunksQueuedForGeneration, this`chunksQueuedForLoad, this`arriving, this`owners
      ensures StreamingOk()
      ensures CoordsOf(made') + rest(x, y + 1, closest', toProcess') == total
      ensures forall c | c in made' :: c in made || fresh(c)
      ensures QueuedAfter(made', saveFiles, load0, gen0, chunksQueuedForLoad, chunksQueuedForGeneration)
    {
      ghost var load1, gen1 := chunksQueuedForLoad, chunksQueuedForGeneration;
      ghost var tail := rest(x, y, closest, toProcess);
      var c;
      closest', toProcess', c := ScanPosition(k, x, y, cam, closest, toProcess, dist, rest);
      made' := made;
      if c != null {
        ghost var created: Chunk := c;
        QueuedAfterAppend(made, created, saveFiles, load0, gen0, load1, gen1);
        RecordPick(made, created, tail, rest(x, y + 1, closest', toProcess'), total);
        made' := made + [created];
      }
    }

    /**
     * One position of the scan, with budget left: a missing position within
     * the activation range and strictly closer than the last pick gets a new
     * chunk, which ActivateChunk queues and which is returned; otherwise
     * nothing changes and the result is null.
     */
    method ScanPosition(k: IntVec2, x: int, y: int, cam: Vec2, closest: real, toProcess: nat,
                        ghost dist: IntVec2 -> real, ghost rest: ScanRest)
      returns (closest': real, toProcess': nat, c: Chunk?)
      requires -CHUNK_ACTIVATION_RADIUS_X <= x <= CHUNK_ACTIVATION_RADIUS_X
      requires -CHUNK_ACTIVATION_RADIUS_Y <= y <= CHUNK_ACTIVATION_RADIUS_Y
      requires toProcess > 0 && DistIs(dist, cam) && RestIs(rest, k, activeChunks.Keys, dist)
      requires StreamingOk()
      modifies this`chunksQueuedForGeneration, this`chunksQueuedForLoad, this`arriving, this`owners
      ensures StreamingOk()
      ensures c == null ==>
        && closest' == closest && toProcess' == toProcess
        && chunksQueuedForLoad == old(chunksQueuedForLoad) && chunksQueuedForGeneration == old(chunksQueuedForGeneration)
        && rest(x, y, closest, toProcess) == rest(x, y + 1, closest', toProcess')
      ensures c != null ==>
        && fresh(c) && c.Sized() && c.Unlinked()
        && c.chunkState == QueuedState(if c.chunkCoords in saveFiles then LOAD else GENERATE)
        && chunksQueuedForLoad == old(chunksQueuedForLoad) + (if c.chunkCoords in saveFiles then [c] else [])
        && chunksQueuedForGeneration == old(chunksQueuedForGeneration) + (if c.chunkCoords in saveFiles then [] else [c])
        && rest(x, y, closest, toProcess) == [c.chunkCoords] + rest(x, y + 1, closest', toProcess')
    {
      closest', toProcess', c := closest, toProcess, null;
      PickStep(k, x, y, activeChunks.Keys, dist, closest, toProcess);
      var coords := IntVec2(k.x + x, k.y + y);
      if coords !in activeChunks {
        var distSq := ChunkDistSq(coords, cam);
        if distSq <= ACTIVATION_RANGE_SQ && distSq < closest {
          closest' := distSq;
          c := CreateAndActivate(coords);
          toProcess' := toProcess - 1;
        }
      }
    }

    /**
     * The new chunk of ScanPosition: created with all blocks default and no
     * links, then handed to ActivateChunk, which queues it; it joins the
     * arriving chunks with an array of its own.
     */
    method CreateAndActivate(coords: IntVec2) returns (c: Chunk)
      requires StreamingOk() && coords !in activeChunks
      modifies this`chunksQueuedForGeneration, this`chunksQueuedForLoad, this`arriving, this`owners
      ensures StreamingOk()
      ensures fresh(c) && c.Sized() && c.Unlinked() && c.chunkCoords == coords
      ensures c.chunkState == QueuedState(if coords in saveFiles then LOAD else GENERATE)
      ensures chunksQueuedForLoad == old(chunksQueuedForLoad) + (if coords in saveFiles then [c] else [])
      ensures chunksQueuedForGeneration == old(chunksQueuedForGeneration) + (if coords in saveFiles then [] else [c])
    {
      c := new Chunk(coords);
      RegisterArrival(c);
      ActivateChunk(c);
    }

    /** A chunk just constructed becomes an arriving chunk; nothing the source sees changes. */
    method RegisterArrival(c: Chunk)
      requires StreamingOk() && c.blocks !in owners && c.Sized() && c.Unlinked() && c.chunkState == CONSTRUCTING
      requires forall i :: 0 <= i < c.blocks.Length ==> c.blocks[i] == EMPTY_BLOCK
      requires forall k | k in activeChunks :: activeChunks[k] != c
      modifies this`arriving, this`owners
      ensures StreamingOk() && c in arriving
    {
      assert BlockTypesKnown(c, defs) by {
        forall i | 0 <= i < c.blocks.Length
          ensures KnownType(defs, c.blocks[..][i].blockType)
        {
          assert c.blocks[..][i] == EMPTY_BLOCK;
        }
      }
      arriving := arriving + {c};
      owners := owners[c.blocks := c];
    }

    /**
     * FinalizeActivatedChunk: a chunk whose coordinates are already active
     * is left alone; any other chunk is added as AddActiveChunk describes.
     */
    method FinalizeActivatedChunk(c: Chunk)
      requires LightReady() && c.Sized() && c.Unlinked() && BlockTypesKnown(c, defs)
      requires forall k | k in activeChunks :: activeChunks[k].blocks != c.blocks
      modifies this`activeChunks, this`dirtyLightBlocks, Arrays(activeChunks), c.blocks, c`isMeshDirty, c`needsSaving
      modifies activeChunks.Values`northNeighbor, activeChunks.Values`southNeighbor
      modifies activeChunks.Values`eastNeighbor, activeChunks.Values`westNeighbor
      modifies c`northNeighbor, c`southNeighbor, c`eastNeighbor, c`westNeighbor
      ensures LightReady()
      ensures c.chunkCoords in old(activeChunks) ==>
        && activeChunks == old(activeChunks) && dirtyLightBlocks == old(dirtyLightBlocks)
        && c.blocks[..] == old(c.blocks[..]) && c.isMeshDirty == old(c.isMeshDirty) && c.needsSaving == old(c.needsSaving)
      ensures c.chunkCoords !in old(activeChunks) ==>
        && activeChunks == old(activeChunks)[c.chunkCoords := c]
        && c.isMeshDirty && !c.needsSaving
        && LitOnActivation(old(c.blocks[..]), SidesAround(activeChunks, c.chunkCoords), c.blocks[..], defs)
        && DirtiedExcept(old(activeChunks), c.chunkCoords, old(BlocksOf(activeChunks)), BlocksOf(activeChunks))
    {
      if c.chunkCoords in activeChunks {
        return;
      }
      AddActiveChunk(c);
      // The two flags are set last here; no step of AddActiveChunk reads them.
      SetActivatedFlags(c);
    }

    /** Marks the chunk's mesh dirty and clears its need to be saved; nothing the lighting reads changes. */
    method SetActivatedFlags(c: Chunk)
      requires LightReady()
      modifies c`isMeshDirty, c`needsSaving
      ensures LightReady() && BlocksOf(activeChunks) == old(BlocksOf(activeChunks))
      ensures c.isMeshDirty && !c.needsSaving
    {
      c.isMeshDirty := true;
      c.needsSaving := false;
    }

    /**
     * The body of FinalizeActivatedChunk for a chunk not yet active, but for
     * the two flags: the chunk joins the active chunks, is linked both ways with the active chunks beside it, and has its
     * lighting initialised (LitOnActivation, so each block is as
     * ActivatedLight describes); blocks of the other chunks change at most
     * by gaining the light-dirty flag.
     */
    method AddActiveChunk(c: Chunk)
      requires LightReady() && c.Sized() && c.Unlinked() && BlockTypesKnown(c, defs) && c.chunkCoords !in activeChunks
      requires forall k | k in activeChunks :: activeChunks[k].blocks != c.blocks
      modifies this`activeChunks, this`dirtyLightBlocks, Arrays(activeChunks), c.blocks
      modifies activeChunks.Values`northNeighbor, activeChunks.Values`southNeighbor
      modifies activeChunks.Values`eastNeighbor, activeChunks.Values`westNeighbor
      modifies c`northNeighbor, c`southNeighbor, c`eastNeighbor, c`westNeighbor
      ensures LightReady()
      ensures activeChunks == old(activeChunks)[c.chunkCoords := c]
      ensures LitOnActivation(old(c.blocks[..]), SidesAround(activeChunks, c.chunkCoords), c.blocks[..], defs)
      ensures DirtiedExcept(old(activeChunks), c.chunkCoords, old(BlocksOf(activeChunks)), BlocksOf(activeChunks))
    {
      ghost var before: map<IntVec2, seq<Block>> := BlocksOf(activeChunks);
      ghost var orig := c.blocks[..];
      ghost var inserted := ResetAndInsert(c);
      ghost var final := InitializeChunkLighting(c, inserted);
      DirtiedAcrossInsert(old(activeChunks), c, before, ResetBlocks(orig), final);
    }

    /**
     * The reset of the chunk's lighting followed by InsertActivatedChunk;
     * `inserted` is the active chunks' blocks afterwards: those of the other
     * chunks as they were, and the chunk's own reset.
     */
    method ResetAndInsert(c: Chunk) returns (ghost inserted: map<IntVec2, seq<Block>>)
      requires LightReady() && c.Sized() && c.Unlinked() && BlockTypesKnown(c, defs) && c.chunkCoords !in activeChunks
      requires forall k | k in activeChunks :: activeChunks[k].blocks != c.blocks
      modifies this`activeChunks, c.blocks
      modifies activeChunks.Values`northNeighbor, activeChunks.Values`southNeighbor
      modifies activeChunks.Values`eastNeighbor, activeChunks.Values`westNeighbor
      modifies c`northNeighbor, c`southNeighbor, c`eastNeighbor, c`westNeighbor
      ensures LightReady()
      ensures activeChunks == old(activeChunks)[c.chunkCoords := c]
      ensures SidesOf(c) == SidesAround(activeChunks, c.chunkCoords)
      ensures inserted == BlocksOf(activeChunks) && inserted == old(BlocksOf(activeChunks))[c.chunkCoords := ResetBlocks(old(c.blocks[..]))]
    {
      ghost var before: map<IntVec2, seq<Block>> := BlocksOf(activeChunks);
      ghost var target := before[c.chunkCoords := ResetBlocks(c.blocks[..])];
      ResetLighting(c);
      InsertActivatedChunk(c);
      inserted := BlocksOf(activeChunks);
      assert inserted.Keys == target.Keys;
      assert forall k | k in inserted :: inserted[k] == target[k];
      assert inserted == target;
    }

    /**
     * The insertion and HookUpNeighbors of FinalizeActivatedChunk, for a
     * chunk whose blocks carry no light-dirty flag.
     */
    method InsertActivatedChunk(c: Chunk)
      requires LightReady() && c.Sized() && c.Unlinked() && BlockTypesKnown(c, defs) && c.chunkCoords !in activeChunks
      requires forall k | k in activeChunks :: activeChunks[k].blocks != c.blocks
      requires forall n | InIndexRange(n) :: !c.blocks[n].IsLightDirty()
      modifies this`activeChunks
      modifies activeChunks.Values`northNeighbor, activeChunks.Values`southNeighbor
      modifies activeChunks.Values`eastNeighbor, activeChunks.Values`westNeighbor
      modifies c`northNeighbor, c`southNeighbor, c`eastNeighbor, c`westNeighbor
      ensures LightReady()
      ensures activeChunks == old(activeChunks)[c.chunkCoords := c]
      ensures SidesOf(c) == SidesAround(activeChunks, c.chunkCoords)
    {
      InsertKeepsLightState(activeChunks, dirtyLightBlocks, c, defs);
      activeChunks := activeChunks[c.chunkCoords := c];
      HookUpNeighbors(activeChunks, c);
      SidesOfHooked(activeChunks, c);
    }

    /**
     * DeActivateChunk: a chunk whose coordinates are not active is left
     * alone. Otherwise the chunks beside it drop their links to it, it
     * leaves the active chunks, and it waits for a save job when it has
     * unsaved changes; a chunk without them is destroyed, which here means
     * it is simply no longer referenced.
     */
    method DeActivateChunk(c: Chunk)
      requires LightReady() && StreamingOk()
      requires c.chunkCoords in activeChunks ==> activeChunks[c.chunkCoords] == c && NoneQueuedFor(dirtyLightBlocks, c)
      modifies this`activeChunks, this`chunksQueuedForSave, c`chunkState
      modifies activeChunks.Values`northNeighbor, activeChunks.Values`southNeighbor
      modifies activeChunks.Values`eastNeighbor, activeChunks.Values`westNeighbor
      ensures LightReady() && StreamingOk()
      ensures c.chunkCoords !in old(activeChunks) ==>
        && activeChunks == old(activeChunks) && chunksQueuedForSave == old(chunksQueuedForSave)
        && c.chunkState == old(c.chunkState)
      ensures c.chunkCoords in old(activeChunks) ==>
        && activeChunks == old(activeChunks) - {c.chunkCoords}
        && (c.needsSaving ==> chunksQueuedForSave == old(chunksQueuedForSave) + [c] && c.chunkState == QueuedState(SAVE))
        && (!c.needsSaving ==> chunksQueuedForSave == old(chunksQueuedForSave) && c.chunkState == old(c.chunkState))
    {
      if c.chunkCoords !in activeChunks {
        return;
      }
      DetachActiveChunk(c);
      if c.needsSaving {
        QueueForSave(c);
      }
    }

    /**
     * The unlinking half of DeActivateChunk (see UnlinkAndRemove) with what
     * the streaming invariant then says of the chunk: it was an active
     * chunk, so it is full size, in a complete state and not arriving.
     */
    method DetachActiveChunk(c: Chunk)
      requires LightReady() && StreamingOk()
      requires c.chunkCoords in activeChunks && activeChunks[c.chunkCoords] == c && NoneQueuedFor(dirtyLightBlocks, c)
      modifies this`activeChunks
      modifies activeChunks.Values`northNeighbor, activeChunks.Values`southNeighbor
      modifies activeChunks.Values`eastNeighbor, activeChunks.Values`westNeighbor
      ensures LightReady() && StreamingOk()
      ensures activeChunks == old(activeChunks) - {c.chunkCoords}
      ensures c !in arriving && c !in activeChunks.Values && c.Sized()
      ensures c.chunkState in {CompleteState(GENERATE), CompleteState(LOAD)}
    {
      UnlinkAndRemove(c);
    }

    /** The lighting side of DetachActiveChunk: the links and the light queue stay consistent. */
    method UnlinkAndRemove(c: Chunk)
      requires LightReady()
      requires c.chunkCoords in activeChunks && activeChunks[c.chunkCoords] == c && NoneQueuedFor(dirtyLightBlocks, c)
      modifies this`activeChunks
      modifies activeChunks.Values`northNeighbor, activeChunks.Values`southNeighbor
      modifies activeChunks.Values`eastNeighbor, activeChunks.Values`westNeighbor
      ensures LightReady()
      ensures activeChunks == old(activeChunks) - {c.chunkCoords}
    {
      RemoveKeepsLightState(activeChunks, dirtyLightBlocks, c.chunkCoords, defs);
      RemoveFromNeighbors(activeChunks, c);
      activeChunks := activeChunks - {c.chunkCoords};
    }

    /** The save branch of DeActivateChunk: the chunk waits in the save queue. */
    method QueueForSave(c: Chunk)
      requires StreamingOk()
      requires c !in arriving && c !in activeChunks.Values && c.Sized()
      requires c.chunkState in {CompleteState(GENERATE), CompleteState(LOAD)}
      modifies this`chunksQueuedForSave, c`chunkState
      ensures StreamingOk() && (old(LightReady()) ==> LightReady())
      ensures chunksQueuedForSave == old(chunksQueuedForSave) + [c] && c.chunkState == QueuedState(SAVE)
    {
      c.chunkState := DEACTIVATING_QUEUED_SAVE;
      chunksQueuedForSave := chunksQueuedForSave + [c];
    }

    /**
     * The search loop of DeactivateFurthestChunk, over the active chunks in
     * an order left open (the source walks a hash map): the result is null
     * exactly when no active chunk lies beyond the deactivation range, and
     * otherwise an active chunk beyond it that no active chunk is farther
     * than.
     */
    method FurthestChunk(cam: Vec2) returns (far: Chunk?)
      requires Keyed(activeChunks)
      ensures far == null <==> forall k | k in activeChunks :: !BeyondDeactivation(k, cam)
      ensures far != null ==>
        && IsActive(activeChunks, far) && BeyondDeactivation(far.chunkCoords, cam)
        && forall k | k in activeChunks :: ChunkDistSq(k, cam) <= ChunkDistSq(far.chunkCoords, cam)
    {
      far := null;
      var farthestDistSq := 0.0;
      var remaining := activeChunks.Keys;
      while remaining != {}
        invariant remaining <= activeChunks.Keys
        invariant far == null ==> farthestDistSq == 0.0
        invariant far == null ==> forall k | k in activeChunks && k !in remaining :: !BeyondDeactivation(k, cam)
        invariant far != null ==>
          && IsActive(activeChunks, far) && BeyondDeactivation(far.chunkCoords, cam)
          && farthestDistSq == ChunkDistSq(far.chunkCoords, cam)
        invariant forall k | k in activeChunks && k !in remaining && BeyondDeactivation(k, cam) :: ChunkDistSq(k, cam) <= farthestDistSq
        decreases |remaining|
      {
        var k :| k in remaining;
        var chunk := activeChunks[k];
        var distSq := DistToCamera(chunk, cam);
        if distSq > DEACTIVATION_RANGE_SQ && distSq > farthestDistSq {
          farthestDistSq := distSq;
          far := chunk;
        }
        remaining := remaining - {k};
      }
    }

    /**
     * DeactivateFurthestChunk: deactivates the chunk FurthestChunk finds, if
     * any, and returns it. The light queue is empty here: earlier in the
     * same frame BuildMeshesThisFrame drains it.
     */
    method DeactivateFurthestChunk(cam: Vec2) returns (far: Chunk?)
      requires LightReady() && StreamingOk() && dirtyLightBlocks == []
      modifies this`activeChunks, this`chunksQueuedForSave, activeChunks.Values`chunkState
      modifies activeChunks.Values`northNeighbor, activeChunks.Values`southNeighbor
      modifies activeChunks.Values`eastNeighbor, activeChunks.Values`westNeighbor
      ensures LightReady() && StreamingOk()
      ensures far == null <==> forall k | k in old(activeChunks) :: !BeyondDeactivation(k, cam)
      ensures far == null ==> activeChunks == old(activeChunks) && chunksQueuedForSave == old(chunksQueuedForSave)
      ensures far != null ==>
        && IsActive(old(activeChunks), far) && BeyondDeactivation(far.chunkCoords, cam)
        && (forall k | k in old(activeChunks) :: ChunkDistSq(k, cam) <= ChunkDistSq(far.chunkCoords, cam))
        && activeChunks == old(activeChunks) - {far.chunkCoords}
        && (far.needsSaving ==> chunksQueuedForSave == old(chunksQueuedForSave) + [far])
        && (!far.needsSaving ==> chunksQueuedForSave == old(chunksQueuedForSave))
    {
      far := FurthestChunk(cam);
      if far != null {
        DeActivateChunk(far);
      }
    }

    // -------------------------------------------------------------------
    // Job dispatch: each loop takes chunks off the front of its queue while
    // the queue is non-empty and its counter is below the cap.

    /**
     * DispatchGenerateJobs: the dispatch loop for generate jobs (see
     * Dispatched); every chunk it hands over is put in the generating state.
     */
    method DispatchGenerateJobs()
      requires CountersOk() && StreamingOk()
      modifies this`chunksQueuedForGeneration, this`pendingJobs, this`outstandingGenerateJobs
      modifies Members(chunksQueuedForGeneration)`chunkState
      ensures CountersOk() && StreamingOk() && LightReady() == old(LightReady())
      ensures Dispatch(chunksQueuedForGeneration, pendingJobs, outstandingGenerateJobs)
        == Dispatched(GENERATE, Dispatch(old(chunksQueuedForGeneration), old(pendingJobs), old(outstandingGenerateJobs)))
      ensures forall i | 0 <= i < |old(chunksQueuedForGeneration)| - |chunksQueuedForGeneration| ::
        old(chunksQueuedForGeneration)[i].chunkState == RunningState(GENERATE)
    {
      ghost var q := chunksQueuedForGeneration;
      ghost var goal := Dispatched(GENERATE, Dispatch(q, pendingJobs, outstandingGenerateJobs));
      ghost var n := 0;
      while chunksQueuedForGeneration != [] && outstandingGenerateJobs < MAX_GENERATION_JOBS
        invariant CountersOk() && StreamingOk() && LightReady() == old(LightReady())
        invariant Dispatched(GENERATE, Dispatch(chunksQueuedForGeneration, pendingJobs, outstandingGenerateJobs)) == goal
        invariant 0 <= n <= |q| && chunksQueuedForGeneration == q[n..]
        invariant forall i | 0 <= i < n :: q[i].chunkState == RunningState(GENERATE)
        decreases |chunksQueuedForGeneration|
      {
        DispatchGenerateRound(q, n, goal);
        n := n + 1;
        if outstandingGenerateJobs >= MAX_GENERATION_JOBS {
          assert chunksQueuedForGeneration == q[n..] && |q| - |chunksQueuedForGeneration| == n;
          break;
        }
      }
      assert |q| - |chunksQueuedForGeneration| == n;
      DispatchedUnfold(GENERATE, Dispatch(chunksQueuedForGeneration, pendingJobs, outstandingGenerateJobs));
    }

    /**
     * One pass of DispatchGenerateJobs' loop, with the loop's bookkeeping: `n`
     * chunks of the queue `q` the loop started from are handed over, and
     * `goal` is where the loop ends.
     */
    method DispatchGenerateRound(ghost q: seq<Chunk>, ghost n: int, ghost goal: Dispatch)
      requires CountersOk() && StreamingOk() && chunksQueuedForGeneration != [] && outstandingGenerateJobs < MAX_GENERATION_JOBS
      requires Dispatched(GENERATE, Dispatch(chunksQueuedForGeneration, pendingJobs, outstandingGenerateJobs)) == goal
      requires 0 <= n <= |q| && chunksQueuedForGeneration == q[n..]
      requires forall i | 0 <= i < n :: q[i].chunkState == RunningState(GENERATE)
      modifies this`chunksQueuedForGeneration, this`pendingJobs, this`outstandingGenerateJobs
      modifies {chunksQueuedForGeneration[0]}`chunkState
      ensures CountersOk() && StreamingOk() && LightReady() == old(LightReady())
      ensures Dispatched(GENERATE, Dispatch(chunksQueuedForGeneration, pendingJobs, outstandingGenerateJobs)) == goal
      ensures n + 1 <= |q| && chunksQueuedForGeneration == q[n + 1..]
      ensures forall i | 0 <= i < n + 1 :: q[i].chunkState == RunningState(GENERATE)
    {
      ghost var d := Dispatch(chunksQueuedForGeneration, pendingJobs, outstandingGenerateJobs);
      DispatchedUnfold(GENERATE, d);
      DispatchFrontGenerateJob();
      assert Dispatch(chunksQueuedForGeneration, pendingJobs, outstandingGenerateJobs) == Dispatch(d.queue[1..], d.pending + [MakeJob(GENERATE, d.queue[0])], d.outstanding + 1);
      assert q[n..][1..] == q[n + 1..];
    }

    /** One pass of DispatchGenerateJobs' loop: the front chunk becomes a generate job. */
    method DispatchFrontGenerateJob()
      requires CountersOk() && StreamingOk() && chunksQueuedForGeneration != [] && outstandingGenerateJobs < MAX_GENERATION_JOBS
      modifies this`chunksQueuedForGeneration, this`pendingJobs, this`outstandingGenerateJobs
      modifies {chunksQueuedForGeneration[0]}`chunkState
      ensures CountersOk() && StreamingOk() && LightReady() == old(LightReady())
      ensures chunksQueuedForGeneration == old(chunksQueuedForGeneration[1..])
      ensures pendingJobs == old(pendingJobs) + [GenerateChunkJob(old(chunksQueuedForGeneration[0]))]
      ensures outstandingGenerateJobs == old(outstandingGenerateJobs) + 1
      ensures old(chunksQueuedForGeneration[0]).chunkState == RunningState(GENERATE)
    {
      var job := GenerateChunkJob(chunksQueuedForGeneration[0]);
      ghost var before := pendingJobs;
      HandOverFrontGenerate();
      RaiseOutstanding(before, job);
    }

    /** The hand-over of DispatchGenerateJobs: the front chunk leaves its queue, enters the generating state and gets a pending job. */
    method HandOverFrontGenerate()
      requires StreamingOk() && chunksQueuedForGeneration != []
      modifies this`chunksQueuedForGeneration, this`pendingJobs, {chunksQueuedForGeneration[0]}`chunkState
      ensures StreamingOk() && unchanged(Arrays(activeChunks))
      ensures chunksQueuedForGeneration == old(chunksQueuedForGeneration[1..])
      ensures pendingJobs == old(pendingJobs) + [GenerateChunkJob(old(chunksQueuedForGeneration[0]))]
      ensures old(chunksQueuedForGeneration[0]).chunkState == RunningState(GENERATE)
    {
      var chunk := chunksQueuedForGeneration[0];
      StartRunning(chunk, GENERATE, defs, activeChunks, chunksQueuedForGeneration, chunksQueuedForLoad, chunksQueuedForSave,
        pendingJobs, completedJobs, arriving, owners, Arrays(activeChunks));
      chunksQueuedForGeneration := chunksQueuedForGeneration[1..];
      pendingJobs := pendingJobs + [GenerateChunkJob(chunk)];
    }
    /**
     * The first loop of DispatchLoadAndSaveJobs: the dispatch loop for load
     * jobs (see Dispatched); every chunk it hands over is put in the loading
     * state.
     */
    method DispatchLoadJobs()
      requires CountersOk() && StreamingOk()
      modifies this`chunksQueuedForLoad, this`pendingJobs, this`outstandingLoadJobs
      modifies Members(chunksQueuedForLoad)`chunkState
      ensures CountersOk() && StreamingOk() && LightReady() == old(LightReady())
      ensures Dispatch(chunksQueuedForLoad, pendingJobs, outstandingLoadJobs)
        == Dispatched(LOAD, Dispatch(old(chunksQueuedForLoad), old(pendingJobs), old(outstandingLoadJobs)))
      ensures forall i | 0 <= i < |old(chunksQueuedForLoad)| - |chunksQueuedForLoad| ::
        old(chunksQueuedForLoad)[i].chunkState == RunningState(LOAD)
    {
      ghost var q := chunksQueuedForLoad;
      ghost var goal := Dispatched(LOAD, Dispatch(q, pendingJobs, outstandingLoadJobs));
      ghost var n := 0;
      while chunksQueuedForLoad != [] && outstandingLoadJobs < MAX_LOAD_JOBS
        invariant CountersOk() && StreamingOk() && LightReady() == old(LightReady())
        invariant Dispatched(LOAD, Dispatch(chunksQueuedForLoad, pendingJobs, outstandingLoadJobs)) == goal
        invariant 0 <= n <= |q| && chunksQueuedForLoad == q[n..]
        invariant forall i | 0 <= i < n :: q[i].chunkState == RunningState(LOAD)
        decreases |chunksQueuedForLoad|
      {
        assert chunksQueuedForLoad[0] == q[n] && q[n] in Members(q);
        DispatchLoadRound(q, n, goal);
        n := n + 1;
      }
      assert |q| - |chunksQueuedForLoad| == n;
      DispatchedUnfold(LOAD, Dispatch(chunksQueuedForLoad, pendingJobs, outstandingLoadJobs));
    }

    /**
     * One pass of DispatchLoadJobs' loop, with the loop's bookkeeping: `n`
     * chunks of the queue `q` the loop started from are handed over, and
     * `goal` is where the loop ends.
     */
    method DispatchLoadRound(ghost q: seq<Chunk>, ghost n: int, ghost goal: Dispatch)
      requires CountersOk() && StreamingOk() && chunksQueuedForLoad != [] && outstandingLoadJobs < MAX_LOAD_JOBS
      requires Dispatched(LOAD, Dispatch(chunksQueuedForLoad, pendingJobs, outstandingLoadJobs)) == goal
      requires 0 <= n <= |q| && chunksQueuedForLoad == q[n..]
      requires forall i | 0 <= i < n :: q[i].chunkState == RunningState(LOAD)
      modifies this`chunksQueuedForLoad, this`pendingJobs, this`outstandingLoadJobs
      modifies {chunksQueuedForLoad[0]}`chunkState
      ensures CountersOk() && StreamingOk() && LightReady() == old(LightReady())
      ensures Dispatched(LOAD, Dispatch(chunksQueuedForLoad, pendingJobs, outstandingLoadJobs)) == goal
      ensures n + 1 <= |q| && chunksQueuedForLoad == q[n + 1..]
      ensures forall i | 0 <= i < n + 1 :: q[i].chunkState == RunningState(LOAD)
    {
      ghost var d := Dispatch(chunksQueuedForLoad, pendingJobs, outstandingLoadJobs);
      DispatchedUnfold(LOAD, d);
      DispatchFrontLoadJob();
      assert Dispatch(chunksQueuedForLoad, pendingJobs, outstandingLoadJobs) == Dispatch(d.queue[1..], d.pending + [MakeJob(LOAD, d.queue[0])], d.outstanding + 1);
      assert q[n..][1..] == q[n + 1..];
    }

    /** One pass of DispatchLoadJobs' loop: the front chunk becomes a load job. */
    method DispatchFrontLoadJob()
      requires CountersOk() && StreamingOk() && chunksQueuedForLoad != [] && outstandingLoadJobs < MAX_LOAD_JOBS
      modifies this`chunksQueuedForLoad, this`pendingJobs, this`outstandingLoadJobs
      modifies {chunksQueuedForLoad[0]}`chunkState
      ensures CountersOk() && StreamingOk() && LightReady() == old(LightReady())
      ensures chunksQueuedForLoad == old(chunksQueuedForLoad[1..])
      ensures pendingJobs == old(pendingJobs) + [LoadChunkJob(old(chunksQueuedForLoad[0]))]
      ensures outstandingLoadJobs == old(outstandingLoadJobs) + 1
      ensures old(chunksQueuedForLoad[0]).chunkState == RunningState(LOAD)
    {
      var job := LoadChunkJob(chunksQueuedForLoad[0]);
      ghost var before := pendingJobs;
      HandOverFrontLoad();
      RaiseOutstanding(before, job);
    }

    /** The hand-over of DispatchLoadJobs: the front chunk leaves its queue, enters the loading state and gets a pending job. */
    method HandOverFrontLoad()
      requires StreamingOk() && chunksQueuedForLoad != []
      modifies this`chunksQueuedForLoad, this`pendingJobs, {chunksQueuedForLoad[0]}`chunkState
      ensures StreamingOk() && unchanged(Arrays(activeChunks))
      ensures chunksQueuedForLoad == old(chunksQueuedForLoad[1..])
      ensures pendingJobs == old(pendingJobs) + [LoadChunkJob(old(chunksQueuedForLoad[0]))]
      ensures old(chunksQueuedForLoad[0]).chunkState == RunningState(LOAD)
    {
      var chunk := chunksQueuedForLoad[0];
      StartRunning(chunk, LOAD, defs, activeChunks, chunksQueuedForGeneration, chunksQueuedForLoad, chunksQueuedForSave,
        pendingJobs, completedJobs, arriving, owners, Arrays(activeChunks));
      chunksQueuedForLoad := chunksQueuedForLoad[1..];
      pendingJobs := pendingJobs + [LoadChunkJob(chunk)];
    }
    /**
     * The second loop of DispatchLoadAndSaveJobs: the dispatch loop for save
     * jobs (see Dispatched); every chunk it hands over is put in the saving
     * state.
     */
    method DispatchSaveJobs()
      requires CountersOk() && StreamingOk()
      modifies this`chunksQueuedForSave, this`pendingJobs, this`outstandingSaveJobs
      modifies Members(chunksQueuedForSave)`chunkState
      ensures CountersOk() && StreamingOk() && LightReady() == old(LightReady())
      ensures Dispatch(chunksQueuedForSave, pendingJobs, outstandingSaveJobs)
        == Dispatched(SAVE, Dispatch(old(chunksQueuedForSave), old(pendingJobs), old(outstandingSaveJobs)))
      ensures forall i | 0 <= i < |old(chunksQueuedForSave)| - |chunksQueuedForSave| ::
        old(chunksQueuedForSave)[i].chunkState == RunningState(SAVE)
    {
      ghost var q := chunksQueuedForSave;
      ghost var goal := Dispatched(SAVE, Dispatch(q, pendingJobs, outstandingSaveJobs));
      ghost var n := 0;
      while chunksQueuedForSave != [] && outstandingSaveJobs < MAX_SAVE_JOBS
        invariant CountersOk() && StreamingOk() && LightReady() == old(LightReady())
        invariant Dispatched(SAVE, Dispatch(chunksQueuedForSave, pendingJobs, outstandingSaveJobs)) == goal
        invariant 0 <= n <= |q| && chunksQueuedForSave == q[n..]
        invariant forall i | 0 <= i < n :: q[i].chunkState == RunningState(SAVE)
        decreases |chunksQueuedForSave|
      {
        assert chunksQueuedForSave[0] == q[n] && q[n] in Members(q);
        DispatchSaveRound(q, n, goal);
        n := n + 1;
      }
      assert |q| - |chunksQueuedForSave| == n;
      DispatchedUnfold(SAVE, Dispatch(chunksQueuedForSave, pendingJobs, outstandingSaveJobs));
    }

    /**
     * One pass of DispatchSaveJobs' loop, with the loop's bookkeeping: `n`
     * chunks of the queue `q` the loop started from are handed over, and
     * `goal` is where the loop ends.
     */
    method DispatchSaveRound(ghost q: seq<Chunk>, ghost n: int, ghost goal: Dispatch)
      requires CountersOk() && StreamingOk() && chunksQueuedForSave != [] && outstandingSaveJobs < MAX_SAVE_JOBS
      requires Dispatched(SAVE, Dispatch(chunksQueuedForSave, pendingJobs, outstandingSaveJobs)) == goal
      requires 0 <= n <= |q| && chunksQueuedForSave == q[n..]
      requires forall i | 0 <= i < n :: q[i].chunkState == RunningState(SAVE)
      modifies this`chunksQueuedForSave, this`pendingJobs, this`outstandingSaveJobs
      modifies {chunksQueuedForSave[0]}`chunkState
      ensures CountersOk() && StreamingOk() && LightReady() == old(LightReady())
      ensures Dispatched(SAVE, Dispatch(chunksQueuedForSave, pendingJobs, outstandingSaveJobs)) == goal
      ensures n + 1 <= |q| && chunksQueuedForSave == q[n + 1..]
      ensures forall i | 0 <= i < n + 1 :: q[i].chunkState == RunningState(SAVE)
    {
      ghost var d := Dispatch(chunksQueuedForSave, pendingJobs, outstandingSaveJobs);
      DispatchedUnfold(SAVE, d);
      DispatchFrontSaveJob();
      assert Dispatch(chunksQueuedForSave, pendingJobs, outstandingSaveJobs) == Dispatch(d.queue[1..], d.pending + [MakeJob(SAVE, d.queue[0])], d.outstanding + 1);
      assert q[n..][1..] == q[n + 1..];
    }

    /** One pass of DispatchSaveJobs' loop: the front chunk becomes a save job. */
    method DispatchFrontSaveJob()
      requires CountersOk() && StreamingOk() && chunksQueuedForSave != [] && outstandingSaveJobs < MAX_SAVE_JOBS
      modifies this`chunksQueuedForSave, this`pendingJobs, this`outstandingSaveJobs
      modifies {chunksQueuedForSave[0]}`chunkState
      ensures CountersOk() && StreamingOk() && LightReady() == old(LightReady())
      ensures chunksQueuedForSave == old(chunksQueuedForSave[1..])
      ensures pendingJobs == old(pendingJobs) + [SaveChunkJob(old(chunksQueuedForSave[0]))]
      ensures outstandingSaveJobs == old(outstandingSaveJobs) + 1
      ensures old(chunksQueuedForSave[0]).chunkState == RunningState(SAVE)
    {
      var job := SaveChunkJob(chunksQueuedForSave[0]);
      ghost var before := pendingJobs;
      HandOverFrontSave();
      RaiseOutstanding(before, job);
    }

    /** The hand-over of DispatchSaveJobs: the front chunk leaves its queue, enters the saving state and gets a pending job. */
    method HandOverFrontSave()
      requires StreamingOk() && chunksQueuedForSave != []
      modifies this`chunksQueuedForSave, this`pendingJobs, {chunksQueuedForSave[0]}`chunkState
      ensures StreamingOk() && unchanged(Arrays(activeChunks))
      ensures chunksQueuedForSave == old(chunksQueuedForSave[1..])
      ensures pendingJobs == old(pendingJobs) + [SaveChunkJob(old(chunksQueuedForSave[0]))]
      ensures old(chunksQueuedForSave[0]).chunkState == RunningState(SAVE)
    {
      var chunk := chunksQueuedForSave[0];
      StartRunning(chunk, SAVE, defs, activeChunks, chunksQueuedForGeneration, chunksQueuedForLoad, chunksQueuedForSave,
        pendingJobs, completedJobs, arriving, owners, Arrays(activeChunks));
      chunksQueuedForSave := chunksQueuedForSave[1..];
      pendingJobs := pendingJobs + [SaveChunkJob(chunk)];
    }

    /** The outstanding counter of kind `k` moves by `d`; nothing the streaming invariant reads changes. */
    method AdjustOutstanding(k: JobKind, d: int)
      modifies (if k == GENERATE then {this} else {})`outstandingGenerateJobs
      modifies (if k == LOAD then {this} else {})`outstandingLoadJobs
      modifies (if k == SAVE then {this} else {})`outstandingSaveJobs
      ensures outstandingGenerateJobs == old(outstandingGenerateJobs) + (if k == GENERATE then d else 0)
      ensures outstandingLoadJobs == old(outstandingLoadJobs) + (if k == LOAD then d else 0)
      ensures outstandingSaveJobs == old(outstandingSaveJobs) + (if k == SAVE then d else 0)
      ensures StreamingOk() == old(StreamingOk())
    {
      match k {
        case GENERATE => outstandingGenerateJobs := outstandingGenerateJobs + d;
        case LOAD => outstandingLoadJobs := outstandingLoadJobs + d;
        case SAVE => outstandingSaveJobs := outstandingSaveJobs + d;
      }
    }

    /**
     * DispatchLoadAndSaveJobs: the load loop, then the save loop. A chunk
     * waits for one job at a time, so no chunk is in both queues. The
     * states the load loop gives its chunks are stated by DispatchLoadJobs;
     * here only those of the save loop, which runs last.
     */
    method DispatchLoadAndSaveJobs()
      requires CountersOk() && StreamingOk()
      modifies this`chunksQueuedForLoad, this`chunksQueuedForSave, this`pendingJobs
      modifies this`outstandingLoadJobs, this`outstandingSaveJobs
      modifies Members(chunksQueuedForLoad)`chunkState, Members(chunksQueuedForSave)`chunkState
      ensures CountersOk() && StreamingOk() && LightReady() == old(LightReady())
      ensures var afterLoad := Dispatched(LOAD, Dispatch(old(chunksQueuedForLoad), old(pendingJobs), old(outstandingLoadJobs)));
        && chunksQueuedForLoad == afterLoad.queue && outstandingLoadJobs == afterLoad.outstanding
        && Dispatch(chunksQueuedForSave, pendingJobs, outstandingSaveJobs)
           == Dispatched(SAVE, Dispatch(old(chunksQueuedForSave), afterLoad.pending, old(outstandingSaveJobs)))
      ensures forall i | 0 <= i < |old(chunksQueuedForSave)| - |chunksQueuedForSave| ::
        old(chunksQueuedForSave)[i].chunkState == RunningState(SAVE)
    {
      DispatchLoadJobs();
      DispatchSaveJobs();
    }

    // -------------------------------------------------------------------
    // Jobs: each Execute runs as one step on the job system's side.

    /** The save directory's file for a chunk; FileReadToBuffer of a missing file gives no bytes. */
    function FileFor(coords: IntVec2): seq<byte>
      reads this`saveFiles
    {
      if coords in saveFiles then saveFiles[coords] else []
    }

    /**
     * SaveChunkToFile: writes the chunk's encoded block types as its file,
     * which the loader reads back as exactly those types.
     */
    method SaveChunkToFile(c: Chunk)
      requires c.Sized()
      modifies this`saveFiles
      ensures saveFiles == old(saveFiles)[c.chunkCoords := EncodeChunkFile(TypesOf(c.blocks[..]))]
      ensures HasMagic(FileFor(c.chunkCoords))
      ensures DecodeRuns(FileFor(c.chunkCoords)[HEADER_SIZE..]) == Some(TypesOf(c.blocks[..]))
    {
      var bytes := EncodeChunkBlocks(c.blocks);
      SaveLoadRoundTrip(TypesOf(c.blocks[..]));
      saveFiles := saveFiles[c.chunkCoords := bytes];
    }

    /**
     * LoadChunkFromFile: decodes the chunk's file into its blocks. A file the
     * loader does not accept is reported; the source stops the program on a
     * bad magic and reads or writes out of bounds on the other defects.
     */
    method LoadChunkFromFile(c: Chunk) returns (r: LoadOutcome)
      requires c.Sized()
      modifies c.blocks
      ensures r == Loaded <==> Loadable(FileFor(c.chunkCoords), defs)
      ensures r == Loaded ==>
        var types := DecodeRuns(FileFor(c.chunkCoords)[HEADER_SIZE..]).value;
        forall i :: 0 <= i < CHUNK_BLOCK_TOTAL ==>
          c.blocks[i] == if i < |types| then old(c.blocks[i]).SetBlockType(types[i], defs) else old(c.blocks[i])
      ensures AllTypesKnown(old(c.blocks[..]), defs) ==> BlockTypesKnown(c, defs)
    {
      var file := FileFor(c.chunkCoords);
      r := DecodeIntoBlocks(c.blocks, file, defs);
      forall i | 0 <= i < c.blocks.Length && AllTypesKnown(old(c.blocks[..]), defs)
        ensures KnownType(defs, c.blocks[i].blockType)
      {
        assert old(c.blocks[..])[i] == old(c.blocks[i]);
      }
    }

    /**
     * GenerateChunkJob::Execute with the corrected generator
     * (PopulateWithDensityNoiseCorrected, whose trees the source never
     * plants): fills the chunk from its noise, then marks the generation
     * complete.
     */
    method ExecuteGenerateJobCorrected(c: Chunk, noise: seq<ColumnSamples>)
      requires TablesOk() && c.Sized() && NoiseFits(noise)
      modifies c.blocks, c`chunkState
      ensures c.blocks[..] == Populated(old(c.blocks[..]), noise, defs, stamps, COLUMN_COUNT)
      ensures AllTypesKnown(old(c.blocks[..]), defs) ==> BlockTypesKnown(c, defs)
      ensures c.chunkState == CompleteState(GENERATE)
    {
      ghost var before := c.blocks[..];
      PopulateWithDensityNoiseCorrected(c, noise, defs, stamps);
      if AllTypesKnown(before, defs) {
        PopulatedKeepsTypesKnown(before, noise, defs, stamps, COLUMN_COUNT);
      }
      c.chunkState := ACTIVATING_GENERATE_COMPLETE;
    }

    /** LoadChunkJob::Execute: loads the chunk's file, then marks the load complete. */
    method ExecuteLoadJob(c: Chunk) returns (r: LoadOutcome)
      requires c.Sized()
      modifies c.blocks, c`chunkState
      ensures r == Loaded <==> Loadable(FileFor(c.chunkCoords), defs)
      ensures r == Loaded ==> c.chunkState == CompleteState(LOAD)
      ensures r.Failed? ==> c.chunkState == old(c.chunkState)
      ensures AllTypesKnown(old(c.blocks[..]), defs) ==> BlockTypesKnown(c, defs)
    {
      r := LoadChunkFromFile(c);
      if r == Loaded {
        c.chunkState := ACTIVATING_LOAD_COMPLETE;
      }
    }

    /** SaveChunkJob::Execute: saves the chunk to its file, then marks the save complete. */
    method ExecuteSaveJob(c: Chunk)
      requires c.Sized()
      modifies this`saveFiles, c`chunkState
      ensures saveFiles == old(saveFiles)[c.chunkCoords := EncodeChunkFile(TypesOf(c.blocks[..]))]
      ensures c.chunkState == CompleteState(SAVE)
    {
      SaveChunkToFile(c);
      c.chunkState := DEACTIVATING_SAVE_COMPLETE;
    }

    /**
     * The job system runs the oldest pending job and moves it to the
     * completed jobs. A load that cannot go on stops there with the job
     * still pending.
     */
    method ExecuteNextJob(noise: seq<ColumnSamples>) returns (r: LoadOutcome)
      requires CountersOk() && TablesOk() && StreamingOk() && pendingJobs != []
      requires KindOf(pendingJobs[0]) == GENERATE ==> NoiseFits(noise)
      modifies this`pendingJobs, this`completedJobs, this`saveFiles
      modifies pendingJobs[0].chunk.blocks, {pendingJobs[0].chunk}`chunkState
      ensures CountersOk() && StreamingOk()
      ensures var j := old(pendingJobs[0]);
        && (r == Loaded <==> KindOf(j) != LOAD || Loadable(old(FileFor(j.chunk.chunkCoords)), defs))
        && (r == Loaded ==> && pendingJobs == old(pendingJobs[1..]) && completedJobs == old(completedJobs) + [j]
                            && j.chunk.chunkState == CompleteState(KindOf(j)))
        && (r.Failed? ==> pendingJobs == old(pendingJobs) && completedJobs == old(completedJobs))
    {
      ghost var gq, lq, sq := chunksQueuedForGeneration, chunksQueuedForLoad, chunksQueuedForSave;
      ghost var pending, completed := pendingJobs, completedJobs;
      FrontPendingApart(defs, activeChunks, gq, lq, sq, pending, completed, arriving, owners);
      r := RunFrontJob(noise);
      if r == Loaded {
        CompleteFrontJob();
      } else {
        FrontJobStalled(defs, activeChunks, gq, lq, sq, pending, completed, arriving, owners);
      }
    }

    /**
     * Runs the front pending job (see RunJob); what the streaming invariant
     * covers besides the job's chunk is set aside and left as it was.
     */
    method RunFrontJob(noise: seq<ColumnSamples>) returns (r: LoadOutcome)
      requires TablesOk() && pendingJobs != []
      requires KindOf(pendingJobs[0]) == GENERATE ==> NoiseFits(noise)
      requires FrontSetAside(defs, activeChunks, chunksQueuedForGeneration, chunksQueuedForLoad, chunksQueuedForSave,
        pendingJobs, completedJobs, arriving, owners)
      requires var c := pendingJobs[0].chunk; var k := KindOf(pendingJobs[0]);
        && c.chunkState == RunningState(k) && c !in chunksQueuedForGeneration && c !in chunksQueuedForLoad
        && c !in chunksQueuedForSave
        && (k != SAVE ==> BlockTypesKnown(c, defs) && c.blocks !in ArraysOf(arriving - {c}))
      modifies this`saveFiles, pendingJobs[0].chunk.blocks, {pendingJobs[0].chunk}`chunkState
      ensures FrontSetAside(defs, activeChunks, chunksQueuedForGeneration, chunksQueuedForLoad, chunksQueuedForSave,
        pendingJobs, completedJobs, arriving, owners)
      ensures var j := pendingJobs[0];
        && (r == Loaded <==> KindOf(j) != LOAD || Loadable(old(FileFor(j.chunk.chunkCoords)), defs))
        && (r == Loaded ==> j.chunk.chunkState == CompleteState(KindOf(j)))
        && (r.Failed? ==> j.chunk.chunkState == RunningState(KindOf(j)))
        && (KindOf(j) != SAVE ==> BlockTypesKnown(j.chunk, defs))
    {
      match pendingJobs[0] {
        case GenerateChunkJob(c) => RunFrontGenerate(noise); r := Loaded;
        case LoadChunkJob(c) => r := RunFrontLoad();
        case SaveChunkJob(c) => RunFrontSave(); r := Loaded;
      }
    }

    method RunFrontGenerate(noise: seq<ColumnSamples>)
      requires TablesOk() && pendingJobs != [] && pendingJobs[0].GenerateChunkJob? && NoiseFits(noise)
      requires FrontSetAside(defs, activeChunks, chunksQueuedForGeneration, chunksQueuedForLoad, chunksQueuedForSave,
        pendingJobs, completedJobs, arriving, owners)
      requires var c := pendingJobs[0].chunk;
        && c !in chunksQueuedForGeneration && c !in chunksQueuedForLoad && c !in chunksQueuedForSave
        && BlockTypesKnown(c, defs) && c.blocks !in ArraysOf(arriving - {c})
      modifies pendingJobs[0].chunk.blocks, {pendingJobs[0].chunk}`chunkState
      ensures FrontSetAside(defs, activeChunks, chunksQueuedForGeneration, chunksQueuedForLoad, chunksQueuedForSave,
        pendingJobs, completedJobs, arriving, owners)
      ensures pendingJobs[0].chunk.chunkState == CompleteState(GENERATE) && BlockTypesKnown(pendingJobs[0].chunk, defs)
    {
      RunGenerate(pendingJobs[0].chunk, noise);
    }

    method RunFrontLoad() returns (r: LoadOutcome)
      requires TablesOk() && pendingJobs != [] && pendingJobs[0].LoadChunkJob?
      requires FrontSetAside(defs, activeChunks, chunksQueuedForGeneration, chunksQueuedForLoad, chunksQueuedForSave,
        pendingJobs, completedJobs, arriving, owners)
      requires var c := pendingJobs[0].chunk;
        && c.chunkState == RunningState(LOAD)
        && c !in chunksQueuedForGeneration && c !in chunksQueuedForLoad && c !in chunksQueuedForSave
        && BlockTypesKnown(c, defs) && c.blocks !in ArraysOf(arriving - {c})
      modifies pendingJobs[0].chunk.blocks, {pendingJobs[0].chunk}`chunkState
      ensures FrontSetAside(defs, activeChunks, chunksQueuedForGeneration, chunksQueuedForLoad, chunksQueuedForSave,
        pendingJobs, completedJobs, arriving, owners)
      ensures var c := pendingJobs[0].chunk;
        && (r == Loaded <==> Loadable(FileFor(c.chunkCoords), defs))
        && (r == Loaded ==> c.chunkState == CompleteState(LOAD))
        && (r.Failed? ==> c.chunkState == RunningState(LOAD))
        && BlockTypesKnown(c, defs)
    {
      r := ExecuteLoadJob(pendingJobs[0].chunk);
    }

    method RunFrontSave()
      requires TablesOk() && pendingJobs != [] && pendingJobs[0].SaveChunkJob?
      requires FrontSetAside(defs, activeChunks, chunksQueuedForGeneration, chunksQueuedForLoad, chunksQueuedForSave,
        pendingJobs, completedJobs, arriving, owners)
      requires var c := pendingJobs[0].chunk;
        && c !in chunksQueuedForGeneration && c !in chunksQueuedForLoad && c !in chunksQueuedForSave
      modifies this`saveFiles, {pendingJobs[0].chunk}`chunkState
      ensures FrontSetAside(defs, activeChunks, chunksQueuedForGeneration, chunksQueuedForLoad, chunksQueuedForSave,
        pendingJobs, completedJobs, arriving, owners)
      ensures pendingJobs[0].chunk.chunkState == CompleteState(SAVE)
    {
      ExecuteSaveJob(pendingJobs[0].chunk);
    }

    /** GenerateChunkJob::Execute, for callers that need only the chunk's state and its known block types. */
    method RunGenerate(c: Chunk, noise: seq<ColumnSamples>)
      requires TablesOk() && c.Sized() && NoiseFits(noise)
      modifies c.blocks, c`chunkState
      ensures c.chunkState == CompleteState(GENERATE)
      ensures AllTypesKnown(old(c.blocks[..]), defs) ==> BlockTypesKnown(c, defs)
    {
      ExecuteGenerateJobCorrected(c, noise);
    }

    /** A finished job moves from the front of the pending jobs to the back of the completed jobs. */
    method CompleteFrontJob()
      requires CountersOk() && pendingJobs != []
      requires FrontSetAside(defs, activeChunks, chunksQueuedForGeneration, chunksQueuedForLoad, chunksQueuedForSave,
        pendingJobs, completedJobs, arriving, owners)
      requires pendingJobs[0].chunk.chunkState == CompleteState(KindOf(pendingJobs[0]))
      requires KindOf(pendingJobs[0]) != SAVE ==> BlockTypesKnown(pendingJobs[0].chunk, defs)
      modifies this`pendingJobs, this`completedJobs
      ensures CountersOk() && StreamingOk()
      ensures pendingJobs == old(pendingJobs[1..]) && completedJobs == old(completedJobs) + [old(pendingJobs[0])]
    {
      FrontJobDone(defs, activeChunks, chunksQueuedForGeneration, chunksQueuedForLoad, chunksQueuedForSave,
        pendingJobs, completedJobs, arriving, owners);
      ShiftFrontJob();
    }

    /** The job moves between the lists; the outstanding counters still match. */
    method ShiftFrontJob()
      requires CountersOk() && pendingJobs != []
      modifies this`pendingJobs, this`completedJobs
      ensures CountersOk()
      ensures pendingJobs == old(pendingJobs[1..]) && completedJobs == old(completedJobs) + [old(pendingJobs[0])]
    {
      CountKindRotate(pendingJobs, completedJobs, GENERATE);
      CountKindRotate(pendingJobs, completedJobs, LOAD);
      CountKindRotate(pendingJobs, completedJobs, SAVE);
      completedJobs := completedJobs + [pendingJobs[0]];
      pendingJobs := pendingJobs[1..];
    }

    /**
     * The streaming invariant: what the constructor sets up and every
     * streaming step keeps, so that each step finds its chunks in the state
     * it expects. Each queue and each job list holds a chunk at most once,
     * in the state of its stage; an active chunk stays in the complete state
     * of the job that brought it in; the chunks waiting for or in a
     * generate or load job are `arriving`, and each of them can be
     * finalised (full size, no links, known block types, an array of its
     * own).
     */
    ghost predicate StreamingOk()
      reads this`activeChunks, this`chunksQueuedForGeneration, this`chunksQueuedForLoad, this`chunksQueuedForSave
      reads this`pendingJobs, this`completedJobs, this`arriving, this`owners
      reads chunksQueuedForGeneration`chunkState, chunksQueuedForLoad`chunkState, chunksQueuedForSave`chunkState
      reads ChunksOf(pendingJobs)`chunkState, ChunksOf(completedJobs)`chunkState, activeChunks.Values`chunkState
      reads arriving`northNeighbor, arriving`southNeighbor, arriving`eastNeighbor, arriving`westNeighbor
      reads ArraysOf(arriving)
    {
      StreamingInvariant(defs, activeChunks, chunksQueuedForGeneration, chunksQueuedForLoad, chunksQueuedForSave,
        pendingJobs, completedJobs, arriving, owners)
    }

    /**
     * ProcessCompletedJobs: retrieves completed jobs oldest first until the
     * job system has none left, each through ProcessCompletedJob. Afterwards
     * the coordinates of every generate or load job's chunk are active, and
     * no active chunk was dropped.
     */
    method ProcessCompletedJobs()
      requires LightReady() && CountersOk() && StreamingOk()
      modifies this`completedJobs, this`outstandingGenerateJobs, this`outstandingLoadJobs, this`outstandingSaveJobs
      modifies this`arriving, this`activeChunks, this`dirtyLightBlocks
      modifies ArraysOf(activeChunks.Values + ChunksOf(completedJobs))
      modifies (activeChunks.Values + ChunksOf(completedJobs))`northNeighbor
      modifies (activeChunks.Values + ChunksOf(completedJobs))`southNeighbor
      modifies (activeChunks.Values + ChunksOf(completedJobs))`eastNeighbor
      modifies (activeChunks.Values + ChunksOf(completedJobs))`westNeighbor
      modifies ChunksOf(completedJobs)`isMeshDirty, ChunksOf(completedJobs)`needsSaving
      ensures LightReady() && CountersOk() && StreamingOk()
      ensures completedJobs == []
      ensures old(activeChunks).Keys <= activeChunks.Keys
      ensures forall i | 0 <= i < |old(completedJobs)| && KindOf(old(completedJobs)[i]) != SAVE ::
        old(completedJobs)[i].chunk.chunkCoords in activeChunks
    {
      ghost var c0 := completedJobs;
      ghost var pool := activeChunks.Values + ChunksOf(completedJobs);
      ghost var n := 0;
      while completedJobs != []
        invariant LightReady() && CountersOk() && StreamingOk()
        invariant 0 <= n <= |c0| && completedJobs == c0[n..]
        invariant activeChunks.Values <= pool && old(activeChunks).Keys <= activeChunks.Keys
        invariant forall i | 0 <= i < n && KindOf(c0[i]) != SAVE :: c0[i].chunk.chunkCoords in activeChunks
        decreases |completedJobs|
      {
        ProcessCompletedRound(c0, n, pool);
        n := n + 1;
      }
    }

    /**
     * One pass of ProcessCompletedJobs' loop: `n` jobs of the list `c0` the
     * loop started from are processed, and `pool` holds every chunk the
     * loop may touch.
     */
    method ProcessCompletedRound(ghost c0: seq<ChunkJob>, ghost n: int, ghost pool: set<Chunk>)
      requires LightReady() && CountersOk() && StreamingOk()
      requires 0 <= n < |c0| && completedJobs == c0[n..]
      requires activeChunks.Values <= pool && ChunksOf(c0) <= pool
      modifies this`completedJobs, this`outstandingGenerateJobs, this`outstandingLoadJobs, this`outstandingSaveJobs
      modifies this`arriving, this`activeChunks, this`dirtyLightBlocks
      modifies ArraysOf(pool), pool`northNeighbor, pool`southNeighbor, pool`eastNeighbor, pool`westNeighbor
      modifies ChunksOf(c0)`isMeshDirty, ChunksOf(c0)`needsSaving
      ensures LightReady() && CountersOk() && StreamingOk()
      ensures completedJobs == c0[n + 1..]
      ensures activeChunks.Values <= pool && old(activeChunks).Keys <= activeChunks.Keys
      ensures KindOf(c0[n]) != SAVE ==> c0[n].chunk.chunkCoords in activeChunks
    {
      assert c0[n] == completedJobs[0] && c0[n].chunk in ChunksOf(c0);
      var job := ProcessCompletedJob();
    }

    /**
     * One round of ProcessCompletedJobs, which repeats it while the job
     * system has a completed job: the oldest completed job is retrieved and
     * its kind's outstanding counter drops by one. The chunk of a generate
     * or load job is finalised only when its state is that kind's complete
     * state; a completed save job's chunk is deleted, which here means it
     * is no longer referenced. The source finalises before it drops the
     * counter; the two steps touch different state, and here the job is
     * retired first.
     */
    method ProcessCompletedJob() returns (job: ChunkJob)
      requires LightReady() && CountersOk() && StreamingOk() && completedJobs != []
      modifies this`completedJobs, this`outstandingGenerateJobs, this`outstandingLoadJobs, this`outstandingSaveJobs
      modifies this`arriving, this`activeChunks, this`dirtyLightBlocks, Arrays(activeChunks)
      modifies activeChunks.Values`northNeighbor, activeChunks.Values`southNeighbor
      modifies activeChunks.Values`eastNeighbor, activeChunks.Values`westNeighbor
      modifies completedJobs[0].chunk.blocks, {completedJobs[0].chunk}`isMeshDirty, {completedJobs[0].chunk}`needsSaving
      modifies {completedJobs[0].chunk}`northNeighbor, {completedJobs[0].chunk}`southNeighbor
      modifies {completedJobs[0].chunk}`eastNeighbor, {completedJobs[0].chunk}`westNeighbor
      ensures LightReady() && CountersOk() && StreamingOk()
      ensures job == old(completedJobs[0]) && completedJobs == old(completedJobs[1..])
      ensures var c := job.chunk; var k := KindOf(job);
        if k != SAVE && c.chunkCoords !in old(activeChunks)
        then activeChunks == old(activeChunks)[c.chunkCoords := c] && c.isMeshDirty && !c.needsSaving
        else activeChunks == old(activeChunks) && dirtyLightBlocks == old(dirtyLightBlocks)
    {
      job := RetireFrontJob();
      FinalizeIfComplete(job);
    }

    /**
     * The state test of ProcessCompletedJobs: the chunk of a generate or
     * load job is finalised only when its state is that kind's complete
     * state (the source's generate and load branches differ only in the
     * state they test; under the streaming invariant the test always
     * passes); nothing is done for a save job here.
     */
    method FinalizeIfComplete(job: ChunkJob)
      requires LightReady() && StreamingOk()
      requires KindOf(job) != SAVE ==>
        Departed(job.chunk, defs, activeChunks, arriving, owners) && job.chunk.chunkState == CompleteState(KindOf(job))
      modifies this`activeChunks, this`dirtyLightBlocks, Arrays(activeChunks), job.chunk.blocks
      modifies {job.chunk}`isMeshDirty, {job.chunk}`needsSaving
      modifies activeChunks.Values`northNeighbor, activeChunks.Values`southNeighbor
      modifies activeChunks.Values`eastNeighbor, activeChunks.Values`westNeighbor
      modifies {job.chunk}`northNeighbor, {job.chunk}`southNeighbor, {job.chunk}`eastNeighbor, {job.chunk}`westNeighbor
      ensures LightReady() && StreamingOk()
      ensures unchanged(this`pendingJobs, this`completedJobs)
      ensures unchanged(this`outstandingGenerateJobs, this`outstandingLoadJobs, this`outstandingSaveJobs)
      ensures var c := job.chunk; var k := KindOf(job);
        if k != SAVE && c.chunkCoords !in old(activeChunks)
        then activeChunks == old(activeChunks)[c.chunkCoords := c] && c.isMeshDirty && !c.needsSaving
        else activeChunks == old(activeChunks) && dirtyLightBlocks == old(dirtyLightBlocks)
    {
      var c := job.chunk;
      var k := KindOf(job);
      if k != SAVE && c.chunkState == CompleteState(k) {
        FinalizeDeparted(c);
      }
    }

    /**
     * FinalizeActivatedChunk for a chunk that has left the arriving chunks:
     * the streaming invariant holds afterwards, with the chunk active when
     * its coordinates were free.
     */
    method FinalizeDeparted(c: Chunk)
      requires LightReady() && StreamingOk() && Departed(c, defs, activeChunks, arriving, owners)
      requires c.chunkState in {CompleteState(GENERATE), CompleteState(LOAD)}
      modifies this`activeChunks, this`dirtyLightBlocks, Arrays(activeChunks), c.blocks, c`isMeshDirty, c`needsSaving
      modifies activeChunks.Values`northNeighbor, activeChunks.Values`southNeighbor
      modifies activeChunks.Values`eastNeighbor, activeChunks.Values`westNeighbor
      modifies c`northNeighbor, c`southNeighbor, c`eastNeighbor, c`westNeighbor
      ensures LightReady() && StreamingOk()
      ensures c.chunkCoords in old(activeChunks) ==>
        activeChunks == old(activeChunks) && dirtyLightBlocks == old(dirtyLightBlocks)
      ensures c.chunkCoords !in old(activeChunks) ==>
        activeChunks == old(activeChunks)[c.chunkCoords := c] && c.isMeshDirty && !c.needsSaving
    {
      JoinActive(defs, activeChunks, chunksQueuedForGeneration, chunksQueuedForLoad, chunksQueuedForSave,
        pendingJobs, completedJobs, arriving, owners, c);
      if c.chunkCoords in activeChunks {
        FinalizeKnown(c);
      } else {
        FinalizeNew(c);
      }
    }

    /**
     * FinalizeActivatedChunk for a departed chunk whose coordinates are
     * already active: nothing the streaming invariant reads changes.
     */
    method FinalizeKnown(c: Chunk)
      requires LightReady() && c.Sized() && c.Unlinked() && BlockTypesKnown(c, defs)
      requires forall k | k in activeChunks :: activeChunks[k].blocks != c.blocks
      requires forall a | a in arriving :: a != c && a !in activeChunks.Values
      requires forall o | o in ArraysOf(arriving) :: o != c.blocks && o !in Arrays(activeChunks)
      requires StreamingOk() && c.chunkCoords in activeChunks
      modifies this`activeChunks, this`dirtyLightBlocks, Arrays(activeChunks), c.blocks, c`isMeshDirty, c`needsSaving
      modifies activeChunks.Values`northNeighbor, activeChunks.Values`southNeighbor
      modifies activeChunks.Values`eastNeighbor, activeChunks.Values`westNeighbor
      modifies c`northNeighbor, c`southNeighbor, c`eastNeighbor, c`westNeighbor
      ensures LightReady() && StreamingOk()
      ensures activeChunks == old(activeChunks) && dirtyLightBlocks == old(dirtyLightBlocks)
    {
      FinalizeLit(c);
    }

    /**
     * FinalizeActivatedChunk for a departed chunk whose coordinates are
     * free: it joins the active chunks, and nothing else the streaming
     * invariant reads changes.
     */
    method FinalizeNew(c: Chunk)
      requires LightReady() && c.Sized() && c.Unlinked() && BlockTypesKnown(c, defs)
      requires forall k | k in activeChunks :: activeChunks[k].blocks != c.blocks
      requires forall a | a in arriving :: a != c && a !in activeChunks.Values
      requires forall o | o in ArraysOf(arriving) :: o != c.blocks && o !in Arrays(activeChunks)
      requires c.chunkCoords !in activeChunks
      requires StreamingInvariant(defs, activeChunks[c.chunkCoords := c], chunksQueuedForGeneration, chunksQueuedForLoad,
        chunksQueuedForSave, pendingJobs, completedJobs, arriving, owners)
      modifies this`activeChunks, this`dirtyLightBlocks, Arrays(activeChunks), c.blocks, c`isMeshDirty, c`needsSaving
      modifies activeChunks.Values`northNeighbor, activeChunks.Values`southNeighbor
      modifies activeChunks.Values`eastNeighbor, activeChunks.Values`westNeighbor
      modifies c`northNeighbor, c`southNeighbor, c`eastNeighbor, c`westNeighbor
      ensures LightReady() && StreamingOk()
      ensures activeChunks == old(activeChunks)[c.chunkCoords := c] && c.isMeshDirty && !c.needsSaving
    {
      FinalizeLit(c);
    }

    /** FinalizeActivatedChunk, for callers that need only the lighting invariant and the new active chunks. */
    method FinalizeLit(c: Chunk)
      requires LightReady() && c.Sized() && c.Unlinked() && BlockTypesKnown(c, defs)
      requires forall k | k in activeChunks :: activeChunks[k].blocks != c.blocks
      modifies this`activeChunks, this`dirtyLightBlocks, Arrays(activeChunks), c.blocks, c`isMeshDirty, c`needsSaving
      modifies activeChunks.Values`northNeighbor, activeChunks.Values`southNeighbor
      modifies activeChunks.Values`eastNeighbor, activeChunks.Values`westNeighbor
      modifies c`northNeighbor, c`southNeighbor, c`eastNeighbor, c`westNeighbor
      ensures LightReady()
      ensures c.chunkCoords in old(activeChunks) ==>
        activeChunks == old(activeChunks) && dirtyLightBlocks == old(dirtyLightBlocks)
      ensures c.chunkCoords !in old(activeChunks) ==>
        activeChunks == old(activeChunks)[c.chunkCoords := c] && c.isMeshDirty && !c.needsSaving
      ensures forall x: Chunk | old(allocated(x)) :: x.chunkState == old(x.chunkState)
      ensures forall x: Chunk | old(allocated(x)) && x !in old(activeChunks.Values) && x != c ::
        unchanged(x`northNeighbor, x`southNeighbor, x`eastNeighbor, x`westNeighbor)
      ensures forall o: array<Block> | old(allocated(o)) && o !in old(Arrays(activeChunks)) && o != c.blocks :: unchanged(o)
    {
      FinalizeActivatedChunk(c);
    }

    /**
     * Retrieving the oldest completed job: it leaves the list, its kind's
     * outstanding counter drops by one, and the chunk of a generate or load
     * job leaves the arriving chunks, ready to be finalised.
     */
    method RetireFrontJob() returns (job: ChunkJob)
      requires CountersOk() && StreamingOk() && completedJobs != []
      modifies this`completedJobs, this`outstandingGenerateJobs, this`outstandingLoadJobs, this`outstandingSaveJobs
      modifies this`arriving
      ensures CountersOk() && StreamingOk() && (old(LightReady()) ==> LightReady())
      ensures job == old(completedJobs[0]) && completedJobs == old(completedJobs[1..])
      ensures KindOf(job) != SAVE ==>
        Departed(job.chunk, defs, activeChunks, arriving, owners) && job.chunk.chunkState == CompleteState(KindOf(job))
    {
      ghost var before := completedJobs;
      job := PopCompleted();
      CountsMatchDrop(pendingJobs, before, outstandingGenerateJobs, outstandingLoadJobs, outstandingSaveJobs);
      ghost var departed := KindOf(job) != SAVE ==>
        Departed(job.chunk, defs, activeChunks, arriving, owners) && job.chunk.chunkState == CompleteState(KindOf(job));
      LowerOutstanding(KindOf(job));
      assert departed;
    }

    /**
     * The oldest completed job leaves the list, and its chunk leaves the
     * arriving chunks (a save job's chunk is not among them); the chunk of
     * a generate or load job is then ready to be finalised.
     */
    method PopCompleted() returns (job: ChunkJob)
      requires StreamingOk() && completedJobs != []
      modifies this`completedJobs, this`arriving
      ensures StreamingOk() && LightReady() == old(LightReady())
      ensures job == old(completedJobs[0]) && completedJobs == old(completedJobs[1..])
      ensures arriving == old(arriving) - {job.chunk}
      ensures KindOf(job) != SAVE ==>
        Departed(job.chunk, defs, activeChunks, arriving, owners) && job.chunk.chunkState == CompleteState(KindOf(job))
    {
      job := completedJobs[0];
      RetireFront(defs, activeChunks, chunksQueuedForGeneration, chunksQueuedForLoad, chunksQueuedForSave,
        pendingJobs, completedJobs, arriving, owners);
      arriving := arriving - {job.chunk};
      completedJobs := completedJobs[1..];
    }

    /** The handed-over job's kind's outstanding counter rises by one, matching the pending jobs `before` and `job`. */
    method RaiseOutstanding(ghost before: seq<ChunkJob>, job: ChunkJob)
      requires CountsMatch(before + completedJobs, outstandingGenerateJobs, outstandingLoadJobs, outstandingSaveJobs)
      requires pendingJobs == before + [job]
      requires var k := KindOf(job);
        && (k == GENERATE ==> outstandingGenerateJobs < MAX_GENERATION_JOBS)
        && (k == LOAD ==> outstandingLoadJobs < MAX_LOAD_JOBS)
        && (k == SAVE ==> outstandingSaveJobs < MAX_SAVE_JOBS)
      modifies (if KindOf(job) == GENERATE then {this} else {})`outstandingGenerateJobs
      modifies (if KindOf(job) == LOAD then {this} else {})`outstandingLoadJobs
      modifies (if KindOf(job) == SAVE then {this} else {})`outstandingSaveJobs
      ensures CountersOk()
      ensures var k := KindOf(job);
        && outstandingGenerateJobs == old(outstandingGenerateJobs) + (if k == GENERATE then 1 else 0)
        && outstandingLoadJobs == old(outstandingLoadJobs) + (if k == LOAD then 1 else 0)
        && outstandingSaveJobs == old(outstandingSaveJobs) + (if k == SAVE then 1 else 0)
      ensures StreamingOk() == old(StreamingOk()) && LightReady() == old(LightReady())
    {
      CountsMatchPush(before, job, completedJobs, outstandingGenerateJobs, outstandingLoadJobs, outstandingSaveJobs);
      AdjustOutstanding(KindOf(job), 1);
    }

    /** The retired job's kind's outstanding counter drops by one, matching the jobs left. */
    method LowerOutstanding(k: JobKind)
      requires CountsMatch(pendingJobs + completedJobs,
        outstandingGenerateJobs - (if k == GENERATE then 1 else 0),
        outstandingLoadJobs - (if k == LOAD then 1 else 0),
        outstandingSaveJobs - (if k == SAVE then 1 else 0))
      modifies this`outstandingGenerateJobs, this`outstandingLoadJobs, this`outstandingSaveJobs
      ensures CountersOk()
      ensures outstandingGenerateJobs == old(outstandingGenerateJobs) - (if k == GENERATE then 1 else 0)
      ensures outstandingLoadJobs == old(outstandingLoadJobs) - (if k == LOAD then 1 else 0)
      ensures outstandingSaveJobs == old(outstandingSaveJobs) - (if k == SAVE then 1 else 0)
      ensures StreamingOk() == old(StreamingOk()) && LightReady() == old(LightReady())
    {
      AdjustOutstanding(k, -1);
    }

    // -------------------------------------------------------------------
    // One frame (Game/World.cpp:37-54)

    /**
     * Update: one frame of the world, in the source's order. The mesh build
     * queue is rebuilt and meshes are built after relighting; the furthest
     * chunk beyond range is deactivated, which the source does only once the
     * light queue has drained and which here waits for it; the closest
     * missing chunks are queued; jobs are dispatched; and every completed
     * job is processed. The world's invariants hold again afterwards, and
     * no completed job is left.
     */
    method Update(cam: Vec2, lightBudget: nat)
      requires LightReady() && CountersOk() && StreamingOk()
      modifies this, ArraysOf(activeChunks.Values + ChunksOf(completedJobs))
      modifies activeChunks.Values`isMeshDirty, activeChunks.Values`mesh, activeChunks.Values`chunkState
      modifies (activeChunks.Values + ChunksOf(completedJobs))`northNeighbor
      modifies (activeChunks.Values + ChunksOf(completedJobs))`southNeighbor
      modifies (activeChunks.Values + ChunksOf(completedJobs))`eastNeighbor
      modifies (activeChunks.Values + ChunksOf(completedJobs))`westNeighbor
      modifies Members(chunksQueuedForGeneration)`chunkState, Members(chunksQueuedForLoad)`chunkState
      modifies Members(chunksQueuedForSave)`chunkState
      modifies ChunksOf(completedJobs)`isMeshDirty, ChunksOf(completedJobs)`needsSaving
      ensures LightReady() && CountersOk() && StreamingOk()
      ensures completedJobs == []
    {
      ArraysOfValues(activeChunks);
      var drained := UpdateMeshes(cam, lightBudget);
      UpdateChunksAndJobs(cam, drained);
    }

    /** Update after the meshes: UpdateStreaming, then UpdateJobs. */
    method UpdateChunksAndJobs(cam: Vec2, drained: bool)
      requires LightReady() && CountersOk() && StreamingOk() && (drained <==> dirtyLightBlocks == [])
      modifies this`chunksQueuedForGeneration, this`chunksQueuedForLoad, this`chunksQueuedForSave, this`pendingJobs
      modifies this`outstandingGenerateJobs, this`outstandingLoadJobs, this`outstandingSaveJobs
      modifies this`completedJobs, this`arriving, this`owners, this`activeChunks, this`dirtyLightBlocks
      modifies activeChunks.Values`chunkState
      modifies Members(chunksQueuedForGeneration)`chunkState, Members(chunksQueuedForLoad)`chunkState
      modifies Members(chunksQueuedForSave)`chunkState
      modifies ArraysOf(activeChunks.Values + ChunksOf(completedJobs))
      modifies (activeChunks.Values + ChunksOf(completedJobs))`northNeighbor
      modifies (activeChunks.Values + ChunksOf(completedJobs))`southNeighbor
      modifies (activeChunks.Values + ChunksOf(completedJobs))`eastNeighbor
      modifies (activeChunks.Values + ChunksOf(completedJobs))`westNeighbor
      modifies ChunksOf(completedJobs)`isMeshDirty, ChunksOf(completedJobs)`needsSaving
      ensures LightReady() && CountersOk() && StreamingOk()
      ensures completedJobs == []
    {
      ghost var made := UpdateStreaming(cam, drained);
      UpdateJobs();
    }

    /** The mesh half of Update: UpdateMeshBuildQueue, then BuildMeshesThisFrame. */
    method UpdateMeshes(cam: Vec2, lightBudget: nat) returns (drained: bool)
      requires LightReady() && StreamingOk()
      modifies this`meshBuildQueue, this`dirtyLightBlocks, Arrays(activeChunks)
      modifies activeChunks.Values`isMeshDirty, activeChunks.Values`mesh
      ensures LightReady() && StreamingOk()
      ensures drained <==> dirtyLightBlocks == []
    {
      UpdateMeshBuildQueue(cam);
      assert Members(meshBuildQueue) <= activeChunks.Values;
      ghost var ready, built;
      drained, ready, built := BuildMeshesThisFrame(lightBudget);
    }

    /**
     * The streaming half of Update: DeactivateFurthestChunk when the light
     * queue is empty, then QueueClosestMissingChunk. The queues gain only
     * chunks that were active or are new.
     */
    method UpdateStreaming(cam: Vec2, drained: bool) returns (ghost made: seq<Chunk>)
      requires LightReady() && StreamingOk() && (drained <==> dirtyLightBlocks == [])
      modifies this`activeChunks, this`chunksQueuedForSave, activeChunks.Values`chunkState
      modifies activeChunks.Values`northNeighbor, activeChunks.Values`southNeighbor
      modifies activeChunks.Values`eastNeighbor, activeChunks.Values`westNeighbor
      modifies this`chunksQueuedForGeneration, this`chunksQueuedForLoad, this`arriving, this`owners
      ensures LightReady() && StreamingOk()
      ensures activeChunks.Values <= old(activeChunks.Values)
      ensures forall c | c in chunksQueuedForGeneration :: c in old(chunksQueuedForGeneration) || fresh(c)
      ensures forall c | c in chunksQueuedForLoad :: c in old(chunksQueuedForLoad) || fresh(c)
      ensures forall c | c in chunksQueuedForSave :: c in old(chunksQueuedForSave) || c in old(activeChunks.Values)
    {
      if drained {
        var far := DeactivateFurthestChunk(cam);
      }
      made := QueueMissingChunks(cam);
    }

    /**
     * QueueClosestMissingChunk as Update sees it: the chunks it queues are
     * new, and the lighting state is not touched.
     */
    method QueueMissingChunks(cam: Vec2) returns (ghost made: seq<Chunk>)
      requires StreamingOk()
      modifies this`chunksQueuedForGeneration, this`chunksQueuedForLoad, this`arriving, this`owners
      ensures StreamingOk() && (old(LightReady()) ==> LightReady())
      ensures forall c | c in chunksQueuedForGeneration :: c in old(chunksQueuedForGeneration) || fresh(c)
      ensures forall c | c in chunksQueuedForLoad :: c in old(chunksQueuedForLoad) || fresh(c)
    {
      made := QueueClosestMissingChunk(cam);
    }

    /**
     * The job half of Update: DispatchGenerateJobs, DispatchLoadAndSaveJobs,
     * then ProcessCompletedJobs.
     */
    method UpdateJobs()
      requires LightReady() && CountersOk() && StreamingOk()
      modifies this`chunksQueuedForGeneration, this`chunksQueuedForLoad, this`chunksQueuedForSave, this`pendingJobs
      modifies this`outstandingGenerateJobs, this`outstandingLoadJobs, this`outstandingSaveJobs
      modifies this`completedJobs, this`arriving, this`activeChunks, this`dirtyLightBlocks
      modifies Members(chunksQueuedForGeneration)`chunkState, Members(chunksQueuedForLoad)`chunkState
      modifies Members(chunksQueuedForSave)`chunkState
      modifies ArraysOf(activeChunks.Values + ChunksOf(completedJobs))
      modifies (activeChunks.Values + ChunksOf(completedJobs))`northNeighbor
      modifies (activeChunks.Values + ChunksOf(completedJobs))`southNeighbor
      modifies (activeChunks.Values + ChunksOf(completedJobs))`eastNeighbor
      modifies (activeChunks.Values + ChunksOf(completedJobs))`westNeighbor
      modifies ChunksOf(completedJobs)`isMeshDirty, ChunksOf(completedJobs)`needsSaving
      ensures LightReady() && CountersOk() && StreamingOk()
      ensures completedJobs == []
    {
      DispatchJobs();
      ProcessCompletedJobs();
    }

    /** The two dispatch calls of Update; they touch neither the active chunks nor the light queue. */
    method DispatchJobs()
      requires CountersOk() && StreamingOk()
      modifies this`chunksQueuedForGeneration, this`chunksQueuedForLoad, this`chunksQueuedForSave, this`pendingJobs
      modifies this`outstandingGenerateJobs, this`outstandingLoadJobs, this`outstandingSaveJobs
      modifies Members(chunksQueuedForGeneration)`chunkState, Members(chunksQueuedForLoad)`chunkState
      modifies Members(chunksQueuedForSave)`chunkState
      ensures CountersOk() && StreamingOk() && LightReady() == old(LightReady())
    {
      DispatchGenerateJobs();
      DispatchLoadAndSaveJobs();
    }
  }
}
