/**
 * What InitializeChunkLighting (Game/World.cpp:699-817) does to a chunk that
 * has just become active: the reset of every block, the order in which its
 * three marking passes visit the blocks, and which blocks each pass reaches.
 */
module LightInit {
  import opened GameCommon
  import opened Blocks
  import opened ChunkIndex
  import opened Chunks

  /** A block after the reset: no light, neither light-dirty nor sky; its type and other flags stay. */
  function Unlit(b: Block): (r: Block)
    ensures r.GetIndoorLight() == 0 && r.GetOutdoorLight() == 0
    ensures !r.IsLightDirty() && !r.IsSky()
    ensures r.blockType == b.blockType && r.IsFullOpaque() == b.IsFullOpaque()
    ensures r.IsSolid() == b.IsSolid() && r.IsVisible() == b.IsVisible()
  {
    b.SetIndoorLight(0).SetOutdoorLight(0).SetIsLightDirty(false).SetIsSky(false)
  }

  /** Every block reset as InitializeChunkLighting's first loop resets it. */
  function ResetBlocks(s: seq<Block>): (r: seq<Block>)
    ensures |r| == |s| && forall n | 0 <= n < |s| :: r[n] == Unlit(s[n])
  {
    seq(|s|, n requires 0 <= n < |s| => Unlit(s[n]))
  }

  /** The reset loop at the head of InitializeChunkLighting: every block of the chunk becomes Unlit. */
  method ResetLighting(c: Chunk)
    requires c.Sized()
    modifies c.blocks
    ensures c.blocks[..] == ResetBlocks(old(c.blocks[..]))
  {
    var i := 0;
    while i < CHUNK_BLOCK_TOTAL
      invariant 0 <= i <= CHUNK_BLOCK_TOTAL
      invariant forall n | 0 <= n < i :: c.blocks[n] == Unlit(old(c.blocks[n]))
      invariant forall n | i <= n < CHUNK_BLOCK_TOTAL :: c.blocks[n] == old(c.blocks[n])
    {
      var block := c.blocks[i];
      c.blocks[i] := block.SetIndoorLight(0).SetOutdoorLight(0).SetIsLightDirty(false).SetIsSky(false);
      i := i + 1;
    }
  }

  /** Whether a block sees the sky depends only on which blocks are opaque. */
  lemma SeesSkySameOpacity(b1: seq<Block>, b2: seq<Block>, n: int)
    requires |b1| == CHUNK_BLOCK_TOTAL && |b2| == CHUNK_BLOCK_TOTAL
    requires forall i | 0 <= i < CHUNK_BLOCK_TOTAL :: b1[i].IsFullOpaque() == b2[i].IsFullOpaque()
    ensures SeesSky(b1, n) == SeesSky(b2, n)
  {
    ClearAboveSameOpacity(b1, b2, IndexToLocalX(n), IndexToLocalY(n), IndexToLocalZ(n));
  }

  /** A block the sky pass has lit: sky, full outdoor light and light-dirty; type, opacity and indoor light kept. */
  predicate SkyLit(before: Block, after: Block) {
    && after.IsSky() && after.GetOutdoorLight() == 15 && after.IsLightDirty()
    && after.blockType == before.blockType && after.IsFullOpaque() == before.IsFullOpaque()
    && after.GetIndoorLight() == before.GetIndoorLight()
  }

  /** No block of column (x, y) from height `z` up to the top of the chunk is opaque. */
  predicate ClearAbove(blocks: seq<Block>, x: int, y: int, z: int)
    requires |blocks| == CHUNK_BLOCK_TOTAL && 0 <= x < CHUNK_SIZE_X && 0 <= y < CHUNK_SIZE_Y
  {
    forall zz | 0 <= zz < CHUNK_SIZE_Z && z <= zz :: !blocks[GetBlockIndex(x, y, zz)].IsFullOpaque()
  }

  /** Block `n` sees the sky: nothing opaque in its column from it up to the top. */
  predicate SeesSky(blocks: seq<Block>, n: int)
    requires |blocks| == CHUNK_BLOCK_TOTAL
  {
    ClearAbove(blocks, IndexToLocalX(n), IndexToLocalY(n), IndexToLocalZ(n))
  }

  /** Going down one block, the column stays clear exactly when that block is not opaque. */
  lemma ClearAboveStep(blocks: seq<Block>, x: int, y: int, z: int)
    requires |blocks| == CHUNK_BLOCK_TOTAL && InChunk(x, y, z)
    ensures ClearAbove(blocks, x, y, z) <==> !blocks[GetBlockIndex(x, y, z)].IsFullOpaque() && ClearAbove(blocks, x, y, z + 1)
  {
  }

  /** Whether a column is clear depends only on which blocks are opaque. */
  lemma ClearAboveSameOpacity(b1: seq<Block>, b2: seq<Block>, x: int, y: int, z: int)
    requires |b1| == CHUNK_BLOCK_TOTAL && |b2| == CHUNK_BLOCK_TOTAL
    requires 0 <= x < CHUNK_SIZE_X && 0 <= y < CHUNK_SIZE_Y
    requires forall i | 0 <= i < CHUNK_BLOCK_TOTAL :: b1[i].IsFullOpaque() == b2[i].IsFullOpaque()
    ensures ClearAbove(b1, x, y, z) == ClearAbove(b2, x, y, z)
  {
    if ClearAbove(b1, x, y, z) != ClearAbove(b2, x, y, z) {
      var zz :| 0 <= zz < CHUNK_SIZE_Z && z <= zz &&
        b1[GetBlockIndex(x, y, zz)].IsFullOpaque() != b2[GetBlockIndex(x, y, zz)].IsFullOpaque();
      IndexInRange(x, y, zz);
    }
  }

  /** MarkBoundaryBlocksDirty's test: block `n` lies on a side of `c` that has a neighbour chunk. */
  predicate OnLinkedSide(c: Chunk, n: int)
    reads c`northNeighbor, c`southNeighbor, c`eastNeighbor, c`westNeighbor
  {
    var x := IndexToLocalX(n);
    var y := IndexToLocalY(n);
    || (x == 0 && c.westNeighbor != null) || (x == CHUNK_SIZE_X - 1 && c.eastNeighbor != null)
    || (y == 0 && c.southNeighbor != null) || (y == CHUNK_SIZE_Y - 1 && c.northNeighbor != null)
  }

  /** Which of a chunk's four neighbour pointers are set. */
  datatype Sides = Sides(north: bool, south: bool, east: bool, west: bool)

  /** The neighbour pointers of `c` that are set. */
  function SidesOf(c: Chunk): Sides
    reads c`northNeighbor, c`southNeighbor, c`eastNeighbor, c`westNeighbor
  {
    Sides(c.northNeighbor != null, c.southNeighbor != null, c.eastNeighbor != null, c.westNeighbor != null)
  }

  /** OnLinkedSide, for a chunk whose set neighbour pointers are `s`. */
  predicate OnSide(s: Sides, n: int) {
    var x := IndexToLocalX(n);
    var y := IndexToLocalY(n);
    || (x == 0 && s.west) || (x == CHUNK_SIZE_X - 1 && s.east)
    || (y == 0 && s.south) || (y == CHUNK_SIZE_Y - 1 && s.north)
  }

  /** MarkEmissiveBlocksDirty's test: the block's definition gives off indoor or outdoor light. */
  predicate Emissive(b: Block, defs: DefTable) {
    KnownType(defs, b.blockType) && (defs[b.blockType].indoorLight > 0 || defs[b.blockType].outdoorLight > 0)
  }

  // ---------------------------------------------------------------------
  // Visiting orders. The source nests three loops; each pass here counts
  // one step per block, and the step number decodes to the same block the
  // nested loops visit at that point.

  /** The step at which MarkBoundaryBlocksDirty visits block `n`: z outermost, then x, then y. */
  function BoundaryOrder(n: int): int {
    IndexToLocalZ(n) * BLOCKS_PER_LAYER + IndexToLocalX(n) * CHUNK_SIZE_Y + IndexToLocalY(n)
  }

  /** The block MarkBoundaryBlocksDirty visits at step `s`. */
  function BoundaryIndex(s: int): int {
    GetBlockIndex((s / CHUNK_SIZE_Y) % CHUNK_SIZE_X, s % CHUNK_SIZE_Y, s / BLOCKS_PER_LAYER)
  }

  /** Every step visits an in-range block, and that block's order is the step. */
  lemma BoundaryStep(s: int)
    requires InIndexRange(s)
    ensures InIndexRange(BoundaryIndex(s)) && BoundaryOrder(BoundaryIndex(s)) == s
  {
    var y := s % 32;
    var x := (s / 32) % 32;
    var z := s / 1024;
    assert s / 32 == x + 32 * z;
    IndexRoundTrip(x, y, z);
  }

  /** Every block is visited at the step its order names. */
  lemma BoundaryVisitsEach(n: int)
    requires InIndexRange(n)
    ensures InIndexRange(BoundaryOrder(n)) && BoundaryIndex(BoundaryOrder(n)) == n
  {
    IndexDecomposition(n);
    var x, y, z := IndexToLocalX(n), IndexToLocalY(n), IndexToLocalZ(n);
    var s := BoundaryOrder(n);
    assert s == y + 32 * (x + 32 * z);
    DivMod32(y, x + 32 * z);
    DivMod32(x, z);
    DivMod1024(y + 32 * x, z);
  }

  /** The step at which MarkSkyAndOutdoorLight visits block `n`: x outermost, then y, then z from the top down. */
  function SkyOrder(n: int): int {
    (IndexToLocalX(n) * CHUNK_SIZE_Y + IndexToLocalY(n)) * CHUNK_SIZE_Z + (CHUNK_SIZE_Z - 1 - IndexToLocalZ(n))
  }

  /** The column and height MarkSkyAndOutdoorLight visits at step `t`. */
  function SkyX(t: int): int { t / (CHUNK_SIZE_Y * CHUNK_SIZE_Z) }
  function SkyY(t: int): int { (t / CHUNK_SIZE_Z) % CHUNK_SIZE_Y }
  function SkyZ(t: int): int { CHUNK_SIZE_Z - 1 - t % CHUNK_SIZE_Z }

  /** Floor division and remainder of `r + 128 * q` for `r` in [0, 128). */
  lemma DivMod128(r: int, q: int)
    requires 0 <= r < 128
    ensures (r + 128 * q) / 128 == q && (r + 128 * q) % 128 == r
  {
  }

  /** Floor division and remainder of `r + 4096 * q` for `r` in [0, 4096). */
  lemma DivMod4096(r: int, q: int)
    requires 0 <= r < 4096
    ensures (r + 4096 * q) / 4096 == q && (r + 4096 * q) % 4096 == r
  {
  }

  /** Every step visits an in-range block whose order is the step. */
  lemma SkyStep(t: int)
    requires InIndexRange(t)
    ensures InChunk(SkyX(t), SkyY(t), SkyZ(t))
    ensures var n := GetBlockIndex(SkyX(t), SkyY(t), SkyZ(t));
      && InIndexRange(n) && SkyOrder(n) == t
      && IndexToLocalX(n) == SkyX(t) && IndexToLocalY(n) == SkyY(t) && IndexToLocalZ(n) == SkyZ(t)
  {
    var x, y, zr := SkyX(t), SkyY(t), t % 128;
    assert t / 128 == y + 32 * x;
    IndexRoundTrip(x, y, 127 - zr);
  }

  /** Every block is visited at the step its order names. */
  lemma SkyVisitsEach(n: int)
    requires InIndexRange(n)
    ensures InIndexRange(SkyOrder(n))
    ensures GetBlockIndex(SkyX(SkyOrder(n)), SkyY(SkyOrder(n)), SkyZ(SkyOrder(n))) == n
  {
    IndexDecomposition(n);
    var x, y, z := IndexToLocalX(n), IndexToLocalY(n), IndexToLocalZ(n);
    var t := SkyOrder(n);
    assert t == (127 - z) + 128 * (y + 32 * x);
    DivMod128(127 - z, y + 32 * x);
    DivMod32(y, x);
    DivMod4096((127 - z) + 128 * y, x);
  }

  /** Within a column the next step is the block below; a new column starts at a multiple of the height. */
  lemma SkyNextStep(t: int)
    requires 0 <= t && (t + 1) % CHUNK_SIZE_Z != 0
    ensures SkyX(t + 1) == SkyX(t) && SkyY(t + 1) == SkyY(t) && SkyZ(t + 1) == SkyZ(t) - 1
  {
    var q, r := t / 128, t % 128;
    var x, y := q / 32, q % 32;
    assert t == r + 128 * q && q == y + 32 * x;
    assert r + 1 < 128;
    DivMod128(r, q);
    DivMod128(r + 1, q);
    assert t == (r + 128 * y) + 4096 * x;
    DivMod4096(r + 128 * y, x);
    DivMod4096(r + 1 + 128 * y, x);
  }

  /** The first step of a column visits its top block. */
  lemma SkyColumnTop(t: int)
    requires 0 <= t && t % CHUNK_SIZE_Z == 0
    ensures SkyZ(t) + 1 == CHUNK_SIZE_Z
  {
  }
  /** The blocks the sky pass has lit in its first `t` steps over a chunk whose blocks are `sc`. */
  function SkyLitBefore(sc: seq<Block>, t: int): (lit: set<int>)
    requires |sc| == CHUNK_BLOCK_TOTAL
    ensures forall j | j in lit :: InIndexRange(j) && SeesSky(sc, j)
  {
    set j | 0 <= j < CHUNK_BLOCK_TOTAL && SkyOrder(j) < t && SeesSky(sc, j)
  }

  /** Step `t` adds the block it visits when that block sees the sky, and nothing else. */
  lemma SkyLitStep(sc: seq<Block>, t: int)
    requires |sc| == CHUNK_BLOCK_TOTAL && InIndexRange(t)
    ensures InChunk(SkyX(t), SkyY(t), SkyZ(t))
    ensures var n := GetBlockIndex(SkyX(t), SkyY(t), SkyZ(t));
      SkyLitBefore(sc, t + 1) == SkyLitBefore(sc, t) + (if SeesSky(sc, n) then {n} else {})
  {
    SkyStep(t);
    var n := GetBlockIndex(SkyX(t), SkyY(t), SkyZ(t));
    forall j | 0 <= j < CHUNK_BLOCK_TOTAL && SkyOrder(j) == t
      ensures j == n
    {
      SkyVisitsEach(j);
    }
  }

  /** Once every step is taken, the pass has lit exactly the blocks that see the sky. */
  lemma SkyLitAll(sc: seq<Block>)
    requires |sc| == CHUNK_BLOCK_TOTAL
    ensures SkyLitBefore(sc, CHUNK_BLOCK_TOTAL) == set j | 0 <= j < CHUNK_BLOCK_TOTAL && SeesSky(sc, j)
  {
    forall j | 0 <= j < CHUNK_BLOCK_TOTAL
      ensures SkyOrder(j) < CHUNK_BLOCK_TOTAL
    {
      SkyVisitsEach(j);
    }
  }
}
