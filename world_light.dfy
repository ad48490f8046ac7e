/**
 * The light model of the world (Game/World.cpp:597-909, 1001-1046): the
 * value a block's light should have given its neighbours, the queue of
 * light-dirty blocks with its invariant (a block of an active chunk carries
 * the light-dirty flag exactly when its iterator is queued, once), and the
 * downward sky walks.
 */
module WorldLight {
  import opened GameCommon
  import opened Blocks
  import opened ChunkIndex
  import opened Chunks
  import opened BlockIterators
  import opened WorldLinks

  /** The two light channels of a block, as levels. */
  datatype Light = Light(indoor: int, outdoor: int)

  function Max(a: int, b: int): int {
    if a >= b then a else b
  }

  /** The level a neighbour passes on: one less, never below zero. */
  function Dim(level: bv8): (r: int)
    requires level <= 15
    ensures 0 <= r <= 14
    ensures level > 0 ==> r + 1 == level as int
  {
    if level > 0 then (level - 1) as int else 0
  }

  /** What the block under a neighbour iterator passes on; nothing when there is no block. */
  function Passed(n: BlockIterator): (r: Option<Light>)
    reads if n.chunk == null then {} else {n.chunk.blocks}
    ensures r.Some? <==> n.GetBlock().Some?
    ensures r.Some? ==> 0 <= r.value.indoor <= 14 && 0 <= r.value.outdoor <= 14
  {
    match n.GetBlock()
    case None => None
    case Some(b) => Some(Light(Dim(b.GetIndoorLight()), Dim(b.GetOutdoorLight())))
  }

  /** The channel-wise maximum of `base` and every light present in `ls`. */
  function Brightest(base: Light, ls: seq<Option<Light>>): (r: Light)
    ensures r.indoor >= base.indoor && r.outdoor >= base.outdoor
    ensures forall i | 0 <= i < |ls| && ls[i].Some? ::
      r.indoor >= ls[i].value.indoor && r.outdoor >= ls[i].value.outdoor
    ensures r.indoor == base.indoor || exists i | 0 <= i < |ls| && ls[i].Some? :: r.indoor == ls[i].value.indoor
    ensures r.outdoor == base.outdoor || exists i | 0 <= i < |ls| && ls[i].Some? :: r.outdoor == ls[i].value.outdoor
  {
    if |ls| == 0 then base
    else
      var init := ls[..|ls| - 1];
      var r := Brightest(base, init);
      assert forall i | 0 <= i < |init| :: init[i] == ls[i];
      match ls[|ls| - 1]
      case None => r
      case Some(l) => Light(Max(r.indoor, l.indoor), Max(r.outdoor, l.outdoor))
  }

  /** The six neighbours in the order the relaxation visits them: north, south, east, west, up, down. */
  function LightNeighbors(it: BlockIterator): (ns: seq<BlockIterator>)
    reads it.chunk
    ensures |ns| == 6
    ensures forall i | 0 <= i < 6 :: ns[i].chunk != null ==> it.chunk != null && ns[i].chunk in it.chunk.Around()
  {
    [it.GetNorthNeighbor(), it.GetSouthNeighbor(), it.GetEastNeighbor(),
     it.GetWestNeighbor(), it.GetUpNeighbor(), it.GetDownNeighbor()]
  }

  /** A block's own light: its definition's emission, and full outdoor light when it is a non-opaque sky block. */
  function OwnLight(b: Block, defs: DefTable): (r: Light)
    requires KnownType(defs, b.blockType) && LightLevelsFit(defs)
    ensures 0 <= r.indoor <= 15 && 0 <= r.outdoor <= 15
    ensures r.indoor == defs[b.blockType].indoorLight
    ensures r.outdoor == if b.IsSky() && !b.IsFullOpaque() then 15 else defs[b.blockType].outdoorLight
  {
    var def := defs[b.blockType];
    Light(Max(0, def.indoorLight), Max(if b.IsSky() && !b.IsFullOpaque() then 15 else 0, def.outdoorLight))
  }

  /** The block under an iterator has a type the definition table knows (or there is no block). */
  predicate KnownBlock(it: BlockIterator, defs: DefTable)
    reads if it.chunk == null then {} else {it.chunk.blocks}
  {
    it.GetBlock().Some? ==> KnownType(defs, it.GetBlock().value.blockType)
  }

  /** What each of the six neighbours passes on, in the relaxation's order. */
  function NeighborLights(it: BlockIterator): (ls: seq<Option<Light>>)
    reads if it.chunk == null then {} else it.chunk.AroundFrame()
    ensures |ls| == 6
    ensures forall i | 0 <= i < 6 :: ls[i] == Passed(LightNeighbors(it)[i])
  {
    var ns := LightNeighbors(it);
    [Passed(ns[0]), Passed(ns[1]), Passed(ns[2]), Passed(ns[3]), Passed(ns[4]), Passed(ns[5])]
  }

  /**
   * ComputeCorrectLightInfluence: no block gives darkness; an opaque block
   * has only its own light; any other block has, per channel, the brightest
   * of its own light and what each existing neighbour passes on.
   */
  function CorrectLight(it: BlockIterator, defs: DefTable): (r: Light)
    requires LightLevelsFit(defs) && KnownBlock(it, defs)
    reads if it.chunk == null then {} else {it.chunk.blocks} + it.chunk.AroundFrame()
    ensures 0 <= r.indoor <= 15 && 0 <= r.outdoor <= 15
    ensures it.GetBlock().None? ==> r == Light(0, 0)
  {
    match it.GetBlock()
    case None => Light(0, 0)
    case Some(b) =>
      if b.IsFullOpaque() then OwnLight(b, defs)
      else Brightest(OwnLight(b, defs), NeighborLights(it))
  }

  /**
   * What CorrectLight means, channel by channel: at least the block's own
   * light; exactly that for an opaque block; otherwise the least level that
   * is at least what every existing neighbour passes on, so each channel is
   * its own light or one neighbour's contribution.
   */
  lemma CorrectLightMeaning(it: BlockIterator, defs: DefTable)
    requires LightLevelsFit(defs) && KnownBlock(it, defs)
    ensures var r := CorrectLight(it, defs);
      it.GetBlock().Some? ==>
      var own := OwnLight(it.GetBlock().value, defs);
      var ls := NeighborLights(it);
      && r.indoor >= own.indoor && r.outdoor >= own.outdoor
      && (it.GetBlock().value.IsFullOpaque() ==> r == own)
      && (!it.GetBlock().value.IsFullOpaque() ==>
           && (forall i | 0 <= i < 6 && ls[i].Some? :: r.indoor >= ls[i].value.indoor && r.outdoor >= ls[i].value.outdoor)
           && (r.indoor == own.indoor || exists i | 0 <= i < 6 && ls[i].Some? :: r.indoor == ls[i].value.indoor)
           && (r.outdoor == own.outdoor || exists i | 0 <= i < 6 && ls[i].Some? :: r.outdoor == ls[i].value.outdoor))
  {
  }

  /** The face each position of LightNeighbors moves towards. */
  function LightNeighborFace(i: int): BlockFace
    requires 0 <= i < 6
  {
    [BLOCK_FACE_NORTH, BLOCK_FACE_SOUTH, BLOCK_FACE_EAST, BLOCK_FACE_WEST, BLOCK_FACE_TOP, BLOCK_FACE_BOTTOM][i]
  }

  /**
   * With links that agree with the active map, none of a block's six
   * neighbours is the block itself: each one sits one unit away on the grid.
   */
  lemma NeighborIsElsewhere(m: ChunkMap, it: BlockIterator, i: int)
    requires Keyed(m) && LinksOk(m) && it.InRange() && IsActive(m, it.chunk) && 0 <= i < 6
    ensures LightNeighbors(it)[i] != it
  {
    var face := LightNeighborFace(i);
    assert LightNeighbors(it)[i] == it.GetNeighbor(face);
    var n := it.GetNeighbor(face);
    if n.IsValid() {
      LinksOkGeometric(m, it.chunk.chunkCoords);
      MoveMatchesGrid(it, face);
      var g := it.GetBlockCoords().value;
      assert StepCoords(g, face) != g;
    }
  }

  // ---------------------------------------------------------------------
  // Downward sky walks

  /** A block a sky walk has passed: sky set to `on`, marked light-dirty. */
  function Walked(b: Block, on: bool): (r: Block)
    ensures r.IsSky() == on && r.IsLightDirty()
    ensures r.IsFullOpaque() == b.IsFullOpaque() && r.blockType == b.blockType
    ensures r.lightInfluence == b.lightInfluence
  {
    b.SetIsSky(on).SetIsLightDirty(true)
  }

  /**
   * Whether index `j` is among the blocks a downward walk from index `i`
   * visits: `i` and the blocks straight below it, stopping before the first
   * opaque block or below the chunk floor.
   */
  predicate InOpenRun(blocks: seq<Block>, i: int, j: int)
    requires |blocks| == CHUNK_BLOCK_TOTAL
    decreases i
  {
    InIndexRange(i) && !blocks[i].IsFullOpaque() && (j == i || InOpenRun(blocks, i - BLOCKS_PER_LAYER, j))
  }

  /** The blocks after PropagateSkyDown (`on`) or ClearSkyDown (not `on`) from index `i`. */
  function SkyWalked(blocks: seq<Block>, i: int, on: bool): (r: seq<Block>)
    requires |blocks| == CHUNK_BLOCK_TOTAL
    ensures |r| == CHUNK_BLOCK_TOTAL
    decreases i
  {
    if InIndexRange(i) && !blocks[i].IsFullOpaque() then
      SkyWalked(blocks[i := Walked(blocks[i], on)], i - BLOCKS_PER_LAYER, on)
    else blocks
  }

  /** The iterators a sky walk from index `i` of chunk `c` appends to the light queue, top first. */
  function WalkPushes(c: Chunk, blocks: seq<Block>, i: int, on: bool): seq<BlockIterator>
    requires |blocks| == CHUNK_BLOCK_TOTAL
    decreases i
  {
    if InIndexRange(i) && !blocks[i].IsFullOpaque() then
      (if blocks[i].IsLightDirty() then [] else [BlockIterator(c, i)])
      + WalkPushes(c, blocks[i := Walked(blocks[i], on)], i - BLOCKS_PER_LAYER, on)
    else []
  }

  /** One block of a walk: the walk from `i` is that block walked, then the walk from the iterator below. */
  lemma SkyWalkStep(c: Chunk, blocks: seq<Block>, i: int, on: bool)
    requires |blocks| == CHUNK_BLOCK_TOTAL && InIndexRange(i) && !blocks[i].IsFullOpaque()
    ensures var next := blocks[i := Walked(blocks[i], on)];
      var below := if i >= BLOCKS_PER_LAYER then i - BLOCKS_PER_LAYER else -1;
      && SkyWalked(blocks, i, on) == SkyWalked(next, below, on)
      && WalkPushes(c, blocks, i, on) == (if blocks[i].IsLightDirty() then [] else [BlockIterator(c, i)]) + WalkPushes(c, next, below, on)
  {
  }

  /** Appending in two steps is appending the concatenation. */
  lemma AppendAssoc<T>(a: seq<T>, b: seq<T>, c: seq<T>)
    ensures (a + b) + c == a + (b + c)
  {
  }

  /** A walk that starts outside the array or on an opaque block does nothing. */
  lemma SkyWalkStops(c: Chunk, blocks: seq<Block>, i: int, on: bool)
    requires |blocks| == CHUNK_BLOCK_TOTAL && !(InIndexRange(i) && !blocks[i].IsFullOpaque())
    ensures SkyWalked(blocks, i, on) == blocks && WalkPushes(c, blocks, i, on) == []
  {
  }

  /** A walk from `i` reaches nothing above `i`. */
  lemma {:induction false} OpenRunBelow(blocks: seq<Block>, i: int, j: int)
    requires |blocks| == CHUNK_BLOCK_TOTAL && InOpenRun(blocks, i, j)
    ensures InIndexRange(j) && j <= i && !blocks[j].IsFullOpaque()
    decreases i
  {
    if j != i {
      OpenRunBelow(blocks, i - BLOCKS_PER_LAYER, j);
    }
  }

  /** Where a walk goes depends only on which blocks are opaque. */
  lemma {:induction false} OpenRunSameOpacity(b1: seq<Block>, b2: seq<Block>, i: int, j: int)
    requires |b1| == CHUNK_BLOCK_TOTAL && |b2| == CHUNK_BLOCK_TOTAL
    requires forall k | 0 <= k < CHUNK_BLOCK_TOTAL :: b1[k].IsFullOpaque() == b2[k].IsFullOpaque()
    ensures InOpenRun(b1, i, j) == InOpenRun(b2, i, j)
    decreases i
  {
    if InIndexRange(i) {
      OpenRunSameOpacity(b1, b2, i - BLOCKS_PER_LAYER, j);
    }
  }

  /** A sky walk changes exactly the blocks of its open run, each to its walked form. */
  lemma {:induction false} SkyWalkedCells(blocks: seq<Block>, i: int, on: bool, j: int)
    requires |blocks| == CHUNK_BLOCK_TOTAL && InIndexRange(j)
    ensures SkyWalked(blocks, i, on)[j] == if InOpenRun(blocks, i, j) then Walked(blocks[j], on) else blocks[j]
    decreases i
  {
    if InIndexRange(i) && !blocks[i].IsFullOpaque() {
      var next := blocks[i := Walked(blocks[i], on)];
      SkyWalkedCells(next, i - BLOCKS_PER_LAYER, on, j);
      OpenRunSameOpacity(next, blocks, i - BLOCKS_PER_LAYER, j);
      if InOpenRun(next, i - BLOCKS_PER_LAYER, j) {
        OpenRunBelow(next, i - BLOCKS_PER_LAYER, j);
      }
    }
  }

  /** A sky walk queues exactly the blocks of its open run that were not yet light-dirty. */
  lemma {:induction false} WalkPushesCells(c: Chunk, blocks: seq<Block>, i: int, on: bool, j: int)
    requires |blocks| == CHUNK_BLOCK_TOTAL && InIndexRange(j)
    ensures BlockIterator(c, j) in WalkPushes(c, blocks, i, on) <==> InOpenRun(blocks, i, j) && !blocks[j].IsLightDirty()
    decreases i
  {
    if InIndexRange(i) && !blocks[i].IsFullOpaque() {
      var next := blocks[i := Walked(blocks[i], on)];
      WalkPushesCells(c, next, i - BLOCKS_PER_LAYER, on, j);
      OpenRunSameOpacity(next, blocks, i - BLOCKS_PER_LAYER, j);
      if InOpenRun(next, i - BLOCKS_PER_LAYER, j) {
        OpenRunBelow(next, i - BLOCKS_PER_LAYER, j);
      }
    }
  }

  /**
   * The open run is the straight column below `i`: `j` is reached exactly
   * when it lies in the same column at or below `i` and no block from `j` up
   * to `i` is opaque.
   */
  lemma {:induction false} OpenRunIsClearColumn(blocks: seq<Block>, i: int, j: int)
    requires |blocks| == CHUNK_BLOCK_TOTAL && InIndexRange(i) && InIndexRange(j)
    ensures InOpenRun(blocks, i, j) <==>
      var x := IndexToLocalX(i);
      var y := IndexToLocalY(i);
      && IndexToLocalX(j) == x && IndexToLocalY(j) == y && IndexToLocalZ(j) <= IndexToLocalZ(i)
      && forall z | IndexToLocalZ(j) <= z <= IndexToLocalZ(i) :: !blocks[GetBlockIndex(x, y, z)].IsFullOpaque()
    decreases i
  {
    IndexDecomposition(i);
    IndexDecomposition(j);
    var x := IndexToLocalX(i);
    var y := IndexToLocalY(i);
    var zi := IndexToLocalZ(i);
    if i >= BLOCKS_PER_LAYER {
      var below := i - BLOCKS_PER_LAYER;
      IndexRoundTrip(x, y, zi - 1);
      assert below == GetBlockIndex(x, y, zi - 1);
      assert IndexToLocalX(below) == x && IndexToLocalY(below) == y && IndexToLocalZ(below) == zi - 1;
      OpenRunIsClearColumn(blocks, below, j);
    } else {
      assert zi == 0;
    }
  }

  // ---------------------------------------------------------------------
  // Block edits (Chunk::SetBlockType)

  /** The index one layer below `i`, or -1 (an invalid iterator) below the floor. */
  function BelowIndex(i: int): int {
    if i >= BLOCKS_PER_LAYER then i - BLOCKS_PER_LAYER else -1
  }

  /** The block above index `i` exists and is a sky block. */
  predicate SkyAbove(blocks: seq<Block>, i: int)
    requires |blocks| == CHUNK_BLOCK_TOTAL && InIndexRange(i)
  {
    i + BLOCKS_PER_LAYER < CHUNK_BLOCK_TOTAL && blocks[i + BLOCKS_PER_LAYER].IsSky()
  }

  /**
   * The walk an edit to type `t` starts below the edited block: a sky walk
   * when the new type is not opaque and the block above is sky, a clearing
   * walk when the new type is opaque, none otherwise.
   */
  function EditWalk(blocks: seq<Block>, i: int, t: byte, defs: DefTable): Option<bool>
    requires |blocks| == CHUNK_BLOCK_TOTAL && InIndexRange(i) && KnownType(defs, t)
  {
    if !defs[t].isOpaque then (if SkyAbove(blocks, i) then Some(true) else None)
    else Some(false)
  }

  /** The sky flag an edit stores: always when setting it, only on a sky block when clearing it. */
  function SkyFlagged(b: Block, on: bool): Block {
    if on || b.IsSky() then b.SetIsSky(on) else b
  }

  /** The edited block itself: the new type, flagged light-dirty, and its sky flag per the edit's rule. */
  function EditedBlock(blocks: seq<Block>, i: int, t: byte, defs: DefTable): Block
    requires |blocks| == CHUNK_BLOCK_TOTAL && InIndexRange(i) && KnownType(defs, t)
  {
    var typed := blocks[i].SetBlockType(t, defs).SetIsLightDirty(true);
    match EditWalk(blocks, i, t, defs)
    case None => typed
    case Some(on) => SkyFlagged(typed, on)
  }

  /** The chunk's blocks after the edit: the edited block, then the walk below it. */
  function EditedBlocks(blocks: seq<Block>, i: int, t: byte, defs: DefTable): (r: seq<Block>)
    requires |blocks| == CHUNK_BLOCK_TOTAL && InIndexRange(i) && KnownType(defs, t)
    ensures |r| == CHUNK_BLOCK_TOTAL
  {
    var placed := blocks[i := EditedBlock(blocks, i, t, defs)];
    match EditWalk(blocks, i, t, defs)
    case None => placed
    case Some(on) => SkyWalked(placed, BelowIndex(i), on)
  }

  /** What the edit appends to the light queue: the edited block unless already queued, then the walk's pushes. */
  function EditPushes(c: Chunk, blocks: seq<Block>, i: int, t: byte, defs: DefTable): seq<BlockIterator>
    requires |blocks| == CHUNK_BLOCK_TOTAL && InIndexRange(i) && KnownType(defs, t)
  {
    var placed := blocks[i := EditedBlock(blocks, i, t, defs)];
    (if blocks[i].IsLightDirty() then [] else [BlockIterator(c, i)])
    + match EditWalk(blocks, i, t, defs)
      case None => []
      case Some(on) => WalkPushes(c, placed, BelowIndex(i), on)
  }

  /**
   * What an edit does to each block: the edited block takes the new type,
   * is light-dirty, is not sky when the type is opaque and is sky when the
   * type is not opaque and the block above is sky; every block of the open
   * run below it takes the walk's sky flag and is light-dirty; every other
   * block stays as it was.
   */
  lemma EditCells(blocks: seq<Block>, i: int, t: byte, defs: DefTable, j: int)
    requires |blocks| == CHUNK_BLOCK_TOTAL && InIndexRange(i) && KnownType(defs, t) && InIndexRange(j)
    ensures var r := EditedBlocks(blocks, i, t, defs);
      var placed := blocks[i := EditedBlock(blocks, i, t, defs)];
      var walk := EditWalk(blocks, i, t, defs);
      && (j == i ==>
            && r[j].blockType == t && r[j].IsLightDirty() && r[j].IsFullOpaque() == defs[t].isOpaque
            && r[j].lightInfluence == blocks[j].lightInfluence
            && (defs[t].isOpaque ==> !r[j].IsSky())
            && (!defs[t].isOpaque && SkyAbove(blocks, i) ==> r[j].IsSky())
            && (!defs[t].isOpaque && !SkyAbove(blocks, i) ==> r[j].IsSky() == blocks[j].IsSky()))
      && (j != i && walk.Some? && InOpenRun(placed, BelowIndex(i), j) ==> r[j] == Walked(blocks[j], walk.value))
      && (j != i && (walk.None? || !InOpenRun(placed, BelowIndex(i), j)) ==> r[j] == blocks[j])
  {
    var placed := blocks[i := EditedBlock(blocks, i, t, defs)];
    var walk := EditWalk(blocks, i, t, defs);
    if walk.Some? {
      SkyWalkedCells(placed, BelowIndex(i), walk.value, j);
      if InOpenRun(placed, BelowIndex(i), j) {
        OpenRunBelow(placed, BelowIndex(i), j);
      }
    }
  }

  /**
   * An edit in the order the source performs it: the typed, light-dirty
   * block is stored first, then the sky flag over it, then the walk below.
   */
  lemma EditInSteps(c: Chunk, blocks: seq<Block>, i: int, t: byte, defs: DefTable)
    requires |blocks| == CHUNK_BLOCK_TOTAL && InIndexRange(i) && KnownType(defs, t)
    ensures var typed := blocks[i].SetBlockType(t, defs).SetIsLightDirty(true);
      var placed := blocks[i := typed];
      var first := if blocks[i].IsLightDirty() then [] else [BlockIterator(c, i)];
      match EditWalk(blocks, i, t, defs)
      case None =>
        EditedBlocks(blocks, i, t, defs) == placed && EditPushes(c, blocks, i, t, defs) == first
      case Some(on) =>
        var flagged := placed[i := SkyFlagged(placed[i], on)];
        && EditedBlocks(blocks, i, t, defs) == SkyWalked(flagged, BelowIndex(i), on)
        && EditPushes(c, blocks, i, t, defs) == first + WalkPushes(c, flagged, BelowIndex(i), on)
  {
    var typed := blocks[i].SetBlockType(t, defs).SetIsLightDirty(true);
    var placed := blocks[i := typed];
    match EditWalk(blocks, i, t, defs)
    case None =>
    case Some(on) =>
      assert placed[i := SkyFlagged(placed[i], on)] == blocks[i := EditedBlock(blocks, i, t, defs)];
  }

  // ---------------------------------------------------------------------
  // The light-dirty queue

  /** The block arrays of the active chunks. */
  function Arrays(m: ChunkMap): set<array<Block>> {
    set k | k in m :: m[k].blocks
  }

  /** Different active chunks own different block arrays. */
  predicate ArraysDistinct(m: ChunkMap) {
    forall k1, k2 | k1 in m && k2 in m && k1 != k2 :: m[k1].blocks != m[k2].blocks
  }

  /**
   * The light queue agrees with the flags: every queued iterator names a
   * block of an active chunk, no iterator is queued twice, and a block of an
   * active chunk is flagged light-dirty exactly when its iterator is queued.
   */
  ghost predicate DirtyOk(m: ChunkMap, q: seq<BlockIterator>)
    reads Arrays(m)
  {
    && Keyed(m)
    && (forall i | 0 <= i < |q| :: q[i].InRange() && IsActive(m, q[i].chunk))
    && (forall i, j | 0 <= i < j < |q| :: q[i] != q[j])
    && (forall k, n | k in m && InIndexRange(n) ::
          m[k].blocks[n].IsLightDirty() <==> BlockIterator(m[k], n) in q)
  }

  /** Every block of every active chunk has a type the definition table knows. */
  ghost predicate TypesKnown(m: ChunkMap, defs: DefTable)
    reads Arrays(m)
  {
    Keyed(m) && forall k, n | k in m && InIndexRange(n) :: KnownType(defs, m[k].blocks[n].blockType)
  }

  /** No queued iterator names a block of chunk `c`. */
  predicate NoneQueuedFor(q: seq<BlockIterator>, c: Chunk) {
    forall i | 0 <= i < |q| :: q[i].chunk != c
  }

  /**
   * Adding a chunk that is not active yet and has no flagged block keeps the
   * invariant: nothing can be queued for it, since every queued iterator
   * names an active chunk.
   */
  lemma DirtyOkInsert(m: ChunkMap, q: seq<BlockIterator>, c: Chunk)
    requires DirtyOk(m, q) && c.chunkCoords !in m && c.Sized()
    requires forall n | InIndexRange(n) :: !c.blocks[n].IsLightDirty()
    ensures DirtyOk(m[c.chunkCoords := c], q)
  {
    var k := c.chunkCoords;
    var m' := m[k := c];
    forall i | 0 <= i < |q|
      ensures IsActive(m', q[i].chunk) && q[i].chunk != c
    {
      assert IsActive(m, q[i].chunk);
    }
    forall k2, n | k2 in m' && InIndexRange(n)
      ensures m'[k2].blocks[n].IsLightDirty() <==> BlockIterator(m'[k2], n) in q
    {
      if k2 == k {
        assert BlockIterator(c, n) !in q;
      } else {
        assert m'[k2] == m[k2];
      }
    }
  }

  /** Removing a chunk nothing is queued for keeps the invariant. */
  lemma DirtyOkRemove(m: ChunkMap, q: seq<BlockIterator>, k: IntVec2)
    requires k in m && DirtyOk(m, q) && NoneQueuedFor(q, m[k])
    ensures DirtyOk(m - {k}, q)
  {
    forall i | 0 <= i < |q|
      ensures IsActive(m - {k}, q[i].chunk)
    {
      assert IsActive(m, q[i].chunk);
    }
  }
}
