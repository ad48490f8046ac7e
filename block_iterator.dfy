/**
 * The block iterator (Game/BlockIterator.cpp): a (chunk, index) cursor.
 * Horizontal moves that leave the chunk follow the chunk's neighbour
 * pointer; vertical moves never leave the chunk. The invalid sentinel is
 * (null, -1), and a vertical move off the top or bottom gives (chunk, -1).
 */
module BlockIterators {
  import opened GameCommon
  import opened Blocks
  import opened ChunkIndex
  import opened Chunks

  const INVALID_ITERATOR := BlockIterator(null, -1)

  datatype BlockIterator = BlockIterator(chunk: Chunk?, blockIndex: int) {

    predicate IsValid() {
      chunk != null && blockIndex >= 0
    }

    /** Valid and inside the block array: the iterator names an actual block. */
    predicate InRange() {
      IsValid() && InIndexRange(blockIndex)
    }

    function GetChunk(): Chunk? { chunk }

    /** `IntVec3::INVALID` for an invalid iterator is `None` here. */
    function GetBlockCoords(): (g: Option<IntVec3>)
      ensures g.None? <==> !IsValid()
      ensures IsValid() ==> g.value == IndexToGlobalCoords(chunk.chunkCoords, blockIndex)
    {
      if chunk == null || blockIndex < 0 then None
      else Some(IndexToGlobalCoords(chunk.chunkCoords, blockIndex))
    }

    /**
     * The block through GetBlockAtLocalCoords: the unpacked local coordinates
     * are packed again and the block exists only if that index is inside the
     * array; `None` is the null pointer.
     */
    function GetBlock(): Option<Block>
      reads if chunk == null then {} else {chunk.blocks}
    {
      if !IsValid() then None
      else
        var x := IndexToLocalX(blockIndex);
        var y := IndexToLocalY(blockIndex);
        var z := IndexToLocalZ(blockIndex);
        match BlockIndexAtLocalCoords(x, y, z)
        case None => None
        case Some(j) => if j < chunk.blocks.Length then Some(chunk.blocks[j]) else None
    }

    function GetNorthNeighbor(): (r: BlockIterator)
      reads chunk
      ensures r.chunk != null ==> chunk != null && r.chunk in chunk.Around()
    {
      if !IsValid() then INVALID_ITERATOR
      else
        var x := IndexToLocalX(blockIndex);
        var y := IndexToLocalY(blockIndex) + 1;
        var z := IndexToLocalZ(blockIndex);
        if y >= CHUNK_SIZE_Y then
          if chunk.northNeighbor == null then INVALID_ITERATOR
          else BlockIterator(chunk.northNeighbor, GetBlockIndex(x, 0, z))
        else BlockIterator(chunk, GetBlockIndex(x, y, z))
    }

    function GetSouthNeighbor(): (r: BlockIterator)
      reads chunk
      ensures r.chunk != null ==> chunk != null && r.chunk in chunk.Around()
    {
      if !IsValid() then INVALID_ITERATOR
      else
        var x := IndexToLocalX(blockIndex);
        var y := IndexToLocalY(blockIndex) - 1;
        var z := IndexToLocalZ(blockIndex);
        if y < 0 then
          if chunk.southNeighbor == null then INVALID_ITERATOR
          else BlockIterator(chunk.southNeighbor, GetBlockIndex(x, CHUNK_MASK_Y, z))
        else BlockIterator(chunk, GetBlockIndex(x, y, z))
    }

    function GetEastNeighbor(): (r: BlockIterator)
      reads chunk
      ensures r.chunk != null ==> chunk != null && r.chunk in chunk.Around()
    {
      if !IsValid() then INVALID_ITERATOR
      else
        var x := IndexToLocalX(blockIndex) + 1;
        var y := IndexToLocalY(blockIndex);
        var z := IndexToLocalZ(blockIndex);
        if x >= CHUNK_SIZE_X then
          if chunk.eastNeighbor == null then INVALID_ITERATOR
          else BlockIterator(chunk.eastNeighbor, GetBlockIndex(0, y, z))
        else BlockIterator(chunk, GetBlockIndex(x, y, z))
    }

    function GetWestNeighbor(): (r: BlockIterator)
      reads chunk
      ensures r.chunk != null ==> chunk != null && r.chunk in chunk.Around()
    {
      if !IsValid() then INVALID_ITERATOR
      else
        var x := IndexToLocalX(blockIndex) - 1;
        var y := IndexToLocalY(blockIndex);
        var z := IndexToLocalZ(blockIndex);
        if x < 0 then
          if chunk.westNeighbor == null then INVALID_ITERATOR
          else BlockIterator(chunk.westNeighbor, GetBlockIndex(CHUNK_MASK_X, y, z))
        else BlockIterator(chunk, GetBlockIndex(x, y, z))
    }

    function GetUpNeighbor(): (r: BlockIterator)
      ensures r.chunk == null || r.chunk == chunk
    {
      if !IsValid() then INVALID_ITERATOR
      else
        var x := IndexToLocalX(blockIndex);
        var y := IndexToLocalY(blockIndex);
        var z := IndexToLocalZ(blockIndex) + 1;
        if z >= CHUNK_SIZE_Z then BlockIterator(chunk, -1)
        else BlockIterator(chunk, GetBlockIndex(x, y, z))
    }

    function GetDownNeighbor(): (r: BlockIterator)
      ensures r.chunk == null || r.chunk == chunk
    {
      if !IsValid() then INVALID_ITERATOR
      else
        var x := IndexToLocalX(blockIndex);
        var y := IndexToLocalY(blockIndex);
        var z := IndexToLocalZ(blockIndex) - 1;
        if z < 0 then BlockIterator(chunk, -1)
        else BlockIterator(chunk, GetBlockIndex(x, y, z))
    }

    function GetNeighbor(face: BlockFace): (r: BlockIterator)
      reads chunk
      ensures r.chunk != null ==> chunk != null && r.chunk in chunk.Around()
    {
      match face
      case BLOCK_FACE_EAST => GetEastNeighbor()
      case BLOCK_FACE_WEST => GetWestNeighbor()
      case BLOCK_FACE_NORTH => GetNorthNeighbor()
      case BLOCK_FACE_SOUTH => GetSouthNeighbor()
      case BLOCK_FACE_TOP => GetUpNeighbor()
      case BLOCK_FACE_BOTTOM => GetDownNeighbor()
    }

    /** The switch on a raw enumeration value: anything outside 0..5 gives the sentinel. */
    function GetNeighborByValue(v: int): (r: BlockIterator)
      reads chunk
      ensures FaceFromIndex(v).None? ==> r == INVALID_ITERATOR
      ensures FaceFromIndex(v).Some? ==> r == GetNeighbor(FaceFromIndex(v).value)
    {
      match FaceFromIndex(v)
      case None => INVALID_ITERATOR
      case Some(face) => GetNeighbor(face)
    }
  }

  /** The global position of the block one step towards `face`. */
  function StepCoords(g: IntVec3, face: BlockFace): IntVec3 {
    g.Plus(face.Offset())
  }

  /** The neighbour pointer of `c` in the horizontal direction of `face`; null for vertical faces. */
  function NeighborPointer(c: Chunk, face: BlockFace): Chunk?
    reads c`northNeighbor, c`southNeighbor, c`eastNeighbor, c`westNeighbor
  {
    match face
    case BLOCK_FACE_EAST => c.eastNeighbor
    case BLOCK_FACE_WEST => c.westNeighbor
    case BLOCK_FACE_NORTH => c.northNeighbor
    case BLOCK_FACE_SOUTH => c.southNeighbor
    case _ => null
  }

  /** The chunk-coordinate step of a horizontal face. */
  function ChunkStep(face: BlockFace): IntVec2 {
    IntVec2(face.Offset().x, face.Offset().y)
  }

  /** Each set neighbour pointer of `c` leads to the chunk one step away in that direction. */
  predicate LinksGeometric(c: Chunk)
    reads c
  {
    (c.northNeighbor != null ==> c.northNeighbor.chunkCoords == c.chunkCoords.Plus(NORTH2)) &&
    (c.southNeighbor != null ==> c.southNeighbor.chunkCoords == c.chunkCoords.Plus(SOUTH2)) &&
    (c.eastNeighbor != null ==> c.eastNeighbor.chunkCoords == c.chunkCoords.Plus(EAST2)) &&
    (c.westNeighbor != null ==> c.westNeighbor.chunkCoords == c.chunkCoords.Plus(WEST2))
  }

  /** Whether the step towards `face` stays inside the chunk, for local coordinates `l`. */
  predicate StaysInside(l: IntVec3, face: BlockFace) {
    var m := l.Plus(face.Offset());
    InChunk(m.x, m.y, m.z)
  }

  // ---------------------------------------------------------------------
  // Properties of the moves

  /** An existing block is exactly a valid iterator with an in-range index. */
  lemma GetBlockExists(it: BlockIterator)
    requires it.chunk != null ==> it.chunk.Sized()
    ensures it.GetBlock().Some? <==> it.InRange()
    ensures it.InRange() ==> it.GetBlock() == Some(it.chunk.blocks[it.blockIndex])
  {
    if it.IsValid() {
      var i := it.blockIndex;
      var z := IndexToLocalZ(i);
      if InIndexRange(i) {
        IndexDecomposition(i);
      } else {
        assert z >= CHUNK_SIZE_Z by {
          assert i >= CHUNK_BLOCK_TOTAL;
        }
      }
    }
  }

  /** Every move from an invalid iterator yields the (null, -1) sentinel. */
  lemma InvalidStaysInvalid(it: BlockIterator, face: BlockFace)
    requires !it.IsValid()
    ensures it.GetNeighbor(face) == INVALID_ITERATOR
    ensures !it.GetNeighbor(face).IsValid()
  {
  }

  /**
   * A move that stays inside the chunk keeps the chunk and changes the local
   * coordinates by exactly the face's unit offset.
   */
  lemma {:induction false} MoveInsideChunk(it: BlockIterator, face: BlockFace)
    requires it.InRange()
    requires StaysInside(IndexToLocalCoords(it.blockIndex), face)
    ensures it.GetNeighbor(face).chunk == it.chunk
    ensures it.GetNeighbor(face).InRange()
    ensures IndexToLocalCoords(it.GetNeighbor(face).blockIndex)
         == IndexToLocalCoords(it.blockIndex).Plus(face.Offset())
  {
    var l := IndexToLocalCoords(it.blockIndex);
    IndexDecomposition(it.blockIndex);
    var m := l.Plus(face.Offset());
    IndexRoundTrip(m.x, m.y, m.z);
    var inside := BlockIterator(it.chunk, GetBlockIndex(m.x, m.y, m.z));
    match face {
      case BLOCK_FACE_EAST => assert it.GetEastNeighbor() == inside;
      case BLOCK_FACE_WEST => assert it.GetWestNeighbor() == inside;
      case BLOCK_FACE_NORTH => assert it.GetNorthNeighbor() == inside;
      case BLOCK_FACE_SOUTH => assert it.GetSouthNeighbor() == inside;
      case BLOCK_FACE_TOP => assert it.GetUpNeighbor() == inside;
      case BLOCK_FACE_BOTTOM => assert it.GetDownNeighbor() == inside;
    }
  }

  /**
   * Crossing a horizontal edge: with a neighbour pointer the move enters that
   * chunk with the crossed coordinate wrapped to the far side; without one it
   * yields the sentinel.
   */
  lemma {:induction false} MoveAcrossEdge(it: BlockIterator, face: BlockFace)
    requires it.InRange()
    requires face.Offset().z == 0
    requires !StaysInside(IndexToLocalCoords(it.blockIndex), face)
    ensures NeighborPointer(it.chunk, face) == null ==> it.GetNeighbor(face) == INVALID_ITERATOR
    ensures NeighborPointer(it.chunk, face) != null ==>
      var l := IndexToLocalCoords(it.blockIndex);
      var m := l.Plus(face.Offset());
      it.GetNeighbor(face) == BlockIterator(NeighborPointer(it.chunk, face),
        GetBlockIndex(m.x % CHUNK_SIZE_X, m.y % CHUNK_SIZE_Y, m.z))
  {
    IndexDecomposition(it.blockIndex);
    var l := IndexToLocalCoords(it.blockIndex);
    var m := l.Plus(face.Offset());
    var x, y := m.x % CHUNK_SIZE_X, m.y % CHUNK_SIZE_Y;
    match face {
      case BLOCK_FACE_EAST => assert x == 0 && y == l.y;
      case BLOCK_FACE_WEST => assert x == CHUNK_SIZE_X - 1 && y == l.y;
      case BLOCK_FACE_NORTH => assert x == l.x && y == 0;
      case BLOCK_FACE_SOUTH => assert x == l.x && y == CHUNK_SIZE_Y - 1;
    }
    assert m.z == l.z;
    EdgeStep(it, face, x, y);
  }

  /** One horizontal step off the edge lands at (x, y) of the same layer in the neighbour chunk, or nowhere. */
  lemma EdgeStep(it: BlockIterator, face: BlockFace, x: int, y: int)
    requires it.InRange()
    requires face.Offset().z == 0
    requires !StaysInside(IndexToLocalCoords(it.blockIndex), face)
    requires var l := IndexToLocalCoords(it.blockIndex);
      (face == BLOCK_FACE_EAST ==> x == 0 && y == l.y) &&
      (face == BLOCK_FACE_WEST ==> x == CHUNK_SIZE_X - 1 && y == l.y) &&
      (face == BLOCK_FACE_NORTH ==> x == l.x && y == 0) &&
      (face == BLOCK_FACE_SOUTH ==> x == l.x && y == CHUNK_SIZE_Y - 1)
    ensures it.GetNeighbor(face) ==
      if NeighborPointer(it.chunk, face) == null then INVALID_ITERATOR
      else BlockIterator(NeighborPointer(it.chunk, face), GetBlockIndex(x, y, IndexToLocalZ(it.blockIndex)))
  {
  }

  /** Up from the top layer and down from the bottom layer give (same chunk, -1). */
  lemma VerticalEdges(it: BlockIterator)
    requires it.InRange()
    ensures IndexToLocalZ(it.blockIndex) == CHUNK_SIZE_Z - 1 ==>
      it.GetUpNeighbor() == BlockIterator(it.chunk, -1) && !it.GetUpNeighbor().IsValid()
    ensures IndexToLocalZ(it.blockIndex) == 0 ==>
      it.GetDownNeighbor() == BlockIterator(it.chunk, -1) && !it.GetDownNeighbor().IsValid()
    ensures it.GetUpNeighbor().chunk == it.chunk && it.GetDownNeighbor().chunk == it.chunk
  {
  }

  /** Down is one layer lower in the same chunk, or (chunk, -1) below the floor; up likewise towards the ceiling. */
  lemma VerticalSteps(it: BlockIterator)
    requires it.InRange()
    ensures it.GetDownNeighbor()
         == BlockIterator(it.chunk, if it.blockIndex >= BLOCKS_PER_LAYER then it.blockIndex - BLOCKS_PER_LAYER else -1)
    ensures it.GetUpNeighbor()
         == BlockIterator(it.chunk, if it.blockIndex + BLOCKS_PER_LAYER < CHUNK_BLOCK_TOTAL then it.blockIndex + BLOCKS_PER_LAYER else -1)
  {
    IndexDecomposition(it.blockIndex);
  }

  /**
   * With neighbour pointers that lead one chunk over, every move that lands
   * on a block lands on the block one unit away in world coordinates: the
   * iterator walks the global grid.
   */
  lemma {:induction false} MoveMatchesGrid(it: BlockIterator, face: BlockFace)
    requires it.InRange() && LinksGeometric(it.chunk)
    requires it.GetNeighbor(face).IsValid()
    ensures it.GetNeighbor(face).InRange()
    ensures it.GetNeighbor(face).GetBlockCoords()
         == Some(StepCoords(it.GetBlockCoords().value, face))
  {
    var l := IndexToLocalCoords(it.blockIndex);
    if StaysInside(l, face) {
      MoveInsideGrid(it, face);
    } else if face.Offset().z == 0 {
      CrossEdgeGrid(it, face);
    } else {
      VerticalEdges(it);
      IndexDecomposition(it.blockIndex);
      assert false;
    }
  }

  /** The inside-the-chunk half of MoveMatchesGrid. */
  lemma {:induction false} MoveInsideGrid(it: BlockIterator, face: BlockFace)
    requires it.InRange()
    requires StaysInside(IndexToLocalCoords(it.blockIndex), face)
    ensures it.GetNeighbor(face).InRange()
    ensures it.GetNeighbor(face).GetBlockCoords()
         == Some(StepCoords(it.GetBlockCoords().value, face))
  {
    MoveInsideChunk(it, face);
    var r := it.GetNeighbor(face);
    var c := it.chunk;
    var l := IndexToLocalCoords(it.blockIndex);
    var m := IndexToLocalCoords(r.blockIndex);
    assert m == l.Plus(face.Offset());
    assert r.GetBlockCoords().value
        == IntVec3(c.chunkCoords.x * 32 + m.x, c.chunkCoords.y * 32 + m.y, m.z);
    assert it.GetBlockCoords().value
        == IntVec3(c.chunkCoords.x * 32 + l.x, c.chunkCoords.y * 32 + l.y, l.z);
  }

  /** The edge-crossing half of MoveMatchesGrid, one horizontal face at a time. */
  lemma {:induction false} CrossEdgeGrid(it: BlockIterator, face: BlockFace)
    requires it.InRange() && LinksGeometric(it.chunk)
    requires face.Offset().z == 0
    requires !StaysInside(IndexToLocalCoords(it.blockIndex), face)
    requires it.GetNeighbor(face).IsValid()
    ensures it.GetNeighbor(face).InRange()
    ensures it.GetNeighbor(face).GetBlockCoords()
         == Some(StepCoords(it.GetBlockCoords().value, face))
  {
    var c := it.chunk;
    var i := it.blockIndex;
    var x, y, z := IndexToLocalX(i), IndexToLocalY(i), IndexToLocalZ(i);
    IndexDecomposition(i);
    var r := it.GetNeighbor(face);
    var n := r.chunk;
    var g := it.GetBlockCoords().value;
    assert g == IntVec3(c.chunkCoords.x * 32 + x, c.chunkCoords.y * 32 + y, z);
    match face
    case BLOCK_FACE_EAST =>
      assert x == 31 && r == BlockIterator(n, GetBlockIndex(0, y, z));
      IndexRoundTrip(0, y, z);
      assert n.chunkCoords == IntVec2(c.chunkCoords.x + 1, c.chunkCoords.y);
    case BLOCK_FACE_WEST =>
      assert x == 0 && r == BlockIterator(n, GetBlockIndex(31, y, z));
      IndexRoundTrip(31, y, z);
      assert n.chunkCoords == IntVec2(c.chunkCoords.x - 1, c.chunkCoords.y);
    case BLOCK_FACE_NORTH =>
      assert y == 31 && r == BlockIterator(n, GetBlockIndex(x, 0, z));
      IndexRoundTrip(x, 0, z);
      assert n.chunkCoords == IntVec2(c.chunkCoords.x, c.chunkCoords.y + 1);
    case BLOCK_FACE_SOUTH =>
      assert y == 0 && r == BlockIterator(n, GetBlockIndex(x, 31, z));
      IndexRoundTrip(x, 31, z);
      assert n.chunkCoords == IntVec2(c.chunkCoords.x, c.chunkCoords.y - 1);
  }

  /**
   * East then West returns to the start when the east neighbour (if the move
   * crosses into it) points back west to this chunk.
   */
  lemma {:induction false} EastThenWest(it: BlockIterator)
    requires it.InRange()
    requires IndexToLocalX(it.blockIndex) == CHUNK_MASK_X ==>
      it.chunk.eastNeighbor != null && it.chunk.eastNeighbor.westNeighbor == it.chunk
    ensures it.GetEastNeighbor().GetWestNeighbor() == it
  {
    var l := IndexToLocalCoords(it.blockIndex);
    IndexDecomposition(it.blockIndex);
    var e := it.GetEastNeighbor();
    if l.x < CHUNK_MASK_X {
      MoveInsideChunk(it, BLOCK_FACE_EAST);
      MoveInsideChunk(e, BLOCK_FACE_WEST);
    } else {
      IndexRoundTrip(0, l.y, l.z);
      IndexRoundTrip(CHUNK_MASK_X, l.y, l.z);
    }
  }

  /**
   * North then South returns to the start when the north neighbour (if the
   * move crosses into it) points back south to this chunk.
   */
  lemma {:induction false} NorthThenSouth(it: BlockIterator)
    requires it.InRange()
    requires IndexToLocalY(it.blockIndex) == CHUNK_MASK_Y ==>
      it.chunk.northNeighbor != null && it.chunk.northNeighbor.southNeighbor == it.chunk
    ensures it.GetNorthNeighbor().GetSouthNeighbor() == it
  {
    var l := IndexToLocalCoords(it.blockIndex);
    IndexDecomposition(it.blockIndex);
    var n := it.GetNorthNeighbor();
    if l.y < CHUNK_MASK_Y {
      MoveInsideChunk(it, BLOCK_FACE_NORTH);
      MoveInsideChunk(n, BLOCK_FACE_SOUTH);
    } else {
      IndexRoundTrip(l.x, 0, l.z);
      IndexRoundTrip(l.x, CHUNK_MASK_Y, l.z);
    }
  }
}
