/**
 * Chunk meshing (Chunk::GenerateChunkMesh, Game/Chunk.cpp:955-1067): which
 * faces of which blocks become quads, and the vertex colour each quad gets.
 * A face is drawn unless the block beyond it exists and its definition is
 * opaque; the colour carries the outward neighbour's outdoor light in red and
 * indoor light in green, or the plain face tint when lighting is switched off.
 *
 * The mesh is specified on a value: the blocks of the chunk and of its four
 * neighbours as the neighbour pointers find them (Surroundings). The build
 * loops walk the heap with block iterators, as the source does, and
 * NeighborAgrees ties each iterator step to the value.
 */
module Meshing {
  import opened GameCommon
  import opened Blocks
  import opened ChunkIndex
  import opened Chunks
  import opened BlockIterators

  const WHITE := Rgba8(255, 255, 255, 255)
  const SIDE_EAST_WEST := Rgba8(230, 230, 230, 255)
  const SIDE_NORTH_SOUTH := Rgba8(200, 200, 200, 255)

  /** The face tint: top and bottom white, east and west 230, north and south 200. */
  function FaceTint(face: BlockFace): Rgba8 {
    match face
    case BLOCK_FACE_TOP => WHITE
    case BLOCK_FACE_BOTTOM => WHITE
    case BLOCK_FACE_EAST => SIDE_EAST_WEST
    case BLOCK_FACE_WEST => SIDE_EAST_WEST
    case BLOCK_FACE_NORTH => SIDE_NORTH_SOUTH
    case BLOCK_FACE_SOUTH => SIDE_NORTH_SOUTH
  }

  /** The definition pointer for a type; `None` is a null entry of the table. */
  function DefOf(defs: DefTable, t: byte): (d: Option<BlockDefinition>)
    ensures d.Some? <==> KnownType(defs, t)
    ensures d.Some? ==> d.value == defs[t]
  {
    if t < |defs| then Some(defs[t]) else None
  }

  // ---------------------------------------------------------------------
  // The blocks the mesher sees

  /** The chunk's own blocks and each neighbour's blocks; `None` where the pointer is null. */
  datatype Surroundings = Surroundings(
    own: seq<Block>,
    east: Option<seq<Block>>, west: Option<seq<Block>>,
    north: Option<seq<Block>>, south: Option<seq<Block>>)

  /** The arrays a mesh build of `c` reads, as values. */
  function SurroundingsOf(c: Chunk): (s: Surroundings)
    reads c`northNeighbor, c`southNeighbor, c`eastNeighbor, c`westNeighbor, c.blocks
    reads if c.northNeighbor == null then {} else {c.northNeighbor.blocks}
    reads if c.southNeighbor == null then {} else {c.southNeighbor.blocks}
    reads if c.eastNeighbor == null then {} else {c.eastNeighbor.blocks}
    reads if c.westNeighbor == null then {} else {c.westNeighbor.blocks}
    ensures s.own == c.blocks[..]
    ensures s.east.Some? <==> c.eastNeighbor != null
    ensures s.east.Some? ==> s.east.value == c.eastNeighbor.blocks[..]
    ensures s.west.Some? <==> c.westNeighbor != null
    ensures s.west.Some? ==> s.west.value == c.westNeighbor.blocks[..]
    ensures s.north.Some? <==> c.northNeighbor != null
    ensures s.north.Some? ==> s.north.value == c.northNeighbor.blocks[..]
    ensures s.south.Some? <==> c.southNeighbor != null
    ensures s.south.Some? ==> s.south.value == c.southNeighbor.blocks[..]
  {
    Surroundings(c.blocks[..],
      if c.eastNeighbor == null then None else Some(c.eastNeighbor.blocks[..]),
      if c.westNeighbor == null then None else Some(c.westNeighbor.blocks[..]),
      if c.northNeighbor == null then None else Some(c.northNeighbor.blocks[..]),
      if c.southNeighbor == null then None else Some(c.southNeighbor.blocks[..]))
  }

  /** The block at index `j` of array `a`, if the index is inside both the chunk and the array. */
  function BlockAt(a: seq<Block>, j: int): (r: Option<Block>)
    ensures r.Some? <==> InIndexRange(j) && j < |a|
    ensures r.Some? ==> r.value == a[j]
  {
    if InIndexRange(j) && j < |a| then Some(a[j]) else None
  }

  /** The neighbour's array for a horizontal face, when its pointer is set. */
  function SideArray(s: Surroundings, face: BlockFace): Option<seq<Block>> {
    match face
    case BLOCK_FACE_EAST => s.east
    case BLOCK_FACE_WEST => s.west
    case BLOCK_FACE_NORTH => s.north
    case BLOCK_FACE_SOUTH => s.south
    case _ => None
  }

  /**
   * The block one step from local position `l` towards `face`: inside the
   * chunk the neighbouring block; across a horizontal edge the block with
   * the crossed coordinate wrapped, in the neighbour's array, or nothing
   * without a neighbour; above the top and below the bottom nothing.
   */
  function NeighborOf(s: Surroundings, l: IntVec3, face: BlockFace): Option<Block> {
    var m := l.Plus(face.Offset());
    if InChunk(m.x, m.y, m.z) then BlockAt(s.own, GetBlockIndex(m.x, m.y, m.z))
    else if face.Offset().z != 0 then None
    else
      match SideArray(s, face)
      case None => None
      case Some(a) => BlockAt(a, GetBlockIndex(m.x % CHUNK_SIZE_X, m.y % CHUNK_SIZE_Y, m.z))
  }

  // ---------------------------------------------------------------------
  // The mesh as a value

  /*
   * The face count and the block count, named apart from the grid
   * constants so that the recursive definitions below unfold one step at a
   * time rather than all the way down from a literal count.
   */
  const FACE_COUNT: nat := NUM_BLOCKFACES
  const BLOCK_COUNT: nat := CHUNK_BLOCK_TOTAL

  /** The block beyond `face` of the block at `l` exists and its definition is opaque. */
  predicate Occluded(s: Surroundings, l: IntVec3, face: BlockFace, defs: DefTable) {
    match NeighborOf(s, l, face)
    case None => false
    case Some(b) => DefOf(defs, b.blockType).Some? && DefOf(defs, b.blockType).value.isOpaque
  }

  /** `light * 255 / 15` as the 8-bit channel. */
  function LightChannel(light: bv8): (ch: byte)
    requires light <= 15
    ensures light == 0 ==> ch == 0
    ensures light == 15 ==> ch == 255
    ensures light < 15 ==> ch < 255
  {
    (light as int) * 255 / 15
  }

  /** The quad colour of face `face` of the block at `l`. */
  function FaceColor(s: Surroundings, l: IntVec3, face: BlockFace, lightingEnabled: bool): (color: Rgba8)
    ensures !lightingEnabled ==> color == FaceTint(face)
    ensures lightingEnabled ==> color.b == FaceTint(face).b && color.a == 255
    ensures lightingEnabled && NeighborOf(s, l, face).None? ==> color.r == 0 && color.g == 0
  {
    var tint := FaceTint(face);
    if !lightingEnabled then tint
    else
      match NeighborOf(s, l, face)
      case None => Rgba8(0, 0, tint.b, 255)
      case Some(n) => Rgba8(LightChannel(n.GetOutdoorLight()), LightChannel(n.GetIndoorLight()), tint.b, 255)
  }

  /** The block at `l` is drawn at all: its definition exists and is visible. */
  predicate Drawable(s: Surroundings, l: IntVec3, defs: DefTable) {
    match BlockAt(s.own, GetBlockIndex(l.x, l.y, l.z))
    case None => false
    case Some(b) => DefOf(defs, b.blockType).Some? && DefOf(defs, b.blockType).value.isVisible
  }

  /** The quads of faces 0 .. n-1 of the block at `l`, in face order. */
  function FacesUpTo(s: Surroundings, l: IntVec3, defs: DefTable, lightingEnabled: bool, n: nat): seq<MeshFace>
    requires n <= NUM_BLOCKFACES
  {
    if n == 0 then []
    else
      var face := FaceFromIndex(n - 1).value;
      FacesUpTo(s, l, defs, lightingEnabled, n - 1)
      + (if Occluded(s, l, face, defs) then []
         else [MeshFace(GetBlockIndex(l.x, l.y, l.z), face, FaceColor(s, l, face, lightingEnabled))])
  }

  /** All quads of the block at `l`. */
  function BlockQuads(s: Surroundings, l: IntVec3, defs: DefTable, lightingEnabled: bool): seq<MeshFace> {
    if !Drawable(s, l, defs) then [] else FacesUpTo(s, l, defs, lightingEnabled, FACE_COUNT)
  }

  /** The quads of every block, one entry per block index. */
  function QuadTable(s: Surroundings, defs: DefTable, lightingEnabled: bool): (t: seq<seq<MeshFace>>)
    ensures |t| == BLOCK_COUNT
  {
    seq(BLOCK_COUNT, i => BlockQuads(s, IndexToLocalCoords(i), defs, lightingEnabled))
  }

  /** The entries 0 .. n-1 of `t`, concatenated in order. */
  function Flatten(t: seq<seq<MeshFace>>, n: nat): seq<MeshFace>
    requires n <= |t|
  {
    if n == 0 then [] else Flatten(t, n - 1) + t[n - 1]
  }

  /** The quads GenerateChunkMesh builds: those of every block, in ascending block index. */
  function MeshOf(s: Surroundings, defs: DefTable, lightingEnabled: bool): seq<MeshFace> {
    Flatten(QuadTable(s, defs, lightingEnabled), BLOCK_COUNT)
  }

  // ---------------------------------------------------------------------
  // The value agrees with the iterator

  /**
   * A valid iterator's block, found by unpacking its index and packing the
   * coordinates again, is BlockAt over its chunk's array.
   */
  lemma IteratorBlock(it: BlockIterator)
    requires it.IsValid()
    ensures it.GetBlock() == BlockAt(it.chunk.blocks[..], it.blockIndex)
  {
    var j := it.blockIndex;
    if InIndexRange(j) {
      IndexDecomposition(j);
    } else {
      assert IndexToLocalZ(j) >= CHUNK_SIZE_Z;
    }
  }

  /**
   * Stepping a block iterator at local position `l` of `c` towards `face`
   * and taking its block gives NeighborOf over the chunk's surroundings.
   */
  lemma {:induction false} NeighborAgrees(c: Chunk, l: IntVec3, face: BlockFace)
    requires InChunk(l.x, l.y, l.z)
    ensures BlockIterator(c, GetBlockIndex(l.x, l.y, l.z)).GetNeighbor(face).GetBlock()
         == NeighborOf(SurroundingsOf(c), l, face)
  {
    var i := GetBlockIndex(l.x, l.y, l.z);
    IndexRoundTrip(l.x, l.y, l.z);
    var it := BlockIterator(c, i);
    var m := l.Plus(face.Offset());
    var r := it.GetNeighbor(face);
    if InChunk(m.x, m.y, m.z) {
      MoveInsideChunk(it, face);
      IteratorBlock(r);
      assert r.blockIndex == GetBlockIndex(m.x, m.y, m.z) by {
        IndexDecomposition(r.blockIndex);
      }
    } else if face.Offset().z != 0 {
      VerticalEdges(it);
      match face
      case BLOCK_FACE_TOP =>
      case BLOCK_FACE_BOTTOM =>
    } else {
      MoveAcrossEdge(it, face);
      if r.IsValid() {
        IteratorBlock(r);
        match face
        case BLOCK_FACE_EAST =>
        case BLOCK_FACE_WEST =>
        case BLOCK_FACE_NORTH =>
        case BLOCK_FACE_SOUTH =>
      }
    }
  }

  // ---------------------------------------------------------------------
  // What the mesh contains

  /** The quads of one block are exactly its unoccluded faces, with their colours. */
  lemma {:induction false} FacesUpToMembers(s: Surroundings, l: IntVec3, defs: DefTable, lightingEnabled: bool, n: nat, m: MeshFace)
    requires n <= NUM_BLOCKFACES
    ensures m in FacesUpTo(s, l, defs, lightingEnabled, n) <==>
      m.blockIndex == GetBlockIndex(l.x, l.y, l.z) && m.face.Index() < n && !Occluded(s, l, m.face, defs)
      && m.color == FaceColor(s, l, m.face, lightingEnabled)
  {
    if n > 0 {
      FacesUpToMembers(s, l, defs, lightingEnabled, n - 1, m);
      var face := FaceFromIndex(n - 1).value;
      if m.face.Index() == n - 1 {
        assert FaceFromIndex(m.face.Index()).value == m.face by {
          if m.face != face {
            FacesDistinct(m.face, face);
          }
        }
      }
    }
  }

  /** What a quad of the block at the local position of `m`'s index must satisfy to be in the mesh. */
  predicate InMesh(s: Surroundings, defs: DefTable, lightingEnabled: bool, m: MeshFace) {
    var l := IndexToLocalCoords(m.blockIndex);
    InIndexRange(m.blockIndex)
    && Drawable(s, l, defs)
    && !Occluded(s, l, m.face, defs)
    && m.color == FaceColor(s, l, m.face, lightingEnabled)
  }

  /** The table entry at the packed index of `l` is the quads of the block at `l`. */
  lemma BlockEntry(s: Surroundings, defs: DefTable, lightingEnabled: bool, l: IntVec3)
    requires InChunk(l.x, l.y, l.z)
    ensures GetBlockIndex(l.x, l.y, l.z) < BLOCK_COUNT
    ensures QuadTable(s, defs, lightingEnabled)[GetBlockIndex(l.x, l.y, l.z)]
         == BlockQuads(s, l, defs, lightingEnabled)
  {
    IndexRoundTrip(l.x, l.y, l.z);
  }

  /** `t` lists, at the packed index of every position in the chunk, the quads of the block there. */
  ghost predicate ListsBlockQuads(s: Surroundings, defs: DefTable, lightingEnabled: bool, t: seq<seq<MeshFace>>) {
    |t| == BLOCK_COUNT &&
    forall x, y, z {:trigger BlockQuads(s, IntVec3(x, y, z), defs, lightingEnabled)} :: InChunk(x, y, z) ==>
      t[GetBlockIndex(x, y, z)] == BlockQuads(s, IntVec3(x, y, z), defs, lightingEnabled)
  }

  /** QuadTable lists every block's quads at its packed index. */
  lemma QuadTableListsBlockQuads(s: Surroundings, defs: DefTable, lightingEnabled: bool)
    ensures ListsBlockQuads(s, defs, lightingEnabled, QuadTable(s, defs, lightingEnabled))
  {
    forall x, y, z | InChunk(x, y, z)
      ensures QuadTable(s, defs, lightingEnabled)[GetBlockIndex(x, y, z)]
           == BlockQuads(s, IntVec3(x, y, z), defs, lightingEnabled)
    {
      BlockEntry(s, defs, lightingEnabled, IntVec3(x, y, z));
    }
  }

  /** The concatenation of entries 0 .. n-1 holds exactly what those entries hold. */
  lemma {:induction false} FlattenMembers(t: seq<seq<MeshFace>>, n: nat, m: MeshFace)
    requires n <= |t|
    ensures m in Flatten(t, n) <==> exists i :: 0 <= i < n && m in t[i]
  {
    if n > 0 {
      FlattenMembers(t, n - 1, m);
      if m in t[n - 1] {
        assert m in Flatten(t, n);
      }
    }
  }

  /**
   * A quad is in the chunk mesh exactly when its index is in range, the
   * block there is drawable, its face is not occluded, and its colour is the
   * one FaceColor gives.
   */
  lemma MeshMembers(s: Surroundings, defs: DefTable, lightingEnabled: bool, m: MeshFace)
    ensures m in MeshOf(s, defs, lightingEnabled) <==> InMesh(s, defs, lightingEnabled, m)
  {
    var t := QuadTable(s, defs, lightingEnabled);
    FlattenMembers(t, BLOCK_COUNT, m);
    if m in MeshOf(s, defs, lightingEnabled) {
      var i :| 0 <= i < BLOCK_COUNT && m in t[i];
      IndexDecomposition(i);
      FacesUpToMembers(s, IndexToLocalCoords(i), defs, lightingEnabled, FACE_COUNT, m);
    }
    if InMesh(s, defs, lightingEnabled, m) {
      var i := m.blockIndex;
      IndexDecomposition(i);
      FacesUpToMembers(s, IndexToLocalCoords(i), defs, lightingEnabled, FACE_COUNT, m);
      assert m in t[i];
    }
  }

  /** The top face of the top layer and the bottom face of the bottom layer are never occluded. */
  lemma WorldBoundsNeverOccluded(s: Surroundings, l: IntVec3, defs: DefTable)
    requires InChunk(l.x, l.y, l.z)
    ensures l.z == CHUNK_SIZE_Z - 1 ==> !Occluded(s, l, BLOCK_FACE_TOP, defs)
    ensures l.z == 0 ==> !Occluded(s, l, BLOCK_FACE_BOTTOM, defs)
  {
  }

  /**
   * A face towards an opaque block inside the same chunk is never part of
   * the mesh, whatever colour it would have.
   */
  lemma InteriorFacesHidden(s: Surroundings, l: IntVec3, face: BlockFace, defs: DefTable, lightingEnabled: bool, color: Rgba8)
    requires InChunk(l.x, l.y, l.z) && StaysInside(l, face)
    requires var m := l.Plus(face.Offset());
      var b := BlockAt(s.own, GetBlockIndex(m.x, m.y, m.z));
      b.Some? && KnownType(defs, b.value.blockType) && defs[b.value.blockType].isOpaque
    ensures MeshFace(GetBlockIndex(l.x, l.y, l.z), face, color) !in MeshOf(s, defs, lightingEnabled)
  {
    IndexRoundTrip(l.x, l.y, l.z);
    MeshMembers(s, defs, lightingEnabled, MeshFace(GetBlockIndex(l.x, l.y, l.z), face, color));
  }

  // ---------------------------------------------------------------------
  // The mesh build loops

  /**
   * One pass of the face loop: the quad for `face` of the iterator's block,
   * or nothing when the block one step towards that face is opaque.
   */
  method FaceQuad(blockIterator: BlockIterator, face: BlockFace, defs: DefTable, lightingEnabled: bool,
                  ghost s: Surroundings, ghost l: IntVec3)
    returns (q: seq<MeshFace>)
    requires blockIterator.chunk != null && s == SurroundingsOf(blockIterator.chunk)
    requires InChunk(l.x, l.y, l.z) && blockIterator.blockIndex == GetBlockIndex(l.x, l.y, l.z)
    ensures q == if Occluded(s, l, face, defs) then []
                 else [MeshFace(blockIterator.blockIndex, face, FaceColor(s, l, face, lightingEnabled))]
  {
    var neighbor := blockIterator.GetNeighbor(face);
    NeighborAgrees(blockIterator.chunk, l, face);
    if neighbor.IsValid() {
      var neighborBlock := neighbor.GetBlock();
      if neighborBlock.Some? {
        var neighborDef := DefOf(defs, neighborBlock.value.blockType);
        if neighborDef.Some? && neighborDef.value.isOpaque {
          return [];
        }
      }
    }
    var colorTint := FaceTint(face);
    var neighborBlock := neighbor.GetBlock();
    var outdoorLight: bv8 := 0;
    var indoorLight: bv8 := 0;
    if neighborBlock.Some? {
      outdoorLight := neighborBlock.value.GetOutdoorLight();
      indoorLight := neighborBlock.value.GetIndoorLight();
    }
    var vertexColor := Rgba8(LightChannel(outdoorLight), LightChannel(indoorLight), colorTint.b, 255);
    if !lightingEnabled {
      vertexColor := colorTint;
    }
    q := [MeshFace(blockIterator.blockIndex, face, vertexColor)];
  }

  /** The face loop of GenerateChunkMesh for the block at `l`, which the caller has found drawable. */
  method AppendBlockFaces(quads: seq<MeshFace>, c: Chunk, l: IntVec3, defs: DefTable, lightingEnabled: bool,
                          ghost s: Surroundings)
    returns (out: seq<MeshFace>)
    requires InChunk(l.x, l.y, l.z) && s == SurroundingsOf(c)
    ensures out == quads + FacesUpTo(s, l, defs, lightingEnabled, FACE_COUNT)
  {
    out := quads;
    var blockIndex := GetBlockIndex(l.x, l.y, l.z);
    var blockIterator := BlockIterator(c, blockIndex);
    var blockFace := 0;
    while blockFace < NUM_BLOCKFACES
      invariant 0 <= blockFace <= NUM_BLOCKFACES
      invariant s == SurroundingsOf(c)
      invariant out == quads + FacesUpTo(s, l, defs, lightingEnabled, blockFace)
    {
      var face := FaceFromIndex(blockFace).value;
      var q := FaceQuad(blockIterator, face, defs, lightingEnabled, s, l);
      out := out + q;
      blockFace := blockFace + 1;
    }
  }

  /** The body of the x loop: a block without a visible definition is skipped. */
  method AppendBlockQuads(quads: seq<MeshFace>, c: Chunk, l: IntVec3, defs: DefTable, lightingEnabled: bool,
                          ghost s: Surroundings)
    returns (out: seq<MeshFace>)
    requires c.Sized() && InChunk(l.x, l.y, l.z) && s == SurroundingsOf(c)
    ensures out == quads + BlockQuads(s, l, defs, lightingEnabled)
  {
    var blockIndex := GetBlockIndex(l.x, l.y, l.z);
    IndexRoundTrip(l.x, l.y, l.z);
    var block := c.blocks[blockIndex];
    var blockDef := DefOf(defs, block.blockType);
    if blockDef.None? || !blockDef.value.isVisible {
      return quads;
    }
    out := AppendBlockFaces(quads, c, l, defs, lightingEnabled, s);
  }

  /** The x loop of GenerateChunkMesh: the 32 blocks of row `chunkY` of layer `chunkZ`. */
  method AppendRowQuads(quads: seq<MeshFace>, c: Chunk, chunkY: int, chunkZ: int, defs: DefTable, lightingEnabled: bool,
                        ghost s: Surroundings, ghost t: seq<seq<MeshFace>>)
    returns (out: seq<MeshFace>)
    requires c.Sized() && 0 <= chunkY < CHUNK_SIZE_Y && 0 <= chunkZ < CHUNK_SIZE_Z && s == SurroundingsOf(c)
    requires ListsBlockQuads(s, defs, lightingEnabled, t)
    requires quads == Flatten(t, GetBlockIndex(0, chunkY, chunkZ))
    ensures out == Flatten(t, GetBlockIndex(0, chunkY + 1, chunkZ))
  {
    out := quads;
    var chunkX := 0;
    while chunkX < CHUNK_SIZE_X
      invariant 0 <= chunkX <= CHUNK_SIZE_X
      invariant s == SurroundingsOf(c)
      invariant out == Flatten(t, GetBlockIndex(chunkX, chunkY, chunkZ))
    {
      var l := IntVec3(chunkX, chunkY, chunkZ);
      out := AppendBlockQuads(out, c, l, defs, lightingEnabled, s);
      chunkX := chunkX + 1;
    }
  }

  /** The y loop of GenerateChunkMesh: the 32 rows of layer `chunkZ`. */
  method AppendLayerQuads(quads: seq<MeshFace>, c: Chunk, chunkZ: int, defs: DefTable, lightingEnabled: bool,
                          ghost s: Surroundings, ghost t: seq<seq<MeshFace>>)
    returns (out: seq<MeshFace>)
    requires c.Sized() && 0 <= chunkZ < CHUNK_SIZE_Z && s == SurroundingsOf(c)
    requires ListsBlockQuads(s, defs, lightingEnabled, t)
    requires quads == Flatten(t, GetBlockIndex(0, 0, chunkZ))
    ensures out == Flatten(t, GetBlockIndex(0, 0, chunkZ + 1))
  {
    out := quads;
    var chunkY := 0;
    while chunkY < CHUNK_SIZE_Y
      invariant 0 <= chunkY <= CHUNK_SIZE_Y
      invariant s == SurroundingsOf(c)
      invariant out == Flatten(t, GetBlockIndex(0, chunkY, chunkZ))
    {
      out := AppendRowQuads(out, c, chunkY, chunkZ, defs, lightingEnabled, s, t);
      chunkY := chunkY + 1;
    }
  }

  /**
   * The z loop of GenerateChunkMesh: layer by layer, row by row, block by
   * block, the order of ascending block index.
   */
  method BuildChunkMesh(c: Chunk, defs: DefTable, lightingEnabled: bool, ghost s: Surroundings, ghost t: seq<seq<MeshFace>>)
    returns (quads: seq<MeshFace>)
    requires c.Sized() && s == SurroundingsOf(c) && ListsBlockQuads(s, defs, lightingEnabled, t)
    ensures quads == Flatten(t, BLOCK_COUNT)
  {
    quads := [];
    var chunkZ := 0;
    while chunkZ < CHUNK_SIZE_Z
      invariant 0 <= chunkZ <= CHUNK_SIZE_Z
      invariant s == SurroundingsOf(c)
      invariant quads == Flatten(t, GetBlockIndex(0, 0, chunkZ))
    {
      quads := AppendLayerQuads(quads, c, chunkZ, defs, lightingEnabled, s, t);
      chunkZ := chunkZ + 1;
    }
  }

  /** GenerateChunkMesh: replaces the chunk's quads with a fresh build. */
  method GenerateChunkMesh(c: Chunk, defs: DefTable, lightingEnabled: bool)
    requires c.Sized()
    modifies c`mesh
    ensures c.mesh == MeshOf(old(SurroundingsOf(c)), defs, lightingEnabled)
  {
    ghost var s := SurroundingsOf(c);
    QuadTableListsBlockQuads(s, defs, lightingEnabled);
    c.mesh := BuildChunkMesh(c, defs, lightingEnabled, s, QuadTable(s, defs, lightingEnabled));
  }
}
