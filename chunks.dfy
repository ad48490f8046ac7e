/**
 * The chunk object (Game/Chunk.hpp): a 32 x 32 x 128 block array that the
 * world, the lighting pass and the generator update in place, the four
 * neighbour pointers the world links up, the dirty flags and the life-cycle
 * state. The block array is allocated once by the constructor and never
 * replaced, so it is a constant field; everything else is mutable.
 */
module Chunks {
  import opened GameCommon
  import opened Blocks

  /** A vertex colour; only the channels the mesher chooses are kept. */
  datatype Rgba8 = Rgba8(r: byte, g: byte, b: byte, a: byte)

  /**
   * One quad of a chunk mesh: which block, which of its faces and the vertex
   * colour. Positions and sprite coordinates are not modelled.
   */
  datatype MeshFace = MeshFace(blockIndex: int, face: BlockFace, color: Rgba8)

  class Chunk {
    const chunkCoords: IntVec2
    const blocks: array<Block>
    var isMeshDirty: bool
    var needsSaving: bool
    var northNeighbor: Chunk?
    var southNeighbor: Chunk?
    var eastNeighbor: Chunk?
    var westNeighbor: Chunk?
    /** An atomic in the source; each store is one step here. */
    var chunkState: ChunkState
    /** The quads of the last mesh build. */
    var mesh: seq<MeshFace>

    /** A fresh chunk: all blocks default (air, unlit, no flags), no links, clean. */
    constructor(coords: IntVec2)
      ensures chunkCoords == coords
      ensures fresh(blocks) && blocks.Length == CHUNK_BLOCK_TOTAL
      ensures forall i :: 0 <= i < blocks.Length ==> blocks[i] == EMPTY_BLOCK
      ensures !isMeshDirty && !needsSaving
      ensures Unlinked()
      ensures chunkState == CONSTRUCTING && mesh == []
    {
      chunkCoords := coords;
      blocks := new Block[CHUNK_BLOCK_TOTAL](_ => EMPTY_BLOCK);
      isMeshDirty := false;
      needsSaving := false;
      northNeighbor := null;
      southNeighbor := null;
      eastNeighbor := null;
      westNeighbor := null;
      chunkState := CONSTRUCTING;
      mesh := [];
    }

    /** The block array has the fixed chunk size (the constructor's allocation). */
    predicate Sized() {
      blocks.Length == CHUNK_BLOCK_TOTAL
    }

    predicate Unlinked()
      reads this`northNeighbor, this`southNeighbor, this`eastNeighbor, this`westNeighbor
    {
      northNeighbor == null && southNeighbor == null && eastNeighbor == null && westNeighbor == null
    }

    /** All four neighbour pointers are set; the mesher waits for this. */
    predicate HasAllNeighbors()
      reads this`northNeighbor, this`southNeighbor, this`eastNeighbor, this`westNeighbor
    {
      northNeighbor != null && southNeighbor != null && eastNeighbor != null && westNeighbor != null
    }

    /** This chunk and the chunks its neighbour pointers reach. */
    function Around(): (s: set<Chunk>)
      reads this
      ensures this in s
      ensures northNeighbor != null ==> northNeighbor in s
      ensures southNeighbor != null ==> southNeighbor in s
      ensures eastNeighbor != null ==> eastNeighbor in s
      ensures westNeighbor != null ==> westNeighbor in s
      ensures forall c :: c in s ==>
        (c == this || c == northNeighbor || c == southNeighbor || c == eastNeighbor || c == westNeighbor)
    {
      {this}
      + (if northNeighbor == null then {} else {northNeighbor})
      + (if southNeighbor == null then {} else {southNeighbor})
      + (if eastNeighbor == null then {} else {eastNeighbor})
      + (if westNeighbor == null then {} else {westNeighbor})
    }

    /** The objects a query around one block of this chunk may read. */
    function AroundFrame(): set<object>
      reads this
    {
      Around() + set c | c in Around() :: c.blocks
    }
  }
}
