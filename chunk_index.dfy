/**
 * Voxel grid coding of a 32 x 32 x 128 chunk (Game/Chunk.cpp:1099-1211):
 * packing local coordinates into one block index and back, and splitting
 * global block coordinates into chunk coordinates and local coordinates.
 *
 * The source works on 32-bit two's-complement ints with shifts and masks.
 * Here `v << k` is `v * 2^k`, the arithmetic shift `v >> k` is floor division
 * `v / 2^k` and the mask `v & (2^k - 1)` is the non-negative remainder
 * `v % 2^k`; Dafny's `/` and `%` by a positive divisor are exactly floor
 * division and the non-negative remainder, so the equalities hold for
 * negative values too.
 */
module ChunkIndex {
  import opened GameCommon

  const BLOCKS_PER_LAYER := CHUNK_SIZE_X * CHUNK_SIZE_Y

  predicate InChunk(x: int, y: int, z: int) {
    0 <= x < CHUNK_SIZE_X && 0 <= y < CHUNK_SIZE_Y && 0 <= z < CHUNK_SIZE_Z
  }

  predicate InIndexRange(i: int) {
    0 <= i < CHUNK_BLOCK_TOTAL
  }

  /** `x + (y << 5) + (z << 10)`: x varies fastest, then y, then z. */
  function GetBlockIndex(x: int, y: int, z: int): int {
    x + y * CHUNK_SIZE_X + z * BLOCKS_PER_LAYER
  }

  /** `i & CHUNK_MASK_X` */
  function IndexToLocalX(i: int): (x: int)
    ensures 0 <= x < CHUNK_SIZE_X
  {
    i % CHUNK_SIZE_X
  }

  /** `(i >> CHUNK_BITS_X) & CHUNK_MASK_Y` */
  function IndexToLocalY(i: int): (y: int)
    ensures 0 <= y < CHUNK_SIZE_Y
  {
    (i / CHUNK_SIZE_X) % CHUNK_SIZE_Y
  }

  /** `i >> (CHUNK_BITS_X + CHUNK_BITS_Y)`; unmasked, so it is in range only for in-range indices. */
  function IndexToLocalZ(i: int): (z: int)
    ensures InIndexRange(i) ==> 0 <= z < CHUNK_SIZE_Z
  {
    i / BLOCKS_PER_LAYER
  }

  function IndexToLocalCoords(i: int): IntVec3 {
    IntVec3(IndexToLocalX(i), IndexToLocalY(i), IndexToLocalZ(i))
  }

  /** Each global coordinate masked to its chunk-local range. */
  function GlobalCoordsToLocalCoords(g: IntVec3): (l: IntVec3)
    ensures InChunk(l.x, l.y, l.z)
  {
    IntVec3(g.x % CHUNK_SIZE_X, g.y % CHUNK_SIZE_Y, g.z % CHUNK_SIZE_Z)
  }

  /**
   * `(lz << 10) | (ly << 5) | lx` of the masked coordinates; the three bit
   * fields are disjoint, so `|` is `+` (OrPackingIsSum).
   */
  function GlobalCoordsToIndex(g: IntVec3): (i: int)
    ensures InIndexRange(i)
  {
    var l := GlobalCoordsToLocalCoords(g);
    GetBlockIndex(l.x, l.y, l.z)
  }

  /** `chunkCoords * size + local` on x and y; z is the local z. */
  function IndexToGlobalCoords(chunkCoords: IntVec2, i: int): IntVec3 {
    IntVec3(chunkCoords.x * CHUNK_SIZE_X + IndexToLocalX(i),
            chunkCoords.y * CHUNK_SIZE_Y + IndexToLocalY(i),
            IndexToLocalZ(i))
  }

  /** `g >> CHUNK_BITS` on x and y: floor division, so -1 lies in chunk -1. */
  function GetChunkCoords(g: IntVec3): IntVec2 {
    IntVec2(g.x / CHUNK_SIZE_X, g.y / CHUNK_SIZE_Y)
  }

  /** `(c << CHUNK_BITS) + (CHUNK_SIZE >> 1)` */
  function GetChunkCenter(c: IntVec2): IntVec2 {
    IntVec2(c.x * CHUNK_SIZE_X + CHUNK_SIZE_X / 2, c.y * CHUNK_SIZE_Y + CHUNK_SIZE_Y / 2)
  }

  /**
   * The index GetBlockAtLocalCoords dereferences: the packed index when it
   * lies inside the block array, else nothing (a null block pointer).
   */
  function BlockIndexAtLocalCoords(x: int, y: int, z: int): (r: Option<int>)
    ensures r.Some? ==> InIndexRange(r.value)
    ensures InChunk(x, y, z) ==> r == Some(GetBlockIndex(x, y, z))
    ensures z < 0 || z >= CHUNK_SIZE_Z ==> (0 <= x < CHUNK_SIZE_X && 0 <= y < CHUNK_SIZE_Y ==> r.None?)
  {
    var i := GetBlockIndex(x, y, z);
    if 0 <= i < CHUNK_BLOCK_TOTAL then Some(i) else None
  }

  /** In-range coordinates pack to an in-range index. */
  lemma IndexInRange(x: int, y: int, z: int)
    requires InChunk(x, y, z)
    ensures InIndexRange(GetBlockIndex(x, y, z))
  {
  }

  // ---------------------------------------------------------------------
  // Round trips

  /** Packing in-range local coordinates gives an in-range index that unpacks to them. */
  lemma IndexRoundTrip(x: int, y: int, z: int)
    requires InChunk(x, y, z)
    ensures InIndexRange(GetBlockIndex(x, y, z))
    ensures IndexToLocalCoords(GetBlockIndex(x, y, z)) == IntVec3(x, y, z)
  {
    var i := GetBlockIndex(x, y, z);
    assert i == x + 32 * (y + 32 * z);
    DivMod32(x, y + 32 * z);
    assert i / 32 == y + 32 * z;
    DivMod32(y, z);
    DivMod1024(x + 32 * y, z);
  }

  /** Every in-range index unpacks to in-range coordinates that pack back to it. */
  lemma IndexDecomposition(i: int)
    requires InIndexRange(i)
    ensures InChunk(IndexToLocalX(i), IndexToLocalY(i), IndexToLocalZ(i))
    ensures GetBlockIndex(IndexToLocalX(i), IndexToLocalY(i), IndexToLocalZ(i)) == i
  {
    var q := i / 32;
    assert i == IndexToLocalX(i) + 32 * q;
    assert q == IndexToLocalY(i) + 32 * (q / 32);
    assert q / 32 == i / 1024;
  }

  /** Global coordinates of an in-range index, converted back, give the index. */
  lemma GlobalIndexRoundTrip(chunkCoords: IntVec2, i: int)
    requires InIndexRange(i)
    ensures GlobalCoordsToIndex(IndexToGlobalCoords(chunkCoords, i)) == i
    ensures GetChunkCoords(IndexToGlobalCoords(chunkCoords, i)) == chunkCoords
  {
    IndexDecomposition(i);
    var g := IndexToGlobalCoords(chunkCoords, i);
    DivMod32(IndexToLocalX(i), chunkCoords.x);
    DivMod32(IndexToLocalY(i), chunkCoords.y);
    assert GlobalCoordsToLocalCoords(g) == IndexToLocalCoords(i);
  }

  /** Any global coordinate, negative ones included, is chunk * size + local on x and y. */
  lemma ChunkLocalSplit(g: IntVec3)
    ensures GetChunkCoords(g).x * CHUNK_SIZE_X + GlobalCoordsToLocalCoords(g).x == g.x
    ensures GetChunkCoords(g).y * CHUNK_SIZE_Y + GlobalCoordsToLocalCoords(g).y == g.y
    ensures 0 <= g.z < CHUNK_SIZE_Z ==> GlobalCoordsToLocalCoords(g).z == g.z
  {
  }

  /** A global block in the height range is found again from its chunk and index. */
  lemma GlobalCoordsRoundTrip(g: IntVec3)
    requires 0 <= g.z < CHUNK_SIZE_Z
    ensures IndexToGlobalCoords(GetChunkCoords(g), GlobalCoordsToIndex(g)) == g
  {
    var l := GlobalCoordsToLocalCoords(g);
    IndexRoundTrip(l.x, l.y, l.z);
    ChunkLocalSplit(g);
  }

  /** Masking z sends a height one chunk above the top to the floor of the same column. */
  lemma WrappedEditIndex(g: IntVec3)
    requires g.z == CHUNK_SIZE_Z
    ensures GlobalCoordsToIndex(g) == GlobalCoordsToIndex(IntVec3(g.x, g.y, 0))
    ensures GlobalCoordsToLocalCoords(g).z == 0
  {
  }

  /** The chunk centre lies inside the chunk. */
  lemma CenterInsideChunk(c: IntVec2)
    ensures GetChunkCoords(IntVec3(GetChunkCenter(c).x, GetChunkCenter(c).y, 0)) == c
  {
    DivMod32(16, c.x);
    DivMod32(16, c.y);
  }

  /** Floor division and remainder of `r + 32 * q` for `r` in [0, 32). */
  lemma DivMod32(r: int, q: int)
    requires 0 <= r < 32
    ensures (r + 32 * q) / 32 == q && (r + 32 * q) % 32 == r
  {
  }

  /** Floor division and remainder of `r + 1024 * q` for `r` in [0, 1024). */
  lemma DivMod1024(r: int, q: int)
    requires 0 <= r < 1024
    ensures (r + 1024 * q) / 1024 == q && (r + 1024 * q) % 1024 == r
  {
  }

  // ---------------------------------------------------------------------
  // The bit-level reading of the arithmetic above, on 32-bit words

  /** Packing with `|` equals packing with `+`, since the fields do not overlap. */
  lemma OrPackingIsSum(x: bv32, y: bv32, z: bv32)
    requires x < 32 && y < 32 && z < 128
    ensures (z << 10) | (y << 5) | x == x + (y << 5) + (z << 10)
    ensures (x + (y << 5) + (z << 10)) as int == GetBlockIndex(x as int, y as int, z as int)
  {
  }
}
