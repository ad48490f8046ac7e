/**
 * Terrain generation of one chunk (Game/Chunk.cpp:64-363, 414-467): the
 * top-down fill of every column, tree selection on the surface, and the
 * stamping of a tree into the chunk's blocks.
 *
 * The noise and the float density arithmetic are abstracted: each voxel comes
 * with the outcome of the density test (is the density below zero?), whether
 * one of the cave carvers fires there (folding in the per-chunk cave switch),
 * and its four ore samples; each column comes with its biome samples and its
 * two tree samples. Everything the source decides from those is modelled.
 */
module Terrain {
  import opened GameCommon
  import opened Blocks
  import opened ChunkIndex
  import opened Chunks
  import opened Biomes
  import opened TreeStamps

  // ---------------------------------------------------------------------
  // Abstract noise

  /** The noise outcomes of one voxel. */
  datatype VoxelSample = VoxelSample(denseBelowZero: bool, caveCarves: bool, ore: OreNoise)

  /** The noise of one column: biome samples, one sample per height, tree samples. */
  datatype ColumnSamples = ColumnSamples(biome: BiomeParams, voxels: seq<VoxelSample>, treeNoise: real, treeVariant: real)

  predicate ColumnFits(col: ColumnSamples) {
    |col.voxels| == CHUNK_SIZE_Z
  }

  /** The column height as a count; an alias so that recursions over it are not unrolled. */
  const COLUMN_HEIGHT: nat := CHUNK_SIZE_Z

  // ---------------------------------------------------------------------
  // The rule for one voxel

  /** The two counters carried down a column: depth into the current solid run, and the surface height (-1 before it is found). */
  datatype FillState = FillState(depth: int, surfaceZ: int)

  const NO_SURFACE := -1
  const START := FillState(0, NO_SURFACE)

  /** Caves are carved only strictly below the surface found so far. */
  predicate IsCave(st: FillState, z: int, v: VoxelSample) {
    v.caveCarves && st.surfaceZ != NO_SURFACE && z < st.surfaceZ
  }

  /** A carved voxel is forced to positive density. */
  predicate IsDense(st: FillState, z: int, v: VoxelSample) {
    v.denseBelowZero && !IsCave(st, z, v)
  }

  /** The counters after voxel `z`. */
  function NextState(st: FillState, z: int, v: VoxelSample): (r: FillState)
    requires 0 <= z < CHUNK_SIZE_Z
    ensures IsDense(st, z, v) ==> r.surfaceZ != NO_SURFACE
    ensures st.surfaceZ != NO_SURFACE ==> r.surfaceZ == st.surfaceZ
  {
    if IsDense(st, z, v) then
      FillState(if st.depth < SURFACE_LAYER_DEPTH then st.depth + 1 else st.depth,
                if st.surfaceZ == NO_SURFACE then z else st.surfaceZ)
    else FillState(0, st.surfaceZ)
  }

  /**
   * The type voxel `z` is given, or None when the source leaves it alone (a
   * cave voxel below sea level that already holds water).
   */
  function VoxelType(st: FillState, z: int, v: VoxelSample, biome: BiomeType, prior: byte): (r: Option<byte>)
    requires st.depth >= 0
    ensures IsDense(st, z, v) ==> r.Some? && r.value != BLOCKTYPE_AIR && r.value != BLOCKTYPE_WATER
    ensures !IsDense(st, z, v) ==> r in {Some(BLOCKTYPE_AIR), Some(BLOCKTYPE_WATER), None}
    ensures r == None <==> !IsDense(st, z, v) && IsCave(st, z, v) && z < SEA_LEVEL && prior == BLOCKTYPE_WATER
    ensures r == Some(BLOCKTYPE_WATER) ==> z < SEA_LEVEL
    ensures r.Some? ==> r.value < BLOCKTYPE_NUM
  {
    var surface := GetSurfaceBlocks(biome);
    SurfaceBlocksAreGround(biome);
    if IsDense(st, z, v) then
      if st.depth < SURFACE_LAYER_DEPTH then
        if z >= SEA_LEVEL then
          Some(if st.depth == 0 then surface.top else surface.sub)
        else Some(surface.underwater)
      else if z == OBSIDIAN_Z then Some(BLOCKTYPE_OBSIDIAN)
      else if z == LAVA_Z then Some(BLOCKTYPE_LAVA)
      else Some(OreChance(z, v.ore))
    else if z < SEA_LEVEL then
      if !IsCave(st, z, v) then Some(BLOCKTYPE_WATER)
      else if prior != BLOCKTYPE_WATER then Some(BLOCKTYPE_AIR)
      else None
    else Some(BLOCKTYPE_AIR)
  }

  // ---------------------------------------------------------------------
  // A column, from the top down

  /** The counters after the top `n` voxels of a column (heights 127 down to 128 - n). */
  function StateAfter(col: ColumnSamples, n: nat): (st: FillState)
    requires ColumnFits(col) && n <= CHUNK_SIZE_Z
    ensures 0 <= st.depth <= SURFACE_LAYER_DEPTH
    ensures st.surfaceZ == NO_SURFACE || CHUNK_SIZE_Z - n <= st.surfaceZ < CHUNK_SIZE_Z
    ensures st.surfaceZ == NO_SURFACE ==> st.depth == 0
  {
    if n == 0 then START
    else
      var z := CHUNK_SIZE_Z - n;
      NextState(StateAfter(col, n - 1), z, col.voxels[z])
  }

  /**
   * The surface is the highest voxel whose density test passes: none of the
   * voxels above it is dense, and no cave can be carved before a surface exists.
   */
  lemma {:induction false} SurfaceIsTopmostDense(col: ColumnSamples, n: nat)
    requires ColumnFits(col) && n <= CHUNK_SIZE_Z
    ensures var s := StateAfter(col, n).surfaceZ;
      && (s == NO_SURFACE <==> forall z :: CHUNK_SIZE_Z - n <= z < CHUNK_SIZE_Z ==> !col.voxels[z].denseBelowZero)
      && (s != NO_SURFACE ==> col.voxels[s].denseBelowZero)
      && (s != NO_SURFACE ==> forall z :: s < z < CHUNK_SIZE_Z ==> !col.voxels[z].denseBelowZero)
  {
    if n > 0 {
      SurfaceIsTopmostDense(col, n - 1);
    }
  }

  /** Above the surface a column holds water up to sea level and air from there up. */
  lemma AboveSurfaceIsFluid(col: ColumnSamples, z: int, biome: BiomeType, prior: byte)
    requires ColumnFits(col) && 0 <= z < CHUNK_SIZE_Z
    requires StateAfter(col, COLUMN_HEIGHT).surfaceZ < z
    ensures VoxelType(StateAfter(col, CHUNK_SIZE_Z - 1 - z), z, col.voxels[z], biome, prior)
         == Some(if z < SEA_LEVEL then BLOCKTYPE_WATER else BLOCKTYPE_AIR)
  {
    SurfaceIsTopmostDense(col, COLUMN_HEIGHT);
    SurfaceIsTopmostDense(col, CHUNK_SIZE_Z - 1 - z);
  }

  /** The surface voxel gets the biome's top block, or its underwater block below sea level. */
  lemma SurfaceVoxelType(col: ColumnSamples, biome: BiomeType, prior: byte)
    requires ColumnFits(col)
    requires StateAfter(col, COLUMN_HEIGHT).surfaceZ != NO_SURFACE
    ensures var s := StateAfter(col, COLUMN_HEIGHT).surfaceZ;
      var surface := GetSurfaceBlocks(biome);
      VoxelType(StateAfter(col, CHUNK_SIZE_Z - 1 - s), s, col.voxels[s], biome, prior)
        == Some(if s >= SEA_LEVEL then surface.top else surface.underwater)
  {
    var s := StateAfter(col, COLUMN_HEIGHT).surfaceZ;
    SurfaceIsTopmostDense(col, COLUMN_HEIGHT);
    SurfaceIsTopmostDense(col, CHUNK_SIZE_Z - 1 - s);
  }

  // ---------------------------------------------------------------------
  // Tree selection

  /** Tree noise above this threshold marks a tree site. */
  const TREE_THRESHOLD: real := 0.975

  /**
   * The species a biome grows on a given surface block: forest oaks and birches
   * on grass or dirt (split by the variant sample), spruces on light grass in
   * taiga, snowy spruces on snow, cacti on sand in desert, acacias on yellow
   * grass in savanna, jungle trees on dark grass; nothing elsewhere.
   */
  function ChooseTree(biome: BiomeType, surfaceType: byte, variant: real): (r: Option<TreeSpecies>)
    ensures r.Some? ==> !IsOceanic(biome) && surfaceType != BLOCKTYPE_WATER && surfaceType != BLOCKTYPE_AIR
    ensures r == Some(Cactus) <==> biome == BIOME_DESERT && surfaceType == BLOCKTYPE_SAND
    ensures r.Some? && r.value in {OakSmall, OakLarge, Birch} <==>
      biome == BIOME_FOREST && (surfaceType == BLOCKTYPE_GRASS || surfaceType == BLOCKTYPE_DIRT)
  {
    match biome
    case BIOME_FOREST =>
      if surfaceType == BLOCKTYPE_GRASS || surfaceType == BLOCKTYPE_DIRT then
        if variant < 0.33 then Some(OakSmall)
        else if variant < 0.66 then Some(OakLarge)
        else Some(Birch)
      else None
    case BIOME_TAIGA => if surfaceType == BLOCKTYPE_GRASSLIGHT then Some(Spruce) else None
    case BIOME_SNOWY_TAIGA => if surfaceType == BLOCKTYPE_SNOW then Some(SnowySpruce) else None
    case BIOME_DESERT => if surfaceType == BLOCKTYPE_SAND then Some(Cactus) else None
    case BIOME_SAVANNA => if surfaceType == BLOCKTYPE_GRASSYELLOW then Some(Acacia) else None
    case BIOME_JUNGLE => if surfaceType == BLOCKTYPE_GRASSDARK then Some(Jungle) else None
    case _ => None
  }

  // ---------------------------------------------------------------------
  // Where a stamp block lands

  /** The chunk a stamp block lands in, relative to the stamping chunk, and its local position there. */
  datatype StampTarget = StampTarget(chunkOffset: IntVec2, local: IntVec3)

  /** Wraps a coordinate at most once into the neighbouring chunk: (chunk step, wrapped coordinate). */
  function WrapOnce(p: int, size: int): (int, int) {
    if p < 0 then (-1, p + size)
    else if p >= size then (1, p - size)
    else (0, p)
  }

  /**
   * The target of the stamp block at `offset` for a tree rooted at local
   * (lx, ly, lz): x and y wrap once into the adjacent chunk, and a height
   * outside the world skips the block.
   */
  function TargetOf(lx: int, ly: int, lz: int, offset: IntVec3): (t: Option<StampTarget>)
    ensures t.None? <==> !(0 <= lz + offset.z < CHUNK_SIZE_Z)
    ensures t.Some? ==>
      && t.value.chunkOffset.x * CHUNK_SIZE_X + t.value.local.x == lx + offset.x
      && t.value.chunkOffset.y * CHUNK_SIZE_Y + t.value.local.y == ly + offset.y
      && t.value.local.z == lz + offset.z
      && -1 <= t.value.chunkOffset.x <= 1 && -1 <= t.value.chunkOffset.y <= 1
    ensures t.Some? && -CHUNK_SIZE_X <= lx + offset.x < 2 * CHUNK_SIZE_X && -CHUNK_SIZE_Y <= ly + offset.y < 2 * CHUNK_SIZE_Y
      ==> InChunk(t.value.local.x, t.value.local.y, t.value.local.z)
    ensures t.Some? && 0 <= lx + offset.x < CHUNK_SIZE_X && 0 <= ly + offset.y < CHUNK_SIZE_Y
      ==> t.value.chunkOffset == IntVec2(0, 0)
  {
    var (dx, tx) := WrapOnce(lx + offset.x, CHUNK_SIZE_X);
    var (dy, ty) := WrapOnce(ly + offset.y, CHUNK_SIZE_Y);
    var tz := lz + offset.z;
    if tz < 0 || tz >= CHUNK_SIZE_Z then None
    else Some(StampTarget(IntVec2(dx, dy), IntVec3(tx, ty, tz)))
  }

  /** One stamp block's effect on one cell: it overwrites the cell it targets while that is still air. */
  function PlaceStep(prev: Block, sb: StampBlock, lx: int, ly: int, lz: int,
                     chunkOffset: IntVec2, i: int, defs: DefTable): Block
    requires KnownType(defs, sb.blockType)
  {
    var t := TargetOf(lx, ly, lz, sb.offset);
    if t.Some? && t.value.chunkOffset == chunkOffset
       && GetBlockIndex(t.value.local.x, t.value.local.y, t.value.local.z) == i
       && prev.blockType == BLOCKTYPE_AIR
    then prev.SetBlockType(sb.blockType, defs)
    else prev
  }

  /**
   * One cell after the first `n` blocks of a stamp, for the cell at index `i`
   * of the chunk at `chunkOffset` from the stamping chunk.
   */
  function CellAfter(b: Block, blocks: seq<StampBlock>, n: nat, lx: int, ly: int, lz: int,
                     chunkOffset: IntVec2, i: int, defs: DefTable): Block
    requires n <= |blocks|
    requires forall k :: 0 <= k < |blocks| ==> KnownType(defs, blocks[k].blockType)
  {
    if n == 0 then b
    else PlaceStep(CellAfter(b, blocks, n - 1, lx, ly, lz, chunkOffset, i, defs), blocks[n - 1], lx, ly, lz, chunkOffset, i, defs)
  }

  /** A cell either keeps its block, or was air and now holds the type of one of the stamp's blocks. */
  lemma {:induction false} CellAfterOnlyFillsAir(b: Block, blocks: seq<StampBlock>, n: nat, lx: int, ly: int, lz: int,
                                                 chunkOffset: IntVec2, i: int, defs: DefTable)
    requires n <= |blocks|
    requires forall k :: 0 <= k < |blocks| ==> KnownType(defs, blocks[k].blockType)
    ensures var r := CellAfter(b, blocks, n, lx, ly, lz, chunkOffset, i, defs);
      r == b || (b.blockType == BLOCKTYPE_AIR && exists k :: 0 <= k < n && r.blockType == blocks[k].blockType)
  {
    if n > 0 {
      CellAfterOnlyFillsAir(b, blocks, n - 1, lx, ly, lz, chunkOffset, i, defs);
    }
  }

  /**
   * With stamp blocks of non-air types, every cell a block targets that was
   * air ends up filled by the stamp.
   */
  lemma {:induction false} StampFillsAirCells(b: Block, blocks: seq<StampBlock>, n: nat, lx: int, ly: int, lz: int,
                                              chunkOffset: IntVec2, defs: DefTable, k: nat)
    requires n <= |blocks| && k < n
    requires forall j :: 0 <= j < |blocks| ==> KnownType(defs, blocks[j].blockType) && blocks[j].blockType != BLOCKTYPE_AIR
    requires b.blockType == BLOCKTYPE_AIR
    requires var t := TargetOf(lx, ly, lz, blocks[k].offset); t.Some? && t.value.chunkOffset == chunkOffset
    ensures var t := TargetOf(lx, ly, lz, blocks[k].offset).value;
      CellAfter(b, blocks, n, lx, ly, lz, chunkOffset, GetBlockIndex(t.local.x, t.local.y, t.local.z), defs).blockType
        != BLOCKTYPE_AIR
  {
    var t := TargetOf(lx, ly, lz, blocks[k].offset).value;
    var i := GetBlockIndex(t.local.x, t.local.y, t.local.z);
    if k < n - 1 {
      StampFillsAirCells(b, blocks, n - 1, lx, ly, lz, chunkOffset, defs, k);
    }
  }

  /**
   * A stamp whose blocks all fall inside the stamping chunk's columns never
   * changes a cell of any other chunk.
   */
  lemma {:induction false} StampStaysHome(b: Block, blocks: seq<StampBlock>, n: nat, lx: int, ly: int, lz: int,
                                          chunkOffset: IntVec2, i: int, defs: DefTable)
    requires n <= |blocks|
    requires forall k :: 0 <= k < |blocks| ==> KnownType(defs, blocks[k].blockType)
    requires forall k :: 0 <= k < |blocks| ==>
      0 <= lx + blocks[k].offset.x < CHUNK_SIZE_X && 0 <= ly + blocks[k].offset.y < CHUNK_SIZE_Y
    requires chunkOffset != IntVec2(0, 0)
    ensures CellAfter(b, blocks, n, lx, ly, lz, chunkOffset, i, defs) == b
  {
    if n > 0 {
      StampStaysHome(b, blocks, n - 1, lx, ly, lz, chunkOffset, i, defs);
    }
  }

  // ---------------------------------------------------------------------
  // Stamping into the chunks of a lookup table

  predicate StampTypesKnown(blocks: seq<StampBlock>, defs: DefTable) {
    forall k :: 0 <= k < |blocks| ==> KnownType(defs, blocks[k].blockType)
  }

  /** Every block lands at most one chunk away in x and y, so a single wrap finds its cell. */
  predicate WithinOneChunk(blocks: seq<StampBlock>, lx: int, ly: int) {
    forall k :: 0 <= k < |blocks| ==>
      && -CHUNK_SIZE_X <= lx + blocks[k].offset.x < 2 * CHUNK_SIZE_X
      && -CHUNK_SIZE_Y <= ly + blocks[k].offset.y < 2 * CHUNK_SIZE_Y
  }

  /** The chunks of a lookup table are full-sized and own separate block arrays. */
  predicate ChunkTableOk(chunks: map<IntVec2, Chunk>) {
    && (forall key :: key in chunks ==> chunks[key].Sized())
    && (forall k1, k2 :: k1 in chunks && k2 in chunks && k1 != k2 ==> chunks[k1].blocks != chunks[k2].blocks)
  }

  function Offset2(from: IntVec2, to: IntVec2): IntVec2 {
    IntVec2(to.x - from.x, to.y - from.y)
  }

  /**
   * TryToPlaceTreeStamp: stamps a tree rooted at local (lx, ly, lz) of the
   * chunk at `origin`. Each block is wrapped into the adjacent chunk when x or
   * y leaves the chunk, skipped when its height is outside the world or the
   * lookup has no chunk there, and written only over air. Every cell of every
   * chunk in the table ends as CellAfter says, so a chunk missing from the
   * table receives nothing.
   */
  method TryToPlaceTreeStamp(stamp: TreeStamp, origin: IntVec2, chunks: map<IntVec2, Chunk>,
                             lx: int, ly: int, lz: int, defs: DefTable)
    requires ChunkTableOk(chunks)
    requires StampTypesKnown(stamp.blocks, defs)
    requires WithinOneChunk(stamp.blocks, lx, ly)
    modifies set key | key in chunks :: chunks[key].blocks
    ensures forall key, i {:trigger chunks[key].blocks[i]} :: key in chunks && 0 <= i < CHUNK_BLOCK_TOTAL ==>
      chunks[key].blocks[i]
        == CellAfter(old(chunks[key].blocks[i]), stamp.blocks, |stamp.blocks|, lx, ly, lz, Offset2(origin, key), i, defs)
  {
    var k := 0;
    while k < |stamp.blocks|
      invariant 0 <= k <= |stamp.blocks|
      invariant forall key, i {:trigger chunks[key].blocks[i]} :: key in chunks && 0 <= i < CHUNK_BLOCK_TOTAL ==>
        chunks[key].blocks[i]
          == CellAfter(old(chunks[key].blocks[i]), stamp.blocks, k, lx, ly, lz, Offset2(origin, key), i, defs)
    {
      PlaceStampBlock(stamp.blocks[k], origin, chunks, lx, ly, lz, defs);
      k := k + 1;
    }
  }

  /** The body of TryToPlaceTreeStamp's loop, for one stamp block. */
  method PlaceStampBlock(sb: StampBlock, origin: IntVec2, chunks: map<IntVec2, Chunk>,
                         lx: int, ly: int, lz: int, defs: DefTable)
    requires ChunkTableOk(chunks)
    requires KnownType(defs, sb.blockType)
    requires -CHUNK_SIZE_X <= lx + sb.offset.x < 2 * CHUNK_SIZE_X && -CHUNK_SIZE_Y <= ly + sb.offset.y < 2 * CHUNK_SIZE_Y
    modifies set key | key in chunks :: chunks[key].blocks
    ensures forall key, i {:trigger chunks[key].blocks[i]} :: key in chunks && 0 <= i < CHUNK_BLOCK_TOTAL ==>
      chunks[key].blocks[i] == PlaceStep(old(chunks[key].blocks[i]), sb, lx, ly, lz, Offset2(origin, key), i, defs)
  {
    var target := TargetOf(lx, ly, lz, sb.offset);
    if target.Some? {
      var key := origin.Plus(target.value.chunkOffset);
      if key in chunks {
        var chunk := chunks[key];
        var local := target.value.local;
        var index := GetBlockIndex(local.x, local.y, local.z);
        if chunk.blocks[index].blockType == BLOCKTYPE_AIR {
          chunk.blocks[index] := chunk.blocks[index].SetBlockType(sb.blockType, defs);
        }
      }
    }
  }

  // ---------------------------------------------------------------------
  // Trees stamped into the generating chunk

  /** Every block of the stamp has a known type, lies within the stamp's radius horizontally and not below its root. */
  predicate StampFits(stamp: TreeStamp, defs: DefTable) {
    StampTypesKnown(stamp.blocks, defs) && WithinRadius(stamp)
  }

  /** The stamp table holds every species, each with a fitting stamp. */
  predicate StampsFit(stamps: map<TreeSpecies, TreeStamp>, defs: DefTable) {
    forall t: TreeSpecies :: t in stamps && StampFits(stamps[t], defs)
  }

  /** Every block of a leafy stamp is its log or its leaf. */
  lemma LeafyStampTypes(p: TreeParams, k: int)
    requires p.leavesBelow <= 2 && p.trunkHeight >= 2
    requires 0 <= k < |TreeStampOf(p).blocks|
    ensures TreeStampOf(p).blocks[k].blockType in {p.log, p.leaf}
  {
    var s := TreeStampOf(p);
    var b := s.blocks[k];
    if k < p.trunkHeight {
      TreeStampShape(p, b);
      assert b == s.blocks[..p.trunkHeight][k];
    } else {
      assert b == s.blocks[p.trunkHeight..][k - p.trunkHeight];
      TreeStampShape(p, b);
    }
  }

  /** Logs and leaves of every species are known block types. */
  lemma SpeciesTypesKnown(t: TreeSpecies)
    ensures ParamsOf(t).log < BLOCKTYPE_NUM && ParamsOf(t).leaf < BLOCKTYPE_NUM
  {
  }

  /** A leafy stamp whose log and leaf are known has only known block types. */
  lemma LeafyTypesKnown(p: TreeParams, defs: DefTable)
    requires p.leavesBelow <= 2 && p.trunkHeight >= 2
    requires KnownType(defs, p.log) && KnownType(defs, p.leaf)
    ensures StampTypesKnown(TreeStampOf(p).blocks, defs)
  {
    forall k | 0 <= k < |TreeStampOf(p).blocks|
      ensures KnownType(defs, TreeStampOf(p).blocks[k].blockType)
    {
      LeafyStampTypes(p, k);
    }
  }

  /** Every block of a species' stamp has a known block type. */
  lemma StampBlockTypes(t: TreeSpecies, defs: DefTable)
    requires |defs| >= BLOCKTYPE_NUM
    ensures StampTypesKnown(StampOf(t).blocks, defs)
  {
    if t == Cactus {
      CactusStampTypes(defs);
    } else {
      SpeciesTypesKnown(t);
      LeafySpecies(t);
      LeafyTypesKnown(ParamsOf(t), defs);
    }
  }

  /** The cactus stamp is cactus blocks only. */
  lemma CactusStampTypes(defs: DefTable)
    requires |defs| >= BLOCKTYPE_NUM
    ensures forall k :: 0 <= k < |StampOf(Cactus).blocks| ==> StampOf(Cactus).blocks[k].blockType == BLOCKTYPE_CACTUS
    ensures StampTypesKnown(StampOf(Cactus).blocks, defs)
  {
    assert StampOf(Cactus).blocks == Trunk(CACTUS_TRUNK, BLOCKTYPE_CACTUS);
  }

  /** The table BuildTreeStamps makes fits every definition table that covers all block types. */
  lemma StampTableFits(stamps: map<TreeSpecies, TreeStamp>, defs: DefTable)
    requires IsStampTable(stamps) && |defs| >= BLOCKTYPE_NUM
    ensures StampsFit(stamps, defs)
  {
    forall t: TreeSpecies
      ensures t in stamps && StampFits(stamps[t], defs)
    {
      StampTableLookup(stamps, t);
      StampBlockTypes(t, defs);
      StampBounds(t);
    }
  }

  /** The root column leaves room for the stamp's radius on every side. */
  predicate RootInWindow(stamp: TreeStamp, x: int, y: int) {
    stamp.radius <= x < CHUNK_SIZE_X - stamp.radius && stamp.radius <= y < CHUNK_SIZE_Y - stamp.radius
  }

  /** A stamp rooted inside the window stays inside the chunk's columns and not below its root. */
  lemma RootedStampInColumns(stamp: TreeStamp, defs: DefTable, x: int, y: int, k: int)
    requires StampFits(stamp, defs) && RootInWindow(stamp, x, y) && 0 <= k < |stamp.blocks|
    ensures var o := stamp.blocks[k].offset;
      0 <= x + o.x < CHUNK_SIZE_X && 0 <= y + o.y < CHUNK_SIZE_Y && o.z >= 0
  {
  }

  /** The type of the block at in-chunk coordinates (x, y, z). */
  function TypeAt(blocks: seq<Block>, x: int, y: int, z: int): byte
    requires |blocks| == CHUNK_BLOCK_TOTAL && InChunk(x, y, z)
  {
    IndexInRange(x, y, z);
    blocks[GetBlockIndex(x, y, z)].blockType
  }

  /** The chunk's blocks after stamping a tree rooted at local (lx, ly, lz) into the chunk itself. */
  function StampedChunk(blocks: seq<Block>, stamp: seq<StampBlock>, lx: int, ly: int, lz: int, defs: DefTable): (r: seq<Block>)
    requires StampTypesKnown(stamp, defs)
    ensures |r| == |blocks|
  {
    seq(|blocks|, i requires 0 <= i < |blocks| => CellAfter(blocks[i], stamp, |stamp|, lx, ly, lz, IntVec2(0, 0), i, defs))
  }

  /**
   * The tree step of a column, corrected, run when its surface has just been
   * found at `surfaceZ`: on a tree site, a species matching the biome and the
   * surface block, with no water above the surface and the whole stamp inside
   * the chunk's columns, the species' stamp is placed on top of the surface.
   * Two things differ from the source (see PlantTree for the step as
   * written): the stamp goes into the generating chunk itself, and a surface
   * at the top layer grows nothing.
   */
  /** The species the corrected tree step plants at the column, if any. */
  function TreeSiteCorrected(blocks: seq<Block>, x: int, y: int, surfaceZ: int, col: ColumnSamples, biome: BiomeType,
                             stamps: map<TreeSpecies, TreeStamp>): (r: Option<TreeSpecies>)
    requires |blocks| == CHUNK_BLOCK_TOTAL && InChunk(x, y, surfaceZ)
    requires forall t: TreeSpecies :: t in stamps
    ensures r.Some? ==> surfaceZ + 1 < CHUNK_SIZE_Z && RootInWindow(stamps[r.value], x, y)
  {
    if col.treeNoise > TREE_THRESHOLD then
      var surfaceType := TypeAt(blocks, x, y, surfaceZ);
      if surfaceType == BLOCKTYPE_WATER then None
      else match ChooseTree(biome, surfaceType, col.treeVariant)
        case None => None
        case Some(species) =>
          if surfaceZ + 1 >= CHUNK_SIZE_Z then None
          else if TypeAt(blocks, x, y, surfaceZ + 1) == BLOCKTYPE_WATER then None
          else if RootInWindow(stamps[species], x, y) then Some(species)
          else None
    else None
  }

  function PlantTreeSeqCorrected(blocks: seq<Block>, x: int, y: int, surfaceZ: int, col: ColumnSamples, biome: BiomeType,
                        defs: DefTable, stamps: map<TreeSpecies, TreeStamp>): (r: seq<Block>)
    requires |blocks| == CHUNK_BLOCK_TOTAL && InChunk(x, y, surfaceZ)
    requires StampsFit(stamps, defs)
    ensures |r| == CHUNK_BLOCK_TOTAL
  {
    match TreeSiteCorrected(blocks, x, y, surfaceZ, col, biome, stamps)
    case None => blocks
    case Some(species) => StampedChunk(blocks, stamps[species].blocks, x, y, surfaceZ + 1, defs)
  }

  /** A tree step only turns air into the stamp's block types; nothing else changes. */
  lemma PlantTreeOnlyFillsAir(blocks: seq<Block>, x: int, y: int, surfaceZ: int, col: ColumnSamples, biome: BiomeType,
                              defs: DefTable, stamps: map<TreeSpecies, TreeStamp>, i: int)
    requires |blocks| == CHUNK_BLOCK_TOTAL && InChunk(x, y, surfaceZ)
    requires StampsFit(stamps, defs)
    requires 0 <= i < CHUNK_BLOCK_TOTAL
    ensures var r := PlantTreeSeqCorrected(blocks, x, y, surfaceZ, col, biome, defs, stamps);
      r[i] == blocks[i]
      || (blocks[i].blockType == BLOCKTYPE_AIR
          && exists t: TreeSpecies, k :: 0 <= k < |stamps[t].blocks| && r[i].blockType == stamps[t].blocks[k].blockType)
  {
    var r := PlantTreeSeqCorrected(blocks, x, y, surfaceZ, col, biome, defs, stamps);
    if r[i] != blocks[i] {
      var species := ChooseTree(biome, TypeAt(blocks, x, y, surfaceZ), col.treeVariant).value;
      var stamp := stamps[species];
      CellAfterOnlyFillsAir(blocks[i], stamp.blocks, |stamp.blocks|, x, y, surfaceZ + 1, IntVec2(0, 0), i, defs);
    }
  }

  /**
   * Stamping from the generator as the source does it, through the world's
   * table of active chunks: a stamp rooted inside the radius window targets
   * only the generating chunk, and that chunk is not in the table while it
   * generates, so no chunk of the table receives a block.
   */
  lemma GeneratorStampMissesWorld(stamp: TreeStamp, x: int, y: int, lz: int, defs: DefTable,
                                  origin: IntVec2, activeKeys: set<IntVec2>)
    requires StampFits(stamp, defs) && RootInWindow(stamp, x, y)
    requires origin !in activeKeys
    ensures forall key, b, i :: key in activeKeys ==>
      CellAfter(b, stamp.blocks, |stamp.blocks|, x, y, lz, Offset2(origin, key), i, defs) == b
  {
    forall key, b, i | key in activeKeys
      ensures CellAfter(b, stamp.blocks, |stamp.blocks|, x, y, lz, Offset2(origin, key), i, defs) == b
    {
      StampStaysHome(b, stamp.blocks, |stamp.blocks|, x, y, lz, Offset2(origin, key), i, defs);
    }
  }

  /**
   * Stamping into the generating chunk itself: on a tree site that passes every
   * check, each stamp block that lands inside the world on an air cell leaves a
   * block there (the stamp's types are not air).
   */
  lemma PlantedTreeAppears(blocks: seq<Block>, x: int, y: int, surfaceZ: int, col: ColumnSamples, biome: BiomeType,
                           defs: DefTable, stamps: map<TreeSpecies, TreeStamp>, species: TreeSpecies, k: nat)
    requires |blocks| == CHUNK_BLOCK_TOTAL && InChunk(x, y, surfaceZ)
    requires StampsFit(stamps, defs)
    requires col.treeNoise > TREE_THRESHOLD
    requires TypeAt(blocks, x, y, surfaceZ) != BLOCKTYPE_WATER
    requires ChooseTree(biome, TypeAt(blocks, x, y, surfaceZ), col.treeVariant) == Some(species)
    requires surfaceZ + 1 < CHUNK_SIZE_Z && TypeAt(blocks, x, y, surfaceZ + 1) != BLOCKTYPE_WATER
    requires RootInWindow(stamps[species], x, y)
    requires forall j :: 0 <= j < |stamps[species].blocks| ==> stamps[species].blocks[j].blockType != BLOCKTYPE_AIR
    requires k < |stamps[species].blocks|
    requires surfaceZ + 1 + stamps[species].blocks[k].offset.z < CHUNK_SIZE_Z
    ensures var o := stamps[species].blocks[k].offset;
      var i := GetBlockIndex(x + o.x, y + o.y, surfaceZ + 1 + o.z);
      && InIndexRange(i)
      && (blocks[i].blockType == BLOCKTYPE_AIR ==> PlantTreeSeqCorrected(blocks, x, y, surfaceZ, col, biome, defs, stamps)[i].blockType != BLOCKTYPE_AIR)
  {
    var stamp := stamps[species];
    var o := stamp.blocks[k].offset;
    RootedStampInColumns(stamp, defs, x, y, k);
    IndexRoundTrip(x + o.x, y + o.y, surfaceZ + 1 + o.z);
    var i := GetBlockIndex(x + o.x, y + o.y, surfaceZ + 1 + o.z);
    if blocks[i].blockType == BLOCKTYPE_AIR {
      StampFillsAirCells(blocks[i], stamp.blocks, |stamp.blocks|, x, y, surfaceZ + 1, IntVec2(0, 0), defs, k);
    }
  }

  /** The source's index of the voxel above the surface, unguarded. */
  function AboveSurfaceIndexAsWritten(x: int, y: int, surfaceZ: int): (i: int)
    ensures i == GetBlockIndex(x, y, surfaceZ) + BLOCKS_PER_LAYER
  {
    GetBlockIndex(x, y, surfaceZ + 1)
  }

  /**
   * A column whose top voxel is dense has its surface at the top layer, and
   * the unguarded read above it falls outside the block array.
   */
  lemma TopSurfaceReadsPastChunk(col: ColumnSamples, x: int, y: int)
    requires ColumnFits(col) && 0 <= x < CHUNK_SIZE_X && 0 <= y < CHUNK_SIZE_Y
    requires col.voxels[CHUNK_SIZE_Z - 1].denseBelowZero
    ensures StateAfter(col, 1).surfaceZ == CHUNK_SIZE_Z - 1
    ensures !InIndexRange(AboveSurfaceIndexAsWritten(x, y, StateAfter(col, 1).surfaceZ))
  {
  }

  /** A stamp rooted above the world places nothing, since no block lies below its root. */
  lemma {:induction false} StampAboveWorldPlacesNothing(b: Block, blocks: seq<StampBlock>, n: nat, lx: int, ly: int, lz: int,
                                                        chunkOffset: IntVec2, i: int, defs: DefTable)
    requires n <= |blocks| && StampTypesKnown(blocks, defs)
    requires forall k :: 0 <= k < |blocks| ==> blocks[k].offset.z >= 0
    requires lz >= CHUNK_SIZE_Z
    ensures CellAfter(b, blocks, n, lx, ly, lz, chunkOffset, i, defs) == b
  {
    if n > 0 {
      StampAboveWorldPlacesNothing(b, blocks, n - 1, lx, ly, lz, chunkOffset, i, defs);
    }
  }

  /**
   * The guarded tree step grows nothing on a top-layer surface, which is what
   * stamping there would give anyway: every block would land above the world.
   */
  lemma TopSurfaceGrowsNothing(blocks: seq<Block>, x: int, y: int, col: ColumnSamples, biome: BiomeType,
                               defs: DefTable, stamps: map<TreeSpecies, TreeStamp>, species: TreeSpecies)
    requires |blocks| == CHUNK_BLOCK_TOTAL && 0 <= x < CHUNK_SIZE_X && 0 <= y < CHUNK_SIZE_Y
    requires StampsFit(stamps, defs)
    ensures PlantTreeSeqCorrected(blocks, x, y, CHUNK_SIZE_Z - 1, col, biome, defs, stamps) == blocks
    ensures StampedChunk(blocks, stamps[species].blocks, x, y, CHUNK_SIZE_Z, defs) == blocks
  {
    var stamp := stamps[species];
    forall i | 0 <= i < CHUNK_BLOCK_TOTAL
      ensures StampedChunk(blocks, stamp.blocks, x, y, CHUNK_SIZE_Z, defs)[i] == blocks[i]
    {
      StampAboveWorldPlacesNothing(blocks[i], stamp.blocks, |stamp.blocks|, x, y, CHUNK_SIZE_Z, IntVec2(0, 0), i, defs);
    }
  }

  // ---------------------------------------------------------------------
  // Filling a column and the chunk

  /**
   * The chunk's blocks after the top `n` voxels of column (x, y): each voxel
   * gets its VoxelType, and the corrected tree step runs right after the
   * voxel where the surface is found.
   */
  function ColumnAfter(blocks: seq<Block>, x: int, y: int, col: ColumnSamples,
                       defs: DefTable, stamps: map<TreeSpecies, TreeStamp>, n: nat): (r: seq<Block>)
    requires |blocks| == CHUNK_BLOCK_TOTAL && 0 <= x < CHUNK_SIZE_X && 0 <= y < CHUNK_SIZE_Y
    requires ColumnFits(col) && n <= CHUNK_SIZE_Z
    requires |defs| >= BLOCKTYPE_NUM && StampsFit(stamps, defs)
    ensures |r| == CHUNK_BLOCK_TOTAL
  {
    if n == 0 then blocks
    else
      var prev := ColumnAfter(blocks, x, y, col, defs, stamps, n - 1);
      var z := CHUNK_SIZE_Z - n;
      var st := StateAfter(col, n - 1);
      var i := GetBlockIndex(x, y, z);
      IndexInRange(x, y, z);
      var biome := GetBiomeType(col.biome);
      var filled := Assigned(prev, i, VoxelType(st, z, col.voxels[z], biome, prev[i].blockType), defs);
      if StateAfter(col, n).surfaceZ == z then PlantTreeSeqCorrected(filled, x, y, z, col, biome, defs, stamps)
      else filled
  }

  /**
   * The tree step as the source writes it, below the top layer: on a tree
   * site the stamp is handed to TryToPlaceTreeStamp together with the world's
   * table of active chunks, `active`. The generating chunk is not in that
   * table yet, so neither it nor any chunk of the table changes;
   * `attempted` says whether the stamp was handed over. (At the top layer
   * the source reads the voxel above past the end of the array; see
   * TopSurfaceReadsPastChunk.)
   */
  method PlantTree(c: Chunk, x: int, y: int, surfaceZ: int, col: ColumnSamples, biome: BiomeType,
                   defs: DefTable, stamps: map<TreeSpecies, TreeStamp>, active: map<IntVec2, Chunk>)
    returns (attempted: bool)
    requires c.Sized() && InChunk(x, y, surfaceZ) && surfaceZ + 1 < CHUNK_SIZE_Z
    requires StampsFit(stamps, defs) && ChunkTableOk(active)
    requires c.chunkCoords !in active
    modifies set key | key in active :: active[key].blocks
    ensures attempted <==>
      && col.treeNoise > TREE_THRESHOLD
      && TypeAt(c.blocks[..], x, y, surfaceZ) != BLOCKTYPE_WATER
      && ChooseTree(biome, TypeAt(c.blocks[..], x, y, surfaceZ), col.treeVariant).Some?
      && TypeAt(c.blocks[..], x, y, surfaceZ + 1) != BLOCKTYPE_WATER
      && RootInWindow(stamps[ChooseTree(biome, TypeAt(c.blocks[..], x, y, surfaceZ), col.treeVariant).value], x, y)
    ensures forall key, i {:trigger active[key].blocks[i]} :: key in active && 0 <= i < CHUNK_BLOCK_TOTAL ==>
      active[key].blocks[i] == old(active[key].blocks[i])
    ensures c.blocks[..] == old(c.blocks[..])
  {
    attempted := false;
    if col.treeNoise > TREE_THRESHOLD {
      IndexInRange(x, y, surfaceZ);
      var surfaceType := c.blocks[GetBlockIndex(x, y, surfaceZ)].blockType;
      assert surfaceType == TypeAt(c.blocks[..], x, y, surfaceZ);
      if surfaceType != BLOCKTYPE_WATER {
        var species := ChooseTree(biome, surfaceType, col.treeVariant);
        if species.Some? {
          var stamp := stamps[species.value];
          IndexInRange(x, y, surfaceZ + 1);
          var above := c.blocks[GetBlockIndex(x, y, surfaceZ + 1)];
          assert above.blockType == TypeAt(c.blocks[..], x, y, surfaceZ + 1);
          if above.blockType != BLOCKTYPE_WATER && RootInWindow(stamp, x, y) {
            StampRootedTree(stamp, c, x, y, surfaceZ + 1, defs, active);
            attempted := true;
          }
        }
      }
    }
  }

  /**
   * The stamp call of PlantTree for a tree rooted inside the window: the
   * stamp goes to the table of active chunks, where the generated chunk is
   * not, so no block anywhere changes.
   */
  method StampRootedTree(stamp: TreeStamp, c: Chunk, x: int, y: int, lz: int, defs: DefTable,
                         active: map<IntVec2, Chunk>)
    requires c.Sized() && StampFits(stamp, defs) && RootInWindow(stamp, x, y)
    requires ChunkTableOk(active) && c.chunkCoords !in active
    modifies set key | key in active :: active[key].blocks
    ensures forall key, i {:trigger active[key].blocks[i]} :: key in active && 0 <= i < CHUNK_BLOCK_TOTAL ==>
      active[key].blocks[i] == old(active[key].blocks[i])
    ensures c.blocks[..] == old(c.blocks[..])
  {
    forall k | 0 <= k < |stamp.blocks|
      ensures 0 <= x + stamp.blocks[k].offset.x < CHUNK_SIZE_X && 0 <= y + stamp.blocks[k].offset.y < CHUNK_SIZE_Y
    {
      RootedStampInColumns(stamp, defs, x, y, k);
    }
    TryToPlaceTreeStamp(stamp, c.chunkCoords, active, x, y, lz, defs);
    GeneratorStampMissesWorld(stamp, x, y, lz, defs, c.chunkCoords, active.Keys);
    if key :| key in active && active[key].blocks == c.blocks {
      assert forall i :: 0 <= i < CHUNK_BLOCK_TOTAL ==> c.blocks[i] == old(c.blocks[i]);
    }
  }

  /** The corrected stamp call: the stamp goes to the generated chunk itself. */
  method StampOwnChunk(stamp: TreeStamp, c: Chunk, x: int, y: int, lz: int, defs: DefTable)
    requires c.Sized() && StampFits(stamp, defs) && RootInWindow(stamp, x, y)
    modifies c.blocks
    ensures c.blocks[..] == StampedChunk(old(c.blocks[..]), stamp.blocks, x, y, lz, defs)
  {
    ghost var before := c.blocks[..];
    forall k | 0 <= k < |stamp.blocks|
      ensures 0 <= x + stamp.blocks[k].offset.x < CHUNK_SIZE_X && 0 <= y + stamp.blocks[k].offset.y < CHUNK_SIZE_Y
    {
      RootedStampInColumns(stamp, defs, x, y, k);
    }
    var own := map[c.chunkCoords := c];
    TryToPlaceTreeStamp(stamp, c.chunkCoords, own, x, y, lz, defs);
    assert forall i :: 0 <= i < CHUNK_BLOCK_TOTAL ==>
      c.blocks[i] == CellAfter(before[i], stamp.blocks, |stamp.blocks|, x, y, lz, IntVec2(0, 0), i, defs)
    by {
      assert c.chunkCoords in own && own[c.chunkCoords] == c;
      assert Offset2(c.chunkCoords, c.chunkCoords) == IntVec2(0, 0);
    }
  }

  /** The site tests of the corrected tree step, read off the chunk's array. */
  method FindTreeSiteCorrected(c: Chunk, x: int, y: int, surfaceZ: int, col: ColumnSamples, biome: BiomeType,
                               stamps: map<TreeSpecies, TreeStamp>) returns (site: Option<TreeSpecies>)
    requires c.Sized() && InChunk(x, y, surfaceZ)
    requires forall t: TreeSpecies :: t in stamps
    ensures site == TreeSiteCorrected(c.blocks[..], x, y, surfaceZ, col, biome, stamps)
  {
    site := None;
    if col.treeNoise > TREE_THRESHOLD {
      IndexInRange(x, y, surfaceZ);
      var surfaceType := c.blocks[GetBlockIndex(x, y, surfaceZ)].blockType;
      assert surfaceType == TypeAt(c.blocks[..], x, y, surfaceZ);
      if surfaceType != BLOCKTYPE_WATER {
        var species := ChooseTree(biome, surfaceType, col.treeVariant);
        if species.Some? && surfaceZ + 1 < CHUNK_SIZE_Z {
          IndexInRange(x, y, surfaceZ + 1);
          var above := c.blocks[GetBlockIndex(x, y, surfaceZ + 1)];
          assert above.blockType == TypeAt(c.blocks[..], x, y, surfaceZ + 1);
          if above.blockType != BLOCKTYPE_WATER && RootInWindow(stamps[species.value], x, y) {
            site := species;
          }
        }
      }
    }
  }

  /** The tree step on the chunk's array, corrected (its value-level meaning is PlantTreeSeqCorrected). */
  method PlantTreeCorrected(c: Chunk, x: int, y: int, surfaceZ: int, col: ColumnSamples, biome: BiomeType,
                   defs: DefTable, stamps: map<TreeSpecies, TreeStamp>)
    requires c.Sized() && InChunk(x, y, surfaceZ)
    requires StampsFit(stamps, defs)
    modifies c.blocks
    ensures c.blocks[..] == PlantTreeSeqCorrected(old(c.blocks[..]), x, y, surfaceZ, col, biome, defs, stamps)
  {
    var site := FindTreeSiteCorrected(c, x, y, surfaceZ, col, biome, stamps);
    if site.Some? {
      StampOwnChunk(stamps[site.value], c, x, y, surfaceZ + 1, defs);
    }
  }

  /** The block a voxel rule leaves at `index`: the new type, or the block untouched. */
  function Assigned(blocks: seq<Block>, index: int, r: Option<byte>, defs: DefTable): seq<Block>
    requires 0 <= index < |blocks|
    requires r.Some? ==> KnownType(defs, r.value)
  {
    match r
    case None => blocks
    case Some(t) => blocks[index := blocks[index].SetBlockType(t, defs)]
  }

  /**
   * The column loop of PopulateWithDensityNoiseCorrected for column (x, y):
   * from the top voxel down, give each voxel its type and run the corrected
   * tree step (PlantTreeCorrected) where the surface is found.
   */
  method FillColumn(c: Chunk, x: int, y: int, col: ColumnSamples,
                    defs: DefTable, stamps: map<TreeSpecies, TreeStamp>)
    requires c.Sized() && 0 <= x < CHUNK_SIZE_X && 0 <= y < CHUNK_SIZE_Y
    requires ColumnFits(col)
    requires |defs| >= BLOCKTYPE_NUM && StampsFit(stamps, defs)
    modifies c.blocks
    ensures c.blocks[..] == ColumnAfter(old(c.blocks[..]), x, y, col, defs, stamps, COLUMN_HEIGHT)
  {
    var biome := GetBiomeType(col.biome);
    var surfaceDepthCounter := 0;
    var surfaceZ := NO_SURFACE;
    var z := CHUNK_SIZE_Z - 1;
    while z >= 0
      invariant -1 <= z < CHUNK_SIZE_Z
      invariant FillState(surfaceDepthCounter, surfaceZ) == StateAfter(col, CHUNK_SIZE_Z - 1 - z)
      invariant c.blocks[..] == ColumnAfter(old(c.blocks[..]), x, y, col, defs, stamps, CHUNK_SIZE_Z - 1 - z)
    {
      surfaceDepthCounter, surfaceZ := FillColumnVoxel(c, x, y, z, col, biome, surfaceDepthCounter, surfaceZ, defs, stamps, old(c.blocks[..]));
      z := z - 1;
    }
  }

  /** One pass of the column loop: the voxel at height z, then the tree step if the surface was found there. */
  method FillColumnVoxel(c: Chunk, x: int, y: int, z: int, col: ColumnSamples, biome: BiomeType,
                         surfaceDepthCounter: int, surfaceZ: int,
                         defs: DefTable, stamps: map<TreeSpecies, TreeStamp>, ghost start: seq<Block>)
    returns (depthOut: int, surfaceZOut: int)
    requires c.Sized() && 0 <= x < CHUNK_SIZE_X && 0 <= y < CHUNK_SIZE_Y && 0 <= z < CHUNK_SIZE_Z
    requires ColumnFits(col) && biome == GetBiomeType(col.biome)
    requires |defs| >= BLOCKTYPE_NUM && StampsFit(stamps, defs) && |start| == CHUNK_BLOCK_TOTAL
    requires FillState(surfaceDepthCounter, surfaceZ) == StateAfter(col, CHUNK_SIZE_Z - 1 - z)
    requires c.blocks[..] == ColumnAfter(start, x, y, col, defs, stamps, CHUNK_SIZE_Z - 1 - z)
    modifies c.blocks
    ensures FillState(depthOut, surfaceZOut) == StateAfter(col, CHUNK_SIZE_Z - z)
    ensures c.blocks[..] == ColumnAfter(start, x, y, col, defs, stamps, CHUNK_SIZE_Z - z)
  {
    var index := GetBlockIndex(x, y, z);
    IndexInRange(x, y, z);
    depthOut, surfaceZOut := FillVoxel(c, index, z, col.voxels[z], biome, surfaceDepthCounter, surfaceZ, defs);
    if surfaceZOut >= 0 && surfaceZOut == z {
      PlantTreeCorrected(c, x, y, surfaceZOut, col, biome, defs, stamps);
    }
  }

  /**
   * One voxel of the column loop: the cave test below the surface, the type
   * decision, the store (skipped only for water left in a flooded cave) and
   * the update of the two counters.
   */
  method FillVoxel(c: Chunk, index: int, z: int, sample: VoxelSample, biome: BiomeType,
                   surfaceDepthCounter: int, surfaceZ: int, defs: DefTable)
    returns (depthOut: int, surfaceZOut: int)
    requires c.Sized() && InIndexRange(index) && 0 <= z < CHUNK_SIZE_Z
    requires surfaceDepthCounter >= 0 && |defs| >= BLOCKTYPE_NUM
    modifies c.blocks
    ensures var st := FillState(surfaceDepthCounter, surfaceZ);
      && FillState(depthOut, surfaceZOut) == NextState(st, z, sample)
      && c.blocks[..] == Assigned(old(c.blocks[..]), index, VoxelType(st, z, sample, biome, old(c.blocks[index].blockType)), defs)
  {
    var newType;
    newType, depthOut, surfaceZOut := DecideVoxel(z, sample, biome, surfaceDepthCounter, surfaceZ, c.blocks[index].blockType);
    if newType.Some? {
      c.blocks[index] := c.blocks[index].SetBlockType(newType.value, defs);
    }
  }

  /**
   * The branches of the voxel loop body that decide the new type and advance
   * the surface counters, given the type the voxel holds now.
   */
  method DecideVoxel(z: int, sample: VoxelSample, biome: BiomeType, surfaceDepthCounter: int, surfaceZ: int, prior: byte)
    returns (newType: Option<byte>, depthOut: int, surfaceZOut: int)
    requires 0 <= z < CHUNK_SIZE_Z && surfaceDepthCounter >= 0
    ensures var st := FillState(surfaceDepthCounter, surfaceZ);
      && FillState(depthOut, surfaceZOut) == NextState(st, z, sample)
      && newType == VoxelType(st, z, sample, biome, prior)
  {
    var surface := GetSurfaceBlocks(biome);
    SurfaceBlocksAreGround(biome);
    depthOut, surfaceZOut := surfaceDepthCounter, surfaceZ;
    var isCave := sample.caveCarves && surfaceZ != NO_SURFACE && z < surfaceZ;
    var dense := sample.denseBelowZero && !isCave;
    newType := None;
    if dense {
      if surfaceDepthCounter < SURFACE_LAYER_DEPTH {
        if z >= SEA_LEVEL {
          newType := if surfaceDepthCounter == 0 then Some(surface.top) else Some(surface.sub);
        } else {
          newType := Some(surface.underwater);
        }
        depthOut := surfaceDepthCounter + 1;
      } else if z == OBSIDIAN_Z {
        newType := Some(BLOCKTYPE_OBSIDIAN);
      } else if z == LAVA_Z {
        newType := Some(BLOCKTYPE_LAVA);
      } else {
        newType := Some(OreChance(z, sample.ore));
      }
      if surfaceZ == NO_SURFACE {
        surfaceZOut := z;
      }
    } else {
      depthOut := 0;
      if z < SEA_LEVEL {
        if !isCave {
          newType := Some(BLOCKTYPE_WATER);
        } else if prior != BLOCKTYPE_WATER {
          newType := Some(BLOCKTYPE_AIR);
        }
      } else {
        newType := Some(BLOCKTYPE_AIR);
      }
    }
  }

  /** The number of columns of a chunk; an alias so that recursions over it are not unrolled. */
  const COLUMN_COUNT: nat := BLOCKS_PER_LAYER

  /** One noise column per (x, y), at the source's column index x + 32 y. */
  predicate NoiseFits(noise: seq<ColumnSamples>) {
    |noise| == COLUMN_COUNT && forall j :: 0 <= j < |noise| ==> ColumnFits(noise[j])
  }

  /** The chunk's blocks after the first `n` columns, in the source's order (y outer, x inner). */
  function Populated(blocks: seq<Block>, noise: seq<ColumnSamples>, defs: DefTable,
                     stamps: map<TreeSpecies, TreeStamp>, n: nat): (r: seq<Block>)
    requires |blocks| == CHUNK_BLOCK_TOTAL && NoiseFits(noise) && n <= COLUMN_COUNT
    requires |defs| >= BLOCKTYPE_NUM && StampsFit(stamps, defs)
    ensures |r| == CHUNK_BLOCK_TOTAL
  {
    if n == 0 then blocks
    else
      var j := n - 1;
      ColumnAfter(Populated(blocks, noise, defs, stamps, j), j % CHUNK_SIZE_X, j / CHUNK_SIZE_X, noise[j], defs, stamps, COLUMN_HEIGHT)
  }

  /** One pass of the column loop: the column after the first `y * CHUNK_SIZE_X + x` is filled. */
  method FillNextColumn(c: Chunk, x: int, y: int, col: ColumnSamples, ghost before: seq<Block>,
                        ghost noise: seq<ColumnSamples>, defs: DefTable, stamps: map<TreeSpecies, TreeStamp>)
    requires c.Sized() && 0 <= x < CHUNK_SIZE_X && 0 <= y < CHUNK_SIZE_Y
    requires |before| == CHUNK_BLOCK_TOTAL && NoiseFits(noise) && noise[y * CHUNK_SIZE_X + x] == col
    requires |defs| >= BLOCKTYPE_NUM && StampsFit(stamps, defs)
    requires c.blocks[..] == Populated(before, noise, defs, stamps, y * CHUNK_SIZE_X + x)
    modifies c.blocks
    ensures c.blocks[..] == Populated(before, noise, defs, stamps, y * CHUNK_SIZE_X + x + 1)
  {
    DivMod32(x, y);
    FillColumn(c, x, y, col, defs, stamps);
  }

  /**
   * PopulateWithDensityNoise, corrected: fills every column of the chunk,
   * row by row, from the precomputed noise of each column. The voxel rules
   * are the source's; the tree step is PlantTreeCorrected, so trees are
   * stamped into the generating chunk and a top-layer surface grows none,
   * where the source plants no tree at all (see PlantTree).
   */
  method PopulateWithDensityNoiseCorrected(c: Chunk, noise: seq<ColumnSamples>, defs: DefTable,
                                  stamps: map<TreeSpecies, TreeStamp>)
    requires c.Sized() && NoiseFits(noise)
    requires |defs| >= BLOCKTYPE_NUM && StampsFit(stamps, defs)
    modifies c.blocks
    ensures c.blocks[..] == Populated(old(c.blocks[..]), noise, defs, stamps, COLUMN_COUNT)
  {
    var chunkY := 0;
    while chunkY < CHUNK_SIZE_Y
      invariant 0 <= chunkY <= CHUNK_SIZE_Y
      invariant c.blocks[..] == Populated(old(c.blocks[..]), noise, defs, stamps, chunkY * CHUNK_SIZE_X)
    {
      var chunkX := 0;
      while chunkX < CHUNK_SIZE_X
        invariant 0 <= chunkX <= CHUNK_SIZE_X
        invariant c.blocks[..] == Populated(old(c.blocks[..]), noise, defs, stamps, chunkY * CHUNK_SIZE_X + chunkX)
      {
        var chunkIndex := chunkY * CHUNK_SIZE_X + chunkX;
        FillNextColumn(c, chunkX, chunkY, noise[chunkIndex], old(c.blocks[..]), noise, defs, stamps);
        chunkX := chunkX + 1;
      }
      chunkY := chunkY + 1;
    }
  }

  // ---------------------------------------------------------------------
  // Generated chunks hold only defined block types

  /** Every block holds a type the definition table has an entry for. */
  predicate AllTypesKnown(blocks: seq<Block>, defs: DefTable) {
    forall i :: 0 <= i < |blocks| ==> KnownType(defs, blocks[i].blockType)
  }

  /** The tree step keeps every block type known: it only writes stamp types. */
  lemma PlantTreeKeepsTypesKnown(blocks: seq<Block>, x: int, y: int, surfaceZ: int, col: ColumnSamples,
                                 biome: BiomeType, defs: DefTable, stamps: map<TreeSpecies, TreeStamp>)
    requires |blocks| == CHUNK_BLOCK_TOTAL && InChunk(x, y, surfaceZ)
    requires StampsFit(stamps, defs) && AllTypesKnown(blocks, defs)
    ensures AllTypesKnown(PlantTreeSeqCorrected(blocks, x, y, surfaceZ, col, biome, defs, stamps), defs)
  {
    var r := PlantTreeSeqCorrected(blocks, x, y, surfaceZ, col, biome, defs, stamps);
    forall i | 0 <= i < |r|
      ensures KnownType(defs, r[i].blockType)
    {
      PlantTreeOnlyFillsAir(blocks, x, y, surfaceZ, col, biome, defs, stamps, i);
      if r[i] != blocks[i] {
        var t: TreeSpecies, k :| 0 <= k < |stamps[t].blocks| && r[i].blockType == stamps[t].blocks[k].blockType;
        assert StampFits(stamps[t], defs);
      }
    }
  }

  /** Filling a column keeps every block type known. */
  lemma {:induction false} ColumnAfterKeepsTypesKnown(blocks: seq<Block>, x: int, y: int, col: ColumnSamples,
                                                      defs: DefTable, stamps: map<TreeSpecies, TreeStamp>, n: nat)
    requires |blocks| == CHUNK_BLOCK_TOTAL && 0 <= x < CHUNK_SIZE_X && 0 <= y < CHUNK_SIZE_Y
    requires ColumnFits(col) && n <= CHUNK_SIZE_Z
    requires |defs| >= BLOCKTYPE_NUM && StampsFit(stamps, defs)
    requires AllTypesKnown(blocks, defs)
    ensures AllTypesKnown(ColumnAfter(blocks, x, y, col, defs, stamps, n), defs)
  {
    if n > 0 {
      var prev := ColumnAfter(blocks, x, y, col, defs, stamps, n - 1);
      ColumnAfterKeepsTypesKnown(blocks, x, y, col, defs, stamps, n - 1);
      var z := CHUNK_SIZE_Z - n;
      var i := GetBlockIndex(x, y, z);
      IndexInRange(x, y, z);
      var biome := GetBiomeType(col.biome);
      var filled := Assigned(prev, i, VoxelType(StateAfter(col, n - 1), z, col.voxels[z], biome, prev[i].blockType), defs);
      assert AllTypesKnown(filled, defs);
      if StateAfter(col, n).surfaceZ == z {
        PlantTreeKeepsTypesKnown(filled, x, y, z, col, biome, defs, stamps);
      }
    }
  }

  /** Generating a chunk from blocks of known types leaves only known types. */
  lemma {:induction false} PopulatedKeepsTypesKnown(blocks: seq<Block>, noise: seq<ColumnSamples>, defs: DefTable,
                                                    stamps: map<TreeSpecies, TreeStamp>, n: nat)
    requires |blocks| == CHUNK_BLOCK_TOTAL && NoiseFits(noise) && n <= COLUMN_COUNT
    requires |defs| >= BLOCKTYPE_NUM && StampsFit(stamps, defs)
    requires AllTypesKnown(blocks, defs)
    ensures AllTypesKnown(Populated(blocks, noise, defs, stamps, n), defs)
  {
    if n > 0 {
      var j := n - 1;
      PopulatedKeepsTypesKnown(blocks, noise, defs, stamps, j);
      ColumnAfterKeepsTypesKnown(Populated(blocks, noise, defs, stamps, j), j % CHUNK_SIZE_X, j / CHUNK_SIZE_X,
                                 noise[j], defs, stamps, COLUMN_HEIGHT);
    }
  }
}
