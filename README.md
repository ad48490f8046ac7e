# Voxel world core in Dafny

This project models the bookkeeping core of a Minecraft-like voxel engine written in C++. The world is made of chunks of 32 × 32 × 128 blocks. Each block packs a type byte, two 4-bit light levels and five flags. The model covers:

- block packing and the block definition table;
- the local-index and global-coordinate coding of a chunk, and the block iterator that walks between neighbouring blocks across chunk links;
- terrain generation: biome bands, surface blocks, ore priority, and the column fill with the noise given as samples;
- the eight tree stamp builders and tree stamping;
- face culling and vertex colours for chunk meshes;
- the run-length chunk file format;
- the world: streaming chunks in and out around the camera, the symmetric neighbour links, the three job queues with their caps and the chunk state machine, the distance-sorted mesh build queue, the light queue and its relaxation, sky seeding and the sky walks, block edits, and global block reads and writes;
- the player's ten-slot inventory and the physics-mode cycle.

Pure code is modelled as datatypes, functions and lemmas. Code that updates state in place is modelled as classes and methods: `Chunks.Chunk` with its block array, `Worlds.World`, and `Inventory.Player`. Each method is proved against a specification function or an invariant, and the lemmas state the properties the code relies on: index round trips, the file round trip, link symmetry, dirty flag ⇔ queue membership, counters within their caps, and the meaning of the relaxed light.

## Model

| member | source | states |
|---|---|---|
| GameCommon.Pow2Add | Game/GameCommon.h:139-142 | shifting by a + b bits is shifting by a, then by b: `1 << (a + b)` is `(1 << a) * (1 << b)` |
| GameCommon.ChunkGeometry | Game/GameCommon.h:134-147 | each chunk size is `1 << bits`, each mask is size - 1, and the block count (the product of the sizes) is `1 << (5 + 5 + 7)`, so a packed index needs exactly the sum of the bit widths |
| GameCommon.FaceFromIndex | Game/GameCommon.h:68-77 | a face exists for exactly the enumeration values 0..5, and the face found carries that value |
| GameCommon.FaceOffsetsOpposite | Game/GameCommon.h:78-86 | opposite faces come in pairs, and their BLOCKFACE offsets are negations of each other |
| GameCommon.FacesDistinct | Game/GameCommon.h:68-86 | distinct faces have distinct enumeration values and distinct unit offsets |
| GameCommon.PhysicsModeOf | Game/Entity.hpp:10-17 | the mode with value i (0..2) maps back to i, so modes and their values correspond one to one |
| Blocks.MasksAreDistinctBits | Game/Block.hpp:5-9 | the five flag masks are single bits, and no two of them share a bit |
| Blocks.Block.GetOutdoorLight | Game/Block.cpp:25-28 | the outdoor light is a 4-bit value (the high nibble) |
| Blocks.Block.GetIndoorLight | Game/Block.cpp:36-39 | the indoor light is a 4-bit value (the low nibble) |
| Blocks.Block.SetOutdoorLight | Game/Block.cpp:19-23 | reading back gives the value masked to 4 bits; the indoor nibble, the type and the flags are unchanged |
| Blocks.Block.SetIndoorLight | Game/Block.cpp:30-34 | reading back gives the value masked to 4 bits; the outdoor nibble, the type and the flags are unchanged |
| Blocks.Block.WithFlag | Game/Block.cpp:46-56 | the masked bit reads as requested, and every other flag bit, the type and the light byte are unchanged |
| Blocks.Block.SetIsSky | Game/Block.cpp:46-56 | IsSky reads back as set; the other four flags, the type and the light are unchanged |
| Blocks.Block.SetIsLightDirty | Game/Block.cpp:63-73 | IsLightDirty reads back as set; the other four flags, the type and the light are unchanged |
| Blocks.Block.SetIsFullOpaque | Game/Block.cpp:80-90 | IsFullOpaque reads back as set; the other four flags, the type and the light are unchanged |
| Blocks.Block.SetIsSolid | Game/Block.cpp:97-107 | IsSolid reads back as set; the other four flags, the type and the light are unchanged |
| Blocks.Block.SetIsVisible | Game/Block.cpp:114-124 | IsVisible reads back as set; the other four flags, the type and the light are unchanged |
| Blocks.Block.SetBlockType | Game/Block.cpp:4-12 | the type is stored, solid, visible and opaque are copied from the type's definition, and the light, sky and dirty bits are kept |
| Blocks.SetLightDirtyAgain | Game/Block.cpp:63-73 | setting the dirty flag on a block that already has it changes nothing |
| Blocks.LightNibblesIndependent | Game/Block.cpp:19-34 | the indoor and outdoor setters commute: each touches only its own nibble |
| ChunkIndex.IndexToLocalX | Game/Chunk.cpp:1112-1115 | the masked x is always within 0..31 |
| ChunkIndex.IndexToLocalY | Game/Chunk.cpp:1117-1120 | the shifted and masked y is always within 0..31 |
| ChunkIndex.IndexToLocalZ | Game/Chunk.cpp:1122-1125 | z is unmasked: it lies within 0..127 only for an index inside the chunk |
| ChunkIndex.GlobalCoordsToLocalCoords | Game/Chunk.cpp:1162-1169 | masking puts any global coordinate, negative ones included, inside the chunk |
| ChunkIndex.GlobalCoordsToIndex | Game/Chunk.cpp:1136-1142 | the index of any global coordinate lies in 0..131071 |
| ChunkIndex.BlockIndexAtLocalCoords | Game/Chunk.cpp:1201-1211 | coordinates inside the chunk give their packed index; a height outside 0..127 in a valid column gives no block (a null pointer); any index given is in range |
| ChunkIndex.IndexInRange | Game/Chunk.cpp:1099-1105 | in-chunk coordinates pack to an index in 0..131071 |
| ChunkIndex.IndexRoundTrip | Game/Chunk.cpp:1099-1134 | packing in-chunk coordinates and unpacking the index gives them back |
| ChunkIndex.IndexDecomposition | Game/Chunk.cpp:1099-1134 | every in-range index unpacks to in-chunk coordinates that pack back to it |
| ChunkIndex.GlobalIndexRoundTrip | Game/Chunk.cpp:1136-1175 | an index turned into global coordinates of a chunk converts back to the same index and the same chunk |
| ChunkIndex.ChunkLocalSplit | Game/Chunk.cpp:1162-1175 | on x and y every global coordinate, negative ones included, is chunk * 32 + local (arithmetic shift and mask agree) |
| ChunkIndex.GlobalCoordsRoundTrip | Game/Chunk.cpp:1149-1175 | a global block at a height within the chunk is found again from its chunk coordinates and its index |
| ChunkIndex.WrappedEditIndex | Game/Chunk.cpp:1136-1142 | masking z sends height 128 to the floor of the same column: both give the same index |
| ChunkIndex.CenterInsideChunk | Game/Chunk.cpp:1185-1190 | the centre of a chunk lies inside that chunk |
| ChunkIndex.OrPackingIsSum | Game/Chunk.cpp:1136-1142 | on 32-bit words, packing the three fields with `\|` equals packing them with `+`, and that is GetBlockIndex |
| Chunks.Chunk.constructor | Game/Chunk.cpp:14-23 | a new chunk has its coordinates, a fresh array of 131072 default blocks (air, unlit, no flags), no neighbour links, clean flags and the CONSTRUCTING state |
| Chunks.Chunk.Around | Game/Chunk.hpp:140-144 | the chunk together with exactly the chunks its four neighbour pointers reach |
| BlockIterators.BlockIterator.GetBlockCoords | Game/BlockIterator.cpp:25-32 | no coordinates (IntVec3::INVALID) exactly for an invalid iterator, else the global coordinates of its index in its chunk |
| BlockIterators.BlockIterator.GetNorthNeighbor | Game/BlockIterator.cpp:61-90 | the neighbour lies in this chunk or the chunk its north pointer reaches |
| BlockIterators.BlockIterator.GetSouthNeighbor | Game/BlockIterator.cpp:92-121 | the neighbour lies in this chunk or the chunk its south pointer reaches |
| BlockIterators.BlockIterator.GetEastNeighbor | Game/BlockIterator.cpp:123-152 | the neighbour lies in this chunk or the chunk its east pointer reaches |
| BlockIterators.BlockIterator.GetWestNeighbor | Game/BlockIterator.cpp:154-183 | the neighbour lies in this chunk or the chunk its west pointer reaches |
| BlockIterators.BlockIterator.GetUpNeighbor | Game/BlockIterator.cpp:185-204 | a vertical move never leaves the chunk |
| BlockIterators.BlockIterator.GetDownNeighbor | Game/BlockIterator.cpp:206-225 | a vertical move never leaves the chunk |
| BlockIterators.BlockIterator.GetNeighbor | Game/BlockIterator.cpp:227-239 | the neighbour towards any face lies in the chunk or one its pointers reach |
| BlockIterators.BlockIterator.GetNeighborByValue | Game/BlockIterator.cpp:227-239 | a value outside 0..5 gives the (null, -1) sentinel (the default branch); a face value gives that face's move |
| BlockIterators.GetBlockExists | Game/BlockIterator.cpp:47-59 | GetBlock finds a block exactly when the iterator is valid with an index inside the array, and then it is the block at that index |
| BlockIterators.InvalidStaysInvalid | Game/BlockIterator.cpp:61-239 | every move from an invalid iterator gives the invalid sentinel |
| BlockIterators.MoveInsideChunk | Game/BlockIterator.cpp:61-225 | a move that stays inside the chunk keeps the chunk, stays in range and changes the local coordinates by exactly the face's unit offset |
| BlockIterators.MoveAcrossEdge | Game/BlockIterator.cpp:61-183 | crossing a horizontal edge enters the neighbour chunk with the crossed coordinate wrapped to the far side, or gives the sentinel when the pointer is null |
| BlockIterators.EdgeStep | Game/BlockIterator.cpp:61-183 | a step off a horizontal edge lands on the named column of the same layer in the neighbour chunk, or nowhere |
| BlockIterators.VerticalEdges | Game/BlockIterator.cpp:185-225 | up from the top layer and down from the bottom layer give (same chunk, -1), which is invalid |
| BlockIterators.VerticalSteps | Game/BlockIterator.cpp:185-225 | down is the index one layer (1024) lower, up one layer higher, or -1 past the floor or ceiling |
| BlockIterators.MoveMatchesGrid | Game/BlockIterator.cpp:25-239 | when the neighbour pointers lead one chunk over, every move that lands on a block lands on the block one unit away in world coordinates |
| BlockIterators.MoveInsideGrid | Game/BlockIterator.cpp:25-225 | inside the chunk, the neighbour's global coordinates are the start's plus the face offset |
| BlockIterators.CrossEdgeGrid | Game/BlockIterator.cpp:25-183 | across a chunk edge, the neighbour's global coordinates are the start's plus the face offset |
| BlockIterators.EastThenWest | Game/BlockIterator.cpp:123-183 | east then west returns to the start when the links are mutual |
| BlockIterators.NorthThenSouth | Game/BlockIterator.cpp:61-121 | north then south returns to the start when the links are mutual |
| ChunkFile.HeaderBitWidths | Game/Chunk.hpp:56-66 | the header opens with the magic GCHK; its recorded x and y bit widths (4) differ from the chunk's (5), and only z (7) agrees |
| ChunkFile.DecodeRuns | Game/World.cpp:580-594 | the pairs decode to a type sequence exactly when the body has an even length (whole pairs) |
| ChunkFile.DecodeEncodeFrom | Game/World.cpp:529-552 | decoding what the encoder emits gives back the open run followed by the remaining types, and the runs are well formed (non-empty, and split only at 255) |
| ChunkFile.FirstPairOf | Game/World.cpp:529-552 | the encoder's output starts with the open run's type and a length at least the open length |
| ChunkFile.SaveLoadRoundTrip | Game/World.cpp:514-595 | a saved file starts with the header, and decoding its body restores every block type in index order |
| ChunkFile.SavedChunkIsLoadable | Game/World.cpp:514-595 | the file saved for a whole chunk of known block types passes every check of the loader |
| ChunkFile.DecodeRunsAppend | Game/World.cpp:580-594 | decoding distributes over a split at a pair boundary |
| ChunkFile.EncodeChunkBlocks | Game/World.cpp:514-554 | the save buffer is the header followed by the run encoding of the chunk's block types, and it decodes back to exactly those types |
| ChunkFile.DecodePairStep | Game/World.cpp:580-594 | decoding one more pair extends the decoded prefix by that pair's run |
| ChunkFile.FillRun | Game/World.cpp:587-591 | the run's blocks get the type through Block::SetBlockType; every other block is unchanged |
| ChunkFile.DecodeIntoBlocks | Game/World.cpp:561-595 | a short file or a bad magic is rejected before any block changes; the decode succeeds exactly for a loadable file, and then the first blocks get the decoded types in index order and the rest are unchanged |
| Biomes.GetTemperatureBand | Game/Chunk.cpp:469-476 | the temperature band lies in 0..4; it is 0 exactly below -0.45 and 4 exactly from 0.55 up |
| Biomes.GetHumidityBand | Game/Chunk.cpp:478-485 | the humidity band lies in 0..4; it is at most 1 exactly below -0.10 and at least 3 exactly from 0.10 up |
| Biomes.GetContinentalnessBand | Game/Chunk.cpp:487-496 | the continentalness band lies in 0..6; the ocean bands (up to 2) are exactly the samples below -0.19 and the coast band 3 is exactly [-0.19, -0.11) |
| Biomes.BandsMonotone | Game/Chunk.cpp:469-496 | a larger noise sample never lands in a lower temperature, humidity or continentalness band |
| Biomes.BiomeByContinentalness | Game/Chunk.cpp:498-518 | a column is oceanic exactly when its continentalness band is at most 2, frozen exactly in the coldest band and deep exactly in bands 0-1; the coast band gives a snowy beach, a beach or a desert by temperature; beaches occur only on the coast |
| Biomes.UnreachableBiomes | Game/Chunk.cpp:498-594 | the classification never yields the coast, stony-peaks or snowy-peaks biome |
| Biomes.BiomeIgnoresErosionAndPeaks | Game/Chunk.cpp:498-502 | changing the erosion and peaks-and-valleys samples never changes the biome |
| Biomes.InlandByTemperature | Game/Chunk.cpp:520-593 | inland, the hottest band gives desert or badlands, the coldest gives snowy plains, snowy taiga or taiga, and jungle appears exactly in band 3 with humidity band 3 or more |
| Biomes.SurfaceBlocksAreGround | Game/Chunk.cpp:596-638 | for every biome the top and sub-surface blocks are neither air nor water and the underwater block is sand or stone |
| Biomes.OreChance | Game/Chunk.cpp:365-412 | the chosen block is diamond, gold, iron, coal or stone; diamond only below height 20 and gold only below 40 |
| Biomes.OrePriority | Game/Chunk.cpp:365-412 | each ore is chosen exactly when its own threshold passes and no earlier ore's does, in the order diamond, gold, iron, coal; stone exactly when none passes |
| Biomes.OreAboveGoldDepth | Game/Chunk.cpp:371-392 | from height 40 up, the diamond and gold samples do not affect the result |
| TreeStamps.Trunk | Game/GameCommon.cpp:27-31 | the trunk has one log per height, the i-th at offset (0, 0, i) |
| TreeStamps.Side | Game/GameCommon.cpp:36-39 | a row of a layer of radius r covers exactly the offsets x with abs(x) <= r |
| TreeStamps.LeafRowMembers | Game/GameCommon.cpp:39-45 | a block is among a row's leaves exactly when it is a leaf of that row and layer, its x in the scanned range, and its squared distance below the threshold |
| TreeStamps.LeafLayerMembers | Game/GameCommon.cpp:37-46 | a block is among a layer's leaves exactly when it is a leaf cell of that layer within its square radius |
| TreeStamps.LeavesMembers | Game/GameCommon.cpp:34-47 | a block is among the leaves of the scanned layers exactly when it is a leaf cell of one of them |
| TreeStamps.TreeStampShape | Game/GameCommon.cpp:22-51 | a leafy stamp is the trunk followed by exactly the leaf cells of the layers from the lowest leaf layer to two above the trunk top, all within radius 2 and not below the base |
| TreeStamps.LayerCellsWithinEight | Game/GameCommon.cpp:65-77 | every cell of every leaf layer has squared distance at most 8 from the trunk top, so the large oak's threshold 27.5 keeps every cell |
| TreeStamps.AppendLeafRow | Game/GameCommon.cpp:39-45 | the x loop appends exactly the leaf cells of one row |
| TreeStamps.AppendLeafLayer | Game/GameCommon.cpp:36-46 | the y loop appends exactly the leaf cells of one layer, whose radius is 2 - abs(z - trunkHeight) |
| TreeStamps.MakeTrunk | Game/GameCommon.cpp:27-31 | the trunk loop yields the trunk |
| TreeStamps.LeavesStep | Game/GameCommon.cpp:34-47 | one more pass of the z loop appends exactly the next layer's leaves |
| TreeStamps.AppendLeaves | Game/GameCommon.cpp:34-47 | the z loop appends exactly the leaves of the species' layers |
| TreeStamps.MakeTree | Game/GameCommon.cpp:22-51 | the shared leafy builder returns the trunk plus the leaves with radius 2 |
| TreeStamps.MakeSmallOakTree | Game/GameCommon.cpp:22-51 | the small oak: trunk height 4, oak log and leaves, five layers, threshold 3 |
| TreeStamps.MakeLargeOakTree | Game/GameCommon.cpp:53-82 | the large oak: trunk height 7, oak log and leaves, five layers, threshold 27.5 |
| TreeStamps.MakeSpruceTree | Game/GameCommon.cpp:84-113 | the spruce: trunk height 7, spruce log and leaves, five layers, threshold 5 |
| TreeStamps.MakeAcaciaTree | Game/GameCommon.cpp:115-144 | the acacia: trunk height 7, acacia log and leaves, only the three layers from the trunk top, threshold 6 |
| TreeStamps.MakeBirchTree | Game/GameCommon.cpp:146-175 | the birch: trunk height 7, birch log and leaves, five layers, threshold 6 |
| TreeStamps.MakeJungleTree | Game/GameCommon.cpp:177-206 | the jungle tree: trunk height 7, jungle log and leaves, five layers, threshold 6 |
| TreeStamps.MakeCactus | Game/GameCommon.cpp:208-221 | the cactus is exactly three cactus blocks at (0, 0, 0), (0, 0, 1) and (0, 0, 2), radius 1 |
| TreeStamps.MakeSnowySpruceTree | Game/GameCommon.cpp:223-252 | the snowy spruce: trunk height 7, spruce log and snowy spruce leaves, five layers, threshold 8 |
| TreeStamps.SpeciesParams | Game/GameCommon.cpp:22-252 | trunk heights are 4 for the small oak, 3 for the cactus and 7 for the rest; at most two leaf layers lie below the trunk top; every stamp starts with its trunk |
| TreeStamps.StampNamesDistinct | Game/GameCommon.cpp:10-20 | the eight registry keys are pairwise different, so no registration overwrites another |
| TreeStamps.AllSpeciesCount | Game/GameCommon.cpp:10-20 | there are eight species and every species is one of them |
| TreeStamps.StampTableLookup | Game/GameCommon.cpp:10-20 | in the built table every species is present with its builder's stamp |
| TreeStamps.RegisterAll | Game/GameCommon.cpp:10-20 | registering the eight stamps in turn gives a table with exactly the eight keys, each holding its stamp |
| TreeStamps.BuildTreeStamps | Game/GameCommon.cpp:10-20 | the built table holds exactly the eight species, each with its builder's stamp |
| TreeStamps.LeafyStampBounds | Game/GameCommon.cpp:22-51 | every block of a leafy stamp lies within 2 horizontally and not below the base |
| TreeStamps.LeafyWithinRadius | Game/GameCommon.cpp:22-51 | a leafy stamp keeps every block within its declared radius |
| TreeStamps.CactusStampBounds | Game/GameCommon.cpp:208-221 | the cactus blocks stand straight up from the root, inside radius 1 |
| TreeStamps.LeafySpecies | Game/GameCommon.cpp:53-252 | each leafy species' stamp is the shared leafy builder's stamp for its constants |
| TreeStamps.StampBounds | Game/GameCommon.h:88-92 | every stamp's blocks lie within its declared radius horizontally and not below its root |
| Terrain.NextState | Game/Chunk.cpp:209-252 | a dense voxel always leaves a surface recorded, and once recorded the surface height never changes |
| Terrain.VoxelType | Game/Chunk.cpp:209-267 | a dense voxel gets a solid type (neither air nor water); a non-dense one gets air or water; the voxel is left alone exactly when it is a flooded cave cell below sea level; water only below sea level; every type is a defined one |
| Terrain.StateAfter | Game/Chunk.cpp:135-252 | after the top n voxels the depth counter is within 0..SURFACE_LAYER_DEPTH, the surface is unset (depth 0) or lies among the voxels scanned |
| Terrain.SurfaceIsTopmostDense | Game/Chunk.cpp:135-252 | the surface is unset exactly when no scanned voxel passes the density test; otherwise it is the highest voxel that does |
| Terrain.AboveSurfaceIsFluid | Game/Chunk.cpp:250-267 | every voxel above the column's surface becomes water below sea level and air from sea level up |
| Terrain.SurfaceVoxelType | Game/Chunk.cpp:209-228 | the surface voxel gets the biome's top block, or its underwater block below sea level |
| Terrain.ChooseTree | Game/Chunk.cpp:283-339 | a species is chosen only off the ocean and on a solid surface; a cactus exactly on desert sand; an oak or birch exactly on forest grass or dirt |
| Terrain.TargetOf | Game/Chunk.cpp:418-450 | a stamp block is skipped exactly when its height leaves the world; otherwise its chunk step is -1, 0 or 1 per axis and step times chunk size plus the wrapped coordinate gives back the unwrapped one; a block within one chunk of the stamping chunk lands inside its target chunk |
| Terrain.CellAfterOnlyFillsAir | Game/Chunk.cpp:459-465 | stamping leaves each cell as it was, or turns an air cell into the type of one of the stamp's blocks |
| Terrain.StampFillsAirCells | Game/Chunk.cpp:459-465 | every air cell a stamp block targets ends up non-air |
| Terrain.StampStaysHome | Game/Chunk.cpp:418-450 | a stamp whose blocks all land in the stamping chunk's columns changes no cell of any other chunk |
| Terrain.TryToPlaceTreeStamp | Game/Chunk.cpp:414-467 | every cell of every chunk in the lookup table ends as the stamp sequence dictates: wrapped once into the neighbouring chunk, skipped outside the world or when the chunk is missing, written only over air |
| Terrain.PlaceStampBlock | Game/Chunk.cpp:418-465 | one stamp block changes only its target cell, and only if that cell was air |
| Terrain.LeafyStampTypes | Game/GameCommon.cpp:22-51 | every block of a leafy stamp is its log or its leaf |
| Terrain.SpeciesTypesKnown | Game/GameCommon.cpp:22-252 | every species' log and leaf types are defined block types |
| Terrain.LeafyTypesKnown | Game/GameCommon.cpp:22-51 | a leafy stamp with a defined log and leaf holds only defined types |
| Terrain.StampBlockTypes | Game/GameCommon.cpp:22-252 | every species' stamp holds only defined block types |
| Terrain.CactusStampTypes | Game/GameCommon.cpp:208-221 | the cactus stamp is cactus blocks only |
| Terrain.StampTableFits | Game/GameCommon.cpp:10-20 | the built table holds every species with a stamp of defined types within its radius |
| Terrain.RootedStampInColumns | Game/Chunk.cpp:351-354 | a stamp rooted inside the radius window keeps every block inside the chunk's columns and not below the root |
| Terrain.TreeSiteCorrected | Game/Chunk.cpp:273-354 | a species is planted only when the cell above the surface is inside the chunk and the stamp's radius window holds the root |
| Terrain.PlantTreeOnlyFillsAir | Game/Chunk.cpp:273-354 | the corrected tree step leaves each cell as it was or turns air into a stamp block's type |
| Terrain.GeneratorStampMissesWorld | Game/Chunk.cpp:351-354 | a stamp rooted inside the radius window, handed to the active-chunk table that lacks the generating chunk, changes no cell of any chunk in that table |
| Terrain.PlantedTreeAppears | Game/Chunk.cpp:273-354 | on a site passing every check, each stamp block landing on an air cell inside the world leaves a non-air block there |
| Terrain.AboveSurfaceIndexAsWritten | Game/Chunk.cpp:343 | the index read above the surface is the surface's index plus one layer |
| Terrain.TopSurfaceReadsPastChunk | Game/Chunk.cpp:273-346 | a column whose top voxel is dense has its surface at the top layer, and the unguarded read above it is outside the block array |
| Terrain.StampAboveWorldPlacesNothing | Game/Chunk.cpp:447-450 | a stamp rooted above the world places no block |
| Terrain.TopSurfaceGrowsNothing | Game/Chunk.cpp:273-354 | the guarded tree step grows nothing on a top-layer surface, the same as stamping there would |
| Terrain.PlantTree | Game/Chunk.cpp:273-354 | the tree step as written hands a stamp over exactly when the noise, surface, species, water and window tests pass, and no block of the generated chunk or of any active chunk changes |
| Terrain.StampRootedTree | Game/Chunk.cpp:354 | stamping a window-rooted tree through the active-chunk table changes nothing anywhere |
| Terrain.StampOwnChunk | Game/Chunk.cpp:414-467 | stamping into the generating chunk gives exactly the stamped block sequence |
| Terrain.FindTreeSiteCorrected | Game/Chunk.cpp:273-354 | the site tests read off the array agree with the site function |
| Terrain.PlantTreeCorrected | Game/Chunk.cpp:273-354 | the corrected tree step leaves the array equal to the corrected tree step on its old contents |
| Terrain.FillColumn | Game/Chunk.cpp:135-360 | the column loop leaves the array equal to the column function after all 128 voxels |
| Terrain.FillColumnVoxel | Game/Chunk.cpp:138-360 | one pass of the column loop advances the counters and the array by exactly one voxel of the column function |
| Terrain.FillVoxel | Game/Chunk.cpp:162-267 | one voxel advances the counters as NextState and stores VoxelType, or leaves the block when it says so |
| Terrain.DecideVoxel | Game/Chunk.cpp:162-267 | the branch structure decides exactly VoxelType and NextState |
| Terrain.FillNextColumn | Game/Chunk.cpp:108-360 | filling column x + 32 y extends the generated prefix by one column |
| Terrain.PopulateWithDensityNoiseCorrected | Game/Chunk.cpp:64-363 | the chunk ends as every column filled in row order, y outer and x inner |
| Terrain.PlantTreeKeepsTypesKnown | Game/Chunk.cpp:273-354 | the tree step keeps every block's type defined |
| Terrain.ColumnAfterKeepsTypesKnown | Game/Chunk.cpp:138-360 | filling a column keeps every block's type defined |
| Terrain.PopulatedKeepsTypesKnown | Game/Chunk.cpp:64-363 | a generated chunk holds only defined block types |
| Meshing.DefOf | Game/Chunk.cpp:969 | a definition is found exactly for a type inside the table, and it is that table entry |
| Meshing.SurroundingsOf | Game/Chunk.cpp:983-989 | the mesher sees the chunk's own array and, for each horizontal neighbour, that neighbour's array exactly when its pointer is set |
| Meshing.BlockAt | Game/BlockIterator.cpp:47-59 | a block is found exactly for an index inside the chunk and the array, and it is the array's entry |
| Meshing.LightChannel | Game/Chunk.cpp:1054-1055 | light 0 maps to channel 0, light 15 to 255, and every lower light to less than 255 |
| Meshing.FaceColor | Game/Chunk.cpp:1001-1060 | with lighting off the colour is the face tint; with lighting on, blue is the tint's blue and alpha 255, and a face with no neighbour block has zero red and green |
| Meshing.IteratorBlock | Game/BlockIterator.cpp:47-59 | a valid iterator's block is the entry at its index in its chunk's array, or nothing when the index is outside the chunk |
| Meshing.NeighborAgrees | Game/Chunk.cpp:983-989 | stepping the block iterator towards a face and taking its block gives the block beyond that face in the surroundings: inside the chunk, in the set neighbour with the coordinate wrapped, or nothing above and below the world |
| Meshing.FacesUpToMembers | Game/Chunk.cpp:981-1063 | the quads of a block are exactly its faces whose neighbour is not an opaque block, each once with its colour |
| Meshing.BlockEntry | Game/Chunk.cpp:960-968 | the table entry at a position's packed index holds that block's quads |
| Meshing.QuadTableListsBlockQuads | Game/Chunk.cpp:960-968 | the quad table lists, at every position's packed index, the quads of the block there |
| Meshing.FlattenMembers | Game/Chunk.cpp:960-966 | concatenating the first n entries holds exactly what those entries hold |
| Meshing.MeshMembers | Game/Chunk.cpp:955-1067 | a quad is in the chunk mesh exactly when its index is in the chunk, the block there has a visible definition, the face is not occluded by an opaque neighbour, and its colour is FaceColor's |
| Meshing.WorldBoundsNeverOccluded | Game/Chunk.cpp:983-994 | the top face of the top layer and the bottom face of the bottom layer are never occluded |
| Meshing.InteriorFacesHidden | Game/Chunk.cpp:986-998 | a face towards an opaque block inside the same chunk never appears in the mesh |
| Meshing.FaceQuad | Game/Chunk.cpp:983-1062 | one pass of the face loop yields no quad when the neighbour is opaque, else one quad with FaceColor's colour |
| Meshing.AppendBlockFaces | Game/Chunk.cpp:981-1063 | the face loop appends exactly the block's quads in face order |
| Meshing.AppendBlockQuads | Game/Chunk.cpp:966-974 | a block without a visible definition adds nothing; otherwise its quads are appended |
| Meshing.AppendRowQuads | Game/Chunk.cpp:964-1064 | the x loop appends the quads of the row's 32 blocks in index order |
| Meshing.AppendLayerQuads | Game/Chunk.cpp:962-1065 | the y loop appends the quads of the layer's rows in index order |
| Meshing.BuildChunkMesh | Game/Chunk.cpp:960-1066 | the z loop yields every block's quads in ascending block index |
| Meshing.GenerateChunkMesh | Game/Chunk.cpp:955-1067 | the chunk's quads are replaced by the mesh of its surroundings as they were before the build |
| Inventory.FirstStackable | Game/Player.cpp:577-585 | the slot found holds the type with room below 64 and no earlier slot does; none is found exactly when no slot qualifies |
| Inventory.FirstEmpty | Game/Player.cpp:588-596 | the slot found is AIR and no earlier slot is; none is found exactly when no slot is AIR |
| Inventory.TotalUpdate | Game/Player.cpp:575-620 | changing one slot changes the number of blocks held of a type by exactly that slot's old and new contributions |
| Inventory.PhysicsModeCycle | Game/Player.cpp:336-341 | the mode goes WALKING, FLYING, NOCLIP and back, returning after three presses and never staying put |
| Inventory.SlotForDigitKey | Game/Player.cpp:392-405 | keys 1 to 9 select slots 0 to 8 and key 0 selects slot 9, always a slot of the inventory |
| Inventory.AfterAdd | Game/Player.cpp:575-599 | stacks stay at most 64, a slot that changes type becomes the added type with one block, and the slots change exactly when a stack has room or a slot is AIR |
| Inventory.Player.constructor | Game/Player.cpp:23-37 | a new player holds glowstone 64, cobblestone 12 and chiseled brick 64 in slots 0-2, AIR with count 0 elsewhere, slot 0 selected, walking |
| Inventory.Player.AddBlockToInventory | Game/Player.cpp:575-599 | the two loops leave exactly AfterAdd's slots and report success exactly when a stack had room or a slot was AIR, keeping the inventory valid |
| Inventory.Player.RemoveBlockFromSelectedSlot | Game/Player.cpp:602-621 | an AIR or empty selected slot is left alone with false; otherwise its count drops by one and a slot reaching zero becomes AIR |
| Inventory.Player.SelectSlotForDigitKey | Game/Player.cpp:392-405 | a digit key selects SlotForDigitKey's slot and nothing else changes |
| Inventory.Player.ScrollUp | Game/Player.cpp:408-415 | scrolling up selects the previous slot, wrapping from 0 to 9 |
| Inventory.Player.ScrollDown | Game/Player.cpp:416-423 | scrolling down selects the next slot, wrapping from 9 to 0 |
| Inventory.Player.ClearSelectedSlot | Game/Player.cpp:426-432 | the selected slot becomes AIR with count 0 and no other slot changes |
| Inventory.Player.ClearInventory | Game/Player.cpp:435-442 | every slot becomes AIR with count 0 |
| Inventory.Player.CyclePhysicsMode | Game/Player.cpp:336-341 | the mode advances to the next one in the cycle and the selected slot is kept |
| Inventory.AddRaisesTotalByOne | Game/Player.cpp:575-599 | a successful add holds exactly one more block of the added type and the same number of every other type |
| LightInit.Unlit | Game/World.cpp:708-712 | a reset block has no indoor or outdoor light and is neither light-dirty nor sky, while its type and its opaque, solid and visible flags stay |
| LightInit.ResetBlocks | Game/World.cpp:706-713 | the reset keeps the length and resets every block |
| LightInit.ResetLighting | Game/World.cpp:706-713 | the reset loop turns every block of the chunk into its reset form |
| LightInit.SeesSkySameOpacity | Game/World.cpp:766-794 | whether a block sees the sky depends only on which blocks are opaque |
| LightInit.ClearAboveStep | Game/World.cpp:768-794 | going one block down, the column stays clear exactly when that block is not opaque |
| LightInit.ClearAboveSameOpacity | Game/World.cpp:766-794 | whether a column is clear from a height up depends only on which blocks are opaque |
| LightInit.BoundaryStep | Game/World.cpp:722-726 | each step of the boundary pass (z outer, x, then y inner) visits an in-range block whose visiting order is that step |
| LightInit.BoundaryVisitsEach | Game/World.cpp:722-726 | the boundary pass visits every block of the chunk exactly at the step its order names |
| LightInit.SkyStep | Game/World.cpp:762-770 | each step of the sky pass (x outer, y, then z from the top down) visits an in-range block whose order is that step |
| LightInit.SkyVisitsEach | Game/World.cpp:762-770 | the sky pass visits every block of the chunk exactly at the step its order names |
| LightInit.SkyNextStep | Game/World.cpp:768 | within a column the next step of the sky pass is the block directly below |
| LightInit.SkyLitBefore | Game/World.cpp:777-790 | every block the sky pass has lit is in the chunk and sees the sky |
| LightInit.SkyLitStep | Game/World.cpp:766-794 | each step lights the block it visits exactly when that block sees the sky, and nothing else |
| LightInit.SkyLitAll | Game/World.cpp:760-798 | the sky pass lights exactly the blocks with no opaque block above them in their column |
| ChunkStates.JobChunksDistinctPush | Game/World.cpp:308-331 | adding a job for a chunk that has no job yet keeps every chunk to at most one job |
| ChunkStates.ArraysOfValues | Game/World.cpp:419 | the arrays of the active chunks are the arrays of the map's values |
| ChunkStates.ArrivingArraysApart | Game/World.cpp:391-432 | no chunk on its way in shares its block array with an active chunk |
| ChunkStates.QueuedNowhereElse | Game/World.cpp:299-409 | a chunk in a queued state is in no other queue, no job list and not active |
| ChunkStates.QueueFrontOut | Game/World.cpp:303-304 | taking the front chunk off a queue keeps the streaming invariant for the rest, and the chunk is then in no queue, job list or active slot |
| ChunkStates.StartRunning | Game/World.cpp:303-310 | a dispatched chunk enters its kind's running state and the streaming invariant holds with the chunk off its queue and its job added to the pending jobs |
| ChunkStates.SetRunningState | Game/World.cpp:306 | setting the state of a chunk held nowhere else keeps the streaming invariant and changes no block array |
| ChunkStates.JobPushed | Game/World.cpp:308-310 | a running chunk with no job yet can get a pending job without breaking the streaming invariant |
| ChunkStates.FrontPendingApart | Game/World.cpp:1150-1190 | the oldest pending job's chunk is in its running state, in no queue, and apart from everything else the streaming invariant reads |
| ChunkStates.FrontJobDone | Game/World.cpp:1150-1190 | a job that completed moves to the end of the completed jobs and the streaming invariant holds |
| ChunkStates.FrontJobStalled | Game/World.cpp:1150-1190 | a job that stopped without completing stays at the front of the pending jobs and the streaming invariant holds |
| ChunkStates.RetireFront | Game/World.cpp:351-383 | retiring the oldest completed job keeps the streaming invariant; a generate or load chunk leaves the arriving set in its complete state, ready to become active |
| ChunkStates.JoinActive | Game/World.cpp:411-432 | a departed chunk joining the active map at its own coordinates keeps the streaming invariant, and shares no array or identity with an arriving or active chunk |
| WorldJobs.StageStatesDistinct | Game/World.cpp:299-389 | the queued, running and complete states of the three kinds are nine different states, none of them ACTIVE, so a state names its kind and stage |
| WorldJobs.MakeJob | Game/World.cpp:308-342 | the job made for a kind captures the chunk and is of that kind |
| WorldJobs.JobsFor | Game/World.cpp:301-345 | dispatching a run of chunks makes one job per chunk |
| WorldJobs.JobChunks | Game/World.hpp:25-53 | the chunks of a job list are the jobs' chunks in order |
| WorldJobs.ActivationChunks | Game/World.cpp:353-372 | a chunk is brought in by a job list exactly when a generate or load job of the list holds it |
| WorldJobs.ActivationChunksPush | Game/World.cpp:308-331 | appending a job adds its chunk to the chunks brought in exactly when it is a generate or load job |
| WorldJobs.ActivationChunksTail | Game/World.cpp:351-372 | dropping the first job removes at most its own chunk from the chunks brought in |
| WorldJobs.JobChunksTail | Game/World.cpp:351 | the chunks of a list without its first job are the chunks without the first |
| WorldJobs.JobChunksPush | Game/World.cpp:309 | appending a job appends its chunk |
| WorldJobs.CountKind | Game/World.cpp:310-382 | a list holds at most as many jobs of a kind as it has jobs |
| WorldJobs.CountKindAppend | Game/World.cpp:310-382 | counting jobs of a kind splits over concatenation |
| WorldJobs.CountKindTail | Game/World.cpp:361-382 | dropping the first job lowers exactly its own kind's count by one |
| WorldJobs.CountKindRemove | Game/World.cpp:361-382 | dropping the job at any position lowers exactly its own kind's count by one |
| WorldJobs.CountKindSingle | Game/World.cpp:310-344 | a single job counts one for its kind and zero for the others |
| WorldJobs.CountKindPush | Game/World.cpp:310-344 | handing over one more job raises exactly its kind's count by one |
| WorldJobs.CountKindRotate | Game/World.cpp:1150-1190 | a job moving from pending to completed keeps every kind's count |
| WorldJobs.CountsMatchPush | Game/World.cpp:301-345 | handing over a job below its kind's cap raises exactly that kind's counter and keeps every counter equal to its kind's number of outstanding jobs, within its cap |
| WorldJobs.CountsMatchDrop | Game/World.cpp:348-389 | retiring the oldest completed job lowers exactly its kind's counter and keeps every counter equal to its kind's number of outstanding jobs |
| WorldJobs.CountKindDrop | Game/World.cpp:348-389 | retiring the oldest completed job lowers exactly its kind's count by one |
| WorldJobs.CountJobsFor | Game/World.cpp:301-345 | a dispatch of n chunks as jobs of one kind counts n jobs of that kind and none of the others |
| WorldJobs.DispatchedUnfold | Game/World.cpp:301-316 | one round of a dispatch loop takes the front chunk exactly while the queue is not empty and the counter is below the cap |
| WorldJobs.JobsForCons | Game/World.cpp:301-345 | the jobs for a run start with the job for its first chunk |
| WorldJobs.DispatchedTakesFront | Game/World.cpp:301-345 | a dispatch takes some n chunks off the front of its queue and raises its counter by n |
| WorldJobs.HandOverStep | Game/World.cpp:303-310 | handing over the front chunk and then n - 1 more hands over the first n in order |
| WorldJobs.DispatchedHandsOver | Game/World.cpp:301-345 | the jobs a dispatch appends are one of its kind per chunk taken, in queue order |
| WorldJobs.DispatchedStops | Game/World.cpp:301-345 | a dispatch stops only with its queue empty or its counter at the cap, and never passes the cap |
| WorldJobs.DispatchedCounts | Game/World.cpp:301-345 | a dispatch raises its kind's number of outstanding jobs by exactly what it adds to the counter and leaves the other kinds' alone |
| WorldLinks.Lookup | Game/World.cpp:940-948 | the lookup finds a chunk exactly for a key of the active map, and it is the map's chunk |
| WorldLinks.BesideBack | Game/World.cpp:437-465 | a step to a neighbouring chunk and the step back cancel |
| WorldLinks.LinksSymmetric | Game/World.cpp:434-467 | with links agreeing with the map, one chunk points at another towards a direction exactly when the other points back the opposite way |
| WorldLinks.BesideIff | Game/World.cpp:437-465 | one chunk is a step from another towards a direction exactly when the other is a step back the opposite way |
| WorldLinks.PointsAtIff | Game/World.cpp:434-467 | an active chunk's link towards a direction is another active chunk exactly when that chunk is one step that way |
| WorldLinks.LinkedIsActive | Game/World.cpp:434-467 | a set link of an active chunk leads to the active chunk one step over |
| WorldLinks.AroundActive | Game/World.cpp:434-467 | an active chunk and every chunk its links reach are active |
| WorldLinks.LinksOkGeometric | Game/World.cpp:434-467 | links agreeing with the map point one chunk over in their own direction |
| WorldLinks.LinksOkButNothing | Game/World.cpp:434-467 | a hook-up with no directions left has every link agreeing with the map |
| WorldLinks.InsertUnlinked | Game/World.cpp:419-428 | inserting an unlinked chunk into the active map leaves every link right except its own and the back-links its hook-up sets |
| WorldLinks.RemovingStart | Game/World.cpp:494-512 | before the tear-down, every back-pointer to the removed chunk is still set and every other link agrees with the map without it |
| WorldLinks.RemovingDone | Game/World.cpp:494-512 | once all four back-pointers are cleared, every link agrees with the map without the removed chunk |
| WorldLinks.BesideElsewhere | Game/World.cpp:437-465 | a chunk is never its own horizontal neighbour |
| WorldLinks.OppositeTwice | Game/World.cpp:437-465 | turning round twice faces the same way |
| WorldLinks.Link | Game/World.cpp:440-465 | storing a link sets exactly the link of that direction and keeps the other three |
| WorldLinks.HookUpSide | Game/World.cpp:437-442 | one direction of the hook-up links the new chunk and the active chunk beside it both ways, settling that direction |
| WorldLinks.HookUpNeighbors | Game/World.cpp:434-467 | after the hook-up every link of every active chunk agrees with the active map, and the new chunk's links are exactly the active chunks beside it |
| WorldLinks.UnlinkSide | Game/World.cpp:496-499 | one direction of the tear-down clears the back-pointer of the chunk beside the removed one, settling that direction |
| WorldLinks.RemoveFromNeighbors | Game/World.cpp:494-512 | after the tear-down every link agrees with the active map without the removed chunk, and the removed chunk's own links are unchanged |
| WorldLight.Dim | Game/World.cpp:647-648 | a neighbour passes on one level less than its own, never below zero, so at most 14 |
| WorldLight.Passed | Game/World.cpp:895-904 | a neighbour passes on light exactly when it has a block, and the levels it passes are at most 14 |
| WorldLight.Brightest | Game/World.cpp:878-904 | per channel, the result is at least the block's own light and every light passed on, and it equals one of them |
| WorldLight.LightNeighbors | Game/World.cpp:885-893 | the six neighbours, each in a chunk the block's chunk reaches through its links |
| WorldLight.OwnLight | Game/World.cpp:871-879 | a block's own light is its definition's indoor emission, and its outdoor emission or 15 for a non-opaque sky block |
| WorldLight.CorrectLight | Game/World.cpp:856-909 | the correct light has both channels between 0 and 15, and is darkness when there is no block |
| WorldLight.CorrectLightMeaning | Game/World.cpp:856-909 | the correct light is at least the block's own light, exactly that for an opaque block, and otherwise the least level above every neighbour's contribution |
| WorldLight.NeighborIsElsewhere | Game/World.cpp:885-893 | with links agreeing with the map, none of a block's six neighbours is the block itself |
| WorldLight.Walked | Game/World.cpp:1016-1019 | a block a sky walk passes takes the walk's sky flag and is light-dirty, with type, opacity and light unchanged |
| WorldLight.SkyWalkStep | Game/World.cpp:1005-1021 | one turn of the walk: the walked block, then the walk from the block below, pushing the block unless already queued |
| WorldLight.SkyWalkStops | Game/World.cpp:1005-1014 | a walk from outside the chunk or from an opaque block changes nothing and queues nothing |
| WorldLight.OpenRunBelow | Game/World.cpp:1005-1021 | every block a walk reaches lies at or below its start and is not opaque |
| WorldLight.OpenRunSameOpacity | Game/World.cpp:1005-1021 | where a walk goes depends only on which blocks are opaque |
| WorldLight.SkyWalkedCells | Game/World.cpp:1001-1046 | a sky walk changes exactly the blocks of its open run, each to its walked form |
| WorldLight.WalkPushesCells | Game/World.cpp:1001-1046 | a sky walk queues exactly the blocks of its open run that were not light-dirty yet |
| WorldLight.OpenRunIsClearColumn | Game/World.cpp:1001-1046 | a walk reaches a block exactly when it is in the same column at or below the start with no opaque block in between |
| WorldLight.EditCells | Game/Chunk.cpp:1291-1334 | an edit gives the block the new type and the light-dirty flag, clears sky for an opaque type, sets it under a sky block for a clear type, walks the run below and keeps every other block |
| WorldLight.EditInSteps | Game/Chunk.cpp:1307-1334 | the edit in the source's order (type and flag, then sky flag, then walk) gives the same blocks and the same queue pushes |
| WorldLight.DirtyOkInsert | Game/World.cpp:664-682 | activating a chunk with no light-dirty block keeps the light queue in step with the flags |
| WorldLight.DirtyOkRemove | Game/World.cpp:664-682 | deactivating a chunk nothing is queued for keeps the light queue in step with the flags |
| MeshQueue.ChunkDistSq | Game/World.cpp:932-937 | the squared distance from the camera to a chunk's centre is never negative |
| MeshQueue.CameraChunkCoords | Game/World.cpp:911-916 | the chunk coordinates of a camera position name the chunk whose span holds that position on each axis |
| MeshQueue.ActivationDeactivationGap | Game/GameCommon.h:150-151 | no chunk position is both close enough to be created and far enough to be evicted for the same camera position |
| MeshQueue.GatherCandidates | Game/World.cpp:211-228 | the gathered queue holds exactly the active chunks that are mesh-dirty and within build range, each once |
| MeshQueue.NoDuplicatesTail | Game/World.cpp:211-228 | the front of a queue without repeats is not in its rest, which has no repeats either |
| MeshQueue.Members | Game/World.cpp:211-228 | a chunk is a member exactly when the queue holds it |
| MeshQueue.ClosestFrom | Game/World.cpp:233-245 | the selection step finds the first entry from the given position on whose distance is the least |
| MeshQueue.SwapKeepsMultiset | Game/World.cpp:247-250 | swapping two entries keeps the queue's multiset |
| MeshQueue.NoDuplicatesCard | Game/World.cpp:211-228 | a queue without repeats holds as many entries as it has members |
| MeshQueue.PermutationNoDuplicates | Game/World.cpp:230-251 | a rearrangement of a queue without repeats has the same members and no repeats |
| MeshQueue.MultiplicityOne | Game/World.cpp:211-228 | a queue without repeats holds each chunk at most once |
| MeshQueue.SortByDistance | Game/World.cpp:230-251 | the sorted queue holds the same chunks, ordered by distance from the camera, closest first |
| MeshQueue.ReadyOf | Game/World.cpp:265-271 | an entry is ready exactly when it is mesh-dirty and all four neighbours are linked |
| MeshQueue.ReadyCount | Game/World.cpp:256-279 | among the first entries, no more are ready than there are entries |
| MeshQueue.BuiltCountCapped | Game/GameCommon.h:155 | a frame builds as many meshes as there are ready entries, but never more than MAX_MESHES_PER_FRAME |
| MeshQueue.ReadyCountMonotone | Game/World.cpp:256-279 | the count of ready entries never shrinks as the prefix grows |
| MeshQueue.BuiltInQueueOrder | Game/World.cpp:256-279 | a ready entry ahead of a built one is built too, so the closest ready chunks go first |
| MeshQueue.DirtyFlags | Game/World.cpp:286-296 | the flag list has one entry per queue position, each that chunk's mesh-dirty flag |
| MeshQueue.SelectedStep | Game/World.cpp:286-296 | each step of the erase loop keeps the entry exactly when its flag is set |
| MeshQueue.EraseStep | Game/World.cpp:288-291 | erasing the first unvisited entry leaves the kept prefix followed by the rest |
| MeshQueue.EraseMeshClean | Game/World.cpp:284-297 | the clean-up leaves exactly the entries still mesh-dirty, in queue order |
| MeshQueue.CleanUpStep | Game/World.cpp:286-296 | each step either erases the entry or adds it to the kept prefix, as its flag says |
| MeshQueue.SelectedKeepsFlagged | Game/World.cpp:286-296 | the selection keeps exactly the flagged entries and never grows the queue |
| MeshQueue.DirtyOnlyKeepsDirty | Game/World.cpp:284-297 | the clean-up keeps exactly the mesh-dirty entries and never grows the queue |
| MeshQueue.BuildQueuedMeshes | Game/World.cpp:253-282 | the frame rebuilds exactly the ready entries within the per-frame cap, each a chunk that was mesh-dirty with all four neighbours linked; each rebuilt chunk's mesh is the one GenerateChunkMesh builds from its surroundings and its flag is cleared; every other entry keeps its mesh and flag |
| MeshQueue.BuildFrame | Game/World.cpp:256-279 | the build loop's readiness is each entry's mesh-dirty flag and neighbour links on entry; it rebuilds the entries Built picks, as many as are ready but at most MAX_MESHES_PER_FRAME, each with the mesh GenerateChunkMesh builds; exactly they lose the flag and the others keep their meshes |
| MeshQueue.BuiltSetIndex | Game/World.cpp:256-279 | in a queue without repeats, a chunk is rebuilt exactly when its position is picked |
| MeshQueue.BuiltSetSize | Game/World.cpp:258-270 | in a queue without repeats, a frame rebuilds as many chunks as there are ready entries, but never more than MAX_MESHES_PER_FRAME |
| MeshQueue.BuiltSetRest | Game/World.cpp:258-261 | once the cap is reached, no later entry is rebuilt |
| MeshQueue.BuildQueueEntry | Game/World.cpp:263-278 | one turn rebuilds the entry exactly when it is ready and the cap is not reached: its mesh becomes the one GenerateChunkMesh builds and its flag is cleared; the meshes built earlier stay current |
| MeshQueue.RebuildMesh | Game/World.cpp:275-276 | the chunk's mesh becomes the one GenerateChunkMesh builds from its surroundings, and it is no longer mesh-dirty |
| StreamScan.DistFromIs | Game/World.cpp:193-194 | the scan measures the squared distance from the camera to each chunk's centre |
| StreamScan.PicksFrom | Game/World.cpp:176-206 | the scan creates at most 25 chunks, each for a missing position of the square within the activation range, each strictly closer than the one before |
| StreamScan.RestFromIs | Game/World.cpp:178-206 | the remainder the loops carry is the rest of the scan |
| StreamScan.PickStep | Game/World.cpp:187-204 | one position of the scan creates a chunk exactly when it is missing, in range and closer than the closest so far |
| StreamScan.ScanSpent | Game/World.cpp:182-185 | with no budget left the scan stops |
| StreamScan.ScanEnd | Game/World.cpp:178 | past the last row nothing remains of the scan |
| StreamScan.RowDone | Game/World.cpp:178-180 | the end of a row goes on with the first position of the next row |
| StreamScan.StepAhead | Game/World.cpp:180 | a position at or past one offset is that offset or past the next |
| StreamScan.RowEnd | Game/World.cpp:178-180 | a position of the square past the end of a row lies in a later row |
| StreamScan.NoPickIffNoCandidate | Game/World.cpp:166-207 | with budget left the scan creates nothing exactly when no missing position of the square is within the activation range |
| StreamScan.FirstPickIsFirstCandidate | Game/World.cpp:166-207 | the first chunk the scan creates is for the first missing in-range position in scan order |
| StreamScan.PicksDistinct | Game/World.cpp:166-207 | the scan never creates two chunks for the same position |
| StreamScan.CoordsOf | Game/World.cpp:199-201 | one coordinate pair per created chunk |
| StreamScan.RecordPick | Game/World.cpp:199-202 | recording a created chunk moves its position from the scan's remainder to the record |
| StreamScan.Loads | Game/World.cpp:399-403 | the load queue receives only created chunks whose save file exists |
| StreamScan.Generates | Game/World.cpp:404-408 | the generate queue receives only created chunks without a save file |
| StreamScan.QueuedAfterAppend | Game/World.cpp:391-409 | activating one more chunk appends it to exactly the queue its save file decides |
| StreamScan.LoadsGeneratesSplit | Game/World.cpp:391-409 | every created chunk goes to exactly one of the two queues |
| Worlds.DirtiedTwice | Game/World.cpp:664-682 | a block changed at most by gaining the light-dirty flag, twice over, is changed at most by gaining it once |
| Worlds.InitChain | Game/World.cpp:699-718 | the three marking passes of the lighting set-up compose: each block ends at the sky pass's stage for the blocks the chunk started with, and the linked sides and the emitters are still flagged |
| Worlds.SidesOfHooked | Game/World.cpp:434-467 | a hooked-up chunk has a neighbour pointer set exactly on the sides where an active chunk lies |
| Worlds.ActivatedLight | Game/World.cpp:699-798 | after the set-up every block keeps its type, has indoor light 0, and is sky with outdoor light 15 exactly when nothing opaque stands above it in its column, else outdoor light 0 |
| Worlds.InsertKeepsLightState | Game/World.cpp:411-432 | inserting an unlinked, unflagged chunk keeps the light queue in step with the flags and leaves only its hook-up to do |
| Worlds.RemoveKeepsLightState | Game/World.cpp:469-492 | taking out an active chunk that nothing in the light queue names keeps the queue in step with the flags and every type known |
| Worlds.WaitingFromQueues | Game/World.cpp:391-409 | each chunk the scan created waits, full size and unlinked, in the queued state its save file decides |
| Worlds.World.MarkLightingDirty | Game/World.cpp:664-682 | an existing block not yet flagged gets the flag and is appended to the light queue; otherwise nothing changes, so marking twice is marking once |
| Worlds.World.MarkLightingDirtyIfNotOpaque | Game/World.cpp:685-697 | an existing non-opaque block ends flagged, appended to the queue if it was not; an opaque or missing block changes nothing |
| Worlds.World.MarkChunkMeshesDirtyAround | Game/World.cpp:819-854 | a block with a chunk makes its own chunk and the chunks of its valid neighbours mesh-dirty; every other mesh flag stays |
| Worlds.World.PopDirtyLightBlock | Game/World.cpp:613-623 | the front iterator leaves the queue, names a block of an active chunk, and that block loses the light-dirty flag and nothing else |
| Worlds.World.StoreLight | Game/World.cpp:630-631 | both light levels of the block are stored and read back as given; nothing else changes |
| Worlds.World.RelightFront | Game/World.cpp:613-631 | the front block leaves the queue unflagged with its correct light, keeping type, sky and opacity, and `changed` says whether its light differs from before |
| Worlds.World.MarkNeighborsDirty | Game/World.cpp:636-660 | every existing non-opaque neighbour among the first `count` ends flagged and queued; the block itself is unchanged and every other block at most gains the flag |
| Worlds.World.MarkEachNeighbor | Game/World.cpp:648-660 | the neighbour loop leaves every visited neighbour marked, the block itself unchanged and every block at most flagged |
| Worlds.World.MarkNeighborDirty | Game/World.cpp:650-659 | one neighbour step marks that neighbour, leaves the centre block unchanged and every block at most flagged |
| Worlds.World.PropagateLightChange | Game/World.cpp:633-660 | after a light change the chunks around are mesh-dirty, every existing non-opaque neighbour is queued, and the block itself is unchanged |
| Worlds.World.ProcessFrontDirtyLightBlock | Game/World.cpp:613-661 | the front block gets its correct light; only when it changed are meshes marked and neighbours queued, otherwise no other block, flag or queue entry changes |
| Worlds.World.ProcessNextDirtyLightBlock | Game/World.cpp:606-661 | an empty queue changes nothing; otherwise the front block is unflagged with its correct light, the rest of the queue stays in order at its front, and no block changes type |
| Worlds.World.ProcessDirtyLighting | Game/World.cpp:597-604 | `drained` says the queue is empty, and then no block of any active chunk is light-dirty; no block changes type |
| Worlds.World.InitializeChunkLighting | Game/World.cpp:699-718 | each block of the chunk ends at the sky pass's stage, the non-opaque blocks on linked sides and the emitters are flagged, and other chunks only gain flags |
| Worlds.World.BoundaryStage | Game/World.cpp:720-758 | the boundary pass only sets flags, and every non-opaque block on a linked side is flagged |
| Worlds.World.SkyStageOf | Game/World.cpp:760-798 | the sky pass leaves every block of the chunk at its sky stage, and blocks of other chunks at most gain the flag |
| Worlds.World.EmissiveStage | Game/World.cpp:800-817 | the emissive pass only sets flags, and every emitter is flagged |
| Worlds.World.MarkBoundaryBlocksDirty | Game/World.cpp:720-758 | every non-opaque block on a side with a neighbour chunk ends flagged; blocks change at most by gaining the flag |
| Worlds.World.MarkBoundaryBlock | Game/World.cpp:726-753 | one visited block is marked when it lies on a linked side, and the earlier marks stay |
| Worlds.World.StoreSky | Game/World.cpp:777-778 | the block gets the sky flag and outdoor light 15, nothing else changes |
| Worlds.World.StoreSkyAndQueue | Game/World.cpp:777-783 | the block is sky-lit and flagged; no other block of its chunk changes |
| Worlds.World.LightSkyBlock | Game/World.cpp:774-790 | the block is sky-lit, its four horizontal neighbours are marked, and every other block at most gains the flag |
| Worlds.World.MarkSkyAndOutdoorLight | Game/World.cpp:760-798 | every block of the chunk is at its sky stage, every block that sees the sky has its four horizontal neighbours marked, and blocks of other chunks at most gain the flag |
| Worlds.World.SkyPass | Game/World.cpp:762-797 | after the column walks every block is at its sky stage and every sky-lit block's neighbours are marked |
| Worlds.World.MarkSkyStep | Game/World.cpp:768-795 | the visited block reaches its sky stage, and the returned flag says whether an opaque block lies at or above it in its column |
| Worlds.World.LightSkyStep | Game/World.cpp:774-790 | the visited block reaches its sky stage and the pass's invariants advance by one block |
| Worlds.World.MarkEmissiveBlocksDirty | Game/World.cpp:800-817 | every block whose definition gives off light ends flagged; blocks change at most by gaining the flag |
| Worlds.World.MarkEmissiveBlock | Game/World.cpp:804-815 | one block is marked when it is an emitter, and the earlier marks stay |
| Worlds.World.StoreSkyFlag | Game/World.cpp:1018 | only the block's sky flag changes |
| Worlds.World.WalkSkyBlock | Game/World.cpp:1013-1019 | one walk step sets the block's sky flag and light-dirty flag and queues it unless it was already queued |
| Worlds.World.WalkSkyDown | Game/World.cpp:1001-1046 | the chunk's blocks become the sky walk down from the start block, and the queue grows by exactly the walk's pushes |
| Worlds.World.WalkSkyStep | Game/World.cpp:1005-1020 | one step walks the block and moves to the block below; what remains of the walk ends where the whole walk would |
| Worlds.World.SetChunkBlockType | Game/Chunk.cpp:1291-1336 | outside the chunk or with the same type nothing changes; otherwise the blocks and the light queue change as the edit describes and the chunk is mesh-dirty and needs saving |
| Worlds.World.EditBlock | Game/Chunk.cpp:1307-1336 | the blocks and the light queue change exactly as the edit describes |
| Worlds.World.SkyEdit | Game/Chunk.cpp:1317-1336 | the block's sky flag is set or cleared and the blocks below are sky-walked, the queue growing by the walk's pushes |
| Worlds.World.PlaceBlockType | Game/Chunk.cpp:1311-1315 | the new type is stored, the block is flagged and queued unless already queued |
| Worlds.World.StoreBlockType | Game/Chunk.cpp:1311 | only the block's type changes |
| Worlds.World.ChunkAt | Game/World.cpp:963-964 | the active chunk holding the coordinates, or none when their chunk is not active |
| Worlds.World.GetBlockTypeAtCoords | Game/World.cpp:977-999 | coordinates outside the active chunks read as air |
| Worlds.World.GetBlockTypeAtCoordsCorrected | Game/World.cpp:977-999 | coordinates outside the active chunks or outside the height range read as air |
| Worlds.World.BlockTypeAtOwnCoords | Game/World.cpp:977-999 | every block of every active chunk is read back at its own global coordinates |
| Worlds.World.WrappedReadAbove | Game/World.cpp:977-999 | 128 blocks above any block the as-written read returns that block's type, the corrected read air |
| Worlds.World.SetBlockTypeAtCoords | Game/World.cpp:961-975 | the result is true exactly when an active chunk holds the coordinates; the edit goes to the block at the chunk's masked index, with no change when the type is the same |
| Worlds.World.SetBlockTypeAtCoordsCorrected | Game/World.cpp:961-975 | the result is true exactly when an active chunk holds the coordinates; outside the height range nothing changes, inside it the block at exactly those coordinates is edited |
| Worlds.World.UpdateMeshBuildQueue | Game/World.cpp:209-251 | the queue holds exactly the mesh-dirty active chunks in build range, once each, closest first |
| Worlds.World.CleanUpMeshBuildQueue | Game/World.cpp:284-297 | the queue keeps exactly its mesh-dirty entries, in order |
| Worlds.World.CleanUpBesideInvariants | Game/World.cpp:284-297 | the clean-up keeps the streaming and lighting invariants |
| Worlds.World.BuildMeshesThisFrame | Game/World.cpp:253-282 | after relighting, the frame rebuilds the mesh-dirty entries with all four neighbours linked, in queue order, as many as are ready but at most MAX_MESHES_PER_FRAME, skipping the others; each rebuilt mesh is the one GenerateChunkMesh builds; the queue then keeps exactly the entries still mesh-dirty, and `drained` says the light queue is empty |
| Worlds.World.RelightBesideArrivals | Game/World.cpp:255 | relighting keeps the streaming invariant and reports whether the light queue drained |
| Worlds.World.BuildAndCleanUp | Game/World.cpp:256-281 | the ready entries the cap admits are rebuilt, each with the mesh GenerateChunkMesh builds, and the queue keeps exactly the entries still mesh-dirty |
| Worlds.World.BuildQueued | Game/World.cpp:256-279 | the chunks rebuilt are the ready queue entries the cap admits; each gets the mesh GenerateChunkMesh builds, and exactly they lose the mesh-dirty flag |
| Worlds.World.BuildQueuedMeshesOnly | Game/World.cpp:256-279 | over the world's queue, the rebuilt chunks are those Built picks, each with the mesh GenerateChunkMesh builds, and exactly they lose the mesh-dirty flag |
| Worlds.World.CleanUpAfterBuild | Game/World.cpp:284-297 | the clean-up after a frame keeps exactly the entries still mesh-dirty and leaves the meshes just built current |
| Worlds.World.CleanUpKeepingMeshes | Game/World.cpp:284-297 | the clean-up changes only the queue, so every mesh built this frame stays the one GenerateChunkMesh builds |
| Worlds.World.constructor | Game/World.cpp:14-17 | a world with nothing active, nothing queued and no jobs, which satisfies every invariant |
| Worlds.World.GetWorldChunk | Game/World.cpp:940-948 | the chunk is found exactly when the coordinates are active, and it is the active chunk there |
| Worlds.World.ActivateChunk | Game/World.cpp:391-409 | a chunk at active coordinates is left alone; otherwise it is queued for load when its file exists, for generation when not, in the matching state |
| Worlds.World.QueueForLoad | Game/World.cpp:399-403 | the chunk waits in the load queue in the queued-load state |
| Worlds.World.QueueForGeneration | Game/World.cpp:404-408 | the chunk waits in the generate queue in the queued-generate state |
| Worlds.World.QueueClosestMissingChunk | Game/World.cpp:166-207 | at the active-chunk cap nothing is created; otherwise the chunks created are exactly the scan's picks, each new and queued as its save file decides |
| Worlds.World.ScanAround | Game/World.cpp:173-206 | the chunks created are exactly the positions the scan takes, each new and queued as its save file decides |
| Worlds.World.ScanRows | Game/World.cpp:178-206 | the outer loop creates the scan's picks until the budget runs out or the rows end |
| Worlds.World.ScanRow | Game/World.cpp:180-205 | one row creates the scan's picks in it and reports when the budget is spent |
| Worlds.World.ScanStep | Game/World.cpp:182-204 | one position extends the record by the chunk it created, if any |
| Worlds.World.ScanPosition | Game/World.cpp:187-204 | a missing position in range and closer than the last pick gets a new queued chunk; otherwise nothing changes |
| Worlds.World.CreateAndActivate | Game/World.cpp:201-202 | a new full-size, unlinked chunk at the position is queued for load or generation as its save file decides |
| Worlds.World.RegisterArrival | Game/World.cpp:201 | a newly constructed chunk joins the chunks on their way in |
| Worlds.World.FinalizeActivatedChunk | Game/World.cpp:411-432 | a chunk at active coordinates is left alone; otherwise it joins the active chunks, is mesh-dirty and not in need of saving, and its lighting is set up while other chunks only gain flags |
| Worlds.World.SetActivatedFlags | Game/World.cpp:421-425 | the chunk is mesh-dirty and does not need saving; no block changes |
| Worlds.World.AddActiveChunk | Game/World.cpp:418-431 | the chunk joins the active chunks, is linked with the chunks beside it and has its lighting set up |
| Worlds.World.ResetAndInsert | Game/World.cpp:419-428 | the chunk's blocks are reset, it joins the active chunks and is linked on exactly the sides where chunks are active |
| Worlds.World.InsertActivatedChunk | Game/World.cpp:419-428 | the chunk joins the active chunks and is linked on exactly the sides where chunks are active |
| Worlds.World.DeActivateChunk | Game/World.cpp:469-492 | a chunk at free coordinates is left alone; otherwise it is unlinked and removed, and queued for saving exactly when it has unsaved changes |
| Worlds.World.DetachActiveChunk | Game/World.cpp:476-480 | the chunk leaves the active chunks with its neighbours unlinked from it, full size, in a complete state |
| Worlds.World.UnlinkAndRemove | Game/World.cpp:476-480 | the chunk leaves the active chunks and the lighting invariant still holds |
| Worlds.World.QueueForSave | Game/World.cpp:482-486 | the chunk waits in the save queue in the queued-save state |
| Worlds.World.FurthestChunk | Game/World.cpp:143-158 | no chunk is found exactly when no active chunk is beyond the deactivation range; otherwise the one found is active, beyond it, and no active chunk is farther |
| Worlds.World.DeactivateFurthestChunk | Game/World.cpp:141-164 | with no chunk beyond range nothing changes; otherwise the farthest one leaves the active chunks and is queued for saving exactly when it needs saving |
| Worlds.World.DispatchGenerateJobs | Game/World.cpp:299-317 | the generate queue, pending jobs and counter end as the dispatch loop describes, and every chunk handed over is generating |
| Worlds.World.DispatchGenerateRound | Game/World.cpp:301-316 | one round hands over the next chunk and the loop still ends where the whole dispatch would |
| Worlds.World.DispatchFrontGenerateJob | Game/World.cpp:303-310 | the front chunk becomes a pending generate job in the generating state and the counter rises by one |
| Worlds.World.HandOverFrontGenerate | Game/World.cpp:303-309 | the front chunk leaves the queue, is generating and has a pending job; no block array changes |
| Worlds.World.DispatchLoadJobs | Game/World.cpp:321-332 | the load queue, pending jobs and counter end as the dispatch loop describes, and every chunk handed over is loading |
| Worlds.World.DispatchLoadRound | Game/World.cpp:322-332 | one round hands over the next chunk and the loop still ends where the whole dispatch would |
| Worlds.World.DispatchFrontLoadJob | Game/World.cpp:324-331 | the front chunk becomes a pending load job in the loading state and the counter rises by one |
| Worlds.World.HandOverFrontLoad | Game/World.cpp:324-330 | the front chunk leaves the queue, is loading and has a pending job; no block array changes |
| Worlds.World.DispatchSaveJobs | Game/World.cpp:334-345 | the save queue, pending jobs and counter end as the dispatch loop describes, and every chunk handed over is saving |
| Worlds.World.DispatchSaveRound | Game/World.cpp:335-345 | one round hands over the next chunk and the loop still ends where the whole dispatch would |
| Worlds.World.DispatchFrontSaveJob | Game/World.cpp:337-344 | the front chunk becomes a pending save job in the saving state and the counter rises by one |
| Worlds.World.HandOverFrontSave | Game/World.cpp:337-343 | the front chunk leaves the queue, is saving and has a pending job; no block array changes |
| Worlds.World.AdjustOutstanding | Game/World.cpp:310 | only the counter of the given kind moves, by the given amount |
| Worlds.World.DispatchLoadAndSaveJobs | Game/World.cpp:319-346 | the load loop, then the save loop on the pending jobs it left, each ending as the dispatch loop describes |
| Worlds.World.SaveChunkToFile | Game/World.cpp:514-559 | the chunk's file becomes the encoding of its block types, which starts with the magic and decodes back to exactly those types |
| Worlds.World.LoadChunkFromFile | Game/World.cpp:561-595 | the load succeeds exactly when the file is loadable, and then each block takes the decoded type at its index |
| Worlds.World.ExecuteGenerateJobCorrected | Game/World.cpp:1150-1162 | the chunk's blocks become the corrected generator's output, with types kept known, and the chunk is generate-complete |
| Worlds.World.ExecuteLoadJob | Game/World.cpp:1178-1190 | the load succeeds exactly when the file is loadable, and then the chunk is load-complete; a failed load leaves its state as it was |
| Worlds.World.ExecuteSaveJob | Game/World.cpp:1164-1176 | the chunk's file becomes the encoding of its block types and the chunk is save-complete |
| Worlds.World.ExecuteNextJob | Game/World.cpp:1150-1190 | the oldest pending job runs and moves to the completed jobs with its chunk complete; a load that cannot go on leaves both lists as they were |
| Worlds.World.RunFrontJob | Game/World.cpp:1150-1190 | the front job's chunk ends complete for its kind, or still running when its load fails |
| Worlds.World.RunFrontGenerate | Game/World.cpp:1150-1162 | the front generate job's chunk ends generate-complete with known types |
| Worlds.World.RunFrontLoad | Game/World.cpp:1178-1190 | the front load job's chunk ends load-complete exactly when its file is loadable |
| Worlds.World.RunFrontSave | Game/World.cpp:1164-1176 | the front save job's chunk ends save-complete |
| Worlds.World.RunGenerate | Game/World.cpp:1150-1162 | the chunk ends generate-complete and keeps its types known |
| Worlds.World.CompleteFrontJob | Game/World.cpp:1150-1190 | the finished job moves from the front of the pending jobs to the back of the completed ones |
| Worlds.World.ShiftFrontJob | Game/World.cpp:1150-1190 | moving the job between the lists keeps the counters matching |
| Worlds.World.ProcessCompletedJobs | Game/World.cpp:348-389 | no completed job is left, no active chunk is dropped, and every generate or load job's chunk coordinates are active |
| Worlds.World.ProcessCompletedRound | Game/World.cpp:351-388 | one round processes the next job and makes its chunk's coordinates active unless it was a save |
| Worlds.World.ProcessCompletedJob | Game/World.cpp:353-387 | the oldest completed job is retired; a generate or load job's chunk joins the active chunks, mesh-dirty and not in need of saving, when its coordinates were free, otherwise nothing active changes |
| Worlds.World.FinalizeIfComplete | Game/World.cpp:353-380 | a generate or load job's chunk joins the active chunks when its coordinates were free; otherwise, and for a save job, nothing active changes; job lists and counters are untouched |
| Worlds.World.FinalizeDeparted | Game/World.cpp:411-432 | the chunk joins the active chunks, mesh-dirty and not in need of saving, when its coordinates were free; otherwise nothing changes |
| Worlds.World.FinalizeKnown | Game/World.cpp:413-416 | a chunk at active coordinates changes neither the active chunks nor the light queue |
| Worlds.World.FinalizeNew | Game/World.cpp:418-431 | a chunk at free coordinates joins the active chunks, mesh-dirty and not in need of saving |
| Worlds.World.FinalizeLit | Game/World.cpp:411-432 | finalising changes no chunk state, no link of an inactive chunk and no block array beyond the active chunks and the new chunk |
| Worlds.World.RetireFrontJob | Game/World.cpp:350-383 | the oldest completed job leaves the list with the counters still matching, and a generate or load job's chunk has left the arrivals in its complete state |
| Worlds.World.PopCompleted | Game/World.cpp:350-351 | the oldest completed job leaves the list and its chunk leaves the chunks on their way in |
| Worlds.World.RaiseOutstanding | Game/World.cpp:310 | the handed-over job's counter rises by one and the counters still match the jobs |
| Worlds.World.LowerOutstanding | Game/World.cpp:361 | the retired job's counter drops by one and the counters still match the jobs |
| Worlds.World.Update | Game/World.cpp:37-54 | one frame keeps every invariant of the world and leaves no completed job |
| Worlds.World.UpdateChunksAndJobs | Game/World.cpp:47-53 | streaming then jobs keep every invariant and leave no completed job |
| Worlds.World.UpdateMeshes | Game/World.cpp:44-45 | rebuilding the mesh queue and building meshes keeps the invariants, and `drained` says the light queue is empty |
| Worlds.World.UpdateStreaming | Game/World.cpp:47-48 | no chunk becomes active; the load and generate queues gain only new chunks, and the save queue only chunks that were active |
| Worlds.World.QueueMissingChunks | Game/World.cpp:48 | the load and generate queues gain only new chunks, and the lighting invariant is kept |
| Worlds.World.UpdateJobs | Game/World.cpp:50-53 | dispatch and completion keep every invariant and leave no completed job |
| Worlds.World.DispatchJobs | Game/World.cpp:50-51 | the two dispatch calls keep the counters matching and the streaming invariant, and leave the lighting invariant as it was |

## Left out

- DecodeIntoBlocks, LoadChunkFromFile, ExecuteLoadJob, ExecuteNextJob: the source stops the program on a bad magic (`ERROR_AND_DIE`, Game/World.cpp:573-576). It reads and writes past the buffer and the block array on a truncated file or a run total above 131072 (Game/World.cpp:584-594), and it dereferences a missing definition on an unknown block type. The model turns each of these into a `Failed` outcome: a short or wrong header leaves the blocks untouched, a later failure may leave the runs before it written, and a failed load job stays pending. The fatal exit and the undefined behaviour are not modelled.
- ProcessDirtyLighting: the source drains the light queue with an unbounded loop (Game/World.cpp:597-604). The model takes a step budget and reports whether the queue drained, because termination of the relaxation is not proved.
- Update: the source calls DeactivateFurthestChunk every frame once the light queue has drained (Game/World.cpp:43-47). With the budget above, the model deactivates only when the queue did drain, so a frame whose budget runs out skips deactivation.
- ChunkDistSq, FurthestChunk, ScanAround, SortByDistance: the source's squared distances are `float`s (Game/World.cpp:151, 194, 220, 932-937). The model computes them as exact reals, so float rounding at the range borders and in the sort order is not modelled.
- SortByDistance: the selection sort works on a sequence that UpdateMeshBuildQueue then stores, not on the vector in place; the comparisons and swaps are the source's.
- ProcessCompletedJob: the model retires the job (list, counter, arrival set) before finalising its chunk; the source finalises first and then decrements the counter. No step of finalising reads what retiring changes.
- FinalizeActivatedChunk: the model resets the chunk's lighting before inserting it into the active map, and sets the mesh-dirty and needs-saving flags last; the source inserts first and resets inside InitializeChunkLighting. No step between reads the reset blocks or the two flags.
- ExecuteGenerateJobCorrected: the generate job runs the corrected generator (Terrain.PopulateWithDensityNoiseCorrected). The as-written tree step is Terrain.PlantTree; see "## Findings".
- Noise: Perlin noise, the spline curves and the density arithmetic (Game/Chunk.cpp:64-203) are floating-point foreign code. They become the inputs `VoxelSample` (dense, carved by a cave, ore noise) and `ColumnSamples` (biome parameters, tree noise). The legacy generator `PopulateChunksWithNoise` (Game/Chunk.cpp:640-953) is called by no job and is not modelled.
- LightLevelsFit: the block definition table is a parameter, and its emitted light levels are required to lie in 0..15. Block definitions are parsed from XML by code that is not part of this model.
- Meshing: vertex positions, sprite UVs, `CreateBuffers`, `DeleteBuffers` and `Render` are GPU work. The model keeps, for each emitted face, the block, the face and its colour.
- Memory: deleting a chunk after deactivation without unsaved changes, or after its save job, is not modelled; the chunk simply leaves every collection.
- Files: `DoesFileExist`, `FileReadToBuffer` and `WriteBufferToFile` become a map from chunk coordinates to byte sequences. The destructor's save of every chunk with unsaved changes (Game/World.cpp:19-35) is not modelled.
- Jobs: the job system, worker threads and the atomic chunk state are not modelled. Each job's `Execute` is one sequential step over the oldest pending job, and the state is a plain field. The worker thread's read of the active map inside `TryToPlaceTreeStamp` is a read of the map at that step.
- `RaycastVsBlocks` (Game/World.cpp:1048-1148), `GetChunkForWorldPos` and the ray-step helpers in Game/GameCommon.cpp are float stepping code and are not modelled.
- `HandleDebugInput` and the debug drawing in Game/World.cpp, and the player's movement, camera, physics and drawing in Game/Player.cpp, are input and float code and are not modelled.
- `ChunkState::ACTIVE` is declared by the source but never stored; the model keeps it in the enumeration and no operation sets it.

## Findings

| source | as written | input that shows it | evidently intended | confidence | as-written member | corrected member |
|---|---|---|---|---|---|---|
| Game/Chunk.cpp:351-354, 453 | the generator hands each tree stamp to `TryToPlaceTreeStamp`, which looks up the target chunk in the world's active map; the chunk being generated only enters that map after its job completes, so its own columns never receive a tree | any column passing the tree tests, with a stamp that stays inside the radius window | trees are stamped into the chunk being generated | not executed | Terrain.PlantTree, Terrain.GeneratorStampMissesWorld | Terrain.PlantTreeCorrected, Terrain.PlantedTreeAppears |
| Game/Chunk.cpp:343 | the block above the surface is read at `GetBlockIndex(x, y, surfaceZ + 1)` with no height check; when the top voxel of a column is dense the surface is at z = 127 and the index lies past the 131072-block array | a column whose voxel at z = 127 passes the density test | a surface at the top layer grows no tree and nothing is read past the array | not executed | Terrain.TopSurfaceReadsPastChunk | Terrain.TopSurfaceGrowsNothing, Terrain.TreeSiteCorrected |
| Game/World.cpp:961-999 | global coordinates are turned into local ones by masking, so z is taken modulo 128 and `Chunk::SetBlockType`'s height check can never fail; a read or write at z = 128 reaches the block at z = 0 of the same column | `GetBlockTypeAtCoords((x, y, 128))` over an active chunk returns the type of the block at z = 0 | coordinates above or below the world read as air and edit nothing | not executed | Worlds.World.GetBlockTypeAtCoords, Worlds.World.SetBlockTypeAtCoords, Worlds.World.WrappedReadAbove, ChunkIndex.WrappedEditIndex | Worlds.World.GetBlockTypeAtCoordsCorrected, Worlds.World.SetBlockTypeAtCoordsCorrected |
