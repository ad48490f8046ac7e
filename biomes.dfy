/**
 * Biome classification and the per-biome surface and ore rules of the terrain
 * generator (Game/Chunk.cpp:365-412, 469-638; Game/Chunk.hpp:18-54).
 *
 * The noise samples that feed these rules are parameters of type `real`; only
 * their comparisons with the fixed thresholds are modelled.
 */
module Biomes {
  import opened GameCommon

  datatype BiomeType =
    | BIOME_OCEAN
    | BIOME_DEEP_OCEAN
    | BIOME_FROZEN_OCEAN
    | BIOME_COAST
    | BIOME_BEACH
    | BIOME_SNOWY_BEACH
    | BIOME_DESERT
    | BIOME_PLAINS
    | BIOME_SAVANNA
    | BIOME_FOREST
    | BIOME_TAIGA
    | BIOME_SNOWY_TAIGA
    | BIOME_JUNGLE
    | BIOME_SNOWY_PLAINS
    | BIOME_BADLANDS
    | BIOME_STONY_PEAKS
    | BIOME_SNOWY_PEAKS

  /** The five noise samples of one column. */
  datatype BiomeParams = BiomeParams(
    continentalness: real,
    erosion: real,
    peaksValleys: real,
    temperature: real,
    humidity: real)

  /** The top block, the blocks below it, and the blocks used under water. */
  datatype SurfaceBlocks = SurfaceBlocks(top: byte, sub: byte, underwater: byte)

  // ---------------------------------------------------------------------
  // Bands

  function GetTemperatureBand(v: real): (band: int)
    ensures 0 <= band <= 4
    ensures band == 0 <==> v < -0.45
    ensures band == 4 <==> v >= 0.55
  {
    if v < -0.45 then 0
    else if v < -0.15 then 1
    else if v < 0.20 then 2
    else if v < 0.55 then 3
    else 4
  }

  function GetHumidityBand(v: real): (band: int)
    ensures 0 <= band <= 4
    ensures band <= 1 <==> v < -0.10
    ensures band >= 3 <==> v >= 0.10
  {
    if v < -0.35 then 0
    else if v < -0.10 then 1
    else if v < 0.10 then 2
    else if v < 0.30 then 3
    else 4
  }

  function GetContinentalnessBand(v: real): (band: int)
    ensures 0 <= band <= 6
    ensures band <= 2 <==> v < -0.19
    ensures band == 3 <==> -0.19 <= v < -0.11
  {
    if v < -1.05 then 0
    else if v < -0.455 then 1
    else if v < -0.19 then 2
    else if v < -0.11 then 3
    else if v < 0.03 then 4
    else if v < 0.30 then 5
    else 6
  }

  /** Each band function is monotone: a larger sample never lands in a lower band. */
  lemma BandsMonotone(v: real, w: real)
    requires v <= w
    ensures GetTemperatureBand(v) <= GetTemperatureBand(w)
    ensures GetHumidityBand(v) <= GetHumidityBand(w)
    ensures GetContinentalnessBand(v) <= GetContinentalnessBand(w)
  {
  }

  // ---------------------------------------------------------------------
  // Classification

  function GetBiomeType(p: BiomeParams): BiomeType {
    var temp := GetTemperatureBand(p.temperature);
    var humidity := GetHumidityBand(p.humidity);
    var continent := GetContinentalnessBand(p.continentalness);
    if continent <= 2 then
      (if temp == 0 then BIOME_FROZEN_OCEAN
       else if continent <= 1 then BIOME_DEEP_OCEAN
       else BIOME_OCEAN)
    else if continent == 3 then
      (if temp == 0 then BIOME_SNOWY_BEACH
       else if temp < 4 then BIOME_BEACH
       else BIOME_DESERT)
    else if temp == 0 then
      (if humidity <= 1 then BIOME_SNOWY_PLAINS
       else if humidity == 3 then BIOME_SNOWY_TAIGA
       else BIOME_TAIGA)
    else if temp == 1 then
      (if humidity <= 1 then BIOME_PLAINS
       else if humidity >= 3 then BIOME_FOREST
       else BIOME_TAIGA)
    else if temp == 2 then
      (if humidity <= 1 then BIOME_PLAINS
       else BIOME_FOREST)
    else if temp == 3 then
      (if humidity <= 1 then BIOME_SAVANNA
       else if humidity >= 3 then BIOME_JUNGLE
       else BIOME_FOREST)
    else
      (if humidity <= 2 then BIOME_DESERT
       else BIOME_BADLANDS)
  }

  predicate IsOceanic(b: BiomeType) {
    b == BIOME_FROZEN_OCEAN || b == BIOME_DEEP_OCEAN || b == BIOME_OCEAN
  }

  /**
   * Oceanic continentalness gives an ocean biome (frozen exactly in the coldest
   * band, deep exactly in the two lowest continentalness bands); the coast band
   * gives a beach or desert; inland never gives either kind of ocean or beach.
   */
  lemma BiomeByContinentalness(p: BiomeParams)
    ensures var b := GetBiomeType(p);
      var continent := GetContinentalnessBand(p.continentalness);
      var temp := GetTemperatureBand(p.temperature);
      && (continent <= 2 <==> IsOceanic(b))
      && (continent <= 2 ==>
            (b == BIOME_FROZEN_OCEAN <==> temp == 0)
            && (b == BIOME_DEEP_OCEAN <==> temp != 0 && continent <= 1))
      && (continent == 3 ==>
            (b == BIOME_SNOWY_BEACH <==> temp == 0)
            && (b == BIOME_BEACH <==> 1 <= temp <= 3)
            && (b == BIOME_DESERT <==> temp == 4))
      && (b == BIOME_BEACH || b == BIOME_SNOWY_BEACH ==> continent == 3)
  {
  }

  /** Three declared biomes are never produced. */
  lemma UnreachableBiomes(p: BiomeParams)
    ensures GetBiomeType(p) != BIOME_COAST
    ensures GetBiomeType(p) != BIOME_STONY_PEAKS
    ensures GetBiomeType(p) != BIOME_SNOWY_PEAKS
  {
  }

  /** Erosion and peaks-and-valleys do not take part in the classification. */
  lemma BiomeIgnoresErosionAndPeaks(p: BiomeParams, erosion: real, peaksValleys: real)
    ensures GetBiomeType(p.(erosion := erosion, peaksValleys := peaksValleys)) == GetBiomeType(p)
  {
  }

  /** Inland, the hottest band gives desert or badlands and the coldest a snowy biome or taiga. */
  lemma InlandByTemperature(p: BiomeParams)
    requires GetContinentalnessBand(p.continentalness) >= 4
    ensures GetTemperatureBand(p.temperature) == 4 ==>
      GetBiomeType(p) in {BIOME_DESERT, BIOME_BADLANDS}
    ensures GetTemperatureBand(p.temperature) == 0 ==>
      GetBiomeType(p) in {BIOME_SNOWY_PLAINS, BIOME_SNOWY_TAIGA, BIOME_TAIGA}
    ensures GetBiomeType(p) == BIOME_JUNGLE <==>
      GetTemperatureBand(p.temperature) == 3 && GetHumidityBand(p.humidity) >= 3
  {
  }

  // ---------------------------------------------------------------------
  // Surface layers

  function GetSurfaceBlocks(biome: BiomeType): SurfaceBlocks {
    match biome
    case BIOME_OCEAN => SurfaceBlocks(BLOCKTYPE_SAND, BLOCKTYPE_ICE, BLOCKTYPE_SAND)
    case BIOME_DEEP_OCEAN => SurfaceBlocks(BLOCKTYPE_SAND, BLOCKTYPE_ICE, BLOCKTYPE_SAND)
    case BIOME_FROZEN_OCEAN => SurfaceBlocks(BLOCKTYPE_SNOW, BLOCKTYPE_ICE, BLOCKTYPE_SAND)
    case BIOME_BEACH => SurfaceBlocks(BLOCKTYPE_SAND, BLOCKTYPE_SAND, BLOCKTYPE_SAND)
    case BIOME_SNOWY_BEACH => SurfaceBlocks(BLOCKTYPE_SNOW, BLOCKTYPE_SNOW, BLOCKTYPE_SAND)
    case BIOME_DESERT => SurfaceBlocks(BLOCKTYPE_SAND, BLOCKTYPE_SAND, BLOCKTYPE_SAND)
    case BIOME_BADLANDS => SurfaceBlocks(BLOCKTYPE_GRASSLIGHT, BLOCKTYPE_DIRT, BLOCKTYPE_STONE)
    case BIOME_PLAINS => SurfaceBlocks(BLOCKTYPE_GRASS, BLOCKTYPE_DIRT, BLOCKTYPE_SAND)
    case BIOME_FOREST => SurfaceBlocks(BLOCKTYPE_GRASS, BLOCKTYPE_DIRT, BLOCKTYPE_STONE)
    case BIOME_TAIGA => SurfaceBlocks(BLOCKTYPE_GRASSLIGHT, BLOCKTYPE_DIRT, BLOCKTYPE_STONE)
    case BIOME_SNOWY_TAIGA => SurfaceBlocks(BLOCKTYPE_SNOW, BLOCKTYPE_ICE, BLOCKTYPE_STONE)
    case BIOME_SNOWY_PLAINS => SurfaceBlocks(BLOCKTYPE_SNOW, BLOCKTYPE_DIRT, BLOCKTYPE_SAND)
    case BIOME_JUNGLE => SurfaceBlocks(BLOCKTYPE_GRASSDARK, BLOCKTYPE_DIRT, BLOCKTYPE_SAND)
    case BIOME_SAVANNA => SurfaceBlocks(BLOCKTYPE_GRASSYELLOW, BLOCKTYPE_DIRT, BLOCKTYPE_STONE)
    case _ => SurfaceBlocks(BLOCKTYPE_STONE, BLOCKTYPE_STONE, BLOCKTYPE_STONE)
  }

  /** Surfaces never use water or air, and the underwater layer is sand or stone. */
  lemma SurfaceBlocksAreGround(biome: BiomeType)
    ensures var s := GetSurfaceBlocks(biome);
      && s.top !in {BLOCKTYPE_AIR, BLOCKTYPE_WATER}
      && s.sub !in {BLOCKTYPE_AIR, BLOCKTYPE_WATER}
      && s.underwater in {BLOCKTYPE_SAND, BLOCKTYPE_STONE}
  {
  }

  // ---------------------------------------------------------------------
  // Ore veins

  /** The four vein noise samples of one voxel. */
  datatype OreNoise = OreNoise(diamond: real, gold: real, iron: real, coal: real)

  /** OreChance's decision: diamond, gold, iron, coal in that order, else stone. */
  function OreChance(globalZ: int, noise: OreNoise): (t: byte)
    ensures t in {BLOCKTYPE_DIAMOND, BLOCKTYPE_GOLD, BLOCKTYPE_IRON, BLOCKTYPE_COAL, BLOCKTYPE_STONE}
    ensures t == BLOCKTYPE_DIAMOND ==> globalZ < 20
    ensures t == BLOCKTYPE_GOLD ==> globalZ < 40
  {
    if noise.diamond > 0.75 && globalZ < 20 then BLOCKTYPE_DIAMOND
    else if noise.gold > 0.65 && globalZ < 40 then BLOCKTYPE_GOLD
    else if noise.iron > 0.5 then BLOCKTYPE_IRON
    else if noise.coal > 0.45 then BLOCKTYPE_COAL
    else BLOCKTYPE_STONE
  }

  /** Each ore is chosen exactly when its own threshold passes and no earlier one in the order does. */
  lemma OrePriority(globalZ: int, noise: OreNoise)
    ensures var diamond := noise.diamond > 0.75 && globalZ < 20;
      var gold := noise.gold > 0.65 && globalZ < 40;
      var iron := noise.iron > 0.5;
      var coal := noise.coal > 0.45;
      var t := OreChance(globalZ, noise);
      && (t == BLOCKTYPE_DIAMOND <==> diamond)
      && (t == BLOCKTYPE_GOLD <==> !diamond && gold)
      && (t == BLOCKTYPE_IRON <==> !diamond && !gold && iron)
      && (t == BLOCKTYPE_COAL <==> !diamond && !gold && !iron && coal)
      && (t == BLOCKTYPE_STONE <==> !diamond && !gold && !iron && !coal)
  {
  }

  /** From height 40 up only the iron and coal samples matter. */
  lemma OreAboveGoldDepth(globalZ: int, noise: OreNoise, diamond: real, gold: real)
    requires globalZ >= 40
    ensures OreChance(globalZ, noise.(diamond := diamond, gold := gold)) == OreChance(globalZ, noise)
  {
  }
}
