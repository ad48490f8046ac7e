/**
 * One voxel packed into three bytes (Game/Block.hpp, Game/Block.cpp) and the
 * block definition table it consults (Game/BlockDefinition.hpp).
 *
 * A Block is a plain value stored inline in a chunk's block array, so it is a
 * datatype here: each setter returns the updated value and the caller writes it
 * back into the array element it was called on.
 */
module Blocks {
  import opened GameCommon

  const BLOCK_BIT_MASK_IS_SKY: bv8 := 1
  const BLOCK_BIT_MASK_IS_LIGHT_DIRTY: bv8 := 2
  const BLOCK_BIT_MASK_IS_FULL_OPAQUE: bv8 := 4
  const BLOCK_BIT_MASK_IS_SOLID: bv8 := 8
  const BLOCK_BIT_MASK_IS_VISIBLE: bv8 := 16

  /** The rendering- and physics-relevant part of one entry of the definition table. */
  datatype BlockDefinition = BlockDefinition(
    isVisible: bool,
    isSolid: bool,
    isOpaque: bool,
    indoorLight: int,
    outdoorLight: int)

  /** The table indexed by block type; loaded once and never changed. */
  type DefTable = seq<BlockDefinition>

  predicate KnownType(defs: DefTable, t: byte) {
    t < |defs|
  }

  /** Emitted light levels fit the 4-bit nibbles they are stored in. */
  predicate LightLevelsFit(defs: DefTable) {
    forall i :: 0 <= i < |defs| ==>
      0 <= defs[i].indoorLight <= 15 && 0 <= defs[i].outdoorLight <= 15
  }

  predicate SingleBit(m: bv8) {
    m != 0 && m & (m - 1) == 0
  }

  /** The five flag masks are distinct single bits. */
  lemma MasksAreDistinctBits()
    ensures SingleBit(BLOCK_BIT_MASK_IS_SKY) && SingleBit(BLOCK_BIT_MASK_IS_LIGHT_DIRTY)
    ensures SingleBit(BLOCK_BIT_MASK_IS_FULL_OPAQUE) && SingleBit(BLOCK_BIT_MASK_IS_SOLID)
    ensures SingleBit(BLOCK_BIT_MASK_IS_VISIBLE)
    ensures forall m1, m2 :: m1 in AllMasks() && m2 in AllMasks() && m1 != m2 ==> m1 & m2 == 0
  {
  }

  function AllMasks(): set<bv8> {
    {BLOCK_BIT_MASK_IS_SKY, BLOCK_BIT_MASK_IS_LIGHT_DIRTY, BLOCK_BIT_MASK_IS_FULL_OPAQUE,
     BLOCK_BIT_MASK_IS_SOLID, BLOCK_BIT_MASK_IS_VISIBLE}
  }

  datatype Block = Block(blockType: byte, lightInfluence: bv8, flags: bv8) {

    function GetBlockType(): byte { blockType }

    /** The high nibble of the light byte. */
    function GetOutdoorLight(): (r: bv8)
      ensures r <= 15
    {
      (lightInfluence >> 4) & 0x0F
    }

    /** The low nibble of the light byte. */
    function GetIndoorLight(): (r: bv8)
      ensures r <= 15
    {
      lightInfluence & 0x0F
    }

    function SetOutdoorLight(v: bv8): (b: Block)
      ensures b.GetOutdoorLight() == v & 0x0F
      ensures b.GetIndoorLight() == GetIndoorLight()
      ensures b.blockType == blockType && b.flags == flags
    {
      var low4 := v & 0x0F;
      this.(lightInfluence := (lightInfluence & 0x0F) | (low4 << 4))
    }

    function SetIndoorLight(v: bv8): (b: Block)
      ensures b.GetIndoorLight() == v & 0x0F
      ensures b.GetOutdoorLight() == GetOutdoorLight()
      ensures b.blockType == blockType && b.flags == flags
    {
      var low4 := v & 0x0F;
      this.(lightInfluence := (lightInfluence & 0xF0) | low4)
    }

    predicate HasFlag(mask: bv8) { flags & mask != 0 }

    /** Sets or clears the bits of `mask`, leaving every other bit as it was. */
    function WithFlag(mask: bv8, on: bool): (b: Block)
      requires SingleBit(mask)
      ensures b.HasFlag(mask) == on
      ensures b.flags & !mask == flags & !mask
      ensures b.blockType == blockType && b.lightInfluence == lightInfluence
    {
      if on then this.(flags := flags | mask) else this.(flags := flags & !mask)
    }

    predicate IsSky() { HasFlag(BLOCK_BIT_MASK_IS_SKY) }
    predicate IsLightDirty() { HasFlag(BLOCK_BIT_MASK_IS_LIGHT_DIRTY) }
    predicate IsFullOpaque() { HasFlag(BLOCK_BIT_MASK_IS_FULL_OPAQUE) }
    predicate IsSolid() { HasFlag(BLOCK_BIT_MASK_IS_SOLID) }
    predicate IsVisible() { HasFlag(BLOCK_BIT_MASK_IS_VISIBLE) }

    function SetIsSky(on: bool): (b: Block)
      ensures b.IsSky() == on
      ensures b.IsLightDirty() == IsLightDirty() && b.IsFullOpaque() == IsFullOpaque()
      ensures b.IsSolid() == IsSolid() && b.IsVisible() == IsVisible()
      ensures b.blockType == blockType && b.lightInfluence == lightInfluence
    {
      WithFlag(BLOCK_BIT_MASK_IS_SKY, on)
    }

    function SetIsLightDirty(on: bool): (b: Block)
      ensures b.IsLightDirty() == on
      ensures b.IsSky() == IsSky() && b.IsFullOpaque() == IsFullOpaque()
      ensures b.IsSolid() == IsSolid() && b.IsVisible() == IsVisible()
      ensures b.blockType == blockType && b.lightInfluence == lightInfluence
    {
      WithFlag(BLOCK_BIT_MASK_IS_LIGHT_DIRTY, on)
    }

    function SetIsFullOpaque(on: bool): (b: Block)
      ensures b.IsFullOpaque() == on
      ensures b.IsSky() == IsSky() && b.IsLightDirty() == IsLightDirty()
      ensures b.IsSolid() == IsSolid() && b.IsVisible() == IsVisible()
      ensures b.blockType == blockType && b.lightInfluence == lightInfluence
    {
      WithFlag(BLOCK_BIT_MASK_IS_FULL_OPAQUE, on)
    }

    function SetIsSolid(on: bool): (b: Block)
      ensures b.IsSolid() == on
      ensures b.IsSky() == IsSky() && b.IsLightDirty() == IsLightDirty()
      ensures b.IsFullOpaque() == IsFullOpaque() && b.IsVisible() == IsVisible()
      ensures b.blockType == blockType && b.lightInfluence == lightInfluence
    {
      WithFlag(BLOCK_BIT_MASK_IS_SOLID, on)
    }

    function SetIsVisible(on: bool): (b: Block)
      ensures b.IsVisible() == on
      ensures b.IsSky() == IsSky() && b.IsLightDirty() == IsLightDirty()
      ensures b.IsFullOpaque() == IsFullOpaque() && b.IsSolid() == IsSolid()
      ensures b.blockType == blockType && b.lightInfluence == lightInfluence
    {
      WithFlag(BLOCK_BIT_MASK_IS_VISIBLE, on)
    }

    /** Stores the type and copies solid, visible and opaque from its definition. */
    function SetBlockType(t: byte, defs: DefTable): (b: Block)
      requires KnownType(defs, t)
      ensures b.blockType == t
      ensures b.IsSolid() == defs[t].isSolid && b.IsVisible() == defs[t].isVisible
      ensures b.IsFullOpaque() == defs[t].isOpaque
      ensures b.lightInfluence == lightInfluence
      ensures b.IsSky() == IsSky() && b.IsLightDirty() == IsLightDirty()
    {
      var def := defs[t];
      this.(blockType := t).SetIsSolid(def.isSolid).SetIsVisible(def.isVisible).SetIsFullOpaque(def.isOpaque)
    }
  }

  /** A default-constructed block: type 0 (air), no light, no flags. */
  const EMPTY_BLOCK := Block(0, 0, 0)

  /** Setting a flag that is already set changes nothing. */
  lemma SetLightDirtyAgain(b: Block)
    requires b.IsLightDirty()
    ensures b.SetIsLightDirty(true) == b
  {
  }

  /** The two light setters commute: each touches only its own nibble, so the order of the writes does not matter. */
  lemma LightNibblesIndependent(b: Block, indoor: bv8, outdoor: bv8)
    ensures b.SetIndoorLight(indoor).SetOutdoorLight(outdoor)
         == b.SetOutdoorLight(outdoor).SetIndoorLight(indoor)
  {
  }
}
