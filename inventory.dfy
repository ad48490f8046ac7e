/**
 * The player's ten-slot block inventory and physics-mode cycling
 * (Game/Player.cpp, Game/Player.hpp, Game/Entity.hpp). The two fixed-size
 * byte arrays and the selected slot are updated in place.
 */
module Inventory {
  import opened GameCommon

  // ---------------------------------------------------------------------
  // Reference definitions over the slot contents

  /** The lowest slot at or after `from` holding `t` with room for one more. */
  function FirstStackable(types: seq<byte>, counts: seq<byte>, t: byte, from: nat): (r: Option<nat>)
    requires |types| == |counts| && from <= |types|
    ensures r.Some? ==> from <= r.value < |types| && types[r.value] == t && counts[r.value] < MAX_STACK_IN_SLOT
    ensures r.Some? ==> forall j :: from <= j < r.value ==> !(types[j] == t && counts[j] < MAX_STACK_IN_SLOT)
    ensures r.None? ==> forall j :: from <= j < |types| ==> !(types[j] == t && counts[j] < MAX_STACK_IN_SLOT)
    decreases |types| - from
  {
    if from == |types| then None
    else if types[from] == t && counts[from] < MAX_STACK_IN_SLOT then Some(from)
    else FirstStackable(types, counts, t, from + 1)
  }

  /** The lowest AIR slot at or after `from`. */
  function FirstEmpty(types: seq<byte>, from: nat): (r: Option<nat>)
    requires from <= |types|
    ensures r.Some? ==> from <= r.value < |types| && types[r.value] == BLOCKTYPE_AIR
    ensures r.Some? ==> forall j :: from <= j < r.value ==> types[j] != BLOCKTYPE_AIR
    ensures r.None? ==> forall j :: from <= j < |types| ==> types[j] != BLOCKTYPE_AIR
    decreases |types| - from
  {
    if from == |types| then None
    else if types[from] == BLOCKTYPE_AIR then Some(from)
    else FirstEmpty(types, from + 1)
  }

  /** How many blocks of type `t` the slots hold in total. */
  function Total(types: seq<byte>, counts: seq<byte>, t: byte): int
    requires |types| == |counts|
  {
    if |types| == 0 then 0
    else (if types[0] == t then counts[0] else 0) + Total(types[1..], counts[1..], t)
  }

  /** Changing one slot changes the total by the difference of that slot's contributions. */
  lemma {:induction false} TotalUpdate(types: seq<byte>, counts: seq<byte>, t: byte, i: nat, nt: byte, nc: byte)
    requires |types| == |counts| && i < |types|
    ensures Total(types[i := nt], counts[i := nc], t)
         == Total(types, counts, t)
            - (if types[i] == t then counts[i] else 0)
            + (if nt == t then nc else 0)
    decreases i
  {
    if i == 0 {
      assert types[i := nt][1..] == types[1..];
      assert counts[i := nc][1..] == counts[1..];
    } else {
      assert types[i := nt][1..] == types[1..][i - 1 := nt];
      assert counts[i := nc][1..] == counts[1..][i - 1 := nc];
      TotalUpdate(types[1..], counts[1..], t, i - 1, nt, nc);
    }
  }

  /** The mode after WALKING, FLYING, NOCLIP in turn, wrapping to the first. */
  function NextPhysicsMode(m: PhysicsMode): PhysicsMode {
    PhysicsModeOf((PhysicsModeIndex(m) + 1) % 3)
  }

  /** CyclePhysicsMode visits WALKING, FLYING, NOCLIP in order and returns after three presses. */
  lemma PhysicsModeCycle(m: PhysicsMode)
    ensures NextPhysicsMode(WALKING) == FLYING
    ensures NextPhysicsMode(FLYING) == NOCLIP
    ensures NextPhysicsMode(NOCLIP) == WALKING
    ensures NextPhysicsMode(NextPhysicsMode(NextPhysicsMode(m))) == m
    ensures NextPhysicsMode(m) != m
  {
  }

  /** The slot a digit key selects: keys 1 to 9 select slots 0 to 8, key 0 selects slot 9. */
  function SlotForDigitKey(digit: int): (slot: int)
    requires 0 <= digit <= 9
    ensures 0 <= slot < INVENTORY_SIZE
    ensures (slot + 1) % 10 == digit
  {
    if digit == 0 then 9 else digit - 1
  }

  /** The slot contents after AddBlockToInventory: the lowest stack with room grows by one, else the lowest AIR slot gets one block of the type, else nothing changes. */
  function AfterAdd(types: seq<byte>, counts: seq<byte>, t: byte): (r: (seq<byte>, seq<byte>))
    requires |types| == |counts| && forall i :: 0 <= i < |counts| ==> counts[i] <= MAX_STACK_IN_SLOT
    ensures |r.0| == |r.1| == |types|
    ensures forall i :: 0 <= i < |r.1| ==> r.1[i] <= MAX_STACK_IN_SLOT
    ensures forall i :: 0 <= i < |r.1| ==> r.0[i] != types[i] ==> r.0[i] == t && r.1[i] == 1
    ensures r != (types, counts) <==> FirstStackable(types, counts, t, 0).Some? || FirstEmpty(types, 0).Some?
  {
    match FirstStackable(types, counts, t, 0)
    case Some(i) => (types, counts[i := counts[i] + 1])
    case None =>
      match FirstEmpty(types, 0)
      case Some(j) => (types[j := t], counts[j := 1])
      case None => (types, counts)
  }
  class Player {
    const inventory: array<byte>
    const inventoryCounts: array<byte>
    var selectedInventorySlot: int
    var physicsMode: PhysicsMode

    /** Ten slots, a selected slot among them, no stack above 64, and no occupied slot left empty. */
    predicate Valid()
      reads this, inventory, inventoryCounts
    {
      inventory.Length == INVENTORY_SIZE && inventoryCounts.Length == INVENTORY_SIZE
      && inventory != inventoryCounts
      && 0 <= selectedInventorySlot < INVENTORY_SIZE
      && (forall i :: 0 <= i < INVENTORY_SIZE ==> inventoryCounts[i] <= MAX_STACK_IN_SLOT)
      && (forall i :: 0 <= i < INVENTORY_SIZE ==> inventory[i] != BLOCKTYPE_AIR ==> inventoryCounts[i] >= 1)
    }

    /** The starting inventory: glowstone 64, cobblestone 12, chiseled brick 64, then empty slots. */
    constructor ()
      ensures Valid() && fresh(inventory) && fresh(inventoryCounts)
      ensures inventory[..] == [BLOCKTYPE_GLOWSTONE, BLOCKTYPE_COBBLESTONE, BLOCKTYPE_CHISELEDBRICK]
                               + seq(7, _ => BLOCKTYPE_AIR)
      ensures inventoryCounts[..] == [64, 12, 64] + seq(7, _ => 0)
      ensures selectedInventorySlot == 0 && physicsMode == WALKING
    {
      var types := new byte[INVENTORY_SIZE];
      var counts := new byte[INVENTORY_SIZE];
      types[0], counts[0] := BLOCKTYPE_GLOWSTONE, 64;
      types[1], counts[1] := BLOCKTYPE_COBBLESTONE, 12;
      types[2], counts[2] := BLOCKTYPE_CHISELEDBRICK, 64;
      var inventoryIndex := 3;
      while inventoryIndex < INVENTORY_SIZE
        invariant 3 <= inventoryIndex <= INVENTORY_SIZE
        invariant types[..3] == [BLOCKTYPE_GLOWSTONE, BLOCKTYPE_COBBLESTONE, BLOCKTYPE_CHISELEDBRICK]
        invariant counts[..3] == [64, 12, 64]
        invariant forall i :: 3 <= i < inventoryIndex ==> types[i] == BLOCKTYPE_AIR && counts[i] == 0
      {
        types[inventoryIndex], counts[inventoryIndex] := BLOCKTYPE_AIR, 0;
        inventoryIndex := inventoryIndex + 1;
      }
      inventory := types;
      inventoryCounts := counts;
      selectedInventorySlot := 0;
      physicsMode := WALKING;
      assert types[..] == types[..3] + types[3..];
      assert counts[..] == counts[..3] + counts[3..];
    }

    function GetSelectedBlockInSlot(): byte
      reads this, inventory
      requires 0 <= selectedInventorySlot < inventory.Length
    {
      inventory[selectedInventorySlot]
    }

    /**
     * Adds one block: to the lowest stack of that type with room, else into the
     * lowest AIR slot with count 1, else nothing changes and the result is false.
     */
    method AddBlockToInventory(blockType: byte) returns (added: bool)
      requires Valid()
      modifies inventory, inventoryCounts
      ensures Valid()
      ensures (inventory[..], inventoryCounts[..]) == AfterAdd(old(inventory[..]), old(inventoryCounts[..]), blockType)
      ensures added <==> FirstStackable(old(inventory[..]), old(inventoryCounts[..]), blockType, 0).Some?
                         || FirstEmpty(old(inventory[..]), 0).Some?
    {
      ghost var types, counts := inventory[..], inventoryCounts[..];
      var inventoryIndex := 0;
      while inventoryIndex < INVENTORY_SIZE
        invariant 0 <= inventoryIndex <= INVENTORY_SIZE
        invariant FirstStackable(types, counts, blockType, 0) == FirstStackable(types, counts, blockType, inventoryIndex)
      {
        if inventory[inventoryIndex] == blockType && inventoryCounts[inventoryIndex] < MAX_STACK_IN_SLOT {
          inventoryCounts[inventoryIndex] := inventoryCounts[inventoryIndex] + 1;
          return true;
        }
        inventoryIndex := inventoryIndex + 1;
      }
      inventoryIndex := 0;
      while inventoryIndex < INVENTORY_SIZE
        invariant 0 <= inventoryIndex <= INVENTORY_SIZE
        invariant FirstEmpty(types, 0) == FirstEmpty(types, inventoryIndex)
      {
        if inventory[inventoryIndex] == BLOCKTYPE_AIR {
          inventory[inventoryIndex] := blockType;
          inventoryCounts[inventoryIndex] := 1;
          return true;
        }
        inventoryIndex := inventoryIndex + 1;
      }
      return false;
    }

    /**
     * Takes one block from the selected slot; false with no change when the slot
     * is AIR or empty. A slot that reaches zero becomes AIR.
     */
    method RemoveBlockFromSelectedSlot() returns (removed: bool)
      requires Valid()
      modifies inventory, inventoryCounts
      ensures Valid()
      ensures var slot := selectedInventorySlot;
        if old(inventory[slot]) == BLOCKTYPE_AIR || old(inventoryCounts[slot]) == 0 then
          !removed && inventory[..] == old(inventory[..]) && inventoryCounts[..] == old(inventoryCounts[..])
        else
          removed
          && inventoryCounts[..] == old(inventoryCounts[..])[slot := old(inventoryCounts[slot]) - 1]
          && inventory[..] == if old(inventoryCounts[slot]) == 1 then old(inventory[..])[slot := BLOCKTYPE_AIR]
                              else old(inventory[..])
    {
      var slot := selectedInventorySlot;
      if inventory[slot] == BLOCKTYPE_AIR || inventoryCounts[slot] == 0 {
        return false;
      }
      inventoryCounts[slot] := inventoryCounts[slot] - 1;
      if inventoryCounts[slot] <= 0 {
        inventory[slot] := BLOCKTYPE_AIR;
        inventoryCounts[slot] := 0;
      }
      return true;
    }

    /** A number key selects its slot. */
    method SelectSlotForDigitKey(digit: int)
      requires Valid() && 0 <= digit <= 9
      modifies this
      ensures Valid() && selectedInventorySlot == SlotForDigitKey(digit)
      ensures physicsMode == old(physicsMode)
    {
      if digit == 0 {
        selectedInventorySlot := 9;
      } else {
        selectedInventorySlot := digit - 1;
      }
    }

    /** Scrolling up selects the previous slot, wrapping from 0 to 9. */
    method ScrollUp()
      requires Valid()
      modifies this
      ensures Valid() && selectedInventorySlot == (old(selectedInventorySlot) - 1) % INVENTORY_SIZE
      ensures physicsMode == old(physicsMode)
    {
      selectedInventorySlot := selectedInventorySlot - 1;
      if selectedInventorySlot < 0 {
        selectedInventorySlot := 9;
      }
    }

    /** Scrolling down selects the next slot, wrapping from 9 to 0. */
    method ScrollDown()
      requires Valid()
      modifies this
      ensures Valid() && selectedInventorySlot == (old(selectedInventorySlot) + 1) % INVENTORY_SIZE
      ensures physicsMode == old(physicsMode)
    {
      selectedInventorySlot := selectedInventorySlot + 1;
      if selectedInventorySlot > 9 {
        selectedInventorySlot := 0;
      }
    }

    /** Empties the selected slot. */
    method ClearSelectedSlot()
      requires Valid()
      modifies inventory, inventoryCounts
      ensures Valid()
      ensures inventory[..] == old(inventory[..])[selectedInventorySlot := BLOCKTYPE_AIR]
      ensures inventoryCounts[..] == old(inventoryCounts[..])[selectedInventorySlot := 0]
    {
      var slot := selectedInventorySlot;
      inventory[slot] := BLOCKTYPE_AIR;
      inventoryCounts[slot] := 0;
    }

    /** Empties every slot. */
    method ClearInventory()
      requires Valid()
      modifies inventory, inventoryCounts
      ensures Valid()
      ensures forall i :: 0 <= i < INVENTORY_SIZE ==> inventory[i] == BLOCKTYPE_AIR && inventoryCounts[i] == 0
    {
      var inventoryIndex := 0;
      while inventoryIndex < INVENTORY_SIZE
        invariant 0 <= inventoryIndex <= INVENTORY_SIZE
        invariant Valid()
        invariant forall i :: 0 <= i < inventoryIndex ==> inventory[i] == BLOCKTYPE_AIR && inventoryCounts[i] == 0
      {
        inventory[inventoryIndex] := BLOCKTYPE_AIR;
        inventoryCounts[inventoryIndex] := 0;
        inventoryIndex := inventoryIndex + 1;
      }
    }

    method CyclePhysicsMode()
      modifies this
      ensures physicsMode == NextPhysicsMode(old(physicsMode))
      ensures selectedInventorySlot == old(selectedInventorySlot)
    {
      var mode := PhysicsModeIndex(physicsMode);
      mode := (mode + 1) % 3;
      physicsMode := PhysicsModeOf(mode);
    }
  }

  // ---------------------------------------------------------------------
  // What adding and removing do to the number of blocks held

  /** A successful add of a block type holds exactly one more block of that type and the same number of every other type. */
  lemma AddRaisesTotalByOne(types: seq<byte>, counts: seq<byte>, t: byte, u: byte)
    requires |types| == |counts| == INVENTORY_SIZE && t != BLOCKTYPE_AIR && u != BLOCKTYPE_AIR
    requires forall i :: 0 <= i < |counts| ==> counts[i] <= MAX_STACK_IN_SLOT
    requires FirstStackable(types, counts, t, 0).Some? || FirstEmpty(types, 0).Some?
    ensures var (nt, nc) := AfterAdd(types, counts, t);
      Total(nt, nc, u) == Total(types, counts, u) + (if u == t then 1 else 0)
  {
    match FirstStackable(types, counts, t, 0)
    case Some(i) =>
      TotalUpdate(types, counts, u, i, types[i], counts[i] + 1);
      assert types[i := types[i]] == types;
    case None =>
      var j := FirstEmpty(types, 0).value;
      TotalUpdate(types, counts, u, j, t, 1);
  }

}
