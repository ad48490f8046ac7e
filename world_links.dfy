/**
 * The neighbour links among active chunks (Game/World.cpp:434-512). The
 * world keeps every horizontal neighbour pointer of every active chunk equal
 * to what its active map holds one chunk over in that direction; from that,
 * A.north == B exactly when B.south == A. A hook-up (links still to set) and
 * a tear-down (back-pointers still to clear) each pass through intermediate
 * states described here, one direction at a time.
 */
module WorldLinks {
  import opened GameCommon
  import opened Chunks
  import opened BlockIterators

  type ChunkMap = map<IntVec2, Chunk>

  /** The four directions that have neighbour pointers. */
  predicate Horizontal(f: BlockFace) {
    f.BLOCK_FACE_EAST? || f.BLOCK_FACE_WEST? || f.BLOCK_FACE_NORTH? || f.BLOCK_FACE_SOUTH?
  }

  const HORIZONTAL_FACES: set<BlockFace> :=
    {BLOCK_FACE_NORTH, BLOCK_FACE_SOUTH, BLOCK_FACE_EAST, BLOCK_FACE_WEST}

  /** `find` on the active map: the chunk at `k`, or null. */
  function Lookup(m: ChunkMap, k: IntVec2): (c: Chunk?)
    ensures c != null <==> k in m
    ensures k in m ==> c == m[k]
  {
    if k in m then m[k] else null
  }

  /** The chunk coordinates one step from `k` towards `f`. */
  function Beside(k: IntVec2, f: BlockFace): IntVec2 {
    k.Plus(ChunkStep(f))
  }

  /** A step and the step back cancel. */
  lemma BesideBack(k: IntVec2, f: BlockFace)
    ensures Beside(Beside(k, f), f.Opposite()) == k
    ensures Beside(Beside(k, f.Opposite()), f) == k
  {
    FaceOffsetsOpposite(f);
  }

  /** `c` is the chunk the active map holds at its own coordinates. */
  predicate IsActive(m: ChunkMap, c: Chunk?) {
    c != null && c.chunkCoords in m && m[c.chunkCoords] == c
  }

  /** Every active chunk is keyed by its own coordinates and has the chunk-sized block array. */
  predicate Keyed(m: ChunkMap) {
    forall k | k in m :: m[k].chunkCoords == k && m[k].Sized()
  }

  /** The link of `c` towards `f` is whatever the map holds one chunk over. */
  predicate LinkOk(m: ChunkMap, c: Chunk, f: BlockFace)
    reads c`northNeighbor, c`southNeighbor, c`eastNeighbor, c`westNeighbor
  {
    NeighborPointer(c, f) == Lookup(m, Beside(c.chunkCoords, f))
  }

  /** Every horizontal link of every active chunk agrees with the map. */
  predicate LinksOk(m: ChunkMap)
    reads m.Values`northNeighbor, m.Values`southNeighbor, m.Values`eastNeighbor, m.Values`westNeighbor
  {
    forall k, f {:trigger LinkOk(m, m[k], f)} | k in m && Horizontal(f) :: LinkOk(m, m[k], f)
  }

  /**
   * Links that agree with the map are symmetric: the chunk at `k1` points
   * towards `f` at the chunk at `k2` exactly when that one points back.
   */
  lemma LinksSymmetric(m: ChunkMap, k1: IntVec2, k2: IntVec2, f: BlockFace)
    requires Keyed(m) && LinksOk(m) && k1 in m && k2 in m && Horizontal(f)
    ensures NeighborPointer(m[k1], f) == m[k2] <==> NeighborPointer(m[k2], f.Opposite()) == m[k1]
  {
    var g := f.Opposite();
    assert Horizontal(g);
    PointsAtIff(m, k1, f, k2);
    PointsAtIff(m, k2, g, k1);
    BesideIff(k1, k2, f);
  }

  /** `k2` is one step from `k1` towards `f` exactly when `k1` is one step back from `k2`. */
  lemma BesideIff(k1: IntVec2, k2: IntVec2, f: BlockFace)
    ensures Beside(k1, f) == k2 <==> Beside(k2, f.Opposite()) == k1
  {
    BesideBack(k1, f);
    BesideBack(k2, f.Opposite());
    FaceOffsetsOpposite(f);
  }

  /** An active chunk's link towards `f` is the chunk at `k2` exactly when `k2` is one step that way. */
  lemma PointsAtIff(m: ChunkMap, k1: IntVec2, f: BlockFace, k2: IntVec2)
    requires Keyed(m) && LinksOk(m) && k1 in m && k2 in m && Horizontal(f)
    ensures NeighborPointer(m[k1], f) == m[k2] <==> Beside(k1, f) == k2
  {
    assert LinkOk(m, m[k1], f);
    if Beside(k1, f) in m {
      assert m[Beside(k1, f)].chunkCoords == Beside(k1, f);
    }
  }

  /** A set link of an active chunk leads to the active chunk one step over. */
  lemma LinkedIsActive(m: ChunkMap, k: IntVec2, f: BlockFace)
    requires Keyed(m) && LinksOk(m) && k in m && Horizontal(f)
    ensures NeighborPointer(m[k], f) != null ==>
      Beside(k, f) in m && NeighborPointer(m[k], f) == m[Beside(k, f)]
  {
    assert LinkOk(m, m[k], f);
  }

  /** An active chunk and every chunk its links reach are active. */
  lemma AroundActive(m: ChunkMap, c: Chunk)
    requires Keyed(m) && LinksOk(m) && IsActive(m, c)
    ensures forall d | d in c.Around() :: IsActive(m, d)
  {
    var k := c.chunkCoords;
    LinkedIsActive(m, k, BLOCK_FACE_NORTH);
    LinkedIsActive(m, k, BLOCK_FACE_SOUTH);
    LinkedIsActive(m, k, BLOCK_FACE_EAST);
    LinkedIsActive(m, k, BLOCK_FACE_WEST);
  }

  /** Agreeing links make every active chunk's links geometric. */
  lemma LinksOkGeometric(m: ChunkMap, k: IntVec2)
    requires Keyed(m) && LinksOk(m) && k in m
    ensures LinksGeometric(m[k])
  {
    assert LinkOk(m, m[k], BLOCK_FACE_NORTH) && LinkOk(m, m[k], BLOCK_FACE_SOUTH);
    assert LinkOk(m, m[k], BLOCK_FACE_EAST) && LinkOk(m, m[k], BLOCK_FACE_WEST);
  }

  // ---------------------------------------------------------------------
  // Hook-up in progress

  /**
   * Whether the link of the chunk at `k2` towards `f` is one that the
   * hook-up of the chunk at `k` still has to set, for the directions in `todo`:
   * the new chunk's own link, or the back-link of the chunk beside it.
   */
  predicate HookPending(k: IntVec2, todo: set<BlockFace>, k2: IntVec2, f: BlockFace) {
    (k2 == k && f in todo) || (f.Opposite() in todo && k2 == Beside(k, f.Opposite()))
  }

  /** The link of the chunk at `k2` towards `f` is still null if pending, else agrees with the map. */
  predicate LinkSettled(m: ChunkMap, k: IntVec2, todo: set<BlockFace>, k2: IntVec2, f: BlockFace)
    requires k2 in m
    reads {m[k2]}`northNeighbor, {m[k2]}`southNeighbor, {m[k2]}`eastNeighbor, {m[k2]}`westNeighbor
  {
    if HookPending(k, todo, k2, f) then NeighborPointer(m[k2], f) == null else LinkOk(m, m[k2], f)
  }

  /** All links agree with the map except the pending ones, which are still null. */
  predicate LinksOkBut(m: ChunkMap, k: IntVec2, todo: set<BlockFace>)
    reads m.Values`northNeighbor, m.Values`southNeighbor, m.Values`eastNeighbor, m.Values`westNeighbor
  {
    forall k2, f {:trigger LinkSettled(m, k, todo, k2, f)} | k2 in m && Horizontal(f) :: LinkSettled(m, k, todo, k2, f)
  }

  /** With nothing pending, the hook-up is done. */
  lemma LinksOkButNothing(m: ChunkMap, k: IntVec2)
    requires LinksOkBut(m, k, {})
    ensures LinksOk(m)
  {
    forall k2, f | k2 in m && Horizontal(f)
      ensures LinkOk(m, m[k2], f)
    {
      assert LinkSettled(m, k, {}, k2, f);
    }
  }

  /**
   * Inserting an unlinked chunk into a map whose links agree leaves every
   * link right except the ones its hook-up must set.
   */
  lemma {:induction false} InsertUnlinked(m: ChunkMap, c: Chunk)
    requires Keyed(m) && LinksOk(m)
    requires c.chunkCoords !in m && c.Sized() && c.Unlinked()
    ensures Keyed(m[c.chunkCoords := c])
    ensures LinksOkBut(m[c.chunkCoords := c], c.chunkCoords, HORIZONTAL_FACES)
  {
    var k := c.chunkCoords;
    var m' := m[k := c];
    forall k2, f | k2 in m' && Horizontal(f)
      ensures LinkSettled(m', k, HORIZONTAL_FACES, k2, f)
    {
      if k2 != k {
        assert LinkOk(m, m[k2], f);
        BesideBack(k2, f);
        if Beside(k2, f) == k {
          assert k2 == Beside(k, f.Opposite());
          FaceOffsetsOpposite(f);
        }
      }
    }
  }

  // ---------------------------------------------------------------------
  // Tear-down in progress

  /**
   * The tear-down of the chunk at `k` in progress: the removed chunk's own
   * links are untouched, and relative to the map without `k` every other link
   * agrees, except back-pointers from the directions in `todo`, which still
   * point at the removed chunk.
   */
  predicate LinksOkRemoving(m: ChunkMap, k: IntVec2, todo: set<BlockFace>)
    requires k in m
    reads m.Values`northNeighbor, m.Values`southNeighbor, m.Values`eastNeighbor, m.Values`westNeighbor
  {
    && (forall f | Horizontal(f) :: LinkOk(m, m[k], f))
    && forall k2, f {:trigger BackLinkSettled(m, k, todo, k2, f)} | k2 in m && k2 != k && Horizontal(f) ::
         BackLinkSettled(m, k, todo, k2, f)
  }

  /**
   * The link of the chunk at `k2` towards `f`: still pointing at the removed
   * chunk if it is a back-pointer not yet cleared, else agreeing with the map
   * without `k`.
   */
  predicate BackLinkSettled(m: ChunkMap, k: IntVec2, todo: set<BlockFace>, k2: IntVec2, f: BlockFace)
    requires k in m && k2 in m
    reads {m[k2]}`northNeighbor, {m[k2]}`southNeighbor, {m[k2]}`eastNeighbor, {m[k2]}`westNeighbor
  {
    if Beside(k2, f) == k && f.Opposite() in todo then NeighborPointer(m[k2], f) == m[k]
    else LinkOk(m - {k}, m[k2], f)
  }

  /** Before the tear-down starts, every back-pointer to the removed chunk is still set. */
  lemma RemovingStart(m: ChunkMap, k: IntVec2)
    requires Keyed(m) && LinksOk(m) && k in m
    ensures LinksOkRemoving(m, k, HORIZONTAL_FACES)
  {
    forall k2, f | k2 in m && k2 != k && Horizontal(f)
      ensures BackLinkSettled(m, k, HORIZONTAL_FACES, k2, f)
    {
      assert LinkOk(m, m[k2], f);
    }
  }

  /** When every back-pointer is cleared, the links agree with the map without `k`. */
  lemma RemovingDone(m: ChunkMap, k: IntVec2)
    requires Keyed(m) && k in m && LinksOkRemoving(m, k, {})
    ensures Keyed(m - {k}) && LinksOk(m - {k})
  {
    forall k2, f | k2 in m - {k} && Horizontal(f)
      ensures LinkOk(m - {k}, (m - {k})[k2], f)
    {
      assert BackLinkSettled(m, k, {}, k2, f);
    }
  }

  // ---------------------------------------------------------------------
  // Setting links

  /** A chunk is never its own horizontal neighbour. */
  lemma BesideElsewhere(k: IntVec2, f: BlockFace)
    requires Horizontal(f)
    ensures Beside(k, f) != k
  {
  }

  /** Turning round twice faces the same way. */
  lemma OppositeTwice(f: BlockFace)
    ensures f.Opposite().Opposite() == f
  {
  }

  /** Stores `n` as the link of `c` towards `f`; the other three links stay. */
  method Link(c: Chunk, f: BlockFace, n: Chunk?)
    requires Horizontal(f)
    modifies c`northNeighbor, c`southNeighbor, c`eastNeighbor, c`westNeighbor
    ensures NeighborPointer(c, f) == n
    ensures forall g | g != f :: NeighborPointer(c, g) == old(NeighborPointer(c, g))
  {
    match f {
      case BLOCK_FACE_NORTH => c.northNeighbor := n;
      case BLOCK_FACE_SOUTH => c.southNeighbor := n;
      case BLOCK_FACE_EAST => c.eastNeighbor := n;
      case BLOCK_FACE_WEST => c.westNeighbor := n;
    }
  }

  /**
   * One direction of HookUpNeighbors: when a chunk is active one step
   * towards `f`, the new chunk links to it and it links back.
   */
  method HookUpSide(m: ChunkMap, c: Chunk, f: BlockFace, ghost todo: set<BlockFace>)
    requires Keyed(m) && IsActive(m, c) && Horizontal(f) && f in todo
    requires LinksOkBut(m, c.chunkCoords, todo)
    modifies m.Values`northNeighbor, m.Values`southNeighbor, m.Values`eastNeighbor, m.Values`westNeighbor
    ensures LinksOkBut(m, c.chunkCoords, todo - {f})
  {
    var k := c.chunkCoords;
    var nk := Beside(k, f);
    BesideElsewhere(k, f);
    BesideBack(k, f);
    OppositeTwice(f);
    if nk in m {
      var n := m[nk];
      Link(c, f, n);
      Link(n, f.Opposite(), c);
    }
    forall k2, g | k2 in m && Horizontal(g)
      ensures LinkSettled(m, k, todo - {f}, k2, g)
    {
      if (k2 == k && g == f) || (k2 == nk && g == f.Opposite()) {
      } else {
        assert old(LinkSettled(m, k, todo, k2, g));
        assert NeighborPointer(m[k2], g) == old(NeighborPointer(m[k2], g));
        assert HookPending(k, todo - {f}, k2, g) == HookPending(k, todo, k2, g);
      }
    }
  }

  /**
   * HookUpNeighbors: links a chunk just made active with every active chunk
   * beside it, in both directions, north, south, east, then west. Afterwards
   * every link agrees with the map, and so A's link towards a direction is B
   * exactly when B's link back is A (LinksSymmetric).
   */
  method HookUpNeighbors(m: ChunkMap, c: Chunk)
    requires Keyed(m) && IsActive(m, c) && LinksOkBut(m, c.chunkCoords, HORIZONTAL_FACES)
    modifies m.Values`northNeighbor, m.Values`southNeighbor, m.Values`eastNeighbor, m.Values`westNeighbor
    ensures LinksOk(m)
    ensures forall f | Horizontal(f) :: NeighborPointer(c, f) == Lookup(m, Beside(c.chunkCoords, f))
  {
    HookUpSide(m, c, BLOCK_FACE_NORTH, HORIZONTAL_FACES);
    HookUpSide(m, c, BLOCK_FACE_SOUTH, HORIZONTAL_FACES - {BLOCK_FACE_NORTH});
    assert HORIZONTAL_FACES - {BLOCK_FACE_NORTH} - {BLOCK_FACE_SOUTH} == {BLOCK_FACE_EAST, BLOCK_FACE_WEST};
    HookUpSide(m, c, BLOCK_FACE_EAST, {BLOCK_FACE_EAST, BLOCK_FACE_WEST});
    assert {BLOCK_FACE_EAST, BLOCK_FACE_WEST} - {BLOCK_FACE_EAST} == {BLOCK_FACE_WEST};
    HookUpSide(m, c, BLOCK_FACE_WEST, {BLOCK_FACE_WEST});
    assert {BLOCK_FACE_WEST} - {BLOCK_FACE_WEST} == {};
    LinksOkButNothing(m, c.chunkCoords);
    forall f | Horizontal(f)
      ensures NeighborPointer(c, f) == Lookup(m, Beside(c.chunkCoords, f))
    {
      assert LinkOk(m, m[c.chunkCoords], f);
    }
  }

  /**
   * One direction of RemoveFromNeighbors: the chunk the removed chunk links
   * to towards `f`, if any, drops its link back.
   */
  method UnlinkSide(m: ChunkMap, c: Chunk, f: BlockFace, ghost todo: set<BlockFace>)
    requires Keyed(m) && IsActive(m, c) && Horizontal(f) && f in todo
    requires LinksOkRemoving(m, c.chunkCoords, todo)
    modifies m.Values`northNeighbor, m.Values`southNeighbor, m.Values`eastNeighbor, m.Values`westNeighbor
    ensures LinksOkRemoving(m, c.chunkCoords, todo - {f})
  {
    var k := c.chunkCoords;
    assert LinkOk(m, c, f);
    var n := NeighborPointer(c, f);
    BesideElsewhere(k, f);
    BesideBack(k, f);
    OppositeTwice(f);
    if n != null {
      Link(n, f.Opposite(), null);
    }
    forall g | Horizontal(g)
      ensures LinkOk(m, m[k], g)
    {
      assert old(LinkOk(m, m[k], g));
    }
    forall k2, g | k2 in m && k2 != k && Horizontal(g)
      ensures BackLinkSettled(m, k, todo - {f}, k2, g)
    {
      OppositeTwice(g);
      BesideBack(k2, g);
      if n != null && m[k2] == n && g == f.Opposite() {
      } else {
        assert old(BackLinkSettled(m, k, todo, k2, g));
        assert NeighborPointer(m[k2], g) == old(NeighborPointer(m[k2], g));
      }
    }
  }

  /**
   * RemoveFromNeighbors: every chunk the removed chunk links to drops its
   * link back, in the order north, south, east, west. Against the map
   * without the removed chunk every link agrees; the removed chunk's own
   * links are left as they were.
   */
  method RemoveFromNeighbors(m: ChunkMap, c: Chunk)
    requires Keyed(m) && LinksOk(m) && IsActive(m, c)
    modifies m.Values`northNeighbor, m.Values`southNeighbor, m.Values`eastNeighbor, m.Values`westNeighbor
    ensures LinksOk(m - {c.chunkCoords}) && Keyed(m - {c.chunkCoords})
    ensures forall f | Horizontal(f) :: NeighborPointer(c, f) == old(NeighborPointer(c, f))
  {
    var k := c.chunkCoords;
    RemovingStart(m, k);
    UnlinkSide(m, c, BLOCK_FACE_NORTH, HORIZONTAL_FACES);
    UnlinkSide(m, c, BLOCK_FACE_SOUTH, HORIZONTAL_FACES - {BLOCK_FACE_NORTH});
    assert HORIZONTAL_FACES - {BLOCK_FACE_NORTH} - {BLOCK_FACE_SOUTH} == {BLOCK_FACE_EAST, BLOCK_FACE_WEST};
    UnlinkSide(m, c, BLOCK_FACE_EAST, {BLOCK_FACE_EAST, BLOCK_FACE_WEST});
    assert {BLOCK_FACE_EAST, BLOCK_FACE_WEST} - {BLOCK_FACE_EAST} == {BLOCK_FACE_WEST};
    UnlinkSide(m, c, BLOCK_FACE_WEST, {BLOCK_FACE_WEST});
    assert {BLOCK_FACE_WEST} - {BLOCK_FACE_WEST} == {};
    RemovingDone(m, k);
    forall f | Horizontal(f)
      ensures NeighborPointer(c, f) == old(NeighborPointer(c, f))
    {
      assert LinkOk(m, m[k], f);
      assert old(LinkOk(m, m[k], f));
    }
  }
}
