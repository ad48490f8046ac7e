/**
 * Constants, enumerations and small value types shared by the voxel world
 * (Game/GameCommon.h, Game/Entity.hpp).
 */
module GameCommon {

  datatype Option<T> = None | Some(value: T)

  /** An unsigned 8-bit value (uint8_t). */
  type byte = b: int | 0 <= b < 256

  /** Integer 2-vector; used for chunk coordinates. */
  datatype IntVec2 = IntVec2(x: int, y: int) {
    function Plus(o: IntVec2): IntVec2 { IntVec2(x + o.x, y + o.y) }
  }

  /** Integer 3-vector; used for block coordinates and offsets. */
  datatype IntVec3 = IntVec3(x: int, y: int, z: int) {
    function Plus(o: IntVec3): IntVec3 { IntVec3(x + o.x, y + o.y, z + o.z) }
    function Negated(): IntVec3 { IntVec3(-x, -y, -z) }
  }

  /** The four horizontal unit steps between chunks: north is +y, east is +x. */
  const NORTH2 := IntVec2(0, 1)
  const SOUTH2 := IntVec2(0, -1)
  const EAST2 := IntVec2(1, 0)
  const WEST2 := IntVec2(-1, 0)

  // ---------------------------------------------------------------------
  // Chunk geometry

  const CHUNK_BITS_X := 5
  const CHUNK_BITS_Y := 5
  const CHUNK_BITS_Z := 7

  const CHUNK_SIZE_X := 32
  const CHUNK_SIZE_Y := 32
  const CHUNK_SIZE_Z := 128
  const CHUNK_BLOCK_TOTAL := CHUNK_SIZE_X * CHUNK_SIZE_Y * CHUNK_SIZE_Z

  const CHUNK_MASK_X := CHUNK_SIZE_X - 1
  const CHUNK_MASK_Y := CHUNK_SIZE_Y - 1
  const CHUNK_MASK_Z := CHUNK_SIZE_Z - 1

  const CHUNK_ACTIVATION_RANGE := 360
  const CHUNK_DEACTIVATION_RANGE := CHUNK_ACTIVATION_RANGE + CHUNK_SIZE_X + CHUNK_SIZE_Y
  const CHUNK_ACTIVATION_RADIUS_X := 1 + CHUNK_ACTIVATION_RANGE / CHUNK_SIZE_X
  const CHUNK_ACTIVATION_RADIUS_Y := 1 + CHUNK_ACTIVATION_RANGE / CHUNK_SIZE_Y
  const MAX_ACTIVE_CHUNKS := (2 * CHUNK_ACTIVATION_RADIUS_X) * (2 * CHUNK_ACTIVATION_RADIUS_Y)
  const MAX_MESHES_PER_FRAME := 2
  const CHUNK_MESH_BUILD_RANGE := CHUNK_ACTIVATION_RANGE * CHUNK_ACTIVATION_RANGE

  const MAX_GENERATION_JOBS := 3000
  const MAX_LOAD_JOBS := 2
  const MAX_SAVE_JOBS := 2

  // Generation constants (the float SEA_LEVEL is only ever compared with whole heights)
  const SURFACE_LAYER_DEPTH := 3
  const SEA_LEVEL := 60
  const OBSIDIAN_Z := 1
  const LAVA_Z := 0

  const INVENTORY_SIZE := 10
  const MAX_STACK_IN_SLOT := 64

  /** 2 to the power n, the value of `1 << n`. */
  function Pow2(n: nat): (r: nat)
    ensures r >= 1
  {
    if n == 0 then 1 else 2 * Pow2(n - 1)
  }

  /** Shifting by `a + b` bits is shifting by `a`, then by `b`: the exponents add. */
  lemma {:induction false} Pow2Add(a: nat, b: nat)
    ensures Pow2(a + b) == Pow2(a) * Pow2(b)
  {
    if a > 0 {
      Pow2Add(a - 1, b);
    }
  }

  /**
   * Sizes are `1 << bits` and masks are `size - 1`; the chunk's block count
   * is the product of the sizes, so a packed index needs exactly the sum of
   * the bit widths.
   */
  lemma ChunkGeometry()
    ensures CHUNK_SIZE_X == Pow2(CHUNK_BITS_X) && CHUNK_SIZE_Y == Pow2(CHUNK_BITS_Y)
    ensures CHUNK_SIZE_Z == Pow2(CHUNK_BITS_Z)
    ensures CHUNK_BLOCK_TOTAL == Pow2(CHUNK_BITS_X + CHUNK_BITS_Y + CHUNK_BITS_Z)
    ensures CHUNK_MASK_X == Pow2(CHUNK_BITS_X) - 1 && CHUNK_MASK_Y == Pow2(CHUNK_BITS_Y) - 1
    ensures CHUNK_MASK_Z == Pow2(CHUNK_BITS_Z) - 1
  {
    Pow2Add(CHUNK_BITS_X, CHUNK_BITS_Y);
    Pow2Add(CHUNK_BITS_X + CHUNK_BITS_Y, CHUNK_BITS_Z);
  }

  // ---------------------------------------------------------------------
  // Block types (the BlockType enumeration, stored in one byte)

  const BLOCKTYPE_AIR: byte := 0
  const BLOCKTYPE_WATER: byte := 1
  const BLOCKTYPE_SAND: byte := 2
  const BLOCKTYPE_SNOW: byte := 3
  const BLOCKTYPE_ICE: byte := 4
  const BLOCKTYPE_DIRT: byte := 5
  const BLOCKTYPE_STONE: byte := 6
  const BLOCKTYPE_COAL: byte := 7
  const BLOCKTYPE_IRON: byte := 8
  const BLOCKTYPE_GOLD: byte := 9
  const BLOCKTYPE_DIAMOND: byte := 10
  const BLOCKTYPE_OBSIDIAN: byte := 11
  const BLOCKTYPE_LAVA: byte := 12
  const BLOCKTYPE_GLOWSTONE: byte := 13
  const BLOCKTYPE_COBBLESTONE: byte := 14
  const BLOCKTYPE_CHISELEDBRICK: byte := 15
  const BLOCKTYPE_GRASS: byte := 16
  const BLOCKTYPE_GRASSLIGHT: byte := 17
  const BLOCKTYPE_GRASSDARK: byte := 18
  const BLOCKTYPE_GRASSYELLOW: byte := 19
  const BLOCKTYPE_ACACIALOG: byte := 20
  const BLOCKTYPE_ACACIAPLANKS: byte := 21
  const BLOCKTYPE_ACACIALEAVES: byte := 22
  const BLOCKTYPE_CACTUS: byte := 23
  const BLOCKTYPE_OAKLOG: byte := 24
  const BLOCKTYPE_OAKPLANKS: byte := 25
  const BLOCKTYPE_OAKLEAVES: byte := 26
  const BLOCKTYPE_BIRCHLOG: byte := 27
  const BLOCKTYPE_BIRCHPLANKS: byte := 28
  const BLOCKTYPE_BIRCHLEAVES: byte := 29
  const BLOCKTYPE_JUNGLELOG: byte := 30
  const BLOCKTYPE_JUNGLEPLANKS: byte := 31
  const BLOCKTYPE_JUNGLELEAVES: byte := 32
  const BLOCKTYPE_SPRUCELOG: byte := 33
  const BLOCKTYPE_SPRUCEPLANKS: byte := 34
  const BLOCKTYPE_SPRUCELEAVES: byte := 35
  const BLOCKTYPE_SPRUCELEAVESSNOW: byte := 36
  const BLOCKTYPE_NUM := 37

  // ---------------------------------------------------------------------
  // Block faces (the BlockFace enumeration, values 0..5) and their unit offsets (BLOCKFACE)

  datatype BlockFace =
    | BLOCK_FACE_EAST
    | BLOCK_FACE_WEST
    | BLOCK_FACE_NORTH
    | BLOCK_FACE_SOUTH
    | BLOCK_FACE_TOP
    | BLOCK_FACE_BOTTOM
  {
    /** The enumeration value. */
    function Index(): (i: int)
      ensures 0 <= i < NUM_BLOCKFACES
    {
      match this
      case BLOCK_FACE_EAST => 0
      case BLOCK_FACE_WEST => 1
      case BLOCK_FACE_NORTH => 2
      case BLOCK_FACE_SOUTH => 3
      case BLOCK_FACE_TOP => 4
      case BLOCK_FACE_BOTTOM => 5
    }

    /** The unit step towards the face; east is +x, north is +y, top is +z. */
    function Offset(): (d: IntVec3)
      ensures Abs(d.x) + Abs(d.y) + Abs(d.z) == 1
    {
      match this
      case BLOCK_FACE_EAST => IntVec3(1, 0, 0)
      case BLOCK_FACE_WEST => IntVec3(-1, 0, 0)
      case BLOCK_FACE_NORTH => IntVec3(0, 1, 0)
      case BLOCK_FACE_SOUTH => IntVec3(0, -1, 0)
      case BLOCK_FACE_TOP => IntVec3(0, 0, 1)
      case BLOCK_FACE_BOTTOM => IntVec3(0, 0, -1)
    }

    function Opposite(): (o: BlockFace)
      ensures o != this
    {
      match this
      case BLOCK_FACE_EAST => BLOCK_FACE_WEST
      case BLOCK_FACE_WEST => BLOCK_FACE_EAST
      case BLOCK_FACE_NORTH => BLOCK_FACE_SOUTH
      case BLOCK_FACE_SOUTH => BLOCK_FACE_NORTH
      case BLOCK_FACE_TOP => BLOCK_FACE_BOTTOM
      case BLOCK_FACE_BOTTOM => BLOCK_FACE_TOP
    }
  }

  const NUM_BLOCKFACES := 6

  function Abs(v: int): nat { if v < 0 then -v else v }

  /** The face with a given enumeration value, if there is one. */
  function FaceFromIndex(i: int): (f: Option<BlockFace>)
    ensures f.Some? <==> 0 <= i < NUM_BLOCKFACES
    ensures f.Some? ==> f.value.Index() == i
  {
    if i == 0 then Some(BLOCK_FACE_EAST)
    else if i == 1 then Some(BLOCK_FACE_WEST)
    else if i == 2 then Some(BLOCK_FACE_NORTH)
    else if i == 3 then Some(BLOCK_FACE_SOUTH)
    else if i == 4 then Some(BLOCK_FACE_TOP)
    else if i == 5 then Some(BLOCK_FACE_BOTTOM)
    else None
  }

  /** The six faces are opposite in pairs with opposite offsets. */
  lemma FaceOffsetsOpposite(f: BlockFace)
    ensures f.Opposite().Opposite() == f
    ensures f.Opposite().Offset() == f.Offset().Negated()
  {
  }

  /** Distinct faces have distinct enumeration values and distinct offsets. */
  lemma FacesDistinct(f: BlockFace, g: BlockFace)
    requires f != g
    ensures f.Offset() != g.Offset() && f.Index() != g.Index()
  {
    match f
    case BLOCK_FACE_EAST =>
    case BLOCK_FACE_WEST =>
    case BLOCK_FACE_NORTH =>
    case BLOCK_FACE_SOUTH =>
    case BLOCK_FACE_TOP =>
    case BLOCK_FACE_BOTTOM =>
  }

  // ---------------------------------------------------------------------
  // Chunk life-cycle states (the ChunkState enumeration; MISSING is -1)

  datatype ChunkState =
    | MISSING
    | ON_DISK
    | CONSTRUCTING
    | ACTIVATING_QUEUED_LOAD
    | ACTIVATING_LOADING
    | ACTIVATING_LOAD_COMPLETE
    | ACTIVATING_QUEUED_GENERATE
    | ACTIVATING_GENERATING
    | ACTIVATING_GENERATE_COMPLETE
    | ACTIVE
    | DEACTIVATING_QUEUED_SAVE
    | DEACTIVATING_SAVING
    | DEACTIVATING_SAVE_COMPLETE
    | DECONSTRUCTING

  // ---------------------------------------------------------------------
  // Entity physics modes (NONE is -1, NUM is 3)

  datatype PhysicsMode = WALKING | FLYING | NOCLIP

  function PhysicsModeIndex(m: PhysicsMode): (i: int)
    ensures 0 <= i < 3
  {
    match m
    case WALKING => 0
    case FLYING => 1
    case NOCLIP => 2
  }

  function PhysicsModeOf(i: int): (m: PhysicsMode)
    requires 0 <= i < 3
    ensures PhysicsModeIndex(m) == i
  {
    if i == 0 then WALKING else if i == 1 then FLYING else NOCLIP
  }
}
