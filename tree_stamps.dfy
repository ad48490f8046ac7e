/**
 * The tree stamps stamped onto the terrain (Game/GameCommon.cpp:8-221,
 * Game/GameCommon.h:88-93): lists of (offset, block type) built by nested
 * loops, registered by name in one table.
 *
 * Every tree is a vertical trunk of logs at (0, 0, 0 .. trunkHeight - 1)
 * followed by leaves in layers around the trunk top: layer z has the square
 * radius 2 - |z - trunkHeight|, and a cell of it is a leaf when its squared
 * distance to the trunk top is below the species' threshold.
 */
module TreeStamps {
  import opened GameCommon

  datatype StampBlock = StampBlock(offset: IntVec3, blockType: byte)

  datatype TreeStamp = TreeStamp(blocks: seq<StampBlock>, radius: int)

  // ---------------------------------------------------------------------
  // The stamp as a function of its parameters

  /** The trunk: logs at heights 0 up to `height - 1`. */
  function Trunk(height: nat, log: byte): (r: seq<StampBlock>)
    ensures |r| == height
    ensures forall i :: 0 <= i < height ==> r[i] == StampBlock(IntVec3(0, 0, i), log)
  {
    if height == 0 then [] else Trunk(height - 1, log) + [StampBlock(IntVec3(0, 0, height - 1), log)]
  }

  /** The square radius of leaf layer `z`. */
  function LayerRadius(trunkHeight: int, z: int): int {
    2 - Abs(z - trunkHeight)
  }

  function SquaredDistance(trunkHeight: int, x: int, y: int, z: int): int {
    x * x + y * y + (z - trunkHeight) * (z - trunkHeight)
  }

  /** The leaf test of one cell, an int compared with the species' threshold. */
  predicate IsLeafCell(trunkHeight: int, threshold: real, x: int, y: int, z: int) {
    (SquaredDistance(trunkHeight, x, y, z) as real) < threshold
  }

  /** The side of a square layer of radius r: 2r + 1 cells, none when r is negative. */
  function Side(r: int): (n: nat)
    ensures forall x :: -r <= x < -r + n <==> Abs(x) <= r
  {
    if r < 0 then 0 else 2 * r + 1
  }

  /** The leaves among the first n cells of row y of layer z, x running from -r. */
  function LeafRow(h: int, thr: real, leaf: byte, z: int, y: int, r: int, n: nat): seq<StampBlock> {
    if n == 0 then []
    else
      var x := -r + n - 1;
      LeafRow(h, thr, leaf, z, y, r, n - 1)
      + (if IsLeafCell(h, thr, x, y, z) then [StampBlock(IntVec3(x, y, z), leaf)] else [])
  }

  /** The leaves of the first n rows of layer z, y running from -r; each row is a full side. */
  function LeafLayer(h: int, thr: real, leaf: byte, z: int, r: int, n: nat): seq<StampBlock> {
    if n == 0 then []
    else LeafLayer(h, thr, leaf, z, r, n - 1) + LeafRow(h, thr, leaf, z, -r + n - 1, r, Side(r))
  }

  /** The leaves of the first n layers from `loZ` upwards, each layer with its own radius. */
  function Leaves(h: int, thr: real, leaf: byte, loZ: int, n: nat): seq<StampBlock> {
    if n == 0 then []
    else
      var z := loZ + n - 1;
      Leaves(h, thr, leaf, loZ, n - 1) + LeafLayer(h, thr, leaf, z, LayerRadius(h, z), Side(LayerRadius(h, z)))
  }

  /**
   * What distinguishes the leafy builders: the trunk height, the log and leaf
   * types, how many leaf layers lie below the trunk top, and the leaf threshold.
   */
  datatype TreeParams = TreeParams(trunkHeight: nat, log: byte, leaf: byte, leavesBelow: nat, threshold: real)

  /** The lowest leaf layer. */
  function LowestLeafZ(p: TreeParams): int { p.trunkHeight - p.leavesBelow }

  /** The leaf layers at and above the trunk top: the top layer and the two over it. */
  const CROWN_TOP_LAYERS: nat := 3
  /** An alias, so that a species' literal `leavesBelow` does not make the layer count a literal. */
  const TOP_LAYERS: nat := CROWN_TOP_LAYERS

  /** The leaves of a leafy stamp: the layers from `LowestLeafZ(p)` up to `trunkHeight + 2`. */
  function LeavesOf(p: TreeParams): seq<StampBlock> {
    Leaves(p.trunkHeight, p.threshold, p.leaf, LowestLeafZ(p), p.leavesBelow + TOP_LAYERS)
  }

  /** The stamp a leafy builder makes: the trunk, then the leaves, with radius 2. */
  function TreeStampOf(p: TreeParams): TreeStamp {
    TreeStamp(Trunk(p.trunkHeight, p.log) + LeavesOf(p), 2)
  }

  /** A leaf cell: in a layer from `loZ` up to `hiZ`, within that layer's square radius, and below the threshold. */
  predicate InLeafSet(h: int, thr: real, leaf: byte, loZ: int, hiZ: int, b: StampBlock) {
    var o := b.offset;
    && b.blockType == leaf
    && loZ <= o.z <= hiZ
    && Abs(o.x) <= LayerRadius(h, o.z) && Abs(o.y) <= LayerRadius(h, o.z)
    && IsLeafCell(h, thr, o.x, o.y, o.z)
  }

  // ---------------------------------------------------------------------
  // Leaf membership

  lemma {:induction false} LeafRowMembers(h: int, thr: real, leaf: byte, z: int, y: int, r: int, n: nat, b: StampBlock)
    ensures b in LeafRow(h, thr, leaf, z, y, r, n) <==>
      b.blockType == leaf && b.offset.z == z && b.offset.y == y && -r <= b.offset.x < -r + n
      && IsLeafCell(h, thr, b.offset.x, y, z)
  {
    if n > 0 {
      LeafRowMembers(h, thr, leaf, z, y, r, n - 1, b);
    }
  }

  lemma {:induction false} LeafLayerMembers(h: int, thr: real, leaf: byte, z: int, r: int, n: nat, b: StampBlock)
    ensures b in LeafLayer(h, thr, leaf, z, r, n) <==>
      b.blockType == leaf && b.offset.z == z && -r <= b.offset.y < -r + n && Abs(b.offset.x) <= r
      && IsLeafCell(h, thr, b.offset.x, b.offset.y, z)
  {
    if n > 0 {
      LeafLayerMembers(h, thr, leaf, z, r, n - 1, b);
      LeafRowMembers(h, thr, leaf, z, -r + n - 1, r, Side(r), b);
    }
  }

  /** A block is among the first n layers' leaves exactly when it is a leaf cell of one of them. */
  lemma {:induction false} LeavesMembers(h: int, thr: real, leaf: byte, loZ: int, n: nat, b: StampBlock)
    ensures b in Leaves(h, thr, leaf, loZ, n) <==> InLeafSet(h, thr, leaf, loZ, loZ + n - 1, b)
  {
    if n > 0 {
      var z := loZ + n - 1;
      var r := LayerRadius(h, z);
      assert Leaves(h, thr, leaf, loZ, n) == Leaves(h, thr, leaf, loZ, n - 1) + LeafLayer(h, thr, leaf, z, r, Side(r));
      LeavesMembers(h, thr, leaf, loZ, n - 1, b);
      LeafLayerMembers(h, thr, leaf, z, r, Side(r), b);
    }
  }

  /**
   * The shape every builder promises: the trunk first, then exactly the leaf
   * cells, all within the stamp radius 2 and at or above the trunk base.
   */
  lemma TreeStampShape(p: TreeParams, b: StampBlock)
    requires p.leavesBelow <= 2 && p.trunkHeight >= 2
    ensures var s := TreeStampOf(p);
      && s.blocks[..p.trunkHeight] == Trunk(p.trunkHeight, p.log)
      && (b in s.blocks[p.trunkHeight..] <==>
            InLeafSet(p.trunkHeight, p.threshold, p.leaf, LowestLeafZ(p), p.trunkHeight + 2, b))
      && (b in s.blocks[p.trunkHeight..] ==>
            Abs(b.offset.x) <= s.radius && Abs(b.offset.y) <= s.radius && b.offset.z >= 0)
  {
    var s := TreeStampOf(p);
    var trunk, leaves := Trunk(p.trunkHeight, p.log), LeavesOf(p);
    assert s.blocks == trunk + leaves && |trunk| == p.trunkHeight;
    assert s.blocks[..p.trunkHeight] == trunk;
    assert s.blocks[p.trunkHeight..] == leaves;
    LeavesMembers(p.trunkHeight, p.threshold, p.leaf, LowestLeafZ(p), p.leavesBelow + TOP_LAYERS, b);
    if b in leaves {
      var z := b.offset.z;
      assert LowestLeafZ(p) <= z && 0 <= LowestLeafZ(p);
      assert LayerRadius(p.trunkHeight, z) <= 2;
    }
  }

  /** With threshold 27.5 every cell of every layer is a leaf: the largest squared distance in a layer is 8. */
  lemma LayerCellsWithinEight(h: int, x: int, y: int, z: int)
    requires Abs(z - h) <= 2 && Abs(x) <= LayerRadius(h, z) && Abs(y) <= LayerRadius(h, z)
    ensures SquaredDistance(h, x, y, z) <= 8
  {
    var d := Abs(z - h);
    var r := 2 - d;
    assert x * x <= r * r by {
      if x < 0 { assert x * x == (-x) * (-x); }
      assert 0 <= Abs(x) <= r;
    }
    assert y * y <= r * r by {
      if y < 0 { assert y * y == (-y) * (-y); }
      assert 0 <= Abs(y) <= r;
    }
    assert (z - h) * (z - h) == d * d;
    assert d == 0 || d == 1 || d == 2;
  }

  // ---------------------------------------------------------------------
  // The builders

  /** The x loop of one leaf row: appends the accepted cells of row y, layer z. */
  method AppendLeafRow(blocks: seq<StampBlock>, p: TreeParams, z: int, y: int, radius: int)
    returns (out: seq<StampBlock>)
    ensures out == blocks + LeafRow(p.trunkHeight, p.threshold, p.leaf, z, y, radius, Side(radius))
  {
    out := blocks;
    var leafX := -radius;
    while leafX <= radius
      invariant -radius <= leafX && (leafX <= radius + 1 || leafX == -radius)
      invariant out == blocks + LeafRow(p.trunkHeight, p.threshold, p.leaf, z, y, radius, leafX + radius)
      decreases radius - leafX
    {
      if ((leafX * leafX + y * y + (z - p.trunkHeight) * (z - p.trunkHeight)) as real) < p.threshold {
        out := out + [StampBlock(IntVec3(leafX, y, z), p.leaf)];
      }
      leafX := leafX + 1;
    }
  }

  /** The y and x loops of one leaf layer z. */
  method AppendLeafLayer(blocks: seq<StampBlock>, p: TreeParams, z: int)
    returns (out: seq<StampBlock>)
    ensures var r := LayerRadius(p.trunkHeight, z);
      out == blocks + LeafLayer(p.trunkHeight, p.threshold, p.leaf, z, r, Side(r))
  {
    var radius := 2 - Abs(z - p.trunkHeight);
    out := blocks;
    var leafY := -radius;
    while leafY <= radius
      invariant -radius <= leafY && (leafY <= radius + 1 || leafY == -radius)
      invariant out == blocks + LeafLayer(p.trunkHeight, p.threshold, p.leaf, z, radius, leafY + radius)
      decreases radius - leafY
    {
      out := AppendLeafRow(out, p, z, leafY, radius);
      leafY := leafY + 1;
    }
  }

  /** The trunk loop: logs at heights 0 up to `trunkHeight - 1`. */
  method MakeTrunk(trunkHeight: nat, log: byte) returns (blocks: seq<StampBlock>)
    ensures blocks == Trunk(trunkHeight, log)
  {
    blocks := [];
    var trunkZ := 0;
    while trunkZ < trunkHeight
      invariant 0 <= trunkZ <= trunkHeight
      invariant blocks == Trunk(trunkZ, log)
    {
      blocks := blocks + [StampBlock(IntVec3(0, 0, trunkZ), log)];
      trunkZ := trunkZ + 1;
    }
  }

  /** Appending the layer at height loZ + n to the first n layers gives the first n + 1. */
  lemma LeavesStep(blocks: seq<StampBlock>, prev: seq<StampBlock>, out: seq<StampBlock>, p: TreeParams, loZ: int, n: nat)
    requires prev == blocks + Leaves(p.trunkHeight, p.threshold, p.leaf, loZ, n)
    requires var r := LayerRadius(p.trunkHeight, loZ + n);
      out == prev + LeafLayer(p.trunkHeight, p.threshold, p.leaf, loZ + n, r, Side(r))
    ensures out == blocks + Leaves(p.trunkHeight, p.threshold, p.leaf, loZ, n + 1)
  {
    var r := LayerRadius(p.trunkHeight, loZ + n);
    var layer := LeafLayer(p.trunkHeight, p.threshold, p.leaf, loZ + n, r, Side(r));
    assert Leaves(p.trunkHeight, p.threshold, p.leaf, loZ, n + 1) == Leaves(p.trunkHeight, p.threshold, p.leaf, loZ, n) + layer;
  }

  /** The leaf loops over z, y, x of a leafy builder, appending each accepted cell. */
  method AppendLeaves(blocks: seq<StampBlock>, p: TreeParams) returns (out: seq<StampBlock>)
    ensures out == blocks + LeavesOf(p)
  {
    out := blocks;
    var loZ := p.trunkHeight - p.leavesBelow;
    var layers: nat := 0;
    while layers < p.leavesBelow + TOP_LAYERS
      invariant layers <= p.leavesBelow + TOP_LAYERS
      invariant out == blocks + Leaves(p.trunkHeight, p.threshold, p.leaf, loZ, layers)
    {
      ghost var prev := out;
      var leafZ := loZ + layers;
      out := AppendLeafLayer(out, p, leafZ);
      LeavesStep(blocks, prev, out, p, loZ, layers);
      layers := layers + 1;
    }
  }

  /**
   * The loops shared by the seven leafy Make* builders: the trunk loop, then
   * the leaf loops.
   */
  method MakeTree(p: TreeParams) returns (stamp: TreeStamp)
    ensures stamp == TreeStampOf(p)
  {
    var blocks := MakeTrunk(p.trunkHeight, p.log);
    blocks := AppendLeaves(blocks, p);
    stamp := TreeStamp(blocks, 2);
  }

  // ---------------------------------------------------------------------
  // The eight species

  datatype TreeSpecies = OakSmall | OakLarge | Spruce | Birch | Acacia | Jungle | Cactus | SnowySpruce

  /** The key each species' stamp is registered under. */
  function StampName(s: TreeSpecies): string {
    match s
    case OakSmall => "oak_small"
    case OakLarge => "oak_large"
    case Spruce => "spruce"
    case Birch => "birch"
    case Acacia => "acacia"
    case Jungle => "jungle"
    case Cactus => "cactus"
    case SnowySpruce => "snowy_spruce"
  }

  const SMALL_OAK_TRUNK_HEIGHT: nat := 4
  const TALL_TREE_TRUNK_HEIGHT: nat := 7
  const CACTUS_HEIGHT: nat := 3
  /**
   * The trunk heights ParamsOf uses. They are aliases rather than the numbers
   * themselves so that fixing a species does not make the verifier evaluate
   * its whole stamp cell by cell.
   */
  const SHORT_TRUNK: nat := SMALL_OAK_TRUNK_HEIGHT
  const TALL_TRUNK: nat := TALL_TREE_TRUNK_HEIGHT
  const CACTUS_TRUNK: nat := CACTUS_HEIGHT

  /** The constants of each builder (the cactus has no leaves; its leaf fields are unused). */
  function ParamsOf(s: TreeSpecies): TreeParams {
    match s
    case OakSmall => TreeParams(SHORT_TRUNK, BLOCKTYPE_OAKLOG, BLOCKTYPE_OAKLEAVES, 2, 3.0)
    case OakLarge => TreeParams(TALL_TRUNK, BLOCKTYPE_OAKLOG, BLOCKTYPE_OAKLEAVES, 2, 27.5)
    case Spruce => TreeParams(TALL_TRUNK, BLOCKTYPE_SPRUCELOG, BLOCKTYPE_SPRUCELEAVES, 2, 5.0)
    case Birch => TreeParams(TALL_TRUNK, BLOCKTYPE_BIRCHLOG, BLOCKTYPE_BIRCHLEAVES, 2, 6.0)
    case Acacia => TreeParams(TALL_TRUNK, BLOCKTYPE_ACACIALOG, BLOCKTYPE_ACACIALEAVES, 0, 6.0)
    case Jungle => TreeParams(TALL_TRUNK, BLOCKTYPE_JUNGLELOG, BLOCKTYPE_JUNGLELEAVES, 2, 6.0)
    case Cactus => TreeParams(CACTUS_TRUNK, BLOCKTYPE_CACTUS, BLOCKTYPE_CACTUS, 0, 0.0)
    case SnowySpruce => TreeParams(TALL_TRUNK, BLOCKTYPE_SPRUCELOG, BLOCKTYPE_SPRUCELEAVESSNOW, 2, 8.0)
  }

  /** The stamp each species' builder makes. */
  function StampOf(s: TreeSpecies): TreeStamp {
    var p := ParamsOf(s);
    if s == Cactus then TreeStamp(Trunk(p.trunkHeight, p.log), 1) else TreeStampOf(p)
  }

  method MakeSmallOakTree() returns (stamp: TreeStamp)
    ensures stamp == StampOf(OakSmall)
  {
    stamp := MakeTree(ParamsOf(OakSmall));
  }

  method MakeLargeOakTree() returns (stamp: TreeStamp)
    ensures stamp == StampOf(OakLarge)
  {
    stamp := MakeTree(ParamsOf(OakLarge));
  }

  method MakeSpruceTree() returns (stamp: TreeStamp)
    ensures stamp == StampOf(Spruce)
  {
    stamp := MakeTree(ParamsOf(Spruce));
  }

  method MakeBirchTree() returns (stamp: TreeStamp)
    ensures stamp == StampOf(Birch)
  {
    stamp := MakeTree(ParamsOf(Birch));
  }

  /** The acacia canopy starts at the trunk top instead of two layers below it. */
  method MakeAcaciaTree() returns (stamp: TreeStamp)
    ensures stamp == StampOf(Acacia)
  {
    stamp := MakeTree(ParamsOf(Acacia));
  }

  method MakeJungleTree() returns (stamp: TreeStamp)
    ensures stamp == StampOf(Jungle)
  {
    stamp := MakeTree(ParamsOf(Jungle));
  }

  method MakeSnowySpruceTree() returns (stamp: TreeStamp)
    ensures stamp == StampOf(SnowySpruce)
  {
    stamp := MakeTree(ParamsOf(SnowySpruce));
  }

  /** Three cactus blocks stacked on the ground, radius 1. */
  method MakeCactus() returns (stamp: TreeStamp)
    ensures stamp == StampOf(Cactus)
    ensures stamp.blocks == [StampBlock(IntVec3(0, 0, 0), BLOCKTYPE_CACTUS),
                             StampBlock(IntVec3(0, 0, 1), BLOCKTYPE_CACTUS),
                             StampBlock(IntVec3(0, 0, 2), BLOCKTYPE_CACTUS)]
  {
    var blocks: seq<StampBlock> := [];
    var trunkZ := 0;
    while trunkZ < 3
      invariant 0 <= trunkZ <= 3
      invariant blocks == Trunk(trunkZ, BLOCKTYPE_CACTUS)
    {
      blocks := blocks + [StampBlock(IntVec3(0, 0, trunkZ), BLOCKTYPE_CACTUS)];
      trunkZ := trunkZ + 1;
    }
    stamp := TreeStamp(blocks, 1);
  }

  /** Trunk heights: 4 for the small oak, 3 for the cactus, 7 for the rest; at most two leaf layers below the top. */
  lemma SpeciesParams(s: TreeSpecies)
    ensures ParamsOf(s).trunkHeight == (if s == OakSmall then 4 else if s == Cactus then 3 else 7)
    ensures ParamsOf(s).leavesBelow <= 2
    ensures StampOf(s).blocks[..ParamsOf(s).trunkHeight] == Trunk(ParamsOf(s).trunkHeight, ParamsOf(s).log)
  {
  }

  // ---------------------------------------------------------------------
  // The registry (keyed by species; StampName gives each species' string key)

  /** Different species have different string keys, so keying by species loses nothing. */
  lemma StampNamesDistinct(a: TreeSpecies, b: TreeSpecies)
    requires a != b
    ensures StampName(a) != StampName(b)
  {
    var na, nb := StampName(a), StampName(b);
    if |na| == |nb| {
      if {a, b} == {OakSmall, OakLarge} {
        assert na[4] != nb[4];
      } else {
        assert na[0] != nb[0];
      }
    }
  }

  const ALL_SPECIES: set<TreeSpecies> := {OakSmall, OakLarge, Spruce, Birch, Acacia, Jungle, Cactus, SnowySpruce}

  /** The table registers exactly the species of `done`, each with the stamp `want` gives it. */
  ghost predicate Registered(stamps: map<TreeSpecies, TreeStamp>, done: set<TreeSpecies>, want: TreeSpecies -> TreeStamp) {
    && stamps.Keys == done
    && (forall t | t in done :: stamps[t] == want(t))
  }

  /** The stamp table: all eight species, each mapped to its builder's stamp. */
  ghost predicate IsStampTable(stamps: map<TreeSpecies, TreeStamp>) {
    Registered(stamps, ALL_SPECIES, StampOf)
  }

  /** There are eight species. */
  lemma AllSpeciesCount()
    ensures |ALL_SPECIES| == 8
    ensures forall t: TreeSpecies :: t in ALL_SPECIES
  {
    forall t: TreeSpecies
      ensures t in ALL_SPECIES
    {
      match t
      case OakSmall =>
      case OakLarge =>
      case Spruce =>
      case Birch =>
      case Acacia =>
      case Jungle =>
      case Cactus =>
      case SnowySpruce =>
    }
  }

  /** Every species is in the table with its stamp. */
  lemma StampTableLookup(stamps: map<TreeSpecies, TreeStamp>, t: TreeSpecies)
    requires IsStampTable(stamps)
    ensures t in stamps && stamps[t] == StampOf(t)
  {
    assert t in ALL_SPECIES;
  }

  /** Registering the eight species one after another yields the table of `want`, whatever the stamps are. */
  lemma RegisterAll(want: TreeSpecies -> TreeStamp, smallOak: TreeStamp, largeOak: TreeStamp, spruce: TreeStamp, birch: TreeStamp, acacia: TreeStamp, jungle: TreeStamp, cactus: TreeStamp, snowySpruce: TreeStamp)
    requires smallOak == want(OakSmall)
      && largeOak == want(OakLarge)
      && spruce == want(Spruce)
      && birch == want(Birch)
      && acacia == want(Acacia)
      && jungle == want(Jungle)
      && cactus == want(Cactus)
      && snowySpruce == want(SnowySpruce)
    ensures Registered(map[]
      [OakSmall := smallOak]
      [OakLarge := largeOak]
      [Spruce := spruce]
      [Birch := birch]
      [Acacia := acacia]
      [Jungle := jungle]
      [Cactus := cactus]
      [SnowySpruce := snowySpruce], ALL_SPECIES, want)
  {
  }

  /** BuildTreeStamps: registers the eight stamps; the global table is the result. */
  method BuildTreeStamps() returns (stamps: map<TreeSpecies, TreeStamp>)
    ensures IsStampTable(stamps)
  {
    stamps := map[];
    var smallOak := MakeSmallOakTree();
    stamps := stamps[OakSmall := smallOak];
    var largeOak := MakeLargeOakTree();
    stamps := stamps[OakLarge := largeOak];
    var spruce := MakeSpruceTree();
    stamps := stamps[Spruce := spruce];
    var birch := MakeBirchTree();
    stamps := stamps[Birch := birch];
    var acacia := MakeAcaciaTree();
    stamps := stamps[Acacia := acacia];
    var jungle := MakeJungleTree();
    stamps := stamps[Jungle := jungle];
    var cactus := MakeCactus();
    stamps := stamps[Cactus := cactus];
    var snowySpruce := MakeSnowySpruceTree();
    stamps := stamps[SnowySpruce := snowySpruce];
    RegisterAll(StampOf, smallOak, largeOak, spruce, birch, acacia, jungle, cactus, snowySpruce);
  }

  /** Every block lies within the stamp's radius horizontally and not below its root. */
  predicate WithinRadius(s: TreeStamp) {
    forall i :: 0 <= i < |s.blocks| ==>
      && Abs(s.blocks[i].offset.x) <= s.radius && Abs(s.blocks[i].offset.y) <= s.radius
      && s.blocks[i].offset.z >= 0
  }

  /** Every block of a leafy stamp lies within radius 2 horizontally and at or above the base. */
  lemma LeafyStampBounds(p: TreeParams, i: int)
    requires p.leavesBelow <= 2 && p.trunkHeight >= 2
    requires 0 <= i < |TreeStampOf(p).blocks|
    ensures var o := TreeStampOf(p).blocks[i].offset;
      Abs(o.x) <= 2 && Abs(o.y) <= 2 && o.z >= 0
  {
    var s := TreeStampOf(p);
    if i >= p.trunkHeight {
      var b := s.blocks[i];
      assert b == s.blocks[p.trunkHeight..][i - p.trunkHeight];
      TreeStampShape(p, b);
    }
  }

  lemma LeafyWithinRadius(p: TreeParams)
    requires p.leavesBelow <= 2 && p.trunkHeight >= 2
    ensures WithinRadius(TreeStampOf(p))
  {
    forall i | 0 <= i < |TreeStampOf(p).blocks|
      ensures var o := TreeStampOf(p).blocks[i].offset;
        Abs(o.x) <= 2 && Abs(o.y) <= 2 && o.z >= 0
    {
      LeafyStampBounds(p, i);
    }
  }

  /** The cactus is a column of blocks straight up from its root, with radius 1. */
  lemma CactusStampBounds()
    ensures forall i :: 0 <= i < |StampOf(Cactus).blocks| ==> StampOf(Cactus).blocks[i].offset == IntVec3(0, 0, i)
    ensures StampOf(Cactus).radius == 1 && WithinRadius(StampOf(Cactus))
  {
    assert StampOf(Cactus) == TreeStamp(Trunk(CACTUS_TRUNK, BLOCKTYPE_CACTUS), 1);
  }

  /** A leafy species' stamp is the leafy builder's stamp of its parameters, which fit that builder. */
  lemma LeafySpecies(t: TreeSpecies)
    requires t != Cactus
    ensures StampOf(t) == TreeStampOf(ParamsOf(t))
    ensures ParamsOf(t).leavesBelow <= 2 && ParamsOf(t).trunkHeight >= 2
  {
    SpeciesParams(t);
  }

  /** Every block of every stamp lies within the stamp's radius horizontally and at or above its base. */
  lemma StampBounds(t: TreeSpecies)
    ensures WithinRadius(StampOf(t))
  {
    if t == Cactus {
      CactusStampBounds();
    } else {
      LeafySpecies(t);
      LeafyWithinRadius(ParamsOf(t));
    }
  }
}
