/**
 * Distances from the camera and the mesh-build queue's ordering
 * (Game/World.cpp:141-297, 925-930). The source measures squared distances
 * in floats from the camera's XY position to a chunk's integer centre; here
 * the camera position is a real and the distances are exact.
 */
module MeshQueue {
  import opened GameCommon
  import opened ChunkIndex
  import opened Blocks
  import opened Chunks
  import opened Meshing

  /** The camera's position projected on the ground plane. */
  datatype Vec2 = Vec2(x: real, y: real)

  /** GetDistanceSquared2D from the camera to the centre of the chunk at `coords`. */
  function ChunkDistSq(coords: IntVec2, cam: Vec2): (d: real)
    ensures d >= 0.0
  {
    var c := GetChunkCenter(coords);
    var dx := c.x as real - cam.x;
    var dy := c.y as real - cam.y;
    dx * dx + dy * dy
  }

  /** GetChunkDistSquaredToCamera */
  function DistToCamera(c: Chunk, cam: Vec2): real {
    ChunkDistSq(c.chunkCoords, cam)
  }

  /** GetChunkCoordsFromWorldPos: floor of the position over the chunk size, per axis. */
  function CameraChunkCoords(cam: Vec2): (k: IntVec2)
    ensures (k.x * CHUNK_SIZE_X) as real <= cam.x < ((k.x + 1) * CHUNK_SIZE_X) as real
    ensures (k.y * CHUNK_SIZE_Y) as real <= cam.y < ((k.y + 1) * CHUNK_SIZE_Y) as real
  {
    IntVec2((cam.x / CHUNK_SIZE_X as real).Floor, (cam.y / CHUNK_SIZE_Y as real).Floor)
  }

  const ACTIVATION_RANGE_SQ: real := (CHUNK_ACTIVATION_RANGE * CHUNK_ACTIVATION_RANGE) as real
  const DEACTIVATION_RANGE_SQ: real := (CHUNK_DEACTIVATION_RANGE * CHUNK_DEACTIVATION_RANGE) as real
  const MESH_BUILD_RANGE: real := CHUNK_MESH_BUILD_RANGE as real

  /** A chunk the streaming code may evict: strictly beyond the deactivation range. */
  predicate BeyondDeactivation(coords: IntVec2, cam: Vec2) {
    ChunkDistSq(coords, cam) > DEACTIVATION_RANGE_SQ
  }

  /** A missing chunk the streaming code may create: within the activation range. */
  predicate WithinActivation(coords: IntVec2, cam: Vec2) {
    ChunkDistSq(coords, cam) <= ACTIVATION_RANGE_SQ
  }

  /**
   * Hysteresis: no chunk position is both close enough to be created and far
   * enough to be evicted, so a chunk created for a camera position is not
   * evicted for the same one; the gap is the two extra chunk widths.
   */
  lemma ActivationDeactivationGap(coords: IntVec2, cam: Vec2)
    ensures WithinActivation(coords, cam) ==> !BeyondDeactivation(coords, cam)
    ensures DEACTIVATION_RANGE_SQ - ACTIVATION_RANGE_SQ == 50176.0
  {
  }

  // ---------------------------------------------------------------------
  // Queue shape

  predicate SortedByDistance(q: seq<Chunk>, cam: Vec2) {
    forall i, j | 0 <= i < j < |q| :: DistToCamera(q[i], cam) <= DistToCamera(q[j], cam)
  }

  predicate NoDuplicates(q: seq<Chunk>) {
    forall i, j | 0 <= i < j < |q| :: q[i] != q[j]
  }

  /** A chunk the mesh-build queue takes: mesh-dirty and within build range. */
  predicate Candidate(c: Chunk, cam: Vec2)
    reads c`isMeshDirty
  {
    c.isMeshDirty && ChunkDistSq(c.chunkCoords, cam) <= MESH_BUILD_RANGE
  }

  /** The active chunks the mesh-build queue gathers. */
  function MeshCandidates(m: map<IntVec2, Chunk>, cam: Vec2): set<Chunk>
    reads m.Values`isMeshDirty
  {
    set k | k in m && Candidate(m[k], cam) :: m[k]
  }

  /**
   * The gathering loop of UpdateMeshBuildQueue: one pass over the active
   * chunks, appending each candidate. A map whose chunks sit at their own
   * coordinates yields each candidate once.
   */
  method GatherCandidates(m: map<IntVec2, Chunk>, cam: Vec2) returns (q: seq<Chunk>)
    requires forall k | k in m :: m[k].chunkCoords == k
    ensures Members(q) == MeshCandidates(m, cam)
    ensures NoDuplicates(q)
  {
    q := [];
    var remaining := m.Keys;
    while remaining != {}
      invariant remaining <= m.Keys
      invariant NoDuplicates(q)
      invariant forall c | c in q ::
        c.chunkCoords in m && m[c.chunkCoords] == c && c.chunkCoords !in remaining && Candidate(c, cam)
      invariant forall k | k in m && k !in remaining && Candidate(m[k], cam) :: m[k] in q
      decreases |remaining|
    {
      var coords :| coords in remaining;
      var chunk := m[coords];
      if chunk.isMeshDirty && ChunkDistSq(chunk.chunkCoords, cam) <= MESH_BUILD_RANGE {
        q := q + [chunk];
      }
      remaining := remaining - {coords};
    }
  }

  /** The front of a queue without duplicates is not in its rest, which has none either. */
  lemma NoDuplicatesTail(q: seq<Chunk>)
    requires NoDuplicates(q) && q != []
    ensures NoDuplicates(q[1..]) && q[0] !in q[1..]
  {
    forall i | 0 <= i < |q[1..]|
      ensures q[1..][i] != q[0]
    {
      assert q[1..][i] == q[i + 1];
    }
  }

  /** The chunks a queue holds. */
  function Members(q: seq<Chunk>): (s: set<Chunk>)
    ensures forall c | c in q :: c in s
    ensures forall c | c in s :: c in q
  {
    set c | c in q
  }

  /**
   * The selection step: the index of the first chunk of `q[from..]` with the
   * smallest distance (a later chunk replaces the candidate only when it is
   * strictly closer).
   */
  method ClosestFrom(q: seq<Chunk>, from: int, cam: Vec2) returns (k: int)
    requires 0 <= from < |q|
    ensures from <= k < |q|
    ensures forall j | from <= j < |q| :: DistToCamera(q[k], cam) <= DistToCamera(q[j], cam)
    ensures forall j | from <= j < k :: DistToCamera(q[j], cam) > DistToCamera(q[k], cam)
  {
    k := from;
    var closest := DistToCamera(q[from], cam);
    var next := from + 1;
    while next < |q|
      invariant from <= k < next <= |q|
      invariant closest == DistToCamera(q[k], cam)
      invariant forall j | from <= j < next :: closest <= DistToCamera(q[j], cam)
      invariant forall j | from <= j < k :: DistToCamera(q[j], cam) > closest
    {
      var d := DistToCamera(q[next], cam);
      if d < closest {
        closest := d;
        k := next;
      }
      next := next + 1;
    }
  }

  /** Swapping two entries keeps the multiset of a queue. */
  lemma SwapKeepsMultiset(q: seq<Chunk>, i: int, k: int)
    requires 0 <= i < |q| && 0 <= k < |q|
    ensures multiset(q[i := q[k]][k := q[i]]) == multiset(q)
  {
    var r := q[i := q[k]];
    assert multiset(r) == multiset(q) - multiset{q[i]} + multiset{q[k]};
    assert multiset(r[k := q[i]]) == multiset(r) - multiset{r[k]} + multiset{q[i]};
  }

  /** A queue without repeats holds as many entries as its set of members. */
  lemma {:induction false} NoDuplicatesCard(q: seq<Chunk>)
    requires NoDuplicates(q)
    ensures |Members(q)| == |q|
  {
    if q != [] {
      var last := q[|q| - 1];
      var init := q[..|q| - 1];
      NoDuplicatesCard(init);
      assert Members(q) == Members(init) + {last};
      assert last !in Members(init);
    }
  }

  /** The same multiset keeps a queue's members and keeps it free of repeats. */
  lemma PermutationNoDuplicates(q: seq<Chunk>, r: seq<Chunk>)
    requires NoDuplicates(q) && multiset(q) == multiset(r)
    ensures Members(r) == Members(q)
    ensures NoDuplicates(r)
  {
    assert forall c :: c in q <==> c in multiset(q);
    assert forall c :: c in r <==> c in multiset(r);
    forall i, j | 0 <= i < j < |r|
      ensures r[i] != r[j]
    {
      if r[i] == r[j] {
        assert multiset(r)[r[i]] >= 2 by {
          assert r == r[..i] + [r[i]] + r[i + 1..j] + [r[j]] + r[j + 1..];
        }
        MultiplicityOne(q, r[i]);
      }
    }
  }

  /** A queue without repeats holds each member once. */
  lemma {:induction false} MultiplicityOne(q: seq<Chunk>, c: Chunk)
    requires NoDuplicates(q)
    ensures multiset(q)[c] <= 1
  {
    if q != [] {
      var init := q[..|q| - 1];
      assert q == init + [q[|q| - 1]];
      MultiplicityOne(init, c);
      if c == q[|q| - 1] {
        assert c !in init;
      }
    }
  }

  /**
   * The sort of UpdateMeshBuildQueue: a selection sort that moves the
   * closest remaining chunk to each position in turn, swapping only when
   * it is not already there. The result is the same chunks, closest first.
   */
  method SortByDistance(q: seq<Chunk>, cam: Vec2) returns (r: seq<Chunk>)
    ensures multiset(r) == multiset(q)
    ensures SortedByDistance(r, cam)
  {
    r := q;
    var chunkMeshIndex := 0;
    while chunkMeshIndex < |r|
      invariant 0 <= chunkMeshIndex <= |r|
      invariant multiset(r) == multiset(q)
      invariant forall a, b | 0 <= a < b < |r| && a < chunkMeshIndex :: DistToCamera(r[a], cam) <= DistToCamera(r[b], cam)
    {
      var closestChunkIndex := ClosestFrom(r, chunkMeshIndex, cam);
      if closestChunkIndex != chunkMeshIndex {
        SwapKeepsMultiset(r, chunkMeshIndex, closestChunkIndex);
        r := r[chunkMeshIndex := r[closestChunkIndex]][closestChunkIndex := r[chunkMeshIndex]];
      }
      chunkMeshIndex := chunkMeshIndex + 1;
    }
  }

  // ---------------------------------------------------------------------
  // Building meshes and cleaning up the queue

  /** Which queue entries BuildMeshesThisFrame may build: mesh-dirty with all four neighbours linked. */
  function ReadyOf(q: seq<Chunk>): (r: seq<bool>)
    reads Members(q)`isMeshDirty, Members(q)`northNeighbor, Members(q)`southNeighbor
    reads Members(q)`eastNeighbor, Members(q)`westNeighbor
    ensures |r| == |q|
    ensures forall i | 0 <= i < |q| :: r[i] == (q[i].isMeshDirty && q[i].HasAllNeighbors())
  {
    if q == [] then [] else [q[0].isMeshDirty && q[0].HasAllNeighbors()] + ReadyOf(q[1..])
  }

  /** How many of the first `n` entries are ready. */
  function ReadyCount(ready: seq<bool>, n: nat): (r: nat)
    requires n <= |ready|
    ensures r <= n
  {
    if n == 0 then 0 else ReadyCount(ready, n - 1) + (if ready[n - 1] then 1 else 0)
  }

  /** Entry `i` gets its mesh built: it is ready and fewer than MAX_MESHES_PER_FRAME ready entries precede it. */
  predicate Built(ready: seq<bool>, i: int)
    requires 0 <= i < |ready|
  {
    ready[i] && ReadyCount(ready, i) < MAX_MESHES_PER_FRAME
  }

  /** How many of the first `n` entries get built. */
  function BuiltCount(ready: seq<bool>, n: nat): nat
    requires n <= |ready|
  {
    if n == 0 then 0 else BuiltCount(ready, n - 1) + (if Built(ready, n - 1) then 1 else 0)
  }

  function Min(a: int, b: int): int {
    if a <= b then a else b
  }

  /**
   * The per-frame cap: a frame builds as many meshes as there are ready
   * entries, but never more than MAX_MESHES_PER_FRAME.
   */
  lemma {:induction false} BuiltCountCapped(ready: seq<bool>, n: nat)
    requires n <= |ready|
    ensures BuiltCount(ready, n) == Min(ReadyCount(ready, n), MAX_MESHES_PER_FRAME)
  {
    if n > 0 {
      BuiltCountCapped(ready, n - 1);
    }
  }

  lemma {:induction false} ReadyCountMonotone(ready: seq<bool>, i: nat, j: nat)
    requires i <= j <= |ready|
    ensures ReadyCount(ready, i) <= ReadyCount(ready, j)
    decreases j - i
  {
    if i < j {
      ReadyCountMonotone(ready, i, j - 1);
    }
  }

  /**
   * The queue's order decides: a ready entry ahead of a built one is built
   * too, so with the queue sorted the closest ready chunks go first.
   */
  lemma BuiltInQueueOrder(ready: seq<bool>, i: int, j: int)
    requires 0 <= i < j < |ready| && ready[i] && Built(ready, j)
    ensures Built(ready, i)
  {
    ReadyCountMonotone(ready, i, j);
  }

  /** The mesh-dirty flag of each queue entry. */
  function DirtyFlags(q: seq<Chunk>): (r: seq<bool>)
    reads Members(q)`isMeshDirty
    ensures |r| == |q|
    ensures forall i | 0 <= i < |q| :: r[i] == q[i].isMeshDirty
  {
    if q == [] then [] else [q[0].isMeshDirty] + DirtyFlags(q[1..])
  }

  /** The entries of `q` whose flag in `keep` is set, in queue order. */
  function Selected(q: seq<Chunk>, keep: seq<bool>): seq<Chunk>
    requires |keep| == |q|
  {
    if q == [] then []
    else Selected(q[..|q| - 1], keep[..|q| - 1]) + (if keep[|q| - 1] then [q[|q| - 1]] else [])
  }

  /** CleanUpMeshBuildQueue's result: the entries still mesh-dirty, in queue order. */
  function DirtyOnly(q: seq<Chunk>): seq<Chunk>
    reads Members(q)`isMeshDirty
  {
    Selected(q, DirtyFlags(q))
  }

  /** One step of the erase loop: entry `j` is kept exactly when its flag is set. */
  lemma SelectedStep(q: seq<Chunk>, keep: seq<bool>, j: int)
    requires |keep| == |q| && 0 <= j < |q|
    ensures Selected(q[..j + 1], keep[..j + 1]) == Selected(q[..j], keep[..j]) + (if keep[j] then [q[j]] else [])
  {
    assert q[..j + 1][..j] == q[..j];
    assert keep[..j + 1][..j] == keep[..j];
  }

  /** One step of the erase loop, on the queue split into its kept prefix and unvisited rest. */
  lemma EraseStep(q: seq<Chunk>, kept: seq<Chunk>, rest: seq<Chunk>)
    requires q == kept + rest && rest != []
    ensures q[|kept|] == rest[0]
    ensures q[..|kept|] + q[|kept| + 1..] == kept + rest[1..]
    ensures q == (kept + [rest[0]]) + rest[1..]
  {
    assert q[..|kept|] == kept;
    assert q[|kept| + 1..] == rest[1..];
  }

  /**
   * The erase loop of CleanUpMeshBuildQueue on the queue `q`: an entry that
   * is no longer mesh-dirty is erased and the index stays; otherwise the
   * index moves on. The result is the mesh-dirty entries in queue order.
   */
  method EraseMeshClean(q: seq<Chunk>) returns (queue: seq<Chunk>)
    ensures queue == DirtyOnly(q)
  {
    queue := q;
    ghost var keep := DirtyFlags(q);
    ghost var kept: seq<Chunk> := [];
    ghost var j := 0;
    var meshIndex := 0;
    while meshIndex < |queue|
      invariant 0 <= j <= |q| && |keep| == |q|
      invariant kept == Selected(q[..j], keep[..j])
      invariant queue == kept + q[j..]
      invariant meshIndex == |kept|
      decreases |q| - j
    {
      CleanUpStep(queue, q, keep, kept, j);
      if !queue[meshIndex].isMeshDirty {
        queue := queue[..meshIndex] + queue[meshIndex + 1..];
      } else {
        meshIndex := meshIndex + 1;
        kept := kept + [q[j]];
      }
      j := j + 1;
    }
    assert j == |q| && q[j..] == [];
    assert q[..j] == q && keep[..j] == keep;
    assert DirtyFlags(q) == keep;
  }

  /**
   * One step of CleanUpMeshBuildQueue's erase loop: the queue is the kept
   * prefix followed by the unvisited entries; entry `j` is either erased or
   * joins the kept prefix, as its flag says.
   */
  lemma CleanUpStep(q: seq<Chunk>, q0: seq<Chunk>, keep: seq<bool>, kept: seq<Chunk>, j: int)
    requires |keep| == |q0| && 0 <= j < |q0|
    requires kept == Selected(q0[..j], keep[..j]) && q == kept + q0[j..]
    ensures q[|kept|] == q0[j]
    ensures keep[j] ==> kept + [q0[j]] == Selected(q0[..j + 1], keep[..j + 1]) && q == (kept + [q0[j]]) + q0[j + 1..]
    ensures !keep[j] ==> kept == Selected(q0[..j + 1], keep[..j + 1]) && q[..|kept|] + q[|kept| + 1..] == kept + q0[j + 1..]
  {
    SelectedStep(q0, keep, j);
    EraseStep(q, kept, q0[j..]);
    assert q0[j..][0] == q0[j] && q0[j..][1..] == q0[j + 1..];
  }

  /** Selected keeps exactly the flagged entries, and no more than the queue holds. */
  lemma {:induction false} SelectedKeepsFlagged(q: seq<Chunk>, keep: seq<bool>)
    requires |keep| == |q|
    ensures |Selected(q, keep)| <= |q|
    ensures forall c | c in Selected(q, keep) :: exists i | 0 <= i < |q| :: q[i] == c && keep[i]
    ensures forall i | 0 <= i < |q| && keep[i] :: q[i] in Selected(q, keep)
  {
    if q != [] {
      var n := |q| - 1;
      SelectedKeepsFlagged(q[..n], keep[..n]);
      forall c | c in Selected(q, keep)
        ensures exists i | 0 <= i < |q| :: q[i] == c && keep[i]
      {
        if c in Selected(q[..n], keep[..n]) {
          var i :| 0 <= i < n && q[..n][i] == c && keep[..n][i];
          assert q[i] == c && keep[i];
        } else {
          assert q[n] == c && keep[n];
        }
      }
    }
  }

  /** DirtyOnly keeps exactly the mesh-dirty entries, and no more than the queue holds. */
  lemma DirtyOnlyKeepsDirty(q: seq<Chunk>)
    ensures |DirtyOnly(q)| <= |q|
    ensures forall c | c in DirtyOnly(q) :: c in q && c.isMeshDirty
    ensures forall c | c in q && c.isMeshDirty :: c in DirtyOnly(q)
  {
    SelectedKeepsFlagged(q, DirtyFlags(q));
  }

  /**
   * `ready` is the readiness each entry had before a build that rebuilt
   * `built` and cleared exactly their flags: an entry was ready when it is
   * still mesh-dirty or was rebuilt, and has all four neighbours.
   */
  predicate ReadyBeforeBuild(q: seq<Chunk>, ready: seq<bool>, built: set<Chunk>)
    reads Members(q)`isMeshDirty, Members(q)`northNeighbor, Members(q)`southNeighbor
    reads Members(q)`eastNeighbor, Members(q)`westNeighbor
  {
    |ready| == |q| &&
    forall i | 0 <= i < |q| :: ready[i] == ((q[i].isMeshDirty || q[i] in built) && q[i].HasAllNeighbors())
  }

  /** The chunk's mesh is the one GenerateChunkMesh builds from its surroundings as they are now. */
  predicate MeshIsCurrent(c: Chunk, defs: DefTable, lightingEnabled: bool)
    reads c`mesh, c`northNeighbor, c`southNeighbor, c`eastNeighbor, c`westNeighbor, c.blocks
    reads if c.northNeighbor == null then {} else {c.northNeighbor.blocks}
    reads if c.southNeighbor == null then {} else {c.southNeighbor.blocks}
    reads if c.eastNeighbor == null then {} else {c.eastNeighbor.blocks}
    reads if c.westNeighbor == null then {} else {c.westNeighbor.blocks}
  {
    c.mesh == MeshOf(SurroundingsOf(c), defs, lightingEnabled)
  }

  /**
   * Which chunks the build loop of one frame rebuilt: `ready` is each
   * entry's readiness before the build (ReadyBeforeBuild), and `built` is
   * what Built picks from it in queue order, as many chunks as are ready
   * but at most MAX_MESHES_PER_FRAME.
   */
  predicate FrameBuilt(q: seq<Chunk>, ready: seq<bool>, built: set<Chunk>)
    reads Members(q)`isMeshDirty, Members(q)`northNeighbor, Members(q)`southNeighbor
    reads Members(q)`eastNeighbor, Members(q)`westNeighbor
  {
    ReadyBeforeBuild(q, ready, built)
    && built == BuiltSet(q, ready, |q|)
    && |built| == Min(ReadyCount(ready, |q|), MAX_MESHES_PER_FRAME)
    && built <= Members(q)
  }

  /**
   * The build loop of one frame, summed up: FrameBuilt holds of the
   * readiness on entry, each rebuilt chunk's mesh is the one
   * GenerateChunkMesh builds and exactly the rebuilt chunks lose the
   * mesh-dirty flag; every other entry keeps its mesh.
   */
  method BuildFrame(q: seq<Chunk>, ghost members: set<Chunk>, defs: DefTable, lightingEnabled: bool)
    returns (ghost ready: seq<bool>, ghost built: set<Chunk>)
    requires NoDuplicates(q)
    requires forall c | c in q :: c.Sized() && c in members
    modifies members`mesh, members`isMeshDirty
    ensures ready == old(ReadyOf(q)) && FrameBuilt(q, ready, built)
    ensures forall c | c in built :: MeshIsCurrent(c, defs, lightingEnabled)
    ensures forall c | c in q :: c.isMeshDirty == (old(c.isMeshDirty) && c !in built)
    ensures forall c | c in q && c !in built :: unchanged(c`mesh)
  {
    ready := ReadyOf(q);
    built := BuildQueuedMeshes(q, members, defs, lightingEnabled);
    BuiltSetSize(q, ready, |q|);
    forall i | 0 <= i < |q|
      ensures ready[i] == ((q[i].isMeshDirty || q[i] in built) && q[i].HasAllNeighbors())
    {
      assert q[i].HasAllNeighbors() == old(q[i].HasAllNeighbors());
    }
  }

  /**
   * The build loop of BuildMeshesThisFrame: walks the queue front to back
   * and rebuilds each mesh-dirty chunk whose four neighbours are linked,
   * stopping after MAX_MESHES_PER_FRAME builds. The chunks rebuilt,
   * `built`, are those Built picks from the readiness of the queue on
   * entry (BuiltSetIndex); a rebuilt chunk's flag is cleared and its mesh
   * is the one GenerateChunkMesh builds; every other chunk keeps its mesh
   * and its flag.
   */
  method BuildQueuedMeshes(q: seq<Chunk>, ghost members: set<Chunk>, defs: DefTable, lightingEnabled: bool)
    returns (ghost built: set<Chunk>)
    requires NoDuplicates(q)
    requires forall c | c in q :: c.Sized() && c in members
    modifies members`mesh, members`isMeshDirty
    ensures built == BuiltSet(q, old(ReadyOf(q)), |q|)
    ensures forall c | c in q :: c.isMeshDirty == (old(c.isMeshDirty) && c !in built)
    ensures forall c | c in q && c !in built :: unchanged(c`mesh)
    ensures forall c | c in built :: c in q && old(c.isMeshDirty) && c.HasAllNeighbors()
    ensures forall c | c in built :: MeshIsCurrent(c, defs, lightingEnabled)
  {
    ghost var ready := ReadyOf(q);
    built := {};
    var chunkBuildCount := 0;
    var i := 0;
    while i < |q| && chunkBuildCount < MAX_MESHES_PER_FRAME
      invariant 0 <= i <= |q|
      invariant chunkBuildCount == ReadyCount(ready, i)
      invariant built == BuiltSet(q, ready, i)
      invariant forall c | c in q :: c.isMeshDirty == (old(c.isMeshDirty) && c !in built)
      invariant forall c | c in q && c !in built :: unchanged(c`mesh)
      invariant built <= Members(q)
      invariant forall c | c in built :: MeshIsCurrent(c, defs, lightingEnabled)
      invariant forall c | c in built :: old(c.isMeshDirty) && c.HasAllNeighbors()
      decreases |q| - i
    {
      var chunk := q[i];
      assert chunk.HasAllNeighbors() == old(chunk.HasAllNeighbors());
      chunkBuildCount, built := BuildQueueEntry(q, i, chunk, defs, lightingEnabled, ready, chunkBuildCount, built, old(chunk.isMeshDirty));
      i := i + 1;
    }
    BuiltSetRest(q, ready, i);
  }

  /** The chunks at the first `n` queue positions that Built picks. */
  function BuiltSet(q: seq<Chunk>, ready: seq<bool>, n: nat): set<Chunk>
    requires n <= |q| && n <= |ready|
  {
    if n == 0 then {}
    else BuiltSet(q, ready, n - 1) + (if Built(ready, n - 1) then {q[n - 1]} else {})
  }

  /** In a queue without repeats, an entry is in BuiltSet exactly when Built picks its position. */
  lemma {:induction false} BuiltSetIndex(q: seq<Chunk>, ready: seq<bool>, n: nat)
    requires NoDuplicates(q) && n <= |q| && |ready| == |q|
    ensures forall j | 0 <= j < |q| :: q[j] in BuiltSet(q, ready, n) <==> j < n && Built(ready, j)
  {
    if n > 0 {
      BuiltSetIndex(q, ready, n - 1);
    }
  }

  /**
   * In a queue without repeats the frame rebuilds BuiltCount chunks, so
   * by BuiltCountCapped as many as are ready, at most MAX_MESHES_PER_FRAME.
   */
  lemma {:induction false} BuiltSetSize(q: seq<Chunk>, ready: seq<bool>, n: nat)
    requires NoDuplicates(q) && n <= |q| && |ready| == |q|
    ensures |BuiltSet(q, ready, n)| == BuiltCount(ready, n) == Min(ReadyCount(ready, n), MAX_MESHES_PER_FRAME)
  {
    BuiltCountCapped(ready, n);
    if n > 0 {
      BuiltSetSize(q, ready, n - 1);
      BuiltSetIndex(q, ready, n - 1);
      assert q[n - 1] !in BuiltSet(q, ready, n - 1);
    }
  }

  /** Past a position where the build count has reached the cap, or past the end, no more entries are built. */
  lemma {:induction false} BuiltSetRest(q: seq<Chunk>, ready: seq<bool>, i: nat)
    requires i <= |q| == |ready|
    requires i < |q| ==> ReadyCount(ready, i) >= MAX_MESHES_PER_FRAME
    ensures BuiltSet(q, ready, i) == BuiltSet(q, ready, |q|)
    decreases |q| - i
  {
    if i < |q| {
      BuiltSetRest(q, ready, i + 1);
    }
  }

  /**
   * One pass of the build loop over `chunk`, the entry at queue position
   * `i`: it is rebuilt and its flag cleared when it is mesh-dirty, has all
   * four neighbours and fewer than MAX_MESHES_PER_FRAME meshes were built
   * before it; `built` grows by the chunk exactly then.
   */
  method BuildQueueEntry(q: seq<Chunk>, i: int, chunk: Chunk, defs: DefTable, lightingEnabled: bool, ghost ready: seq<bool>,
                         count: int, ghost built: set<Chunk>, ghost wasDirty: bool)
    returns (count': int, ghost built': set<Chunk>)
    requires NoDuplicates(q) && 0 <= i < |q| == |ready| && chunk == q[i] && chunk.Sized()
    requires count == ReadyCount(ready, i) < MAX_MESHES_PER_FRAME
    requires built == BuiltSet(q, ready, i)
    requires ready[i] == (wasDirty && chunk.HasAllNeighbors())
    requires chunk.isMeshDirty == (wasDirty && chunk !in built)
    requires forall c | c in built :: MeshIsCurrent(c, defs, lightingEnabled)
    modifies chunk`mesh, chunk`isMeshDirty
    ensures count' == ReadyCount(ready, i + 1)
    ensures built' == BuiltSet(q, ready, i + 1)
    ensures built' - {chunk} == built
    ensures chunk.isMeshDirty == (wasDirty && chunk !in built')
    ensures chunk !in built' ==> unchanged(chunk`mesh)
    ensures chunk in built' - built ==> wasDirty && chunk.HasAllNeighbors()
    ensures forall c | c in built' :: MeshIsCurrent(c, defs, lightingEnabled)
  {
    BuiltSetIndex(q, ready, i);
    assert chunk !in built;
    count' := count;
    built' := built;
    if chunk.isMeshDirty && chunk.HasAllNeighbors() {
      RebuildMesh(chunk, defs, lightingEnabled);
      count' := count + 1;
      built' := built + {chunk};
    }
  }

  /** GenerateChunkMesh on a queued chunk, then clearing its mesh-dirty flag. */
  method RebuildMesh(chunk: Chunk, defs: DefTable, lightingEnabled: bool)
    requires chunk.Sized()
    modifies chunk`mesh, chunk`isMeshDirty
    ensures MeshIsCurrent(chunk, defs, lightingEnabled) && !chunk.isMeshDirty
  {
    GenerateChunkMesh(chunk, defs, lightingEnabled);
    chunk.isMeshDirty := false;
  }
}
