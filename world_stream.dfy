/**
 * The scan QueueClosestMissingChunk makes over the chunk positions around
 * the camera (Game/World.cpp:166-207), as a function of the positions that
 * are active, and the split of the created chunks between the load and the
 * generate queues (Game/World.cpp:391-410).
 */
module StreamScan {
  import opened GameCommon
  import opened Chunks
  import opened MeshQueue
  import opened WorldJobs

  /** FLT_MAX, the starting value of the closest distance so far. */
  const FLT_MAX: real := 340282346638528859811704183484516925440.0

  /** The number of chunks one scan may create. */
  const SCAN_BUDGET: nat := 25

  /** A position in the square of chunk offsets the scan walks around the camera's chunk `k`. */
  predicate InBox(k: IntVec2, p: IntVec2) {
    && -CHUNK_ACTIVATION_RADIUS_X <= p.x - k.x <= CHUNK_ACTIVATION_RADIUS_X
    && -CHUNK_ACTIVATION_RADIUS_Y <= p.y - k.y <= CHUNK_ACTIVATION_RADIUS_Y
  }

  /** `p` comes no earlier than offset (x, y) in the scan: x-major, then y, both increasing. */
  predicate AtOrAfter(k: IntVec2, p: IntVec2, x: int, y: int) {
    p.x - k.x > x || (p.x - k.x == x && p.y - k.y >= y)
  }

  /**
   * A position the scan may create a chunk for, had it the budget and no
   * closer pick before it: in the square, missing, and within the
   * activation range by the distance `dist` the scan measures.
   */
  predicate Candidate(k: IntVec2, p: IntVec2, active: set<IntVec2>, dist: IntVec2 -> real) {
    InBox(k, p) && p !in active && dist(p) <= ACTIVATION_RANGE_SQ
  }

  /** The distance the scan measures: GetDistanceSquared2D from the camera to a chunk's centre. */
  function DistFrom(cam: Vec2): IntVec2 -> real {
    p => ChunkDistSq(p, cam)
  }

  /**
   * `dist` is the camera's distance function. The trigger makes the fact
   * available only where a distance is computed, which keeps the squares
   * out of the proofs that only pass the scan along.
   */
  ghost predicate DistIs(dist: IntVec2 -> real, cam: Vec2) {
    forall p {:trigger ChunkDistSq(p, cam)} :: dist(p) == ChunkDistSq(p, cam)
  }

  lemma DistFromIs(cam: Vec2)
    ensures DistIs(DistFrom(cam), cam)
  {
  }

  /**
   * The positions the scan creates chunks for, from offset (x, y) on, given
   * the closest distance so far and the budget left: a missing position is
   * taken when it is within the activation range and strictly closer than
   * the last one taken. A row ends at y past the radius. The active
   * positions do not change while the scan runs.
   */
  function PicksFrom(k: IntVec2, x: int, y: int, active: set<IntVec2>, dist: IntVec2 -> real, closest: real, budget: nat): (r: seq<IntVec2>)
    requires -CHUNK_ACTIVATION_RADIUS_X <= x <= CHUNK_ACTIVATION_RADIUS_X + 1
    requires -CHUNK_ACTIVATION_RADIUS_Y <= y <= CHUNK_ACTIVATION_RADIUS_Y + 1
    ensures |r| <= budget
    ensures forall i | 0 <= i < |r| ::
      Candidate(k, r[i], active, dist) && AtOrAfter(k, r[i], x, y) && dist(r[i]) < closest
    ensures forall i, j | 0 <= i < j < |r| :: dist(r[j]) < dist(r[i])
    decreases CHUNK_ACTIVATION_RADIUS_X + 1 - x, CHUNK_ACTIVATION_RADIUS_Y + 1 - y
  {
    if x > CHUNK_ACTIVATION_RADIUS_X then []
    else if y > CHUNK_ACTIVATION_RADIUS_Y then PicksFrom(k, x + 1, -CHUNK_ACTIVATION_RADIUS_Y, active, dist, closest, budget)
    else if budget == 0 then []
    else
      var p := IntVec2(k.x + x, k.y + y);
      var d := dist(p);
      if p !in active && d <= ACTIVATION_RANGE_SQ && d < closest then
        [p] + PicksFrom(k, x, y + 1, active, dist, d, budget - 1)
      else
        PicksFrom(k, x, y + 1, active, dist, closest, budget)
  }

  /** What is left of the scan from offset (x, y) on, as a function value; the loops carry it. */
  type ScanRest = (int, int, real, nat) -> seq<IntVec2>

  function RestFrom(k: IntVec2, active: set<IntVec2>, dist: IntVec2 -> real): ScanRest {
    (x: int, y: int, closest: real, budget: nat) =>
      if -CHUNK_ACTIVATION_RADIUS_X <= x <= CHUNK_ACTIVATION_RADIUS_X + 1 && -CHUNK_ACTIVATION_RADIUS_Y <= y <= CHUNK_ACTIVATION_RADIUS_Y + 1
      then PicksFrom(k, x, y, active, dist, closest, budget)
      else []
  }

  /**
   * `rest` is the scan's remainder. The trigger makes the fact available
   * only where a step of the scan is unfolded, which keeps the loops that
   * only pass the remainder along from unfolding it.
   */
  ghost predicate RestIs(rest: ScanRest, k: IntVec2, active: set<IntVec2>, dist: IntVec2 -> real) {
    forall x: int, y: int, closest: real, budget: nat {:trigger PicksFrom(k, x, y, active, dist, closest, budget)} ::
      -CHUNK_ACTIVATION_RADIUS_X <= x <= CHUNK_ACTIVATION_RADIUS_X + 1 && -CHUNK_ACTIVATION_RADIUS_Y <= y <= CHUNK_ACTIVATION_RADIUS_Y + 1 ==>
        rest(x, y, closest, budget) == PicksFrom(k, x, y, active, dist, closest, budget)
  }

  lemma RestFromIs(k: IntVec2, active: set<IntVec2>, dist: IntVec2 -> real)
    ensures RestIs(RestFrom(k, active, dist), k, active, dist)
  {
  }

  /** The whole scan around the camera's chunk. */
  function Picks(active: set<IntVec2>, cam: Vec2): seq<IntVec2> {
    PicksFrom(CameraChunkCoords(cam), -CHUNK_ACTIVATION_RADIUS_X, -CHUNK_ACTIVATION_RADIUS_Y, active, DistFrom(cam), FLT_MAX, SCAN_BUDGET)
  }

  /** One position of the scan, unfolded. */
  lemma PickStep(k: IntVec2, x: int, y: int, active: set<IntVec2>, dist: IntVec2 -> real, closest: real, budget: nat)
    requires -CHUNK_ACTIVATION_RADIUS_X <= x <= CHUNK_ACTIVATION_RADIUS_X
    requires -CHUNK_ACTIVATION_RADIUS_Y <= y <= CHUNK_ACTIVATION_RADIUS_Y
    requires budget > 0
    ensures var p := IntVec2(k.x + x, k.y + y);
      var d := dist(p);
      && (p !in active && d <= ACTIVATION_RANGE_SQ && d < closest ==>
            PicksFrom(k, x, y, active, dist, closest, budget) == [p] + PicksFrom(k, x, y + 1, active, dist, d, budget - 1))
      && (!(p !in active && d <= ACTIVATION_RANGE_SQ && d < closest) ==>
            PicksFrom(k, x, y, active, dist, closest, budget) == PicksFrom(k, x, y + 1, active, dist, closest, budget))
  {
  }

  /** With no budget left, nothing remains of the scan. */
  lemma ScanSpent(k: IntVec2, x: int, y: int, rest: ScanRest, active: set<IntVec2>, dist: IntVec2 -> real, closest: real)
    requires -CHUNK_ACTIVATION_RADIUS_X <= x <= CHUNK_ACTIVATION_RADIUS_X
    requires -CHUNK_ACTIVATION_RADIUS_Y <= y <= CHUNK_ACTIVATION_RADIUS_Y + 1
    requires RestIs(rest, k, active, dist)
    ensures rest(x, y, closest, 0) == []
  {
    assert PicksFrom(k, x, y, active, dist, closest, 0) == [];
  }

  /** Past the last row, nothing remains of the scan. */
  lemma ScanEnd(k: IntVec2, rest: ScanRest, active: set<IntVec2>, dist: IntVec2 -> real, closest: real, budget: nat)
    requires RestIs(rest, k, active, dist)
    ensures rest(CHUNK_ACTIVATION_RADIUS_X + 1, -CHUNK_ACTIVATION_RADIUS_Y, closest, budget) == []
  {
    assert PicksFrom(k, CHUNK_ACTIVATION_RADIUS_X + 1, -CHUNK_ACTIVATION_RADIUS_Y, active, dist, closest, budget) == [];
  }

  /** The end of a row goes on with the next row. */
  lemma RowDone(k: IntVec2, x: int, rest: ScanRest, active: set<IntVec2>, dist: IntVec2 -> real, closest: real, budget: nat)
    requires -CHUNK_ACTIVATION_RADIUS_X <= x <= CHUNK_ACTIVATION_RADIUS_X
    requires RestIs(rest, k, active, dist)
    ensures rest(x, CHUNK_ACTIVATION_RADIUS_Y + 1, closest, budget) == rest(x + 1, -CHUNK_ACTIVATION_RADIUS_Y, closest, budget)
  {
    assert PicksFrom(k, x, CHUNK_ACTIVATION_RADIUS_Y + 1, active, dist, closest, budget)
        == PicksFrom(k, x + 1, -CHUNK_ACTIVATION_RADIUS_Y, active, dist, closest, budget);
  }

  /** Past offset (x, y), a position of the square is the one at (x, y) or past (x, y + 1). */
  lemma StepAhead(k: IntVec2, p: IntVec2, x: int, y: int)
    requires AtOrAfter(k, p, x, y)
    ensures p == IntVec2(k.x + x, k.y + y) || AtOrAfter(k, p, x, y + 1)
  {
  }

  /** A position of the square past the end of row x lies in row x + 1 or later. */
  lemma RowEnd(k: IntVec2, p: IntVec2, x: int)
    requires InBox(k, p) && AtOrAfter(k, p, x, CHUNK_ACTIVATION_RADIUS_Y + 1)
    ensures AtOrAfter(k, p, x + 1, -CHUNK_ACTIVATION_RADIUS_Y)
  {
  }

  /** With budget left and no pick yet, the scan takes nothing exactly when no candidate lies ahead. */
  lemma {:induction false} NoPickIffNoCandidate(k: IntVec2, x: int, y: int, active: set<IntVec2>, dist: IntVec2 -> real, closest: real, budget: nat)
    requires -CHUNK_ACTIVATION_RADIUS_X <= x <= CHUNK_ACTIVATION_RADIUS_X + 1
    requires -CHUNK_ACTIVATION_RADIUS_Y <= y <= CHUNK_ACTIVATION_RADIUS_Y + 1
    requires budget > 0 && closest > ACTIVATION_RANGE_SQ
    ensures PicksFrom(k, x, y, active, dist, closest, budget) == [] <==>
      forall p | Candidate(k, p, active, dist) :: !AtOrAfter(k, p, x, y)
    decreases CHUNK_ACTIVATION_RADIUS_X + 1 - x, CHUNK_ACTIVATION_RADIUS_Y + 1 - y
  {
    if x > CHUNK_ACTIVATION_RADIUS_X {
    } else if y > CHUNK_ACTIVATION_RADIUS_Y {
      NoPickIffNoCandidate(k, x + 1, -CHUNK_ACTIVATION_RADIUS_Y, active, dist, closest, budget);
      forall p | Candidate(k, p, active, dist) && AtOrAfter(k, p, x, y)
        ensures AtOrAfter(k, p, x + 1, -CHUNK_ACTIVATION_RADIUS_Y)
      {
        RowEnd(k, p, x);
      }
    } else {
      var p0 := IntVec2(k.x + x, k.y + y);
      var d := dist(p0);
      if !(p0 !in active && d <= ACTIVATION_RANGE_SQ && d < closest) {
        NoPickIffNoCandidate(k, x, y + 1, active, dist, closest, budget);
        assert !Candidate(k, p0, active, dist);
        forall p | Candidate(k, p, active, dist) && AtOrAfter(k, p, x, y)
          ensures AtOrAfter(k, p, x, y + 1)
        {
          StepAhead(k, p, x, y);
        }
      } else {
        assert Candidate(k, p0, active, dist) && AtOrAfter(k, p0, x, y);
      }
    }
  }

  /** With budget left and no pick yet, the first position the scan takes is the first candidate ahead. */
  lemma {:induction false} FirstPickIsFirstCandidate(k: IntVec2, x: int, y: int, active: set<IntVec2>, dist: IntVec2 -> real, closest: real, budget: nat)
    requires -CHUNK_ACTIVATION_RADIUS_X <= x <= CHUNK_ACTIVATION_RADIUS_X + 1
    requires -CHUNK_ACTIVATION_RADIUS_Y <= y <= CHUNK_ACTIVATION_RADIUS_Y + 1
    requires closest > ACTIVATION_RANGE_SQ
    ensures var r := PicksFrom(k, x, y, active, dist, closest, budget);
      r != [] ==> forall p | Candidate(k, p, active, dist) && AtOrAfter(k, p, x, y) :: AtOrAfter(k, p, r[0].x - k.x, r[0].y - k.y)
    decreases CHUNK_ACTIVATION_RADIUS_X + 1 - x, CHUNK_ACTIVATION_RADIUS_Y + 1 - y
  {
    var r := PicksFrom(k, x, y, active, dist, closest, budget);
    if x > CHUNK_ACTIVATION_RADIUS_X || r == [] {
    } else if y > CHUNK_ACTIVATION_RADIUS_Y {
      FirstPickIsFirstCandidate(k, x + 1, -CHUNK_ACTIVATION_RADIUS_Y, active, dist, closest, budget);
      forall p | Candidate(k, p, active, dist) && AtOrAfter(k, p, x, y)
        ensures AtOrAfter(k, p, x + 1, -CHUNK_ACTIVATION_RADIUS_Y)
      {
        RowEnd(k, p, x);
      }
    } else {
      var p0 := IntVec2(k.x + x, k.y + y);
      var d := dist(p0);
      if !(p0 !in active && d <= ACTIVATION_RANGE_SQ && d < closest) {
        FirstPickIsFirstCandidate(k, x, y + 1, active, dist, closest, budget);
        assert !Candidate(k, p0, active, dist);
        forall p | Candidate(k, p, active, dist) && AtOrAfter(k, p, x, y)
          ensures AtOrAfter(k, p, x, y + 1)
        {
          StepAhead(k, p, x, y);
        }
      } else {
        assert r[0] == p0;
      }
    }
  }

  /** The scan never takes the same position twice. */
  lemma PicksDistinct(active: set<IntVec2>, cam: Vec2)
    ensures var r := Picks(active, cam);
      forall i, j | 0 <= i < j < |r| :: r[i] != r[j]
  {
  }

  // ---------------------------------------------------------------------
  // Where ActivateChunk queues new chunks

  /** The coordinates of a run of chunks, in order. */
  function CoordsOf(cs: seq<Chunk>): (r: seq<IntVec2>)
    ensures |r| == |cs|
  {
    if cs == [] then [] else CoordsOf(cs[..|cs| - 1]) + [cs[|cs| - 1].chunkCoords]
  }

  /** Recording one more created chunk moves its position from the scan's remainder to the record. */
  lemma RecordPick(made: seq<Chunk>, c: Chunk, tail: seq<IntVec2>, rest: seq<IntVec2>, total: seq<IntVec2>)
    requires CoordsOf(made) + tail == total && tail == [c.chunkCoords] + rest
    ensures CoordsOf(made + [c]) + rest == total
  {
    assert (made + [c])[..|made|] == made;
  }

  /** The chunks of `cs`, in order, whose save file exists: those ActivateChunk sends to the load queue. */
  function Loads(cs: seq<Chunk>, files: map<IntVec2, seq<byte>>): (r: seq<Chunk>)
    ensures forall c | c in r :: c in cs && c.chunkCoords in files
  {
    if cs == [] then []
    else
      var last := cs[|cs| - 1];
      Loads(cs[..|cs| - 1], files) + (if last.chunkCoords in files then [last] else [])
  }

  /** The chunks of `cs`, in order, without a save file: those ActivateChunk sends to the generate queue. */
  function Generates(cs: seq<Chunk>, files: map<IntVec2, seq<byte>>): (r: seq<Chunk>)
    ensures forall c | c in r :: c in cs && c.chunkCoords !in files
  {
    if cs == [] then []
    else
      var last := cs[|cs| - 1];
      Generates(cs[..|cs| - 1], files) + (if last.chunkCoords !in files then [last] else [])
  }

  /** The two queues hold their contents at the start of a scan followed by the chunks it created, split by save file. */
  predicate QueuedAfter(made: seq<Chunk>, files: map<IntVec2, seq<byte>>, load0: seq<Chunk>, gen0: seq<Chunk>, load: seq<Chunk>, gen: seq<Chunk>) {
    load == load0 + Loads(made, files) && gen == gen0 + Generates(made, files)
  }

  /** Queuing one more created chunk where its save file decides extends the record by that chunk. */
  lemma QueuedAfterAppend(made: seq<Chunk>, c: Chunk, files: map<IntVec2, seq<byte>>,
                          load0: seq<Chunk>, gen0: seq<Chunk>, load: seq<Chunk>, gen: seq<Chunk>)
    requires QueuedAfter(made, files, load0, gen0, load, gen)
    ensures QueuedAfter(made + [c], files, load0, gen0,
                        load + (if c.chunkCoords in files then [c] else []),
                        gen + (if c.chunkCoords in files then [] else [c]))
  {
    assert (made + [c])[..|made|] == made;
  }

  /** Each created chunk is sized, unlinked and waits in the state of the queue its save file decides. */
  ghost predicate Waiting(made: seq<Chunk>, files: map<IntVec2, seq<byte>>)
    reads made
  {
    forall i | 0 <= i < |made| ::
      && made[i].Sized() && made[i].Unlinked()
      && made[i].chunkState == QueuedState(if made[i].chunkCoords in files then LOAD else GENERATE)
  }

  /** Every chunk goes to exactly one of the two queues, as often as it occurs. */
  lemma {:induction false} LoadsGeneratesSplit(cs: seq<Chunk>, files: map<IntVec2, seq<byte>>)
    ensures multiset(Loads(cs, files)) + multiset(Generates(cs, files)) == multiset(cs)
  {
    if cs != [] {
      var init, last := cs[..|cs| - 1], cs[|cs| - 1];
      LoadsGeneratesSplit(init, files);
      assert cs == init + [last];
      assert multiset(cs) == multiset(init) + multiset{last};
      if last.chunkCoords in files {
        assert multiset(Loads(cs, files)) == multiset(Loads(init, files)) + multiset{last};
        assert Generates(cs, files) == Generates(init, files);
      } else {
        assert Loads(cs, files) == Loads(init, files);
        assert multiset(Generates(cs, files)) == multiset(Generates(init, files)) + multiset{last};
      }
    }
  }
}
