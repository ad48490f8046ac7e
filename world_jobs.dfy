/**
 * The three background jobs of the world (Game/World.hpp:25-53,
 * Game/World.cpp:1150-1190) as one tagged value, and the chunk states each
 * stage of a job's life puts its chunk in (Game/World.cpp:299-421).
 */
module WorldJobs {
  import opened GameCommon
  import opened Chunks

  /** A job handed to the job system; it captures only its chunk. */
  datatype ChunkJob =
    | GenerateChunkJob(chunk: Chunk)
    | LoadChunkJob(chunk: Chunk)
    | SaveChunkJob(chunk: Chunk)

  datatype JobKind = GENERATE | LOAD | SAVE

  function KindOf(j: ChunkJob): JobKind {
    match j
    case GenerateChunkJob(_) => GENERATE
    case LoadChunkJob(_) => LOAD
    case SaveChunkJob(_) => SAVE
  }

  /** The state a chunk waits in while it sits in the queue of a kind. */
  function QueuedState(k: JobKind): ChunkState {
    match k
    case GENERATE => ACTIVATING_QUEUED_GENERATE
    case LOAD => ACTIVATING_QUEUED_LOAD
    case SAVE => DEACTIVATING_QUEUED_SAVE
  }

  /** The state dispatch stores when it hands the chunk to a job. */
  function RunningState(k: JobKind): ChunkState {
    match k
    case GENERATE => ACTIVATING_GENERATING
    case LOAD => ACTIVATING_LOADING
    case SAVE => DEACTIVATING_SAVING
  }

  /** The state a job's Execute stores last. */
  function CompleteState(k: JobKind): ChunkState {
    match k
    case GENERATE => ACTIVATING_GENERATE_COMPLETE
    case LOAD => ACTIVATING_LOAD_COMPLETE
    case SAVE => DEACTIVATING_SAVE_COMPLETE
  }

  /** The cap on outstanding jobs of a kind. */
  function Cap(k: JobKind): int {
    match k
    case GENERATE => MAX_GENERATION_JOBS
    case LOAD => MAX_LOAD_JOBS
    case SAVE => MAX_SAVE_JOBS
  }

  /**
   * The nine stage states are pairwise different, so a state names both the
   * kind and the stage; in particular a completion check never mistakes one
   * kind's completion for another's. ACTIVE is none of them.
   */
  lemma StageStatesDistinct(k1: JobKind, k2: JobKind)
    ensures QueuedState(k1) == QueuedState(k2) <==> k1 == k2
    ensures RunningState(k1) == RunningState(k2) <==> k1 == k2
    ensures CompleteState(k1) == CompleteState(k2) <==> k1 == k2
    ensures QueuedState(k1) != RunningState(k2) && RunningState(k1) != CompleteState(k2)
    ensures QueuedState(k1) != CompleteState(k2)
    ensures ACTIVE !in {QueuedState(k1), RunningState(k1), CompleteState(k1)}
  {
  }

  /** The job dispatch creates for a chunk taken off the queue of kind `k`. */
  function MakeJob(k: JobKind, c: Chunk): (j: ChunkJob)
    ensures KindOf(j) == k && j.chunk == c
  {
    match k
    case GENERATE => GenerateChunkJob(c)
    case LOAD => LoadChunkJob(c)
    case SAVE => SaveChunkJob(c)
  }

  /** The jobs dispatch hands over for a run of queued chunks, one per chunk, in queue order. */
  function JobsFor(k: JobKind, cs: seq<Chunk>): (jobs: seq<ChunkJob>)
    ensures |jobs| == |cs|
  {
    if cs == [] then [] else [MakeJob(k, cs[0])] + JobsFor(k, cs[1..])
  }

  /** The chunks of a list of jobs, in order. */
  function JobChunks(jobs: seq<ChunkJob>): (cs: seq<Chunk>)
    ensures |cs| == |jobs|
    ensures forall i | 0 <= i < |jobs| :: cs[i] == jobs[i].chunk
  {
    seq(|jobs|, i requires 0 <= i < |jobs| => jobs[i].chunk)
  }

  /** The chunks the generate and load jobs of a list bring into the world. */
  function ActivationChunks(jobs: seq<ChunkJob>): (s: set<Chunk>)
    ensures forall i | 0 <= i < |jobs| && KindOf(jobs[i]) != SAVE :: jobs[i].chunk in s
    ensures forall c | c in s :: exists i :: 0 <= i < |jobs| && KindOf(jobs[i]) != SAVE && jobs[i].chunk == c
  {
    set i | 0 <= i < |jobs| && KindOf(jobs[i]) != SAVE :: jobs[i].chunk
  }

  /** A job appended to a list adds its chunk when it is a generate or load job, and nothing else. */
  lemma ActivationChunksPush(jobs: seq<ChunkJob>, j: ChunkJob)
    ensures ActivationChunks(jobs + [j]) == ActivationChunks(jobs) + (if KindOf(j) != SAVE then {j.chunk} else {})
  {
    var s := ActivationChunks(jobs + [j]);
    forall c | c in s
      ensures c in ActivationChunks(jobs) + (if KindOf(j) != SAVE then {j.chunk} else {})
    {
      var i :| 0 <= i < |jobs| + 1 && KindOf((jobs + [j])[i]) != SAVE && (jobs + [j])[i].chunk == c;
      if i < |jobs| {
        assert jobs[i] == (jobs + [j])[i];
      }
    }
    forall i | 0 <= i < |jobs| && KindOf(jobs[i]) != SAVE
      ensures jobs[i].chunk in s
    {
      assert (jobs + [j])[i] == jobs[i];
    }
    assert (jobs + [j])[|jobs|] == j;
  }

  /** Dropping the first job of a list leaves a subset of its chunks, without that job's chunk when it occurs once. */
  lemma ActivationChunksTail(jobs: seq<ChunkJob>)
    requires jobs != []
    ensures ActivationChunks(jobs[1..]) <= ActivationChunks(jobs)
    ensures ActivationChunks(jobs) == ActivationChunks(jobs[1..]) + (if KindOf(jobs[0]) != SAVE then {jobs[0].chunk} else {})
  {
    var t := jobs[1..];
    forall c | c in ActivationChunks(t)
      ensures c in ActivationChunks(jobs)
    {
      var i :| 0 <= i < |t| && KindOf(t[i]) != SAVE && t[i].chunk == c;
      assert t[i] == jobs[i + 1];
    }
    forall c | c in ActivationChunks(jobs)
      ensures c in ActivationChunks(t) + (if KindOf(jobs[0]) != SAVE then {jobs[0].chunk} else {})
    {
      var i :| 0 <= i < |jobs| && KindOf(jobs[i]) != SAVE && jobs[i].chunk == c;
      if i > 0 {
        assert jobs[i] == t[i - 1];
      }
    }
  }

  /** The chunks of a list without its first job: the first chunk's removal from the front. */
  lemma JobChunksTail(jobs: seq<ChunkJob>)
    requires jobs != []
    ensures JobChunks(jobs[1..]) == JobChunks(jobs)[1..]
  {
  }

  /** The chunks of a list with one more job at its end. */
  lemma JobChunksPush(jobs: seq<ChunkJob>, j: ChunkJob)
    ensures JobChunks(jobs + [j]) == JobChunks(jobs) + [j.chunk]
  {
  }

  /** How many jobs of kind `k` a list holds. */
  function CountKind(jobs: seq<ChunkJob>, k: JobKind): (n: nat)
    ensures n <= |jobs|
  {
    if jobs == [] then 0
    else CountKind(jobs[..|jobs| - 1], k) + (if KindOf(jobs[|jobs| - 1]) == k then 1 else 0)
  }

  /** Each outstanding counter equals the number of its kind's jobs in `jobs`, within the kind's cap. */
  predicate CountsMatch(jobs: seq<ChunkJob>, generate: int, load: int, save: int) {
    && generate == CountKind(jobs, GENERATE) <= MAX_GENERATION_JOBS
    && load == CountKind(jobs, LOAD) <= MAX_LOAD_JOBS
    && save == CountKind(jobs, SAVE) <= MAX_SAVE_JOBS
  }

  /** Counting splits over concatenation. */
  lemma {:induction false} CountKindAppend(a: seq<ChunkJob>, b: seq<ChunkJob>, k: JobKind)
    ensures CountKind(a + b, k) == CountKind(a, k) + CountKind(b, k)
    decreases |b|
  {
    if b == [] {
      assert a + b == a;
    } else {
      var b' := b[..|b| - 1];
      assert (a + b)[..|a + b| - 1] == a + b';
      CountKindAppend(a, b', k);
    }
  }

  /** Dropping the first job lowers exactly its kind's count by one. */
  lemma CountKindTail(jobs: seq<ChunkJob>, k: JobKind)
    requires |jobs| > 0
    ensures CountKind(jobs, k) == CountKind(jobs[1..], k) + (if KindOf(jobs[0]) == k then 1 else 0)
  {
    assert jobs == [jobs[0]] + jobs[1..];
    CountKindAppend([jobs[0]], jobs[1..], k);
    assert [jobs[0]][..0] == [];
  }

  /** Dropping the job at `i` lowers exactly its kind's count by one. */
  lemma CountKindRemove(jobs: seq<ChunkJob>, i: int, k: JobKind)
    requires 0 <= i < |jobs|
    ensures CountKind(jobs, k) == CountKind(jobs[..i] + jobs[i + 1..], k) + (if KindOf(jobs[i]) == k then 1 else 0)
  {
    assert jobs == jobs[..i] + ([jobs[i]] + jobs[i + 1..]);
    CountKindAppend(jobs[..i], [jobs[i]] + jobs[i + 1..], k);
    CountKindAppend([jobs[i]], jobs[i + 1..], k);
    CountKindAppend(jobs[..i], jobs[i + 1..], k);
    assert [jobs[i]][..0] == [];
  }

  /** A list of jobs of other kinds leaves the count of `k` at zero. */
  lemma CountKindSingle(j: ChunkJob, k: JobKind)
    ensures CountKind([j], k) == if KindOf(j) == k then 1 else 0
  {
    assert [j][..0] == [];
  }

  /** Handing over one more job raises exactly its kind's count by one, wherever the other jobs sit. */
  lemma CountKindPush(pending: seq<ChunkJob>, j: ChunkJob, completed: seq<ChunkJob>, k: JobKind)
    ensures CountKind(pending + [j] + completed, k) == CountKind(pending + completed, k) + (if KindOf(j) == k then 1 else 0)
  {
    CountKindAppend(pending + [j], completed, k);
    CountKindAppend(pending, [j], k);
    CountKindSingle(j, k);
    CountKindAppend(pending, completed, k);
  }

  /** Moving the oldest pending job to the end of the completed list keeps every count. */
  lemma CountKindRotate(pending: seq<ChunkJob>, completed: seq<ChunkJob>, k: JobKind)
    requires pending != []
    ensures CountKind(pending[1..] + (completed + [pending[0]]), k) == CountKind(pending + completed, k)
  {
    CountKindTail(pending, k);
    CountKindAppend(pending, completed, k);
    CountKindAppend(pending[1..], completed + [pending[0]], k);
    CountKindAppend(completed, [pending[0]], k);
    CountKindSingle(pending[0], k);
  }

  /** Handing over a job below its kind's cap raises exactly that kind's counter by one and keeps the counts matched. */
  lemma CountsMatchPush(pending: seq<ChunkJob>, j: ChunkJob, completed: seq<ChunkJob>, generate: int, load: int, save: int)
    requires CountsMatch(pending + completed, generate, load, save)
    requires var k := KindOf(j);
      (k == GENERATE ==> generate < MAX_GENERATION_JOBS) && (k == LOAD ==> load < MAX_LOAD_JOBS) && (k == SAVE ==> save < MAX_SAVE_JOBS)
    ensures var k := KindOf(j);
      CountsMatch(pending + [j] + completed,
        generate + (if k == GENERATE then 1 else 0),
        load + (if k == LOAD then 1 else 0),
        save + (if k == SAVE then 1 else 0))
  {
    CountKindPush(pending, j, completed, GENERATE);
    CountKindPush(pending, j, completed, LOAD);
    CountKindPush(pending, j, completed, SAVE);
  }

  /** Retiring the oldest completed job lowers exactly its kind's counter by one and keeps the counts matched. */
  lemma CountsMatchDrop(pending: seq<ChunkJob>, completed: seq<ChunkJob>, generate: int, load: int, save: int)
    requires completed != [] && CountsMatch(pending + completed, generate, load, save)
    ensures var k := KindOf(completed[0]);
      CountsMatch(pending + completed[1..],
        generate - (if k == GENERATE then 1 else 0),
        load - (if k == LOAD then 1 else 0),
        save - (if k == SAVE then 1 else 0))
  {
    CountKindDrop(pending, completed, GENERATE);
    CountKindDrop(pending, completed, LOAD);
    CountKindDrop(pending, completed, SAVE);
  }

  lemma CountKindDrop(pending: seq<ChunkJob>, completed: seq<ChunkJob>, k: JobKind)
    requires completed != []
    ensures CountKind(pending + completed, k) == CountKind(pending + completed[1..], k) + (if KindOf(completed[0]) == k then 1 else 0)
  {
    CountKindTail(completed, k);
    CountKindAppend(pending, completed, k);
    CountKindAppend(pending, completed[1..], k);
  }

  /** Handing over a run of chunks as jobs of kind `k` counts one job of kind `k` per chunk and none of any other. */
  lemma {:induction false} CountJobsFor(k: JobKind, cs: seq<Chunk>, k2: JobKind)
    ensures CountKind(JobsFor(k, cs), k2) == if k2 == k then |cs| else 0
    decreases |cs|
  {
    if cs != [] {
      CountJobsFor(k, cs[1..], k2);
      CountKindAppend([MakeJob(k, cs[0])], JobsFor(k, cs[1..]), k2);
      CountKindSingle(MakeJob(k, cs[0]), k2);
    }
  }

  /** What a dispatch loop works on: the chunks still queued, the job system's pending jobs and the kind's counter. */
  datatype Dispatch = Dispatch(queue: seq<Chunk>, pending: seq<ChunkJob>, outstanding: int)

  /**
   * A dispatch loop of kind `k` run from `d` to its end: while the queue is
   * not empty and the counter is below the kind's cap, the front chunk is
   * taken off and handed over as a job, and the counter goes up by one.
   */
  function Dispatched(k: JobKind, d: Dispatch): Dispatch
    decreases |d.queue|
  {
    if d.queue != [] && d.outstanding < Cap(k) then
      Dispatched(k, Dispatch(d.queue[1..], d.pending + [MakeJob(k, d.queue[0])], d.outstanding + 1))
    else d
  }

  /** One round of a dispatch loop: the front chunk goes first while the queue is not empty and the counter is below the cap. */
  lemma DispatchedUnfold(k: JobKind, d: Dispatch)
    ensures Dispatched(k, d) ==
      if d.queue != [] && d.outstanding < Cap(k)
      then Dispatched(k, Dispatch(d.queue[1..], d.pending + [MakeJob(k, d.queue[0])], d.outstanding + 1))
      else d
  {
  }

  /** A job list for a run of chunks starts with the job for the run's first chunk. */
  lemma JobsForCons(k: JobKind, c: Chunk, cs: seq<Chunk>)
    ensures JobsFor(k, [c] + cs) == [MakeJob(k, c)] + JobsFor(k, cs)
  {
    assert ([c] + cs)[1..] == cs;
  }

  /**
   * A dispatch takes some number `n` of chunks off the front of the queue
   * and raises the counter by `n`.
   */
  lemma {:induction false} DispatchedTakesFront(k: JobKind, d: Dispatch)
    ensures var r := Dispatched(k, d);
      var n := |d.queue| - |r.queue|;
      && 0 <= n <= |d.queue|
      && r.queue == d.queue[n..]
      && r.outstanding == d.outstanding + n
    decreases |d.queue|
  {
    if d.queue != [] && d.outstanding < Cap(k) {
      var next := Dispatch(d.queue[1..], d.pending + [MakeJob(k, d.queue[0])], d.outstanding + 1);
      DispatchedTakesFront(k, next);
      var n := |d.queue| - |Dispatched(k, next).queue|;
      assert d.queue[1..][n - 1..] == d.queue[n..];
    }
  }

  /** Handing over the front chunk and then `n - 1` more hands over the first `n`. */
  lemma HandOverStep(k: JobKind, q: seq<Chunk>, before: seq<ChunkJob>, after: seq<ChunkJob>, n: int)
    requires 1 <= n <= |q|
    requires after == (before + [MakeJob(k, q[0])]) + JobsFor(k, q[1..][..n - 1])
    ensures after == before + JobsFor(k, q[..n])
  {
    var taken := q[1..][..n - 1];
    assert q[..n] == [q[0]] + taken;
    JobsForCons(k, q[0], taken);
  }

  /** The jobs a dispatch appends are one of its kind per chunk taken, in queue order. */
  lemma {:induction false} DispatchedHandsOver(k: JobKind, d: Dispatch)
    ensures var r := Dispatched(k, d);
      var n := |d.queue| - |r.queue|;
      0 <= n <= |d.queue| && r.pending == d.pending + JobsFor(k, d.queue[..n])
    decreases |d.queue|
  {
    if d.queue != [] && d.outstanding < Cap(k) {
      var next := Dispatch(d.queue[1..], d.pending + [MakeJob(k, d.queue[0])], d.outstanding + 1);
      DispatchedHandsOver(k, next);
      var r := Dispatched(k, next);
      HandOverStep(k, d.queue, d.pending, r.pending, |d.queue| - |r.queue|);
    } else {
      assert JobsFor(k, d.queue[..0]) == [];
    }
  }

  /** A dispatch stops only with the queue empty or the counter at the cap, and never passes the cap. */
  lemma {:induction false} DispatchedStops(k: JobKind, d: Dispatch)
    requires d.outstanding <= Cap(k)
    ensures var r := Dispatched(k, d);
      r.outstanding <= Cap(k) && (r.queue == [] || r.outstanding == Cap(k))
    decreases |d.queue|
  {
    if d.queue != [] && d.outstanding < Cap(k) {
      DispatchedStops(k, Dispatch(d.queue[1..], d.pending + [MakeJob(k, d.queue[0])], d.outstanding + 1));
    }
  }

  /**
   * A dispatch raises its kind's count of jobs by exactly what it adds to
   * the counter, and leaves every other kind's count alone.
   */
  lemma DispatchedCounts(k: JobKind, d: Dispatch, completed: seq<ChunkJob>, k2: JobKind)
    ensures var r := Dispatched(k, d);
      CountKind(r.pending + completed, k2) == CountKind(d.pending + completed, k2) + (if k2 == k then r.outstanding - d.outstanding else 0)
  {
    DispatchedTakesFront(k, d);
    DispatchedHandsOver(k, d);
    var r := Dispatched(k, d);
    var n := |d.queue| - |r.queue|;
    var handed := JobsFor(k, d.queue[..n]);
    assert r.pending + completed == d.pending + (handed + completed);
    CountKindAppend(d.pending, handed + completed, k2);
    CountKindAppend(handed, completed, k2);
    CountJobsFor(k, d.queue[..n], k2);
    CountKindAppend(d.pending, completed, k2);
  }
}
