/**
 * The chunk states the streaming code keeps in step with the world's queues
 * and job lists (Game/World.cpp:299-421): which state a chunk is in while
 * it waits in a queue, runs in a job or sits in the active map.
 */
module ChunkStates {
  import opened GameCommon
  import opened Blocks
  import opened Chunks
  import opened WorldLinks
  import opened WorldJobs
  import opened MeshQueue
  import opened Terrain
  import opened WorldLight

  /** Every block of the chunk has a type the definition table knows. */
  predicate BlockTypesKnown(c: Chunk, defs: DefTable)
    reads c.blocks
  {
    AllTypesKnown(c.blocks[..], defs)
  }

  /** Every chunk of the queue is in state `st`. */
  predicate AllInState(q: seq<Chunk>, st: ChunkState)
    reads q`chunkState
  {
    forall i | 0 <= i < |q| :: q[i].chunkState == st
  }

  predicate AllSized(q: seq<Chunk>) {
    forall i | 0 <= i < |q| :: q[i].Sized()
  }

  predicate AllIn(q: seq<Chunk>, s: set<Chunk>) {
    forall i | 0 <= i < |q| :: q[i] in s
  }

  /** The chunks of a list of jobs. */
  function ChunksOf(jobs: seq<ChunkJob>): set<Chunk> {
    set i | 0 <= i < |jobs| :: jobs[i].chunk
  }

  /** No chunk has two jobs in the list. */
  predicate JobChunksDistinct(jobs: seq<ChunkJob>) {
    forall i, j | 0 <= i < j < |jobs| :: jobs[i].chunk != jobs[j].chunk
  }

  /** A job for a chunk no job of the list has keeps the chunks distinct. */
  lemma JobChunksDistinctPush(jobs: seq<ChunkJob>, j: ChunkJob)
    requires JobChunksDistinct(jobs)
    ensures j.chunk !in ChunksOf(jobs) ==> JobChunksDistinct(jobs + [j])
  {
    if j.chunk !in ChunksOf(jobs) {
      forall a, b | 0 <= a < b < |jobs| + 1
        ensures (jobs + [j])[a].chunk != (jobs + [j])[b].chunk
      {
        assert (jobs + [j])[a] == jobs[a];
        if b == |jobs| {
          assert jobs[a].chunk in ChunksOf(jobs);
        } else {
          assert (jobs + [j])[b] == jobs[b];
        }
      }
    }
  }

  /** Each job's chunk is full size and in its kind's running state. */
  predicate AllRunning(jobs: seq<ChunkJob>)
    reads ChunksOf(jobs)`chunkState
  {
    forall i | 0 <= i < |jobs| :: jobs[i].chunk.Sized() && jobs[i].chunk.chunkState == RunningState(KindOf(jobs[i]))
  }

  /** Each job's chunk is full size and in its kind's complete state. */
  predicate AllComplete(jobs: seq<ChunkJob>)
    reads ChunksOf(jobs)`chunkState
  {
    forall i | 0 <= i < |jobs| :: jobs[i].chunk.Sized() && jobs[i].chunk.chunkState == CompleteState(KindOf(jobs[i]))
  }

  /** The chunk of each generate or load job of the list is in `s`. */
  predicate ActivationsIn(jobs: seq<ChunkJob>, s: set<Chunk>) {
    forall i | 0 <= i < |jobs| && KindOf(jobs[i]) != SAVE :: jobs[i].chunk in s
  }

  /** An active chunk is in the complete state of a generate or a load job. */
  predicate ActiveComplete(m: ChunkMap)
    reads m.Values`chunkState
  {
    forall k | k in m :: m[k].chunkState in {CompleteState(GENERATE), CompleteState(LOAD)}
  }

  /** Each chunk of `s` is full size, has no links, has only known block types and owns its array. */
  predicate Ready(s: set<Chunk>, defs: DefTable, owners: map<array<Block>, Chunk>)
    reads s`northNeighbor, s`southNeighbor, s`eastNeighbor, s`westNeighbor, ArraysOf(s)
  {
    forall c | c in s :: c.Sized() && c.Unlinked() && BlockTypesKnown(c, defs) && c.blocks in owners && owners[c.blocks] == c
  }

  /** Each active chunk owns its array and is not in `s`. */
  predicate ActiveOwned(m: ChunkMap, s: set<Chunk>, owners: map<array<Block>, Chunk>) {
    && m.Values !! s
    && forall k | k in m :: m[k].blocks in owners && owners[m[k].blocks] == m[k]
  }

  /** The block arrays of a set of chunks. */
  function ArraysOf(s: set<Chunk>): set<array<Block>> {
    set c | c in s :: c.blocks
  }

  /** The arrays of a map's chunks are the arrays of its values. */
  lemma ArraysOfValues(m: ChunkMap)
    ensures Arrays(m) == ArraysOf(m.Values)
  {
    forall a | a in ArraysOf(m.Values)
      ensures a in Arrays(m)
    {
      var c :| c in m.Values && c.blocks == a;
      var k :| k in m && m[k] == c;
    }
  }

  /**
   * Arriving chunks and active chunks own their arrays, and no chunk is
   * both, so lighting the active chunks leaves every arriving chunk's
   * blocks alone.
   */
  lemma ArrivingArraysApart(active: ChunkMap, arriving: set<Chunk>, owners: map<array<Block>, Chunk>, defs: DefTable)
    requires Ready(arriving, defs, owners) && ActiveOwned(active, arriving, owners)
    ensures ArraysOf(arriving) !! Arrays(active)
  {
    forall c, k | c in arriving && k in active
      ensures c.blocks != active[k].blocks
    {
      assert active[k] in active.Values;
      assert owners[c.blocks] == c != active[k] == owners[active[k].blocks];
    }
  }

  /**
   * A chunk in the queued state of kind `k` is in no other kind's queue, in
   * no job list and not in the active map, since each of those holds its
   * chunks in a different state.
   */
  lemma QueuedNowhereElse(k: JobKind, c: Chunk, gq: seq<Chunk>, lq: seq<Chunk>, sq: seq<Chunk>,
                          pending: seq<ChunkJob>, completed: seq<ChunkJob>, active: ChunkMap)
    requires c.chunkState == QueuedState(k)
    requires AllInState(gq, QueuedState(GENERATE)) && AllInState(lq, QueuedState(LOAD)) && AllInState(sq, QueuedState(SAVE))
    requires AllRunning(pending) && AllComplete(completed) && ActiveComplete(active)
    ensures (k != GENERATE ==> c !in gq) && (k != LOAD ==> c !in lq) && (k != SAVE ==> c !in sq)
    ensures c !in ChunksOf(pending) && c !in ChunksOf(completed) && c !in active.Values
  {
    forall k2: JobKind {
      StageStatesDistinct(k, k2);
    }
  }

  /** The queue of kind `k2` once the front chunk of the queue of kind `k` has left it. */
  function Dequeued(k: JobKind, k2: JobKind, q: seq<Chunk>): seq<Chunk> {
    if k == k2 && q != [] then q[1..] else q
  }

  /**
   * Taking the front chunk off the queue of kind `k` keeps the invariant for
   * the queues that remain, and the chunk is in no queue, job list or
   * active slot any more: it can change state without the invariant
   * noticing. A generate or load chunk stays among the arriving chunks.
   */
  lemma QueueFrontOut(k: JobKind, defs: DefTable, active: ChunkMap, gq: seq<Chunk>, lq: seq<Chunk>, sq: seq<Chunk>,
                      pending: seq<ChunkJob>, completed: seq<ChunkJob>, arriving: set<Chunk>,
                      owners: map<array<Block>, Chunk>, c: Chunk)
    requires StreamingInvariant(defs, active, gq, lq, sq, pending, completed, arriving, owners)
    requires (k == GENERATE ==> gq != [] && c == gq[0]) && (k == LOAD ==> lq != [] && c == lq[0])
    requires k == SAVE ==> sq != [] && c == sq[0]
    ensures StreamingInvariant(defs, active, Dequeued(k, GENERATE, gq), Dequeued(k, LOAD, lq), Dequeued(k, SAVE, sq),
      pending, completed, arriving, owners)
    ensures c !in Dequeued(k, GENERATE, gq) && c !in Dequeued(k, LOAD, lq) && c !in Dequeued(k, SAVE, sq)
    ensures c !in ChunksOf(pending) && c !in ChunksOf(completed) && c !in active.Values
    ensures c.Sized() && (k != SAVE ==> c in arriving)
  {
    QueuedNowhereElse(k, c, gq, lq, sq, pending, completed, active);
    match k {
      case GENERATE => NoDuplicatesTail(gq);
      case LOAD => NoDuplicatesTail(lq);
      case SAVE => NoDuplicatesTail(sq);
    }
  }

  /**
   * The state change of a dispatch: the front chunk of the queue of kind
   * `k` enters that kind's running state, and the invariant holds with the
   * chunk off its queue and its job at the end of the pending jobs.
   */
  method StartRunning(c: Chunk, k: JobKind, ghost defs: DefTable, ghost active: ChunkMap, ghost gq: seq<Chunk>,
                      ghost lq: seq<Chunk>, ghost sq: seq<Chunk>, ghost pending: seq<ChunkJob>,
                      ghost completed: seq<ChunkJob>, ghost arriving: set<Chunk>, ghost owners: map<array<Block>, Chunk>,
                      ghost arrays: set<array<Block>>)
    requires StreamingInvariant(defs, active, gq, lq, sq, pending, completed, arriving, owners)
    requires (k == GENERATE ==> gq != [] && c == gq[0]) && (k == LOAD ==> lq != [] && c == lq[0])
    requires k == SAVE ==> sq != [] && c == sq[0]
    modifies c`chunkState
    ensures c.chunkState == RunningState(k) && unchanged(arrays)
    ensures StreamingInvariant(defs, active, Dequeued(k, GENERATE, gq), Dequeued(k, LOAD, lq), Dequeued(k, SAVE, sq),
      pending + [MakeJob(k, c)], completed, arriving, owners)
  {
    QueueFrontOut(k, defs, active, gq, lq, sq, pending, completed, arriving, owners, c);
    SetRunningState(c, k, defs, active, Dequeued(k, GENERATE, gq), Dequeued(k, LOAD, lq), Dequeued(k, SAVE, sq),
      pending, completed, arriving, owners, arrays);
    JobPushed(k, defs, active, Dequeued(k, GENERATE, gq), Dequeued(k, LOAD, lq), Dequeued(k, SAVE, sq),
      pending, completed, arriving, owners, c);
  }

  /** Puts a chunk that no queue, job list or active slot holds into a running state; the invariant does not read it. */
  method SetRunningState(c: Chunk, k: JobKind, ghost defs: DefTable, ghost active: ChunkMap, ghost gq: seq<Chunk>,
                         ghost lq: seq<Chunk>, ghost sq: seq<Chunk>, ghost pending: seq<ChunkJob>,
                         ghost completed: seq<ChunkJob>, ghost arriving: set<Chunk>,
                         ghost owners: map<array<Block>, Chunk>, ghost arrays: set<array<Block>>)
    requires StreamingInvariant(defs, active, gq, lq, sq, pending, completed, arriving, owners)
    requires c !in gq && c !in lq && c !in sq && c !in ChunksOf(pending) && c !in ChunksOf(completed) && c !in active.Values
    modifies c`chunkState
    ensures c.chunkState == RunningState(k) && unchanged(arrays)
    ensures StreamingInvariant(defs, active, gq, lq, sq, pending, completed, arriving, owners)
  {
    c.chunkState := RunningState(k);
  }

  /**
   * A chunk in no job list, now in the running state of kind `k`, can get a
   * pending job of that kind: the invariant holds with the job at the end
   * of the pending jobs.
   */
  lemma JobPushed(k: JobKind, defs: DefTable, active: ChunkMap, gq: seq<Chunk>, lq: seq<Chunk>, sq: seq<Chunk>,
                  pending: seq<ChunkJob>, completed: seq<ChunkJob>, arriving: set<Chunk>,
                  owners: map<array<Block>, Chunk>, c: Chunk)
    requires StreamingInvariant(defs, active, gq, lq, sq, pending, completed, arriving, owners)
    requires c.chunkState == RunningState(k) && c.Sized() && c !in ChunksOf(pending)
    requires k != SAVE ==> c in arriving
    ensures StreamingInvariant(defs, active, gq, lq, sq, pending + [MakeJob(k, c)], completed, arriving, owners)
  {
    var j := MakeJob(k, c);
    JobChunksDistinctPush(pending, j);
    forall i | 0 <= i < |pending + [j]|
      ensures (pending + [j])[i].chunk.Sized()
      ensures (pending + [j])[i].chunk.chunkState == RunningState(KindOf((pending + [j])[i]))
      ensures KindOf((pending + [j])[i]) != SAVE ==> (pending + [j])[i].chunk in arriving
    {
      if i < |pending| {
        assert (pending + [j])[i] == pending[i];
      }
    }
  }

  /**
   * The streaming invariant over the world's streaming fields: each queue
   * and each job list holds a chunk at most once, in the state of its
   * stage; an active chunk stays in the complete state of the job that
   * brought it in; the chunks waiting for or in a generate or load job are
   * in `arriving`, and each of them can be finalised (full size, no links,
   * known block types, an array of its own).
   */
  ghost predicate StreamingInvariant(defs: DefTable, active: ChunkMap, gq: seq<Chunk>, lq: seq<Chunk>, sq: seq<Chunk>,
                                     pending: seq<ChunkJob>, completed: seq<ChunkJob>, arriving: set<Chunk>,
                                     owners: map<array<Block>, Chunk>)
    reads gq`chunkState, lq`chunkState, sq`chunkState
    reads ChunksOf(pending)`chunkState, ChunksOf(completed)`chunkState, active.Values`chunkState
    reads arriving`northNeighbor, arriving`southNeighbor, arriving`eastNeighbor, arriving`westNeighbor
    reads ArraysOf(arriving)
  {
    && |defs| >= BLOCKTYPE_NUM
    && NoDuplicates(gq) && AllInState(gq, QueuedState(GENERATE))
    && NoDuplicates(lq) && AllInState(lq, QueuedState(LOAD))
    && NoDuplicates(sq) && AllInState(sq, QueuedState(SAVE))
    && AllSized(sq)
    && JobChunksDistinct(pending) && AllRunning(pending)
    && JobChunksDistinct(completed) && AllComplete(completed)
    && ActiveComplete(active)
    && AllIn(gq, arriving) && AllIn(lq, arriving)
    && ActivationsIn(pending, arriving) && ActivationsIn(completed, arriving)
    && Ready(arriving, defs, owners) && ActiveOwned(active, arriving, owners)
  }

  /**
   * A chunk whose activation job has been retrieved: it has left the
   * arriving chunks, is not active, and is ready to join the active chunks.
   */
  ghost predicate Departed(c: Chunk, defs: DefTable, active: ChunkMap, arriving: set<Chunk>,
                           owners: map<array<Block>, Chunk>)
    reads c`northNeighbor, c`southNeighbor, c`eastNeighbor, c`westNeighbor, c.blocks
  {
    && c !in arriving && c !in active.Values && c.Sized() && c.Unlinked() && BlockTypesKnown(c, defs)
    && c.blocks in owners && owners[c.blocks] == c
  }

  /**
   * The job at the front of the pending jobs set aside: the invariant holds
   * for the rest (and without its chunk among the arriving chunks), its
   * chunk is full size and in no other list, and the chunk of a generate or
   * load job is arriving, unlinked and owns its array. None of this reads
   * the chunk's state or its blocks, which running the job changes.
   */
  ghost predicate FrontSetAside(defs: DefTable, active: ChunkMap, gq: seq<Chunk>, lq: seq<Chunk>, sq: seq<Chunk>,
                                pending: seq<ChunkJob>, completed: seq<ChunkJob>, arriving: set<Chunk>,
                                owners: map<array<Block>, Chunk>)
    requires pending != []
    reads gq`chunkState, lq`chunkState, sq`chunkState
    reads ChunksOf(pending[1..])`chunkState, ChunksOf(completed)`chunkState, active.Values`chunkState
    reads arriving`northNeighbor, arriving`southNeighbor, arriving`eastNeighbor, arriving`westNeighbor
    reads ArraysOf(if KindOf(pending[0]) != SAVE then arriving - {pending[0].chunk} else arriving)
  {
    var c := pending[0].chunk;
    var k := KindOf(pending[0]);
    var rest := if k != SAVE then arriving - {c} else arriving;
    && StreamingInvariant(defs, active, gq, lq, sq, pending[1..], completed, rest, owners)
    && c.Sized() && c !in active.Values && c !in ChunksOf(pending[1..]) && c !in ChunksOf(completed)
    && (k != SAVE ==> c in arriving && c.Unlinked() && c.blocks in owners && owners[c.blocks] == c)
  }

  /**
   * The front pending job's chunk is in its kind's running state, in no
   * queue, and apart from everything else the invariant reads.
   */
  lemma FrontPendingApart(defs: DefTable, active: ChunkMap, gq: seq<Chunk>, lq: seq<Chunk>, sq: seq<Chunk>,
                          pending: seq<ChunkJob>, completed: seq<ChunkJob>, arriving: set<Chunk>,
                          owners: map<array<Block>, Chunk>)
    requires StreamingInvariant(defs, active, gq, lq, sq, pending, completed, arriving, owners) && pending != []
    ensures FrontSetAside(defs, active, gq, lq, sq, pending, completed, arriving, owners)
    ensures var c := pending[0].chunk; var k := KindOf(pending[0]);
      var rest := if k != SAVE then arriving - {c} else arriving;
      && c.chunkState == RunningState(k) && c !in gq && c !in lq && c !in sq
      && (k != SAVE ==> BlockTypesKnown(c, defs) && c.blocks !in ArraysOf(rest))
  {
    var c := pending[0].chunk;
    var k := KindOf(pending[0]);
    var rest := if k != SAVE then arriving - {c} else arriving;
    forall k2: JobKind {
      StageStatesDistinct(k, k2);
    }
    assert c !in ChunksOf(pending[1..]) by {
      forall i | 0 <= i < |pending[1..]|
        ensures pending[1..][i].chunk != c
      {
        assert pending[1..][i] == pending[i + 1];
      }
    }
    forall i | 0 <= i < |pending[1..]| && KindOf(pending[1..][i]) != SAVE
      ensures pending[1..][i].chunk in rest
    {
      assert pending[1..][i] == pending[i + 1];
    }
    forall i | 0 <= i < |pending[1..]|
      ensures pending[1..][i].chunk.Sized() && pending[1..][i].chunk.chunkState == RunningState(KindOf(pending[1..][i]))
    {
      assert pending[1..][i] == pending[i + 1];
    }
    forall i, j | 0 <= i < j < |pending[1..]|
      ensures pending[1..][i].chunk != pending[1..][j].chunk
    {
      assert pending[1..][i] == pending[i + 1] && pending[1..][j] == pending[j + 1];
    }
  }

  /**
   * The front pending job's chunk back in place after its job ran to
   * completion: the job now ends the completed jobs.
   */
  lemma FrontJobDone(defs: DefTable, active: ChunkMap, gq: seq<Chunk>, lq: seq<Chunk>, sq: seq<Chunk>,
                     pending: seq<ChunkJob>, completed: seq<ChunkJob>, arriving: set<Chunk>,
                     owners: map<array<Block>, Chunk>)
    requires pending != [] && FrontSetAside(defs, active, gq, lq, sq, pending, completed, arriving, owners)
    requires pending[0].chunk.chunkState == CompleteState(KindOf(pending[0]))
    requires KindOf(pending[0]) != SAVE ==> BlockTypesKnown(pending[0].chunk, defs)
    ensures StreamingInvariant(defs, active, gq, lq, sq, pending[1..], completed + [pending[0]], arriving, owners)
  {
    var j := pending[0];
    JobChunksDistinctPush(completed, j);
    forall i | 0 <= i < |completed + [j]|
      ensures (completed + [j])[i].chunk.Sized()
      ensures (completed + [j])[i].chunk.chunkState == CompleteState(KindOf((completed + [j])[i]))
      ensures KindOf((completed + [j])[i]) != SAVE ==> (completed + [j])[i].chunk in arriving
    {
      if i < |completed| {
        assert (completed + [j])[i] == completed[i];
      }
    }
  }

  /**
   * The front pending job's chunk back in place after its job stopped
   * without completing: the job stays at the front of the pending jobs.
   */
  lemma FrontJobStalled(defs: DefTable, active: ChunkMap, gq: seq<Chunk>, lq: seq<Chunk>, sq: seq<Chunk>,
                        pending: seq<ChunkJob>, completed: seq<ChunkJob>, arriving: set<Chunk>,
                        owners: map<array<Block>, Chunk>)
    requires pending != [] && FrontSetAside(defs, active, gq, lq, sq, pending, completed, arriving, owners)
    requires pending[0].chunk.chunkState == RunningState(KindOf(pending[0]))
    requires KindOf(pending[0]) != SAVE ==> BlockTypesKnown(pending[0].chunk, defs)
    ensures StreamingInvariant(defs, active, gq, lq, sq, pending, completed, arriving, owners)
  {
    assert pending == [pending[0]] + pending[1..];
    forall i | 0 <= i < |pending|
      ensures pending[i].chunk.Sized() && pending[i].chunk.chunkState == RunningState(KindOf(pending[i]))
      ensures KindOf(pending[i]) != SAVE ==> pending[i].chunk in arriving
    {
      if i > 0 {
        assert pending[i] == pending[1..][i - 1];
      }
    }
    forall i, j | 0 <= i < j < |pending|
      ensures pending[i].chunk != pending[j].chunk
    {
      assert pending[j] == pending[1..][j - 1];
      if i > 0 {
        assert pending[i] == pending[1..][i - 1];
      } else {
        assert pending[j].chunk in ChunksOf(pending[1..]);
      }
    }
  }

  /**
   * The oldest completed job retired: the invariant holds for the rest of
   * the completed jobs, and the chunk of a generate or load job leaves the
   * arriving chunks, ready to join the active ones.
   */
  lemma RetireFront(defs: DefTable, active: ChunkMap, gq: seq<Chunk>, lq: seq<Chunk>, sq: seq<Chunk>,
                    pending: seq<ChunkJob>, completed: seq<ChunkJob>, arriving: set<Chunk>,
                    owners: map<array<Block>, Chunk>)
    requires StreamingInvariant(defs, active, gq, lq, sq, pending, completed, arriving, owners) && completed != []
    ensures StreamingInvariant(defs, active, gq, lq, sq, pending, completed[1..], arriving - {completed[0].chunk}, owners)
    ensures completed[0].chunk.chunkState == CompleteState(KindOf(completed[0]))
    ensures KindOf(completed[0]) != SAVE ==>
      Departed(completed[0].chunk, defs, active, arriving - {completed[0].chunk}, owners)
  {
    var c := completed[0].chunk;
    var k := KindOf(completed[0]);
    var rest := arriving - {c};
    forall k2: JobKind {
      StageStatesDistinct(k, k2);
    }
    assert c !in ChunksOf(pending);
    forall i | 0 <= i < |completed[1..]|
      ensures completed[1..][i].chunk != c
      ensures completed[1..][i].chunk.Sized()
      ensures completed[1..][i].chunk.chunkState == CompleteState(KindOf(completed[1..][i]))
    {
      assert completed[1..][i] == completed[i + 1];
    }
    forall i | 0 <= i < |completed[1..]| && KindOf(completed[1..][i]) != SAVE
      ensures completed[1..][i].chunk in rest
    {
      assert completed[1..][i] == completed[i + 1];
    }
    forall i, j | 0 <= i < j < |completed[1..]|
      ensures completed[1..][i].chunk != completed[1..][j].chunk
    {
      assert completed[1..][i] == completed[i + 1] && completed[1..][j] == completed[j + 1];
    }
  }

  /**
   * A departed chunk in a complete state joining the active chunks at its
   * own coordinates keeps the invariant; its array and its links are apart
   * from those of every arriving chunk and its array from those of the
   * active chunks, so setting it up touches no arriving chunk.
   */
  lemma JoinActive(defs: DefTable, active: ChunkMap, gq: seq<Chunk>, lq: seq<Chunk>, sq: seq<Chunk>,
                   pending: seq<ChunkJob>, completed: seq<ChunkJob>, arriving: set<Chunk>,
                   owners: map<array<Block>, Chunk>, c: Chunk)
    requires StreamingInvariant(defs, active, gq, lq, sq, pending, completed, arriving, owners)
    requires Departed(c, defs, active, arriving, owners)
    requires c.chunkState in {CompleteState(GENERATE), CompleteState(LOAD)}
    ensures forall k | k in active :: active[k].blocks != c.blocks
    ensures forall a | a in arriving :: a != c && a !in active.Values
    ensures forall o | o in ArraysOf(arriving) :: o != c.blocks && o !in Arrays(active)
    ensures c.chunkCoords !in active ==>
      StreamingInvariant(defs, active[c.chunkCoords := c], gq, lq, sq, pending, completed, arriving, owners)
  {
    forall o | o in ArraysOf(arriving)
      ensures o != c.blocks && o !in Arrays(active)
    {
      var a :| a in arriving && a.blocks == o;
    }
    if c.chunkCoords !in active {
      var m := active[c.chunkCoords := c];
      assert m.Values <= active.Values + {c};
      forall k | k in m
        ensures m[k].chunkState in {CompleteState(GENERATE), CompleteState(LOAD)}
        ensures m[k].blocks in owners && owners[m[k].blocks] == m[k]
      {
        if k != c.chunkCoords {
          assert m[k] == active[k];
        }
      }
    }
  }
}
