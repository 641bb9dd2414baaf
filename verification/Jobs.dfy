/**
 The Agent's job manager and the Linux executor's reader loops: a bounded number of job
 slots, a status recorded once, bounded output numbered by two interleaved readers, and
 clients that poll it with a cursor. A chunk's encoded size is taken as given.
 */
module Jobs {
  import opened Common

  type JobId = nat

  type PollerId = nat

  datatype Stream = Stdout | Stderr

  datatype Status = Pending | Succeeded | Failed | Cancelled | TimedOut

  datatype Chunk = Chunk(sequence: nat, stream: Stream, size: nat)

  /** Where the job's task is: before, waiting for, inside or past the semaphore. */
  datatype Place = Created | Queued | Inside | Ended

  /**
   `sequence` and `dropped` are the executor's counters; `reading` holds while its readers
   live. `produced` and `entered` are history: every numbered chunk, and whether a slot was got.
   */
  datatype Job = Job(
    status: Status,
    exitCode: Option<int>,
    truncated: bool,
    chunks: seq<Chunk>,
    outputBytes: nat,
    place: Place,
    cancelRequested: bool,
    reading: bool,
    sequence: nat,
    dropped: bool,
    produced: seq<Chunk>,
    entered: bool)

  const NEW_JOB: Job := Job(Pending, None, false, [], 0, Created, false, false, 0, false, [], false)

  /** `on_chunk`, with the number the reader gave the chunk. */
  function Emit(j: Job, stream: Stream, size: nat, maxBytes: nat): Job {
    var chunk := Chunk(j.sequence, stream, size);
    var numbered := j.(sequence := j.sequence + 1, produced := j.produced + [chunk]);
    if j.outputBytes + size > maxBytes then numbered.(truncated := true, dropped := true)
    else numbered.(outputBytes := j.outputBytes + size, chunks := j.chunks + [chunk])
  }

  /** How the code inside the semaphore can end. */
  datatype Ending =
    | Exited(code: Option<int>)
    | TimedOutEnding
    | CancelledEnding
    | Raised(lingering: bool)  // an error in one reader may leave the other one running

  /** The result `_run` records, and the slot it gives back. */
  function Record(j: Job, e: Ending): Job {
    var ended := j.(place := Ended, reading := e.Raised? && e.lingering && j.reading);
    match e
    case Exited(code) =>
      ended.(status := if code == Some(0) then Succeeded else Failed, exitCode := code,
             truncated := j.dropped || j.truncated)
    case TimedOutEnding => ended.(status := TimedOut, exitCode := None)
    case CancelledEnding => ended.(status := Cancelled, exitCode := None)
    case Raised(_) => ended.(status := Failed, exitCode := None)
  }

  /** `output`: the stored chunks numbered above the cursor, in stored order. */
  function Output(chunks: seq<Chunk>, after: int): seq<Chunk> {
    if chunks == [] then []
    else
      var last := |chunks| - 1;
      Output(chunks[..last], after) + if chunks[last].sequence > after then [chunks[last]] else []
  }

  /** A client that polls one job with the last number it received. */
  datatype Poller = Poller(job: JobId, cursor: int, received: seq<Chunk>)

  function Poll(p: Poller, chunks: seq<Chunk>): Poller {
    var news := Output(chunks, p.cursor);
    p.(received := p.received + news, cursor := if news == [] then p.cursor else news[|news| - 1].sequence)
  }

  datatype Manager = Manager(maxBytes: nat, slots: nat, permits: nat,
    jobs: map<JobId, Job>, pollers: map<PollerId, Poller>)

  datatype JobStep =
    | Start(j: JobId)
    | Wait(j: JobId)
    | Enter(j: JobId)
    | Read(j: JobId, stream: Stream, size: nat)
    | Finish(j: JobId, e: Ending)
    | RequestCancel(j: JobId)
    | CancelOutside(j: JobId)   // the cancellation reaches a task that has no slot
    | Watch(p: PollerId, j: JobId)
    | PollOnce(p: PollerId)

  predicate Enabled(m: Manager, t: JobStep) {
    match t
    case Start(j) => j !in m.jobs
    case Wait(j) => j in m.jobs && m.jobs[j].place.Created?
    case Enter(j) => j in m.jobs && (m.jobs[j].place.Created? || m.jobs[j].place.Queued?) && m.permits > 0
    case Read(j, _, _) => j in m.jobs && m.jobs[j].reading
    case Finish(j, _) => j in m.jobs && m.jobs[j].place.Inside?
    case RequestCancel(j) => j in m.jobs && !m.jobs[j].place.Ended?
    case CancelOutside(j) => j in m.jobs && (m.jobs[j].place.Created? || m.jobs[j].place.Queued?)
    case Watch(p, j) => p !in m.pollers && j in m.jobs
    case PollOnce(p) => p in m.pollers && m.pollers[p].job in m.jobs
  }

  function Next(m: Manager, t: JobStep): Manager
    requires Enabled(m, t)
  {
    match t
    case Start(j) => m.(jobs := m.jobs[j := NEW_JOB])
    case Wait(j) => m.(jobs := m.jobs[j := m.jobs[j].(place := Queued)])
    case Enter(j) =>
      m.(jobs := m.jobs[j := m.jobs[j].(place := Inside, reading := true, entered := true)], permits := m.permits - 1)
    case Read(j, stream, size) => m.(jobs := m.jobs[j := Emit(m.jobs[j], stream, size, m.maxBytes)])
    case Finish(j, e) => m.(jobs := m.jobs[j := Record(m.jobs[j], e)], permits := m.permits + 1)
    case RequestCancel(j) => m.(jobs := m.jobs[j := m.jobs[j].(cancelRequested := true)])
    case CancelOutside(j) => m.(jobs := m.jobs[j := m.jobs[j].(place := Ended)])
    case Watch(p, j) => m.(pollers := m.pollers[p := Poller(j, -1, [])])
    case PollOnce(p) => m.(pollers := m.pollers[p := Poll(m.pollers[p], m.jobs[m.pollers[p].job].chunks)])
  }

  ghost predicate Init(m: Manager) {
    m.permits == m.slots && m.jobs == map[] && m.pollers == map[]
  }

  ghost predicate IsRun(states: seq<Manager>, ts: seq<JobStep>) {
    && |states| == |ts| + 1
    && Init(states[0])
    && forall i :: 0 <= i < |ts| ==> Enabled(states[i], ts[i]) && states[i + 1] == Next(states[i], ts[i])
  }

  // ---------------------------------------------------------------- the manager, updated in place

  class JobManager {
    const maxBytes: nat
    const slots: nat
    var permits: nat
    var jobs: map<JobId, Job>

    ghost function State(): Manager reads this { Manager(maxBytes, slots, permits, jobs, map[]) }

    constructor (maxBytes: nat, slots: nat)
      ensures this.maxBytes == maxBytes && this.slots == slots && Init(State())
    {
      this.maxBytes, this.slots, permits, jobs := maxBytes, slots, slots, map[];
    }

    /** `j` is the fresh identifier. */
    method StartJob(j: JobId, command: string, timeout: Time) returns (started: bool)
      requires j !in jobs
      modifies this
      ensures started <==> command != "" && timeout > 0
      ensures State() == if started then Next(old(State()), Start(j)) else old(State())
      ensures started ==> j in jobs && jobs[j].status == Pending && jobs[j].place == Created && jobs[j].chunks == []
    {
      started := command != "" && timeout > 0;
      if started {
        jobs := jobs[j := NEW_JOB];
      }
    }

    /** A task reaches the semaphore: it takes a permit or joins the queue. */
    method Acquire(j: JobId) returns (entered: bool)
      requires j in jobs && (jobs[j].place.Created? || jobs[j].place.Queued?)
      modifies this
      ensures entered <==> old(permits) > 0
      ensures entered ==> State() == Next(old(State()), Enter(j))
      ensures !entered ==> State() == old(State()).(jobs := old(jobs)[j := old(jobs)[j].(place := Queued)])
    {
      entered := permits > 0;
      if entered {
        permits := permits - 1;
        jobs := jobs[j := jobs[j].(place := Inside, reading := true, entered := true)];
      } else {
        jobs := jobs[j := jobs[j].(place := Queued)];
      }
    }

    method OnChunk(j: JobId, chunk: Chunk) returns (accepted: bool)
      requires j in jobs
      modifies this`jobs
      ensures accepted <==> old(jobs)[j].outputBytes + chunk.size <= maxBytes
      ensures jobs == old(jobs)[j :=
                if accepted then old(jobs)[j].(outputBytes := old(jobs)[j].outputBytes + chunk.size,
                                               chunks := old(jobs)[j].chunks + [chunk])
                else old(jobs)[j].(truncated := true)]
    {
      var job := jobs[j];
      if job.outputBytes + chunk.size > maxBytes {
        jobs := jobs[j := job.(truncated := true)];
        return false;
      }
      jobs := jobs[j := job.(outputBytes := job.outputBytes + chunk.size, chunks := job.chunks + [chunk])];
      return true;
    }

    /** One round of a reader loop: the next number is taken, and the callback may refuse the chunk. */
    method ReadOne(j: JobId, stream: Stream, size: nat)
      requires j in jobs
      modifies this`jobs
      ensures jobs == old(jobs)[j := Emit(old(jobs)[j], stream, size, maxBytes)]
    {
      var chunk := Chunk(jobs[j].sequence, stream, size);
      jobs := jobs[j := jobs[j].(sequence := jobs[j].sequence + 1, produced := jobs[j].produced + [chunk])];
      var accepted := OnChunk(j, chunk);
      if !accepted {
        jobs := jobs[j := jobs[j].(dropped := true)];
      }
    }

    /** The two reader loops, fed with their reads in whatever order these complete. */
    method RunReaders(j: JobId, batch: seq<(Stream, nat)>)
      requires j in jobs
      modifies this`jobs
      ensures jobs == old(jobs)[j := EmitAll(old(jobs)[j], batch, maxBytes)]
    {
      var k := 0;
      while k < |batch|
        invariant 0 <= k <= |batch|
        invariant j in jobs && jobs == old(jobs)[j := EmitAll(old(jobs)[j], batch[..k], maxBytes)]
      {
        ReadOne(j, batch[k].0, batch[k].1);
        assert batch[..k + 1][..k] == batch[..k];
        k := k + 1;
      }
      assert batch[..k] == batch;
    }

    method RecordResult(j: JobId, e: Ending)
      requires j in jobs && jobs[j].place.Inside?
      modifies this
      ensures State() == Next(old(State()), Finish(j, e))
      ensures j in jobs && jobs[j].place == Ended && permits == old(permits) + 1
      ensures jobs[j].status == Succeeded <==> e == Exited(Some(0))
      ensures jobs[j].status == TimedOut <==> e == TimedOutEnding
      ensures jobs[j].status == Cancelled <==> e == CancelledEnding
      ensures jobs[j].status == Failed <==> e.Raised? || (e.Exited? && e.code != Some(0))
      ensures jobs[j].exitCode == if e.Exited? then e.code else None
      ensures jobs[j].chunks == old(jobs)[j].chunks && jobs[j].outputBytes == old(jobs)[j].outputBytes
    {
      var job := jobs[j];
      permits := permits + 1;
      match e
      case Exited(code) =>
        jobs := jobs[j := job.(place := Ended, reading := false, exitCode := code,
                               status := if code == Some(0) then Succeeded else Failed,
                               truncated := job.dropped || job.truncated)];
      case TimedOutEnding =>
        jobs := jobs[j := job.(place := Ended, reading := false, exitCode := None, status := TimedOut)];
      case CancelledEnding =>
        jobs := jobs[j := job.(place := Ended, reading := false, exitCode := None, status := Cancelled)];
      case Raised(lingering) =>
        jobs := jobs[j := job.(place := Ended, reading := lingering && job.reading,
                               exitCode := None, status := Failed)];
    }

    /** None where the identifier is unknown. */
    method CancelJob(j: JobId) returns (requested: Option<bool>)
      modifies this`jobs
      ensures requested == if j in old(jobs) then Some(!old(jobs)[j].place.Ended?) else None
      ensures State() == if requested == Some(true) then Next(old(State()), RequestCancel(j)) else old(State())
      ensures requested == Some(true) ==> jobs[j] == old(jobs)[j].(cancelRequested := true)
    {
      if j !in jobs {
        return None;
      }
      if jobs[j].place.Ended? {
        return Some(false);
      }
      jobs := jobs[j := jobs[j].(cancelRequested := true)];
      return Some(true);
    }

    method ReadOutput(j: JobId, after: int) returns (r: Option<seq<Chunk>>)
      ensures r == if j in jobs then Some(Output(jobs[j].chunks, after)) else None
    {
      if j !in jobs {
        return None;
      }
      var found := [];
      var chunks, k := jobs[j].chunks, 0;
      while k < |chunks|
        invariant 0 <= k <= |chunks|
        invariant found == Output(chunks[..k], after)
      {
        assert chunks[..k + 1][..k] == chunks[..k];
        if chunks[k].sequence > after {
          found := found + [chunks[k]];
        }
        k := k + 1;
      }
      assert chunks[..k] == chunks;
      return Some(found);
    }
  }

  function EmitAll(j: Job, batch: seq<(Stream, nat)>, maxBytes: nat): Job {
    if batch == [] then j
    else
      var last := batch[|batch| - 1];
      Emit(EmitAll(j, batch[..|batch| - 1], maxBytes), last.0, last.1, maxBytes)
  }

  // ---------------------------------------------------------------- output

  function Bytes(chunks: seq<Chunk>): nat {
    if chunks == [] then 0 else Bytes(chunks[..|chunks| - 1]) + chunks[|chunks| - 1].size
  }

  ghost predicate Increasing(chunks: seq<Chunk>) {
    forall a, b :: 0 <= a < b < |chunks| ==> chunks[a].sequence < chunks[b].sequence
  }

  /** Produced chunks are numbered from 0 without gaps. */
  ghost predicate Numbered(produced: seq<Chunk>) {
    forall k :: 0 <= k < |produced| ==> produced[k].sequence == k
  }

  /** Stored chunks are some of the produced ones, in the order of their numbers. */
  ghost predicate Subsequence(chunks: seq<Chunk>, produced: seq<Chunk>) {
    && Increasing(chunks)
    && (forall k :: 0 <= k < |chunks| ==> chunks[k].sequence < |produced|)
    && (forall k :: 0 <= k < |chunks| ==> chunks[k] in produced)
  }

  /** The flag is set exactly when a chunk was dropped. */
  ghost predicate Flagged(j: Job) {
    && |j.chunks| <= |j.produced|
    && (j.truncated <==> |j.chunks| < |j.produced|)
    && (j.dropped <==> j.truncated)
    && (!j.truncated ==> j.chunks == j.produced)
  }

  ghost predicate OutputOk(j: Job, maxBytes: nat) {
    && j.outputBytes == Bytes(j.chunks) <= maxBytes
    && |j.produced| == j.sequence
    && Numbered(j.produced) && Subsequence(j.chunks, j.produced) && Flagged(j)
  }

  lemma AppendNumbered(produced: seq<Chunk>, c: Chunk)
    requires Numbered(produced) && c.sequence == |produced|
    ensures Numbered(produced + [c])
  {
  }

  lemma AppendProduced(chunks: seq<Chunk>, produced: seq<Chunk>, c: Chunk)
    requires Subsequence(chunks, produced)
    ensures Subsequence(chunks, produced + [c])
  {
  }

  lemma AppendStored(chunks: seq<Chunk>, produced: seq<Chunk>, c: Chunk)
    requires Subsequence(chunks, produced) && c.sequence == |produced|
    ensures Subsequence(chunks + [c], produced + [c])
  {
    assert (produced + [c])[|produced|] == c;
    forall k | 0 <= k < |chunks|
      ensures chunks[k] in produced + [c] && chunks[k].sequence < c.sequence
    {
    }
  }

  lemma AppendBytes(chunks: seq<Chunk>, c: Chunk)
    ensures Bytes(chunks + [c]) == Bytes(chunks) + c.size
  {
    assert (chunks + [c])[..|chunks|] == chunks;
  }

  lemma EmitNumbers(j: Job, stream: Stream, size: nat, maxBytes: nat)
    requires Numbered(j.produced) && |j.produced| == j.sequence
    ensures var next := Emit(j, stream, size, maxBytes); Numbered(next.produced) && |next.produced| == next.sequence
  {
    AppendNumbered(j.produced, Chunk(j.sequence, stream, size));
  }

  lemma EmitFlags(j: Job, stream: Stream, size: nat, maxBytes: nat)
    requires Flagged(j)
    ensures Flagged(Emit(j, stream, size, maxBytes))
  {
  }

  lemma EmitBytes(j: Job, stream: Stream, size: nat, maxBytes: nat)
    requires j.outputBytes == Bytes(j.chunks) <= maxBytes
    ensures Emit(j, stream, size, maxBytes).outputBytes == Bytes(Emit(j, stream, size, maxBytes).chunks) <= maxBytes
  {
    AppendBytes(j.chunks, Chunk(j.sequence, stream, size));
  }

  lemma EmitSubsequence(j: Job, stream: Stream, size: nat, maxBytes: nat)
    requires |j.produced| == j.sequence && Subsequence(j.chunks, j.produced)
    ensures Subsequence(Emit(j, stream, size, maxBytes).chunks, Emit(j, stream, size, maxBytes).produced)
  {
    AppendStored(j.chunks, j.produced, Chunk(j.sequence, stream, size));
    AppendProduced(j.chunks, j.produced, Chunk(j.sequence, stream, size));
  }

  lemma EmitKeeps(j: Job, stream: Stream, size: nat, maxBytes: nat)
    requires OutputOk(j, maxBytes)
    ensures OutputOk(Emit(j, stream, size, maxBytes), maxBytes)
  {
    EmitNumbers(j, stream, size, maxBytes);
    EmitFlags(j, stream, size, maxBytes);
    EmitBytes(j, stream, size, maxBytes);
    EmitSubsequence(j, stream, size, maxBytes);
  }

  // ---------------------------------------------------------------- status and slots

  ghost predicate LifeOk(j: Job) {
    && (j.status.Succeeded? <==> j.exitCode == Some(0))
    && (j.place.Created? || j.place.Queued? ==> !j.entered && !j.reading)
    && (j.place.Inside? ==> j.entered)
    && (j.place.Ended? ==> (j.status.Pending? <==> !j.entered))
    && (j.status.Pending? ==> j.exitCode.None?)
    && (!j.place.Ended? ==> j.status.Pending?)
  }

  function InsideJobs(jobs: map<JobId, Job>): set<JobId> {
    set j | j in jobs && jobs[j].place.Inside?
  }

  lemma {:induction false} OutputAbove(chunks: seq<Chunk>, n: nat, cursor: int)
    requires Increasing(chunks) && n <= |chunks|
    requires cursor == if n == 0 then -1 else chunks[n - 1].sequence
    ensures Output(chunks, cursor) == chunks[n..]
  {
    if chunks != [] {
      var last := |chunks| - 1;
      if n <= last {
        OutputAbove(chunks[..last], n, cursor);
        assert chunks[n..] == chunks[..last][n..] + [chunks[last]];
      } else {
        OutputBelow(chunks, cursor);
      }
    }
  }

  lemma {:induction false} OutputBelow(chunks: seq<Chunk>, cursor: int)
    requires forall k :: 0 <= k < |chunks| ==> chunks[k].sequence <= cursor
    ensures Output(chunks, cursor) == []
  {
    if chunks != [] {
      OutputBelow(chunks[..|chunks| - 1], cursor);
    }
  }

  /** The poller holds the chunks stored up to its last answer, each once and in order. */
  ghost predicate UpTo(q: Poller, chunks: seq<Chunk>) {
    && |q.received| <= |chunks| && q.received == chunks[..|q.received|]
    && q.cursor == if q.received == [] then -1 else q.received[|q.received| - 1].sequence
  }

  lemma CaughtUp(q: Poller, chunks: seq<Chunk>)
    requires UpTo(q, chunks) && Output(chunks, q.cursor) == chunks[|q.received|..]
    ensures UpTo(Poll(q, chunks), chunks) && Poll(q, chunks).received == chunks
  {
    assert q.received + chunks[|q.received|..] == chunks;
  }

  /** One poll brings the client up to date, whatever was appended since its last one. */
  lemma PollCatchesUp(q: Poller, chunks: seq<Chunk>)
    requires Increasing(chunks) && UpTo(q, chunks)
    ensures UpTo(Poll(q, chunks), chunks) && Poll(q, chunks).received == chunks
  {
    OutputAbove(chunks, |q.received|, q.cursor);
    CaughtUp(q, chunks);
  }

  ghost predicate JobOk(m: Manager, j: JobId) {
    j in m.jobs && OutputOk(m.jobs[j], m.maxBytes) && LifeOk(m.jobs[j])
  }

  ghost predicate PollerOk(m: Manager, p: PollerId) {
    p in m.pollers && m.pollers[p].job in m.jobs && UpTo(m.pollers[p], m.jobs[m.pollers[p].job].chunks)
  }

  ghost predicate Slots(m: Manager) {
    m.permits + |InsideJobs(m.jobs)| == m.slots
  }

  ghost predicate Inv(m: Manager) {
    && Slots(m)
    && (forall j :: j in m.jobs ==> JobOk(m, j))
    && (forall p :: p in m.pollers ==> PollerOk(m, p))
  }

  lemma InsideUpdate(jobs: map<JobId, Job>, j: JobId, job: Job)
    ensures |InsideJobs(jobs[j := job])| ==
            |InsideJobs(jobs)| + (if job.place.Inside? then 1 else 0)
            - (if j in jobs && jobs[j].place.Inside? then 1 else 0)
  {
    var before := InsideJobs(jobs);
    assert InsideJobs(jobs[j := job]) == if job.place.Inside? then before + {j} else before - {j};
    assert j in before <==> j in jobs && jobs[j].place.Inside?;
  }

  lemma SlotsStep(m: Manager, t: JobStep)
    requires Slots(m) && Enabled(m, t)
    ensures Slots(Next(m, t))
  {
    match t
    case Start(j) => InsideUpdate(m.jobs, j, NEW_JOB);
    case Wait(j) => InsideUpdate(m.jobs, j, m.jobs[j].(place := Queued));
    case Enter(j) => InsideUpdate(m.jobs, j, m.jobs[j].(place := Inside, reading := true, entered := true));
    case Read(j, stream, size) => InsideUpdate(m.jobs, j, Emit(m.jobs[j], stream, size, m.maxBytes));
    case Finish(j, e) => InsideUpdate(m.jobs, j, Record(m.jobs[j], e));
    case RequestCancel(j) => InsideUpdate(m.jobs, j, m.jobs[j].(cancelRequested := true));
    case CancelOutside(j) => InsideUpdate(m.jobs, j, m.jobs[j].(place := Ended));
    case Watch(_, _) =>
    case PollOnce(_) =>
  }

  lemma RecordKeeps(j: Job, e: Ending, maxBytes: nat)
    requires OutputOk(j, maxBytes) && LifeOk(j) && j.place.Inside?
    ensures OutputOk(Record(j, e), maxBytes) && LifeOk(Record(j, e))
  {
  }

  lemma JobStepKeeps(m: Manager, t: JobStep, j: JobId)
    requires Enabled(m, t) && (j in m.jobs ==> JobOk(m, j)) && j in Next(m, t).jobs
    ensures JobOk(Next(m, t), j)
  {
    match t
    case Read(k, stream, size) => if k == j { EmitKeeps(m.jobs[j], stream, size, m.maxBytes); }
    case Finish(k, e) => if k == j { RecordKeeps(m.jobs[j], e, m.maxBytes); }
    case _ =>
  }

  /** Stored output only grows, and a recorded result is final. */
  lemma JobCause(m: Manager, t: JobStep, j: JobId)
    requires Enabled(m, t) && j in m.jobs && LifeOk(m.jobs[j])
    ensures j in Next(m, t).jobs && m.jobs[j].chunks <= Next(m, t).jobs[j].chunks
    ensures !m.jobs[j].status.Pending? ==>
              Next(m, t).jobs[j].status == m.jobs[j].status && Next(m, t).jobs[j].exitCode == m.jobs[j].exitCode
  {
  }

  lemma PollersStep(m: Manager, t: JobStep, p: PollerId)
    requires Enabled(m, t) && p in Next(m, t).pollers
    requires p in m.pollers ==> PollerOk(m, p) && JobOk(m, m.pollers[p].job)
    ensures PollerOk(Next(m, t), p)
  {
    if t == PollOnce(p) {
      PollCatchesUp(m.pollers[p], m.jobs[m.pollers[p].job].chunks);
    } else if p in m.pollers {
      JobCause(m, t, m.pollers[p].job);
    }
  }

  lemma InvStep(m: Manager, t: JobStep)
    requires Inv(m) && Enabled(m, t)
    ensures Inv(Next(m, t))
  {
    SlotsStep(m, t);
    forall j | j in Next(m, t).jobs
      ensures JobOk(Next(m, t), j)
    {
      JobStepKeeps(m, t, j);
    }
    forall p | p in Next(m, t).pollers
      ensures PollerOk(Next(m, t), p)
    {
      if p in m.pollers { assert PollerOk(m, p) && JobOk(m, m.pollers[p].job); }
      PollersStep(m, t, p);
    }
  }

  lemma InvAlways(states: seq<Manager>, ts: seq<JobStep>, i: nat)
    requires IsRun(states, ts) && i < |states|
    ensures Inv(states[i])
    ensures states[i].slots == states[0].slots && states[i].maxBytes == states[0].maxBytes
  {
    if i > 0 {
      InvAlways(states, ts, i - 1);
      InvStep(states[i - 1], ts[i - 1]);
    } else {
      assert InsideJobs(states[0].jobs) == {};
    }
  }

  // ---------------------------------------------------------------- what runs guarantee

  /** Free permits and jobs inside the semaphore always make up the limit. */
  lemma SlotsConserved(states: seq<Manager>, ts: seq<JobStep>, i: nat)
    requires IsRun(states, ts) && i < |states|
    ensures states[i].permits + |InsideJobs(states[i].jobs)| == states[0].slots
  {
    InvAlways(states, ts, i);
  }

  /** The bytes stored are accounted for and bounded; numbers increase; truncation is never silent. */
  lemma OutputIsBounded(states: seq<Manager>, ts: seq<JobStep>, i: nat, j: JobId)
    requires IsRun(states, ts) && i < |states| && j in states[i].jobs
    ensures var job := states[i].jobs[j];
            && job.outputBytes == Bytes(job.chunks) <= states[0].maxBytes
            && Numbered(job.produced) && Increasing(job.chunks)
            && (forall c :: c in job.chunks ==> c in job.produced)
            && (job.truncated <==> |job.chunks| < |job.produced|)
            && (!job.truncated ==>
                  job.chunks == job.produced && forall k | 0 <= k < |job.chunks| :: job.chunks[k].sequence == k)
  {
    InvAlways(states, ts, i);
    assert JobOk(states[i], j);
  }

  /** A status leaves PENDING at most once: once recorded, it and the exit code never change. */
  lemma {:induction false} StatusRecordedOnce(states: seq<Manager>, ts: seq<JobStep>, i: nat, k: nat, j: JobId)
    requires IsRun(states, ts) && i <= k < |states| && j in states[i].jobs && !states[i].jobs[j].status.Pending?
    ensures j in states[k].jobs
    ensures states[k].jobs[j].status == states[i].jobs[j].status
            && states[k].jobs[j].exitCode == states[i].jobs[j].exitCode
  {
    if i < k {
      StatusRecordedOnce(states, ts, i, k - 1, j);
      InvAlways(states, ts, k - 1);
      assert JobOk(states[k - 1], j);
      JobCause(states[k - 1], ts[k - 1], j);
    }
  }

  /** A finished task has a terminal status exactly if it got a slot, and succeeded exactly on exit code 0. */
  lemma TerminalIffEntered(states: seq<Manager>, ts: seq<JobStep>, i: nat, j: JobId)
    requires IsRun(states, ts) && i < |states| && j in states[i].jobs && states[i].jobs[j].place.Ended?
    ensures !states[i].jobs[j].status.Pending? <==> states[i].jobs[j].entered
    ensures states[i].jobs[j].status.Succeeded? <==> states[i].jobs[j].exitCode == Some(0)
  {
    InvAlways(states, ts, i);
    assert JobOk(states[i], j);
  }

  /** The status and exit code that each ending calls for. */
  predicate Tells(job: Job, e: Ending) {
    && (job.status == Succeeded <==> e == Exited(Some(0)))
    && (job.status == TimedOut <==> e == TimedOutEnding)
    && (job.status == Cancelled <==> e == CancelledEnding)
    && (job.status == Failed <==> e.Raised? || (e.Exited? && e.code != Some(0)))
    && job.exitCode == if e.Exited? then e.code else None
  }

  /** A status comes from the one step that ends the job, or was there before. */
  lemma StatusCause(m: Manager, t: JobStep, j: JobId)
    requires Enabled(m, t) && j in Next(m, t).jobs && !Next(m, t).jobs[j].status.Pending?
    ensures j in m.jobs
    ensures
      || (Next(m, t).jobs[j].status == m.jobs[j].status && Next(m, t).jobs[j].exitCode == m.jobs[j].exitCode)
      || (t.Finish? && t.j == j && Tells(Next(m, t).jobs[j], t.e))
    ensures t.Finish? && t.j == j ==> m.jobs[j].place == Inside && Next(m, t).jobs[j].place == Ended
  {
  }

  lemma EndedStays(m: Manager, t: JobStep, j: JobId)
    requires Enabled(m, t) && j in m.jobs && m.jobs[j].place == Ended
    ensures j in Next(m, t).jobs && Next(m, t).jobs[j].place == Ended
  {
  }

  lemma {:induction false} EndedAlways(states: seq<Manager>, ts: seq<JobStep>, i: nat, k: nat, j: JobId)
    requires IsRun(states, ts) && i <= k < |states| && j in states[i].jobs && states[i].jobs[j].place == Ended
    ensures j in states[k].jobs && states[k].jobs[j].place == Ended
  {
    if i < k {
      EndedAlways(states, ts, i, k - 1, j);
      EndedStays(states[k - 1], ts[k - 1], j);
    }
  }

  /** A recorded status goes back to the one step that ended the job, and tells how it ended. */
  lemma {:induction false} StatusTellsEnding(states: seq<Manager>, ts: seq<JobStep>, i: nat, j: JobId)
    returns (k: nat, e: Ending)
    requires IsRun(states, ts) && i < |states| && j in states[i].jobs && !states[i].jobs[j].status.Pending?
    ensures k < i && ts[k] == Finish(j, e) && Tells(states[i].jobs[j], e)
    ensures forall l | 0 <= l < |ts| && ts[l].Finish? && ts[l].j == j :: l == k
  {
    StatusCause(states[i - 1], ts[i - 1], j);
    if ts[i - 1].Finish? && ts[i - 1].j == j {
      k, e := i - 1, ts[i - 1].e;
      FinishedOnce(states, ts, k, j);
      InvAlways(states, ts, i - 1);
      assert JobOk(states[i - 1], j);
    } else {
      k, e := StatusTellsEnding(states, ts, i - 1, j);
    }
  }

  /** A job is ended by one step at most. */
  lemma {:induction false} FinishedOnce(states: seq<Manager>, ts: seq<JobStep>, k: nat, j: JobId)
    requires IsRun(states, ts) && k < |ts| && ts[k].Finish? && ts[k].j == j
    ensures forall l | 0 <= l < |ts| && ts[l].Finish? && ts[l].j == j :: l == k
  {
    forall l | 0 <= l < |ts| && ts[l].Finish? && ts[l].j == j
      ensures l == k
    {
      assert Enabled(states[l], ts[l]) && Enabled(states[k], ts[k]);
      if l < k {
        EndedAlways(states, ts, l + 1, k, j);
      } else if k < l {
        EndedAlways(states, ts, k + 1, l, j);
      }
    }
  }

  lemma NeverEntered(m: Manager, t: JobStep, j: JobId)
    requires Enabled(m, t) && j in m.jobs && m.jobs[j].place.Ended? && m.jobs[j].status.Pending?
    ensures j in Next(m, t).jobs && Next(m, t).jobs[j].place.Ended? && Next(m, t).jobs[j].status.Pending?
  {
  }

  /** A task that ended without a slot keeps status PENDING for ever. */
  lemma {:induction false} PendingForEver(states: seq<Manager>, ts: seq<JobStep>, i: nat, k: nat, j: JobId)
    requires IsRun(states, ts) && i <= k < |states| && j in states[i].jobs
    requires states[i].jobs[j].place.Ended? && !states[i].jobs[j].entered
    ensures j in states[k].jobs && states[k].jobs[j].place.Ended? && states[k].jobs[j].status.Pending?
  {
    if i < k {
      PendingForEver(states, ts, i, k - 1, j);
      NeverEntered(states[k - 1], ts[k - 1], j);
    } else {
      TerminalIffEntered(states, ts, i, j);
    }
  }

  /** Such a task exists under any limits: cancelled before it first runs, it has ended and is PENDING. */
  lemma CancelledBeforeSlot(slots: nat, maxBytes: nat) returns (states: seq<Manager>, ts: seq<JobStep>)
    ensures IsRun(states, ts) && |ts| == 3 && states[0].slots == slots && states[0].maxBytes == maxBytes
    ensures ts == [Start(0), RequestCancel(0), CancelOutside(0)]
    ensures 0 in states[3].jobs
    ensures states[3].jobs[0].place.Ended? && !states[3].jobs[0].entered && states[3].jobs[0].status.Pending?
  {
    var start := Manager(maxBytes, slots, slots, map[], map[]);
    var started := Next(start, Start(0));
    var requested := Next(started, RequestCancel(0));
    ts := [Start(0), RequestCancel(0), CancelOutside(0)];
    states := [start, started, requested, Next(requested, CancelOutside(0))];
  }

  /** A poll delivers every stored chunk exactly once and in order, whatever was interleaved with it. */
  lemma PollingIsExact(states: seq<Manager>, ts: seq<JobStep>, i: nat, p: PollerId)
    requires IsRun(states, ts) && i < |states| && p in states[i].pollers
    ensures var q := states[i].pollers[p];
            q.job in states[i].jobs && q.received <= states[i].jobs[q.job].chunks
    ensures i < |ts| && ts[i] == PollOnce(p) ==>
              p in states[i + 1].pollers && states[i].pollers[p].job in states[i].jobs
              && states[i + 1].pollers[p].received == states[i].jobs[states[i].pollers[p].job].chunks
  {
    InvAlways(states, ts, i);
    assert PollerOk(states[i], p) && JobOk(states[i], states[i].pollers[p].job);
    PollCatchesUp(states[i].pollers[p], states[i].jobs[states[i].pollers[p].job].chunks);
  }
}
