/** Both halves together: the kernel events of `Kernel` interleaved, in any order, with the
    calls of the user-space loop `dispatch_tasks` (main.rs). Each call is one step. */
module Pipeline {
  import opened Types
  import opened Kernel
  import opened TaskOrder

  const MAX_BATCH: nat := 64

  datatype Phase = Collecting | Sending

  /** The counters `dispatch_tasks` maintains; the average is a real, not a double. */
  datatype Stats = Stats(
    tasksDequeued: nat,
    tasksDispatched: nat,
    dispatchErrors: nat,
    dequeueErrors: nat,
    batchesProcessed: nat,
    maxBatchSize: nat,
    avgBatchSize: real,
    progressSequence: nat)

  datatype Attempt = Attempt(rec: QueuedTask, ok: bool)

  /** `batch` is the vector being filled and `outgoing` the ordered tasks still to be sent.
      `batches` and `attempts` are histories: every batch closed, every submission tried. */
  datatype PState = PState(
    k: KState,
    profile: Profile,
    phase: Phase,
    batch: seq<QueuedTask>,
    outgoing: seq<QueuedTask>,
    stats: Stats,
    batches: seq<seq<QueuedTask>>,
    attempts: seq<Attempt>)

  function InitStats(): Stats {
    Stats(0, 0, 0, 0, 0, 0, 0.0, 0)
  }

  function InitState(cfg: Config, profile: Profile): PState {
    PState(Init(cfg), profile, Collecting, [], [], InitStats(), [], [])
  }

  function MaxNat(a: nat, b: nat): nat { if a < b then b else a }

  /** The bookkeeping between the two loops of `dispatch_tasks`. */
  function CountBatch(st: Stats, n: nat): Stats {
    var st1 := st.(tasksDequeued := st.tasksDequeued + n);
    if n == 0 then st1
    else st1.(batchesProcessed := st1.batchesProcessed + 1,
              maxBatchSize := MaxNat(st1.maxBatchSize, n),
              avgBatchSize := st1.tasksDequeued as real / (st1.batchesProcessed + 1) as real)
  }

  function CloseBatch(s: PState): PState {
    s.(phase := Sending, batch := [], outgoing := OrderTasks(s.profile, s.batch),
       stats := CountBatch(s.stats, |s.batch|), batches := s.batches + [s.batch])
  }

  /** One turn of the collecting loop: take a record, or leave the loop because the batch is
      full, the ring is empty, or the ring reported an error. */
  function Collect(s: PState, fail: bool): PState {
    if |s.batch| >= MAX_BATCH then CloseBatch(s)
    else if fail then CloseBatch(s.(stats := s.stats.(dequeueErrors := s.stats.dequeueErrors + 1)))
    else
      var k' := TakeQueued(s.k);
      if s.k.queued == [] then CloseBatch(s.(k := k'))
      else s.(k := k', batch := s.batch + [s.k.queued[0]])
  }

  /** One turn of the sending loop. */
  function Send(s: PState, fail: bool): PState
    requires s.outgoing != []
  {
    var t := s.outgoing[0];
    var ok := CanSubmit(s.k, fail);
    s.(k := Submit(s.k, NewDispatch(t), fail),
       outgoing := s.outgoing[1..],
       attempts := s.attempts + [Attempt(t, ok)],
       stats := if ok then s.stats.(tasksDispatched := s.stats.tasksDispatched + 1)
                else s.stats.(dispatchErrors := s.stats.dispatchErrors + 1))
  }

  function Finish(s: PState): PState {
    s.(k := NotifyComplete(s.k, 0), phase := Collecting,
       stats := s.stats.(progressSequence := s.stats.progressSequence + 1))
  }

  /** The next call of the user-space loop; `fail` makes the ring operation fail. */
  function UserStep(s: PState, fail: bool): PState {
    if s.phase.Collecting? then Collect(s, fail)
    else if s.outgoing != [] then Send(s, fail)
    else Finish(s)
  }

  datatype PEvent = Kern(e: Event) | User(fail: bool)

  function PStep(s: PState, ev: PEvent): PState {
    match ev
    case Kern(e) => s.(k := Step(s.k, e))
    case User(fail) => UserStep(s, fail)
  }

  function PSteps(s: PState, evs: seq<PEvent>): PState
    decreases |evs|
  {
    if evs == [] then s else PSteps(PStep(s, evs[0]), evs[1..])
  }

  lemma {:induction false} PStepsConcat(s: PState, a: seq<PEvent>, b: seq<PEvent>)
    ensures PSteps(s, a + b) == PSteps(PSteps(s, a), b)
    decreases |a|
  {
    if a == [] { assert a + b == b; }
    else {
      hide PStep;
      assert (a + b)[1..] == a[1..] + b;
      PStepsConcat(PStep(s, a[0]), a[1..], b);
    }
  }

  // ---- the streams the histories describe ----------------------------------------------

  function Flat(bs: seq<seq<QueuedTask>>): seq<QueuedTask> {
    if bs == [] then [] else Flat(bs[..|bs| - 1]) + bs[|bs| - 1]
  }

  function Ordered(profile: Profile, bs: seq<seq<QueuedTask>>): seq<seq<QueuedTask>> {
    if bs == [] then [] else Ordered(profile, bs[..|bs| - 1]) + [OrderTasks(profile, bs[|bs| - 1])]
  }

  function Tried(attempts: seq<Attempt>): seq<QueuedTask> {
    if attempts == [] then [] else Tried(attempts[..|attempts| - 1]) + [attempts[|attempts| - 1].rec]
  }

  /** The records that reached @dispatched, in the order they were submitted. */
  function Sent(attempts: seq<Attempt>): seq<DispatchedTask> {
    if attempts == [] then []
    else
      var a := attempts[|attempts| - 1];
      Sent(attempts[..|attempts| - 1]) + if a.ok then [NewDispatch(a.rec)] else []
  }

  function Errors(attempts: seq<Attempt>): seq<QueuedTask> {
    if attempts == [] then []
    else
      var a := attempts[|attempts| - 1];
      Errors(attempts[..|attempts| - 1]) + if a.ok then [] else [a.rec]
  }
}
