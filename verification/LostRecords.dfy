/** The two ways in which a task the BPF scheduler owns comes to be without a record of its
    current enqueue: a submission that fails, and an enqueue that loses the affinity race. */
module LostRecords {
  import opened Types
  import opened Kernel
  import opened Pipeline
  import opened PipelineSafety
  import opened EnqueueOutcomes

  // ---- a submission that fails -------------------------------------------------------------------

  lemma SendEffect(s: PState, fail: bool)
    requires s.phase.Sending? && s.outgoing != []
    ensures var s' := PStep(s, User(fail));
            && s'.k.tasks == s.k.tasks && s'.outgoing == s.outgoing[1..]
            && s'.attempts == s.attempts + [Attempt(s.outgoing[0], CanSubmit(s.k, fail))]
  {
  }

  lemma ErrorsAppend(attempts: seq<Attempt>, a: Attempt, id: Id)
    ensures Occ(Errors(attempts + [a]), id)
         == Occ(Errors(attempts), id) + if a.ok then 0 else Hit(a.rec.pid, a.rec.enqCnt, id)
  {
    assert (attempts + [a])[..|attempts|] == attempts;
    assert (Errors(attempts) + [a.rec])[..|Errors(attempts)|] == Errors(attempts);
    assert Errors(attempts) + [] == Errors(attempts);
  }

  lemma {:induction false} OccFirst(ts: seq<QueuedTask>)
    requires ts != []
    ensures Occ(ts, Id(ts[0].pid, ts[0].enqCnt)) >= 1
  {
    if |ts| > 1 { OccFirst(ts[..|ts| - 1]); }
  }

  /** Sending the current record of a waiting task leaves the task without a record in flight if
      and only if the submission fails: the ring call fails or @dispatched is full. */
  lemma FailedSendLosesRecord(s: PState, fail: bool)
    requires Reachable(s) && s.phase.Sending? && s.outgoing != []
    requires var t := s.outgoing[0];
             t.pid in s.k.tasks && s.k.tasks[t.pid].place == Owned(true) && s.k.tasks[t.pid].enqCnt == t.enqCnt
    ensures var s', id := PStep(s, User(fail)), Id(s.outgoing[0].pid, s.outgoing[0].enqCnt);
            InFlight(s', id) == if !fail && |s.k.dispatched| < s.k.cfg.dispatchedCap then 1 else 0
  {
    var t, s' := s.outgoing[0], PStep(s, User(fail));
    var id := Id(t.pid, t.enqCnt);
    SendEffect(s, fail);
    ReachableStep(s, User(fail));
    hide PStep, Reachable;
    WaitingTaskHasOneRecord(s, t.pid);
    WaitingTaskHasOneRecord(s', t.pid);
    OccFirst(s.outgoing);
    ErrorsAppend(s.attempts, Attempt(t, CanSubmit(s.k, fail)), id);
  }

  // ---- runs ------------------------------------------------------------------------------------------

  const CFG: Config := Config(2, 1, 1, 1, 0, true)
  const NEWCOMER: Task :=
    Task(true, false, Off, 0, {0, 1}, false, false, 0, 100, 0, 0, 0, 0)

  /** Task 7 is handed off, and its batch is closed. */
  function Closed(): PState {
    PSteps(InitState(CFG, Balanced),
      [Kern(Create(7, NEWCOMER)), Kern(Enable(7)), Kern(EnqueueEv(7, 0, false, -1)), User(false), User(false)])
  }

  const WAITING: Task := NEWCOMER.(enabled := true, dsqVtime := 0)
  const RECORD: QueuedTask := TaskInfo(7, WAITING, 0, 0, 1)

  /** The kernel's part of that run. */
  lemma {:induction false} HandedOffState()
    ensures var s0 := InitState(CFG, Balanced);
            var s2 := PStep(PStep(s0, Kern(Create(7, NEWCOMER))), Kern(Enable(7)));
            PStep(s2, Kern(EnqueueEv(7, 0, false, -1)))
            == s0.(k := Init(CFG).(tasks := map[7 := WAITING.(enqCnt := 1, place := Owned(true))],
                                   queued := [RECORD], nrQueued := 1, handed := [RECORD]))
  {
    hide SelectCpu, Dispatch, Drain, Consume, HandleRecord, VtimeInsert, StartRunning, StopRunning,
      DirectDispatch, EnqueueSched, UserStep;
    var s0 := InitState(CFG, Balanced);
    var s1 := PStep(s0, Kern(Create(7, NEWCOMER)));
    assert 0 in NEWCOMER.allowed;
    assert s1.k == SetTask(s0.k, 7, NEWCOMER);
    var s2 := PStep(s1, Kern(Enable(7)));
    assert s2.k.tasks == map[7 := WAITING];
    var s3 := PStep(s2, Kern(EnqueueEv(7, 0, false, -1)));
    assert |NEWCOMER.allowed| == 2;
    assert s3.k.queued == [RECORD];
  }

  lemma {:induction false} ClosedState()
    ensures Reachable(Closed())
    ensures var s := Closed();
            && s.phase == Sending && s.batch == [] && s.outgoing == [RECORD]
            && s.k == Init(CFG).(tasks := map[7 := WAITING.(enqCnt := 1, place := Owned(true))], handed := [RECORD])
  {
    var s0 := InitState(CFG, Balanced);
    assert Reachable(Closed());
    hide Reachable, PSteps, Step, Submit, CountBatch, TaskInfo;
    Unfold5(s0, Kern(Create(7, NEWCOMER)), Kern(Enable(7)), Kern(EnqueueEv(7, 0, false, -1)), User(false), User(false));
    HandedOffState();
    var s3 := PStep(PStep(PStep(s0, Kern(Create(7, NEWCOMER))), Kern(Enable(7))), Kern(EnqueueEv(7, 0, false, -1)));
    var s4 := PStep(s3, User(false));
    assert s4.batch == [RECORD] && s4.k.queued == [];
    var s5 := PStep(s4, User(false));
    assert s5.outgoing == [RECORD];
  }

  lemma {:induction false} Unfold5(s: PState, a: PEvent, b: PEvent, c: PEvent, d: PEvent, e: PEvent)
    ensures PSteps(s, [a, b, c, d, e]) == PStep(PStep(PStep(PStep(PStep(s, a), b), c), d), e)
  {
    hide PStep;
    First(s, a, [b, c, d, e]);
    First(PStep(s, a), b, [c, d, e]);
    var s2 := PStep(PStep(s, a), b);
    First(s2, c, [d, e]);
    First(PStep(s2, c), d, [e]);
    First(PStep(PStep(s2, c), d), e, []);
  }

  lemma {:induction false} First(s: PState, ev: PEvent, evs: seq<PEvent>)
    ensures PSteps(s, [ev] + evs) == PSteps(PStep(s, ev), evs)
  {
    assert ([ev] + evs)[1..] == evs;
  }

  /** A reachable state in which a task waits for user space and no record of it is anywhere. */
  lemma SubmissionLost() returns (s: PState, p: Pid)
    ensures Reachable(s) && p in s.k.tasks && s.k.tasks[p].place == Owned(true)
    ensures InFlight(s, Id(p, s.k.tasks[p].enqCnt)) == 0
  {
    ClosedState();
    var s0 := Closed();
    hide Closed, PStep, Reachable, InFlight;
    s, p := PStep(s0, User(true)), 7;
    SendEffect(s0, true);
    FailedSendLosesRecord(s0, true);
    ReachableStep(s0, User(true));
  }

  // ---- an old record that moves its task -------------------------------------------------------------

  /** Task 7 was sent, and then dequeued by the kernel. */
  function SentThenDequeued(): PState {
    PStep(PStep(Closed(), User(false)), Kern(Dequeue(7)))
  }

  lemma {:induction false} SentThenDequeuedState()
    ensures Reachable(SentThenDequeued())
    ensures SentThenDequeued().k == Init(CFG).(
              tasks := map[7 := WAITING.(enqCnt := 1)],
              handed := [RECORD],
              dispatched := [DispatchedTask(7, 0, 0, 0, 0, 1)])
  {
    ClosedState();
    var s0 := Closed();
    hide Closed, Reachable, SelectCpu, Dispatch, Drain, Enqueue, EnqueueSched;
    var s1 := PStep(s0, User(false));
    ReachableStep(s0, User(false));
    assert s1.k.dispatched == [DispatchedTask(7, 0, 0, 0, 0, 1)];
    ReachableStep(s1, Kern(Dequeue(7)));
  }

  /** Draining that record while the task is owned without a record of its own. */
  lemma DrainMovesTask(k: KState)
    requires k.tasks == map[7 := WAITING.(enqCnt := 1, allowed := {0}, place := Owned(false))]
    requires k.dispatched == [DispatchedTask(7, 0, 0, 0, 0, 1)] && k.drained == [] && 0 in k.dsqs
    ensures Drain(k, MAX_DISPATCH_SLOT).0.drained == [Drained(k.dispatched[0], Placed(0, true))]
  {
    var k0 := k.(dispatched := []);
    assert k.dispatched[1..] == [];
    var (k1, left) := HandleRecord(k0, k.dispatched[0], MAX_DISPATCH_SLOT);
    assert k1.dispatched == [];
    hide VtimeInsert;
  }

  /** The lost race itself. */
  lemma RaceIsLost(k: KState)
    requires k == Init(CFG).(tasks := map[7 := WAITING.(enqCnt := 1)], handed := [RECORD],
                             dispatched := [DispatchedTask(7, 0, 0, 0, 0, 1)])
    ensures var e, k1 := EnqueueEv(7, 0, true, 1), Step(k, SetAffinity(7, {0}));
            && Enabled(k, e) && !LosesRace(k, 7, true, 1) && 1 in k.tasks[7].allowed
            && Enabled(k1, e) && LosesRace(k1, 7, true, 1)
            && k1 == k.(tasks := map[7 := WAITING.(enqCnt := 1, allowed := {0})])
            && Step(k1, e) == k.(tasks := map[7 := WAITING.(enqCnt := 1, allowed := {0}, place := Owned(false))])
  {
    hide SelectCpu, Dispatch, Drain, Consume, HandleRecord, VtimeInsert, StartRunning, StopRunning,
      DirectDispatch, EnqueueSched, QueueToUser, TaskInfo;
    assert 0 in {0};
  }

  /** The two instants of an enqueue that loses the race: at `before` a CPU is picked that the
      task may use, and in `s`, after an affinity change, the enqueue tests it. No record is sent,
      and yet the next drain moves the task, by the record of the enqueue before. The record's
      generation is still the task's own, so the staleness test lets it pass. */
  lemma {:induction false} OldRecordMovesTask() returns (before: PState, s: PState, e: Event)
    ensures Reachable(before) && Reachable(s) && e.EnqueueEv? && Enabled(before.k, e) && Enabled(s.k, e)
    ensures e.picked in before.k.tasks[e.pid].allowed && !LosesRace(before.k, e.pid, e.wakeup, e.picked)
    ensures s == PStep(before, Kern(SetAffinity(e.pid, {0}))) && LosesRace(s.k, e.pid, e.wakeup, e.picked)
    ensures Step(s.k, e).handed == s.k.handed && WithoutRecord(Step(s.k, e), e.pid)
    ensures |s.k.dispatched| == 1 &&
            Drain(Step(s.k, e), MAX_DISPATCH_SLOT).0.drained == [Drained(s.k.dispatched[0], Placed(0, true))]
  {
    hide Reachable, Step, Drain, LosesRace, Enabled, Init;
    SentThenDequeuedState();
    before, e := SentThenDequeued(), EnqueueEv(7, 0, true, 1);
    hide SentThenDequeued;
    s := PStep(before, Kern(SetAffinity(7, {0})));
    ReachableStep(before, Kern(SetAffinity(7, {0})));
    RaceIsLost(before.k);
    EmptyStart();
    DrainMovesTask(Step(s.k, e));
  }

  lemma EmptyStart()
    ensures Init(CFG).cfg == CFG && Init(CFG).drained == [] && 0 in Init(CFG).dsqs
  {
  }
}
