/** That one more dispatch can be needed for a record that uses no slot: for every number of slots
    and of drains, a reachable state in which the record of an exited task waits behind the rest. */
module TrailingRecord {
  import opened Types
  import opened Kernel
  import opened DrainProgress
  import opened Pipeline
  import opened PipelineInvariant
  import opened PipelineSafety
  import opened LostRecords

  /** The record of the first hand-off of task `p`. */
  function FirstRecord(p: Pid): QueuedTask {
    TaskInfo(p, WAITING, 0, 0, 1)
  }

  /** The first `n` tasks after the scheduler's own, each waiting for its first record. */
  function Waiting(n: nat): (tasks: map<Pid, Task>)
    ensures forall p :: p in tasks <==> 2 <= p < n + 2
    ensures forall p :: p in tasks ==> tasks[p] == WAITING.(enqCnt := 1, place := Owned(true))
  {
    if n == 0 then map[] else Waiting(n - 1)[n + 1 := WAITING.(enqCnt := 1, place := Owned(true))]
  }

  /** The first `n` of those tasks exist, each of its first generation. */
  ghost predicate FirstLives(lives: Lives, n: nat) {
    (forall p :: p in lives <==> 2 <= p < n + 2) && forall p :: p in lives ==> lives[p] == 1
  }

  function FirstRecords(n: nat): seq<DispatchedTask> {
    seq(n, i requires 0 <= i => NewDispatch(FirstRecord(i + 2)))
  }

  /** Between two batches, with the records of `n` waiting tasks in @dispatched. */
  ghost predicate Loaded(s: PState, room: nat, n: nat) {
    && s.profile == Balanced && s.phase.Collecting? && s.batch == [] && s.outgoing == []
    && s.k.cfg == CFG.(dispatchedCap := room) && s.k.queued == []
    && s.k.tasks == Waiting(n) && s.k.dispatched == FirstRecords(n)
  }

  /** A task is created, enabled and handed off. */
  lemma {:induction false} HandOff(k: KState, p: Pid)
    requires p !in k.tasks && p > 1 && k.queued == []
    requires exists room :: k.cfg == CFG.(dispatchedCap := room)
    ensures var k' := Step(Step(Step(k, Create(p, NEWCOMER)), Enable(p)), EnqueueEv(p, 0, false, -1));
            && k'.tasks == k.tasks[p := WAITING.(enqCnt := 1, place := Owned(true))]
            && k'.queued == [FirstRecord(p)] && k'.dispatched == k.dispatched && k'.cfg == k.cfg
  {
    hide SelectCpu, Dispatch, Drain, Consume, HandleRecord, VtimeInsert, StartRunning, StopRunning,
      DirectDispatch, EnqueueSched;
    assert 0 in NEWCOMER.allowed && |NEWCOMER.allowed| == 2;
    var k2 := Step(Step(k, Create(p, NEWCOMER)), Enable(p));
    assert k2.tasks == k.tasks[p := WAITING];
    assert [] + [FirstRecord(p)] == [FirstRecord(p)];
  }

  /** The loop takes the one record, closes the batch, sends it and finishes the cycle. */
  lemma {:induction false} Cycle(s: PState)
    requires s.profile == Balanced && s.phase.Collecting? && s.batch == [] && s.outgoing == []
    requires |s.k.queued| == 1 && |s.k.dispatched| < s.k.cfg.dispatchedCap
    ensures var s' := PStep(PStep(PStep(PStep(s, User(false)), User(false)), User(false)), User(false));
            && s'.profile == s.profile && s'.phase.Collecting? && s'.batch == [] && s'.outgoing == []
            && s'.k.queued == [] && s'.k.tasks == s.k.tasks && s'.k.cfg == s.k.cfg
            && s'.k.dispatched == s.k.dispatched + [NewDispatch(s.k.queued[0])]
  {
    hide Step, CountBatch, NewDispatch;
    var t := s.k.queued[0];
    var s1 := PStep(s, User(false));
    assert s1.batch == [t] && s1.k.queued == [];
    var s2 := PStep(s1, User(false));
    assert s2.outgoing == [t];
    var s3 := PStep(s2, User(false));
    assert s3.outgoing == [];
  }

  /** One more waiting task. */
  lemma {:induction false} LoadOne(s: PState, room: nat, n: nat) returns (s': PState)
    requires Reachable(s) && Loaded(s, room, n) && n < room
    ensures Reachable(s') && Loaded(s', room, n + 1)
  {
    hide Reachable, Step, UserStep;
    var p := n + 2;
    HandOff(s.k, p);
    var s1 := PStep(s, Kern(Create(p, NEWCOMER)));
    var s2 := PStep(s1, Kern(Enable(p)));
    var s3 := PStep(s2, Kern(EnqueueEv(p, 0, false, -1)));
    Cycle(s3);
    var s4 := PStep(s3, User(false));
    var s5 := PStep(s4, User(false));
    var s6 := PStep(s5, User(false));
    s' := PStep(s6, User(false));
    ReachableStep(s, Kern(Create(p, NEWCOMER)));
    ReachableStep(s1, Kern(Enable(p)));
    ReachableStep(s2, Kern(EnqueueEv(p, 0, false, -1)));
    ReachableStep(s3, User(false));
    ReachableStep(s4, User(false));
    ReachableStep(s5, User(false));
    ReachableStep(s6, User(false));
    assert s'.k.tasks == Waiting(n + 1);
    assert s'.k.dispatched == FirstRecords(n + 1);
  }

  lemma {:induction false} Load(room: nat, n: nat) returns (s: PState)
    requires n <= room
    ensures Reachable(s) && Loaded(s, room, n)
  {
    if n == 0 {
      s := InitState(CFG.(dispatchedCap := room), Balanced);
      assert s == PSteps(s, []);
      return;
    }
    var s0 := Load(room, n - 1);
    s := LoadOne(s0, room, n - 1);
  }

  /** A waiting task is dequeued by the kernel and exits. */
  lemma {:induction false} WaitingExits(k: KState, p: Pid)
    requires p in k.tasks && k.tasks[p] == WAITING.(enqCnt := 1, place := Owned(true))
    ensures var k' := Step(Step(k, Dequeue(p)), Exit(p));
            && k'.dispatched == k.dispatched && k'.cfg == k.cfg
            && k'.tasks == k.tasks[p := WAITING.(enqCnt := 1, alive := false)]
  {
    hide SelectCpu, Dispatch, Drain, Consume, HandleRecord, VtimeInsert, StartRunning, StopRunning,
      Enqueue, Without;
  }

  lemma NewestExits(k: KState, k': KState, n: nat)
    requires k.tasks == Waiting(n + 1)
    requires k'.tasks == k.tasks[n + 2 := WAITING.(enqCnt := 1, alive := false)]
    ensures FirstLives(LivesOf(k'), n)
  {
  }

  lemma {:induction false} LiveFirst(lives: Lives, n: nat, i: nat)
    requires FirstLives(lives, n) && i <= n
    ensures LiveCount(lives, FirstRecords(i)) == i
  {
    if i > 0 {
      var last := NewDispatch(FirstRecord(i + 1));
      LiveFirst(lives, n, i - 1);
      assert FirstRecords(i) == FirstRecords(i - 1) + [last];
      LiveCountSplit(lives, FirstRecords(i - 1), [last]);
      assert Live(lives, last) && [last][1..] == [];
    }
  }

  /** The records of `n` waiting tasks, and behind them that of a task that exited. */
  lemma {:induction false} LoadedThenExit(n: nat) returns (s: PState)
    ensures Reachable(s) && s.k.dispatched == FirstRecords(n + 1)
    ensures FirstLives(LivesOf(s.k), n)
  {
    hide Reachable, Step, LivesOf, FirstLives;
    var s0 := Load(n + 1, n + 1);
    var s1 := PStep(s0, Kern(Dequeue(n + 2)));
    s := PStep(s1, Kern(Exit(n + 2)));
    ReachableStep(s0, Kern(Dequeue(n + 2)));
    ReachableStep(s1, Kern(Exit(n + 2)));
    WaitingExits(s0.k, n + 2);
    NewestExits(s0.k, s.k, n);
  }

  /** The record behind them is of a task that is gone. */
  lemma NotLive(lives: Lives, n: nat)
    requires FirstLives(lives, n)
    ensures var last := NewDispatch(FirstRecord(n + 2)); !Live(lives, last) && LiveCount(lives, [last]) == 0
  {
    var last := NewDispatch(FirstRecord(n + 2));
    assert [last][1..] == [];
  }

  /** Only the last record is of a task that is gone. */
  lemma {:induction false} OneTrails(k: KState, n: nat)
    requires k.dispatched == FirstRecords(n + 1) && FirstLives(LivesOf(k), n)
    ensures LiveCount(LivesOf(k), k.dispatched) == n && |k.dispatched| == n + 1 && !EndsLive(k)
  {
    hide LivesOf, LiveCount, Live, FirstLives;
    var last := NewDispatch(FirstRecord(n + 2));
    LiveFirst(LivesOf(k), n, n);
    assert k.dispatched == FirstRecords(n) + [last];
    LiveCountSplit(LivesOf(k), FirstRecords(n), [last]);
    NotLive(LivesOf(k), n);
  }

  /** For every number of slots and every number `m` of drains: in some reachable state `m * c` live
      records fill `m` drains, and the record of an exited task behind them waits for one more. */
  lemma {:induction false} TrailingRecordWaits(c: nat, m: nat) returns (s: PState)
    requires c >= 1 && m >= 1
    ensures Reachable(s) && LiveCount(LivesOf(s.k), s.k.dispatched) == m * c && |s.k.dispatched| == m * c + 1
    ensures Drains(s.k, c, m).dispatched != [] && Drains(s.k, c, m + 1).dispatched == []
  {
    hide Reachable, LivesOf, LiveCount, EndsLive, Drains, FirstRecords, FirstLives;
    s := LoadedThenExit(m * c);
    OneTrails(s.k, m * c);
    DrainsEmptyExactly(s.k, c, m);
    DrainsEmptyExactly(s.k, c, m + 1);
  }

  /** With the slots one ops.dispatch() has: it leaves the record in the ring. */
  lemma {:induction false} OneDispatchIsNotEnough(cpu: Cpu) returns (s: PState)
    ensures Reachable(s) && LiveCount(LivesOf(s.k), s.k.dispatched) == MAX_DISPATCH_SLOT
    ensures Dispatch(s.k, cpu).dispatched != []
  {
    s := TrailingRecordWaits(MAX_DISPATCH_SLOT, 1);
    var k1 := Drain(s.k, MAX_DISPATCH_SLOT).0;
    assert Drains(s.k, MAX_DISPATCH_SLOT, 1) == Drains(k1, MAX_DISPATCH_SLOT, 0) == k1;
    hide Reachable, Drain, Consume, Drains, LiveCount, LivesOf;
    ConsumeSame(k1, cpu);
  }
}
