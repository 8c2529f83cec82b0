/** When a CPU runs the user-space scheduler: exactly when work is pending for it. */
module SchedulerWakeup {
  import opened Types
  import opened Kernel
  import opened KernelInvariant
  import opened Pipeline
  import opened PipelineInvariant
  import opened PipelineSafety
  import opened EnqueueOutcomes

  /** Only the scheduler's own task is ever on its DSQ, and it is on no other; it is never handed to
      itself. */
  ghost predicate OnlySched(sched: Pid, tasks: Tasks) {
    && (forall p :: p in tasks && tasks[p].place == InDsq(SCHED_DSQ) ==> p == sched)
    && (sched in tasks ==>
          !tasks[sched].place.Owned? && (tasks[sched].place.InDsq? ==> tasks[sched].place.id == SCHED_DSQ))
  }

  // ---- draining ----------------------------------------------------------------------------------

  /** The masks, the pending work and the scheduler's own place. */
  ghost predicate SameForSched(k: KState, k': KState) {
    && k'.cfg == k.cfg && k'.queued == k.queued && k'.nrScheduled == k.nrScheduled && k'.needed == k.needed
    && k'.tasks.Keys == k.tasks.Keys
    && (forall p :: p in k.tasks ==> k'.tasks[p].allowed == k.tasks[p].allowed)
    && (forall p :: p in k.tasks && k.tasks[p].place.InDsq? ==> k'.tasks[p].place == k.tasks[p].place)
  }

  lemma SameTrans(a: KState, b: KState, c: KState)
    requires SameForSched(a, b) && SameForSched(b, c)
    ensures SameForSched(a, c)
  {
  }

  lemma {:induction false} BufferForSched(k: KState, r: DispatchedTask, slots: nat)
    requires r.pid in k.tasks
    ensures SameForSched(k, Buffer(Count(k, r), r, slots))
  {
  }

  lemma {:induction false} CommitForSched(k: KState, r: DispatchedTask, d: int)
    requires r.pid in k.tasks
    ensures SameForSched(k, Commit(k, r, d))
  {
    hide VtimeInsert;
  }

  lemma {:induction false} HandleForSched(k: KState, r: DispatchedTask, slots: nat)
    requires r.pid in k.tasks && r.cpu != RL_CPU_ANY
    ensures SameForSched(k, HandleRecord(k, r, slots).0)
  {
    if Alive(k, r.pid) {
      var k1 := Buffer(Count(k, r), r, slots);
      BufferForSched(k, r, slots);
      if k.tasks[r.pid].enqCnt <= r.enqCnt {
        CommitForSched(k1, r, CpuToDsq(TargetCpu(k, r)));
        SameTrans(k, k1, Commit(k1, r, CpuToDsq(TargetCpu(k, r))));
      }
    }
    hide Commit, Buffer, Count;
  }

  lemma {:induction false} HandleOnly(k: KState, r: DispatchedTask, slots: nat)
    requires KInv(k) && DispatchOk(k.cfg.nrCpus, k.tasks, r) && slots >= 1 && OnlySched(k.cfg.usersched, k.tasks)
    ensures OnlySched(k.cfg.usersched, HandleRecord(k, r, slots).0.tasks)
  {
    hide KInv, HandleRecord;
    KnownTask(k, r.pid);
    PlacesExactly(k, r, slots);
  }

  lemma {:induction false} DrainForSched(k: KState, slots: nat)
    requires KInv(k) && slots >= 1 && OnlySched(k.cfg.usersched, k.tasks)
    ensures SameForSched(k, Drain(k, slots).0)
    ensures OnlySched(k.cfg.usersched, Drain(k, slots).0.tasks)
    decreases |k.dispatched|
  {
    hide KInv, HandleRecord, OnlySched, DispatchOk;
    if k.dispatched != [] {
      PopDispatchedInv(k);
      var k0, r := k.(dispatched := k.dispatched[1..]), k.dispatched[0];
      HandleInv(k0, r, slots);
      HandleFrame(k0, r, slots);
      KnownRecord(k0, r);
      HandleForSched(k0, r, slots);
      HandleOnly(k0, r, slots);
      var (k1, left) := HandleRecord(k0, r, slots);
      if left > 0 { DrainForSched(k1, left); }
    }
  }

  lemma KnownRecord(k: KState, r: DispatchedTask)
    requires DispatchOk(k.cfg.nrCpus, k.tasks, r)
    ensures r.pid in k.tasks
  {
  }

  // ---- every event -------------------------------------------------------------------------------

  lemma {:induction false} MoveOnly(k: KState, d: int, cpu: Cpu)
    requires CanMove(k, d, cpu) && OnlySched(k.cfg.usersched, k.tasks)
    ensures OnlySched(k.cfg.usersched, MoveToLocal(k, d, cpu).tasks)
  {
  }

  lemma {:induction false} DispatchOnly(k: KState, cpu: Cpu)
    requires KInv(k) && OnlySched(k.cfg.usersched, k.tasks)
    ensures OnlySched(k.cfg.usersched, Dispatch(k, cpu).tasks)
  {
    hide KInv, Drain, OnlySched, MoveToLocal, CanMove;
    DrainForSched(k, MAX_DISPATCH_SLOT);
    var k1 := Drain(k, MAX_DISPATCH_SLOT).0.(needed := false);
    if CanMove(k1, SCHED_DSQ, cpu) { MoveOnly(k1, SCHED_DSQ, cpu); }
    if CanMove(k1, CpuToDsq(cpu), cpu) { MoveOnly(k1, CpuToDsq(cpu), cpu); }
    if CanMove(k1, SHARED_DSQ, cpu) { MoveOnly(k1, SHARED_DSQ, cpu); }
  }

  lemma {:induction false} SelectOnly(k: KState, pid: Pid, prevCpu: Cpu, thisCpu: Cpu, picked: int)
    requires KInv(k) && Enabled(k, SelectCpuEv(pid, prevCpu, thisCpu, picked))
    requires OnlySched(k.cfg.usersched, k.tasks)
    ensures OnlySched(k.cfg.usersched, SelectCpu(k, pid, prevCpu, thisCpu, picked).tasks)
  {
    hide KInv, DirectDispatch;
    KnownTask(k, pid);
    if pid != k.cfg.usersched && k.cfg.builtinIdle && picked >= 0 {
      var t1 := k.tasks[pid].(cpu := picked);
      SetTaskInv(k, pid, t1);
      DirectOutcome(SetTask(k, pid, t1), pid, picked);
    }
  }

  lemma {:induction false} EnqueueOnly(k: KState, pid: Pid, flags: u64, wakeup: bool, picked: int)
    requires KInv(k) && Enabled(k, EnqueueEv(pid, flags, wakeup, picked)) && OnlySched(k.cfg.usersched, k.tasks)
    ensures OnlySched(k.cfg.usersched, Enqueue(k, pid, flags, wakeup, picked).tasks)
  {
    KnownTask(k, pid);
    hide KInv, DirectDispatch, QueueToUser;
    if pid != k.cfg.usersched {
      hide Enqueue;
      EnqueueOutcome(k, pid, flags, wakeup, picked);
    }
  }

  lemma {:induction false} StepOnly(k: KState, e: Event)
    requires KInv(k) && OnlySched(k.cfg.usersched, k.tasks)
    ensures OnlySched(k.cfg.usersched, Step(k, e).tasks)
  {
    hide KInv, Enqueue, SelectCpu, Dispatch;
    if Enabled(k, e) {
      match e
      case SelectCpuEv(pid, prevCpu, thisCpu, picked) => SelectOnly(k, pid, prevCpu, thisCpu, picked);
      case EnqueueEv(pid, flags, wakeup, picked) => EnqueueOnly(k, pid, flags, wakeup, picked);
      case DispatchEv(cpu) => DispatchOnly(k, cpu);
      case _ =>
    }
  }

  lemma {:induction false} PStepOnly(s: PState, ev: PEvent)
    requires KInv(s.k) && OnlySched(s.k.cfg.usersched, s.k.tasks)
    ensures PStep(s, ev).k.cfg == s.k.cfg && OnlySched(s.k.cfg.usersched, PStep(s, ev).k.tasks)
  {
    hide KInv, OnlySched;
    if ev.Kern? {
      StepOnly(s.k, ev.e);
      var news := StepGrew(s.k, ev.e);
      hide Step;
    }
  }

  lemma {:induction false} PStepsOnly(s: PState, evs: seq<PEvent>)
    requires PInv(s) && OnlySched(s.k.cfg.usersched, s.k.tasks)
    ensures var k := PSteps(s, evs).k; OnlySched(k.cfg.usersched, k.tasks)
    decreases |evs|
  {
    hide PStep, OnlySched, KInv;
    if evs != [] {
      PStepOnly(s, evs[0]);
      PStepsInv(s, [evs[0]]);
      assert PSteps(s, [evs[0]]) == PStep(s, evs[0]) by { assert [evs[0]][1..] == []; }
      PStepsOnly(PStep(s, evs[0]), evs[1..]);
    }
  }

  lemma {:induction false} ReachableOnly(s: PState)
    requires Reachable(s)
    ensures OnlySched(s.k.cfg.usersched, s.k.tasks)
  {
    var cfg, profile, evs :| ValidConfig(cfg) && s == PSteps(InitState(cfg, profile), evs);
    InitPInv(cfg, profile);
    PStepsOnly(InitState(cfg, profile), evs);
  }

  // ---- the decision of a dispatch ------------------------------------------------------------------

  lemma {:induction false} SchedQueue(k: KState)
    requires KInv(k) && OnlySched(k.cfg.usersched, k.tasks)
    requires k.cfg.usersched in k.tasks && k.tasks[k.cfg.usersched].place == InDsq(SCHED_DSQ)
    ensures SCHED_DSQ in k.dsqs && |k.dsqs[SCHED_DSQ]| == 1 && k.dsqs[SCHED_DSQ][0].pid == k.cfg.usersched
  {
    var q, sched := k.dsqs[SCHED_DSQ], k.cfg.usersched;
    assert QueueOk(k.tasks, SCHED_DSQ, q);
    assert PlacedOn(k.tasks, sched, SCHED_DSQ);
    assert Holds(q, sched);
    assert |q| > 1 ==> q[0].pid != q[1].pid;
    forall i | 0 <= i < |q| ensures q[i].pid == sched {
      assert Holds(q, q[i].pid);
      assert PlacedOn(k.tasks, q[i].pid, SCHED_DSQ);
    }
  }

  /** Moving a task from another DSQ leaves the scheduler's task where it is. */
  lemma {:induction false} OtherMove(k: KState, d: int, cpu: Cpu, p: Pid)
    requires KInv(k) && CanMove(k, d, cpu) && p in k.tasks && k.tasks[p].place.InDsq? && k.tasks[p].place.id != d
    ensures MoveToLocal(k, d, cpu).tasks[p].place == k.tasks[p].place
  {
    var q := k.dsqs[d];
    var i := FirstRunnable(k, q, cpu);
    assert QueueOk(k.tasks, d, q);
    assert Holds(q, q[i].pid);
    assert PlacedOn(k.tasks, q[i].pid, d);
  }

  /** A dispatch on a CPU the waiting scheduler may use runs it there if and only if it was
      asked for, has pending tasks, or records are queued; and the request is taken. */
  lemma {:induction false} PendingWorkRunsScheduler(s: PState, cpu: Cpu)
    requires Reachable(s) && 0 <= cpu < s.k.cfg.nrCpus
    requires var sched := s.k.cfg.usersched;
             && sched in s.k.tasks && s.k.tasks[sched].place == InDsq(SCHED_DSQ) && cpu in s.k.tasks[sched].allowed
    ensures var k', sched := Dispatch(s.k, cpu), s.k.cfg.usersched;
            && sched in k'.tasks && !k'.needed
            && k'.tasks[sched].place
               == if s.k.needed || s.k.nrScheduled > 0 || s.k.queued != [] then Local(cpu) else InDsq(SCHED_DSQ)
  {
    ReachableInv(s);
    ReachableOnly(s);
    hide KInv, Drain, OnlySched, MoveToLocal, PSteps;
    DrainInv(s.k, MAX_DISPATCH_SLOT);
    DrainForSched(s.k, MAX_DISPATCH_SLOT);
    ConsumeForSched(Drain(s.k, MAX_DISPATCH_SLOT).0, cpu);
  }

  /** The timer wakes a scheduler that has been inactive: the next dispatch on a CPU it may use runs
      it, even if nothing is queued. A timer that finds it active changes nothing. */
  lemma {:induction false} TimerWakesScheduler(s: PState, cpu: Cpu)
    requires Reachable(s) && 0 <= cpu < s.k.cfg.nrCpus
    requires var sched := s.k.cfg.usersched;
             && sched in s.k.tasks && s.k.tasks[sched].place == InDsq(SCHED_DSQ) && cpu in s.k.tasks[sched].allowed
    ensures var sched, s' := s.k.cfg.usersched, PStep(s, Kern(Timer(true)));
            var k' := Dispatch(s'.k, cpu);
            sched in k'.tasks && k'.tasks[sched].place == Local(cpu)
    ensures PStep(s, Kern(Timer(false))) == s
  {
    ReachableInv(s);
    KnownTask(s.k, s.k.cfg.usersched);
    var s' := PStep(s, Kern(Timer(true)));
    assert s'.k == s.k.(needed := true);
    ReachableStep(s, Kern(Timer(true)));
    hide Reachable, KInv, Dispatch, PStep;
    PendingWorkRunsScheduler(s', cpu);
  }

  lemma {:induction false} NeededInv(k: KState)
    requires KInv(k)
    ensures KInv(k.(needed := false))
  {
    hide TaskInv, Numbered, IsTail, DomainOk;
  }

  lemma {:induction false} ConsumeForSched(k: KState, cpu: Cpu)
    requires KInv(k) && OnlySched(k.cfg.usersched, k.tasks) && 0 <= cpu < k.cfg.nrCpus
    requires var sched := k.cfg.usersched;
             && sched in k.tasks && k.tasks[sched].place == InDsq(SCHED_DSQ) && cpu in k.tasks[sched].allowed
    ensures var k', sched := Consume(k, cpu), k.cfg.usersched;
            && sched in k'.tasks && !k'.needed
            && k'.tasks[sched].place == if HasPending(k) then Local(cpu) else InDsq(SCHED_DSQ)
  {
    hide KInv, OnlySched;
    var k1, sched := k.(needed := false), k.cfg.usersched;
    NeededInv(k);
    KnownTask(k, sched);
    SchedQueue(k1);
    assert CanMove(k1, SCHED_DSQ, cpu);
    if !HasPending(k) {
      if CanMove(k1, CpuToDsq(cpu), cpu) { OtherMove(k1, CpuToDsq(cpu), cpu, sched); }
      if CanMove(k1, SHARED_DSQ, cpu) { OtherMove(k1, SHARED_DSQ, cpu, sched); }
    }
  }
}
