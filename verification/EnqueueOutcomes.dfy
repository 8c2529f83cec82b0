/** What each enqueue decides, and the one decision that leaves a task without a record. */
module EnqueueOutcomes {
  import opened Types
  import opened Kernel
  import opened KernelInvariant
  import opened PipelineSafety

  /** A kernel thread bound to one CPU, kswapd or khugepaged: never left to user space. */
  predicate IsCritical(cfg: Config, pid: Pid, t: Task) {
    || (t.kthread && |t.allowed| == 1)
    || t.kswapd
    || (pid == cfg.khugepaged && cfg.khugepaged != 0)
  }

  /** A task waits on the shared DSQ or on that of the CPU. */
  predicate Contended(k: KState, cpu: Cpu) {
    (SHARED_DSQ in k.dsqs && k.dsqs[SHARED_DSQ] != []) || (cpu in k.dsqs && k.dsqs[cpu] != [])
  }

  /** The enqueue asks user space to decide: unless the task is critical, it was woken with a CPU
      idle, and nothing waits for that CPU. */
  predicate AsksUser(k: KState, pid: Pid, wakeup: bool, picked: int)
    requires pid in k.tasks
  {
    && !IsCritical(k.cfg, pid, k.tasks[pid])
    && !(k.cfg.builtinIdle && wakeup && picked >= 0 && !Contended(k, picked))
  }

  /** The guard of the branch that neither inserts the task nor sends a record: an idle CPU
      was picked that the task may no longer use. */
  predicate LosesRace(k: KState, pid: Pid, wakeup: bool, picked: int)
    requires pid in k.tasks
  {
    && pid != k.cfg.usersched && !IsCritical(k.cfg, pid, k.tasks[pid]) && !AsksUser(k, pid, wakeup, picked)
    && picked !in k.tasks[pid].allowed
  }

  /** An insert touches neither the rings nor the counters. */
  ghost predicate PutCounts(k: KState, k': KState) {
    && k'.nrCongested == k.nrCongested && k'.nrKernel == k.nrKernel && k'.nrQueued == k.nrQueued
    && k'.handed == k.handed && k'.queued == k.queued
  }

  lemma {:induction false} PutEffect(k: KState, pid: Pid, d: int)
    requires KInv(k) && pid in k.tasks && IsDsq(k.cfg.nrCpus, d)
    ensures d in k.dsqs && PutCounts(k, PutOnDsq(k, pid, d, 0))
    ensures PutOnDsq(k, pid, d, 0).tasks == k.tasks[pid := k.tasks[pid].(place := InDsq(d), dsqVtime := 0)]
    ensures PutOnDsq(k, pid, d, 0).dsqs == k.dsqs[d := k.dsqs[d] + [Entry(pid, 0)]]
  {
    assert QueueOk(k.tasks, d, k.dsqs[d]);
    ZeroKeyInsertAppends(k.dsqs[d], Entry(pid, 0));
  }

  /** The DSQ an enqueue that inserts the task chooses. */
  function DirectDsq(k: KState, pid: Pid, wakeup: bool, picked: int): int
    requires pid in k.tasks
  {
    if IsCritical(k.cfg, pid, k.tasks[pid]) then k.tasks[pid].cpu
    else if AsksUser(k, pid, wakeup, picked) then SHARED_DSQ
    else picked
  }

  /** The task is on exactly the chosen DSQ, counted as a kernel dispatch, and no record was
      sent. */
  ghost predicate InsertedOn(k: KState, k': KState, pid: Pid, d: int) {
    && d in k.dsqs && pid in k.tasks && k'.nrKernel == k.nrKernel + 1 && k'.nrQueued == k.nrQueued
    && k'.dsqs == k.dsqs[d := k.dsqs[d] + [Entry(pid, 0)]]
    && k'.tasks == k.tasks[pid := k.tasks[pid].(place := InDsq(d), dsqVtime := 0)]
    && k'.handed == k.handed && k'.queued == k.queued
  }

  /** The CPU a hand-off suggests: the picked idle one, or the task's own if none was picked. */
  function AskedCpu(k: KState, pid: Pid, wakeup: bool, picked: int): Cpu
    requires pid in k.tasks
  {
    if !(k.cfg.builtinIdle && wakeup) || picked < 0 then k.tasks[pid].cpu else picked
  }

  /** What a record says of its task: the times the ordering needs among them. */
  predicate Describes(rec: QueuedTask, pid: Pid, t: Task, cpu: Cpu, flags: u64) {
    && rec.pid == pid && rec.cpu == cpu && rec.flags == flags && rec.enqCnt == t.enqCnt + 1
    && rec.startTs == t.startTs && rec.stopTs == t.stopTs && rec.execRuntime == t.execRuntime
    && rec.weight == t.weight && rec.nrCpusAllowed == |t.allowed| && rec.vtime == 0
  }

  /** One new record of the next generation was sent, and the task is on no DSQ. */
  ghost predicate HandedOff(k: KState, k': KState, pid: Pid, cpu: Cpu, flags: u64) {
    && pid in k.tasks && k'.dsqs == k.dsqs && k'.nrKernel == k.nrKernel && k'.nrCongested == k.nrCongested
    && k'.nrQueued == k.nrQueued + 1
    && k'.tasks == k.tasks[pid := k.tasks[pid].(place := Owned(true), enqCnt := k.tasks[pid].enqCnt + 1)]
    && |k'.handed| == |k.handed| + 1 && k'.handed[..|k.handed|] == k.handed
    && k'.queued == k.queued + [k'.handed[|k.handed|]]
    && Describes(k'.handed[|k.handed|], pid, k.tasks[pid], cpu, flags)
  }

  lemma {:induction false} DirectOutcome(k: KState, pid: Pid, cpu: Cpu)
    requires KInv(k) && pid in k.tasks && k.tasks[pid].enabled && 0 <= cpu < k.cfg.nrCpus
    ensures InsertedOn(k, DirectDispatch(k, pid, cpu), pid, cpu)
    ensures DirectDispatch(k, pid, cpu).nrCongested == k.nrCongested
  {
    KnownTask(k, pid);
    var k1 := k.(nrKernel := k.nrKernel + 1);
    PutEffect(k1, pid, cpu);
    assert DirectDispatch(k, pid, cpu) == PutOnDsq(k1, pid, cpu, 0);
    hide KInv, PutOnDsq;
  }

  lemma {:induction false} HandOffOutcome(k: KState, pid: Pid, cpu: Cpu, flags: u64)
    requires KInv(k) && pid in k.tasks && k.tasks[pid].enabled
    ensures var k' := QueueToUser(k, pid, cpu, flags);
            if |k.queued| >= k.cfg.queuedCap
            then InsertedOn(k, k', pid, SHARED_DSQ) && k'.nrCongested == k.nrCongested + 1
            else HandedOff(k, k', pid, cpu, flags)
  {
    KnownTask(k, pid);
    if |k.queued| >= k.cfg.queuedCap {
      var k1 := k.(nrCongested := k.nrCongested + 1, nrKernel := k.nrKernel + 1);
      PutEffect(k1, pid, SHARED_DSQ);
      assert QueueToUser(k, pid, cpu, flags) == PutOnDsq(k1, pid, SHARED_DSQ, 0);
    }
    hide KInv, PutOnDsq;
  }

  /** Every enqueue of an ordinary task has exactly one of three outcomes: handed to user
      space, inserted on one DSQ, or dropped by the lost race. A full ring means the shared
      DSQ and a congestion count. */
  lemma {:induction false} EnqueueOutcome(k: KState, pid: Pid, flags: u64, wakeup: bool, picked: int)
    requires KInv(k) && Enabled(k, EnqueueEv(pid, flags, wakeup, picked)) && pid != k.cfg.usersched
    ensures var k' := Enqueue(k, pid, flags, wakeup, picked);
            var full := |k.queued| >= k.cfg.queuedCap;
            if LosesRace(k, pid, wakeup, picked) then k' == SetTask(k, pid, k.tasks[pid].(place := Owned(false)))
            else if AsksUser(k, pid, wakeup, picked) && !full
            then HandedOff(k, k', pid, AskedCpu(k, pid, wakeup, picked), flags)
            else InsertedOn(k, k', pid, DirectDsq(k, pid, wakeup, picked))
                 && k'.nrCongested == k.nrCongested + (if AsksUser(k, pid, wakeup, picked) then 1 else 0)
  {
    hide KInv, DirectDispatch, QueueToUser, InsertedOn, HandedOff, SetTask;
    KnownTask(k, pid);
    if AsksUser(k, pid, wakeup, picked) {
      HandOffOutcome(k, pid, AskedCpu(k, pid, wakeup, picked), flags);
    } else if !LosesRace(k, pid, wakeup, picked) {
      DirectOutcome(k, pid, DirectDsq(k, pid, wakeup, picked));
    }
  }

  // ---- owned without a record -----------------------------------------------------------

  predicate WithoutRecord(k: KState, p: Pid) {
    p in k.tasks && k.tasks[p].place == Owned(false)
  }

  lemma {:induction false} DrainAddsNone(k: KState, slots: nat, p: Pid)
    requires KInv(k) && slots >= 1
    ensures WithoutRecord(Drain(k, slots).0, p) ==> WithoutRecord(k, p)
    decreases |k.dispatched|
  {
    hide KInv, HandleRecord, TargetCpu, DispatchOk;
    if k.dispatched != [] {
      PopDispatchedInv(k);
      var k0, r := k.(dispatched := k.dispatched[1..]), k.dispatched[0];
      HandleInv(k0, r, slots);
      HandleFrame(k0, r, slots);
      PlacesExactly(k0, r, slots);
      var (k1, left) := HandleRecord(k0, r, slots);
      if left > 0 { DrainAddsNone(k1, left, p); }
    }
  }

  lemma {:induction false} ConsumeAddsNone(k: KState, cpu: Cpu, p: Pid)
    ensures WithoutRecord(Consume(k, cpu), p) ==> WithoutRecord(k, p)
  {
  }

  lemma {:induction false} SelectAddsNone(k: KState, pid: Pid, prevCpu: Cpu, thisCpu: Cpu, picked: int, p: Pid)
    requires pid in k.tasks
    ensures WithoutRecord(SelectCpu(k, pid, prevCpu, thisCpu, picked), p) ==> WithoutRecord(k, p)
  {
  }

  /** A task becomes owned without a record exactly when an enqueue loses the race. */
  lemma {:induction false} OnlyTheRaceDropsRecords(k: KState, e: Event, p: Pid)
    requires KInv(k) && p in k.tasks && !WithoutRecord(k, p)
    ensures WithoutRecord(Step(k, e), p) <==>
            Enabled(k, e) && e.EnqueueEv? && e.pid == p && LosesRace(k, p, e.wakeup, e.picked)
  {
    hide KInv, Drain, Consume, SelectCpu, PutOnDsq, DirectDispatch, QueueToUser;
    if !Enabled(k, e) { return; }
    if e.DispatchEv? {
      DrainAddsNone(k, MAX_DISPATCH_SLOT, p);
      ConsumeAddsNone(Drain(k, MAX_DISPATCH_SLOT).0, e.cpu, p);
    } else if e.SelectCpuEv? {
      SelectAddsNone(k, e.pid, e.prevCpu, e.thisCpu, e.picked, p);
    } else if e.EnqueueEv? {
      if e.pid != k.cfg.usersched { EnqueueOutcome(k, e.pid, e.flags, e.wakeup, e.picked); }
    }
  }
}
