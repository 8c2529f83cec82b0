/** Where a task goes: the CPU that is chosen for it, and the task a CPU takes next. */
module Placement {
  import opened Types
  import opened Kernel
  import opened KernelInvariant
  import opened EnqueueOutcomes

  // ---- ops.select_cpu ----------------------------------------------------------------------------

  /** The previous CPU if the task may use it, else the waker's, else the lowest it may use. */
  predicate Chosen(allowed: set<Cpu>, prevCpu: Cpu, thisCpu: Cpu, cpu: Cpu) {
    && cpu in allowed
    && (prevCpu in allowed ==> cpu == prevCpu)
    && (prevCpu !in allowed && thisCpu in allowed ==> cpu == thisCpu)
    && (prevCpu !in allowed && thisCpu !in allowed ==> forall c :: c in allowed ==> cpu <= c)
  }

  lemma {:induction false} FirstIsLowest(allowed: set<Cpu>, from: nat, n: nat, c: Cpu)
    requires from <= n && c in allowed && forall d :: d in allowed ==> from <= d < n
    ensures FirstCpu(allowed, from, n) in allowed
    ensures forall d :: d in allowed ==> FirstCpu(allowed, from, n) <= d
    decreases n - from
  {
    if from !in allowed { FirstIsLowest(allowed, from + 1, n, c); }
  }

  /** CPU selection puts an ordinary task on the DSQ of the idle CPU that was picked if nothing waits
      there or on the shared DSQ. Otherwise it only names a CPU: the picked one, or without one the
      chosen one, which the task may use. */
  lemma {:induction false} SelectOutcome(k: KState, pid: Pid, prevCpu: Cpu, thisCpu: Cpu, picked: int)
    requires KInv(k) && Enabled(k, SelectCpuEv(pid, prevCpu, thisCpu, picked))
    ensures var k', t := SelectCpu(k, pid, prevCpu, thisCpu, picked), k.tasks[pid];
            var idle := pid != k.cfg.usersched && k.cfg.builtinIdle && picked >= 0;
            && pid in k'.tasks
            && (idle ==> k'.tasks[pid].cpu == picked)
            && (!idle ==> Chosen(t.allowed, prevCpu, thisCpu, k'.tasks[pid].cpu))
            && var named := SetTask(k, pid, t.(cpu := k'.tasks[pid].cpu));
               if idle && !Contended(k, picked) then InsertedOn(named, k', pid, picked) else k' == named
  {
    hide KInv, DirectDispatch, UsableCpu, Chosen, InsertedOn, CanDirectDispatch, Contended;
    KnownTask(k, pid);
    if pid != k.cfg.usersched && k.cfg.builtinIdle && picked >= 0 {
      DirectWhere(k, pid, picked);
      ContendedQueues(k, SetTask(k, pid, k.tasks[pid].(cpu := picked)), picked);
    } else {
      UsableIsChosen(k, k.tasks[pid], prevCpu, thisCpu);
    }
  }

  lemma UsableIsChosen(k: KState, t: Task, prevCpu: Cpu, thisCpu: Cpu)
    requires CpuSet(k.cfg.nrCpus, t.allowed)
    ensures Chosen(t.allowed, prevCpu, thisCpu, UsableCpu(k, t, prevCpu, thisCpu))
  {
    var c :| c in t.allowed;
    FirstIsLowest(t.allowed, 0, k.cfg.nrCpus, c);
  }

  /** Direct dispatch on a CPU that was named before. */
  lemma DirectWhere(k: KState, pid: Pid, cpu: Cpu)
    requires KInv(k) && pid in k.tasks && k.tasks[pid].enabled && 0 <= cpu < k.cfg.nrCpus
    ensures var named := SetTask(k, pid, k.tasks[pid].(cpu := cpu));
            && InsertedOn(named, DirectDispatch(named, pid, cpu), pid, cpu)
            && pid in DirectDispatch(named, pid, cpu).tasks
            && DirectDispatch(named, pid, cpu).tasks[pid].cpu == cpu
            && named.dsqs == k.dsqs
  {
    KnownTask(k, pid);
    hide KInv, DirectDispatch;
    var t1 := k.tasks[pid].(cpu := cpu);
    SetTaskInv(k, pid, t1);
    DirectOutcome(SetTask(k, pid, t1), pid, cpu);
  }

  lemma ContendedQueues(k: KState, k1: KState, cpu: Cpu)
    requires KInv(k) && 0 <= cpu < k.cfg.nrCpus && k1.dsqs == k.dsqs
    ensures CanDirectDispatch(k1, cpu) <==> !Contended(k, cpu)
  {
  }

  /** The scheduler's own task is neither inserted nor handed off: it waits on its own DSQ. */
  lemma SchedulerEnqueue(k: KState, flags: u64, wakeup: bool, picked: int)
    requires KInv(k) && Enabled(k, EnqueueEv(k.cfg.usersched, flags, wakeup, picked))
    ensures var k', sched := Enqueue(k, k.cfg.usersched, flags, wakeup, picked), k.cfg.usersched;
            k' == k.(tasks := k.tasks[sched := k.tasks[sched].(place := InDsq(SCHED_DSQ))],
                     dsqs := k.dsqs[SCHED_DSQ := k.dsqs[SCHED_DSQ] + [Entry(sched, 0)]])
  {
    KnownTask(k, k.cfg.usersched);
  }

  // ---- what a CPU takes next ---------------------------------------------------------------------

  /** The entry `i` is the first of the queue whose task may run on the CPU. */
  predicate Oldest(tasks: Tasks, q: seq<Entry>, cpu: Cpu, i: int) {
    && 0 <= i < |q| && q[i].pid in tasks && cpu in tasks[q[i].pid].allowed
    && forall j :: 0 <= j < i ==> !(q[j].pid in tasks && cpu in tasks[q[j].pid].allowed)
  }

  ghost predicate HasRunnable(k: KState, d: int, cpu: Cpu) {
    d in k.dsqs && exists i :: Oldest(k.tasks, k.dsqs[d], cpu, i)
  }

  /** The oldest task of the queue that may run on the CPU, and no other, went there. */
  ghost predicate TookFrom(k: KState, k': KState, d: int, cpu: Cpu) {
    && d in k.dsqs
    && exists i :: Oldest(k.tasks, k.dsqs[d], cpu, i)
         && var q := k.dsqs[d];
            && k'.dsqs == k.dsqs[d := q[..i] + q[i + 1..]]
            && k'.tasks == k.tasks[q[i].pid := k.tasks[q[i].pid].(place := Local(cpu))]
  }

  lemma {:induction false} MoveTakes(k: KState, d: int, cpu: Cpu)
    ensures CanMove(k, d, cpu) <==> HasRunnable(k, d, cpu)
    ensures CanMove(k, d, cpu) ==> TookFrom(k, MoveToLocal(k, d, cpu), d, cpu)
  {
    if d in k.dsqs {
      var q := k.dsqs[d];
      var i := FirstRunnable(k, q, cpu);
      if i < |q| {
        assert Oldest(k.tasks, q, cpu, i);
      } else {
        forall j ensures !Oldest(k.tasks, q, cpu, j) {
          if 0 <= j < |q| { assert !MayRunOn(k, q[j].pid, cpu); }
        }
      }
    }
  }

  /** After the drain the CPU takes one task if any may run there: the scheduler's if work is pending
      for it, else the oldest of the CPU's own DSQ, and only if that has none, the oldest of the
      shared DSQ. */
  lemma {:induction false} DispatchServesOldest(k: KState, cpu: Cpu)
    requires KInv(k) && 0 <= cpu < k.cfg.nrCpus
    ensures var k1, k' := Drain(k, 512).0, Dispatch(k, cpu);
            if (k1.needed || k1.nrScheduled > 0 || k1.queued != []) && HasRunnable(k1, SCHED_DSQ, cpu)
            then TookFrom(k1, k', SCHED_DSQ, cpu)
            else if HasRunnable(k1, cpu, cpu) then TookFrom(k1, k', cpu, cpu)
            else if HasRunnable(k1, SHARED_DSQ, cpu) then TookFrom(k1, k', SHARED_DSQ, cpu)
            else k'.dsqs == k1.dsqs && k'.tasks == k1.tasks
  {
    KnownCpus(k);
    hide KInv, Drain, TookFrom, HasRunnable, CanMove, MoveToLocal;
    var k1 := Drain(k, MAX_DISPATCH_SLOT).0;
    var k2 := k1.(needed := false);
    SameTakes(k1, k2, SCHED_DSQ, cpu);
    SameTakes(k1, k2, cpu, cpu);
    SameTakes(k1, k2, SHARED_DSQ, cpu);
  }

  lemma KnownCpus(k: KState)
    requires KInv(k)
    ensures k.cfg.nrCpus <= MAX_CPUS
  {
  }

  lemma SameTakes(k1: KState, k2: KState, d: int, cpu: Cpu)
    requires k2 == k1.(needed := false)
    ensures CanMove(k2, d, cpu) <==> HasRunnable(k1, d, cpu)
    ensures CanMove(k2, d, cpu) ==> TookFrom(k1, MoveToLocal(k2, d, cpu), d, cpu)
  {
    hide CanMove, MoveToLocal;
    MoveTakes(k2, d, cpu);
  }
}
