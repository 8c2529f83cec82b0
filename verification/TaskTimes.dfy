/** The times a task carries, which decide the order of a batch: they are those of its last events,
    and its run time is what it ran since it last became runnable. */
module TaskTimes {
  import opened Types
  import opened Kernel
  import opened KernelInvariant
  import opened PipelineInvariant

  /** Every event is delivered when its turn comes. */
  predicate Delivered(k: KState, es: seq<Event>)
    decreases |es|
  {
    es == [] || (Enabled(k, es[0]) && Delivered(Step(k, es[0]), es[1..]))
  }

  /** When the task last started to run. */
  function LastStart(es: seq<Event>, p: Pid, before: u64): u64 {
    if es == [] then before
    else match es[|es| - 1]
      case Running(q, now) => if q == p then now else LastStart(es[..|es| - 1], p, before)
      case _ => LastStart(es[..|es| - 1], p, before)
  }

  function LastStop(es: seq<Event>, p: Pid, before: u64): u64 {
    if es == [] then before
    else match es[|es| - 1]
      case Stopping(q, now) => if q == p then now else LastStop(es[..|es| - 1], p, before)
      case _ => LastStop(es[..|es| - 1], p, before)
  }

  /** How long the task ran since it last became runnable: from each start to the next stop. */
  function Ran(es: seq<Event>, p: Pid, before: int, start: u64): int {
    if es == [] then before
    else
      var init := es[..|es| - 1];
      match es[|es| - 1]
      case Runnable(q) => if q == p then 0 else Ran(init, p, before, start)
      case Stopping(q, now) =>
        if q == p then Ran(init, p, before, start) + (now - LastStart(init, p, start)) else Ran(init, p, before, start)
      case _ => Ran(init, p, before, start)
  }

  /** The task is still there, with the same times. */
  predicate SameTimes(tasks: Tasks, tasks': Tasks, p: Pid) {
    p in tasks ==>
      && p in tasks'
      && tasks'[p].startTs == tasks[p].startTs && tasks'[p].stopTs == tasks[p].stopTs
      && tasks'[p].execRuntime == tasks[p].execRuntime
  }

  lemma PutTimes(k: KState, pid: Pid, d: int, vtime: u64, p: Pid)
    requires pid in k.tasks
    ensures SameTimes(k.tasks, PutOnDsq(k, pid, d, vtime).tasks, p)
  {
    hide VtimeInsert;
  }

  lemma CommitTimes(k: KState, r: DispatchedTask, d: int, p: Pid)
    requires r.pid in k.tasks
    ensures SameTimes(k.tasks, Commit(k, r, d).tasks, p)
  {
    hide PutOnDsq;
    PutTimes(k, r.pid, d, r.vtime, p);
  }

  lemma BufferTimes(k: KState, r: DispatchedTask, slots: nat, p: Pid)
    requires r.pid in k.tasks
    ensures r.pid in Buffer(k, r, slots).tasks && SameTimes(k.tasks, Buffer(k, r, slots).tasks, p)
    ensures r.pid in Count(k, r).tasks && Count(k, r).tasks == k.tasks
  {
  }

  lemma {:induction false} HandleTimes(k: KState, r: DispatchedTask, slots: nat, p: Pid)
    ensures SameTimes(k.tasks, HandleRecord(k, r, slots).0.tasks, p)
  {
    hide Commit, Buffer, Count, TargetCpu, CpuToDsq;
    if Alive(k, r.pid) {
      BufferTimes(k, r, slots, p);
      if r.cpu == RL_CPU_ANY {
        CommitTimes(Buffer(k, r, slots), r, SHARED_DSQ, p);
      } else {
        BufferTimes(Count(k, r), r, slots, p);
        CommitTimes(Buffer(Count(k, r), r, slots), r, CpuToDsq(TargetCpu(k, r)), p);
      }
    }
  }

  lemma {:induction false} DrainTimes(k: KState, slots: nat, p: Pid)
    ensures SameTimes(k.tasks, Drain(k, slots).0.tasks, p)
    decreases |k.dispatched|
  {
    hide HandleRecord;
    if k.dispatched != [] {
      var k0, r := k.(dispatched := k.dispatched[1..]), k.dispatched[0];
      HandleTimes(k0, r, slots, p);
      HandleFrame(k0, r, slots);
      var (k1, left) := HandleRecord(k0, r, slots);
      if left > 0 { DrainTimes(k1, left, p); }
    }
  }

  lemma DirectTimes(k: KState, pid: Pid, cpu: Cpu, p: Pid)
    requires pid in k.tasks
    ensures SameTimes(k.tasks, DirectDispatch(k, pid, cpu).tasks, p)
  {
    hide PutOnDsq, SameTimes, CpuToDsq;
    var k1 := k.(nrKernel := k.nrKernel + 1, fault := k.fault || !(0 <= cpu < MAX_CPUS));
    PutTimes(k1, pid, CpuToDsq(cpu), k.tasks[pid].dsqVtime, p);
  }

  lemma UserTimes(k: KState, pid: Pid, cpu: Cpu, flags: u64, p: Pid)
    requires pid in k.tasks
    ensures SameTimes(k.tasks, QueueToUser(k, pid, cpu, flags).tasks, p)
  {
    hide PutOnDsq, TaskInfo;
    var k1 := k.(nrCongested := k.nrCongested + 1, nrKernel := k.nrKernel + 1);
    PutTimes(k1, pid, SHARED_DSQ, k.tasks[pid].dsqVtime, p);
  }

  lemma {:induction false} EnqueueTimes(k: KState, pid: Pid, flags: u64, wakeup: bool, picked: int, p: Pid)
    requires pid in k.tasks
    ensures SameTimes(k.tasks, Enqueue(k, pid, flags, wakeup, picked).tasks, p)
  {
    hide DirectDispatch, QueueToUser, AlwaysDirect, CanDirectDispatch;
    DirectTimes(k, pid, k.tasks[pid].cpu, p);
    DirectTimes(k, pid, picked, p);
    UserTimes(k, pid, k.tasks[pid].cpu, flags, p);
    UserTimes(k, pid, picked, flags, p);
  }

  lemma {:induction false} SelectTimes(k: KState, pid: Pid, prevCpu: Cpu, thisCpu: Cpu, picked: int, p: Pid)
    requires pid in k.tasks
    ensures SameTimes(k.tasks, SelectCpu(k, pid, prevCpu, thisCpu, picked).tasks, p)
  {
    hide DirectDispatch, UsableCpu, CanDirectDispatch;
    var k1 := SetTask(k, pid, k.tasks[pid].(cpu := picked));
    DirectTimes(k1, pid, picked, p);
    assert SameTimes(k.tasks, k1.tasks, p);
  }

  lemma {:induction false} DispatchTimes(k: KState, cpu: Cpu, p: Pid)
    ensures SameTimes(k.tasks, Dispatch(k, cpu).tasks, p)
  {
    hide Drain, Consume;
    DrainTimes(k, MAX_DISPATCH_SLOT, p);
    ConsumeTimes(Drain(k, MAX_DISPATCH_SLOT).0, cpu, p);
  }

  lemma MoveTimes(k: KState, d: int, cpu: Cpu, p: Pid)
    requires CanMove(k, d, cpu)
    ensures SameTimes(k.tasks, MoveToLocal(k, d, cpu).tasks, p)
  {
  }

  lemma ConsumeTimes(k: KState, cpu: Cpu, p: Pid)
    ensures SameTimes(k.tasks, Consume(k, cpu).tasks, p)
  {
    hide CanMove, MoveToLocal, HasPending;
    var k1 := k.(needed := false);
    if CanMove(k1, SCHED_DSQ, cpu) { MoveTimes(k1, SCHED_DSQ, cpu, p); }
    if CanMove(k1, CpuToDsq(cpu), cpu) { MoveTimes(k1, CpuToDsq(cpu), cpu, p); }
    if CanMove(k1, SHARED_DSQ, cpu) { MoveTimes(k1, SHARED_DSQ, cpu, p); }
  }

  /** One event: only starting, stopping and becoming runnable touch the times. */
  lemma {:induction false} StepTimes(k: KState, e: Event, p: Pid)
    requires p in k.tasks && p != k.cfg.usersched && Enabled(k, e)
    ensures var t, k' := k.tasks[p], Step(k, e);
            && p in k'.tasks
            && k'.tasks[p].startTs == LastStart([e], p, t.startTs)
            && k'.tasks[p].stopTs == LastStop([e], p, t.stopTs)
            && k'.tasks[p].execRuntime == Ran([e], p, t.execRuntime, t.startTs) % U64_LIMIT
  {
    hide Enqueue, SelectCpu, Dispatch, DequeueTask;
    assert [e][..0] == [];
    match e {
      case EnqueueEv(pid, flags, wakeup, picked) => EnqueueTimes(k, pid, flags, wakeup, picked, p);
      case SelectCpuEv(pid, prevCpu, thisCpu, picked) => SelectTimes(k, pid, prevCpu, thisCpu, picked, p);
      case DispatchEv(cpu) => DispatchTimes(k, cpu, p);
      case Dequeue(q) => DequeueTimes(k, q, p);
      case _ =>
    }
  }

  lemma DequeueTimes(k: KState, q: Pid, p: Pid)
    requires q in k.tasks
    ensures SameTimes(k.tasks, DequeueTask(k, q).tasks, p)
  {
    hide Without;
  }

  // ---- over a run ----------------------------------------------------------------------------------

  lemma {:induction false} StepCfg(k: KState, e: Event)
    ensures Step(k, e).cfg == k.cfg
  {
    hide Step;
    var news := StepGrew(k, e);
  }

  lemma {:induction false} DeliveredLast(k: KState, es: seq<Event>)
    requires es != [] && Delivered(k, es)
    ensures var n := |es| - 1;
            && Delivered(k, es[..n]) && Enabled(Steps(k, es[..n]), es[n])
            && Steps(k, es) == Step(Steps(k, es[..n]), es[n])
    decreases |es|
  {
    hide Step, Enabled;
    var n := |es| - 1;
    if n == 0 {
      assert es[..0] == [] && es[1..] == [];
    } else {
      DeliveredLast(Step(k, es[0]), es[1..]);
      assert es[..n][1..] == es[1..][..n - 1];
    }
  }

  lemma Wraps(a: int, b: int, d: int)
    requires a == b % U64_LIMIT
    ensures (a + d) % U64_LIMIT == (b + d) % U64_LIMIT
  {
  }

  /** What one event adds to the history. */
  lemma HistoryLast(es: seq<Event>, p: Pid, start: u64, stop: u64, ran: int)
    requires es != []
    ensures var n := |es| - 1;
            var start', stop', ran' := LastStart(es[..n], p, start), LastStop(es[..n], p, stop),
                                       Ran(es[..n], p, ran, start);
            && LastStart(es, p, start) == LastStart([es[n]], p, start')
            && LastStop(es, p, stop) == LastStop([es[n]], p, stop')
            && Ran(es, p, ran, start) == Ran([es[n]], p, ran', start')
  {
    assert [es[|es| - 1]][..0] == [];
  }

  /** In every run of the kernel: the start and stop times of an ordinary task are those of its last
      events, and its run time is, in a 64-bit word, the time it ran since it last became runnable. */
  lemma {:induction false} TimesFollowEvents(k: KState, es: seq<Event>, p: Pid)
    requires p in k.tasks && p != k.cfg.usersched && Delivered(k, es)
    ensures var t, k' := k.tasks[p], Steps(k, es);
            && k'.cfg == k.cfg && p in k'.tasks
            && k'.tasks[p].startTs == LastStart(es, p, t.startTs)
            && k'.tasks[p].stopTs == LastStop(es, p, t.stopTs)
            && k'.tasks[p].execRuntime == Ran(es, p, t.execRuntime, t.startTs) % U64_LIMIT
    decreases |es|
  {
    if es != [] {
      hide Step, Enabled, LastStart, LastStop, Ran;
      var n, t := |es| - 1, k.tasks[p];
      DeliveredLast(k, es);
      TimesFollowEvents(k, es[..n], p);
      var k1 := Steps(k, es[..n]);
      StepCfg(k1, es[n]);
      StepTimes(k1, es[n], p);
      HistoryLast(es, p, t.startTs, t.stopTs, t.execRuntime);
      RanWraps(es[n], p, k1.tasks[p].execRuntime, Ran(es[..n], p, t.execRuntime, t.startTs), k1.tasks[p].startTs);
    }
  }

  lemma RanWraps(e: Event, p: Pid, a: int, b: int, start: u64)
    requires a == b % U64_LIMIT
    ensures Ran([e], p, a, start) % U64_LIMIT == Ran([e], p, b, start) % U64_LIMIT
  {
    assert [e][..0] == [];
    if e.Stopping? { Wraps(a, b, e.now - start); }
    Wraps(a, b, 0);
  }

  /** A task that was moved to a CPU runs there, and that CPU is its own from then on. */
  lemma RunsWhereMoved(k: KState, p: Pid, now: u64)
    requires Enabled(k, Running(p, now))
    ensures var t, t' := k.tasks[p], Step(k, Running(p, now)).tasks[p];
            t'.place == OnCpu && Local(t'.cpu) == t.place && t'.allowed == t.allowed && t'.enqCnt == t.enqCnt
    ensures var t, k' := k.tasks[p], Step(k, Running(p, now)); k'.tasks.Keys == k.tasks.Keys && k'.dsqs == k.dsqs
  {
  }
}
