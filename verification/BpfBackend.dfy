/** The BPF side and its user-space wrapper as the object both work on: every callback and
    ring operation changes the maps and counters in place, exactly as `Kernel` specifies. */
module BpfBackend {
  import opened Types
  import opened Kernel
  import KernelInvariant

  class Bpf {
    const cfg: Config
    var tasks: map<Pid, Task>
    var queued: seq<QueuedTask>
    var dispatched: seq<DispatchedTask>
    var dsqs: map<int, seq<Entry>>
    var nrQueued: nat
    var nrScheduled: nat
    var needed: bool
    var nrUser: nat
    var nrKernel: nat
    var nrCancel: nat
    var nrBounce: nat
    var nrCongested: nat
    var fault: bool
    /** Free slots of the running `ops.dispatch()`. */
    var slots: nat
    ghost var handed: seq<QueuedTask>
    ghost var drained: seq<Drained>

    ghost function View(): KState
      reads this
    {
      KState(cfg, tasks, queued, dispatched, dsqs, nrQueued, nrScheduled, needed, nrUser, nrKernel,
             nrCancel, nrBounce, nrCongested, fault, handed, drained)
    }

    constructor (cfg: Config)
      ensures View() == Init(cfg) && this.cfg == cfg
    {
      this.cfg := cfg;
      tasks, queued, dispatched := map[], [], [];
      dsqs := map d | 0 <= d <= SCHED_DSQ && IsDsq(cfg.nrCpus, d) :: [];
      nrQueued, nrScheduled, needed := 0, 0, false;
      nrUser, nrKernel, nrCancel, nrBounce, nrCongested := 0, 0, 0, 0, 0;
      fault, slots := false, 0;
      handed, drained := [], [];
    }

    // ---- kernel services ----------------------------------------------------------

    method InsertVtime(pid: Pid, d: int, vtime: u64)
      requires pid in tasks
      modifies this
      ensures View() == PutOnDsq(old(View()), pid, d, vtime) && slots == old(slots)
    {
      if d !in dsqs {
        fault := true;
      } else {
        dsqs := dsqs[d := VtimeInsert(dsqs[d], Entry(pid, vtime))];
        tasks := tasks[pid := tasks[pid].(place := InDsq(d), dsqVtime := vtime)];
      }
    }

    method Insert(pid: Pid, d: int)
      requires pid in tasks && d == SCHED_DSQ
      modifies this
      ensures View() == EnqueueSched(old(View()), pid) && slots == old(slots)
    {
      if d !in dsqs {
        fault := true;
      } else {
        dsqs := dsqs[d := dsqs[d] + [Entry(pid, tasks[pid].dsqVtime)]];
        tasks := tasks[pid := tasks[pid].(place := InDsq(d))];
      }
    }

    method DsqOfCpu(cpu: Cpu) returns (d: int)
      modifies this`fault
      ensures d == CpuToDsq(cpu) && fault == (old(fault) || !(0 <= cpu < MAX_CPUS))
    {
      if cpu < 0 || cpu >= MAX_CPUS {
        fault := true;
        return SHARED_DSQ;
      }
      return cpu;
    }

    method QueueIsEmpty(d: int) returns (empty: bool)
      ensures empty == (DsqLen(View(), d) == 0)
    {
      empty := d !in dsqs || |dsqs[d]| == 0;
    }

    method MayDispatchDirectly(cpu: Cpu) returns (ok: bool)
      ensures ok == CanDirectDispatch(View(), cpu)
    {
      var shared := QueueIsEmpty(SHARED_DSQ);
      var own := QueueIsEmpty(CpuToDsq(cpu));
      ok := shared && own;
    }

    method MoveFirstToLocal(d: int, cpu: Cpu) returns (moved: bool)
      modifies this
      ensures moved == CanMove(old(View()), d, cpu) && slots == old(slots)
      ensures View() == if moved then MoveToLocal(old(View()), d, cpu) else old(View())
    {
      if d !in dsqs { return false; }
      var q, i := dsqs[d], 0;
      while i < |q| && !(q[i].pid in tasks && cpu in tasks[q[i].pid].allowed)
        invariant 0 <= i <= |q|
        invariant forall j :: 0 <= j < i ==> !MayRunOn(View(), q[j].pid, cpu)
      {
        i := i + 1;
      }
      assert FirstRunnable(View(), q, cpu) == i;
      if i == |q| { return false; }
      var pid := q[i].pid;
      dsqs := dsqs[d := q[..i] + q[i + 1..]];
      tasks := tasks[pid := tasks[pid].(place := Local(cpu))];
      return true;
    }

    // ---- ops.select_cpu, ops.enqueue -------------------------------------------------

    /** The usable CPU closest to the request, by a scan of the mask when neither fits. */
    method ChooseCpu(t: Task, prevCpu: Cpu, thisCpu: Cpu) returns (cpu: Cpu)
      ensures cpu == UsableCpu(View(), t, prevCpu, thisCpu)
    {
      if prevCpu in t.allowed { return prevCpu; }
      if thisCpu in t.allowed { return thisCpu; }
      var c: nat := 0;
      while c < cfg.nrCpus && c !in t.allowed
        invariant c <= cfg.nrCpus && FirstCpu(t.allowed, c, cfg.nrCpus) == FirstCpu(t.allowed, 0, cfg.nrCpus)
      {
        c := c + 1;
      }
      cpu := c;
    }

    method RustlandSelectCpu(pid: Pid, prevCpu: Cpu, thisCpu: Cpu, picked: int)
      requires pid in tasks
      modifies this
      ensures View() == SelectCpu(old(View()), pid, prevCpu, thisCpu, picked) && slots == old(slots)
    {
      var usable := ChooseCpu(tasks[pid], prevCpu, thisCpu);
      if pid == cfg.usersched || !cfg.builtinIdle {
        tasks := tasks[pid := tasks[pid].(cpu := usable)];
        return;
      }
      if picked >= 0 {
        tasks := tasks[pid := tasks[pid].(cpu := picked)];
        var direct := MayDispatchDirectly(picked);
        if direct { InsertDirectly(pid, picked); }
        return;
      }
      tasks := tasks[pid := tasks[pid].(cpu := usable)];
    }

    method QueueTaskToUserspace(pid: Pid, prevCpu: Cpu, flags: u64)
      requires pid in tasks
      modifies this
      ensures View() == QueueToUser(old(View()), pid, prevCpu, flags) && slots == old(slots)
    {
      if |queued| >= cfg.queuedCap {
        nrCongested := nrCongested + 1;
        nrKernel := nrKernel + 1;
        InsertVtime(pid, SHARED_DSQ, tasks[pid].dsqVtime);
        return;
      }
      var t := tasks[pid];
      var cnt := t.enqCnt + 1;
      tasks := tasks[pid := t.(enqCnt := cnt, place := Owned(true))];
      var rec := TaskInfo(pid, t, prevCpu, flags, cnt);
      queued := queued + [rec];
      handed := handed + [rec];
      nrQueued := nrQueued + 1;
    }

    method InsertDirectly(pid: Pid, cpu: Cpu)
      requires pid in tasks
      modifies this
      ensures View() == DirectDispatch(old(View()), pid, cpu) && slots == old(slots)
    {
      nrKernel := nrKernel + 1;
      var d := DsqOfCpu(cpu);
      InsertVtime(pid, d, tasks[pid].dsqVtime);
    }

    method RustlandEnqueue(pid: Pid, flags: u64, wakeup: bool, picked: int)
      requires pid in tasks
      modifies this
      ensures View() == Enqueue(old(View()), pid, flags, wakeup, picked) && slots == old(slots)
    {
      var t := tasks[pid];
      if pid == cfg.usersched { Insert(pid, SCHED_DSQ); return; }
      if (t.kthread && |t.allowed| == 1) || t.kswapd || (cfg.khugepaged != 0 && pid == cfg.khugepaged) {
        InsertDirectly(pid, t.cpu);
        return;
      }
      if !(cfg.builtinIdle && wakeup) { QueueTaskToUserspace(pid, t.cpu, flags); return; }
      if picked < 0 { QueueTaskToUserspace(pid, t.cpu, flags); return; }
      var direct := MayDispatchDirectly(picked);
      if !direct { QueueTaskToUserspace(pid, picked, flags); return; }
      if picked !in t.allowed {
        tasks := tasks[pid := t.(place := Owned(false))];
        return;
      }
      InsertDirectly(pid, picked);
    }

    // ---- ops.dispatch -------------------------------------------------------------------

    /** The buffered insert takes effect only for a task the BPF scheduler owns. */
    method CommitInsert(r: DispatchedTask, d: int)
      requires r.pid in tasks
      modifies this
      ensures View() == Commit(old(View()), r, d) && slots == old(slots)
    {
      var t := tasks[r.pid];
      if t.place.Owned? {
        InsertVtime(r.pid, d, r.vtime);
        drained := drained + [Drained(r, Placed(d, !t.place.record))];
      } else {
        drained := drained + [Drained(r, Refused)];
      }
    }

    /** Reserve a slot for an insert with the record's key. */
    method BufferInsert(r: DispatchedTask)
      requires r.pid in tasks
      modifies this
      ensures View() == Buffer(old(View()), r, old(slots))
      ensures slots == if old(slots) == 0 then 0 else old(slots) - 1
    {
      tasks := tasks[r.pid := tasks[r.pid].(dsqVtime := r.vtime)];
      if slots == 0 { fault := true; } else { slots := slots - 1; }
    }

    /** The DSQ of the CPU the record asks for, or of the task's own CPU when its affinity
        forbids that one; either way the dispatch is counted. */
    method TargetDsq(r: DispatchedTask) returns (d: int)
      requires r.pid in tasks
      modifies this`nrUser, this`nrBounce, this`fault
      ensures View() == Count(old(View()), r) && d == CpuToDsq(TargetCpu(old(View()), r))
      ensures 0 <= r.cpu < MAX_CPUS && r.cpu in tasks[r.pid].allowed ==> d == r.cpu
      ensures 0 <= tasks[r.pid].cpu < MAX_CPUS && r.cpu !in tasks[r.pid].allowed ==> d == tasks[r.pid].cpu
    {
      var cpu := r.cpu;
      if r.cpu !in tasks[r.pid].allowed {
        cpu := tasks[r.pid].cpu;
        nrBounce := nrBounce + 1;
      } else {
        nrUser := nrUser + 1;
      }
      d := DsqOfCpu(cpu);
    }

    method DispatchTaskRecord(r: DispatchedTask)
      modifies this
      ensures (View(), slots) == HandleRecord(old(View()), r, old(slots))
    {
      if r.pid !in tasks || !tasks[r.pid].alive {
        drained := drained + [Drained(r, Vanished)];
        return;
      }
      if r.cpu == RL_CPU_ANY {
        BufferInsert(r);
        CommitInsert(r, SHARED_DSQ);
        return;
      }
      var before := slots;
      var d := TargetDsq(r);
      BufferInsert(r);
      if tasks[r.pid].enqCnt > r.enqCnt {
        slots := before;
        nrCancel := nrCancel + 1;
        drained := drained + [Drained(r, Cancelled)];
        return;
      }
      CommitInsert(r, d);
    }

    /** The drain callback. A sample too short to hold a record is skipped; the drain stops
        when the current dispatch has no slots left. */
    method HandleDispatchedTask(sample: Option<DispatchedTask>) returns (stop: bool)
      modifies this
      ensures sample.None? ==> !stop && View() == old(View()) && slots == old(slots)
      ensures sample.Some? ==>
                (View(), slots) == HandleRecord(old(View()), sample.value, old(slots)) && stop == (slots == 0)
    {
      if sample.None? { return false; }
      DispatchTaskRecord(sample.value);
      return slots == 0;
    }

    /** `bpf_user_ringbuf_drain` over the callback. */
    method DrainDispatched()
      modifies this
      ensures (View(), slots) == Drain(old(View()), old(slots))
    {
      var stop := false;
      while !stop && dispatched != []
        invariant stop ==> slots == 0
        invariant Drain(old(View()), old(slots)) == if stop then (View(), slots) else Drain(View(), slots)
        decreases |dispatched|, !stop
      {
        var r := dispatched[0];
        dispatched := dispatched[1..];
        label popped:
        stop := HandleDispatchedTask(Some(r));
        KernelInvariant.HandleFrame(old@popped(View()), r, old@popped(slots));
      }
    }

    /** Drain, then give the CPU the user-space scheduler if it has work, or a task. */
    method RustlandDispatch(cpu: Cpu)
      modifies this
      ensures View() == Dispatch(old(View()), cpu)
    {
      slots := MAX_DISPATCH_SLOT;
      DrainDispatched();
      var pending := needed || nrScheduled > 0 || queued != [];
      needed := false;
      if pending {
        var moved := MoveFirstToLocal(SCHED_DSQ, cpu);
        if moved { return; }
      }
      var own := MoveFirstToLocal(CpuToDsq(cpu), cpu);
      if own { return; }
      var shared := MoveFirstToLocal(SHARED_DSQ, cpu);
    }

    // ---- the user-space calls on the rings ---------------------------------------------

    /** The oldest queued record, nothing, or the ring's error. */
    method DequeueTask(fail: bool) returns (ok: bool, task: Option<QueuedTask>)
      modifies this
      ensures ok == !fail && slots == old(slots)
      ensures View() == if fail then old(View()) else TakeQueued(old(View()))
      ensures task == if fail || old(queued) == [] then None else Some(old(queued)[0])
    {
      if fail { return false, None; }
      if queued == [] {
        nrQueued := 0;
        return true, None;
      }
      task := Some(queued[0]);
      queued := queued[1..];
      if nrQueued > 0 { nrQueued := nrQueued - 1; }
      ok := true;
    }

    /** Submit one record unless no space can be reserved. */
    method DispatchTask(task: DispatchedTask, fail: bool) returns (ok: bool)
      modifies this
      ensures ok == CanSubmit(old(View()), fail) && slots == old(slots)
      ensures View() == Submit(old(View()), task, fail)
    {
      if fail || |dispatched| >= cfg.dispatchedCap { return false; }
      dispatched := dispatched + [task];
      return true;
    }

    method NotifyCompletion(pending: nat)
      modifies this
      ensures View() == NotifyComplete(old(View()), pending) && slots == old(slots)
      ensures nrScheduled == pending
    {
      nrScheduled := pending;
    }

    // ---- everything the kernel may do between two user-space calls ---------------------------

    method Deliver(e: Event)
      modifies this
      ensures View() == Step(old(View()), e)
    {
      if !Deliverable(cfg, tasks, e) { return; }
      match e
      case SelectCpuEv(pid, prevCpu, thisCpu, picked) => RustlandSelectCpu(pid, prevCpu, thisCpu, picked);
      case EnqueueEv(pid, flags, wakeup, picked) => RustlandEnqueue(pid, flags, wakeup, picked);
      case DispatchEv(cpu) => RustlandDispatch(cpu);
      case Timer(inactive) =>
        if inactive && cfg.usersched in tasks && tasks[cfg.usersched].alive { needed := true; }
      case Dequeue(pid) =>
        var t := tasks[pid];
        if t.place.InDsq? && t.place.id in dsqs {
          dsqs := dsqs[t.place.id := Without(dsqs[t.place.id], pid)];
        }
        tasks := tasks[pid := t.(place := Off)];
      case _ => DeliverToTask(e);
    }

    /** The events that touch one task only. */
    method DeliverToTask(e: Event)
      requires Enabled(View(), e)
      requires
        || e.Create? || e.Exit? || e.Enable? || e.Disable?
        || e.SetAffinity? || e.Runnable? || e.Running? || e.Stopping?
      modifies this`tasks
      ensures View() == Step(old(View()), e)
    {
      match e
      case Create(pid, t) => tasks := tasks[pid := t];
      case Exit(pid) => tasks := tasks[pid := tasks[pid].(alive := false)];
      case Enable(pid) => tasks := tasks[pid := tasks[pid].(enabled := true, dsqVtime := 0)];
      case Disable(pid, v) => tasks := tasks[pid := tasks[pid].(enabled := false, dsqVtime := v)];
      case SetAffinity(pid, allowed) => tasks := tasks[pid := tasks[pid].(allowed := allowed)];
      case Runnable(pid) =>
        if pid != cfg.usersched { tasks := tasks[pid := tasks[pid].(execRuntime := 0)]; }
      case Running(pid, now) =>
        var t := tasks[pid].(cpu := tasks[pid].place.cpu, place := OnCpu);
        if pid == cfg.usersched { tasks := tasks[pid := t]; }
        else { tasks := tasks[pid := t.(startTs := now)]; }
      case Stopping(pid, now) =>
        var t := tasks[pid].(place := Off);
        if pid == cfg.usersched { tasks := tasks[pid := t]; }
        else {
          tasks := tasks[pid := t.(stopTs := now, execRuntime := (t.execRuntime + now - t.startTs) % U64_LIMIT)];
        }
    }

    method DeliverAll(es: seq<Event>)
      modifies this
      ensures View() == Steps(old(View()), es)
    {
      var i := 0;
      while i < |es|
        invariant 0 <= i <= |es|
        invariant Steps(old(View()), es) == Steps(View(), es[i..])
      {
        Deliver(es[i]);
        assert es[i..][1..] == es[i + 1..];
        i := i + 1;
      }
    }
  }
}
