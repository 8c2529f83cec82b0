/** What every kernel event keeps: queues and tasks agree, keys stay zero, CPUs stay valid,
    and generations number the hand-offs of each task. */
module KernelInvariant {
  import opened Types
  import opened Kernel

  type Tasks = map<Pid, Task>
  type Queues = map<int, seq<Entry>>

  predicate ValidConfig(cfg: Config) {
    1 <= cfg.nrCpus <= MAX_CPUS
  }

  ghost predicate DomainOk(cfg: Config, dsqs: Queues) {
    ValidConfig(cfg) && forall d :: d in dsqs <==> IsDsq(cfg.nrCpus, d)
  }

  predicate TaskOk(n: nat, t: Task) {
    && 0 <= t.cpu < n && CpuSet(n, t.allowed)
    && (t.place.Local? ==> 0 <= t.place.cpu < n)
    && (t.place.InDsq? ==> IsDsq(n, t.place.id))
    && (!t.place.Off? ==> t.alive && t.enabled)
    && (t.enabled ==> t.dsqVtime == 0)
    && (t.place == Owned(true) ==> t.enqCnt >= 1)
  }

  ghost predicate TasksOk(n: nat, tasks: Tasks) {
    forall p :: p in tasks ==> TaskOk(n, tasks[p])
  }

  predicate Holds(q: seq<Entry>, pid: Pid) {
    exists i :: 0 <= i < |q| && q[i].pid == pid
  }

  predicate DistinctPids(q: seq<Entry>) {
    forall i, j :: 0 <= i < j < |q| ==> q[i].pid != q[j].pid
  }

  predicate ZeroKeys(q: seq<Entry>) {
    forall i :: 0 <= i < |q| ==> q[i].vtime == 0
  }

  predicate PlacedOn(tasks: Tasks, p: Pid, d: int) {
    p in tasks && tasks[p].place == InDsq(d)
  }

  /** A queue holds exactly the tasks placed on it, once each, with key zero. */
  ghost predicate QueueOk(tasks: Tasks, d: int, q: seq<Entry>) {
    && DistinctPids(q) && ZeroKeys(q)
    && forall p :: Holds(q, p) <==> PlacedOn(tasks, p, d)
  }

  ghost predicate QueuesOk(tasks: Tasks, dsqs: Queues) {
    forall d :: d in dsqs ==> QueueOk(tasks, d, dsqs[d])
  }

  /** A record names a known task, a valid CPU and a generation that task has reached. */
  predicate RecOk(n: nat, tasks: Tasks, pid: Pid, cpu: Cpu, cnt: nat) {
    pid in tasks && 0 <= cpu < n && 1 <= cnt <= tasks[pid].enqCnt
  }

  predicate DispatchOk(n: nat, tasks: Tasks, r: DispatchedTask) {
    RecOk(n, tasks, r.pid, r.cpu, r.enqCnt) && r.vtime == 0
  }

  ghost predicate HandedOk(n: nat, tasks: Tasks, h: seq<QueuedTask>) {
    forall i :: 0 <= i < |h| ==> RecOk(n, tasks, h[i].pid, h[i].cpu, h[i].enqCnt)
  }

  ghost predicate DispatchedOk(n: nat, tasks: Tasks, ds: seq<DispatchedTask>) {
    forall i :: 0 <= i < |ds| ==> DispatchOk(n, tasks, ds[i])
  }

  ghost predicate DrainedOk(n: nat, tasks: Tasks, ds: seq<Drained>) {
    forall i :: 0 <= i < |ds| ==> DispatchOk(n, tasks, ds[i].rec)
  }

  predicate IsTail(queued: seq<QueuedTask>, handed: seq<QueuedTask>) {
    |queued| <= |handed| && queued == handed[|handed| - |queued|..]
  }

  function HandOffs(h: seq<QueuedTask>, pid: Pid): nat {
    if h == [] then 0 else HandOffs(h[..|h| - 1], pid) + if h[|h| - 1].pid == pid then 1 else 0
  }

  /** The records of each task carry the generations 1, 2, 3, ... in hand-off order. */
  ghost predicate Numbered(h: seq<QueuedTask>) {
    forall i {:trigger NumberedAt(h, i)} :: 0 <= i < |h| ==> NumberedAt(h, i)
  }

  predicate NumberedAt(h: seq<QueuedTask>, i: nat)
    requires i < |h|
  {
    h[i].enqCnt == HandOffs(h[..i], h[i].pid) + 1
  }

  ghost predicate CountersMatch(tasks: Tasks, h: seq<QueuedTask>) {
    forall p :: HandOffs(h, p) == if p in tasks then tasks[p].enqCnt else 0
  }

  /** While a task waits for user space, the record of its current generation is undrained. */
  predicate Superseded(tasks: Tasks, r: DispatchedTask) {
    r.pid in tasks && tasks[r.pid].place == Owned(true) ==> r.enqCnt < tasks[r.pid].enqCnt
  }

  ghost predicate OwnershipOk(tasks: Tasks, ds: seq<Drained>) {
    forall i :: 0 <= i < |ds| ==> Superseded(tasks, ds[i].rec)
  }

  function VanishedCount(ds: seq<Drained>): nat {
    if ds == [] then 0 else VanishedCount(ds[..|ds| - 1]) + if ds[|ds| - 1].fate.Vanished? then 1 else 0
  }

  function CancelledCount(ds: seq<Drained>): nat {
    if ds == [] then 0 else CancelledCount(ds[..|ds| - 1]) + if ds[|ds| - 1].fate.Cancelled? then 1 else 0
  }

  ghost predicate CountsOk(k: KState) {
    && k.nrQueued == |k.queued|
    && k.nrUser + k.nrBounce + VanishedCount(k.drained) == |k.drained|
    && k.nrCancel == CancelledCount(k.drained)
  }

  /** Everything that speaks of the tasks. */
  ghost predicate TaskInv(n: nat, tasks: Tasks, dsqs: Queues, handed: seq<QueuedTask>,
                          dispatched: seq<DispatchedTask>, drained: seq<Drained>)
  {
    && TasksOk(n, tasks) && QueuesOk(tasks, dsqs)
    && HandedOk(n, tasks, handed) && DispatchedOk(n, tasks, dispatched) && DrainedOk(n, tasks, drained)
    && CountersMatch(tasks, handed) && OwnershipOk(tasks, drained)
  }

  ghost predicate KInv(k: KState) {
    && DomainOk(k.cfg, k.dsqs) && !k.fault
    && TaskInv(k.cfg.nrCpus, k.tasks, k.dsqs, k.handed, k.dispatched, k.drained)
    && IsTail(k.queued, k.handed) && Numbered(k.handed) && CountsOk(k)
  }

  lemma {:induction false} InitInv(cfg: Config)
    requires ValidConfig(cfg)
    ensures KInv(Init(cfg))
  {
  }

  // ---- queues ---------------------------------------------------------------------

  /** With all keys zero an insert by key is an append. */
  lemma {:induction false} ZeroKeyInsertAppends(q: seq<Entry>, e: Entry)
    requires ZeroKeys(q) && e.vtime == 0
    ensures VtimeInsert(q, e) == q + [e]
  {
    if q != [] {
      ZeroKeyInsertAppends(q[1..], e);
      assert q == [q[0]] + q[1..];
    }
  }

  lemma {:induction false} AppendQueueOk(tasks: Tasks, d: int, q: seq<Entry>, e: Entry, t: Task)
    requires QueueOk(tasks, d, q) && e.vtime == 0 && !PlacedOn(tasks, e.pid, d) && t.place == InDsq(d)
    ensures QueueOk(tasks[e.pid := t], d, q + [e])
  {
    var q', tasks' := q + [e], tasks[e.pid := t];
    assert !Holds(q, e.pid);
    forall p ensures Holds(q', p) <==> PlacedOn(tasks', p, d) {
      if Holds(q, p) {
        var i :| 0 <= i < |q| && q[i].pid == p;
        assert q'[i].pid == p;
      }
      if e.pid == p { assert q'[|q|].pid == p; }
    }
  }

  lemma {:induction false} RemoveQueueOk(tasks: Tasks, d: int, q: seq<Entry>, i: nat, t: Task)
    requires i < |q| && QueueOk(tasks, d, q) && t.place != InDsq(d)
    ensures QueueOk(tasks[q[i].pid := t], d, q[..i] + q[i + 1..])
  {
    var r, tasks' := q[..i] + q[i + 1..], tasks[q[i].pid := t];
    forall p ensures Holds(r, p) <==> PlacedOn(tasks', p, d) {
      if Holds(q, p) && q[i].pid != p {
        var j :| 0 <= j < |q| && q[j].pid == p;
        if j < i { assert r[j].pid == p; } else { assert r[j - 1].pid == p; }
      }
      if Holds(r, p) {
        var j :| 0 <= j < |r| && r[j].pid == p;
        if j < i { assert q[j].pid == p; } else { assert q[j + 1].pid == p; }
      }
    }
  }

  /** A task that is and was not on queue `d` may change without touching that queue. */
  lemma {:induction false} OtherQueueOk(tasks: Tasks, d: int, q: seq<Entry>, pid: Pid, t: Task)
    requires QueueOk(tasks, d, q)
    requires PlacedOn(tasks, pid, d) <==> t.place == InDsq(d)
    ensures QueueOk(tasks[pid := t], d, q)
  {
    var tasks' := tasks[pid := t];
    forall p ensures Holds(q, p) <==> PlacedOn(tasks', p, d) {
      assert PlacedOn(tasks', p, d) <==> PlacedOn(tasks, p, d);
    }
  }

  lemma {:induction false} WithoutIsRemoval(q: seq<Entry>, pid: Pid) returns (i: nat)
    requires Holds(q, pid)
    ensures i < |q| && q[i].pid == pid && Without(q, pid) == q[..i] + q[i + 1..]
  {
    if q[0].pid == pid { i := 0; }
    else {
      var j :| 0 <= j < |q| && q[j].pid == pid;
      assert q[1..][j - 1].pid == pid;
      var m := WithoutIsRemoval(q[1..], pid);
      i := m + 1;
      assert q[..i] == [q[0]] + q[1..][..m];
    }
  }

  // ---- one task changes -------------------------------------------------------------

  function Gen(tasks: Tasks, pid: Pid): nat {
    if pid in tasks then tasks[pid].enqCnt else 0
  }

  /** The change keeps the task's generation and does not hand it to user space. */
  predicate KeepsGeneration(tasks: Tasks, pid: Pid, t: Task) {
    && t.enqCnt == Gen(tasks, pid)
    && (t.place == Owned(true) ==> pid in tasks && tasks[pid].place == Owned(true))
  }

  lemma {:induction false} RecordsSurvive(n: nat, tasks: Tasks, pid: Pid, t: Task, handed: seq<QueuedTask>,
                                          dispatched: seq<DispatchedTask>, drained: seq<Drained>)
    requires HandedOk(n, tasks, handed) && DispatchedOk(n, tasks, dispatched) && DrainedOk(n, tasks, drained)
    requires Gen(tasks, pid) <= t.enqCnt
    ensures var tasks' := tasks[pid := t];
            HandedOk(n, tasks', handed) && DispatchedOk(n, tasks', dispatched) && DrainedOk(n, tasks', drained)
  {
  }

  /** All of `TaskInv` but the queues survives a change that keeps the generation. */
  lemma {:induction false} TaskChange(k: KState, pid: Pid, t: Task, dsqs: Queues)
    requires KInv(k) && TaskOk(k.cfg.nrCpus, t) && KeepsGeneration(k.tasks, pid, t)
    requires QueuesOk(k.tasks[pid := t], dsqs)
    ensures TaskInv(k.cfg.nrCpus, k.tasks[pid := t], dsqs, k.handed, k.dispatched, k.drained)
  {
    RecordsSurvive(k.cfg.nrCpus, k.tasks, pid, t, k.handed, k.dispatched, k.drained);
    var tasks' := k.tasks[pid := t];
    forall p ensures HandOffs(k.handed, p) == Gen(tasks', p) {
      assert HandOffs(k.handed, p) == Gen(k.tasks, p);
    }
  }

  lemma {:induction false} SetTaskInv(k: KState, pid: Pid, t: Task)
    requires KInv(k) && TaskOk(k.cfg.nrCpus, t) && KeepsGeneration(k.tasks, pid, t)
    requires forall d :: PlacedOn(k.tasks, pid, d) <==> t.place == InDsq(d)
    ensures KInv(SetTask(k, pid, t))
  {
    forall d | d in k.dsqs ensures QueueOk(k.tasks[pid := t], d, k.dsqs[d]) {
      assert QueueOk(k.tasks, d, k.dsqs[d]);
      OtherQueueOk(k.tasks, d, k.dsqs[d], pid, t);
    }
    TaskChange(k, pid, t, k.dsqs);
  }

  lemma {:induction false} KnownTask(k: KState, pid: Pid)
    requires KInv(k) && pid in k.tasks
    ensures TaskOk(k.cfg.nrCpus, k.tasks[pid])
    ensures ValidConfig(k.cfg) && !k.fault
  {
  }

  lemma {:induction false} PutInv(k: KState, pid: Pid, d: int)
    requires KInv(k) && Alive(k, pid) && k.tasks[pid].enabled && !k.tasks[pid].place.InDsq?
    requires IsDsq(k.cfg.nrCpus, d)
    ensures KInv(PutOnDsq(k, pid, d, 0))
  {
    var q, t := k.dsqs[d], k.tasks[pid].(place := InDsq(d), dsqVtime := 0);
    var k' := PutOnDsq(k, pid, d, 0);
    assert QueueOk(k.tasks, d, q);
    ZeroKeyInsertAppends(q, Entry(pid, 0));
    forall d' | d' in k'.dsqs ensures QueueOk(k'.tasks, d', k'.dsqs[d']) {
      assert QueueOk(k.tasks, d', k.dsqs[d']);
      if d' == d { AppendQueueOk(k.tasks, d, q, Entry(pid, 0), t); }
      else { OtherQueueOk(k.tasks, d', k.dsqs[d'], pid, t); }
    }
    TaskChange(k, pid, t, k'.dsqs);
  }

  lemma {:induction false} EnqueueSchedInv(k: KState, pid: Pid)
    requires KInv(k) && Parked(k, pid) && k.tasks[pid].enabled
    ensures KInv(EnqueueSched(k, pid))
  {
    assert QueueOk(k.tasks, SCHED_DSQ, k.dsqs[SCHED_DSQ]);
    assert TaskOk(k.cfg.nrCpus, k.tasks[pid]);
    ZeroKeyInsertAppends(k.dsqs[SCHED_DSQ], Entry(pid, 0));
    PutInv(k, pid, SCHED_DSQ);
    assert EnqueueSched(k, pid).tasks == PutOnDsq(k, pid, SCHED_DSQ, 0).tasks;
  }

  lemma {:induction false} DequeueInv(k: KState, pid: Pid)
    requires KInv(k) && Alive(k, pid)
    ensures KInv(DequeueTask(k, pid))
  {
    var t := k.tasks[pid];
    var t' := t.(place := Off);
    var k' := DequeueTask(k, pid);
    assert TaskOk(k.cfg.nrCpus, t);
    forall d | d in k'.dsqs ensures QueueOk(k'.tasks, d, k'.dsqs[d]) {
      var q := k.dsqs[d];
      assert QueueOk(k.tasks, d, q);
      if t.place == InDsq(d) {
        assert PlacedOn(k.tasks, pid, d);
        var i := WithoutIsRemoval(q, pid);
        RemoveQueueOk(k.tasks, d, q, i, t');
      } else {
        OtherQueueOk(k.tasks, d, q, pid, t');
      }
    }
    TaskChange(k, pid, t', k'.dsqs);
  }

  lemma {:induction false} MoveInv(k: KState, d: int, cpu: Cpu)
    requires KInv(k) && CanMove(k, d, cpu) && 0 <= cpu < k.cfg.nrCpus
    ensures KInv(MoveToLocal(k, d, cpu))
  {
    var k' := MoveToLocal(k, d, cpu);
    var q := k.dsqs[d];
    var i := FirstRunnable(k, q, cpu);
    var pid := q[i].pid;
    var t' := k.tasks[pid].(place := Local(cpu));
    assert QueueOk(k.tasks, d, q);
    assert Holds(q, pid);
    assert PlacedOn(k.tasks, pid, d);
    assert TaskOk(k.cfg.nrCpus, k.tasks[pid]);
    forall d' | d' in k'.dsqs ensures QueueOk(k'.tasks, d', k'.dsqs[d']) {
      assert QueueOk(k.tasks, d', k.dsqs[d']);
      if d' == d { RemoveQueueOk(k.tasks, d, q, i, t'); }
      else { OtherQueueOk(k.tasks, d', k.dsqs[d'], pid, t'); }
    }
    TaskChange(k, pid, t', k'.dsqs);
  }

  // ---- handing a task to user space ----------------------------------------------------

  lemma {:induction false} HandOffsAppend(h: seq<QueuedTask>, r: QueuedTask)
    ensures forall p :: HandOffs(h + [r], p) == HandOffs(h, p) + if r.pid == p then 1 else 0
  {
    assert (h + [r])[..|h|] == h;
  }

  lemma {:induction false} NumberedAppend(h: seq<QueuedTask>, r: QueuedTask)
    requires Numbered(h) && r.enqCnt == HandOffs(h, r.pid) + 1
    ensures Numbered(h + [r])
  {
    var h' := h + [r];
    forall i: nat | i < |h'| ensures NumberedAt(h', i) {
      if i < |h| { assert NumberedAt(h, i); }
      assert h'[..i] == if i < |h| then h[..i] else h;
    }
  }

  lemma {:induction false} HandOffTaskInv(n: nat, tasks: Tasks, dsqs: Queues, handed: seq<QueuedTask>,
      dispatched: seq<DispatchedTask>, drained: seq<Drained>, rec: QueuedTask, t': Task)
    requires TaskInv(n, tasks, dsqs, handed, dispatched, drained)
    requires rec.pid in tasks && tasks[rec.pid].place.Off? && TaskOk(n, t')
    requires rec.enqCnt == t'.enqCnt == tasks[rec.pid].enqCnt + 1 && 0 <= rec.cpu < n && t'.place == Owned(true)
    ensures TaskInv(n, tasks[rec.pid := t'], dsqs, handed + [rec], dispatched, drained)
  {
    var tasks' := tasks[rec.pid := t'];
    RecordsSurvive(n, tasks, rec.pid, t', handed, dispatched, drained);
    forall d | d in dsqs ensures QueueOk(tasks', d, dsqs[d]) {
      assert QueueOk(tasks, d, dsqs[d]);
      OtherQueueOk(tasks, d, dsqs[d], rec.pid, t');
    }
    forall i | 0 <= i < |drained| ensures Superseded(tasks', drained[i].rec) {
      assert DispatchOk(n, tasks, drained[i].rec);
      assert Superseded(tasks, drained[i].rec);
    }
    HandOffsAppend(handed, rec);
    forall p ensures HandOffs(handed + [rec], p) == Gen(tasks', p) {
      assert HandOffs(handed, p) == Gen(tasks, p);
    }
  }

  /** The part of the state a hand-off changes that is not about tasks. */
  lemma {:induction false} NewRecordStream(k: KState, rec: QueuedTask)
    requires KInv(k) && rec.pid in k.tasks && rec.enqCnt == k.tasks[rec.pid].enqCnt + 1
    ensures IsTail(k.queued + [rec], k.handed + [rec]) && Numbered(k.handed + [rec])
  {
    assert HandOffs(k.handed, rec.pid) == Gen(k.tasks, rec.pid);
    NumberedAppend(k.handed, rec);
    TailAppend(k.queued, k.handed, rec);
  }

  lemma {:induction false} NewRecordTasks(k: KState, rec: QueuedTask, t': Task)
    requires KInv(k) && Parked(k, rec.pid) && k.tasks[rec.pid].enabled && 0 <= rec.cpu < k.cfg.nrCpus
    requires t' == k.tasks[rec.pid].(enqCnt := rec.enqCnt, place := Owned(true))
    requires rec.enqCnt == k.tasks[rec.pid].enqCnt + 1
    ensures TaskInv(k.cfg.nrCpus, k.tasks[rec.pid := t'], k.dsqs, k.handed + [rec], k.dispatched, k.drained)
  {
    KnownTask(k, rec.pid);
    assert TaskInv(k.cfg.nrCpus, k.tasks, k.dsqs, k.handed, k.dispatched, k.drained);
    hide TaskInv, KInv;
    HandOffTaskInv(k.cfg.nrCpus, k.tasks, k.dsqs, k.handed, k.dispatched, k.drained, rec, t');
  }

  lemma {:induction false} NewRecordInv(k: KState, pid: Pid, cpu: Cpu, flags: u64)
    requires KInv(k) && Parked(k, pid) && k.tasks[pid].enabled && 0 <= cpu < k.cfg.nrCpus
    requires |k.queued| < k.cfg.queuedCap
    ensures KInv(QueueToUser(k, pid, cpu, flags))
  {
    hide TaskInv, Numbered, IsTail, DomainOk;
    var rec := TaskInfo(pid, k.tasks[pid], cpu, flags, k.tasks[pid].enqCnt + 1);
    NewRecordStream(k, rec);
    NewRecordTasks(k, rec, k.tasks[pid].(enqCnt := rec.enqCnt, place := Owned(true)));
  }

  lemma TailAppend(queued: seq<QueuedTask>, handed: seq<QueuedTask>, r: QueuedTask)
    requires IsTail(queued, handed)
    ensures IsTail(queued + [r], handed + [r])
  {
  }

  lemma {:induction false} QueueToUserInv(k: KState, pid: Pid, cpu: Cpu, flags: u64)
    requires KInv(k) && Parked(k, pid) && k.tasks[pid].enabled && 0 <= cpu < k.cfg.nrCpus
    ensures KInv(QueueToUser(k, pid, cpu, flags))
  {
    if |k.queued| >= k.cfg.queuedCap {
      KnownTask(k, pid);
      PutInv(k.(nrCongested := k.nrCongested + 1, nrKernel := k.nrKernel + 1), pid, SHARED_DSQ);
    } else {
      NewRecordInv(k, pid, cpu, flags);
    }
  }

  lemma {:induction false} DirectInv(k: KState, pid: Pid, cpu: Cpu)
    requires KInv(k) && Parked(k, pid) && k.tasks[pid].enabled && 0 <= cpu < k.cfg.nrCpus
    ensures KInv(DirectDispatch(k, pid, cpu))
  {
    KnownTask(k, pid);
    PutInv(k.(nrKernel := k.nrKernel + 1), pid, cpu);
  }

  lemma {:induction false} FirstCpuInRange(allowed: set<Cpu>, from: nat, n: nat, c: Cpu)
    requires from <= c < n && c in allowed
    ensures FirstCpu(allowed, from, n) < n
    decreases n - from
  {
    if from !in allowed { FirstCpuInRange(allowed, from + 1, n, c); }
  }

  lemma {:induction false} AnyCpu(n: nat, s: set<Cpu>) returns (c: Cpu)
    requires CpuSet(n, s)
    ensures c in s && 0 <= c < n
  {
    c :| c in s;
  }

  lemma {:induction false} SelectCpuInv(k: KState, pid: Pid, prevCpu: Cpu, thisCpu: Cpu, picked: int)
    requires KInv(k) && Enabled(k, SelectCpuEv(pid, prevCpu, thisCpu, picked))
    ensures KInv(SelectCpu(k, pid, prevCpu, thisCpu, picked))
  {
    hide KInv, DirectDispatch;
    var t := k.tasks[pid];
    KnownTask(k, pid);
    var c := AnyCpu(k.cfg.nrCpus, t.allowed);
    FirstCpuInRange(t.allowed, 0, k.cfg.nrCpus, c);
    if pid == k.cfg.usersched || !k.cfg.builtinIdle || picked < 0 {
      SetTaskInv(k, pid, t.(cpu := UsableCpu(k, t, prevCpu, thisCpu)));
    } else {
      SetTaskInv(k, pid, t.(cpu := picked));
      var k1 := SetTask(k, pid, t.(cpu := picked));
      if CanDirectDispatch(k1, picked) { DirectInv(k1, pid, picked); }
    }
  }

  lemma {:induction false} EnqueueInv(k: KState, pid: Pid, flags: u64, wakeup: bool, picked: int)
    requires KInv(k) && Enabled(k, EnqueueEv(pid, flags, wakeup, picked))
    ensures KInv(Enqueue(k, pid, flags, wakeup, picked))
  {
    hide KInv, DirectDispatch, QueueToUser, EnqueueSched, SetTask;
    var t := k.tasks[pid];
    KnownTask(k, pid);
    if pid == k.cfg.usersched { EnqueueSchedInv(k, pid); }
    else if AlwaysDirect(k, pid) { DirectInv(k, pid, t.cpu); }
    else if !(k.cfg.builtinIdle && wakeup) || picked < 0 { QueueToUserInv(k, pid, t.cpu, flags); }
    else if !CanDirectDispatch(k, picked) { QueueToUserInv(k, pid, picked, flags); }
    else if picked !in t.allowed { SetTaskInv(k, pid, t.(place := Owned(false))); }
    else { DirectInv(k, pid, picked); }
  }

  // ---- draining ------------------------------------------------------------------------

  /** Removing the oldest record from @dispatched disturbs nothing. */
  lemma {:induction false} PopDispatchedInv(k: KState)
    requires KInv(k) && k.dispatched != []
    ensures KInv(k.(dispatched := k.dispatched[1..]))
    ensures DispatchOk(k.cfg.nrCpus, k.tasks, k.dispatched[0])
  {
  }

  lemma {:induction false} LogInv(k: KState, r: DispatchedTask, fate: Fate, user: nat, bounce: nat, cancel: nat)
    requires KInv(k) && DispatchOk(k.cfg.nrCpus, k.tasks, r) && Superseded(k.tasks, r)
    requires user + bounce + (if fate.Vanished? then 1 else 0) == k.nrUser + k.nrBounce + 1
    requires cancel == k.nrCancel + if fate.Cancelled? then 1 else 0
    ensures KInv(Log(k.(nrUser := user, nrBounce := bounce, nrCancel := cancel), r, fate))
  {
    var ds := k.drained + [Drained(r, fate)];
    assert ds[..|k.drained|] == k.drained;
  }

  /** The parts of the state a drained record leaves alone, and its log entry. */
  ghost predicate Logged(k: KState, k': KState, r: DispatchedTask) {
    && k'.cfg == k.cfg && k'.dispatched == k.dispatched && k'.queued == k.queued && k'.handed == k.handed
    && k'.nrQueued == k.nrQueued && k'.nrScheduled == k.nrScheduled
    && |k'.drained| == |k.drained| + 1
    && k'.drained == k.drained + [Drained(r, k'.drained[|k.drained|].fate)]
  }

  lemma {:induction false} CommitFrame(k: KState, r: DispatchedTask, d: int)
    requires r.pid in k.tasks
    ensures Logged(k, Commit(k, r, d), r)
  {
  }

  lemma {:induction false} HandleFrame(k: KState, r: DispatchedTask, slots: nat)
    ensures Logged(k, HandleRecord(k, r, slots).0, r)
  {
    if Alive(k, r.pid) {
      if r.cpu == RL_CPU_ANY {
        CommitFrame(Buffer(k, r, slots), r, SHARED_DSQ);
      } else if k.tasks[r.pid].enqCnt <= r.enqCnt {
        CommitFrame(Buffer(Count(k, r), r, slots), r, CpuToDsq(TargetCpu(k, r)));
      }
    }
  }

  lemma {:induction false} CommitInv(k: KState, k0: KState, r: DispatchedTask, d: int, u: nat, b: nat)
    requires KInv(k0) && DispatchOk(k0.cfg.nrCpus, k0.tasks, r) && Alive(k0, r.pid) && IsDsq(k0.cfg.nrCpus, d)
    requires r.enqCnt == k0.tasks[r.pid].enqCnt
    requires u + b == k0.nrUser + k0.nrBounce + 1
    requires k == k0.(nrUser := u, nrBounce := b)
    ensures KInv(Commit(k, r, d))
  {
    var t := k0.tasks[r.pid];
    assert TaskOk(k0.cfg.nrCpus, t);
    if t.place.Owned? {
      PutInv(k0, r.pid, d);
      LogInv(PutOnDsq(k0, r.pid, d, 0), r, Placed(d, !t.place.record), u, b, k0.nrCancel);
    } else {
      LogInv(k0, r, Refused, u, b, k0.nrCancel);
    }
  }

  /** No record drives the drain into an error: its CPU is valid, a slot was free, and the
      any-CPU branch is out of reach. */
  lemma {:induction false} HandleInv(k: KState, r: DispatchedTask, slots: nat)
    requires KInv(k) && DispatchOk(k.cfg.nrCpus, k.tasks, r) && slots >= 1
    ensures r.cpu != RL_CPU_ANY
    ensures KInv(HandleRecord(k, r, slots).0)
  {
    KnownTask(k, r.pid);
    if Alive(k, r.pid) { HandleLiveInv(k, r, slots); }
    else {
      LogInv(k, r, Vanished, k.nrUser, k.nrBounce, k.nrCancel);
    }
  }

  lemma {:induction false} KeyInv(k: KState, pid: Pid)
    requires KInv(k) && Alive(k, pid)
    ensures KInv(SetTask(k, pid, k.tasks[pid].(dsqVtime := 0)))
  {
    KnownTask(k, pid);
    hide KInv;
    SetTaskInv(k, pid, k.tasks[pid].(dsqVtime := 0));
  }

  /** Counting and buffering a record changes the key of its task and two counters. */
  lemma {:induction false} BufferedState(k: KState, r: DispatchedTask, slots: nat)
    requires KInv(k) && DispatchOk(k.cfg.nrCpus, k.tasks, r) && slots >= 1 && Alive(k, r.pid)
    ensures var k0, k1 := SetTask(k, r.pid, k.tasks[r.pid].(dsqVtime := 0)), Buffer(Count(k, r), r, slots);
            && k1 == k0.(nrUser := k1.nrUser, nrBounce := k1.nrBounce)
            && k1.nrUser + k1.nrBounce == k.nrUser + k.nrBounce + 1
    ensures IsDsq(k.cfg.nrCpus, TargetCpu(k, r)) && CpuToDsq(TargetCpu(k, r)) == TargetCpu(k, r)
  {
    KnownTask(k, r.pid);
  }

  lemma {:induction false} CancelInv(k: KState, r: DispatchedTask, u: nat, b: nat)
    requires KInv(k) && DispatchOk(k.cfg.nrCpus, k.tasks, r) && r.enqCnt < k.tasks[r.pid].enqCnt
    requires u + b == k.nrUser + k.nrBounce + 1
    ensures KInv(Log(k.(nrUser := u, nrBounce := b, nrCancel := k.nrCancel + 1), r, Cancelled))
  {
    hide KInv;
    LogInv(k, r, Cancelled, u, b, k.nrCancel + 1);
  }

  lemma {:induction false} HandleLiveInv(k: KState, r: DispatchedTask, slots: nat)
    requires KInv(k) && DispatchOk(k.cfg.nrCpus, k.tasks, r) && slots >= 1 && Alive(k, r.pid)
    ensures KInv(HandleRecord(k, r, slots).0)
  {
    KeyInv(k, r.pid);
    BufferedState(k, r, slots);
    hide KInv, Commit, Log;
    var k0, k1 := SetTask(k, r.pid, k.tasks[r.pid].(dsqVtime := 0)), Buffer(Count(k, r), r, slots);
    if k.tasks[r.pid].enqCnt > r.enqCnt {
      CancelInv(k0, r, k1.nrUser, k1.nrBounce);
    } else {
      CommitInv(k1, k0, r, TargetCpu(k, r), k1.nrUser, k1.nrBounce);
    }
  }

  lemma {:induction false} DrainInv(k: KState, slots: nat)
    requires KInv(k) && slots >= 1
    ensures KInv(Drain(k, slots).0)
    decreases |k.dispatched|
  {
    if k.dispatched != [] {
      PopDispatchedInv(k);
      var k0 := k.(dispatched := k.dispatched[1..]);
      HandleInv(k0, k.dispatched[0], slots);
      HandleFrame(k0, k.dispatched[0], slots);
      var (k1, left) := HandleRecord(k0, k.dispatched[0], slots);
      if left > 0 { DrainInv(k1, left); }
    }
  }

  lemma {:induction false} ConsumeInv(k: KState, cpu: Cpu)
    requires KInv(k) && 0 <= cpu < k.cfg.nrCpus
    ensures KInv(Consume(k, cpu))
  {
    var k1 := k.(needed := false);
    if CanMove(k1, SCHED_DSQ, cpu) { MoveInv(k1, SCHED_DSQ, cpu); }
    if CanMove(k1, CpuToDsq(cpu), cpu) { MoveInv(k1, CpuToDsq(cpu), cpu); }
    if CanMove(k1, SHARED_DSQ, cpu) { MoveInv(k1, SHARED_DSQ, cpu); }
  }

  lemma {:induction false} DispatchInv(k: KState, cpu: Cpu)
    requires KInv(k) && 0 <= cpu < k.cfg.nrCpus
    ensures KInv(Dispatch(k, cpu))
  {
    hide KInv, Drain, Consume;
    DrainInv(k, MAX_DISPATCH_SLOT);
    DrainCfg(k, MAX_DISPATCH_SLOT);
    ConsumeInv(Drain(k, MAX_DISPATCH_SLOT).0, cpu);
  }

  // ---- every event ---------------------------------------------------------------------

  lemma {:induction false} TimerInv(k: KState, inactive: bool)
    requires KInv(k)
    ensures KInv(Step(k, Timer(inactive)))
  {
    hide TaskInv, Numbered, IsTail, DomainOk;
  }

  /** The kernel invariant is kept by every event, with every choice the kernel can make. */
  lemma {:induction false} StepInv(k: KState, e: Event)
    requires KInv(k)
    ensures KInv(Step(k, e))
  {
    hide KInv, Enqueue, SelectCpu, DequeueTask, Dispatch, StartRunning, StopRunning;
    if Enabled(k, e) {
      match e
      case Timer(inactive) => TimerInv(k, inactive);
      case Create(pid, t) => SetTaskInv(k, pid, t);
      case SelectCpuEv(pid, prevCpu, thisCpu, picked) => SelectCpuInv(k, pid, prevCpu, thisCpu, picked);
      case EnqueueEv(pid, flags, wakeup, picked) => EnqueueInv(k, pid, flags, wakeup, picked);
      case Dequeue(pid) => DequeueInv(k, pid);
      case DispatchEv(cpu) => DispatchInv(k, cpu);
      case _ => OneTaskInv(k, e);
    }
  }

  /** The task after an event that touches nothing else. */
  function Touched(k: KState, e: Event): Task
    requires Enabled(k, e) && OneTask(e)
  {
    var t := k.tasks[e.pid];
    match e
    case Exit(_) => t.(alive := false)
    case Enable(_) => t.(enabled := true, dsqVtime := 0)
    case Disable(_, v) => t.(enabled := false, dsqVtime := v)
    case SetAffinity(_, allowed) => t.(allowed := allowed)
    case Runnable(pid) => if pid == k.cfg.usersched then t else t.(execRuntime := 0)
    case Running(pid, now) => StartRunning(k, pid, now).tasks[pid]
    case Stopping(pid, now) => StopRunning(k, pid, now).tasks[pid]
  }

  predicate OneTask(e: Event) {
    e.Running? || e.Stopping? || e.Exit? || e.Enable? || e.Disable? || e.SetAffinity? || e.Runnable?
  }

  lemma {:induction false} OneTaskInv(k: KState, e: Event)
    requires KInv(k) && Enabled(k, e) && OneTask(e)
    ensures KInv(Step(k, e))
  {
    KnownTask(k, e.pid);
    hide KInv;
    SetTaskInv(k, e.pid, Touched(k, e));
    if e.Runnable? && e.pid == k.cfg.usersched { assert Step(k, e) == k; }
    else { assert Step(k, e) == SetTask(k, e.pid, Touched(k, e)); }
  }

  lemma {:induction false} DrainCfg(k: KState, slots: nat)
    ensures Drain(k, slots).0.cfg == k.cfg
    decreases |k.dispatched|
  {
    if k.dispatched != [] {
      var k0 := k.(dispatched := k.dispatched[1..]);
      HandleFrame(k0, k.dispatched[0], slots);
      var (k1, left) := HandleRecord(k0, k.dispatched[0], slots);
      if left > 0 { DrainCfg(k1, left); }
    }
  }
}
