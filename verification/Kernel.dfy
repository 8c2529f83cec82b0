/** The BPF half of the scheduler (main.bpf.c, dispatch.h) as functions of its state.

    Kernel services are taken at their contract: a callback runs atomically, an insert
    takes effect only for a task the BPF scheduler owns, a cancel returns its slot, a DSQ
    ordered by vtime keeps equal keys in insertion order, and PIDs are not reused. */
module Kernel {
  import opened Types

  const MAX_CPUS: int := 1024
  const SHARED_DSQ: int := MAX_CPUS
  const SCHED_DSQ: int := MAX_CPUS + 1
  const RL_CPU_ANY: int := 0x10_0000
  const MAX_ENQUEUED_TASKS: int := 4096
  const MAX_DISPATCH_SLOT: nat := MAX_ENQUEUED_TASKS / 8

  datatype Config = Config(
    nrCpus: nat,
    queuedCap: nat,
    dispatchedCap: nat,
    usersched: Pid,
    khugepaged: Pid,
    builtinIdle: bool)

  /** Who holds a task. `Owned` is the BPF scheduler; `record` tells whether the current
      enqueue sent a record to user space. */
  datatype Place = Off | Owned(record: bool) | InDsq(id: int) | Local(cpu: Cpu) | OnCpu

  datatype Task = Task(
    alive: bool,
    enabled: bool,
    place: Place,
    cpu: Cpu,
    allowed: set<Cpu>,
    kthread: bool,
    kswapd: bool,
    dsqVtime: u64,
    weight: u64,
    startTs: u64,
    stopTs: u64,
    execRuntime: u64,
    enqCnt: nat)

  datatype Entry = Entry(pid: Pid, vtime: u64)

  /** What happened to a record drained from @dispatched. `late` marks an insert that took
      effect while the task's current enqueue had sent no record. */
  datatype Fate = Vanished | Cancelled | Refused | Placed(dsq: int, late: bool)

  datatype Drained = Drained(rec: DispatchedTask, fate: Fate)

  /** The BPF globals, maps and task storage. `handed` and `drained` are histories: all
      records ever put on @queued, and all records ever taken from @dispatched. */
  datatype KState = KState(
    cfg: Config,
    tasks: map<Pid, Task>,
    queued: seq<QueuedTask>,
    dispatched: seq<DispatchedTask>,
    dsqs: map<int, seq<Entry>>,
    nrQueued: nat,
    nrScheduled: nat,
    needed: bool,
    nrUser: nat,
    nrKernel: nat,
    nrCancel: nat,
    nrBounce: nat,
    nrCongested: nat,
    fault: bool,
    handed: seq<QueuedTask>,
    drained: seq<Drained>)

  /** The queues `dsq_init` creates: one for each CPU, the shared one and the scheduler's. */
  predicate IsDsq(nrCpus: nat, d: int) {
    0 <= d < nrCpus || d == SHARED_DSQ || d == SCHED_DSQ
  }

  /** The state after `rustland_init`: every DSQ exists and is empty. */
  function Init(cfg: Config): KState {
    var dsqs := map d | 0 <= d <= SCHED_DSQ && IsDsq(cfg.nrCpus, d) :: [];
    KState(cfg, map[], [], [], dsqs, 0, 0, false, 0, 0, 0, 0, 0, false, [], [])
  }

  predicate Alive(k: KState, pid: Pid) {
    Known(k.tasks, pid)
  }

  // ---- dispatch queues ----------------------------------------------------------

  /** Insert by key, behind every entry with an equal or smaller key. */
  function VtimeInsert(q: seq<Entry>, e: Entry): seq<Entry> {
    if q == [] || e.vtime < q[0].vtime then
      (if q == [] then [e] else [e] + q)
    else [q[0]] + VtimeInsert(q[1..], e)
  }

  function CpuToDsq(cpu: Cpu): int {
    if 0 <= cpu < MAX_CPUS then cpu else SHARED_DSQ
  }

  function DsqLen(k: KState, d: int): nat {
    if d in k.dsqs then |k.dsqs[d]| else 0
  }

  predicate CanDirectDispatch(k: KState, cpu: Cpu) {
    DsqLen(k, SHARED_DSQ) == 0 && DsqLen(k, CpuToDsq(cpu)) == 0
  }

  function SetTask(k: KState, pid: Pid, t: Task): KState {
    k.(tasks := k.tasks[pid := t])
  }

  /** `scx_bpf_dsq_insert_vtime`; inserting into a DSQ that does not exist is an error. */
  function PutOnDsq(k: KState, pid: Pid, d: int, vtime: u64): KState
    requires pid in k.tasks
  {
    if d !in k.dsqs then k.(fault := true)
    else
      k.(dsqs := k.dsqs[d := VtimeInsert(k.dsqs[d], Entry(pid, vtime))],
         tasks := k.tasks[pid := k.tasks[pid].(place := InDsq(d), dsqVtime := vtime)])
  }

  /** Insert on the DSQ of a CPU; `cpu_to_dsq` reports an error for an invalid CPU. */
  function PutOnCpu(k: KState, pid: Pid, cpu: Cpu, vtime: u64): KState
    requires pid in k.tasks
  {
    PutOnDsq(k.(fault := k.fault || !(0 <= cpu < MAX_CPUS)), pid, CpuToDsq(cpu), vtime)
  }

  function DirectDispatch(k: KState, pid: Pid, cpu: Cpu): KState
    requires pid in k.tasks
  {
    PutOnCpu(k.(nrKernel := k.nrKernel + 1), pid, cpu, k.tasks[pid].dsqVtime)
  }

  function Without(q: seq<Entry>, pid: Pid): seq<Entry> {
    if q == [] then [] else if q[0].pid == pid then q[1..] else [q[0]] + Without(q[1..], pid)
  }

  // ---- ops.select_cpu and ops.enqueue ---------------------------------------------

  function FirstCpu(allowed: set<Cpu>, from: nat, n: nat): nat
    requires from <= n
    decreases n - from
  {
    if from == n || from in allowed then from else FirstCpu(allowed, from + 1, n)
  }

  /** `prev_cpu` if usable, otherwise the waker's CPU, otherwise the first usable one. */
  function UsableCpu(k: KState, t: Task, prevCpu: Cpu, thisCpu: Cpu): Cpu {
    if prevCpu in t.allowed then prevCpu
    else if thisCpu in t.allowed then thisCpu
    else FirstCpu(t.allowed, 0, k.cfg.nrCpus)
  }

  /** `picked` is the result of the idle-CPU selection, negative when none was found. */
  function SelectCpu(k: KState, pid: Pid, prevCpu: Cpu, thisCpu: Cpu, picked: int): KState
    requires pid in k.tasks
  {
    var usable := UsableCpu(k, k.tasks[pid], prevCpu, thisCpu);
    if pid == k.cfg.usersched || !k.cfg.builtinIdle || picked < 0 then
      SetTask(k, pid, k.tasks[pid].(cpu := usable))
    else
      var k1 := SetTask(k, pid, k.tasks[pid].(cpu := picked));
      if CanDirectDispatch(k1, picked) then DirectDispatch(k1, pid, picked) else k1
  }

  /** `get_task_info` for the record of generation `cnt`. */
  function TaskInfo(pid: Pid, t: Task, cpu: Cpu, flags: u64, cnt: nat): QueuedTask {
    QueuedTask(pid, cpu, |t.allowed|, flags, t.startTs, t.stopTs, t.execRuntime, t.weight, t.dsqVtime, cnt)
  }

  /** `queue_task_to_userspace`: a record of a new generation, or the shared DSQ when the
      ring is full. */
  function QueueToUser(k: KState, pid: Pid, cpu: Cpu, flags: u64): KState
    requires pid in k.tasks
  {
    var t := k.tasks[pid];
    if |k.queued| >= k.cfg.queuedCap then
      PutOnDsq(k.(nrCongested := k.nrCongested + 1, nrKernel := k.nrKernel + 1), pid, SHARED_DSQ, t.dsqVtime)
    else
      var rec := TaskInfo(pid, t, cpu, flags, t.enqCnt + 1);
      SetTask(k, pid, t.(enqCnt := t.enqCnt + 1, place := Owned(true)))
      .(queued := k.queued + [rec], nrQueued := k.nrQueued + 1, handed := k.handed + [rec])
  }

  predicate AlwaysDirect(k: KState, pid: Pid)
    requires pid in k.tasks
  {
    var t := k.tasks[pid];
    (t.kthread && |t.allowed| == 1) || t.kswapd || (k.cfg.khugepaged != 0 && pid == k.cfg.khugepaged)
  }

  function EnqueueSched(k: KState, pid: Pid): KState
    requires pid in k.tasks
  {
    if SCHED_DSQ !in k.dsqs then k.(fault := true)
    else
      var t := k.tasks[pid];
      k.(dsqs := k.dsqs[SCHED_DSQ := k.dsqs[SCHED_DSQ] + [Entry(pid, t.dsqVtime)]],
         tasks := k.tasks[pid := t.(place := InDsq(SCHED_DSQ))])
  }

  /** `rustland_enqueue`. The last but one branch loses the race with an affinity change:
      nothing is inserted and no record is sent. */
  function Enqueue(k: KState, pid: Pid, flags: u64, wakeup: bool, picked: int): KState
    requires pid in k.tasks
  {
    var t := k.tasks[pid];
    if pid == k.cfg.usersched then EnqueueSched(k, pid)
    else if AlwaysDirect(k, pid) then DirectDispatch(k, pid, t.cpu)
    else if !(k.cfg.builtinIdle && wakeup) || picked < 0 then QueueToUser(k, pid, t.cpu, flags)
    else if !CanDirectDispatch(k, picked) then QueueToUser(k, pid, picked, flags)
    else if picked !in t.allowed then SetTask(k, pid, t.(place := Owned(false)))
    else DirectDispatch(k, pid, picked)
  }

  // ---- ops.dispatch ---------------------------------------------------------------

  function Log(k: KState, r: DispatchedTask, fate: Fate): KState {
    k.(drained := k.drained + [Drained(r, fate)])
  }

  /** Commit a buffered insert: it takes effect only for a task the BPF scheduler owns. */
  function Commit(k: KState, r: DispatchedTask, d: int): KState
    requires r.pid in k.tasks
  {
    var t := k.tasks[r.pid];
    if t.place.Owned? then Log(PutOnDsq(k, r.pid, d, r.vtime), r, Placed(d, !t.place.record))
    else Log(k, r, Refused)
  }

  /** The CPU a record asks for, or the task's own CPU when affinity forbids it. */
  function TargetCpu(k: KState, r: DispatchedTask): Cpu
    requires r.pid in k.tasks
  {
    if r.cpu in k.tasks[r.pid].allowed then r.cpu else k.tasks[r.pid].cpu
  }

  /** Buffer an insert with the record's key. Without a free slot that is an error. */
  function Buffer(k: KState, r: DispatchedTask, slots: nat): KState
    requires r.pid in k.tasks
  {
    SetTask(k, r.pid, k.tasks[r.pid].(dsqVtime := r.vtime)).(fault := k.fault || slots == 0)
  }

  /** Count the dispatch as the user's or as bounced; an invalid CPU is an error. */
  function Count(k: KState, r: DispatchedTask): KState
    requires r.pid in k.tasks
  {
    var hit := r.cpu in k.tasks[r.pid].allowed;
    k.(nrUser := k.nrUser + (if hit then 1 else 0),
       nrBounce := k.nrBounce + (if hit then 0 else 1),
       fault := k.fault || !(0 <= TargetCpu(k, r) < MAX_CPUS))
  }

  /** `dispatch_task` of the BPF side: the new state and the slots left in this
      `ops.dispatch()`. A record of an older generation is cancelled. */
  function HandleRecord(k: KState, r: DispatchedTask, slots: nat): (KState, nat) {
    if !Alive(k, r.pid) then (Log(k, r, Vanished), slots)
    else
      var left: nat := if slots == 0 then 0 else slots - 1;
      if r.cpu == RL_CPU_ANY then (Commit(Buffer(k, r, slots), r, SHARED_DSQ), left)
      else
        var k1 := Buffer(Count(k, r), r, slots);
        if k.tasks[r.pid].enqCnt > r.enqCnt then (Log(k1.(nrCancel := k1.nrCancel + 1), r, Cancelled), slots)
        else (Commit(k1, r, CpuToDsq(TargetCpu(k, r))), left)
  }

  /** The ring drain: stop once the callback reports that no slot is left. */
  function Drain(k: KState, slots: nat): (KState, nat)
    decreases |k.dispatched|
  {
    if k.dispatched == [] then (k, slots)
    else
      var (k1, left) := HandleRecord(k.(dispatched := k.dispatched[1..]), k.dispatched[0], slots);
      if left == 0 then (k1, 0) else Drain(k1, left)
  }

  predicate HasPending(k: KState) {
    k.needed || k.nrScheduled > 0 || k.queued != []
  }

  predicate MayRunOn(k: KState, pid: Pid, cpu: Cpu) {
    pid in k.tasks && cpu in k.tasks[pid].allowed
  }

  function FirstRunnable(k: KState, q: seq<Entry>, cpu: Cpu): (i: nat)
    ensures i <= |q| && (i < |q| ==> MayRunOn(k, q[i].pid, cpu))
    ensures forall j :: 0 <= j < i ==> !MayRunOn(k, q[j].pid, cpu)
  {
    if q == [] then 0 else if MayRunOn(k, q[0].pid, cpu) then 0 else 1 + FirstRunnable(k, q[1..], cpu)
  }

  predicate CanMove(k: KState, d: int, cpu: Cpu) {
    d in k.dsqs && FirstRunnable(k, k.dsqs[d], cpu) < |k.dsqs[d]|
  }

  /** `scx_bpf_dsq_move_to_local`: the first task of the queue that may run on the CPU. */
  function MoveToLocal(k: KState, d: int, cpu: Cpu): KState
    requires CanMove(k, d, cpu)
  {
    var q := k.dsqs[d];
    var i := FirstRunnable(k, q, cpu);
    var pid := q[i].pid;
    k.(dsqs := k.dsqs[d := q[..i] + q[i + 1..]],
       tasks := k.tasks[pid := k.tasks[pid].(place := Local(cpu))])
  }

  function Consume(k: KState, cpu: Cpu): KState {
    var k1 := k.(needed := false);
    if HasPending(k) && CanMove(k1, SCHED_DSQ, cpu) then MoveToLocal(k1, SCHED_DSQ, cpu)
    else if CanMove(k1, CpuToDsq(cpu), cpu) then MoveToLocal(k1, CpuToDsq(cpu), cpu)
    else if CanMove(k1, SHARED_DSQ, cpu) then MoveToLocal(k1, SHARED_DSQ, cpu)
    else k1
  }

  /** `rustland_dispatch`: drain with all slots free, then give the CPU one task. */
  function Dispatch(k: KState, cpu: Cpu): KState {
    Consume(Drain(k, MAX_DISPATCH_SLOT).0, cpu)
  }

  // ---- the kernel events that reach the scheduler ------------------------------------

  datatype Event =
    | Create(pid: Pid, task: Task)
    | Exit(pid: Pid)
    | Enable(pid: Pid)
    | Disable(pid: Pid, vtime: u64)
    | SetAffinity(pid: Pid, allowed: set<Cpu>)
    | Runnable(pid: Pid)
    | SelectCpuEv(pid: Pid, prevCpu: Cpu, thisCpu: Cpu, picked: int)
    | EnqueueEv(pid: Pid, flags: u64, wakeup: bool, picked: int)
    | Dequeue(pid: Pid)
    | DispatchEv(cpu: Cpu)
    | Running(pid: Pid, now: u64)
    | Stopping(pid: Pid, now: u64)
    | Timer(inactive: bool)

  /** An affinity mask: some CPU, and only possible ones. */
  predicate CpuSet(nrCpus: nat, s: set<Cpu>) {
    (exists c :: c in s) && forall c :: c in s ==> 0 <= c < nrCpus
  }

  predicate Known(tasks: map<Pid, Task>, pid: Pid) {
    pid in tasks && tasks[pid].alive
  }

  predicate Idle(tasks: map<Pid, Task>, pid: Pid) {
    Known(tasks, pid) && tasks[pid].place.Off?
  }

  predicate Parked(k: KState, pid: Pid) {
    Idle(k.tasks, pid)
  }

  /** When the kernel delivers an event. */
  predicate Deliverable(cfg: Config, tasks: map<Pid, Task>, e: Event) {
    match e
    case Create(pid, t) =>
      && pid !in tasks && t.alive && !t.enabled && t.place.Off? && t.enqCnt == 0
      && 0 <= t.cpu < cfg.nrCpus && CpuSet(cfg.nrCpus, t.allowed)
    case Exit(pid) => Idle(tasks, pid)
    case Enable(pid) => Idle(tasks, pid)
    case Disable(pid, _) => Idle(tasks, pid)
    case SetAffinity(pid, allowed) => Known(tasks, pid) && CpuSet(cfg.nrCpus, allowed)
    case Runnable(pid) => Idle(tasks, pid)
    case SelectCpuEv(pid, prevCpu, thisCpu, picked) =>
      && Idle(tasks, pid) && tasks[pid].enabled
      && 0 <= prevCpu < cfg.nrCpus && 0 <= thisCpu < cfg.nrCpus && picked < cfg.nrCpus
    case EnqueueEv(pid, _, _, picked) =>
      Idle(tasks, pid) && tasks[pid].enabled && picked < cfg.nrCpus
    case Dequeue(pid) => Known(tasks, pid) && !tasks[pid].place.Off? && !tasks[pid].place.OnCpu?
    case DispatchEv(cpu) => 0 <= cpu < cfg.nrCpus
    case Running(pid, _) => Known(tasks, pid) && tasks[pid].place.Local?
    case Stopping(pid, _) => Known(tasks, pid) && tasks[pid].place.OnCpu?
    case Timer(_) => true
  }

  predicate Enabled(k: KState, e: Event) {
    Deliverable(k.cfg, k.tasks, e)
  }

  function DequeueTask(k: KState, pid: Pid): KState
    requires pid in k.tasks
  {
    var t := k.tasks[pid];
    var k1 := if t.place.InDsq? && t.place.id in k.dsqs
              then k.(dsqs := k.dsqs[t.place.id := Without(k.dsqs[t.place.id], pid)]) else k;
    SetTask(k1, pid, t.(place := Off))
  }

  function StartRunning(k: KState, pid: Pid, now: u64): KState
    requires pid in k.tasks && k.tasks[pid].place.Local?
  {
    var t := k.tasks[pid].(cpu := k.tasks[pid].place.cpu, place := OnCpu);
    SetTask(k, pid, if pid == k.cfg.usersched then t else t.(startTs := now))
  }

  /** The run time accumulates in a 64-bit word. */
  function StopRunning(k: KState, pid: Pid, now: u64): KState
    requires pid in k.tasks
  {
    var t := k.tasks[pid].(place := Off);
    SetTask(k, pid,
      if pid == k.cfg.usersched then t
      else t.(stopTs := now, execRuntime := (t.execRuntime + now - t.startTs) % U64_LIMIT))
  }

  /** One kernel event; an event the kernel would not deliver changes nothing. */
  function Step(k: KState, e: Event): KState {
    if !Enabled(k, e) then k
    else match e
      case Create(pid, t) => SetTask(k, pid, t)
      case Exit(pid) => SetTask(k, pid, k.tasks[pid].(alive := false))
      case Enable(pid) => SetTask(k, pid, k.tasks[pid].(enabled := true, dsqVtime := 0))
      case Disable(pid, v) => SetTask(k, pid, k.tasks[pid].(enabled := false, dsqVtime := v))
      case SetAffinity(pid, allowed) => SetTask(k, pid, k.tasks[pid].(allowed := allowed))
      case Runnable(pid) =>
        if pid == k.cfg.usersched then k else SetTask(k, pid, k.tasks[pid].(execRuntime := 0))
      case SelectCpuEv(pid, prevCpu, thisCpu, picked) => SelectCpu(k, pid, prevCpu, thisCpu, picked)
      case EnqueueEv(pid, flags, wakeup, picked) => Enqueue(k, pid, flags, wakeup, picked)
      case Dequeue(pid) => DequeueTask(k, pid)
      case DispatchEv(cpu) => Dispatch(k, cpu)
      case Running(pid, now) => StartRunning(k, pid, now)
      case Stopping(pid, now) => StopRunning(k, pid, now)
      case Timer(inactive) => k.(needed := k.needed || (inactive && Alive(k, k.cfg.usersched)))
  }

  function Steps(k: KState, es: seq<Event>): KState
    decreases |es|
  {
    if es == [] then k else Steps(Step(k, es[0]), es[1..])
  }

  // ---- the two calls user space makes into the rings -------------------------------------

  /** `BpfScheduler::dequeue_task` on success: the oldest record, or none. */
  function TakeQueued(k: KState): KState {
    if k.queued == [] then k.(nrQueued := 0)
    else k.(queued := k.queued[1..], nrQueued := if k.nrQueued == 0 then 0 else k.nrQueued - 1)
  }

  /** `BpfScheduler::dispatch_task`: reserving can fail, and does when the ring is full. */
  predicate CanSubmit(k: KState, fail: bool) {
    !fail && |k.dispatched| < k.cfg.dispatchedCap
  }

  function Submit(k: KState, r: DispatchedTask, fail: bool): KState {
    if CanSubmit(k, fail) then k.(dispatched := k.dispatched + [r]) else k
  }

  function NotifyComplete(k: KState, pending: nat): KState {
    k.(nrScheduled := pending)
  }
}
