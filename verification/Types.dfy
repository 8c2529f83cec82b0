/** Types shared by the scheduler pipeline, the adaptive policy and the daemon. */
module Types {

  const U64_LIMIT: int := 0x1_0000_0000_0000_0000
  const U64_MAX: int := U64_LIMIT - 1

  /** The machine word of the timestamps and counters both sides exchange. */
  type u64 = x: int | 0 <= x < U64_LIMIT

  datatype Option<+T> = None | Some(value: T)

  datatype Profile = Balanced | Interactive | Performance | Background

  type Pid = int
  type Cpu = int

  /** A record the BPF side sends to user space (`queued_task_ctx` / `QueuedTask`). */
  datatype QueuedTask = QueuedTask(
    pid: Pid,
    cpu: Cpu,
    nrCpusAllowed: nat,
    flags: u64,
    startTs: u64,
    stopTs: u64,
    execRuntime: u64,
    weight: u64,
    vtime: u64,
    enqCnt: nat)

  /** A record user space sends back (`dispatched_task_ctx` / `DispatchedTask`). */
  datatype DispatchedTask = DispatchedTask(
    pid: Pid,
    cpu: Cpu,
    flags: u64,
    sliceNs: u64,
    vtime: u64,
    enqCnt: nat)

  /** `DispatchedTask::new`: the default slice, a zero vtime, everything else copied. */
  function NewDispatch(t: QueuedTask): DispatchedTask {
    DispatchedTask(t.pid, t.cpu, t.flags, 0, 0, t.enqCnt)
  }

  predicate IsSpace(c: char) {
    c == ' ' || c == '\t' || c == '\n' || c == '\r'
  }

  function TrimStart(s: string): string {
    if s != "" && IsSpace(s[0]) then TrimStart(s[1..]) else s
  }

  function TrimEnd(s: string): string {
    if s != "" && IsSpace(s[|s| - 1]) then TrimEnd(s[..|s| - 1]) else s
  }

  /** `str::trim`, for the white space a state file holds. */
  function Trim(s: string): string {
    TrimEnd(TrimStart(s))
  }
}
