/** The lossy latest-wins channel between the scheduler and its reporter process: write_stats
    (schedulers/cerynth-scx/src/main.rs) and schedulers/cerynth-scx/src/reporter.rs. */
module ReporterChannel {
  import opened Types

  const MAX_SNAPSHOT: nat := 8192

  datatype Status = Status(
    running: bool, pid: nat, healthy: bool, startedAtMs: nat, schedExtState: string, heartbeat: nat)

  datatype Stats = Stats(
    pid: nat, heartbeat: nat, uptimeMs: nat, progressSequence: nat, reporterDrops: nat)

  datatype Snapshot = Snapshot(status: Status, stats: Stats)

  /** A datagram: an encoded snapshot of `len` bytes. */
  datatype Frame = Frame(snapshot: Snapshot, len: nat)

  datatype SendResult = SentBytes(n: nat) | WouldBlock | Interrupted | SendFailed

  datatype Sent = Accepted | Backpressure | Failed

  /** `send_snapshot`. Only a datagram sent whole is in the socket. */
  function SendSnapshot(len: nat, os: SendResult): Sent {
    if len > MAX_SNAPSHOT then Failed
    else match os
      case SentBytes(n) => if n == len then Accepted else Failed
      case WouldBlock | Interrupted => Backpressure
      case SendFailed => Failed
  }

  datatype RecvResult = Ready | RecvInterrupted | RecvFailed

  datatype Exit = ParentGone | SocketFailed | ParseFailed | PidMismatch | StateUnreadable | WriteFailed

  /** Where the reporter is: at the head of its loop, draining, about to write, or gone. */
  datatype Phase =
    | Head
    | Draining(latest: Option<Snapshot>)
    | Writing(latest: Option<Snapshot>)
    | Stopped(exit: Exit)

  /** Both processes, the socket and the files. `accepted` is every snapshot ever put in the
      socket, `written` every status file written, with the position of its source. */
  datatype Entry = Entry(at: nat, snapshot: Snapshot)

  datatype Chan = Chan(
    pid: nat,
    startedAtMs: nat,
    stats: Stats,
    attempts: nat,
    queue: seq<Frame>,
    accepted: seq<Snapshot>,
    phase: Phase,
    written: seq<Entry>,
    statusFile: Option<Status>,
    statsFile: Option<Stats>)

  function Init(pid: nat, startedAtMs: nat): Chan {
    Chan(pid, startedAtMs, Stats(pid, 0, 0, 0, 0), 0, [], [], Head, [], None, None)
  }

  datatype Event =
    | Work(cycles: nat)
    | Report(nowMs: nat, laterMs: nat, statusSecs: nat, bytes: Option<nat>, send: SendResult)
    | Check(parentAlive: bool)
    | Recv(result: RecvResult)
    | Write(state: Option<string>, statusOk: bool, statsOk: bool)

  predicate OfParent(e: Event) {
    e.Work? || e.Report?
  }

  function SaturatingSub(a: nat, b: nat): nat {
    if a < b then 0 else a - b
  }

  /** `write_stats`: refresh, publish, and count the snapshot as dropped unless it was accepted. */
  function WriteStats(c: Chan, e: Event): Chan
    requires e.Report?
  {
    var stats := c.stats.(heartbeat := e.nowMs / 1000, uptimeMs := SaturatingSub(e.laterMs, c.startedAtMs));
    var snapshot := Snapshot(Status(true, c.pid, true, c.startedAtMs, "enabled", e.statusSecs), stats);
    if e.bytes.Some? && SendSnapshot(e.bytes.value, e.send).Accepted? then
      c.(stats := stats, attempts := c.attempts + 1,
         queue := c.queue + [Frame(snapshot, e.bytes.value)], accepted := c.accepted + [snapshot])
    else
      c.(stats := stats.(reporterDrops := stats.reporterDrops + 1), attempts := c.attempts + 1)
  }

  /** One receive: a frame that fits the buffer replaces the latest one. */
  function Receive(c: Chan, result: RecvResult): Chan
    requires c.phase.Draining?
  {
    match result
    case RecvInterrupted => c
    case RecvFailed => c.(phase := Stopped(SocketFailed))
    case Ready =>
      if c.queue == [] then c.(phase := Writing(c.phase.latest))
      else if c.queue[0].len > MAX_SNAPSHOT then c.(queue := c.queue[1..], phase := Stopped(ParseFailed))
      else c.(queue := c.queue[1..], phase := Draining(Some(c.queue[0].snapshot)))
  }

  /** The reporter's own observation of the kernel; everything else is the parent's. */
  function Stamp(s: Snapshot, state: string): Snapshot {
    s.(status := s.status.(schedExtState := Trim(state), healthy := Trim(state) == "enabled"))
  }

  function WriteFiles(c: Chan, state: Option<string>, statusOk: bool, statsOk: bool): Chan
    requires c.phase.Writing?
  {
    if c.phase.latest.None? then c.(phase := Head)
    else
      var s := c.phase.latest.value;
      if s.status.pid != c.pid || s.stats.pid != c.pid then c.(phase := Stopped(PidMismatch))
      else if state.None? then c.(phase := Stopped(StateUnreadable))
      else if !statusOk then c.(phase := Stopped(WriteFailed))
      else
        var stamped := Stamp(s, state.value);
        var at: int := |c.accepted| - |c.queue| - 1;
        var entry := Entry(if at < 0 then 0 else at, stamped);
        var c1 := c.(statusFile := Some(stamped.status), written := c.written + [entry]);
        if !statsOk then c1.(phase := Stopped(WriteFailed))
        else c1.(statsFile := Some(stamped.stats), phase := Head)
  }

  /** An event the current phase does not allow changes nothing. */
  function Step(c: Chan, e: Event): Chan {
    match e
    case Work(n) => c.(stats := c.stats.(progressSequence := c.stats.progressSequence + n))
    case Report(_, _, _, _, _) => WriteStats(c, e)
    case Check(alive) =>
      if !c.phase.Head? then c
      else c.(phase := if alive then Draining(None) else Stopped(ParentGone))
    case Recv(result) => if c.phase.Draining? then Receive(c, result) else c
    case Write(state, statusOk, statsOk) =>
      if c.phase.Writing? then WriteFiles(c, state, statusOk, statsOk) else c
  }

  function Steps(c: Chan, es: seq<Event>): Chan
    decreases |es|
  {
    if es == [] then c else Steps(Step(c, es[0]), es[1..])
  }

  // ---- the invariant ---------------------------------------------------------------------------

  function Received(c: Chan): int {
    |c.accepted| - |c.queue|
  }

  /** How many accepted snapshots are at or before the last one written. */
  function Done(c: Chan): nat {
    if c.written == [] then 0 else c.written[|c.written| - 1].at + 1
  }

  /** The snapshots that entered the socket: whole frames of this scheduler, progress in order. */
  ghost predicate Sources(c: Chan) {
    && c.attempts == c.stats.reporterDrops + |c.accepted|
    && c.stats.pid == c.pid
    && (forall i :: 0 <= i < |c.accepted| ==>
          c.accepted[i].status.pid == c.pid && c.accepted[i].stats.pid == c.pid
          && c.accepted[i].stats.progressSequence <= c.stats.progressSequence)
    && forall i, j :: 0 <= i <= j < |c.accepted| ==>
         c.accepted[i].stats.progressSequence <= c.accepted[j].stats.progressSequence
  }

  /** The socket holds the accepted snapshots that were not received yet, in order. */
  ghost predicate InOrder(queue: seq<Frame>, accepted: seq<Snapshot>) {
    && |queue| <= |accepted|
    && forall i :: 0 <= i < |queue| ==>
         queue[i].len <= MAX_SNAPSHOT && queue[i].snapshot == accepted[|accepted| - |queue| + i]
  }

  ghost predicate Socket(c: Chan) {
    InOrder(c.queue, c.accepted)
  }

  /** A written snapshot is an accepted one but for the observation of the kernel. */
  predicate FromParent(written: Snapshot, accepted: Snapshot) {
    && written.stats == accepted.stats
    && written.status
       == accepted.status.(schedExtState := written.status.schedExtState, healthy := written.status.healthy)
    && (written.status.healthy <==> written.status.schedExtState == "enabled")
  }

  /** Written snapshots, in the order they were accepted. */
  ghost predicate Log(accepted: seq<Snapshot>, written: seq<Entry>) {
    && (forall i :: 0 <= i < |written| ==>
          written[i].at < |accepted| && FromParent(written[i].snapshot, accepted[written[i].at]))
    && forall i, j :: 0 <= i < j < |written| ==> written[i].at < written[j].at
  }

  ghost predicate Written(c: Chan) {
    Done(c) <= Received(c) && Log(c.accepted, c.written)
  }

  /** Latest wins: what is held is the newest received snapshot; holding nothing means that the
      newest received one is written. */
  predicate Latest(c: Chan) {
    match c.phase
    case Head => Received(c) == Done(c)
    case Draining(latest) => Holds(c, latest)
    case Writing(latest) => Holds(c, latest)
    case Stopped(exit) => !exit.ParseFailed? && !exit.PidMismatch?
  }

  predicate Holds(c: Chan, latest: Option<Snapshot>) {
    if latest.None? then Received(c) == Done(c)
    else Done(c) < Received(c) <= |c.accepted| && latest.value == c.accepted[Received(c) - 1]
  }

  predicate Files(c: Chan) {
    && (c.statusFile.Some? <==> c.written != [])
    && (c.written != [] ==> c.statusFile == Some(c.written[|c.written| - 1].snapshot.status))
    && (!c.phase.Stopped? ==>
          c.statsFile == if c.written == [] then None else Some(c.written[|c.written| - 1].snapshot.stats))
    && (c.statsFile.Some? ==> exists i :: 0 <= i < |c.written| && c.statsFile == Some(c.written[i].snapshot.stats))
  }

  ghost predicate Inv(c: Chan) {
    Sources(c) && Socket(c) && Written(c) && Latest(c) && Files(c)
  }
}
