/** What one call of the scheduler backend decides (services/cerynthd/src/backends/scx.rs),
    given what the operating system answered. `Lifecycle` holds the calls themselves. */
module LifecycleSpec {
  import opened Types
  import opened Text

  const HEARTBEAT_TIMEOUT_SECS: nat := 10
  const START_TIMEOUT_MS: nat := 15_000
  const STOP_TIMEOUT_MS: nat := 5_000
  const POLL_MS: nat := 100

  datatype Error =
    | InspectFailed | AlreadyRunning | BinaryMissing | SpawnFailed | NotRunning
    | TermFailed | KillFailed | ReapFailed | PollFailed | ExitedEarly | TimedOut

  // ---- health ---------------------------------------------------------------------------

  /** The fields of the status file that parsed with the expected types. */
  datatype Heartbeat = Heartbeat(
    pid: Option<nat>, running: Option<bool>, healthy: Option<bool>, heartbeat: Option<nat>)

  /** What one health check reads: the signal-0 probe, and if that answers, the sched_ext state
      file, then the status file and the wall clock. */
  datatype Observation = Observation(
    probeOk: bool, state: Option<string>, record: Option<Heartbeat>, wallSecs: Option<nat>)

  function ReadState(o: Observation): Option<string> {
    if o.state.None? then None
    else
      var t := Trim(o.state.value);
      if t == "" || t == "none" then None else Some(t)
  }

  predicate HeartbeatFresh(o: Observation, pid: Pid) {
    && o.record.Some? && o.wallSecs.Some?
    && o.record.value.pid.Some? && o.record.value.pid.value == pid
    && o.record.value.running == Some(true) && o.record.value.healthy == Some(true)
    && o.record.value.heartbeat.Some?
    && o.record.value.heartbeat.value <= o.wallSecs.value
    && o.wallSecs.value - o.record.value.heartbeat.value <= HEARTBEAT_TIMEOUT_SECS
  }

  predicate Healthy(o: Observation, pid: Pid) {
    o.probeOk && ReadState(o) == Some("enabled") && HeartbeatFresh(o, pid)
  }

  /** The status file is that of `pid`, running and healthy, and no older than ten seconds. */
  predicate ShowsBeat(record: Option<Heartbeat>, wallSecs: Option<nat>, pid: Pid) {
    match (record, wallSecs)
    case (Some(Heartbeat(Some(p), Some(r), Some(h), Some(beat))), Some(now)) =>
      p == pid && r && h && beat <= now <= beat + 10
    case _ => false
  }

  /** A scheduler is healthy exactly when the probe answers, the state file says "enabled" between
      white space, and the status file shows its beat. */
  lemma HealthyExactly(o: Observation, pid: Pid)
    ensures Healthy(o, pid) <==>
              o.probeOk && o.state.Some? && Reads(o.state.value, "enabled") && ShowsBeat(o.record, o.wallSecs, pid)
    ensures HeartbeatFresh(o, pid) <==> ShowsBeat(o.record, o.wallSecs, pid)
  {
    if o.state.Some? { TrimReads(o.state.value, "enabled"); }
  }

  /** The state that is read is the word in the file, unless it is empty or "none". */
  lemma StateExactly(o: Observation, word: string)
    requires Tight(word)
    ensures ReadState(o) == Some(word) <==>
              o.state.Some? && Reads(o.state.value, word) && word != "" && word != "none"
  {
    if o.state.Some? { TrimReads(o.state.value, word); }
  }

  // ---- calls of the operating system ----------------------------------------------------------

  datatype WaitResult = Exited | StillRunning | WaitFailed

  datatype KillResult = Delivered | NoSuchProcess | KillRefused

  /** A call with its arguments and its answer. */
  datatype Call =
    | TryWait(pid: Pid, seen: WaitResult)
    | Signal(pid: Pid, fatal: bool, result: KillResult)
    | Wait(pid: Pid, reaped: bool)
    | BinaryExists(present: bool)
    | Spawn(profile: Profile, spawned: Option<Pid>)
    | Probe(pid: Pid, answers: bool)
    | StateFile(text: Option<string>)
    | StatusFile(record: Option<Heartbeat>, wallSecs: Option<nat>)
    | Clock(ms: nat)
    | Sleep(period: nat)

  function ReapCalls(child: Option<Pid>, seen: WaitResult): seq<Call> {
    if child.None? then [] else [TryWait(child.value, seen)]
  }

  function CheckCalls(pid: Pid, o: Observation): seq<Call> {
    if o.probeOk then [Probe(pid, true), StateFile(o.state), StatusFile(o.record, o.wallSecs)]
    else [Probe(pid, false)]
  }

  // ---- the end of a signalled child -----------------------------------------------------------

  datatype Ending = Exits | Unreadable | Overdue(at: nat, kill: KillResult, reaped: bool)

  /** `polls` are the times at which the child was still running before the deadline. */
  datatype Shutdown = Shutdown(start: nat, polls: seq<nat>, ending: Ending)

  function PollCalls(pid: Pid, polls: seq<nat>): seq<Call> {
    if polls == [] then []
    else
      var n := |polls| - 1;
      PollCalls(pid, polls[..n]) + [TryWait(pid, StillRunning), Clock(polls[n]), Sleep(POLL_MS)]
  }

  function EndingCalls(pid: Pid, e: Ending): seq<Call> {
    match e
    case Exits => [TryWait(pid, Exited)]
    case Unreadable => [TryWait(pid, WaitFailed)]
    case Overdue(at, kill, reaped) => [TryWait(pid, StillRunning), Clock(at)] + KillCalls(pid, kill, reaped)
  }

  function KillCalls(pid: Pid, kill: KillResult, reaped: bool): seq<Call> {
    if kill.KillRefused? then [Signal(pid, true, kill)] else [Signal(pid, true, kill), Wait(pid, reaped)]
  }

  function ShutdownCalls(pid: Pid, s: Shutdown): seq<Call> {
    [Clock(s.start)] + PollCalls(pid, s.polls) + EndingCalls(pid, s.ending)
  }

  /** The loop polls until the deadline, a period apart, and kills only from then on. */
  predicate InGrace(s: Shutdown) {
    && (forall i :: 0 <= i < |s.polls| ==> s.start + i * POLL_MS <= s.polls[i] < s.start + STOP_TIMEOUT_MS)
    && (s.ending.Overdue? ==> s.ending.at >= s.start + STOP_TIMEOUT_MS)
  }

  function ShutdownError(e: Ending): Option<Error> {
    match e
    case Exits => None
    case Unreadable => Some(PollFailed)
    case Overdue(_, kill, reaped) =>
      if kill.KillRefused? then Some(KillFailed) else if reaped then None else Some(ReapFailed)
  }

  datatype StopRun = StopRun(seen: WaitResult, term: KillResult, shutdown: Shutdown)

  function StopCalls(child: Option<Pid>, run: StopRun): seq<Call> {
    if child.None? then []
    else if !run.seen.StillRunning? then [TryWait(child.value, run.seen)]
    else
      var signalled := [TryWait(child.value, run.seen), Signal(child.value, false, run.term)];
      if run.term.Delivered? then signalled + ShutdownCalls(child.value, run.shutdown) else signalled
  }

  // ---- the wait for health --------------------------------------------------------------------

  datatype Round = Round(at: nat, o: Observation)

  datatype HealthEnd = Late(at: nat) | Lost(at: nat, seen: WaitResult) | Seen(at: nat, o: Observation)

  /** `rounds` are the checks that found the child alive but not healthy. */
  datatype HealthWait = HealthWait(start: nat, rounds: seq<Round>, end: HealthEnd)

  function RoundCalls(pid: Pid, rounds: seq<Round>): seq<Call> {
    if rounds == [] then []
    else
      var n := |rounds| - 1;
      RoundCalls(pid, rounds[..n])
      + ([Clock(rounds[n].at), TryWait(pid, StillRunning)] + CheckCalls(pid, rounds[n].o) + [Sleep(POLL_MS)])
  }

  function EndCalls(pid: Pid, e: HealthEnd): seq<Call> {
    match e
    case Late(at) => [Clock(at)]
    case Lost(at, seen) => [Clock(at), TryWait(pid, seen)]
    case Seen(at, o) => [Clock(at), TryWait(pid, StillRunning)] + CheckCalls(pid, o)
  }

  function HealthCalls(pid: Pid, h: HealthWait): seq<Call> {
    [Clock(h.start)] + RoundCalls(pid, h.rounds) + EndCalls(pid, h.end)
  }

  /** The wait goes on exactly while there is time and the child is alive but not healthy, and
      looks at it once in a period. */
  predicate Patient(pid: Pid, timeout: nat, h: HealthWait) {
    && (forall i :: 0 <= i < |h.rounds| ==>
          h.start + i * POLL_MS <= h.rounds[i].at < h.start + timeout && !Healthy(h.rounds[i].o, pid))
    && match h.end
       case Late(at) => at >= h.start + timeout
       case Lost(at, seen) => at < h.start + timeout && !seen.StillRunning?
       case Seen(at, o) => at < h.start + timeout && Healthy(o, pid)
  }

  function Verdict(e: HealthEnd): Option<Error> {
    match e
    case Late(_) => Some(TimedOut)
    case Lost(_, seen) => if seen.Exited? then Some(ExitedEarly) else Some(InspectFailed)
    case Seen(_, _) => None
  }

  /** The newest calls are a health check that found `pid` healthy. */
  predicate EndsHealthy(calls: seq<Call>, pid: Pid) {
    var n := |calls|;
    && n >= 3 && calls[n - 3] == Probe(pid, true) && calls[n - 2].StateFile? && calls[n - 1].StatusFile?
    && Healthy(Observation(true, calls[n - 2].text, calls[n - 1].record, calls[n - 1].wallSecs), pid)
  }

  // ---- compound calls of the backend ------------------------------------------------------------

  /** `cleanup` is the stop after a bad verdict. */
  datatype StartRun = StartRun(
    seen: WaitResult, binary: bool, spawned: Option<Pid>, health: HealthWait, cleanup: StopRun)

  /** The child after the wait for its health: one that exited by itself is forgotten. */
  function LeftToStop(run: StartRun): Option<Pid> {
    if Verdict(run.health.end) == Some(ExitedEarly) then None else run.spawned
  }

  function StartCalls(s: State, run: StartRun): seq<Call> {
    var reap := ReapCalls(s.child, run.seen);
    if s.child.Some? && !run.seen.Exited? then reap
    else
      var looked := reap + [BinaryExists(run.binary)];
      if !run.binary then looked
      else
        var spawned := looked + [Spawn(s.profile, run.spawned)];
        if run.spawned.None? then spawned
        else
          var waited := spawned + HealthCalls(run.spawned.value, run.health);
          if Verdict(run.health.end).None? then waited else waited + StopCalls(LeftToStop(run), run.cleanup)
  }

  predicate StartInTime(run: StartRun) {
    && (run.spawned.Some? ==> Patient(run.spawned.value, START_TIMEOUT_MS, run.health))
    && InGrace(run.cleanup.shutdown)
  }

  datatype SwitchRun = SwitchRun(seen: WaitResult, stop: StopRun, start: StartRun)

  predicate SwitchInTime(run: SwitchRun) {
    InGrace(run.stop.shutdown) && StartInTime(run.start)
  }

  function SwitchCalls(s: State, profile: Profile, run: SwitchRun): seq<Call> {
    var reap := ReapCalls(s.child, run.seen);
    if s.child.None? || !run.seen.StillRunning? then reap
    else
      var stopped := reap + StopCalls(s.child, run.stop);
      if Stopped(s, run.stop).error.Some? then stopped
      else stopped + StartCalls(State(profile, None), run.start)
  }

  function RestartCalls(s: State, run: SwitchRun): seq<Call> {
    var reap := ReapCalls(s.child, run.seen);
    if s.child.Some? && run.seen.WaitFailed? then reap
    else if s.child.None? || run.seen.Exited? then reap + StartCalls(s.(child := None), run.start)
    else
      var stopped := reap + StopCalls(s.child, run.stop);
      if Stopped(s, run.stop).error.Some? then stopped
      else stopped + StartCalls(s.(child := None), run.start)
  }

  /** A status reads the state file, and the status file if a child is tracked. */
  datatype StatusRun = StatusRun(seen: WaitResult, o: Observation)

  function StatusCalls(s: State, run: StatusRun): seq<Call> {
    var reap := ReapCalls(s.child, run.seen);
    if Reaped(s, run.seen).error.Some? then reap
    else
      var read := reap + [StateFile(run.o.state)];
      if Reaped(s, run.seen).state.child.None? then read else read + [StatusFile(run.o.record, run.o.wallSecs)]
  }

  // ---- decisions ------------------------------------------------------------------------------

  datatype State = State(profile: Profile, child: Option<Pid>)

  datatype Outcome = Outcome(state: State, error: Option<Error>)

  function Reaped(s: State, seen: WaitResult): Outcome {
    if s.child.None? then Outcome(s, None)
    else match seen
      case Exited => Outcome(s.(child := None), None)
      case StillRunning => Outcome(s, None)
      case WaitFailed => Outcome(s, Some(InspectFailed))
  }

  /** A stop leaves no child exactly when it succeeds or finds none; otherwise it changes
      nothing. */
  function Stopped(s: State, run: StopRun): (r: Outcome)
    ensures r.state.child.None? <==> r.error.None? || r.error == Some(NotRunning)
    ensures r.state.child.Some? ==> r.state == s
    ensures r.state.profile == s.profile
  {
    var reaped := Reaped(s, run.seen);
    if reaped.error.Some? then reaped
    else if reaped.state.child.None? then Outcome(reaped.state, Some(NotRunning))
    else match run.term
      case NoSuchProcess => Outcome(s.(child := None), None)
      case KillRefused => Outcome(s, Some(TermFailed))
      case Delivered =>
        var e := ShutdownError(run.shutdown.ending);
        Outcome(if e.None? then s.(child := None) else s, e)
  }

  /** The child a start tracks afterwards is the one it spawned, or the one it found. */
  function Started(s: State, run: StartRun): (r: Outcome)
    ensures r.error.None? ==> s.child.None? || run.seen.Exited?
    ensures r.error.None? ==> r.state.child.Some? && r.state.child == run.spawned
    ensures r.state.child.Some? ==> r.state.child == s.child || r.state.child == run.spawned
    ensures r.state.profile == s.profile
  {
    var reaped := Reaped(s, run.seen);
    if reaped.error.Some? then reaped
    else if reaped.state.child.Some? then Outcome(s, Some(AlreadyRunning))
    else if !run.binary then Outcome(reaped.state, Some(BinaryMissing))
    else if run.spawned.None? then Outcome(reaped.state, Some(SpawnFailed))
    else
      var tracked := s.(child := run.spawned);
      var verdict := Verdict(run.health.end);
      if verdict.None? then Outcome(tracked, None)
      else Outcome(Stopped(s.(child := LeftToStop(run)), run.cleanup).state, verdict)
  }

  function Switched(s: State, profile: Profile, run: SwitchRun): Outcome {
    var reaped := Reaped(s, run.seen);
    if reaped.error.Some? then reaped
    else if reaped.state.child.None? then Outcome(reaped.state.(profile := profile), None)
    else
      var stopped := Stopped(s, run.stop);
      if stopped.error.Some? then stopped
      else Started(stopped.state.(profile := profile), run.start)
  }

  function Restarted(s: State, run: SwitchRun): Outcome {
    var reaped := Reaped(s, run.seen);
    if reaped.error.Some? then reaped
    else if reaped.state.child.None? then Started(reaped.state, run.start)
    else
      var stopped := Stopped(s, run.stop);
      if stopped.error.Some? then stopped else Started(stopped.state, run.start)
  }

  // ---- requests to the daemon -----------------------------------------------------------------

  datatype Request =
    | Status | GetProfile | SetProfile(profile: Profile) | PauseAdaptation | ResumeAdaptation
    | Start | Stop | Restart

  /** What the operating system answers while one request is served; `after` is the status that
      follows it. */
  datatype ServeRun = ServeRun(
    status: StatusRun, stop: StopRun, start: StartRun, switch: SwitchRun, after: StatusRun)

  /** The backend's decision on a request. */
  function Decided(s: State, request: Request, run: ServeRun): Outcome {
    match request
    case Status => Reaped(s, run.status.seen)
    case GetProfile | PauseAdaptation | ResumeAdaptation => Outcome(s, None)
    case SetProfile(p) => Switched(s, p, run.switch)
    case Start => Started(s, run.start)
    case Stop => Stopped(s, run.stop)
    case Restart => Restarted(s, run.switch)
  }

  function Requested(s: State, request: Request, run: ServeRun): State {
    Decided(s, request, run).state
  }

  /** What a status reports. */
  datatype Report = Report(
    profile: Profile, adaptationEnabled: bool, running: bool, schedExtState: Option<string>, heartbeatOk: bool)

  function ReportOf(s: State, adaptationEnabled: bool, o: Observation): Report {
    Report(s.profile, adaptationEnabled, s.child.Some?, ReadState(o), s.child.Some? && HeartbeatFresh(o, s.child.value))
  }

  predicate StatusFails(s: State, run: StatusRun) {
    Reaped(s, run.seen).error.Some?
  }

  datatype Response = StatusIs(report: Report) | ProfileIs(profile: Profile) | Success | Failed(error: Error)

  /** The answer to the client: the error of the decision, or what the request asked for. */
  function Answer(s: State, adaptationEnabled: bool, request: Request, run: ServeRun): Response {
    var d := Decided(s, request, run);
    if d.error.Some? then Failed(d.error.value)
    else if request.Status? then StatusIs(ReportOf(d.state, adaptationEnabled, run.status.o))
    else if request.GetProfile? then ProfileIs(s.profile)
    else Success
  }

  function RequestCalls(s: State, request: Request, run: ServeRun): seq<Call> {
    match request
    case Status => StatusCalls(s, run.status)
    case GetProfile | PauseAdaptation | ResumeAdaptation => []
    case SetProfile(p) => SwitchCalls(s, p, run.switch)
    case Start => StartCalls(s, run.start)
    case Stop => StopCalls(s.child, run.stop)
    case Restart => RestartCalls(s, run.switch)
  }

  predicate ServedInTime(run: ServeRun) {
    InGrace(run.stop.shutdown) && StartInTime(run.start) && SwitchInTime(run.switch)
  }

  function Served(s: State, request: Request, run: ServeRun): State {
    Reaped(Requested(s, request, run), run.after.seen).state
  }

  function ServeCalls(s: State, request: Request, run: ServeRun): seq<Call> {
    RequestCalls(s, request, run) + StatusCalls(Requested(s, request, run), run.after)
  }

  function ServedAll(s: State, requests: seq<Request>, runs: seq<ServeRun>): State
    requires |runs| == |requests|
  {
    if requests == [] then s
    else
      var n := |requests| - 1;
      Served(ServedAll(s, requests[..n], runs[..n]), requests[n], runs[n])
  }

  function ServeAllCalls(s: State, requests: seq<Request>, runs: seq<ServeRun>): seq<Call>
    requires |runs| == |requests|
  {
    if requests == [] then []
    else
      var n := |requests| - 1;
      ServeAllCalls(s, requests[..n], runs[..n])
      + ServeCalls(ServedAll(s, requests[..n], runs[..n]), requests[n], runs[n])
  }

  // ---- what a failure leaves behind -----------------------------------------------------------

  /** The stop of a child that stays tracked: its state cannot be read, the signal is refused,
      or the wait for its end fails. */
  predicate StopFails(run: StopRun) {
    || run.seen.WaitFailed?
    || (run.seen.StillRunning? && run.term.KillRefused?)
    || (run.seen.StillRunning? && run.term.Delivered? && ShutdownError(run.shutdown.ending).Some?)
  }

  /** A start that spawned a child and then failed tracks it exactly when the child did not exit
      by itself and the stop that cleans up fails too. */
  lemma FailedStart(s: State, run: StartRun)
    requires s.child.None? || run.seen.Exited?
    requires run.binary && run.spawned.Some? && Verdict(run.health.end).Some?
    ensures Started(s, run).error == Verdict(run.health.end)
    ensures Started(s, run).state.child
         == if Verdict(run.health.end) != Some(ExitedEarly) && StopFails(run.cleanup) then run.spawned else None
  {
    var tracked := s.(child := run.spawned);
    assert Stopped(tracked, run.cleanup).state.child.Some? <==> StopFails(run.cleanup);
  }

  /** A successful start ends with the check that found its child healthy. */
  lemma StartEndsHealthy(s: State, run: StartRun)
    requires StartInTime(run) && Started(s, run).error.None?
    ensures run.spawned.Some? && EndsHealthy(StartCalls(s, run), run.spawned.value)
  {
    var pid, calls := run.spawned.value, StartCalls(s, run);
    var o, before := run.health.end.o, [Clock(run.health.start)] + RoundCalls(pid, run.health.rounds);
    var check := CheckCalls(pid, o);
    assert HealthCalls(pid, run.health) == before + ([Clock(run.health.end.at), TryWait(pid, StillRunning)] + check);
    assert calls[|calls| - 3..] == check;
  }

  lemma {:induction false} PollsKillNobody(pid: Pid, polls: seq<nat>, i: nat)
    requires i < |PollCalls(pid, polls)|
    ensures !PollCalls(pid, polls)[i].Signal?
  {
    var n := |polls| - 1;
    if i < |PollCalls(pid, polls[..n])| { PollsKillNobody(pid, polls[..n], i); }
  }

  /** A start looks at its child at most 150 times in vain, and a stop polls at most 50 times. */
  lemma WaitsAreShort(pid: Pid, h: HealthWait, sh: Shutdown)
    requires Patient(pid, START_TIMEOUT_MS, h) && InGrace(sh)
    ensures |h.rounds| <= 150 && |sh.polls| <= 50
  {
    var n, m := |h.rounds|, |sh.polls|;
    assert n > 0 ==> h.start + (n - 1) * POLL_MS <= h.rounds[n - 1].at < h.start + START_TIMEOUT_MS;
    assert m > 0 ==> sh.start + (m - 1) * POLL_MS <= sh.polls[m - 1] < sh.start + STOP_TIMEOUT_MS;
  }

  /** A stop kills only its child, only after the termination signal was delivered, and only when
      the clock has shown five seconds to be over since. */
  lemma KillOnlyAfterGrace(child: Option<Pid>, run: StopRun, i: nat)
    requires InGrace(run.shutdown) && i < |StopCalls(child, run)|
    requires StopCalls(child, run)[i].Signal? && StopCalls(child, run)[i].fatal
    ensures child.Some? && StopCalls(child, run)[i].pid == child.value && i >= 4
    ensures var calls := StopCalls(child, run);
            && calls[1] == Signal(child.value, false, Delivered)
            && calls[2].Clock? && calls[i - 1].Clock? && calls[i - 1].ms >= calls[2].ms + 5_000
  {
    var pid, sh := child.value, run.shutdown;
    var polls, ending := PollCalls(pid, sh.polls), EndingCalls(pid, sh.ending);
    assert StopCalls(child, run)
        == [TryWait(pid, run.seen), Signal(pid, false, run.term), Clock(sh.start)] + polls + ending;
    if 3 <= i < 3 + |polls| {
      PollsKillNobody(pid, sh.polls, i - 3);
    }
  }

  /** No child is left to stop, or the stop succeeds. */
  predicate TakesProfile(s: State, run: SwitchRun) {
    s.child.None? || run.seen.Exited? || (run.seen.StillRunning? && Stopped(s, run.stop).error.None?)
  }

  /** A profile switch takes the new profile exactly when nothing was left running to refuse it. */
  lemma SwitchCommits(s: State, profile: Profile, run: SwitchRun)
    requires profile != s.profile
    ensures Switched(s, profile, run).state.profile == profile <==> TakesProfile(s, run)
    ensures Switched(s, profile, run).error.None? ==> Switched(s, profile, run).state.profile == profile
  {
    assert Switched(s, profile, run).state.profile in {profile, s.profile};
  }

  /** The profile switch whose stop fails never changes the profile. It keeps the child too,
      unless the child exits between the two looks the switch takes at it. */
  lemma FailedStopInSwitch(s: State, profile: Profile, run: SwitchRun)
    requires s.child.Some? && run.seen.StillRunning? && Stopped(s, run.stop).error.Some?
    ensures Switched(s, profile, run).error == Stopped(s, run.stop).error
    ensures Switched(s, profile, run).state.profile == s.profile
    ensures Switched(s, profile, run).state == s <==> !run.stop.seen.Exited?
  {
    assert Stopped(s, run.stop).error == Some(NotRunning) <==> run.stop.seen.Exited?;
  }

  /** The failing family is not empty: the switch is refused, and the child is gone. */
  lemma SwitchLosesChild()
    returns (s: State, run: SwitchRun)
    ensures s.child.Some? && Switched(s, Performance, run).error == Some(NotRunning)
    ensures Switched(s, Performance, run).state == State(Balanced, None) && s.profile == Balanced
  {
    var stop := StopRun(Exited, Delivered, Shutdown(0, [], Exits));
    s := State(Balanced, Some(42));
    run := SwitchRun(StillRunning, stop, StartRun(StillRunning, true, None, HealthWait(0, [], Late(0)), stop));
  }
}
