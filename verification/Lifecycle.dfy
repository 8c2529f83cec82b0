/** The daemon's scheduler process (services/cerynthd/src/backends/scx.rs) against an operating
    system in which processes die at any moment and almost every call can fail. */
module Lifecycle {
  import opened Types
  import opened LifecycleSpec
  import LifecycleOutcomes
  import opened Text
  import SeqFacts

  datatype Proc = Proc(alive: bool, profile: Profile)

  type Procs = map<Pid, Proc>

  // ---- the operating system ----------------------------------------------------------------

  /** Processes only die, and keep the profile they were launched with. */
  ghost predicate Aged(a: Procs, b: Procs) {
    && (forall p :: p in a <==> p in b)
    && (forall p :: p in a ==> b[p].profile == a[p].profile && (b[p].alive ==> a[p].alive))
  }

  function Bury(procs: Procs, pid: Pid): Procs {
    if pid in procs then procs[pid := procs[pid].(alive := false)] else procs
  }

  /** Every process the backend ever spawned, the monotonic clock, and the history of the calls
      it answered, each with its answer. */
  class Os {
    var procs: Procs
    var now: nat
    ghost var calls: seq<Call>

    constructor ()
      ensures procs == map[] && calls == []
    {
      procs, calls := map[], [];
      now := *;
    }

    /** Between two calls any processes may die and time may pass. */
    method Elapse()
      modifies this`procs, this`now
      ensures Aged(old(procs), procs) && now >= old(now)
    {
      var dead: set<Pid> := *;
      procs := map p | p in procs :: if p in dead then procs[p].(alive := false) else procs[p];
      var passed: int := *;
      if passed > 0 { now := now + passed; }
    }

    method TryWait(pid: Pid) returns (seen: WaitResult)
      modifies this
      ensures Aged(old(procs), procs) && now >= old(now)
      ensures calls == old(calls) + [Call.TryWait(pid, seen)]
      ensures seen.Exited? && pid in procs ==> !procs[pid].alive
    {
      Elapse();
      seen := *;
      if seen.Exited? { procs := Bury(procs, pid); }
      calls := calls + [Call.TryWait(pid, seen)];
    }

    /** A missing process is dead; a delivered signal promises nothing yet. */
    method Signal(pid: Pid, fatal: bool) returns (result: KillResult)
      modifies this
      ensures Aged(old(procs), procs) && now >= old(now)
      ensures calls == old(calls) + [Call.Signal(pid, fatal, result)]
      ensures result.NoSuchProcess? && pid in procs ==> !procs[pid].alive
    {
      Elapse();
      result := *;
      if result.NoSuchProcess? { procs := Bury(procs, pid); }
      calls := calls + [Call.Signal(pid, fatal, result)];
    }

    method Wait(pid: Pid) returns (reaped: bool)
      modifies this
      ensures Aged(old(procs), procs) && now >= old(now)
      ensures calls == old(calls) + [Call.Wait(pid, reaped)]
      ensures reaped && pid in procs ==> !procs[pid].alive
    {
      Elapse();
      reaped := *;
      if reaped { procs := Bury(procs, pid); }
      calls := calls + [Call.Wait(pid, reaped)];
    }

    method BinaryExists() returns (present: bool)
      modifies this
      ensures Aged(old(procs), procs) && now >= old(now)
      ensures calls == old(calls) + [Call.BinaryExists(present)]
    {
      Elapse();
      present := *;
      calls := calls + [Call.BinaryExists(present)];
    }

    /** A spawned process has a new PID; it may be dead before the caller looks. */
    method Spawn(profile: Profile) returns (spawned: Option<Pid>)
      modifies this
      ensures now >= old(now)
      ensures calls == old(calls) + [Call.Spawn(profile, spawned)]
      ensures spawned.None? ==> Aged(old(procs), procs)
      ensures spawned.Some? ==>
                && spawned.value !in old(procs) && spawned.value >= 0
                && spawned.value in procs && procs[spawned.value].profile == profile
                && Aged(old(procs), procs - {spawned.value})
    {
      Elapse();
      var candidate: int := *;
      var alive: bool := *;
      spawned := None;
      if candidate >= 0 && candidate !in procs {
        procs := procs[candidate := Proc(alive, profile)];
        assert forall p :: p in old(procs) ==> p != candidate;
        spawned := Some(candidate);
      }
      calls := calls + [Call.Spawn(profile, spawned)];
    }

    /** Signal 0: whether the process answers. */
    method Probe(pid: Pid) returns (answers: bool)
      modifies this
      ensures Aged(old(procs), procs) && now >= old(now)
      ensures calls == old(calls) + [Call.Probe(pid, answers)]
    {
      Elapse();
      answers := *;
      calls := calls + [Call.Probe(pid, answers)];
    }

    method ReadStateFile() returns (text: Option<string>)
      modifies this
      ensures Aged(old(procs), procs) && now >= old(now)
      ensures calls == old(calls) + [StateFile(text)]
    {
      Elapse();
      text := *;
      calls := calls + [StateFile(text)];
    }

    method ReadStatusFile() returns (record: Option<Heartbeat>, wallSecs: Option<nat>)
      modifies this
      ensures Aged(old(procs), procs) && now >= old(now)
      ensures calls == old(calls) + [StatusFile(record, wallSecs)]
    {
      Elapse();
      record, wallSecs := *, *;
      calls := calls + [StatusFile(record, wallSecs)];
    }

    method ReadClock() returns (ms: nat)
      modifies this
      ensures Aged(old(procs), procs) && now >= old(now)
      ensures ms == now && calls == old(calls) + [Clock(ms)]
    {
      Elapse();
      ms := now;
      calls := calls + [Clock(ms)];
    }

    method Sleep(period: nat)
      modifies this
      ensures Aged(old(procs), procs) && now >= old(now) + period
      ensures calls == old(calls) + [Call.Sleep(period)]
    {
      Elapse();
      now := now + period;
      calls := calls + [Call.Sleep(period)];
    }
  }

  // ---- what the backend tracks --------------------------------------------------------------

  /** No process is alive but the tracked one, and that one runs the current profile. */
  ghost predicate Safe(procs: Procs, child: Option<Pid>, profile: Profile) {
    && (child.Some? ==> child.value in procs && procs[child.value].profile == profile)
    && forall p :: p in procs && procs[p].alive ==> child == Some(p)
  }

  lemma AgedSafe(a: Procs, b: Procs, child: Option<Pid>, profile: Profile)
    requires Safe(a, child, profile) && Aged(a, b)
    ensures Safe(b, child, profile)
  {
    if child.Some? {
      var p := child.value;
      assert p in a;
      assert p in b && b[p].profile == a[p].profile;
    }
  }

  /** Dropping a dead child keeps the promise, whatever the profile becomes. */
  lemma DropSafe(procs: Procs, child: Option<Pid>, profile: Profile, profile': Profile)
    requires Safe(procs, child, profile)
    requires child.Some? ==> !procs[child.value].alive
    ensures Safe(procs, None, profile')
  {
  }

  lemma AgedTrans(a: Procs, b: Procs, c: Procs)
    requires Aged(a, b) && Aged(b, c)
    ensures Aged(a, c)
  {
  }

  /** A spawn from a state with no child: the new process is the only one that may be alive. */
  lemma SpawnSafe(before: Procs, after: Procs, pid: Pid, profile: Profile)
    requires Safe(before, None, profile)
    requires pid !in before && pid in after && after[pid].profile == profile
    requires Aged(before, after - {pid})
    ensures Safe(after, Some(pid), profile)
  {
    forall p | p in after && p != pid
      ensures !after[p].alive
    {
      assert p in after - {pid};
    }
  }

  lemma SuffixHealthy(before: seq<Call>, calls: seq<Call>, pid: Pid)
    requires EndsHealthy(calls, pid)
    ensures EndsHealthy(before + calls, pid)
  {
  }

  // ---- how the histories of the two loops grow ------------------------------------------------

  /** The calls of a health wait before its last look. */
  function Opening(pid: Pid, start: nat, rounds: seq<Round>): seq<Call> {
    [Clock(start)] + RoundCalls(pid, rounds)
  }

  /** The checks so far were in time, a period apart, and in vain. */
  predicate Waiting(pid: Pid, timeout: nat, start: nat, rounds: seq<Round>) {
    Patient(pid, timeout, HealthWait(start, rounds, Late(start + timeout)))
  }

  lemma OpeningStarts(c: seq<Call>, pid: Pid, timeout: nat, start: nat)
    ensures Waiting(pid, timeout, start, [])
    ensures c + [Clock(start)] == c + Opening(pid, start, [])
  {
  }

  lemma RoundIsOver(c: seq<Call>, pid: Pid, timeout: nat, start: nat, rounds: seq<Round>, r: Round)
    requires Waiting(pid, timeout, start, rounds) && !Healthy(r.o, pid)
    requires start + |rounds| * POLL_MS <= r.at < start + timeout
    ensures Waiting(pid, timeout, start, rounds + [r])
    ensures c + Opening(pid, start, rounds) + [Clock(r.at)] + [Call.TryWait(pid, StillRunning)]
            + CheckCalls(pid, r.o) + [Call.Sleep(POLL_MS)]
         == c + Opening(pid, start, rounds + [r])
  {
    assert (rounds + [r])[..|rounds|] == rounds;
    hide CheckCalls, Healthy;
  }

  lemma WaitIsLate(c: seq<Call>, pid: Pid, timeout: nat, h: HealthWait)
    requires h.end.Late? && Waiting(pid, timeout, h.start, h.rounds)
    requires h.end.at >= h.start + timeout
    ensures Patient(pid, timeout, h)
    ensures c + Opening(pid, h.start, h.rounds) + [Clock(h.end.at)] == c + HealthCalls(pid, h)
  {
    hide RoundCalls;
  }

  lemma WaitIsLost(c: seq<Call>, pid: Pid, timeout: nat, h: HealthWait)
    requires h.end.Lost? && Waiting(pid, timeout, h.start, h.rounds)
    requires h.end.at < h.start + timeout && !h.end.seen.StillRunning?
    ensures Patient(pid, timeout, h)
    ensures c + Opening(pid, h.start, h.rounds) + [Clock(h.end.at)] + [Call.TryWait(pid, h.end.seen)]
         == c + HealthCalls(pid, h)
  {
    hide RoundCalls;
  }

  lemma WaitIsOver(c: seq<Call>, pid: Pid, timeout: nat, h: HealthWait)
    requires h.end.Seen? && Waiting(pid, timeout, h.start, h.rounds)
    requires h.end.at < h.start + timeout && Healthy(h.end.o, pid)
    ensures Patient(pid, timeout, h)
    ensures c + Opening(pid, h.start, h.rounds) + [Clock(h.end.at)] + [Call.TryWait(pid, StillRunning)]
            + CheckCalls(pid, h.end.o)
         == c + HealthCalls(pid, h)
  {
    hide RoundCalls, CheckCalls;
  }

  /** The calls of a shutdown before its last look. */
  function Polled(pid: Pid, start: nat, polls: seq<nat>): seq<Call> {
    [Clock(start)] + PollCalls(pid, polls)
  }

  lemma PollingStarts(c: seq<Call>, pid: Pid, start: nat)
    ensures c + [Clock(start)] == c + Polled(pid, start, [])
  {
  }

  lemma PollIsOver(c: seq<Call>, pid: Pid, start: nat, polls: seq<nat>, at: nat)
    ensures c + Polled(pid, start, polls) + [Call.TryWait(pid, StillRunning)] + [Clock(at)] + [Call.Sleep(POLL_MS)]
         == c + Polled(pid, start, polls + [at])
  {
    assert (polls + [at])[..|polls|] == polls;
  }

  lemma PollEnds(c: seq<Call>, pid: Pid, sh: Shutdown)
    requires !sh.ending.Overdue?
    ensures c + Polled(pid, sh.start, sh.polls) + EndingCalls(pid, sh.ending) == c + ShutdownCalls(pid, sh)
  {
    hide PollCalls, EndingCalls;
  }

  lemma PollIsOverdue(c: seq<Call>, pid: Pid, sh: Shutdown)
    requires sh.ending.Overdue?
    ensures c + Polled(pid, sh.start, sh.polls) + [Call.TryWait(pid, StillRunning)] + [Clock(sh.ending.at)]
            + KillCalls(pid, sh.ending.kill, sh.ending.reaped)
         == c + ShutdownCalls(pid, sh)
  {
    hide PollCalls, KillCalls;
  }

  // ---- runs in which nothing was called ------------------------------------------------------

  ghost function AnyStop(): StopRun {
    StopRun(StillRunning, Delivered, Shutdown(0, [], Exits))
  }

  ghost function AnyStart(): StartRun {
    StartRun(StillRunning, false, None, HealthWait(0, [], Late(START_TIMEOUT_MS)), AnyStop())
  }

  lemma AnyInTime()
    ensures InGrace(AnyStop().shutdown) && StartInTime(AnyStart())
    ensures SwitchInTime(SwitchRun(StillRunning, AnyStop(), AnyStart()))
  {
  }

  // ---- the backend -----------------------------------------------------------------------------

  class ScxBackend {
    const os: Os
    var profile: Profile
    var adaptationEnabled: bool
    var pid: Option<Pid>
    var child: Option<Pid>

    ghost predicate Valid()
      reads this, os
    {
      pid == child && Safe(os.procs, child, profile)
    }

    /** What the decisions of `LifecycleSpec` speak about. */
    ghost function Now(): State
      reads this
    {
      State(profile, child)
    }

    constructor (profile: Profile)
      ensures Valid() && fresh(os) && os.calls == [] && this.profile == profile && child.None? && adaptationEnabled
    {
      os := new Os();
      this.profile := profile;
      adaptationEnabled := true;
      pid, child := None, None;
    }

    method WithAdaptation(enabled: bool)
      modifies this`adaptationEnabled
      ensures adaptationEnabled == enabled
    {
      adaptationEnabled := enabled;
    }

    /** Time passing keeps what the backend promises. */
    lemma Keep(first: Procs, before: Procs)
      requires pid == child && Safe(before, child, profile)
      requires Aged(first, before) && Aged(before, os.procs)
      ensures Valid() && Aged(first, os.procs)
    {
      AgedSafe(before, os.procs, child, profile);
      AgedTrans(first, before, os.procs);
    }

    /** Drop a child that is dead. */
    method Untrack()
      requires Valid() && (child.Some? ==> !os.procs[child.value].alive)
      modifies this`pid, this`child
      ensures Valid() && Now() == old(Now()).(child := None)
    {
      DropSafe(os.procs, child, profile, profile);
      child := None;
      pid := None;
    }

    /** Forget a child that has exited. A child whose state cannot be read stays tracked. */
    method ReapChild() returns (r: Option<Error>, ghost seen: WaitResult)
      requires Valid()
      modifies this`pid, this`child, os
      ensures Valid() && Aged(old(os.procs), os.procs) && os.now >= old(os.now)
      ensures Outcome(Now(), r) == Reaped(old(Now()), seen)
      ensures os.calls == old(os.calls) + ReapCalls(old(child), seen)
    {
      seen := StillRunning;
      if child.None? {
        pid := None;
        return None, seen;
      }
      var w := os.TryWait(child.value);
      seen := w;
      AgedSafe(old(os.procs), os.procs, child, profile);
      match w
      case Exited =>
        Untrack();
        return None, seen;
      case StillRunning => return None, seen;
      case WaitFailed => return Some(InspectFailed), seen;
    }

    /** One health check: the probe, and if it answers, both files, in this order. */
    method SchedulerIsHealthy() returns (healthy: bool, ghost o: Observation)
      requires Valid()
      modifies os
      ensures Valid() && Aged(old(os.procs), os.procs) && os.now >= old(os.now)
      ensures healthy <==> pid.Some? && Healthy(o, pid.value)
      ensures healthy <==>
                && pid.Some? && o.probeOk
                && o.state.Some? && Reads(o.state.value, "enabled") && ShowsBeat(o.record, o.wallSecs, pid.value)
      ensures os.calls == old(os.calls) + if pid.None? then [] else CheckCalls(pid.value, o)
    {
      hide Reads, ShowsBeat, ReadState, HeartbeatFresh;
      o := Observation(false, None, None, None);
      if pid.None? { return false, o; }
      var answers := os.Probe(pid.value);
      ghost var p0 := os.procs;
      Keep(old(os.procs), old(os.procs));
      if !answers { return false, o; }
      var text := os.ReadStateFile();
      Keep(old(os.procs), p0);
      ghost var p1 := os.procs;
      var record, wallSecs := os.ReadStatusFile();
      Keep(old(os.procs), p1);
      var read := Observation(true, text, record, wallSecs);
      o := read;
      var enabled := ReadState(read) == Some("enabled");
      var beating := HeartbeatFresh(read, pid.value);
      HealthyExactly(read, pid.value);
      return enabled && beating, o;
    }

    /** The rest of a round: the check, and the pause if it fails. */
    method CheckOrPause() returns (healthy: bool, ghost o: Observation)
      requires Valid() && pid.Some?
      modifies os
      ensures Valid() && Aged(old(os.procs), os.procs)
      ensures os.now >= old(os.now) + if healthy then 0 else POLL_MS
      ensures healthy <==> Healthy(o, pid.value)
      ensures os.calls == old(os.calls) + CheckCalls(pid.value, o) + if healthy then [] else [Call.Sleep(POLL_MS)]
    {
      hide CheckCalls, Healthy, Aged, Safe;
      healthy, o := SchedulerIsHealthy();
      ghost var p0 := os.procs;
      if !healthy {
        os.Sleep(POLL_MS);
        Keep(old(os.procs), p0);
      }
    }

    /** Poll until the tracked scheduler is healthy, has exited, or the time is up. */
    method WaitUntilHealthy(timeout: nat) returns (r: Option<Error>, ghost h: HealthWait)
      requires Valid() && child.Some?
      modifies this`pid, this`child, os
      ensures Valid() && Aged(old(os.procs), os.procs) && os.now >= old(os.now)
      ensures r == Verdict(h.end) && Patient(old(child.value), timeout, h)
      ensures child == if r == Some(ExitedEarly) then None else old(child)
      ensures os.calls == old(os.calls) + HealthCalls(old(child.value), h)
    {
      ghost var p, c, rounds := child.value, os.calls, [];
      hide HealthCalls, Opening, CheckCalls, Healthy, Aged, Safe, Waiting, Patient;
      var start := os.ReadClock();
      Keep(old(os.procs), old(os.procs));
      OpeningStarts(c, p, timeout, start);
      while true
        invariant Valid() && Aged(old(os.procs), os.procs) && child == Some(p)
        invariant os.now >= start + |rounds| * POLL_MS && start >= old(os.now)
        invariant Waiting(p, timeout, start, rounds)
        invariant os.calls == c + Opening(p, start, rounds)
        decreases start + timeout - os.now
      {
        ghost var p0 := os.procs;
        var at := os.ReadClock();
        Keep(old(os.procs), p0);
        if at >= start + timeout {
          h := HealthWait(start, rounds, Late(at));
          WaitIsLate(c, p, timeout, h);
          return Some(TimedOut), h;
        }
        ghost var p1 := os.procs;
        var e, seen := ReapChild();
        AgedTrans(old(os.procs), p1, os.procs);
        if e.Some? || pid.None? {
          h := HealthWait(start, rounds, Lost(at, seen));
          WaitIsLost(c, p, timeout, h);
          return if e.Some? then e else Some(ExitedEarly), h;
        }
        ghost var p2 := os.procs;
        var healthy, o := CheckOrPause();
        AgedTrans(old(os.procs), p2, os.procs);
        if healthy {
          h := HealthWait(start, rounds, Seen(at, o));
          WaitIsOver(c, p, timeout, h);
          return None, h;
        }
        RoundIsOver(c, p, timeout, start, rounds, Round(at, o));
        rounds := rounds + [Round(at, o)];
      }
    }

    /** The loop of a stop: poll until the child is gone, and kill it once after the deadline. */
    method AwaitShutdown() returns (r: Option<Error>, ghost sh: Shutdown)
      requires Valid() && child.Some?
      modifies os
      ensures Valid() && Aged(old(os.procs), os.procs) && os.now >= old(os.now)
      ensures r == ShutdownError(sh.ending) && InGrace(sh)
      ensures r.None? ==> !os.procs[child.value].alive
      ensures os.calls == old(os.calls) + ShutdownCalls(child.value, sh)
    {
      ghost var p, c, polls := child.value, os.calls, [];
      hide ShutdownCalls, Polled, KillCalls;
      var start := os.ReadClock();
      Keep(old(os.procs), old(os.procs));
      PollingStarts(c, p, start);
      while true
        invariant Valid() && Aged(old(os.procs), os.procs)
        invariant os.now >= start + |polls| * POLL_MS && start >= old(os.now)
        invariant InGrace(Shutdown(start, polls, Exits))
        invariant os.calls == c + Polled(p, start, polls)
        decreases start + STOP_TIMEOUT_MS - os.now
      {
        ghost var p0 := os.procs;
        var w := os.TryWait(child.value);
        Keep(old(os.procs), p0);
        match w
        case Exited =>
          sh := Shutdown(start, polls, Exits);
          PollEnds(c, p, sh);
          return None, sh;
        case WaitFailed =>
          sh := Shutdown(start, polls, Unreadable);
          PollEnds(c, p, sh);
          return Some(PollFailed), sh;
        case StillRunning =>
          ghost var p1 := os.procs;
          var at := os.ReadClock();
          Keep(old(os.procs), p1);
          ghost var p2 := os.procs;
          if at >= start + STOP_TIMEOUT_MS {
            ghost var kill, reaped;
            r, kill, reaped := KillOverdue();
            AgedTrans(old(os.procs), p2, os.procs);
            sh := Shutdown(start, polls, Overdue(at, kill, reaped));
            PollIsOverdue(c, p, sh);
            return;
          }
          os.Sleep(POLL_MS);
          Keep(old(os.procs), p2);
          PollIsOver(c, p, start, polls, at);
          polls := polls + [at];
      }
    }

    /** The deadline has passed: kill the child and wait for its end. */
    method KillOverdue() returns (r: Option<Error>, ghost kill: KillResult, ghost reaped: bool)
      requires Valid() && child.Some?
      modifies os
      ensures Valid() && Aged(old(os.procs), os.procs) && os.now >= old(os.now)
      ensures r == if kill.KillRefused? then Some(KillFailed) else if reaped then None else Some(ReapFailed)
      ensures r.None? ==> !os.procs[child.value].alive
      ensures os.calls == old(os.calls) + KillCalls(child.value, kill, reaped)
    {
      ghost var p0 := os.procs;
      var result := os.Signal(child.value, true);
      Keep(p0, p0);
      kill, reaped := result, false;
      if result.KillRefused? { return Some(KillFailed), kill, reaped; }
      ghost var p1 := os.procs;
      var ok := os.Wait(child.value);
      Keep(p0, p1);
      reaped := ok;
      return if ok then None else Some(ReapFailed), kill, reaped;
    }

    /** Terminate the child, then kill it if it outlives the grace period. */
    method Stop() returns (r: Option<Error>, ghost run: StopRun)
      requires Valid()
      modifies this`pid, this`child, os
      ensures Valid() && Aged(old(os.procs), os.procs) && os.now >= old(os.now)
      ensures Outcome(Now(), r) == Stopped(old(Now()), run) && InGrace(run.shutdown)
      ensures os.calls == old(os.calls) + StopCalls(old(child), run)
    {
      ghost var c, any := os.calls, Shutdown(0, [], Exits);
      var e, seen := ReapChild();
      run := StopRun(seen, Delivered, any);
      if e.Some? { return e, run; }
      if child.None? { return Some(NotRunning), run; }
      ghost var p, p0 := child.value, os.procs;
      var term := os.Signal(child.value, false);
      Keep(old(os.procs), p0);
      run := StopRun(seen, term, any);
      assert c + [Call.TryWait(p, seen)] + [Call.Signal(p, false, term)]
          == c + [Call.TryWait(p, seen), Call.Signal(p, false, term)];
      match term
      case KillRefused => return Some(TermFailed), run;
      case NoSuchProcess =>
        Untrack();
        return None, run;
      case Delivered =>
        ghost var p1, sh := os.procs, any;
        r, sh := AwaitShutdown();
        AgedTrans(old(os.procs), p1, os.procs);
        run := StopRun(seen, term, sh);
        SeqFacts.Assoc(c, [Call.TryWait(p, seen), Call.Signal(p, false, term)], ShutdownCalls(p, sh));
        if r.None? { Untrack(); }
    }

    /** A child that never became healthy is stopped; the verdict of the wait is what counts. */
    method EnsureHealthyStartup(timeout: nat)
      returns (r: Option<Error>, ghost h: HealthWait, ghost cleanup: StopRun)
      requires Valid() && child.Some?
      modifies this`pid, this`child, os
      ensures Valid() && Aged(old(os.procs), os.procs) && os.now >= old(os.now)
      ensures r == Verdict(h.end) && Patient(old(child.value), timeout, h) && InGrace(cleanup.shutdown)
      ensures r.None? ==> child == old(child) && os.calls == old(os.calls) + HealthCalls(old(child.value), h)
      ensures r.Some? ==>
                var left := if r == Some(ExitedEarly) then None else old(child);
                && Now() == Stopped(old(Now()).(child := left), cleanup).state
                && os.calls == old(os.calls) + HealthCalls(old(child.value), h) + StopCalls(left, cleanup)
      ensures profile == old(profile)
    {
      cleanup := AnyStop();
      r, h := WaitUntilHealthy(timeout);
      if r.Some? {
        ghost var p := os.procs;
        var ignored, run := Stop();
        AgedTrans(old(os.procs), p, os.procs);
        cleanup := run;
      }
    }

    /** Spawn a scheduler with the current profile and wait until it is healthy. No process of
        an earlier start is alive at that moment; success ends with a healthy check of the child,
        and a failed start keeps its child exactly when the child did not exit and the stop that
        cleans up fails. */
    method Start() returns (r: Option<Error>, ghost run: StartRun)
      requires Valid()
      modifies this`pid, this`child, os
      ensures Valid() && os.now >= old(os.now)
      ensures Outcome(Now(), r) == Started(old(Now()), run) && StartInTime(run)
      ensures os.calls == old(os.calls) + StartCalls(old(Now()), run)
      ensures r.None? ==> child.Some? && EndsHealthy(os.calls, child.value)
      ensures r.Some? && run.spawned.Some? ==>
                (child == run.spawned <==> r != Some(ExitedEarly) && StopFails(run.cleanup))
                && (child != run.spawned ==> child.None?)
      ensures run.spawned.Some? ==> run.spawned.value !in old(os.procs)
      ensures run.spawned.Some? ==> forall p :: p in old(os.procs) ==> p in os.procs && !os.procs[p].alive
    {
      hide HealthCalls, StopCalls, Patient, InGrace, StopFails, EndsHealthy, Stopped, Healthy;
      AnyInTime();
      ghost var c, s0 := os.calls, Now();
      ghost var stop := AnyStop();
      ghost var health := HealthWait(0, [], Late(START_TIMEOUT_MS));
      var e, seen := ReapChild();
      run := StartRun(seen, false, None, health, stop);
      if e.Some? { return e, run; }
      if pid.Some? { return Some(AlreadyRunning), run; }
      ghost var reap := ReapCalls(s0.child, seen);
      ghost var p0 := os.procs;
      var present := os.BinaryExists();
      Keep(old(os.procs), p0);
      run := StartRun(seen, present, None, health, stop);
      ghost var looked := reap + [Call.BinaryExists(present)];
      SeqFacts.Assoc(c, reap, [Call.BinaryExists(present)]);
      if !present { return Some(BinaryMissing), run; }
      ghost var p1 := os.procs;
      var spawned := os.Spawn(profile);
      run := StartRun(seen, true, spawned, health, stop);
      ghost var launched := looked + [Call.Spawn(profile, spawned)];
      SeqFacts.Assoc(c, looked, [Call.Spawn(profile, spawned)]);
      if spawned.None? {
        Keep(old(os.procs), p1);
        return Some(SpawnFailed), run;
      }
      SpawnSafe(p1, os.procs, spawned.value, profile);
      pid := spawned;
      child := spawned;
      r, health, stop := EnsureHealthyStartup(START_TIMEOUT_MS);
      run := StartRun(seen, true, spawned, health, stop);
      ghost var waited := HealthCalls(spawned.value, health);
      SeqFacts.Assoc(c, launched, waited);
      if r.Some? {
        SeqFacts.Assoc(c, launched + waited, StopCalls(LeftToStop(run), stop));
        FailedStart(s0, run);
      } else {
        StartEndsHealthy(s0, run);
        SuffixHealthy(c, StartCalls(s0, run), spawned.value);
      }
    }

    /** The report tells what the backend holds. */
    predicate Tells(report: Report)
      reads this
    {
      && report.profile == profile && report.adaptationEnabled == adaptationEnabled
      && report.running == child.Some?
    }

    /** It shows the word in the state file, if there is one, and whether the tracked child beats. */
    ghost predicate ShowsFiles(report: Report, o: Observation)
      reads this
    {
      && (report.heartbeatOk <==> child.Some? && ShowsBeat(o.record, o.wallSecs, child.value))
      && forall word :: Tight(word) ==>
           (report.schedExtState == Some(word) <==>
              o.state.Some? && Reads(o.state.value, word) && word != "" && word != "none")
    }

    method Status() returns (r: Option<Error>, report: Report, ghost run: StatusRun)
      requires Valid()
      modifies this`pid, this`child, os
      ensures Valid() && os.now >= old(os.now)
      ensures Outcome(Now(), r) == Reaped(old(Now()), run.seen)
      ensures os.calls == old(os.calls) + StatusCalls(old(Now()), run)
      ensures r.None? ==> report == ReportOf(Now(), adaptationEnabled, run.o)
      ensures r.None? ==> Tells(report) && ShowsFiles(report, run.o)
    {
      hide Reads, Tight, ShowsBeat, ReadState, HeartbeatFresh;
      ghost var c, s0 := os.calls, Now();
      report := Report(profile, adaptationEnabled, false, None, false);
      var e, seen := ReapChild();
      run := StatusRun(seen, Observation(false, None, None, None));
      if e.Some? { return e, report, run; }
      ghost var reap := ReapCalls(s0.child, seen);
      ghost var p0 := os.procs;
      var text := os.ReadStateFile();
      Keep(p0, p0);
      SeqFacts.Assoc(c, reap, [StateFile(text)]);
      var o := Observation(false, text, None, None);
      if pid.Some? {
        ghost var p1 := os.procs;
        var record, wallSecs := os.ReadStatusFile();
        Keep(p0, p1);
        SeqFacts.Assoc(c, reap + [StateFile(text)], [StatusFile(record, wallSecs)]);
        o := Observation(false, text, record, wallSecs);
      }
      run := StatusRun(seen, o);
      report := Report(profile, adaptationEnabled, pid.Some?, ReadState(o), pid.Some? && HeartbeatFresh(o, pid.value));
      if pid.Some? { HealthyExactly(o, pid.value); }
      forall word | Tight(word)
        ensures report.schedExtState == Some(word) <==>
                  o.state.Some? && Reads(o.state.value, word) && word != "" && word != "none"
      {
        StateExactly(o, word);
      }
      return None, report, run;
    }

    /** Restart under the new profile if a scheduler runs, else just remember the profile. */
    method SetProfile(newProfile: Profile) returns (r: Option<Error>, ghost run: SwitchRun)
      requires Valid()
      modifies this`profile, this`pid, this`child, os
      ensures Valid() && os.now >= old(os.now)
      ensures Outcome(Now(), r) == Switched(old(Now()), newProfile, run) && SwitchInTime(run)
      ensures os.calls == old(os.calls) + SwitchCalls(old(Now()), newProfile, run)
      ensures newProfile != old(profile) ==>
                (profile == newProfile <==> TakesProfile(old(Now()), run)) && (r.None? ==> profile == newProfile)
      ensures r.None? && child.Some? ==> EndsHealthy(os.calls, child.value) && child.value !in old(os.procs)
      ensures r.None? ==> (child.Some? <==> old(child).Some? && run.seen.StillRunning?)
    {
      ghost var c, s0 := os.calls, Now();
      ghost var stop, start := AnyStop(), AnyStart();
      forall w: SwitchRun | newProfile != s0.profile
        ensures Switched(s0, newProfile, w).state.profile == newProfile <==> TakesProfile(s0, w)
        ensures Switched(s0, newProfile, w).error.None? ==> Switched(s0, newProfile, w).state.profile == newProfile
      {
        SwitchCommits(s0, newProfile, w);
      }
      hide Stopped, Started, TakesProfile, StopCalls, StartCalls, EndsHealthy, StartInTime, InGrace;
      AnyInTime();
      var e, seen := ReapChild();
      run := SwitchRun(seen, stop, start);
      if e.Some? { return e, run; }
      ghost var reap := ReapCalls(s0.child, seen);
      if pid.Some? {
        e, stop := Stop();
        run := SwitchRun(seen, stop, start);
        SeqFacts.Assoc(c, reap, StopCalls(s0.child, stop));
        if e.Some? { return e, run; }
        DropSafe(os.procs, child, profile, newProfile);
        profile := newProfile;
        e, start := Start();
        run := SwitchRun(seen, stop, start);
        SeqFacts.Assoc(c, reap + StopCalls(s0.child, stop), StartCalls(State(newProfile, None), start));
        return e, run;
      } else {
        DropSafe(os.procs, child, profile, newProfile);
        profile := newProfile;
        return None, run;
      }
    }

    method Restart() returns (r: Option<Error>, ghost run: SwitchRun)
      requires Valid()
      modifies this`pid, this`child, os
      ensures Valid() && os.now >= old(os.now)
      ensures Outcome(Now(), r) == Restarted(old(Now()), run) && SwitchInTime(run)
      ensures os.calls == old(os.calls) + RestartCalls(old(Now()), run)
      ensures r.None? ==> child.Some? && EndsHealthy(os.calls, child.value) && child.value !in old(os.procs)
    {
      ghost var c, s0 := os.calls, Now();
      ghost var stop, start := AnyStop(), AnyStart();
      var e, seen := ReapChild();
      run := SwitchRun(seen, stop, start);
      if e.Some? { return e, run; }
      ghost var before := ReapCalls(s0.child, seen);
      if pid.Some? {
        e, stop := Stop();
        run := SwitchRun(seen, stop, start);
        SeqFacts.Assoc(c, before, StopCalls(s0.child, stop));
        if e.Some? { return e, run; }
        before := before + StopCalls(s0.child, stop);
      }
      e, start := Start();
      run := SwitchRun(seen, stop, start);
      SeqFacts.Assoc(c, before, StartCalls(s0.(child := None), start));
      return e, run;
    }

    method PauseAdaptation()
      modifies this`adaptationEnabled
      ensures !adaptationEnabled
    {
      adaptationEnabled := false;
    }

    method ResumeAdaptation()
      modifies this`adaptationEnabled
      ensures adaptationEnabled
    {
      adaptationEnabled := true;
    }

    /** `handle_request`: one request to the daemon and its answer. */
    method HandleRequest(request: Request) returns (response: Response, ghost run: ServeRun)
      requires Valid()
      modifies this, os
      ensures Valid() && os.now >= old(os.now)
      ensures Now() == Requested(old(Now()), request, run) && ServedInTime(run)
      ensures os.calls == old(os.calls) + RequestCalls(old(Now()), request, run)
      ensures adaptationEnabled == (request.ResumeAdaptation? || (old(adaptationEnabled) && !request.PauseAdaptation?))
      ensures response == Answer(old(Now()), old(adaptationEnabled), request, run)
      ensures request.Status? && response.StatusIs? ==>
                Tells(response.report) && ShowsFiles(response.report, run.status.o)
      ensures request.GetProfile? ==> response == ProfileIs(profile) && profile == old(profile)
      ensures request.PauseAdaptation? || request.ResumeAdaptation? ==> response == Success
      ensures request.SetProfile? && response == Success ==> profile == request.profile
      ensures request.Start? ==> response != Failed(NotRunning)
      ensures request.Stop? && response == Success ==> child.None? && old(child).Some?
      ensures request.Restart? ==> response != Failed(AlreadyRunning)
      ensures (request.Start? || request.Restart?) && response == Success ==>
                child.Some? && EndsHealthy(os.calls, child.value) && child.value !in old(os.procs)
    {
      hide Stopped, Started, Switched, Restarted, StopCalls, StartCalls, SwitchCalls, RestartCalls, StatusCalls,
        StartInTime, SwitchInTime, Reaped, AnyStop, AnyStart, ReportOf, TakesProfile, EndsHealthy, InGrace;
      ghost var s0 := Now();
      ghost var status := StatusRun(StillRunning, Observation(false, None, None, None));
      ghost var stop, start := AnyStop(), AnyStart();
      ghost var switch := SwitchRun(StillRunning, stop, start);
      AnyInTime();
      var r, report := None, Report(profile, adaptationEnabled, false, None, false);
      match request {
        case Status => r, report, status := Status();
        case GetProfile =>
        case SetProfile(p) => r, switch := SetProfile(p);
        case PauseAdaptation => PauseAdaptation();
        case ResumeAdaptation => ResumeAdaptation();
        case Start => r, start := Start();
        case Stop => r, stop := Stop();
        case Restart => r, switch := Restart();
      }
      response :=
        if r.Some? then Failed(r.value)
        else if request.Status? then StatusIs(report)
        else if request.GetProfile? then ProfileIs(profile)
        else Success;
      run := ServeRun(status, stop, start, switch, status);
      LifecycleOutcomes.AnswersTell(s0, if request.SetProfile? then request.profile else profile, stop, start, switch);
    }

    /** A connection: the request, then a status, whose profile and adaptation flag are saved if
        there is one. */
    method HandleConnection(request: Request)
      returns (response: Response, saved: Option<(Profile, bool)>, ghost run: ServeRun)
      requires Valid()
      modifies this, os
      ensures Valid() && os.now >= old(os.now)
      ensures Now() == Served(old(Now()), request, run) && ServedInTime(run)
      ensures os.calls == old(os.calls) + ServeCalls(old(Now()), request, run)
      ensures response == Answer(old(Now()), old(adaptationEnabled), request, run)
      ensures saved == if StatusFails(Requested(old(Now()), request, run), run.after) then None
                       else Some((profile, adaptationEnabled))
    {
      hide Stopped, Started, Switched, Restarted, StopCalls, StartCalls, SwitchCalls, RestartCalls, StatusCalls,
        StartInTime, SwitchInTime, InGrace;
      ghost var c, s0 := os.calls, Now();
      ghost var mid, after;
      response, mid := HandleRequest(request);
      var r, report;
      r, report, after := Status();
      saved := if r.None? then Some((report.profile, report.adaptationEnabled)) else None;
      run := mid.(after := after);
      SeqFacts.Assoc(c, RequestCalls(s0, request, mid), StatusCalls(Requested(s0, request, mid), after));
    }

    /** Any requests in any order: at most one scheduler is ever alive, it is the tracked one,
        and it runs the profile of the backend. */
    method Serve(requests: seq<Request>) returns (ghost runs: seq<ServeRun>)
      requires Valid()
      modifies this, os
      ensures Valid() && os.now >= old(os.now)
      ensures |runs| == |requests| && Now() == ServedAll(old(Now()), requests, runs)
      ensures os.calls == old(os.calls) + ServeAllCalls(old(Now()), requests, runs)
      ensures forall i :: 0 <= i < |runs| ==> ServedInTime(runs[i])
      ensures forall p, q :: p in os.procs && q in os.procs && os.procs[p].alive && os.procs[q].alive ==> p == q
    {
      runs := [];
      ghost var s0, c := Now(), os.calls;
      hide Served, ServeCalls, ServedInTime;
      for i := 0 to |requests|
        invariant Valid() && os.now >= old(os.now)
        invariant |runs| == i && Now() == ServedAll(s0, requests[..i], runs)
        invariant os.calls == c + ServeAllCalls(s0, requests[..i], runs)
        invariant forall j :: 0 <= j < i ==> ServedInTime(runs[j])
      {
        ghost var before, s1 := runs, Now();
        ghost var one;
        var response, saved;
        response, saved, one := HandleConnection(requests[i]);
        SeqFacts.Assoc(c, ServeAllCalls(s0, requests[..i], before), ServeCalls(s1, requests[i], one));
        runs := before + [one];
        assert requests[..i + 1][..i] == requests[..i] && runs[..i] == before;
      }
      assert requests[..|requests|] == requests;
    }
  }
}
