/** What the answer of a backend call says about the calls it made: each error names the one that
    failed, and success the one that settled it. */
module LifecycleOutcomes {
  import opened Types
  import opened LifecycleSpec

  function Last(calls: seq<Call>): Call
    requires calls != []
  {
    calls[|calls| - 1]
  }

  /** The last call of a stop decides its answer, and its answer tells that call. */
  lemma StopTellsLastCall(s: State, run: StopRun)
    requires s.child.Some?
    ensures var calls, e, pid := StopCalls(s.child, run), Stopped(s, run).error, s.child.value;
            && calls != []
            && (e == Some(InspectFailed) <==> calls == [TryWait(pid, WaitFailed)])
            && (e == Some(NotRunning) <==> calls == [TryWait(pid, Exited)])
            && (e == Some(TermFailed) <==> Last(calls) == Signal(pid, false, KillRefused))
            && (e == Some(PollFailed) <==> |calls| > 1 && Last(calls) == TryWait(pid, WaitFailed))
            && (e == Some(KillFailed) <==> Last(calls) == Signal(pid, true, KillRefused))
            && (e == Some(ReapFailed) <==> Last(calls) == Wait(pid, false))
            && (e.None? <==> || Last(calls) == Signal(pid, false, NoSuchProcess)
                             || (|calls| > 1 && Last(calls) == TryWait(pid, Exited))
                             || Last(calls) == Wait(pid, true))
  {
    hide PollCalls;
    var pid, calls := s.child.value, StopCalls(s.child, run);
    if run.seen.StillRunning? && run.term.Delivered? {
      var ending := EndingCalls(pid, run.shutdown.ending);
      assert Last(calls) == Last(ending);
    }
  }

  /** Past the grace period a stop does signal its child for good. */
  lemma OverdueIsKilled(s: State, run: StopRun)
    requires s.child.Some? && run.seen.StillRunning? && run.term.Delivered? && run.shutdown.ending.Overdue?
    ensures exists i :: 0 <= i < |StopCalls(s.child, run)|
              && StopCalls(s.child, run)[i] == Signal(s.child.value, true, run.shutdown.ending.kill)
  {
    hide PollCalls;
    var pid, sh, calls := s.child.value, run.shutdown, StopCalls(s.child, run);
    var ending := EndingCalls(pid, sh.ending);
    var n := |calls| - |ending|;
    assert calls[n..] == ending;
    assert calls[n + 2] == ending[2];
  }

  /** The start got as far as a process to wait for. */
  predicate Launched(s: State, run: StartRun) {
    (s.child.None? || run.seen.Exited?) && run.binary && run.spawned.Some?
  }

  lemma ReapThenBinary(s: State, run: StartRun)
    requires s.child.None? || run.seen.Exited?
    ensures run.binary ==> run.spawned.None? ==> Last(StartCalls(s, run)) == Spawn(s.profile, None)
    ensures !run.binary ==> Last(StartCalls(s, run)) == BinaryExists(false)
  {
    hide HealthCalls, StopCalls;
  }

  /** A start succeeds exactly when it launched a process and found it healthy; each error names the
      step that failed, and a timeout means that fifteen seconds were over. */
  lemma StartOutcome(s: State, run: StartRun)
    requires StartInTime(run)
    ensures var calls, e := StartCalls(s, run), Started(s, run).error;
            && (e.None? <==> Launched(s, run) && EndsHealthy(calls, run.spawned.value))
            && (e == Some(AlreadyRunning) <==> s.child.Some? && calls == [TryWait(s.child.value, StillRunning)])
            && (e == Some(BinaryMissing) <==> calls != [] && Last(calls) == BinaryExists(false))
            && (e == Some(SpawnFailed) <==> calls != [] && Last(calls) == Spawn(s.profile, None))
            && (e == Some(TimedOut) ==> Launched(s, run) && run.health.end.Late?
                                        && run.health.end.at >= run.health.start + 15_000)
            && (e == Some(ExitedEarly) <==> Launched(s, run) && run.health.end.Lost? && run.health.end.seen.Exited?)
            && (e == Some(ExitedEarly) ==> Last(calls) == TryWait(run.spawned.value, Exited))
  {
    if s.child.None? || run.seen.Exited? {
      ReapThenBinary(s, run);
      if Launched(s, run) { WaitedOutcome(s, run); }
    }
    hide HealthCalls, StopCalls, Patient, InGrace;
  }

  lemma WaitedOutcome(s: State, run: StartRun)
    requires StartInTime(run) && Launched(s, run)
    ensures var calls, e := StartCalls(s, run), Started(s, run).error;
            && calls != [] && e == Verdict(run.health.end)
            && (e.None? <==> run.health.end.Seen?)
            && (e.None? <==> EndsHealthy(calls, run.spawned.value))
            && (e == Some(ExitedEarly) ==> Last(calls) == TryWait(run.spawned.value, Exited))
            && !Last(calls).BinaryExists? && !Last(calls).Spawn? && |calls| > 1
  {
    var pid, calls := run.spawned.value, StartCalls(s, run);
    match run.health.end
    case Seen(at, o) =>
      StartEndsHealthy(s, run);
      hide HealthCalls;
    case Lost(at, seen) =>
      LostEnds(s, run);
      hide HealthCalls, StopCalls;
    case Late(at) =>
      LateEnds(s, run);
      hide HealthCalls, StopCalls;
  }

  /** A wait that ends with a look that lost the child. */
  lemma LostEnds(s: State, run: StartRun)
    requires Launched(s, run) && run.health.end.Lost? && !run.health.end.seen.StillRunning?
    ensures var calls := StartCalls(s, run);
            && |calls| > 1 && !Last(calls).StatusFile? && !Last(calls).BinaryExists? && !Last(calls).Spawn?
            && (Verdict(run.health.end) == Some(ExitedEarly) ==> Last(calls) == TryWait(run.spawned.value, Exited))
  {
    var pid := run.spawned.value;
    var health := HealthCalls(pid, run.health);
    assert Last(health) == TryWait(pid, run.health.end.seen) && |health| > 1;
    if run.health.end.seen.WaitFailed? { CleanupEnds(pid, run.cleanup); }
    hide HealthCalls, StopCalls;
  }

  lemma LateEnds(s: State, run: StartRun)
    requires Launched(s, run) && run.health.end.Late?
    ensures var calls := StartCalls(s, run);
            |calls| > 1 && !Last(calls).StatusFile? && !Last(calls).BinaryExists? && !Last(calls).Spawn?
  {
    CleanupEnds(run.spawned.value, run.cleanup);
    assert |HealthCalls(run.spawned.value, run.health)| > 1;
    hide HealthCalls, StopCalls;
  }

  /** The clean-up of a child that is still tracked ends with a look at it or a signal. */
  lemma CleanupEnds(pid: Pid, run: StopRun)
    ensures var calls := StopCalls(Some(pid), run);
            calls != [] && !Last(calls).StatusFile? && !Last(calls).BinaryExists? && !Last(calls).Spawn?
  {
    hide PollCalls;
    var calls := StopCalls(Some(pid), run);
    if run.seen.StillRunning? && run.term.Delivered? {
      assert Last(calls) == Last(EndingCalls(pid, run.shutdown.ending));
    }
  }

  /** A switch succeeds exactly when nothing was running, or what was running was stopped and a
      scheduler with the new profile was started; its error is that of the step that failed. */
  lemma SwitchOutcome(s: State, profile: Profile, run: SwitchRun)
    ensures var r, running := Switched(s, profile, run), s.child.Some? && run.seen.StillRunning?;
            var stopped, started := Stopped(s, run.stop), Started(State(profile, None), run.start);
            && (r.error.None? <==> (s.child.None? || run.seen.Exited?)
                                   || (running && stopped.error.None? && started.error.None?))
            && (r.error.None? ==> r.state == State(profile, if running then run.start.spawned else None))
            && (running && stopped.error.Some? ==> r.error == stopped.error)
            && (running && stopped.error.None? && started.error.Some? ==> r.error == started.error)
            && (s.child.Some? && run.seen.WaitFailed? ==> r.error == Some(InspectFailed))
  {
  }

  /** A restart succeeds exactly when whatever was running was stopped and a new scheduler started. */
  lemma RestartOutcome(s: State, run: SwitchRun)
    ensures var r, running := Restarted(s, run), s.child.Some? && run.seen.StillRunning?;
            var stopped, started := Stopped(s, run.stop), Started(State(s.profile, None), run.start);
            && (r.error.None? <==> (s.child.None? || run.seen.Exited? || (running && stopped.error.None?))
                                   && started.error.None?)
            && (r.error.None? ==> r.state == State(s.profile, run.start.spawned))
            && (running && stopped.error.Some? ==> r.error == stopped.error)
            && (!running && s.child.Some? && run.seen.WaitFailed? ==> r.error == Some(InspectFailed))
  {
  }

  /** What the answers of the calls rule out, and what success means for the state. */
  lemma AnswersTell(s: State, profile: Profile, stop: StopRun, start: StartRun, run: SwitchRun)
    ensures Started(s, start).error != Some(NotRunning)
    ensures Stopped(s, stop).error.None? ==> s.child.Some? && Stopped(s, stop).state.child.None?
    ensures Restarted(s, run).error != Some(AlreadyRunning)
    ensures Switched(s, profile, run).error.None? ==> Switched(s, profile, run).state.profile == profile
  {
  }

  // ---- pauses ------------------------------------------------------------------------------------

  /** Whatever sleeps, sleeps for a tenth of a second. */
  predicate ShortSleeps(calls: seq<Call>) {
    forall i :: 0 <= i < |calls| && calls[i].Sleep? ==> calls[i].period == 100
  }

  lemma {:induction false} RoundSleeps(pid: Pid, rounds: seq<Round>)
    ensures ShortSleeps(RoundCalls(pid, rounds))
  {
    if rounds != [] { RoundSleeps(pid, rounds[..|rounds| - 1]); }
  }

  lemma {:induction false} PollSleeps(pid: Pid, polls: seq<nat>)
    ensures ShortSleeps(PollCalls(pid, polls))
  {
    if polls != [] { PollSleeps(pid, polls[..|polls| - 1]); }
  }

  lemma {:induction false} StopSleeps(child: Option<Pid>, run: StopRun)
    ensures ShortSleeps(StopCalls(child, run))
  {
    if child.Some? { PollSleeps(child.value, run.shutdown.polls); }
    hide PollCalls;
  }

  lemma {:induction false} HealthSleeps(pid: Pid, h: HealthWait)
    ensures ShortSleeps(HealthCalls(pid, h))
  {
    RoundSleeps(pid, h.rounds);
    hide RoundCalls;
  }

  lemma ShortSleepsJoin(a: seq<Call>, b: seq<Call>)
    requires ShortSleeps(a) && ShortSleeps(b)
    ensures ShortSleeps(a + b)
  {
  }

  /** Every pause of a start or a stop takes a tenth of a second. */
  lemma {:induction false} PausesAreShort(s: State, start: StartRun, stop: StopRun)
    ensures ShortSleeps(StartCalls(s, start)) && ShortSleeps(StopCalls(s.child, stop))
  {
    hide HealthCalls, StopCalls, LeftToStop, Verdict, ShortSleeps;
    StopSleeps(s.child, stop);
    StopSleeps(LeftToStop(start), start.cleanup);
    var launched := ReapCalls(s.child, start.seen) + [BinaryExists(start.binary)] + [Spawn(s.profile, start.spawned)];
    LaunchSleeps(s, start);
    if start.spawned.Some? {
      var health := HealthCalls(start.spawned.value, start.health);
      HealthSleeps(start.spawned.value, start.health);
      ShortSleepsJoin(launched, health);
      ShortSleepsJoin(launched + health, StopCalls(LeftToStop(start), start.cleanup));
    }
  }

  lemma LaunchSleeps(s: State, start: StartRun)
    ensures var reap := ReapCalls(s.child, start.seen);
            && ShortSleeps(reap) && ShortSleeps(reap + [BinaryExists(start.binary)])
            && ShortSleeps(reap + [BinaryExists(start.binary)] + [Spawn(s.profile, start.spawned)])
  {
  }
}
