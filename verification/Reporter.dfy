/** The code of the two ends of the reporting channel. What it does is decided by what the
    scheduler does and what the calls return, and is a run of `ReporterChannel`, so what
    `ReporterRuns` proves holds of it. */
module Reporter {
  import opened Types
  import opened Text
  import opened ReporterChannel
  import opened ReporterRuns

  /** What the scheduler does before one receive, and what the receive returns. */
  datatype Turn = Turn(before: seq<Event>, result: RecvResult)

  /** One iteration of the reporter's loop, as the environment decides it. */
  datatype Round = Round(
    parentAlive: bool, receives: seq<Turn>, before: seq<Event>,
    state: Option<string>, statusOk: bool, statsOk: bool)

  predicate Proper(r: Round) {
    AllOfParent(r.before) && forall i :: 0 <= i < |r.receives| ==> AllOfParent(r.receives[i].before)
  }

  /** The next turn; with none left, nothing interferes and the receive succeeds. */
  function First(turns: seq<Turn>): Turn {
    if turns == [] then Turn([], Ready) else turns[0]
  }

  function Rest(turns: seq<Turn>): seq<Turn> {
    if turns == [] then [] else turns[1..]
  }

  // ---- the run the environment decides ---------------------------------------------------------

  /** What the scheduler did, and then one receive. */
  function Turned(c: Chan, t: Turn): Chan {
    Step(Steps(c, t.before), Recv(t.result))
  }

  /** The inner loop: one turn for each receive, until the phase changes. */
  function Drained(c: Chan, turns: seq<Turn>): Chan
    requires c.phase.Draining?
    decreases |turns|, |c.queue|
  {
    var c1 := Turned(c, First(turns));
    if c1.phase.Draining? then Drained(c1, Rest(turns)) else c1
  }

  /** One iteration of the main loop. */
  function Rounded(c: Chan, r: Round): Chan {
    var c1 := Step(c, Check(r.parentAlive));
    if !c1.phase.Draining? then c1
    else
      var c2 := Drained(c1, r.receives);
      if !c2.phase.Writing? then c2
      else Step(Steps(c2, r.before), Write(r.state, r.statusOk, r.statsOk))
  }

  function AllRounds(c: Chan, rounds: seq<Round>): Chan
    decreases |rounds|
  {
    if rounds == [] || c.phase.Stopped? then c else AllRounds(Rounded(c, rounds[0]), rounds[1..])
  }

  // ---- it is a run of the channel ----------------------------------------------------------------

  lemma {:induction false} StepsConcat(c: Chan, a: seq<Event>, b: seq<Event>)
    ensures Steps(c, a + b) == Steps(Steps(c, a), b)
    decreases |a|
  {
    if a == [] { assert a + b == b; }
    else {
      hide Step;
      assert (a + b)[1..] == a[1..] + b;
      StepsConcat(Step(c, a[0]), a[1..], b);
    }
  }

  lemma {:induction false} StepsThen(c: Chan, es: seq<Event>, e: Event)
    ensures Steps(c, es + [e]) == Step(Steps(c, es), e)
  {
    hide Step;
    StepsConcat(c, es, [e]);
    var c1 := Steps(c, es);
    assert Steps(c1, [e]) == Step(c1, e) by { assert [e][1..] == []; }
  }

  lemma {:induction false} DrainedIsRun(c: Chan, turns: seq<Turn>) returns (trace: seq<Event>)
    requires c.phase.Draining?
    ensures Steps(c, trace) == Drained(c, turns)
    decreases |turns|, |c.queue|
  {
    var t := First(turns);
    var c1 := Turned(c, t);
    trace := t.before + [Recv(t.result)];
    StepsThen(c, t.before, Recv(t.result));
    if c1.phase.Draining? {
      var rest := DrainedIsRun(c1, Rest(turns));
      StepsConcat(c, trace, rest);
      trace := trace + rest;
    }
  }

  lemma {:induction false} RoundedIsRun(c: Chan, r: Round) returns (trace: seq<Event>)
    ensures Steps(c, trace) == Rounded(c, r)
  {
    hide Step, Drained;
    var check, write := Check(r.parentAlive), Write(r.state, r.statusOk, r.statsOk);
    trace := [] + [check];
    StepsThen(c, [], check);
    var c1 := Step(c, check);
    if c1.phase.Draining? {
      var drain := DrainedIsRun(c1, r.receives);
      StepsConcat(c, trace, drain);
      trace := trace + drain;
      var c2 := Drained(c1, r.receives);
      if c2.phase.Writing? {
        StepsThen(c2, r.before, write);
        StepsConcat(c, trace, r.before + [write]);
        trace := trace + (r.before + [write]);
      }
    }
  }

  /** Whatever the environment decides, both processes stay among the reachable states. */
  lemma {:induction false} RoundsReachable(pid: nat, startedAtMs: nat, es: seq<Event>, c: Chan, rounds: seq<Round>)
    returns (more: seq<Event>)
    requires Reachable(pid, startedAtMs, es, c)
    ensures Reachable(pid, startedAtMs, es + more, AllRounds(c, rounds))
    decreases |rounds|
  {
    hide Rounded, Step;
    more := [];
    assert es + [] == es;
    if rounds != [] && !c.phase.Stopped? {
      var one := RoundedIsRun(c, rounds[0]);
      StepsConcat(Init(pid, startedAtMs), es, one);
      var rest := RoundsReachable(pid, startedAtMs, es + one, Rounded(c, rounds[0]), rounds[1..]);
      more := one + rest;
      assert es + (one + rest) == es + one + rest;
    }
  }

  class Channel {
    const pid: nat
    const startedAtMs: nat
    var stats: Stats
    var queue: seq<Frame>
    var statusFile: Option<Status>
    var statsFile: Option<Stats>
    ghost var attempts: nat
    ghost var accepted: seq<Snapshot>
    ghost var written: seq<Entry>

    ghost function View(phase: Phase): Chan
      reads this
    {
      Chan(pid, startedAtMs, stats, attempts, queue, accepted, phase, written, statusFile, statsFile)
    }

    constructor (pid: nat, startedAtMs: nat)
      ensures View(Head) == Init(pid, startedAtMs)
    {
      this.pid, this.startedAtMs := pid, startedAtMs;
      stats := Stats(pid, 0, 0, 0, 0);
      queue, accepted, written, attempts := [], [], [], 0;
      statusFile, statsFile := None, None;
    }

    /** `send_snapshot`: an oversized snapshot is never sent, a full socket drops it. */
    method Send(frame: Frame, os: SendResult) returns (sent: Sent)
      modifies this`queue, this`accepted
      ensures sent == SendSnapshot(frame.len, os)
      ensures sent.Accepted? ==> queue == old(queue) + [frame] && accepted == old(accepted) + [frame.snapshot]
      ensures !sent.Accepted? ==> queue == old(queue) && accepted == old(accepted)
      ensures sent.Accepted? <==> frame.len <= 8192 && os == SentBytes(frame.len)
      ensures sent.Backpressure? <==> frame.len <= 8192 && (os == WouldBlock || os == Interrupted)
    {
      if frame.len > MAX_SNAPSHOT { return Failed; }
      match os {
        case SentBytes(n) =>
          if n != frame.len { return Failed; }
          queue := queue + [frame];
          accepted := accepted + [frame.snapshot];
          return Accepted;
        case WouldBlock => return Backpressure;
        case Interrupted => return Backpressure;
        case SendFailed => return Failed;
      }
    }

    /** `write_stats` of the scheduler. */
    method Report(e: Event)
      requires e.Report?
      modifies this`stats, this`queue, this`accepted, this`attempts
      ensures forall phase :: View(phase) == WriteStats(old(View(phase)), e)
      ensures attempts == old(attempts) + 1 && stats.progressSequence == old(stats.progressSequence)
      ensures stats.heartbeat == e.nowMs / 1000 && stats.pid == old(stats.pid)
      ensures e.laterMs >= startedAtMs ==> stats.uptimeMs + startedAtMs == e.laterMs
      ensures e.laterMs < startedAtMs ==> stats.uptimeMs == 0
      ensures IsWhole(e) ==>
                && stats.reporterDrops == old(stats.reporterDrops)
                && var sent := Snapshot(Status(true, pid, true, startedAtMs, "enabled", e.statusSecs), stats);
                   queue == old(queue) + [Frame(sent, e.bytes.value)] && accepted == old(accepted) + [sent]
      ensures !IsWhole(e) ==>
                stats.reporterDrops == old(stats.reporterDrops) + 1 && queue == old(queue) && accepted == old(accepted)
    {
      var uptime := if e.laterMs < startedAtMs then 0 else e.laterMs - startedAtMs;
      stats := stats.(heartbeat := e.nowMs / 1000, uptimeMs := uptime);
      attempts := attempts + 1;
      var published := false;
      if e.bytes.Some? {
        var status := Status(true, pid, true, startedAtMs, "enabled", e.statusSecs);
        var sent := Send(Frame(Snapshot(status, stats), e.bytes.value), e.send);
        published := sent.Accepted?;
      }
      if !published { stats := stats.(reporterDrops := stats.reporterDrops + 1); }
    }

    /** What the scheduler does while the reporter is between two calls. */
    method Interfere(es: seq<Event>, ghost phase: Phase)
      requires AllOfParent(es)
      modifies this`stats, this`queue, this`accepted, this`attempts
      ensures View(phase) == Steps(old(View(phase)), es)
    {
      ghost var c0 := View(phase);
      for i := 0 to |es|
        invariant View(phase) == Steps(c0, es[..i])
      {
        assert OfParent(es[i]);
        ghost var c1 := View(phase);
        match es[i] {
          case Work(n) => stats := stats.(progressSequence := stats.progressSequence + n);
          case Report(_, _, _, _, _) => Report(es[i]);
        }
        assert View(phase) == Step(c1, es[i]);
        StepsLast(c0, es[..i + 1]);
        assert es[..i + 1][..i] == es[..i];
      }
      assert es[..|es|] == es;
    }

    /** The inner loop: receive until nothing is left, keep only the newest snapshot. */
    method DrainToLatest(turns: seq<Turn>) returns (latest: Option<Snapshot>, exit: Option<Exit>)
      requires forall i :: 0 <= i < |turns| ==> AllOfParent(turns[i].before)
      modifies this`stats, this`queue, this`accepted, this`attempts
      ensures View(if exit.Some? then Stopped(exit.value) else Writing(latest))
           == Drained(old(View(Draining(None))), turns)
      ensures exit.None? ==> queue == []
    {
      ghost var c0 := View(Draining(None));
      latest, exit := None, None;
      var rest := turns;
      while true
        invariant forall i :: 0 <= i < |rest| ==> AllOfParent(rest[i].before)
        invariant Drained(c0, turns) == Drained(View(Draining(latest)), rest)
        decreases |rest|, |queue|
      {
        var turn := First(rest);
        ghost var from := View(Draining(latest));
        Interfere(turn.before, Draining(latest));
        assert rest == [] ==> View(Draining(latest)) == from;
        rest := Rest(rest);
        match turn.result {
          case RecvInterrupted =>
          case RecvFailed => return latest, Some(SocketFailed);
          case Ready =>
            if queue == [] { return; }
            var frame := queue[0];
            queue := queue[1..];
            if frame.len > MAX_SNAPSHOT { return latest, Some(ParseFailed); }
            latest := Some(frame.snapshot);
        }
      }
    }

    /** The writes that end an iteration. */
    method WriteLatest(latest: Option<Snapshot>, round: Round) returns (exit: Option<Exit>)
      modifies this`statusFile, this`statsFile, this`written
      ensures View(if exit.Some? then Stopped(exit.value) else Head)
           == WriteFiles(old(View(Writing(latest))), round.state, round.statusOk, round.statsOk)
      ensures latest.None? ==> exit.None? && written == old(written)
      ensures latest.Some? ==>
                (exit.None? <==> latest.value.status.pid == pid && latest.value.stats.pid == pid
                                 && round.state.Some? && round.statusOk && round.statsOk)
      ensures latest.Some? && exit.None? ==>
                && statsFile == Some(latest.value.stats) && statusFile.Some?
                && (statusFile.value.healthy <==> Reads(round.state.value, "enabled"))
    {
      hide Reads, Tight;
      if latest.None? { return None; }
      var snapshot := latest.value;
      if snapshot.status.pid != pid || snapshot.stats.pid != pid { return Some(PidMismatch); }
      if round.state.None? { return Some(StateUnreadable); }
      var state := Trim(round.state.value);
      snapshot := snapshot.(status := snapshot.status.(schedExtState := state, healthy := state == "enabled"));
      EnabledIsTight();
      TrimReads(round.state.value, "enabled");
      if !round.statusOk { return Some(WriteFailed); }
      statusFile := Some(snapshot.status);
      ghost var at: int := |accepted| - |queue| - 1;
      written := written + [Entry(if at < 0 then 0 else at, snapshot)];
      if !round.statsOk { return Some(WriteFailed); }
      statsFile := Some(snapshot.stats);
      return None;
    }

    /** The reporter's main loop. */
    method Run(rounds: seq<Round>) returns (exit: Option<Exit>)
      requires forall i :: 0 <= i < |rounds| ==> Proper(rounds[i])
      modifies this
      ensures View(if exit.Some? then Stopped(exit.value) else Head) == AllRounds(old(View(Head)), rounds)
    {
      ghost var c0 := View(Head);
      hide Receive, WriteFiles, WriteStats, Drained;
      exit := None;
      assert rounds[0..] == rounds;
      for i := 0 to |rounds|
        invariant exit.None? && AllRounds(c0, rounds) == AllRounds(View(Head), rounds[i..])
      {
        var round := rounds[i];
        ghost var c := View(Head);
        assert Proper(round) && rounds[i..][1..] == rounds[i + 1..];
        if !round.parentAlive { return Some(ParentGone); }
        assert Step(c, Check(true)) == View(Draining(None));
        var latest, failed := DrainToLatest(round.receives);
        if failed.Some? { return failed; }
        Interfere(round.before, Writing(latest));
        exit := WriteLatest(latest, round);
        if exit.Some? { return; }
      }
      assert rounds[|rounds|..] == [];
    }
  }
}
