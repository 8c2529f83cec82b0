/** What holds of the reporting channel over every run of the two processes. */
module ReporterRuns {
  import opened Types
  import opened Text
  import opened ReporterChannel
  import LifecycleSpec

  // ---- the invariant over one step -----------------------------------------------------------

  /** The reporter leaves the stream of accepted snapshots alone. */
  lemma ReporterKeepsSources(c: Chan, e: Event)
    requires !OfParent(e)
    ensures var c' := Step(c, e);
      c'.accepted == c.accepted && c'.stats == c.stats && c'.attempts == c.attempts && c'.pid == c.pid
  {
  }

  /** The parent leaves the reporter and its files alone. */
  lemma ParentKeepsReporter(c: Chan, e: Event)
    requires OfParent(e)
    ensures var c' := Step(c, e);
      && c'.phase == c.phase && c'.written == c.written && c'.pid == c.pid
      && c'.statsFile == c.statsFile && c'.statusFile == c.statusFile
      && Received(c') == Received(c) && c.accepted <= c'.accepted
  {
    hide SendSnapshot;
  }

  lemma StepSources(c: Chan, e: Event)
    requires Sources(c)
    ensures Sources(Step(c, e))
  {
    if OfParent(e) {
      hide SendSnapshot;
    } else {
      ReporterKeepsSources(c, e);
      hide Step;
    }
  }

  lemma AppendInOrder(queue: seq<Frame>, accepted: seq<Snapshot>, f: Frame)
    requires InOrder(queue, accepted) && f.len <= MAX_SNAPSHOT
    ensures InOrder(queue + [f], accepted + [f.snapshot])
  {
  }

  lemma PopInOrder(queue: seq<Frame>, accepted: seq<Snapshot>)
    requires InOrder(queue, accepted) && queue != []
    ensures InOrder(queue[1..], accepted)
    ensures queue[0].len <= MAX_SNAPSHOT && queue[0].snapshot == accepted[|accepted| - |queue|]
  {
  }

  lemma StepSocket(c: Chan, e: Event)
    requires Socket(c)
    ensures Socket(Step(c, e))
  {
    hide InOrder;
    var c' := Step(c, e);
    if c'.accepted != c.accepted {
      AppendInOrder(c.queue, c.accepted, c'.queue[|c.queue|]);
      assert c'.queue == c.queue + [c'.queue[|c.queue|]];
    } else if c'.queue != c.queue {
      PopInOrder(c.queue, c.accepted);
    }
  }

  lemma LogAccepts(accepted: seq<Snapshot>, next: Snapshot, written: seq<Entry>)
    requires Log(accepted, written)
    ensures Log(accepted + [next], written)
  {
    forall i | 0 <= i < |written|
      ensures (accepted + [next])[written[i].at] == accepted[written[i].at]
    {
    }
  }

  lemma LogWrites(accepted: seq<Snapshot>, written: seq<Entry>, e: Entry)
    requires Log(accepted, written)
    requires e.at < |accepted| && FromParent(e.snapshot, accepted[e.at])
    requires written != [] ==> written[|written| - 1].at < e.at
    ensures Log(accepted, written + [e])
  {
  }

  /** A write logs the newest received snapshot; nothing else writes. */
  lemma WriteAppends(c: Chan, e: Event)
    requires Done(c) <= Received(c) && Latest(c) && !OfParent(e)
    ensures var c' := Step(c, e);
      || (c'.written == c.written && Received(c') >= Received(c))
      || (&& |c'.written| == |c.written| + 1 && c'.written == c.written + [c'.written[|c.written|]]
          && c'.written[|c.written|].at == Received(c) - 1 && Received(c') == Received(c) > Done(c)
          && Received(c) <= |c.accepted|
          && FromParent(c'.written[|c.written|].snapshot, c.accepted[Received(c) - 1]))
  {
  }

  lemma StepWritten(c: Chan, e: Event)
    requires Written(c) && Latest(c)
    ensures Written(Step(c, e))
  {
    hide Log, Step;
    var c' := Step(c, e);
    if OfParent(e) {
      ParentKeepsReporter(c, e);
      StepReported(c, e);
      if c'.accepted != c.accepted {
        LogAccepts(c.accepted, c'.accepted[|c.accepted|], c.written);
        assert c'.accepted == c.accepted + [c'.accepted[|c.accepted|]];
      }
    } else {
      ReporterKeepsSources(c, e);
      WriteAppends(c, e);
      if c'.written != c.written {
        LogWrites(c.accepted, c.written, c'.written[|c.written|]);
      }
    }
  }

  lemma RecvLatest(c: Chan, result: RecvResult)
    requires Socket(c) && Done(c) <= Received(c) && Latest(c) && c.phase.Draining?
    ensures Latest(Receive(c, result))
  {
    hide InOrder;
    if c.queue != [] { PopInOrder(c.queue, c.accepted); }
  }

  lemma WriteLatest(c: Chan, state: Option<string>, statusOk: bool, statsOk: bool)
    requires Sources(c) && Done(c) <= Received(c) && Latest(c) && c.phase.Writing?
    ensures Latest(WriteFiles(c, state, statusOk, statsOk))
  {
    hide Stamp;
    if c.phase.latest.Some? { assert c.phase.latest.value == c.accepted[Received(c) - 1]; }
  }

  lemma StepLatest(c: Chan, e: Event)
    requires Sources(c) && Socket(c) && Written(c) && Latest(c)
    ensures Latest(Step(c, e))
  {
    hide Receive, WriteFiles, WriteStats, Sources, Socket, Log;
    if OfParent(e) {
      ParentKeepsReporter(c, e);
      hide Step;
    } else if e.Recv? {
      if c.phase.Draining? { RecvLatest(c, e.result); }
    } else if e.Write? {
      if c.phase.Writing? { WriteLatest(c, e.state, e.statusOk, e.statsOk); }
    }
  }

  lemma StepFiles(c: Chan, e: Event)
    requires Files(c)
    ensures Files(Step(c, e))
  {
    if OfParent(e) {
      ParentKeepsReporter(c, e);
      hide Step;
    } else {
      hide WriteStats, Stamp;
      var c' := Step(c, e);
      if c'.written != c.written {
        assert c'.written[|c'.written| - 1].snapshot.status == c'.statusFile.value;
        assert forall i :: 0 <= i < |c.written| ==> c'.written[i] == c.written[i];
      }
    }
  }

  lemma StepInv(c: Chan, e: Event)
    requires Inv(c)
    ensures Inv(Step(c, e))
  {
    StepSources(c, e);
    StepSocket(c, e);
    StepWritten(c, e);
    StepLatest(c, e);
    StepFiles(c, e);
  }

  lemma {:induction false} StepsInv(c: Chan, es: seq<Event>)
    requires Inv(c)
    ensures Inv(Steps(c, es))
    decreases |es|
  {
    if es != [] {
      hide Inv, Step;
      StepInv(c, es[0]);
      StepsInv(Step(c, es[0]), es[1..]);
    }
  }

  ghost predicate Reachable(pid: nat, startedAtMs: nat, es: seq<Event>, c: Chan) {
    c == Steps(Init(pid, startedAtMs), es)
  }

  lemma ReachableInv(pid: nat, startedAtMs: nat, es: seq<Event>, c: Chan)
    requires Reachable(pid, startedAtMs, es, c)
    ensures Inv(c)
  {
    hide Step;
    StepsInv(Init(pid, startedAtMs), es);
  }

  // ---- theorems ----------------------------------------------------------------------------------

  function Reports(es: seq<Event>): nat {
    if es == [] then 0 else (if es[0].Report? then 1 else 0) + Reports(es[1..])
  }

  lemma {:induction false} AttemptsCount(c: Chan, es: seq<Event>)
    ensures Steps(c, es).attempts == c.attempts + Reports(es)
    decreases |es|
  {
    if es != [] {
      assert Step(c, es[0]).attempts == c.attempts + (if es[0].Report? then 1 else 0);
      hide Step;
      AttemptsCount(Step(c, es[0]), es[1..]);
    }
  }

  /** A snapshot was encoded in at most 8192 bytes and sent whole. */
  predicate IsWhole(e: Event) {
    e.Report? && e.bytes.Some? && e.bytes.value <= 8192 && e.send == SentBytes(e.bytes.value)
  }

  function WholeReports(es: seq<Event>): nat {
    if es == [] then 0 else (if IsWhole(es[0]) then 1 else 0) + WholeReports(es[1..])
  }

  lemma StepAccepts(c: Chan, e: Event)
    ensures |Step(c, e).accepted| == |c.accepted| + (if IsWhole(e) then 1 else 0)
  {
    if !OfParent(e) {
      ReporterKeepsSources(c, e);
      hide Step;
    }
  }

  lemma {:induction false} AcceptedCount(c: Chan, es: seq<Event>)
    ensures |Steps(c, es).accepted| == |c.accepted| + WholeReports(es)
    decreases |es|
  {
    if es != [] {
      StepAccepts(c, es[0]);
      hide Step, IsWhole;
      AcceptedCount(Step(c, es[0]), es[1..]);
    }
  }

  /** The scheduling cycles the scheduler went through. */
  function CyclesOf(es: seq<Event>): nat {
    if es == [] then 0 else (if es[0].Work? then es[0].cycles else 0) + CyclesOf(es[1..])
  }

  lemma {:induction false} ProgressCount(c: Chan, es: seq<Event>)
    ensures Steps(c, es).stats.progressSequence == c.stats.progressSequence + CyclesOf(es)
    decreases |es|
  {
    if es != [] {
      if !OfParent(es[0]) { ReporterKeepsSources(c, es[0]); }
      assert Step(c, es[0]).stats.progressSequence
          == c.stats.progressSequence + (if es[0].Work? then es[0].cycles else 0) by { hide Receive, WriteFiles; }
      hide Step;
      ProgressCount(Step(c, es[0]), es[1..]);
    }
  }

  /** Of the publish attempts of a scheduler's life, those that were encoded and sent whole were
      accepted, and every other one is a counted drop; the accepted ones are received in order, each
      once. */
  lemma PublishConservation(pid: nat, startedAtMs: nat, es: seq<Event>, c: Chan)
    requires Reachable(pid, startedAtMs, es, c)
    ensures Reports(es) == c.stats.reporterDrops + |c.accepted|
    ensures |c.accepted| == WholeReports(es) && c.stats.progressSequence == CyclesOf(es)
    ensures 0 <= Received(c)
    ensures forall i :: 0 <= i < |c.queue| ==> c.queue[i].snapshot == c.accepted[Received(c) + i]
  {
    ReachableInv(pid, startedAtMs, es, c);
    AttemptsCount(Init(pid, startedAtMs), es);
    AcceptedCount(Init(pid, startedAtMs), es);
    ProgressCount(Init(pid, startedAtMs), es);
  }

  /** The files show an order-preserving selection of the accepted snapshots; only the
      observation of the kernel is the reporter's own. */
  lemma WrittenSelection(pid: nat, startedAtMs: nat, es: seq<Event>, c: Chan)
    requires Reachable(pid, startedAtMs, es, c)
    ensures forall i :: 0 <= i < |c.written| ==>
              c.written[i].at < |c.accepted| && FromParent(c.written[i].snapshot, c.accepted[c.written[i].at])
    ensures forall i, j :: 0 <= i < j < |c.written| ==>
              c.written[i].at < c.written[j].at
              && c.written[i].snapshot.stats.progressSequence <= c.written[j].snapshot.stats.progressSequence
  {
    ReachableInv(pid, startedAtMs, es, c);
    forall i, j | 0 <= i < j < |c.written|
      ensures c.written[i].snapshot.stats.progressSequence <= c.written[j].snapshot.stats.progressSequence
    {
      assert c.accepted[c.written[i].at].stats.progressSequence <= c.accepted[c.written[j].at].stats.progressSequence;
    }
  }

  /** The only events that end the reporter, and the reason each gives: its parent is gone, a receive
      failed, the state file cannot be read, or a file cannot be written. */
  lemma ExitsExactly(pid: nat, startedAtMs: nat, es: seq<Event>, c: Chan, e: Event)
    requires Reachable(pid, startedAtMs, es, c) && !c.phase.Stopped?
    ensures var phase', writes := Step(c, e).phase, c.phase.Writing? && c.phase.latest.Some? && e.Write?;
            && (phase'.Stopped? <==>
                  || (c.phase.Head? && e == Check(false))
                  || (c.phase.Draining? && e == Recv(RecvFailed))
                  || (writes && !(e.state.Some? && e.statusOk && e.statsOk)))
            && (phase'.Stopped? && c.phase.Head? ==> phase'.exit == ParentGone)
            && (phase'.Stopped? && c.phase.Draining? ==> phase'.exit == SocketFailed)
            && (phase'.Stopped? && writes ==> phase'.exit == if e.state.None? then StateUnreadable else WriteFailed)
  {
    ReachableInv(pid, startedAtMs, es, c);
    if c.phase.Writing? && c.phase.latest.Some? { assert c.phase.latest.value == c.accepted[Received(c) - 1]; }
    hide WriteStats, Written, Files, Stamp;
  }

  /** The reporter never gives up over a frame of its own scheduler. */
  lemma OwnFramesAreReadable(pid: nat, startedAtMs: nat, es: seq<Event>, c: Chan)
    requires Reachable(pid, startedAtMs, es, c)
    ensures c.phase != Stopped(ParseFailed) && c.phase != Stopped(PidMismatch)
  {
    ReachableInv(pid, startedAtMs, es, c);
  }

  lemma StepDisk(c: Chan, e: Event)
    requires Inv(c) && c.statsFile.Some?
    ensures Step(c, e).statsFile.Some?
    ensures c.statsFile.value.progressSequence <= Step(c, e).statsFile.value.progressSequence
  {
    var c' := Step(c, e);
    if c'.statsFile != c.statsFile {
      assert c.phase.Writing? && c.phase.latest.value == c.accepted[Received(c) - 1];
      var i :| 0 <= i < |c.written| && c.statsFile == Some(c.written[i].snapshot.stats);
      assert FromParent(c.written[i].snapshot, c.accepted[c.written[i].at]);
      assert c.written[i].at <= c.written[|c.written| - 1].at < Received(c);
      assert c.accepted[c.written[i].at].stats.progressSequence
          <= c.accepted[Received(c) - 1].stats.progressSequence;
    }
  }

  /** The progress on disk never goes back. */
  lemma {:induction false} DiskProgress(c: Chan, es: seq<Event>)
    requires Inv(c) && c.statsFile.Some?
    ensures Steps(c, es).statsFile.Some?
    ensures c.statsFile.value.progressSequence <= Steps(c, es).statsFile.value.progressSequence
    decreases |es|
  {
    if es != [] {
      StepDisk(c, es[0]);
      StepInv(c, es[0]);
      hide Step, Inv;
      DiskProgress(Step(c, es[0]), es[1..]);
    }
  }

  predicate AllOfParent(es: seq<Event>) {
    forall i :: 0 <= i < |es| ==> OfParent(es[i])
  }

  /** The parent never touches what the reporter holds. */
  lemma {:induction false} ParentKeeps(c: Chan, es: seq<Event>)
    requires AllOfParent(es)
    ensures var c' := Steps(c, es);
      c'.phase == c.phase && c'.written == c.written && c'.statsFile == c.statsFile
      && c'.statusFile == c.statusFile && Received(c') == Received(c) && c.accepted <= c'.accepted
    decreases |es|
  {
    if es != [] {
      assert OfParent(es[0]);
      var c1 := Step(c, es[0]);
      ParentKeepsReporter(c, es[0]);
      hide Step;
      ParentKeeps(c1, es[1..]);
    }
  }

  /** Both files show the newest snapshot that was received. */
  ghost predicate ShowsNewest(c: Chan) {
    && 0 < Received(c) <= |c.accepted|
    && c.written != [] && c.written[|c.written| - 1].at == Received(c) - 1
    && FromParent(c.written[|c.written| - 1].snapshot, c.accepted[Received(c) - 1])
    && c.statusFile == Some(c.written[|c.written| - 1].snapshot.status)
    && c.statsFile == Some(c.accepted[Received(c) - 1].stats)
  }

  /** The status file shows the word of the kernel's state file, and health exactly if that is
      "enabled". */
  ghost predicate SawKernel(c: Chan, state: string) {
    && c.statusFile.Some? && (c.statusFile.value.healthy <==> Reads(state, "enabled"))
    && forall word :: Tight(word) ==> (c.statusFile.value.schedExtState == word <==> Reads(state, word))
  }

  lemma GoodWrite(c: Chan, state: string)
    requires Inv(c) && c.phase.Writing? && Received(c) > 0
    ensures Step(c, Write(Some(state), true, true)).phase == Head
    ensures ShowsNewest(Step(c, Write(Some(state), true, true)))
    ensures Step(c, Write(Some(state), true, true)).accepted == c.accepted
    ensures Received(Step(c, Write(Some(state), true, true))) == Received(c)
  {
    var e := Write(Some(state), true, true);
    StepInv(c, e);
    if c.phase.latest.Some? {
      assert c.phase.latest.value == c.accepted[Received(c) - 1];
    }
  }

  lemma WriteSees(c: Chan, state: string)
    requires Inv(c) && c.phase.Writing? && c.phase.latest.Some?
    ensures SawKernel(Step(c, Write(Some(state), true, true)), state)
  {
    EnabledIsTight();
    TrimReads(state, "enabled");
    forall word | Tight(word) ensures Trim(state) == word <==> Reads(state, word) { TrimReads(state, word); }
    hide Reads, Tight, Written, Files, Trim;
    assert c.phase.latest.value == c.accepted[Received(c) - 1];
  }

  /** Once the socket is empty, the next write leaves the last accepted snapshot in both files,
      whatever the scheduler publishes in between. */
  lemma FullDrain(c: Chan, es: seq<Event>, state: string)
    requires Inv(c) && c.phase.Draining? && c.queue == [] && c.accepted != []
    requires AllOfParent(es)
    ensures var c' := Step(Steps(Step(c, Recv(Ready)), es), Write(Some(state), true, true));
      && c'.phase == Head && ShowsNewest(c') && Received(c') == |c.accepted|
      && c'.accepted[|c.accepted| - 1] == c.accepted[|c.accepted| - 1]
      && (c.phase.latest.Some? ==> SawKernel(c', state))
  {
    var c1 := Step(c, Recv(Ready));
    assert c1 == c.(phase := Writing(c.phase.latest));
    hide Step, Inv, ShowsNewest, SawKernel;
    StepInv(c, Recv(Ready));
    ParentKeeps(c1, es);
    StepsInv(c1, es);
    GoodWrite(Steps(c1, es), state);
    if c.phase.latest.Some? { WriteSees(Steps(c1, es), state); }
  }

  // ---- liveness is never manufactured ------------------------------------------------------------

  /** The scheduler published with this heartbeat. */
  ghost predicate Published(es: seq<Event>, heartbeat: nat) {
    exists k :: 0 <= k < |es| && es[k].Report? && es[k].statusSecs == heartbeat
  }

  /** Every accepted snapshot carries the heartbeat of a publish. */
  ghost predicate Heard(es: seq<Event>, accepted: seq<Snapshot>) {
    forall i :: 0 <= i < |accepted| ==> Published(es, accepted[i].status.heartbeat)
  }

  lemma StepReported(c: Chan, e: Event)
    ensures Step(c, e).accepted == c.accepted
         || (e.Report? && |Step(c, e).accepted| == |c.accepted| + 1 && c.accepted <= Step(c, e).accepted
             && Step(c, e).accepted[|c.accepted|].status.heartbeat == e.statusSecs)
  {
  }

  lemma PublishedLater(es: seq<Event>, e: Event, heartbeat: nat)
    requires Published(es, heartbeat) || (e.Report? && e.statusSecs == heartbeat)
    ensures Published(es + [e], heartbeat)
  {
    if Published(es, heartbeat) {
      var k :| 0 <= k < |es| && es[k].Report? && es[k].statusSecs == heartbeat;
      assert (es + [e])[k] == es[k];
    } else {
      assert (es + [e])[|es|] == e;
    }
  }

  lemma HeardNext(es: seq<Event>, e: Event, accepted: seq<Snapshot>, more: seq<Snapshot>)
    requires Heard(es, accepted)
    requires more == [] || (|more| == 1 && e.Report? && more[0].status.heartbeat == e.statusSecs)
    ensures Heard(es + [e], accepted + more)
  {
    hide Published;
    var all := accepted + more;
    forall i | 0 <= i < |all|
      ensures Published(es + [e], all[i].status.heartbeat)
    {
      PublishedLater(es, e, all[i].status.heartbeat);
    }
  }

  lemma {:induction false} AcceptedWereReported(pid: nat, startedAtMs: nat, es: seq<Event>)
    ensures Heard(es, Steps(Init(pid, startedAtMs), es).accepted)
    decreases |es|
  {
    if es != [] {
      hide Step, Heard;
      var n, c0 := |es| - 1, Init(pid, startedAtMs);
      var c := Steps(c0, es[..n]);
      var accepted := Step(c, es[n]).accepted;
      AcceptedWereReported(pid, startedAtMs, es[..n]);
      StepsLast(c0, es);
      StepReported(c, es[n]);
      HeardNext(es[..n], es[n], c.accepted, accepted[|c.accepted|..]);
      assert es[..n] + [es[n]] == es && c.accepted + accepted[|c.accepted|..] == accepted;
    }
  }

  lemma {:induction false} StepsLast(c: Chan, es: seq<Event>)
    requires es != []
    ensures Steps(c, es) == Step(Steps(c, es[..|es| - 1]), es[|es| - 1])
    decreases |es|
  {
    hide Step;
    if |es| == 1 {
      assert es[1..] == [] && es[..0] == [];
    } else {
      StepsLast(Step(c, es[0]), es[1..]);
      assert es[..|es| - 1][1..] == es[1..][..|es| - 2];
    }
  }

  /** What the daemon finds in the status file. */
  function Parsed(s: Status): LifecycleSpec.Heartbeat {
    LifecycleSpec.Heartbeat(Some(s.pid), Some(s.running), Some(s.healthy), Some(s.heartbeat))
  }

  /** If the daemon takes the status file for a healthy scheduler, that scheduler itself
      published within the last ten seconds, and the reporter saw sched_ext enabled. */
  lemma HealthyMeansPublished(pid: nat, startedAtMs: nat, es: seq<Event>, c: Chan,
                              o: LifecycleSpec.Observation, asked: Pid)
    requires Reachable(pid, startedAtMs, es, c) && c.statusFile.Some?
    requires o.record == Some(Parsed(c.statusFile.value)) && LifecycleSpec.Healthy(o, asked)
    ensures asked == pid && c.statusFile.value.schedExtState == "enabled"
    ensures exists k :: 0 <= k < |es| && es[k].Report?
              && es[k].statusSecs <= o.wallSecs.value <= es[k].statusSecs + LifecycleSpec.HEARTBEAT_TIMEOUT_SECS
  {
    ReachableInv(pid, startedAtMs, es, c);
    AcceptedWereReported(pid, startedAtMs, es);
    PidStays(Init(pid, startedAtMs), es);
    var e := c.written[|c.written| - 1];
    assert FromParent(e.snapshot, c.accepted[e.at]);
    assert Published(es, c.accepted[e.at].status.heartbeat);
    assert c.accepted[e.at].status.heartbeat == c.statusFile.value.heartbeat;
  }

  lemma {:induction false} PidStays(c: Chan, es: seq<Event>)
    ensures Steps(c, es).pid == c.pid
    decreases |es|
  {
    if es != [] {
      assert Step(c, es[0]).pid == c.pid;
      hide Step;
      PidStays(Step(c, es[0]), es[1..]);
    }
  }
}
