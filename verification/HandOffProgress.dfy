/** How soon a record is drained while everything goes on: the counterpart of `BoundedWaiting`
    for @dispatched, and both together. */
module HandOffProgress {
  import opened Types
  import opened Kernel
  import opened DrainProgress
  import opened Pipeline
  import opened PipelineInvariant
  import opened PipelineSafety
  import opened PipelineOrder

  /** The kernel runs ops.dispatch() on a possible CPU. */
  predicate IsDispatch(nrCpus: nat, ev: PEvent) {
    ev.Kern? && ev.e.DispatchEv? && 0 <= ev.e.cpu < nrCpus
  }

  function Dispatches(nrCpus: nat, evs: seq<PEvent>): nat {
    if evs == [] then 0 else (if IsDispatch(nrCpus, evs[0]) then 1 else 0) + Dispatches(nrCpus, evs[1..])
  }

  /** All records that ever entered @dispatched, in order. */
  function Stream(k: KState): seq<DispatchedTask> {
    Recs(k.drained) + k.dispatched
  }

  lemma {:induction false} RecsLength(ds: seq<Drained>)
    ensures |Recs(ds)| == |ds|
  {
    if ds != [] { RecsLength(ds[..|ds| - 1]); }
  }

  lemma {:induction false} LiveAtMost(lives: Lives, rs: seq<DispatchedTask>)
    ensures LiveCount(lives, rs) <= |rs|
  {
    if rs != [] { LiveAtMost(lives, rs[1..]); }
  }

  /** One dispatch drains the whole ring, or at least as many records as it has slots. */
  lemma {:induction false} DispatchDrains(k: KState, cpu: Cpu)
    ensures var k' := Dispatch(k, cpu);
            k'.dispatched == [] || |k'.drained| >= |k.drained| + MAX_DISPATCH_SLOT
  {
    hide Drain, Consume, LivesOf, LiveCount, Live;
    var j := DrainPrefix(k, MAX_DISPATCH_SLOT);
    var k1 := Drain(k, MAX_DISPATCH_SLOT).0;
    LiveAtMost(LivesOf(k), k.dispatched[..j]);
    RecsLength(k.drained);
    RecsLength(k1.drained);
    ConsumeSame(k1, cpu);
  }

  /** What no step takes back: hand-offs, the stream of submissions, drained records, errors. */
  ghost predicate Later(s: PState, s': PState) {
    && s.k.handed <= s'.k.handed && Stream(s.k) <= Stream(s'.k) && s.k.drained <= s'.k.drained
    && s.attempts <= s'.attempts && s'.k.cfg == s.k.cfg
  }

  lemma {:induction false} PStepLater(s: PState, ev: PEvent)
    ensures Later(s, PStep(s, ev))
  {
    hide Step, Recs;
    if ev.Kern? { var news := StepGrew(s.k, ev.e); }
  }

  lemma LaterTrans(a: PState, b: PState, c: PState)
    requires Later(a, b) && Later(b, c)
    ensures Later(a, c)
  {
    hide Stream;
  }

  lemma {:induction false} PStepsLater(s: PState, evs: seq<PEvent>)
    ensures Later(s, PSteps(s, evs))
    decreases |evs|
  {
    hide PStep;
    if evs == [] {
      hide Stream;
    } else {
      hide Later;
      var s1 := PStep(s, evs[0]);
      PStepLater(s, evs[0]);
      PStepsLater(s1, evs[1..]);
      LaterTrans(s, s1, PSteps(s1, evs[1..]));
    }
  }

  /** The first `target` submissions are drained, or every one of `count` dispatches since `base`
      records were drained used up all its slots. */
  ghost predicate Drained(k: KState, target: nat, base: nat, count: nat) {
    && target <= |k.drained| + |k.dispatched|
    && (|k.drained| >= target || |k.drained| >= base + MAX_DISPATCH_SLOT * count)
  }

  lemma StreamLength(k: KState)
    ensures |Stream(k)| == |k.drained| + |k.dispatched|
  {
    RecsLength(k.drained);
  }

  lemma {:induction false} DrainedStep(s: PState, ev: PEvent, target: nat, base: nat, count: nat)
    requires Drained(s.k, target, base, count)
    ensures Drained(PStep(s, ev).k, target, base, count + if IsDispatch(s.k.cfg.nrCpus, ev) then 1 else 0)
  {
    var s' := PStep(s, ev);
    PStepLater(s, ev);
    StreamLength(s.k);
    StreamLength(s'.k);
    if IsDispatch(s.k.cfg.nrCpus, ev) {
      DispatchDrains(s.k, ev.e.cpu);
      assert s'.k == Dispatch(s.k, ev.e.cpu);
      hide PStep, Dispatch, Stream;
    } else {
      hide PStep, Stream;
    }
  }

  lemma {:induction false} DrainedSteps(s: PState, evs: seq<PEvent>, target: nat, base: nat, count: nat)
    requires Drained(s.k, target, base, count)
    ensures Drained(PSteps(s, evs).k, target, base, count + Dispatches(s.k.cfg.nrCpus, evs))
    decreases |evs|
  {
    hide PStep, Drained, IsDispatch;
    if evs != [] {
      var s1 := PStep(s, evs[0]);
      DrainedStep(s, evs[0], target, base, count);
      PStepLater(s, evs[0]);
      DrainedSteps(s1, evs[1..], target, base, count + if IsDispatch(s.k.cfg.nrCpus, evs[0]) then 1 else 0);
    }
  }

  /** From any state, a record with `ahead` records before it in @dispatched is drained once
      `ahead / 512 + 1` dispatches have happened, on any CPUs and whatever is submitted meanwhile. */
  lemma {:induction false} BoundedDraining(s: PState, evs: seq<PEvent>, ahead: nat)
    requires ahead < |s.k.dispatched|
    requires Dispatches(s.k.cfg.nrCpus, evs) >= ahead / 512 + 1
    ensures |PSteps(s, evs).k.drained| > |s.k.drained| + ahead
  {
    hide PSteps, Dispatches;
    var target, base := |s.k.drained| + ahead + 1, |s.k.drained|;
    DrainedSteps(s, evs, target, base, 0);
    EnoughSlots(ahead, Dispatches(s.k.cfg.nrCpus, evs));
  }

  lemma EnoughSlots(ahead: nat, n: nat)
    requires n >= ahead / MAX_DISPATCH_SLOT + 1
    ensures MAX_DISPATCH_SLOT * n >= ahead + 1
  {
  }

  // ---- from the hand-off to the drain ------------------------------------------------------------

  lemma {:induction false} OccPrefix(a: seq<QueuedTask>, b: seq<QueuedTask>, id: Id)
    requires a <= b
    ensures Occ(a, id) <= Occ(b, id)
  {
    assert b == a + b[|a|..];
    OccConcat(a, b[|a|..], id);
  }

  lemma {:induction false} OccSentPrefix(a: seq<DispatchedTask>, b: seq<DispatchedTask>, id: Id)
    requires a <= b
    ensures OccSent(a, id) <= OccSent(b, id)
  {
    assert b == a + b[|a|..];
    OccSentConcat(a, b[|a|..], id);
  }

  lemma {:induction false} ErrorsGrow(a: seq<Attempt>, b: seq<Attempt>)
    requires a <= b
    ensures Errors(a) <= Errors(b)
    decreases |b|
  {
    if a == b {
    } else {
      var b' := b[..|b| - 1];
      assert a <= b';
      ErrorsGrow(a, b');
      assert Errors(b') <= Errors(b);
    }
  }

  /** A hand-off that has left @queued is not there any more. */
  lemma {:induction false} LeftQueued(s: PState, i: nat)
    requires Reachable(s) && i < Popped(s)
    ensures Occ(s.k.queued, Id(s.k.handed[i].pid, s.k.handed[i].enqCnt)) == 0
    ensures Occ(s.k.handed, Id(s.k.handed[i].pid, s.k.handed[i].enqCnt)) == 1
  {
    var id, h, n := Id(s.k.handed[i].pid, s.k.handed[i].enqCnt), s.k.handed, Popped(s);
    ReachableInv(s);
    hide Reachable, Flat;
    assert h == h[..n] + s.k.queued;
    OccConcat(h[..n], s.k.queued, id);
    OccAt(h[..n], i);
    GenerationsDistinct(s, id);
  }

  /** At the start of a cycle, what has left @queued was sent or was a counted error. */
  lemma {:induction false} SentByThen(s: PState, i: nat)
    requires Reachable(s) && s.phase.Collecting? && s.batch == [] && i < Popped(s)
    ensures var id := Id(s.k.handed[i].pid, s.k.handed[i].enqCnt);
            OccSent(Stream(s.k), id) + Occ(Errors(s.attempts), id) == 1
  {
    var id := Id(s.k.handed[i].pid, s.k.handed[i].enqCnt);
    LeftQueued(s, i);
    ReachableInv(s);
    hide Reachable;
    Conservation(s, id);
    OccSentConcat(Recs(s.k.drained), s.k.dispatched, id);
  }

  lemma {:induction false} QueuedIsHanded(s: PState, ahead: nat)
    requires Reachable(s) && ahead < |s.k.queued|
    ensures 0 <= Popped(s) && s.k.handed[Popped(s) + ahead] == s.k.queued[ahead]
  {
    ReachableInv(s);
  }

  /** Enough dispatches drain whatever was in @dispatched. */
  lemma {:induction false} AllDrained(s: PState, evs: seq<PEvent>)
    requires Dispatches(s.k.cfg.nrCpus, evs) >= |s.k.dispatched| / MAX_DISPATCH_SLOT + 1
    ensures |PSteps(s, evs).k.drained| >= |s.k.drained| + |s.k.dispatched|
  {
    hide PSteps, Dispatches;
    DrainedSteps(s, evs, |s.k.drained| + |s.k.dispatched|, |s.k.drained|, 0);
    EnoughSlots(|s.k.dispatched|, Dispatches(s.k.cfg.nrCpus, evs));
  }

  lemma {:induction false} StreamDrained(s: PState, s': PState, id: Id)
    requires Later(s, s') && |s'.k.drained| >= |s.k.drained| + |s.k.dispatched|
    ensures OccSent(Stream(s.k), id) <= OccSent(Recs(s'.k.drained), id)
  {
    StreamLength(s.k);
    RecsLength(s'.k.drained);
    assert Stream(s.k) <= Recs(s'.k.drained);
    OccSentPrefix(Stream(s.k), Recs(s'.k.drained), id);
  }

  lemma {:induction false} OnceHanded(s: PState, s': PState, i: nat)
    requires Reachable(s') && s.k.handed <= s'.k.handed && i < |s.k.handed|
    ensures Occ(s'.k.handed, Id(s.k.handed[i].pid, s.k.handed[i].enqCnt)) <= 1
  {
    hide Reachable;
    GenerationsDistinct(s', Id(s.k.handed[i].pid, s.k.handed[i].enqCnt));
  }

  /** After the cycles the record has left @queued. */
  lemma {:induction false} LeftByThen(s: PState, cycles: seq<PEvent>, ahead: nat) returns (i: nat)
    requires Reachable(s) && s.phase.Collecting? && s.batch == [] && ahead < |s.k.queued|
    requires var s1 := PSteps(s, cycles);
             s1.stats.progressSequence - s.stats.progressSequence
             >= ahead / 64 + 1 + (s1.stats.dequeueErrors - s.stats.dequeueErrors)
    ensures var s1 := PSteps(s, cycles);
            Reachable(s1) && i < Popped(s1) && i < |s1.k.handed| && s1.k.handed[i] == s.k.queued[ahead]
  {
    hide PSteps, Reachable, Stream;
    var s1 := PSteps(s, cycles);
    QueuedIsHanded(s, ahead);
    i := Popped(s) + ahead;
    BoundedWaiting(s, cycles, ahead);
    PStepsLater(s, cycles);
    ReachableSteps(s, cycles);
    assert s.k.handed <= s1.k.handed;
  }

  /** After the dispatches, what had left @queued was drained or is a counted error. */
  lemma {:induction false} DrainedByThen(s: PState, evs: seq<PEvent>, i: nat)
    requires Reachable(s) && s.phase.Collecting? && s.batch == [] && i < Popped(s)
    requires Dispatches(s.k.cfg.nrCpus, evs) >= |s.k.dispatched| / MAX_DISPATCH_SLOT + 1
    ensures var s', id := PSteps(s, evs), Id(s.k.handed[i].pid, s.k.handed[i].enqCnt);
            && InFlight(s', id) == 0
            && OccSent(Recs(s'.k.drained), id) + Occ(Errors(s'.attempts), id) == 1
  {
    var s', id := PSteps(s, evs), Id(s.k.handed[i].pid, s.k.handed[i].enqCnt);
    hide PSteps, Reachable, InFlight, Recs, OccSent, Occ, Errors, Dispatches, Stream;
    PStepsLater(s, evs);
    ReachableSteps(s, evs);
    SentByThen(s, i);
    AllDrained(s, evs);
    StreamDrained(s, s', id);
    ErrorsGrow(s.attempts, s'.attempts);
    OccPrefix(Errors(s.attempts), Errors(s'.attempts), id);
    Conservation(s', id);
    OnceHanded(s, s', i);
  }

  /** The way of a record, end to end: the record with `ahead` records before it in @queued has
      left it after `ahead / 64 + 1` cycles and one more for each ring error; and once
      |@dispatched| / 512 + 1 dispatches follow, it was drained, once, or is a counted error. */
  lemma {:induction false} HandOffIsDrained(s: PState, cycles: seq<PEvent>, rest: seq<PEvent>, ahead: nat)
    requires Reachable(s) && s.phase.Collecting? && s.batch == [] && ahead < |s.k.queued|
    requires var s1 := PSteps(s, cycles);
             && s1.phase.Collecting? && s1.batch == []
             && s1.stats.progressSequence - s.stats.progressSequence
                >= ahead / 64 + 1 + (s1.stats.dequeueErrors - s.stats.dequeueErrors)
             && Dispatches(s1.k.cfg.nrCpus, rest) >= |s1.k.dispatched| / 512 + 1
    ensures var s2, r := PSteps(PSteps(s, cycles), rest), s.k.queued[ahead];
            && InFlight(s2, Id(r.pid, r.enqCnt)) == 0
            && OccSent(Recs(s2.k.drained), Id(r.pid, r.enqCnt)) + Occ(Errors(s2.attempts), Id(r.pid, r.enqCnt)) == 1
  {
    hide PSteps, Reachable, InFlight, Recs, OccSent, Occ, Errors, Dispatches, Popped;
    var i := LeftByThen(s, cycles, ahead);
    DrainedByThen(PSteps(s, cycles), rest, i);
  }
}
