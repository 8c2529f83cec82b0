/** Order, fairness and counting over every run of the pipeline. */
module PipelineOrder {
  import opened Types
  import opened Kernel
  import opened KernelInvariant
  import opened TaskOrder
  import opened DrainProgress
  import opened Pipeline
  import opened PipelineInvariant
  import opened PipelineSafety
  import SeqFacts

  // ---- FIFO profiles --------------------------------------------------------------------

  lemma {:induction false} FifoKeepsBatches(profile: Profile, bs: Batches)
    requires profile != Interactive
    ensures Ordered(profile, bs) == bs
  {
    if bs != [] { FifoKeepsBatches(profile, bs[..|bs| - 1]); }
  }

  /** The records that moved their task to a DSQ, in the order they did. */
  function Inserted(ds: seq<Drained>): seq<DispatchedTask> {
    if ds == [] then []
    else Inserted(ds[..|ds| - 1]) + if ds[|ds| - 1].fate.Placed? then [ds[|ds| - 1].rec] else []
  }

  /** The submissions, in order, that reached the ring and whose drained record, found by its
      position among the successful submissions, moved its task. The others were lost to an
      error, are still in the ring, or were vanished, cancelled or refused. */
  function Effective(attempts: seq<Attempt>, ds: seq<Drained>): seq<DispatchedTask> {
    if attempts == [] then []
    else
      var at, a := attempts[..|attempts| - 1], attempts[|attempts| - 1];
      Effective(at, ds) +
      if a.ok && |Sent(at)| < |ds| && ds[|Sent(at)|].fate.Placed? then [NewDispatch(a.rec)] else []
  }

  lemma {:induction false} EffectivePrefix(attempts: seq<Attempt>, ds: seq<Drained>, m: nat)
    requires |Sent(attempts)| <= m <= |ds|
    ensures Effective(attempts, ds) == Effective(attempts, ds[..m])
  {
    if attempts != [] { EffectivePrefix(attempts[..|attempts| - 1], ds, m); }
  }

  lemma {:induction false} RecsPrefix(ds: seq<Drained>, m: nat)
    requires m <= |ds|
    ensures |Recs(ds)| == |ds| && Recs(ds[..m]) == Recs(ds)[..m]
    ensures m < |ds| ==> Recs(ds)[m] == ds[m].rec
  {
    if m < |ds| {
      var n := |ds| - 1;
      RecsPrefix(ds[..n], m);
      assert ds[..n][..m] == ds[..m];
    } else {
      assert ds[..m] == ds;
      if ds != [] { RecsPrefix(ds[..|ds| - 1], |ds| - 1); }
    }
  }

  lemma {:induction false} InsertedIsEffective(attempts: seq<Attempt>, ds: seq<Drained>, rest: seq<DispatchedTask>)
    requires Sent(attempts) == Recs(ds) + rest
    ensures Inserted(ds) == Effective(attempts, ds)
  {
    hide NewDispatch;
    RecsPrefix(ds, |ds|);
    if attempts == [] {
      assert |ds| == 0;
    } else {
      var at, a := attempts[..|attempts| - 1], attempts[|attempts| - 1];
      assert Sent(at) == (Recs(ds) + rest)[..|Sent(at)|];
      if !a.ok || |Sent(at)| >= |ds| {
        assert Sent(at) == Recs(ds) + rest[..|Sent(at)| - |ds|];
        InsertedIsEffective(at, ds, rest[..|Sent(at)| - |ds|]);
      } else {
        var n := |ds| - 1;
        RecsPrefix(ds, n);
        assert Sent(at) == Recs(ds[..n]) + [];
        InsertedIsEffective(at, ds[..n], []);
        EffectivePrefix(at, ds, n);
      }
    }
  }

  /** Under Balanced, Performance and Background the submissions follow the hand-off order
      exactly, and the inserts that take effect are, in that order, exactly the submissions
      that were neither lost, nor still waiting, nor vanished, cancelled or refused. */
  lemma {:induction false} FifoRefinement(s: PState)
    requires Reachable(s) && s.profile != Interactive
    ensures s.k.handed == Tried(s.attempts) + (s.outgoing + (s.batch + s.k.queued))
    ensures Inserted(s.k.drained) == Effective(s.attempts, s.k.drained)
  {
    ReachableInv(s);
    hide KInv;
    FifoKeepsBatches(s.profile, s.batches);
    SeqFacts.Assoc(Tried(s.attempts) + s.outgoing, s.batch, s.k.queued);
    SeqFacts.Assoc(Tried(s.attempts), s.outgoing, s.batch + s.k.queued);
    InsertedIsEffective(s.attempts, s.k.drained, s.k.dispatched);
  }

  // ---- bounded overtaking ------------------------------------------------------------------

  predicate AllDistinct(ts: seq<QueuedTask>) {
    forall i, j :: 0 <= i < j < |ts| ==> ts[i] != ts[j]
  }

  lemma {:induction false} OccAt(ts: seq<QueuedTask>, i: nat)
    requires i < |ts|
    ensures Occ(ts, Id(ts[i].pid, ts[i].enqCnt)) >= 1
  {
    if i < |ts| - 1 { OccAt(ts[..|ts| - 1], i); }
  }

  lemma {:induction false} OccTwice(ts: seq<QueuedTask>, i: nat, j: nat)
    requires i < j < |ts| && ts[i] == ts[j]
    ensures Occ(ts, Id(ts[i].pid, ts[i].enqCnt)) >= 2
  {
    if j < |ts| - 1 { OccTwice(ts[..|ts| - 1], i, j); }
    else { OccAt(ts[..|ts| - 1], i); }
  }

  lemma {:induction false} HandedDistinct(s: PState)
    requires Reachable(s)
    ensures AllDistinct(s.k.handed)
  {
    var h := s.k.handed;
    forall i, j | 0 <= i < j < |h| ensures h[i] != h[j] {
      if h[i] == h[j] {
        OccTwice(h, i, j);
        GenerationsDistinct(s, Id(h[i].pid, h[i].enqCnt));
      }
    }
  }

  lemma IndexOf(ts: seq<QueuedTask>, t: QueuedTask) returns (i: nat)
    requires t in multiset(ts)
    ensures i < |ts| && ts[i] == t
  {
    i :| i < |ts| && ts[i] == t;
  }

  /** Two streams cut at the same place, each part a permutation: an element is on the same
      side of the cut in both. */
  lemma SameSide(a: seq<QueuedTask>, l: seq<QueuedTask>, a': seq<QueuedTask>, l': seq<QueuedTask>, i: nat, j: nat)
    requires AllDistinct(a + l) && multiset(a) == multiset(a') && multiset(l) == multiset(l') && |a| == |a'|
    requires i < |a + l| && j < |a' + l'| && (a + l)[i] == (a' + l')[j]
    ensures j < |a| ==> i < |a| && a[i] == a'[j]
    ensures j >= |a| ==> i >= |a|
    ensures AllDistinct(a)
  {
    var t := (a + l)[i];
    if j >= |a| {
      assert t == l'[j - |a|];
      assert t in multiset(l');
      var i' := IndexOf(l, t);
      assert (a + l)[|a| + i'] == t;
      assert i == |a| + i';
    } else {
      assert t == a'[j];
      assert t in multiset(a');
      var i' := IndexOf(a, t);
      assert (a + l)[i'] == t;
      assert i == i';
    }
    assert forall x :: 0 <= x < |a| ==> a[x] == (a + l)[x];
  }

  /** Within one batch a record moves by less than the batch size; batches never mix. */
  lemma {:induction false} Overtaking(profile: Profile, bs: Batches, i: nat, j: nat)
    requires Small(bs) && AllDistinct(Flat(bs))
    requires i < |Flat(bs)| && j < |Flat(Ordered(profile, bs))| && Flat(bs)[i] == Flat(Ordered(profile, bs))[j]
    ensures j < i + MAX_BATCH && i < j + MAX_BATCH
  {
    hide AllDistinct, OrderTasks;
    assert bs != [];
    var init, last := bs[..|bs| - 1], bs[|bs| - 1];
    var o, last' := Ordered(profile, init), OrderTasks(profile, last);
    OrderedLength(profile, init);
    assert Ordered(profile, bs)[..|bs| - 1] == o;
    assert Flat(bs) == Flat(init) + last && Flat(Ordered(profile, bs)) == Flat(o) + last';
    FlatOrderedPermutes(profile, init);
    OrderIsPermutation(profile, last);
    assert |last| <= MAX_BATCH && Small(init);
    hide Flat, Ordered;
    SameSide(Flat(init), last, Flat(o), last', i, j);
    if j < |Flat(init)| { Overtaking(profile, init, i, j); }
  }

  lemma {:induction false} OrderedLength(profile: Profile, bs: Batches)
    ensures |Ordered(profile, bs)| == |bs|
  {
    if bs != [] { OrderedLength(profile, bs[..|bs| - 1]); }
  }

  lemma {:induction false} OvertakingInStreams(profile: Profile, bs: Batches, handed: seq<QueuedTask>,
      later: seq<QueuedTask>, tried: seq<QueuedTask>, outgoing: seq<QueuedTask>, i: nat, j: nat)
    requires handed == Flat(bs) + later && AllDistinct(handed) && Small(bs)
    requires Flat(Ordered(profile, bs)) == tried + outgoing
    requires i < |handed| && j < |tried| && handed[i] == tried[j]
    ensures j < i + MAX_BATCH && i < j + MAX_BATCH
  {
    hide Ordered, OrderTasks, Small;
    var closed, sent := Flat(bs), Flat(Ordered(profile, bs));
    assert sent[j] == handed[i];
    FlatOrderedPermutes(profile, bs);
    assert handed[i] in multiset(sent);
    var i' := IndexOf(closed, handed[i]);
    assert handed[i'] == handed[i];
    assert AllDistinct(closed) by {
      assert forall x :: 0 <= x < |closed| ==> closed[x] == handed[x];
    }
    Overtaking(profile, bs, i, j);
  }

  /** For every profile and every run, a record's place in the submission order differs from
      its place in the hand-off order by at most 63. */
  lemma {:induction false} BoundedOvertaking(s: PState, i: nat, j: nat)
    requires Reachable(s) && i < |s.k.handed| && j < |Tried(s.attempts)|
    requires s.k.handed[i] == Tried(s.attempts)[j]
    ensures -63 <= j - i <= 63
  {
    ReachableInv(s);
    HandedDistinct(s);
    hide KInv, AllDistinct, Small, Flat, Ordered, Tried, OrderTasks;
    SeqFacts.Assoc(Flat(s.batches), s.batch, s.k.queued);
    OvertakingInStreams(s.profile, s.batches, s.k.handed, s.batch + s.k.queued, Tried(s.attempts), s.outgoing, i, j);
  }

  /** The bound for the stream that enters @dispatched: each dispatch error lets the records
      behind it move up by one place more. */
  lemma {:induction false} BoundedOvertakingSent(s: PState, i: nat, j: nat)
    requires Reachable(s) && i < |s.k.handed| && j < |Sent(s.attempts)|
    requires Sent(s.attempts)[j].pid == s.k.handed[i].pid && Sent(s.attempts)[j].enqCnt == s.k.handed[i].enqCnt
    ensures -63 - s.stats.dispatchErrors <= j - i <= 63
  {
    ReachableInv(s);
    var j' := SentWasTried(s.attempts, j);
    var t := Tried(s.attempts)[j'];
    var sent := Flat(Ordered(s.profile, s.batches));
    assert sent[j'] == t;
    FlatOrderedPermutes(s.profile, s.batches);
    assert t in multiset(sent);
    var i' := IndexOf(Flat(s.batches), t);
    SeqFacts.Assoc(Flat(s.batches), s.batch, s.k.queued);
    assert s.k.handed[i'] == t;
    SameIdSameIndex(s, i, i');
    BoundedOvertaking(s, i, j');
  }

  lemma {:induction false} OccPair(ts: seq<QueuedTask>, i: nat, j: nat)
    requires i < j < |ts| && ts[i].pid == ts[j].pid && ts[i].enqCnt == ts[j].enqCnt
    ensures Occ(ts, Id(ts[i].pid, ts[i].enqCnt)) >= 2
  {
    if j < |ts| - 1 { OccPair(ts[..|ts| - 1], i, j); }
    else { OccAt(ts[..|ts| - 1], i); }
  }

  lemma {:induction false} SameIdSameIndex(s: PState, i: nat, j: nat)
    requires Reachable(s) && i < |s.k.handed| && j < |s.k.handed|
    requires s.k.handed[i].pid == s.k.handed[j].pid && s.k.handed[i].enqCnt == s.k.handed[j].enqCnt
    ensures i == j
  {
    var id := Id(s.k.handed[i].pid, s.k.handed[i].enqCnt);
    GenerationsDistinct(s, id);
    if i < j { OccPair(s.k.handed, i, j); }
    if j < i { OccPair(s.k.handed, j, i); }
  }

  // ---- bounded waiting ------------------------------------------------------------------------

  /** How many records have left @queued. */
  function Popped(s: PState): int {
    |s.k.handed| - |s.k.queued|
  }

  /** Either the first `target` hand-offs have left @queued, or every batch closed since the
      count was `base`, `from` batches were closed and the ring had reported `errors` errors has
      been full, but for one batch for each error since. */
  ghost predicate Keeping(s: PState, target: int, base: int, from: nat, errors: nat) {
    var failed := s.stats.dequeueErrors - errors;
    && failed >= 0 && from + failed <= |s.batches|
    && (Popped(s) >= target || Popped(s) - |s.batch| >= base + MAX_BATCH * (|s.batches| - from - failed))
  }

  lemma SubmitKeeps(k: KState, r: DispatchedTask, fail: bool)
    ensures Submit(k, r, fail).handed == k.handed && Submit(k, r, fail).queued == k.queued
  {
  }

  lemma {:induction false} KeepStep(s: PState, ev: PEvent, target: int, base: int, from: nat, errors: nat)
    requires PInv(s) && Keeping(s, target, base, from, errors) && target <= |s.k.handed|
    ensures var s' := PStep(s, ev);
            Keeping(s', target, base, from, errors) && target <= |s'.k.handed|
  {
    hide KInv, OrderTasks, StatsOk, Ordering, Outgoing, Step, Submit, Flat;
    match ev
    case Kern(e) =>
      hide UserStep;
      var news := StepGrew(s.k, e);
    case User(fail) =>
      if s.phase.Sending? && s.outgoing != [] { SubmitKeeps(s.k, NewDispatch(s.outgoing[0]), fail); }
  }

  lemma {:induction false} KeepSteps(s: PState, evs: seq<PEvent>, target: int, base: int, from: nat, errors: nat)
    requires PInv(s) && Keeping(s, target, base, from, errors) && target <= |s.k.handed|
    ensures Keeping(PSteps(s, evs), target, base, from, errors)
    decreases |evs|
  {
    hide PStep, PInv, Keeping;
    if evs != [] {
      var s1 := PStep(s, evs[0]);
      KeepStep(s, evs[0], target, base, from, errors);
      PStepsInv(s, [evs[0]]);
      assert PSteps(s, [evs[0]]) == s1;
      KeepSteps(s1, evs[1..], target, base, from, errors);
    }
  }

  /** A record with `ahead` records before it in @queued at the start of a cycle has left
      @queued once `ahead/64 + 1` cycles are complete, and one more for each error the ring
      reported meanwhile, whatever is handed off. */
  lemma {:induction false} BoundedWaiting(s: PState, evs: seq<PEvent>, ahead: nat)
    requires Reachable(s) && s.phase.Collecting? && s.batch == [] && ahead < |s.k.queued|
    requires var s' := PSteps(s, evs);
             s'.stats.progressSequence - s.stats.progressSequence
             >= ahead / 64 + 1 + (s'.stats.dequeueErrors - s.stats.dequeueErrors)
    ensures Popped(PSteps(s, evs)) > Popped(s) + ahead
  {
    var s' := PSteps(s, evs);
    ReachableInv(s);
    var target, base, from, errors := Popped(s) + ahead + 1, Popped(s), |s.batches|, s.stats.dequeueErrors;
    KeepSteps(s, evs, target, base, from, errors);
    PStepsInv(s, evs);
    assert |s'.batches| - from - (s'.stats.dequeueErrors - errors) >= ahead / MAX_BATCH + 1;
  }

  // ---- when a batch ends -----------------------------------------------------------------------

  /** A turn of the collecting loop ends the batch if and only if it is full, the ring reports an
      error or the ring is empty; otherwise it takes the oldest record. Only an error counts as one. */
  lemma BatchEnds(s: PState, fail: bool)
    requires s.phase.Collecting?
    ensures var s', ends := PStep(s, User(fail)), |s.batch| >= 64 || fail || s.k.queued == [];
            && (s'.phase.Sending? <==> ends)
            && (ends ==> s'.batches == s.batches + [s.batch] && s'.batch == [] && s'.k.queued == s.k.queued)
            && (!ends ==> s'.batches == s.batches && s.k.queued == [s'.batch[|s.batch|]] + s'.k.queued
                          && s'.batch == s.batch + [s.k.queued[0]])
            && s'.stats.dequeueErrors == s.stats.dequeueErrors + (if fail && |s.batch| < 64 then 1 else 0)
  {
    hide OrderTasks;
  }

  lemma {:induction false} ErrorsEndBatches(s: PState, evs: seq<PEvent>)
    requires s.stats.dequeueErrors <= |s.batches|
    ensures PSteps(s, evs).stats.dequeueErrors <= |PSteps(s, evs).batches|
    decreases |evs|
  {
    if evs != [] {
      var s1 := PStep(s, evs[0]);
      if evs[0].User? && s.phase.Collecting? { BatchEnds(s, evs[0].fail); }
      assert s1.stats.dequeueErrors <= |s1.batches| by { hide Step, OrderTasks, Submit; }
      hide PStep;
      ErrorsEndBatches(s1, evs[1..]);
    }
  }

  /** In every run each error of the ring ends a batch: between batches there were no more of them
      than cycles. */
  lemma {:induction false} RingErrorsCostCycles(s: PState)
    requires Reachable(s) && s.phase.Collecting?
    ensures s.stats.dequeueErrors <= s.stats.progressSequence == |s.batches|
  {
    var cfg, profile, evs :| ValidConfig(cfg) && s == PSteps(InitState(cfg, profile), evs);
    ReachableInv(s);
    hide Reachable, KInv, Streams, PSteps;
    ErrorsEndBatches(InitState(cfg, profile), evs);
  }

  // ---- counters --------------------------------------------------------------------------------

  lemma {:induction false} LargestBounds(bs: Batches)
    requires Small(bs)
    ensures Largest(bs) <= MAX_BATCH && NonEmpty(bs) <= |bs|
    ensures |Flat(bs)| <= Largest(bs) * NonEmpty(bs)
  {
    if bs != [] {
      var init, last := bs[..|bs| - 1], bs[|bs| - 1];
      LargestBounds(init);
      Monotone(Largest(init), Largest(bs), NonEmpty(init));
    }
  }

  lemma Monotone(a: nat, b: nat, n: nat)
    requires a <= b
    ensures a * n <= b * n && b * (n + 1) == b * n + b
  {
  }

  lemma {:induction false} TriedCount(attempts: seq<Attempt>)
    ensures |Tried(attempts)| == |Sent(attempts)| + |Errors(attempts)| == |attempts|
  {
    if attempts != [] { TriedCount(attempts[..|attempts| - 1]); }
  }

  lemma MeanTimes(total: nat, n: nat, mean: real)
    requires n == 0 ==> total == 0
    requires mean == Mean(total, n)
    ensures mean * n as real == total as real
  {
  }

  /** The mean times the batches is the total, and no batch exceeds the largest. */
  ghost predicate Consistent(total: nat, processed: nat, largest: nat, mean: real) {
    total <= largest * processed && mean * processed as real == total as real
  }

  /** The counters of the closed batches are consistent with each other. */
  lemma {:induction false} BatchCounters(dequeued: nat, processed: nat, largest: nat, mean: real, bs: Batches)
    requires BatchStats(dequeued, processed, largest, mean, bs) && Small(bs)
    ensures Consistent(dequeued, processed, largest, mean) && largest <= MAX_BATCH && processed <= |bs|
  {
    LargestBounds(bs);
    if processed == 0 { assert largest * processed == 0; }
    MeanTimes(dequeued, processed, mean);
  }

  /** Whenever no batch is being sent, every dequeued task was either dispatched or counted as
      an error. */
  lemma {:induction false} CycleCounters(s: PState)
    requires Reachable(s) && s.phase.Collecting?
    ensures s.stats.tasksDequeued == s.stats.tasksDispatched + s.stats.dispatchErrors
  {
    ReachableInv(s);
    TriedCount(s.attempts);
    FlatOrderedPermutes(s.profile, s.batches);
  }

  /** The batch statistics agree with the totals in every state of every run. */
  lemma {:induction false} BatchStatistics(s: PState)
    requires Reachable(s)
    ensures var st := s.stats;
            Consistent(st.tasksDequeued, st.batchesProcessed, st.maxBatchSize, st.avgBatchSize)
    ensures s.stats.maxBatchSize <= 64 && s.stats.batchesProcessed <= s.stats.progressSequence + 1
    ensures s.phase.Collecting? ==> s.stats.batchesProcessed <= s.stats.progressSequence
  {
    ReachableInv(s);
    var st := s.stats;
    hide KInv, BatchStats, Consistent;
    BatchCounters(st.tasksDequeued, st.batchesProcessed, st.maxBatchSize, st.avgBatchSize, s.batches);
  }

  lemma {:induction false} FateCounts(ds: seq<Drained>)
    ensures VanishedCount(ds) + CancelledCount(ds) + |Inserted(ds)| <= |ds|
  {
    if ds != [] { FateCounts(ds[..|ds| - 1]); }
  }

  /** Each drained record is counted once: vanished, user or bounced; the cancelled ones and
      the inserts that took effect are among the last two. */
  lemma {:induction false} DrainCounters(s: PState)
    requires Reachable(s)
    ensures s.k.nrUser + s.k.nrBounce + VanishedCount(s.k.drained) == |s.k.drained|
    ensures s.k.nrCancel + |Inserted(s.k.drained)| <= s.k.nrUser + s.k.nrBounce
    ensures s.k.nrQueued == |s.k.queued| && s.k.nrScheduled == 0
  {
    ReachableInv(s);
    FateCounts(s.k.drained);
  }
}
