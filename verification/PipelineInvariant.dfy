/** The stream equations and counters every interleaving keeps. */
module PipelineInvariant {
  import opened Types
  import opened Kernel
  import opened KernelInvariant
  import opened TaskOrder
  import opened DrainProgress
  import opened Pipeline
  import SeqFacts

  // ---- how a kernel event moves the streams ----------------------------------------------

  /** At most new records at the end of @queued, and records moved from @dispatched to the
      drain log in order. */
  ghost predicate Grew(k: KState, k': KState, news: seq<QueuedTask>) {
    && k'.handed == k.handed + news && k'.queued == k.queued + news
    && Recs(k'.drained) + k'.dispatched == Recs(k.drained) + k.dispatched
    && k.drained <= k'.drained
    && k'.cfg == k.cfg && k'.nrScheduled == k.nrScheduled
  }

  lemma {:induction false} DrainGrew(k: KState, slots: nat)
    ensures Grew(k, Drain(k, slots).0, [])
    decreases |k.dispatched|
  {
    if k.dispatched != [] {
      var r, k0 := k.dispatched[0], k.(dispatched := k.dispatched[1..]);
      HandleFrame(k0, r, slots);
      hide HandleRecord;
      var (k1, left) := HandleRecord(k0, r, slots);
      assert k1.drained[..|k.drained|] == k.drained;
      assert Recs(k1.drained) == Recs(k.drained) + [r];
      assert [r] + k.dispatched[1..] == k.dispatched;
      SeqFacts.Assoc(Recs(k.drained), [r], k.dispatched[1..]);
      if left > 0 { DrainGrew(k1, left); }
    }
  }

  ghost predicate SameStreams(k: KState, k': KState) {
    && k'.handed == k.handed && k'.queued == k.queued && k'.drained == k.drained
    && k'.dispatched == k.dispatched && k'.cfg == k.cfg && k'.nrScheduled == k.nrScheduled
  }

  lemma SameGrew(k: KState, k': KState)
    requires SameStreams(k, k')
    ensures Grew(k, k', [])
  {
  }

  lemma {:induction false} DirectSame(k: KState, pid: Pid, cpu: Cpu)
    requires pid in k.tasks
    ensures SameStreams(k, DirectDispatch(k, pid, cpu))
  {
  }

  lemma {:induction false} SelectCpuSame(k: KState, pid: Pid, prevCpu: Cpu, thisCpu: Cpu, picked: int)
    requires pid in k.tasks
    ensures SameStreams(k, SelectCpu(k, pid, prevCpu, thisCpu, picked))
  {
    hide DirectDispatch;
    DirectSame(SetTask(k, pid, k.tasks[pid].(cpu := picked)), pid, picked);
  }

  lemma {:induction false} QueueToUserGrew(k: KState, pid: Pid, cpu: Cpu, flags: u64)
    returns (news: seq<QueuedTask>)
    requires pid in k.tasks
    ensures Grew(k, QueueToUser(k, pid, cpu, flags), news)
  {
    if |k.queued| >= k.cfg.queuedCap { news := []; }
    else { news := [TaskInfo(pid, k.tasks[pid], cpu, flags, k.tasks[pid].enqCnt + 1)]; }
  }

  lemma {:induction false} EnqueueGrew(k: KState, pid: Pid, flags: u64, wakeup: bool, picked: int)
    returns (news: seq<QueuedTask>)
    requires pid in k.tasks
    ensures Grew(k, Enqueue(k, pid, flags, wakeup, picked), news)
  {
    hide DirectDispatch, QueueToUser, Grew;
    var t := k.tasks[pid];
    news := [];
    if pid == k.cfg.usersched { SameGrew(k, EnqueueSched(k, pid)); }
    else if AlwaysDirect(k, pid) { DirectSame(k, pid, t.cpu); SameGrew(k, DirectDispatch(k, pid, t.cpu)); }
    else if !(k.cfg.builtinIdle && wakeup) || picked < 0 { news := QueueToUserGrew(k, pid, t.cpu, flags); }
    else if !CanDirectDispatch(k, picked) { news := QueueToUserGrew(k, pid, picked, flags); }
    else if picked !in t.allowed { SameGrew(k, SetTask(k, pid, t.(place := Owned(false)))); }
    else { DirectSame(k, pid, picked); SameGrew(k, DirectDispatch(k, pid, picked)); }
  }

  lemma {:induction false} ConsumeSame(k: KState, cpu: Cpu)
    ensures SameStreams(k, Consume(k, cpu))
  {
  }

  lemma {:induction false} DispatchGrew(k: KState, cpu: Cpu)
    ensures Grew(k, Dispatch(k, cpu), [])
  {
    hide Drain, Consume;
    DrainGrew(k, MAX_DISPATCH_SLOT);
    ConsumeSame(Drain(k, MAX_DISPATCH_SLOT).0, cpu);
  }

  lemma {:induction false} StepGrew(k: KState, e: Event) returns (news: seq<QueuedTask>)
    ensures Grew(k, Step(k, e), news)
  {
    hide Grew, Enqueue, SelectCpu, Dispatch;
    news := [];
    if !Enabled(k, e) { SameGrew(k, k); }
    else if e.EnqueueEv? { news := EnqueueGrew(k, e.pid, e.flags, e.wakeup, e.picked); }
    else if e.DispatchEv? { DispatchGrew(k, e.cpu); }
    else if e.SelectCpuEv? {
      SelectCpuSame(k, e.pid, e.prevCpu, e.thisCpu, e.picked);
      SameGrew(k, Step(k, e));
    } else { SameGrew(k, Step(k, e)); }
  }

  // ---- the invariant ----------------------------------------------------------------------

  predicate Small(bs: seq<seq<QueuedTask>>) {
    forall i :: 0 <= i < |bs| ==> |bs[i]| <= MAX_BATCH
  }

  type Batches = seq<seq<QueuedTask>>

  /** The hand-offs are the closed batches, the open batch and the ring, in this order. */
  ghost predicate Incoming(handed: seq<QueuedTask>, bs: Batches, batch: seq<QueuedTask>, queued: seq<QueuedTask>) {
    handed == (Flat(bs) + batch) + queued && |batch| <= MAX_BATCH && Small(bs)
  }

  /** The closed batches, each ordered by the profile, are the submissions tried and to try. */
  ghost predicate Ordering(profile: Profile, bs: Batches, attempts: seq<Attempt>, outgoing: seq<QueuedTask>) {
    Flat(Ordered(profile, bs)) == Tried(attempts) + outgoing
  }

  /** The submissions that worked are the records drained and those still in the ring. */
  ghost predicate Outgoing(attempts: seq<Attempt>, drained: seq<Drained>, dispatched: seq<DispatchedTask>) {
    Sent(attempts) == Recs(drained) + dispatched
  }

  /** Nothing is lost, invented or reordered on the way from @queued to the DSQs. */
  ghost predicate Streams(s: PState) {
    && Incoming(s.k.handed, s.batches, s.batch, s.k.queued)
    && Ordering(s.profile, s.batches, s.attempts, s.outgoing)
    && Outgoing(s.attempts, s.k.drained, s.k.dispatched)
    && (s.phase.Collecting? ==> s.outgoing == [])
    && (s.phase.Sending? ==> s.batch == [])
  }

  function NonEmpty(bs: seq<seq<QueuedTask>>): nat {
    if bs == [] then 0 else NonEmpty(bs[..|bs| - 1]) + if bs[|bs| - 1] == [] then 0 else 1
  }

  function Largest(bs: seq<seq<QueuedTask>>): nat {
    if bs == [] then 0 else MaxNat(Largest(bs[..|bs| - 1]), |bs[|bs| - 1]|)
  }

  function Mean(total: nat, n: nat): real {
    if n == 0 then 0.0 else total as real / n as real
  }

  /** What the counters of the collecting loop say about the closed batches. */
  ghost predicate BatchStats(dequeued: nat, processed: nat, largest: nat, mean: real, bs: Batches) {
    && dequeued == |Flat(bs)| && processed == NonEmpty(bs) && largest == Largest(bs)
    && mean == Mean(dequeued, processed)
  }

  ghost predicate StatsOk(s: PState) {
    && BatchStats(s.stats.tasksDequeued, s.stats.batchesProcessed, s.stats.maxBatchSize,
                  s.stats.avgBatchSize, s.batches)
    && s.stats.tasksDispatched == |Sent(s.attempts)|
    && s.stats.dispatchErrors == |Errors(s.attempts)|
    && |s.batches| == s.stats.progressSequence + (if s.phase.Sending? then 1 else 0)
    && s.k.nrScheduled == 0
  }

  ghost predicate PInv(s: PState) {
    KInv(s.k) && Streams(s) && StatsOk(s)
  }

  lemma {:induction false} InitPInv(cfg: Config, profile: Profile)
    requires ValidConfig(cfg)
    ensures PInv(InitState(cfg, profile))
  {
    InitInv(cfg);
  }

  // ---- appending to the histories -----------------------------------------------------------

  lemma FlatAppend(bs: seq<seq<QueuedTask>>, b: seq<QueuedTask>)
    ensures Flat(bs + [b]) == Flat(bs) + b
    ensures NonEmpty(bs + [b]) == NonEmpty(bs) + if b == [] then 0 else 1
    ensures Largest(bs + [b]) == MaxNat(Largest(bs), |b|)
  {
    assert (bs + [b])[..|bs|] == bs;
  }

  lemma OrderedAppend(profile: Profile, bs: seq<seq<QueuedTask>>, b: seq<QueuedTask>)
    ensures Ordered(profile, bs + [b]) == Ordered(profile, bs) + [OrderTasks(profile, b)]
  {
    assert (bs + [b])[..|bs|] == bs;
  }

  lemma AttemptAppend(at: seq<Attempt>, a: Attempt)
    ensures Tried(at + [a]) == Tried(at) + [a.rec]
    ensures Sent(at + [a]) == Sent(at) + if a.ok then [NewDispatch(a.rec)] else []
    ensures Errors(at + [a]) == Errors(at) + if a.ok then [] else [a.rec]
  {
    assert (at + [a])[..|at|] == at;
  }

  lemma {:induction false} FlatOrderedPermutes(profile: Profile, bs: seq<seq<QueuedTask>>)
    ensures multiset(Flat(Ordered(profile, bs))) == multiset(Flat(bs))
    ensures |Flat(Ordered(profile, bs))| == |Flat(bs)|
  {
    if bs != [] {
      var init, last := bs[..|bs| - 1], bs[|bs| - 1];
      FlatOrderedPermutes(profile, init);
      OrderIsPermutation(profile, last);
      var o := Ordered(profile, bs);
      assert o[..|o| - 1] == Ordered(profile, init);
    }
  }

  // ---- each step ------------------------------------------------------------------------------

  lemma {:induction false} IncomingGrows(handed: seq<QueuedTask>, bs: Batches, batch: seq<QueuedTask>,
                                         queued: seq<QueuedTask>, news: seq<QueuedTask>)
    requires Incoming(handed, bs, batch, queued)
    ensures Incoming(handed + news, bs, batch, queued + news)
  {
    SeqFacts.Assoc(Flat(bs) + batch, queued, news);
  }

  lemma {:induction false} KernPInv(s: PState, e: Event)
    requires PInv(s)
    ensures PInv(PStep(s, Kern(e)))
  {
    StepInv(s.k, e);
    var news := StepGrew(s.k, e);
    IncomingGrows(s.k.handed, s.batches, s.batch, s.k.queued, news);
    hide KInv, Step, Incoming, Ordering, BatchStats;
  }

  lemma {:induction false} TakeInv(k: KState)
    requires KInv(k)
    ensures KInv(TakeQueued(k))
  {
    hide TaskInv, Numbered, DomainOk;
    if k.queued != [] { TailTail(k.queued, k.handed); }
  }

  lemma TailTail(queued: seq<QueuedTask>, handed: seq<QueuedTask>)
    requires IsTail(queued, handed) && queued != []
    ensures IsTail(queued[1..], handed)
  {
  }

  lemma {:induction false} IncomingCloses(handed: seq<QueuedTask>, bs: Batches, batch: seq<QueuedTask>,
                                          queued: seq<QueuedTask>)
    requires Incoming(handed, bs, batch, queued)
    ensures Incoming(handed, bs + [batch], [], queued)
  {
    FlatAppend(bs, batch);
    var all := Flat(bs) + batch;
    assert all + [] == all;
  }

  lemma {:induction false} OrderingCloses(profile: Profile, bs: Batches, batch: seq<QueuedTask>, attempts: seq<Attempt>)
    requires Ordering(profile, bs, attempts, [])
    ensures Ordering(profile, bs + [batch], attempts, OrderTasks(profile, batch))
  {
    OrderedAppend(profile, bs, batch);
    FlatAppend(Ordered(profile, bs), OrderTasks(profile, batch));
    assert Tried(attempts) + [] == Tried(attempts);
  }

  lemma {:induction false} CountBatchOk(st: Stats, bs: Batches, batch: seq<QueuedTask>)
    requires BatchStats(st.tasksDequeued, st.batchesProcessed, st.maxBatchSize, st.avgBatchSize, bs)
    ensures var st' := CountBatch(st, |batch|);
            BatchStats(st'.tasksDequeued, st'.batchesProcessed, st'.maxBatchSize, st'.avgBatchSize, bs + [batch])
  {
    FlatAppend(bs, batch);
  }

  lemma {:induction false} ClosePInv(s: PState)
    requires PInv(s) && s.phase.Collecting?
    ensures PInv(CloseBatch(s))
  {
    IncomingCloses(s.k.handed, s.batches, s.batch, s.k.queued);
    OrderingCloses(s.profile, s.batches, s.batch, s.attempts);
    CountBatchOk(s.stats, s.batches, s.batch);
    hide KInv, Incoming, Ordering, Outgoing, BatchStats;
  }

  lemma {:induction false} IncomingTakes(handed: seq<QueuedTask>, bs: Batches, batch: seq<QueuedTask>,
                                         queued: seq<QueuedTask>)
    requires Incoming(handed, bs, batch, queued) && queued != [] && |batch| < MAX_BATCH
    ensures Incoming(handed, bs, batch + [queued[0]], queued[1..])
  {
    assert queued == [queued[0]] + queued[1..];
    SeqFacts.Assoc(Flat(bs), batch, [queued[0]]);
    SeqFacts.Assoc(Flat(bs) + batch, [queued[0]], queued[1..]);
  }

  lemma {:induction false} DequeueErrorPInv(s: PState)
    requires PInv(s)
    ensures PInv(s.(stats := s.stats.(dequeueErrors := s.stats.dequeueErrors + 1)))
  {
    hide KInv, Incoming, Ordering, Outgoing;
  }

  lemma {:induction false} TakePInv(s: PState)
    requires PInv(s) && s.phase.Collecting? && |s.batch| < MAX_BATCH
    ensures s.k.queued == [] ==> PInv(s.(k := TakeQueued(s.k)))
    ensures s.k.queued != [] ==> PInv(s.(k := TakeQueued(s.k), batch := s.batch + [s.k.queued[0]]))
  {
    if s.k.queued != [] { IncomingTakes(s.k.handed, s.batches, s.batch, s.k.queued); }
    TakeInv(s.k);
    hide KInv, Incoming, Ordering, Outgoing, BatchStats;
  }

  lemma {:induction false} CollectPInv(s: PState, fail: bool)
    requires PInv(s) && s.phase.Collecting?
    ensures PInv(Collect(s, fail))
  {
    if |s.batch| >= MAX_BATCH { ClosePInv(s); return; }
    if fail { DequeueErrorPInv(s); } else { TakePInv(s); }
    hide PInv, CloseBatch, TakeQueued;
    if fail { ClosePInv(s.(stats := s.stats.(dequeueErrors := s.stats.dequeueErrors + 1))); }
    else if s.k.queued == [] { ClosePInv(s.(k := TakeQueued(s.k))); }
  }

  lemma {:induction false} InFlat(bs: Batches, handed: seq<QueuedTask>, t: QueuedTask)
    requires t in multiset(Flat(bs)) && exists rest :: handed == Flat(bs) + rest
    ensures t in handed
  {
    assert t in Flat(bs);
  }

  /** Every task still to be sent was handed off by the kernel. */
  lemma {:induction false} OutgoingHanded(s: PState)
    requires Streams(s) && s.outgoing != []
    ensures s.outgoing[0] in s.k.handed
  {
    var o := Flat(Ordered(s.profile, s.batches));
    assert o[|Tried(s.attempts)|] == s.outgoing[0];
    FlatOrderedPermutes(s.profile, s.batches);
    assert s.outgoing[0] in multiset(o);
    SeqFacts.Assoc(Flat(s.batches), s.batch, s.k.queued);
    InFlat(s.batches, s.k.handed, s.outgoing[0]);
  }

  lemma {:induction false} SubmitInv(k: KState, t: QueuedTask, fail: bool)
    requires KInv(k) && t in k.handed
    ensures KInv(Submit(k, NewDispatch(t), fail))
  {
    hide Numbered, DomainOk, IsTail;
    var i :| 0 <= i < |k.handed| && k.handed[i] == t;
    assert RecOk(k.cfg.nrCpus, k.tasks, t.pid, t.cpu, t.enqCnt);
  }

  lemma {:induction false} OrderingSends(profile: Profile, bs: Batches, attempts: seq<Attempt>,
                                         outgoing: seq<QueuedTask>, ok: bool)
    requires Ordering(profile, bs, attempts, outgoing) && outgoing != []
    ensures Ordering(profile, bs, attempts + [Attempt(outgoing[0], ok)], outgoing[1..])
  {
    AttemptAppend(attempts, Attempt(outgoing[0], ok));
    assert outgoing == [outgoing[0]] + outgoing[1..];
    SeqFacts.Assoc(Tried(attempts), [outgoing[0]], outgoing[1..]);
  }

  lemma {:induction false} OutgoingSends(k: KState, attempts: seq<Attempt>, t: QueuedTask, fail: bool)
    requires Outgoing(attempts, k.drained, k.dispatched)
    ensures var k', at' := Submit(k, NewDispatch(t), fail), attempts + [Attempt(t, CanSubmit(k, fail))];
            && Outgoing(at', k'.drained, k'.dispatched)
            && |Sent(at')| == |Sent(attempts)| + (if CanSubmit(k, fail) then 1 else 0)
            && |Errors(at')| == |Errors(attempts)| + (if CanSubmit(k, fail) then 0 else 1)
  {
    AttemptAppend(attempts, Attempt(t, CanSubmit(k, fail)));
    if CanSubmit(k, fail) { SeqFacts.Assoc(Recs(k.drained), k.dispatched, [NewDispatch(t)]); }
    else { assert Sent(attempts) + [] == Sent(attempts); }
  }

  lemma {:induction false} SendPInv(s: PState, fail: bool)
    requires PInv(s) && s.outgoing != []
    ensures PInv(Send(s, fail))
  {
    OutgoingHanded(s);
    SubmitInv(s.k, s.outgoing[0], fail);
    OrderingSends(s.profile, s.batches, s.attempts, s.outgoing, CanSubmit(s.k, fail));
    OutgoingSends(s.k, s.attempts, s.outgoing[0], fail);
    hide KInv, Incoming, Ordering, Outgoing, BatchStats;
  }

  lemma {:induction false} UserPInv(s: PState, fail: bool)
    requires PInv(s)
    ensures PInv(PStep(s, User(fail)))
  {
    if s.phase.Collecting? { CollectPInv(s, fail); }
    else if s.outgoing != [] { SendPInv(s, fail); }
    else { FinishPInv(s); }
  }

  lemma {:induction false} FinishPInv(s: PState)
    requires PInv(s) && s.phase.Sending? && s.outgoing == []
    ensures PInv(Finish(s))
  {
    hide TaskInv, Numbered, DomainOk, Incoming, Ordering, Outgoing;
  }

  /** Every interleaving of kernel events and user calls keeps the pipeline invariant. */
  lemma {:induction false} PStepsInv(s: PState, evs: seq<PEvent>)
    requires PInv(s)
    ensures PInv(PSteps(s, evs))
    decreases |evs|
  {
    if evs != [] {
      match evs[0] {
        case Kern(e) => KernPInv(s, e);
        case User(fail) => UserPInv(s, fail);
      }
      hide PInv, PStep;
      PStepsInv(PStep(s, evs[0]), evs[1..]);
    }
  }
}
