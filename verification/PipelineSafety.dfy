/** Safety of every reachable pipeline state: where each record is, which record a waiting
    task depends on, and which records can move a task. */
module PipelineSafety {
  import opened Types
  import opened Kernel
  import opened KernelInvariant
  import opened DrainProgress
  import opened Pipeline
  import opened PipelineInvariant
  import SeqFacts

  /** Reached from an initial state by some interleaving of kernel events and user calls. */
  ghost predicate Reachable(s: PState) {
    exists cfg, profile, evs :: ValidConfig(cfg) && s == PSteps(InitState(cfg, profile), evs)
  }

  lemma {:induction false} ReachableInv(s: PState)
    requires Reachable(s)
    ensures PInv(s)
  {
    var cfg, profile, evs :| ValidConfig(cfg) && s == PSteps(InitState(cfg, profile), evs);
    InitPInv(cfg, profile);
    PStepsInv(InitState(cfg, profile), evs);
  }

  lemma ReachableSteps(s: PState, more: seq<PEvent>)
    requires Reachable(s)
    ensures Reachable(PSteps(s, more))
  {
    hide PStep;
    var cfg, profile, evs :| ValidConfig(cfg) && s == PSteps(InitState(cfg, profile), evs);
    PStepsConcat(InitState(cfg, profile), evs, more);
  }

  lemma ReachableStep(s: PState, ev: PEvent)
    requires Reachable(s)
    ensures Reachable(PStep(s, ev))
  {
    hide PStep, Reachable;
    ReachableSteps(s, [ev]);
    assert PSteps(s, [ev]) == PStep(s, ev) by { assert [ev][1..] == []; }
  }

  // ---- conservation ------------------------------------------------------------------

  /** A record's identity: its task and the generation of the hand-off. */
  datatype Id = Id(pid: Pid, cnt: nat)

  function Hit(pid: Pid, cnt: nat, id: Id): nat {
    if Id(pid, cnt) == id then 1 else 0
  }

  /** How often the record `id` occurs. */
  function Occ(ts: seq<QueuedTask>, id: Id): nat {
    if ts == [] then 0 else Occ(ts[..|ts| - 1], id) + Hit(ts[|ts| - 1].pid, ts[|ts| - 1].enqCnt, id)
  }

  function OccSent(ds: seq<DispatchedTask>, id: Id): nat {
    if ds == [] then 0 else OccSent(ds[..|ds| - 1], id) + Hit(ds[|ds| - 1].pid, ds[|ds| - 1].enqCnt, id)
  }

  lemma {:induction false} OccConcat(a: seq<QueuedTask>, b: seq<QueuedTask>, id: Id)
    ensures Occ(a + b, id) == Occ(a, id) + Occ(b, id)
  {
    if b == [] { assert a + b == a; }
    else {
      OccConcat(a, b[..|b| - 1], id);
      assert (a + b)[..|a + b| - 1] == a + b[..|b| - 1];
    }
  }

  lemma {:induction false} OccSentConcat(a: seq<DispatchedTask>, b: seq<DispatchedTask>, id: Id)
    ensures OccSent(a + b, id) == OccSent(a, id) + OccSent(b, id)
  {
    if b == [] { assert a + b == a; }
    else {
      OccSentConcat(a, b[..|b| - 1], id);
      assert (a + b)[..|a + b| - 1] == a + b[..|b| - 1];
    }
  }

  lemma {:induction false} OccRemove(l: seq<QueuedTask>, x: QueuedTask, r: seq<QueuedTask>, id: Id)
    ensures Occ(l + [x] + r, id) == Occ(l + r, id) + Hit(x.pid, x.enqCnt, id)
  {
    OccConcat(l + [x], r, id);
    OccConcat(l, r, id);
    assert (l + [x])[..|l|] == l;
  }

  lemma {:induction false} OccOfPermutation(a: seq<QueuedTask>, b: seq<QueuedTask>, id: Id)
    requires multiset(a) == multiset(b)
    ensures Occ(a, id) == Occ(b, id)
  {
    if a == [] {
      assert |multiset(b)| == |multiset(a)|;
    } else {
      var x, a' := a[|a| - 1], a[..|a| - 1];
      assert a == a' + [x];
      assert x in multiset(b);
      var i :| 0 <= i < |b| && b[i] == x;
      var l, r := b[..i], b[i + 1..];
      assert b == l + [x] + r;
      RemoveOne(a', x, l, r);
      OccOfPermutation(a', l + r, id);
      OccRemove(l, x, r, id);
    }
  }

  lemma RemoveOne(a: seq<QueuedTask>, x: QueuedTask, l: seq<QueuedTask>, r: seq<QueuedTask>)
    requires multiset(a + [x]) == multiset(l + [x] + r)
    ensures multiset(a) == multiset(l + r)
  {
    assert multiset(a) == multiset(a + [x]) - multiset{x};
    assert multiset(l + r) == multiset(l + [x] + r) - multiset{x};
  }

  lemma {:induction false} TriedSplits(attempts: seq<Attempt>, id: Id)
    ensures Occ(Tried(attempts), id) == OccSent(Sent(attempts), id) + Occ(Errors(attempts), id)
  {
    if attempts != [] {
      var at, a := attempts[..|attempts| - 1], attempts[|attempts| - 1];
      TriedSplits(at, id);
      assert (Tried(at) + [a.rec])[..|Tried(at)|] == Tried(at);
      assert (Sent(at) + [NewDispatch(a.rec)])[..|Sent(at)|] == Sent(at);
      assert (Errors(at) + [a.rec])[..|Errors(at)|] == Errors(at);
      assert Sent(at) + [] == Sent(at) && Errors(at) + [] == Errors(at);
    }
  }

  /** How often a record is on its way: in @queued, in the open batch, waiting to be sent, or
      in @dispatched. */
  function InFlight(s: PState, id: Id): nat {
    Occ(s.k.queued, id) + Occ(s.batch, id) + Occ(s.outgoing, id) + OccSent(s.k.dispatched, id)
  }

  /** Conservation over every run: each hand-off to user space is on its way, drained, or one
      of the counted dispatch errors. */
  lemma {:induction false} Conservation(s: PState, id: Id)
    requires Reachable(s)
    ensures Occ(s.k.handed, id) ==
            InFlight(s, id) + OccSent(Recs(s.k.drained), id) + Occ(Errors(s.attempts), id)
    ensures s.stats.dispatchErrors == |Errors(s.attempts)|
  {
    ReachableInv(s);
    hide KInv;
    var closed := Flat(s.batches);
    OccConcat(closed + s.batch, s.k.queued, id);
    OccConcat(closed, s.batch, id);
    FlatOrderedPermutes(s.profile, s.batches);
    OccOfPermutation(Flat(Ordered(s.profile, s.batches)), closed, id);
    OccConcat(Tried(s.attempts), s.outgoing, id);
    TriedSplits(s.attempts, id);
    OccSentConcat(Recs(s.k.drained), s.k.dispatched, id);
  }

  lemma {:induction false} NumberedOcc(h: seq<QueuedTask>, id: Id)
    requires Numbered(h)
    ensures Occ(h, id) == if 1 <= id.cnt <= HandOffs(h, id.pid) then 1 else 0
  {
    if h != [] {
      var n := |h| - 1;
      assert NumberedAt(h, n);
      var h' := h[..n];
      forall i: nat | i < n ensures NumberedAt(h', i) {
        assert NumberedAt(h, i);
        assert h'[..i] == h[..i];
      }
      NumberedOcc(h', id);
    }
  }

  /** The records of a task carry distinct generations, and they are exactly 1 up to the
      task's own counter. */
  lemma {:induction false} GenerationsDistinct(s: PState, id: Id)
    requires Reachable(s)
    ensures Occ(s.k.handed, id) ==
            if id.pid in s.k.tasks && 1 <= id.cnt <= s.k.tasks[id.pid].enqCnt then 1 else 0
  {
    ReachableInv(s);
    NumberedOcc(s.k.handed, id);
    assert HandOffs(s.k.handed, id.pid) == Gen(s.k.tasks, id.pid);
  }

  lemma {:induction false} Undrained(ds: seq<Drained>, id: Id)
    requires forall i :: 0 <= i < |ds| ==> !(ds[i].rec.pid == id.pid && ds[i].rec.enqCnt == id.cnt)
    ensures OccSent(Recs(ds), id) == 0
  {
    if ds != [] {
      var n := |ds| - 1;
      Undrained(ds[..n], id);
      assert (Recs(ds[..n]) + [ds[n].rec])[..|Recs(ds[..n])|] == Recs(ds[..n]);
    }
  }

  /** While a task waits for user space, the record of its current generation is in exactly one
      place of the pipeline, once, unless its submission was counted as a dispatch error. */
  lemma {:induction false} WaitingTaskHasOneRecord(s: PState, p: Pid)
    requires Reachable(s) && p in s.k.tasks && s.k.tasks[p].place == Owned(true)
    ensures var id := Id(p, s.k.tasks[p].enqCnt);
            InFlight(s, id) + Occ(Errors(s.attempts), id) == 1
  {
    ReachableInv(s);
    var id := Id(p, s.k.tasks[p].enqCnt);
    Conservation(s, id);
    KnownTask(s.k, p);
    GenerationsDistinct(s, id);
    forall i | 0 <= i < |s.k.drained| ensures !(s.k.drained[i].rec.pid == p && s.k.drained[i].rec.enqCnt == id.cnt) {
      assert Superseded(s.k.tasks, s.k.drained[i].rec);
    }
    Undrained(s.k.drained, id);
  }

  /** No two records in flight share a task and a generation, and none is ahead of its task. */
  lemma {:induction false} InFlightDistinct(s: PState, id: Id)
    requires Reachable(s) && InFlight(s, id) > 0
    ensures InFlight(s, id) == 1 && Occ(Errors(s.attempts), id) == 0 && OccSent(Recs(s.k.drained), id) == 0
    ensures id.pid in s.k.tasks && 1 <= id.cnt <= s.k.tasks[id.pid].enqCnt
  {
    Conservation(s, id);
    GenerationsDistinct(s, id);
  }

  // ---- dispatch queues --------------------------------------------------------------------

  /** A task is on a DSQ exactly when its place says so, then once and on no other, and every
      key is zero: the queues ordered by key are plain FIFO queues. */
  lemma {:induction false} OneDsqEach(s: PState, p: Pid, d: int)
    requires Reachable(s) && d in s.k.dsqs
    ensures Holds(s.k.dsqs[d], p) <==> p in s.k.tasks && s.k.tasks[p].place == InDsq(d)
    ensures DistinctPids(s.k.dsqs[d]) && ZeroKeys(s.k.dsqs[d])
    ensures forall e: Entry :: e.vtime == 0 ==> VtimeInsert(s.k.dsqs[d], e) == s.k.dsqs[d] + [e]
  {
    ReachableInv(s);
    assert QueueOk(s.k.tasks, d, s.k.dsqs[d]);
    assert Holds(s.k.dsqs[d], p) <==> PlacedOn(s.k.tasks, p, d);
    forall e: Entry | e.vtime == 0 ensures VtimeInsert(s.k.dsqs[d], e) == s.k.dsqs[d] + [e] {
      ZeroKeyInsertAppends(s.k.dsqs[d], e);
    }
  }

  /** The error branches are out of reach: no insert on a missing DSQ, no invalid CPU, no
      insert without a slot, no any-CPU record, no key but zero. */
  lemma {:induction false} NoFault(s: PState)
    requires Reachable(s)
    ensures !s.k.fault
    ensures forall r :: r in s.k.dispatched ==> r.cpu != RL_CPU_ANY && 0 <= r.cpu < s.k.cfg.nrCpus && r.vtime == 0
    ensures forall p :: p in s.k.tasks && s.k.tasks[p].enabled ==> s.k.tasks[p].dsqVtime == 0
  {
    ReachableInv(s);
    forall r | r in s.k.dispatched ensures r.cpu != RL_CPU_ANY && 0 <= r.cpu < s.k.cfg.nrCpus && r.vtime == 0 {
      assert DispatchOk(s.k.cfg.nrCpus, s.k.tasks, r);
    }
    forall p | p in s.k.tasks && s.k.tasks[p].enabled ensures s.k.tasks[p].dsqVtime == 0 {
      assert TaskOk(s.k.cfg.nrCpus, s.k.tasks[p]);
    }
  }

  // ---- which record can move a task --------------------------------------------------------

  /** How draining `r` is counted: as the user's choice or as bounced by the affinity mask if its
      task exists, and as cancelled if the task has a newer generation. */
  predicate CountedAs(k: KState, r: DispatchedTask, slots: nat, k': KState, left: nat)
    requires r.pid in k.tasks
  {
    var t := k.tasks[r.pid];
    && k'.nrUser == k.nrUser + (if t.alive && r.cpu in t.allowed then 1 else 0)
    && k'.nrBounce == k.nrBounce + (if t.alive && r.cpu !in t.allowed then 1 else 0)
    && k'.nrCancel == k.nrCancel + (if t.alive && t.enqCnt > r.enqCnt then 1 else 0)
    && left == slots - (if t.alive && t.enqCnt == r.enqCnt then 1 else 0)
  }

  lemma {:induction false} DrainedRecordCounts(k: KState, r: DispatchedTask, slots: nat)
    requires KInv(k) && DispatchOk(k.cfg.nrCpus, k.tasks, r) && slots >= 1
    ensures CountedAs(k, r, slots, HandleRecord(k, r, slots).0, HandleRecord(k, r, slots).1)
  {
    KnownTask(k, r.pid);
    hide KInv, VtimeInsert;
  }

  lemma {:induction false} FlatHas(bs: seq<seq<QueuedTask>>, handed: seq<QueuedTask>, t: QueuedTask)
    requires Flat(bs) <= handed && t in multiset(Flat(bs))
    ensures t in handed
  {
    var j :| 0 <= j < |Flat(bs)| && Flat(bs)[j] == t;
    assert handed[j] == t;
  }

  /** What draining `r` does to the tasks: it queues its task exactly when the task exists,
      is owned by the BPF scheduler and has the record's generation. The queue is that of the CPU
      the record asks for if the task may use it, and of the task's own CPU otherwise. Every other
      record leaves every place and every DSQ as it was. Each is counted by its affinity and its
      generation, and only a current one costs a slot. */
  lemma {:induction false} PlacesExactly(k: KState, r: DispatchedTask, slots: nat)
    requires KInv(k) && DispatchOk(k.cfg.nrCpus, k.tasks, r) && slots >= 1
    ensures var k', t := HandleRecord(k, r, slots).0, k.tasks[r.pid];
            var moves, target := t.alive && t.place.Owned? && t.enqCnt == r.enqCnt,
                                 if r.cpu in t.allowed then r.cpu else t.cpu;
            && (k'.drained[|k.drained|].fate.Placed? <==> moves)
            && (moves ==> k'.tasks[r.pid].place == InDsq(target)
                          && k'.drained[|k.drained|].fate == Placed(target, !t.place.record)
                          && k'.dsqs == k.dsqs[target := k.dsqs[target] + [Entry(r.pid, 0)]])
            && (!moves ==> k'.dsqs == k.dsqs && k'.tasks[r.pid].place == t.place)
            && k'.tasks.Keys == k.tasks.Keys
            && (forall p :: p in k.tasks && p != r.pid ==> k'.tasks[p] == k.tasks[p])
    ensures CountedAs(k, r, slots, HandleRecord(k, r, slots).0, HandleRecord(k, r, slots).1)
  {
    DrainedRecordCounts(k, r, slots);
    KnownTask(k, r.pid);
    hide CountedAs;
    if Alive(k, r.pid) {
      BufferedState(k, r, slots);
      var d := TargetCpu(k, r);
      assert QueueOk(k.tasks, d, k.dsqs[d]);
      ZeroKeyInsertAppends(k.dsqs[d], Entry(r.pid, 0));
    }
    hide KInv, VtimeInsert;
  }

  /** The branch for a record that asks for no CPU, which user space never takes: the task goes to
      the shared DSQ, whatever its generation, and nothing is counted. */
  lemma {:induction false} AnyCpuMeansShared(k: KState, r: DispatchedTask, slots: nat)
    requires KInv(k) && r.pid in k.tasks && r.cpu == RL_CPU_ANY && r.vtime == 0 && slots >= 1
    ensures var (k', left) := HandleRecord(k, r, slots);
            var t := k.tasks[r.pid];
            && (t.alive && t.place.Owned? ==>
                  k'.tasks[r.pid].place == InDsq(SHARED_DSQ)
                  && k'.dsqs == k.dsqs[SHARED_DSQ := k.dsqs[SHARED_DSQ] + [Entry(r.pid, 0)]])
            && (!(t.alive && t.place.Owned?) ==> k'.dsqs == k.dsqs && k'.tasks[r.pid].place == t.place)
            && k'.nrUser == k.nrUser && k'.nrBounce == k.nrBounce && k'.nrCancel == k.nrCancel
            && left == slots - (if t.alive then 1 else 0)
  {
    KnownTask(k, r.pid);
    assert QueueOk(k.tasks, SHARED_DSQ, k.dsqs[SHARED_DSQ]);
    ZeroKeyInsertAppends(k.dsqs[SHARED_DSQ], Entry(r.pid, 0));
    hide KInv, VtimeInsert;
  }

  /** A record that was sent was tried, later by at most the errors before it. */
  lemma {:induction false} SentWasTried(attempts: seq<Attempt>, j: nat) returns (i: nat)
    requires j < |Sent(attempts)|
    ensures j <= i <= j + |Errors(attempts)| && i < |Tried(attempts)|
    ensures Sent(attempts)[j] == NewDispatch(Tried(attempts)[i])
  {
    var n := |attempts| - 1;
    var before := attempts[..n];
    if j < |Sent(before)| { i := SentWasTried(before, j); }
    else {
      i := |Tried(before)|;
      SentOrError(before);
    }
  }

  lemma {:induction false} SentOrError(attempts: seq<Attempt>)
    ensures |Tried(attempts)| == |Sent(attempts)| + |Errors(attempts)|
  {
    if attempts != [] { SentOrError(attempts[..|attempts| - 1]); }
  }

  /** The record repeats a hand-off: the same task, generation, CPU and flags, with the default
      slice and key zero. */
  predicate Repeats(r: DispatchedTask, t: QueuedTask) {
    && r.pid == t.pid && r.enqCnt == t.enqCnt && r.cpu == t.cpu && r.flags == t.flags
    && r.sliceNs == 0 && r.vtime == 0
  }

  /** A record that user space submitted, drained or not, asks for what its hand-off suggested. */
  lemma {:induction false} SubmittedAsHandedOff(s: PState, i: nat)
    requires Reachable(s) && i < |Recs(s.k.drained) + s.k.dispatched|
    ensures exists t :: t in s.k.handed && Repeats((Recs(s.k.drained) + s.k.dispatched)[i], t)
  {
    ReachableInv(s);
    hide KInv;
    assert Sent(s.attempts)[i] == (Recs(s.k.drained) + s.k.dispatched)[i];
    var j := SentWasTried(s.attempts, i);
    var t := Tried(s.attempts)[j];
    var sent := Flat(Ordered(s.profile, s.batches));
    assert sent[j] == t;
    FlatOrderedPermutes(s.profile, s.batches);
    assert t in multiset(sent);
    SeqFacts.Assoc(Flat(s.batches), s.batch, s.k.queued);
    FlatHas(s.batches, s.k.handed, t);
    assert Repeats(Sent(s.attempts)[i], t);
  }

  /** A record of an older generation never moves its task, however the batch was reordered. */
  lemma {:induction false} OlderGenerationIsInert(s: PState, slots: nat)
    requires Reachable(s) && s.k.dispatched != [] && slots >= 1
    requires var r := s.k.dispatched[0];
             r.pid in s.k.tasks && r.enqCnt < s.k.tasks[r.pid].enqCnt
    ensures var k0 := s.k.(dispatched := s.k.dispatched[1..]);
            var k' := HandleRecord(k0, s.k.dispatched[0], slots).0;
            && k'.dsqs == s.k.dsqs
            && forall p :: p in s.k.tasks ==> p in k'.tasks && k'.tasks[p].place == s.k.tasks[p].place
  {
    ReachableInv(s);
    PopDispatchedInv(s.k);
    PlacesExactly(s.k.(dispatched := s.k.dispatched[1..]), s.k.dispatched[0], slots);
  }
}
