/** The drain log over a whole run: a record that moves its task is newer than every record of the
    task that was drained before it. */
module GenerationOrder {
  import opened Types
  import opened Kernel
  import opened KernelInvariant
  import opened DrainProgress
  import opened Pipeline
  import opened PipelineInvariant
  import opened PipelineSafety

  /** No insert was preceded by a newer record of its task. */
  ghost predicate LogOrdered(ds: seq<Drained>) {
    forall i, j :: 0 <= i < j < |ds| && ds[i].rec.pid == ds[j].rec.pid && ds[j].fate.Placed? ==>
      ds[i].rec.enqCnt <= ds[j].rec.enqCnt
  }

  lemma LogExtends(ds: seq<Drained>, d: Drained)
    requires LogOrdered(ds)
    requires d.fate.Placed? ==>
               forall i :: 0 <= i < |ds| && ds[i].rec.pid == d.rec.pid ==> ds[i].rec.enqCnt <= d.rec.enqCnt
    ensures LogOrdered(ds + [d])
  {
  }

  /** What a drained record says is no newer than its task. */
  lemma DrainedIsOld(k: KState, i: nat)
    requires KInv(k) && i < |k.drained|
    ensures var r := k.drained[i].rec; r.pid in k.tasks && r.enqCnt <= k.tasks[r.pid].enqCnt
  {
    assert DispatchOk(k.cfg.nrCpus, k.tasks, k.drained[i].rec);
  }

  lemma {:induction false} HandleOrdered(k: KState, r: DispatchedTask, slots: nat)
    requires KInv(k) && DispatchOk(k.cfg.nrCpus, k.tasks, r) && slots >= 1 && LogOrdered(k.drained)
    ensures LogOrdered(HandleRecord(k, r, slots).0.drained)
  {
    hide KInv, HandleRecord, LogOrdered, CountedAs, TargetCpu;
    var k' := HandleRecord(k, r, slots).0;
    HandleFrame(k, r, slots);
    PlacesExactly(k, r, slots);
    forall i | 0 <= i < |k.drained| && k.drained[i].rec.pid == r.pid
      ensures k.drained[i].rec.enqCnt <= k.tasks[r.pid].enqCnt
    {
      DrainedIsOld(k, i);
    }
    LogExtends(k.drained, k'.drained[|k.drained|]);
  }

  lemma {:induction false} DrainOrdered(k: KState, slots: nat)
    requires KInv(k) && slots >= 1 && LogOrdered(k.drained)
    ensures LogOrdered(Drain(k, slots).0.drained)
    decreases |k.dispatched|
  {
    hide KInv, HandleRecord, LogOrdered, DispatchOk;
    if k.dispatched != [] {
      PopDispatchedInv(k);
      var k0, r := k.(dispatched := k.dispatched[1..]), k.dispatched[0];
      HandleInv(k0, r, slots);
      HandleFrame(k0, r, slots);
      HandleOrdered(k0, r, slots);
      var (k1, left) := HandleRecord(k0, r, slots);
      if left > 0 { DrainOrdered(k1, left); }
    }
  }

  lemma {:induction false} EnqueueKeepsLog(k: KState, pid: Pid, flags: u64, wakeup: bool, picked: int)
    requires pid in k.tasks
    ensures Enqueue(k, pid, flags, wakeup, picked).drained == k.drained
  {
    hide VtimeInsert;
  }

  lemma {:induction false} StepOrdered(k: KState, e: Event)
    requires KInv(k) && LogOrdered(k.drained)
    ensures LogOrdered(Step(k, e).drained)
  {
    hide KInv, LogOrdered, Enqueue, SelectCpu, Drain, Consume;
    if Enabled(k, e) {
      match e
      case EnqueueEv(pid, flags, wakeup, picked) => EnqueueKeepsLog(k, pid, flags, wakeup, picked);
      case SelectCpuEv(pid, prevCpu, thisCpu, picked) => SelectCpuSame(k, pid, prevCpu, thisCpu, picked);
      case DispatchEv(cpu) =>
        DrainOrdered(k, MAX_DISPATCH_SLOT);
        ConsumeSame(Drain(k, MAX_DISPATCH_SLOT).0, cpu);
      case _ =>
    }
  }

  lemma {:induction false} PStepOrdered(s: PState, ev: PEvent)
    requires PInv(s) && LogOrdered(s.k.drained)
    ensures LogOrdered(PStep(s, ev).k.drained)
  {
    hide LogOrdered, KInv, Step, Streams, StatsOk, CountBatch;
    if ev.Kern? { StepOrdered(s.k, ev.e); }
  }

  lemma {:induction false} PStepsOrdered(s: PState, evs: seq<PEvent>)
    requires PInv(s) && LogOrdered(s.k.drained)
    ensures LogOrdered(PSteps(s, evs).k.drained)
    decreases |evs|
  {
    hide LogOrdered, PInv, PStep;
    if evs != [] {
      match evs[0] {
        case Kern(e) => KernPInv(s, e);
        case User(fail) => UserPInv(s, fail);
      }
      PStepOrdered(s, evs[0]);
      PStepsOrdered(PStep(s, evs[0]), evs[1..]);
    }
  }

  /** Two drained records with one identity count twice. */
  lemma {:induction false} DrainedTwice(ds: seq<Drained>, i: nat, j: nat)
    requires i < j < |ds| && ds[i].rec.pid == ds[j].rec.pid && ds[i].rec.enqCnt == ds[j].rec.enqCnt
    ensures OccSent(Recs(ds), Id(ds[i].rec.pid, ds[i].rec.enqCnt)) >= 2
  {
    var n, id := |ds| - 1, Id(ds[i].rec.pid, ds[i].rec.enqCnt);
    OccSentLast(ds, id);
    if j < n { DrainedTwice(ds[..n], i, j); }
    else { DrainedOnce(ds[..n], i); }
  }

  lemma {:induction false} DrainedOnce(ds: seq<Drained>, i: nat)
    requires i < |ds|
    ensures OccSent(Recs(ds), Id(ds[i].rec.pid, ds[i].rec.enqCnt)) >= 1
  {
    var n := |ds| - 1;
    OccSentLast(ds, Id(ds[i].rec.pid, ds[i].rec.enqCnt));
    if i < n { DrainedOnce(ds[..n], i); }
  }

  lemma OccSentLast(ds: seq<Drained>, id: Id)
    requires ds != []
    ensures var n := |ds| - 1;
            OccSent(Recs(ds), id) == OccSent(Recs(ds[..n]), id) + Hit(ds[n].rec.pid, ds[n].rec.enqCnt, id)
  {
    var n := |ds| - 1;
    assert (Recs(ds[..n]) + [ds[n].rec])[..|Recs(ds[..n])|] == Recs(ds[..n]);
  }

  /** In every run: a record that moved its task is strictly newer than every record of the task
      drained before it, by the same dispatch or an earlier one, however batches were reordered. */
  lemma {:induction false} OnlyNewerRecordsMove(s: PState, i: nat, j: nat)
    requires Reachable(s) && i < j < |s.k.drained| && s.k.drained[i].rec.pid == s.k.drained[j].rec.pid
    requires s.k.drained[j].fate.Placed?
    ensures s.k.drained[i].rec.enqCnt < s.k.drained[j].rec.enqCnt
  {
    var cfg, profile, evs :| ValidConfig(cfg) && s == PSteps(InitState(cfg, profile), evs);
    InitPInv(cfg, profile);
    hide Reachable, PInv, PSteps;
    PStepsOrdered(InitState(cfg, profile), evs);
    var r := s.k.drained[i].rec;
    if r.enqCnt == s.k.drained[j].rec.enqCnt {
      DrainedTwice(s.k.drained, i, j);
      Conservation(s, Id(r.pid, r.enqCnt));
      GenerationsDistinct(s, Id(r.pid, r.enqCnt));
    }
  }
}
