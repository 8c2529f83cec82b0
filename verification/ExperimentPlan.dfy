/** The benchmark matrix (benchmarks/experiment.py): the rotated plan, the loop that collects one
    result for each of its items, and the completeness check of the aggregation. */
module ExperimentPlan {
  import opened Types

  datatype Choice = LinuxDefault | Tuned(profile: Profile)

  datatype Workload = Idle | CpuStress | InteractiveStress | Burst | Compile | Mixed

  const PROFILES: seq<Choice> :=
    [LinuxDefault, Tuned(Balanced), Tuned(Interactive), Tuned(Performance), Tuned(Background)]

  const WORKLOADS: seq<Workload> := [Idle, CpuStress, InteractiveStress, Burst, Compile, Mixed]

  datatype Item = Item(profile: Choice, workload: Workload, repeat: nat, duration: nat)

  // ---- the plan ------------------------------------------------------------------------------------

  function Rotated(k: nat): (r: seq<Choice>)
    requires k < 5
    ensures |r| == 5
  {
    PROFILES[k..] + PROFILES[..k]
  }

  function Group(repeat: nat, w: Workload, duration: nat): (r: seq<Item>)
    requires repeat >= 1
    ensures |r| == 5
  {
    var order := Rotated((repeat - 1) % 5);
    seq(5, j requires 0 <= j < 5 => Item(order[j], w, repeat, duration))
  }

  function Groups(repeat: nat, ws: seq<Workload>, duration: nat): seq<Item>
    requires repeat >= 1
  {
    if ws == [] then [] else Group(repeat, ws[0], duration) + Groups(repeat, ws[1..], duration)
  }

  function Plan(repeats: nat, duration: nat): seq<Item> {
    if repeats == 0 then [] else Plan(repeats - 1, duration) + Groups(repeats, WORKLOADS, duration)
  }

  // ---- each pair, each position ---------------------------------------------------------------------

  function Count(items: seq<Item>, p: Choice, w: Workload): nat {
    if items == [] then 0
    else (if items[0].profile == p && items[0].workload == w then 1 else 0) + Count(items[1..], p, w)
  }

  lemma {:induction false} CountConcat(a: seq<Item>, b: seq<Item>, p: Choice, w: Workload)
    ensures Count(a + b, p, w) == Count(a, p, w) + Count(b, p, w)
    decreases |a|
  {
    if a == [] { assert a + b == b; }
    else {
      assert (a + b)[1..] == a[1..] + b;
      CountConcat(a[1..], b, p, w);
    }
  }

  /** The place of a profile in the unrotated order. */
  function Index(p: Choice): (i: nat)
    ensures i < 5 && PROFILES[i] == p
    ensures forall j :: 0 <= j < 5 && PROFILES[j] == p ==> j == i
  {
    match p
    case LinuxDefault => 0
    case Tuned(Balanced) => 1
    case Tuned(Interactive) => 2
    case Tuned(Performance) => 3
    case Tuned(Background) => 4
  }

  lemma RotatedAt(k: nat, j: nat)
    requires k < 5 && j < 5
    ensures Rotated(k)[j] == PROFILES[(k + j) % 5]
  {
    if j < 5 - k {
      assert PROFILES[k..][j] == PROFILES[k + j] && (k + j) % 5 == k + j;
    } else {
      assert PROFILES[..k][j - (5 - k)] == PROFILES[j - (5 - k)] && (k + j) % 5 == k + j - 5;
    }
  }

  function One(i: Item, p: Choice, w: Workload): nat {
    if i.profile == p && i.workload == w then 1 else 0
  }

  lemma FiveCount(g: seq<Item>, p: Choice, w: Workload)
    requires |g| == 5
    ensures Count(g, p, w) == One(g[0], p, w) + One(g[1], p, w) + One(g[2], p, w) + One(g[3], p, w) + One(g[4], p, w)
  {
    assert Count(g[4..], p, w) == One(g[4], p, w) by { assert g[4..][1..] == []; }
    assert Count(g[3..], p, w) == One(g[3], p, w) + Count(g[4..], p, w) by { assert g[3..][1..] == g[4..]; }
    assert Count(g[2..], p, w) == One(g[2], p, w) + Count(g[3..], p, w) by { assert g[2..][1..] == g[3..]; }
    assert Count(g[1..], p, w) == One(g[1], p, w) + Count(g[2..], p, w) by { assert g[1..][1..] == g[2..]; }
  }

  /** A rotation holds every profile once. */
  lemma GroupCount(repeat: nat, w: Workload, duration: nat, p: Choice, v: Workload)
    requires repeat >= 1
    ensures Count(Group(repeat, w, duration), p, v) == if w == v then 1 else 0
  {
    var k, i := (repeat - 1) % 5, Index(p);
    var g := Group(repeat, w, duration);
    FiveCount(g, p, v);
    forall j | 0 <= j < 5
      ensures g[j].profile == PROFILES[(k + j) % 5] && g[j].workload == w
    {
      RotatedAt(k, j);
    }
    assert forall j :: 0 <= j < 5 ==> (PROFILES[j] == p <==> j == i);
  }

  lemma {:induction false} GroupsCount(repeat: nat, ws: seq<Workload>, duration: nat, p: Choice, v: Workload)
    requires repeat >= 1
    requires forall i, j :: 0 <= i < j < |ws| ==> ws[i] != ws[j]
    ensures Count(Groups(repeat, ws, duration), p, v) == if v in ws then 1 else 0
    decreases |ws|
  {
    if ws != [] {
      GroupCount(repeat, ws[0], duration, p, v);
      GroupsCount(repeat, ws[1..], duration, p, v);
      CountConcat(Group(repeat, ws[0], duration), Groups(repeat, ws[1..], duration), p, v);
      assert v in ws <==> v == ws[0] || v in ws[1..];
    }
  }

  /** The plan holds each pair exactly `repeats` times. */
  lemma {:induction false} EachPairRepeats(repeats: nat, duration: nat, p: Choice, w: Workload)
    ensures Count(Plan(repeats, duration), p, w) == repeats
    decreases repeats
  {
    if repeats != 0 {
      hide Count, Groups, Index;
      EachPairRepeats(repeats - 1, duration, p, w);
      GroupsCount(repeats, WORKLOADS, duration, p, w);
      CountConcat(Plan(repeats - 1, duration), Groups(repeats, WORKLOADS, duration), p, w);
      assert w in WORKLOADS by { EveryWorkload(w); }
    } else {
      assert Plan(0, duration) == [];
    }
  }

  lemma EveryWorkload(w: Workload)
    ensures w in WORKLOADS
  {
    match w
    case Idle => assert WORKLOADS[0] == w;
    case CpuStress => assert WORKLOADS[1] == w;
    case InteractiveStress => assert WORKLOADS[2] == w;
    case Burst => assert WORKLOADS[3] == w;
    case Compile => assert WORKLOADS[4] == w;
    case Mixed => assert WORKLOADS[5] == w;
  }

  lemma {:induction false} GroupsAt(repeat: nat, ws: seq<Workload>, duration: nat, wi: nat, j: nat)
    requires repeat >= 1 && wi < |ws| && j < 5
    ensures |Groups(repeat, ws, duration)| == 5 * |ws|
    ensures 5 * wi + j < 5 * |ws|
    ensures Groups(repeat, ws, duration)[5 * wi + j] == Group(repeat, ws[wi], duration)[j]
    decreases wi
  {
    GroupsLength(repeat, ws, duration);
    if wi > 0 { GroupsAt(repeat, ws[1..], duration, wi - 1, j); }
  }

  lemma {:induction false} GroupsLength(repeat: nat, ws: seq<Workload>, duration: nat)
    requires repeat >= 1
    ensures |Groups(repeat, ws, duration)| == 5 * |ws|
    decreases |ws|
  {
    if ws != [] { GroupsLength(repeat, ws[1..], duration); }
  }

  lemma {:induction false} PlanLength(repeats: nat, duration: nat)
    ensures |Plan(repeats, duration)| == 30 * repeats
  {
    if repeats != 0 {
      PlanLength(repeats - 1, duration);
      GroupsLength(repeats, WORKLOADS, duration);
    }
  }

  lemma PlanUnfolds(repeats: nat, duration: nat)
    requires repeats > 0
    ensures Plan(repeats, duration) == Plan(repeats - 1, duration) + Groups(repeats, WORKLOADS, duration)
  {
  }

  /** Where each item of the plan stands. */
  lemma {:induction false} PlanAt(repeats: nat, duration: nat, r: nat, wi: nat, j: nat)
    requires 1 <= r <= repeats && wi < 6 && j < 5
    ensures |Plan(repeats, duration)| == 30 * repeats
    ensures Plan(repeats, duration)[30 * (r - 1) + 5 * wi + j]
         == Item(PROFILES[((r - 1) % 5 + j) % 5], WORKLOADS[wi], r, duration)
    decreases repeats
  {
    hide Groups, Plan, Rotated;
    var before, round := Plan(repeats - 1, duration), Groups(repeats, WORKLOADS, duration);
    PlanUnfolds(repeats, duration);
    PlanLength(repeats, duration);
    PlanLength(repeats - 1, duration);
    var m := 5 * wi + j;
    if r < repeats {
      PlanAt(repeats - 1, duration, r, wi, j);
      assert (before + round)[30 * (r - 1) + m] == before[30 * (r - 1) + m];
    } else {
      GroupsAt(repeats, WORKLOADS, duration, wi, j);
      assert (before + round)[|before| + m] == round[m];
      RotatedAt((r - 1) % 5, j);
    }
  }

  /** In how many of the first `repeats` rounds a profile runs at place `j` of a workload. */
  function PlaceCount(plan: seq<Item>, repeats: nat, wi: nat, j: nat, p: Choice): nat
    requires |plan| >= 30 * repeats && wi < 6 && j < 5
  {
    if repeats == 0 then 0
    else PlaceCount(plan, repeats - 1, wi, j, p)
         + (if plan[30 * (repeats - 1) + 5 * wi + j].profile == p then 1 else 0)
  }

  lemma {:induction false} PlaceExact(total: nat, repeats: nat, duration: nat, wi: nat, j: nat, p: Choice)
    requires repeats <= total && wi < 6 && j < 5
    ensures |Plan(total, duration)| == 30 * total
    ensures PlaceCount(Plan(total, duration), repeats, wi, j, p)
         == repeats / 5 + (if (Index(p) + 5 - j) % 5 < repeats % 5 then 1 else 0)
    decreases repeats
  {
    PlanLength(total, duration);
    if repeats != 0 {
      PlaceExact(total, repeats - 1, duration, wi, j, p);
      PlanAt(total, duration, repeats, wi, j);
      PlaceStep(repeats, j, Index(p));
    }
  }

  lemma PlaceStep(repeats: nat, j: nat, i: nat)
    requires repeats >= 1 && j < 5 && i < 5
    ensures repeats / 5 + (if (i + 5 - j) % 5 < repeats % 5 then 1 else 0)
         == (repeats - 1) / 5 + (if (i + 5 - j) % 5 < (repeats - 1) % 5 then 1 else 0)
            + (if ((repeats - 1) % 5 + j) % 5 == i then 1 else 0)
  {
  }

  /** For each workload, no profile runs at a place more than once oftener than another. */
  lemma PlacesBalanced(repeats: nat, duration: nat, wi: nat, j: nat, p: Choice, q: Choice)
    requires wi < 6 && j < 5
    ensures |Plan(repeats, duration)| == 30 * repeats
    ensures PlaceCount(Plan(repeats, duration), repeats, wi, j, p)
         <= PlaceCount(Plan(repeats, duration), repeats, wi, j, q) + 1
  {
    PlaceExact(repeats, repeats, duration, wi, j, p);
    PlaceExact(repeats, repeats, duration, wi, j, q);
  }

  // ---- results --------------------------------------------------------------------------------------

  datatype Origin = Original | ThisSession

  datatype Summary = Summary(item: Item, origin: Origin)

  /** What is left of an earlier run. `profiles` are the observed profiles, lower case, with the
      health flag of each sample. */
  datatype Sample = Sample(actual: Option<Choice>, healthy: bool)

  datatype Record = Record(
    profile: Choice, workload: Workload, workloadExit: int, duration: nat, interval: real,
    sampleCount: nat, samples: seq<Sample>)

  predicate Verified(s: Sample, p: Choice) {
    s.actual == Some(p) && (p == LinuxDefault || s.healthy)
  }

  /** `completed_run`: a run counts as done only with matching, healthy raw observations. */
  predicate CompletedRun(r: Record, item: Item, interval: real) {
    && r.profile == item.profile && r.workload == item.workload
    && r.workloadExit == 0 && r.duration == item.duration && r.interval == interval
    && |r.samples| == r.sampleCount && r.samples != []
    && forall i :: 0 <= i < |r.samples| ==> Verified(r.samples[i], item.profile)
  }

  /** How many samples show the profile, and a healthy scheduler if there should be one. */
  function Genuine(samples: seq<Sample>, p: Choice): nat {
    if samples == [] then 0
    else
      (if samples[0].actual == Some(p) && (samples[0].healthy || p.LinuxDefault?) then 1 else 0)
      + Genuine(samples[1..], p)
  }

  lemma {:induction false} AllGenuine(samples: seq<Sample>, p: Choice)
    ensures Genuine(samples, p) <= |samples|
    ensures Genuine(samples, p) == |samples| <==> forall i :: 0 <= i < |samples| ==> Verified(samples[i], p)
  {
    if samples != [] {
      AllGenuine(samples[1..], p);
      if Genuine(samples, p) == |samples| {
        forall i | 0 <= i < |samples| ensures Verified(samples[i], p) {
          if i > 0 { assert samples[i] == samples[1..][i - 1]; }
        }
      }
    }
  }

  /** The run was for this item, ended well, and recorded as many samples as it counted, at least one,
      every one of them genuine. */
  predicate Done(r: Record, item: Item, interval: real) {
    && r.profile == item.profile && r.workload == item.workload && r.duration == item.duration
    && r.interval == interval && r.workloadExit == 0
    && 0 < r.sampleCount == |r.samples| == Genuine(r.samples, item.profile)
  }

  /** Such a run counts as done, and no other. */
  lemma DoneExactly(r: Record, item: Item, interval: real)
    ensures CompletedRun(r, item, interval) <==> Done(r, item, interval)
  {
    AllGenuine(r.samples, item.profile);
  }

  function Items(results: seq<Summary>): (r: seq<Item>)
    ensures |r| == |results|
  {
    seq(|results|, i requires 0 <= i < |results| => results[i].item)
  }

  /** The completeness check: the first pair, by workload and then profile, with too few runs. */
  method Incomplete(results: seq<Summary>, repeats: nat) returns (r: Option<(Workload, Choice)>)
    ensures r.None? <==> forall w, p :: Count(Items(results), p, w) >= repeats
    ensures r.Some? ==> Count(Items(results), r.value.1, r.value.0) < repeats
  {
    var items := Items(results);
    for i := 0 to 6
      invariant forall k, p :: 0 <= k < i ==> Count(items, p, WORKLOADS[k]) >= repeats
    {
      for j := 0 to 5
        invariant forall k :: 0 <= k < j ==> Count(items, PROFILES[k], WORKLOADS[i]) >= repeats
      {
        if Count(items, PROFILES[j], WORKLOADS[i]) < repeats {
          return Some((WORKLOADS[i], PROFILES[j]));
        }
      }
      forall p
        ensures Count(items, p, WORKLOADS[i]) >= repeats
      {
        assert PROFILES[Index(p)] == p;
      }
    }
    forall w, p
      ensures Count(items, p, w) >= repeats
    {
      EveryWorkload(w);
      var k :| 0 <= k < 6 && WORKLOADS[k] == w;
      assert Count(items, p, WORKLOADS[k]) >= repeats;
    }
    return None;
  }

  /** What happens to one item: the record an earlier run left, and how a new run ends. */
  datatype Attempt = Attempt(prior: Option<Record>, runOk: bool)

  /** The results are those of a prefix of the plan. */
  ghost predicate Collected(plan: seq<Item>, results: seq<Summary>) {
    |results| <= |plan| && Items(results) == plan[..|results|]
  }

  /** The item cannot be done: its earlier run may be reused but does not count, or the run fails. */
  predicate Fails(item: Item, a: Attempt, reuse: bool, interval: real) {
    if reuse && a.prior.Some? then !CompletedRun(a.prior.value, item, interval) else !a.runOk
  }

  function ReusedCount(results: seq<Summary>): nat {
    if results == [] then 0
    else ReusedCount(results[..|results| - 1]) + if results[|results| - 1].origin.Original? then 1 else 0
  }

  /** The loop over the plan: one result for each item, reused or new, until one fails. */
  method RunMatrix(plan: seq<Item>, attempts: seq<Attempt>, reuse: bool, interval: real)
    returns (results: seq<Summary>, ok: bool, reused: nat, measured: nat)
    requires |attempts| == |plan|
    ensures Collected(plan, results) && (ok <==> |results| == |plan|)
    ensures !ok ==> Fails(plan[|results|], attempts[|results|], reuse, interval)
    ensures forall i :: 0 <= i < |results| ==>
              && !Fails(plan[i], attempts[i], reuse, interval)
              && (results[i].origin.Original? <==> reuse && attempts[i].prior.Some?)
    ensures forall i :: 0 <= i < |results| && results[i].origin.Original? ==>
              Done(attempts[i].prior.value, plan[i], interval)
    ensures forall i :: 0 <= i < |results| && results[i].origin.ThisSession? ==> attempts[i].runOk
    ensures !ok ==>
              var a := attempts[|results|];
              if reuse && a.prior.Some? then !Done(a.prior.value, plan[|results|], interval) else !a.runOk
    ensures reused == ReusedCount(results) && reused + measured == |results|
  {
    hide CompletedRun, Done;
    results, reused, measured := [], 0, 0;
    for i := 0 to |plan|
      invariant |results| == i && Collected(plan, results)
      invariant reused == ReusedCount(results) && reused + measured == i
      invariant forall k :: 0 <= k < i ==>
                  && !Fails(plan[k], attempts[k], reuse, interval)
                  && (results[k].origin.Original? <==> reuse && attempts[k].prior.Some?)
      invariant forall k :: 0 <= k < i && results[k].origin.Original? ==>
                  Done(attempts[k].prior.value, plan[k], interval)
    {
      var a := attempts[i];
      if a.prior.Some? { DoneExactly(a.prior.value, plan[i], interval); }
      ghost var before := results;
      if reuse && a.prior.Some? {
        if !CompletedRun(a.prior.value, plan[i], interval) { return results, false, reused, measured; }
        results := results + [Summary(plan[i], Original)];
        reused := reused + 1;
      } else {
        if !a.runOk { return results, false, reused, measured; }
        results := results + [Summary(plan[i], ThisSession)];
        measured := measured + 1;
      }
      assert results[..i] == before;
    }
    return results, true, reused, measured;
  }

  /** The aggregation accepts the results of a plan's prefix exactly when the prefix is all. */
  lemma PrefixComplete(repeats: nat, duration: nat, results: seq<Summary>)
    requires Collected(Plan(repeats, duration), results)
    ensures (forall w, p :: Count(Items(results), p, w) >= repeats) <==> |results| == |Plan(repeats, duration)|
  {
    var plan, n := Plan(repeats, duration), |results|;
    assert plan == plan[..n] + plan[n..];
    if n == |plan| {
      forall w, p
        ensures Count(Items(results), p, w) >= repeats
      {
        EachPairRepeats(repeats, duration, p, w);
        assert plan[..n] == plan;
      }
    } else {
      var p, w := plan[n].profile, plan[n].workload;
      EachPairRepeats(repeats, duration, p, w);
      CountConcat(plan[..n], plan[n..], p, w);
      assert Count(plan[n..], p, w) >= 1;
      assert Count(Items(results), p, w) < repeats;
    }
  }
}
