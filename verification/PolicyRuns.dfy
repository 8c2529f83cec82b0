/** How the policy behaves over whole runs: how often it can change its mind, on what
    evidence, how soon it follows the workload, and what cannot influence it. */
module PolicyRuns {
  import opened Types
  import opened Policy

  function RunState(c: Controls, s: PolicyState, ins: seq<Input>): PolicyState
    decreases |ins|
  {
    if ins == [] then s else RunState(c, Step(c, s, ins[0]), ins[1..])
  }

  function Outputs(c: Controls, s: PolicyState, ins: seq<Input>): seq<Decision>
    decreases |ins|
  {
    if ins == [] then [] else [Evaluated(c, s, ins[0])] + Outputs(c, Step(c, s, ins[0]), ins[1..])
  }

  /** The sample makes the policy change its accepted profile. */
  predicate Accepts(c: Controls, s: PolicyState, i: Input) {
    i.finite && KindOf(c, s, Raw(i), i.current).Accept?
  }

  function Changes(c: Controls, s: PolicyState, ins: seq<Input>): nat
    decreases |ins|
  {
    if ins == [] then 0
    else (if Accepts(c, s, ins[0]) then 1 else 0) + Changes(c, Step(c, s, ins[0]), ins[1..])
  }

  function ValidSamples(ins: seq<Input>): nat {
    if ins == [] then 0 else (if ins[0].finite then 1 else 0) + ValidSamples(ins[1..])
  }

  lemma {:induction false} RunInv(c: Controls, s: PolicyState, ins: seq<Input>)
    requires ValidControls(c) && SInv(c, s)
    ensures SInv(c, RunState(c, s, ins))
    decreases |ins|
  {
    if ins != [] { StepInv(c, s, ins[0]); RunInv(c, Step(c, s, ins[0]), ins[1..]); }
  }

  // ---- rate -------------------------------------------------------------------------------

  /** One sample: the potential `count - cooling` grows by at most one for a valid sample, and
      a change releases `cooldown + dwell` of it. */
  lemma {:induction false} StepPotential(c: Controls, s: PolicyState, i: Input)
    requires ValidControls(c) && SInv(c, s)
    ensures var s' := Step(c, s, i);
            (if Accepts(c, s, i) then c.cooldown + c.dwell else 0) + s'.count + s.cooling
            <= (if i.finite then 1 else 0) + s'.cooling + s.count
  {
    hide Raw;
  }

  /** What `k` changes cost in valid samples. */
  function Price(c: Controls, k: nat): nat {
    k * (c.cooldown + c.dwell)
  }

  lemma {:induction false} PriceStep(c: Controls, k: nat)
    ensures Price(c, k + 1) == Price(c, k) + c.cooldown + c.dwell
  {
  }

  lemma NoPrice(c: Controls)
    ensures Price(c, 0) == 0
  {
  }

  lemma RunOfNone(c: Controls, s: PolicyState)
    ensures RunState(c, s, []) == s && Changes(c, s, []) == 0 && ValidSamples([]) == 0
  {
  }

  lemma RunUnfolds(c: Controls, s: PolicyState, ins: seq<Input>)
    requires ins != []
    ensures var s1, rest := Step(c, s, ins[0]), ins[1..];
            && RunState(c, s, ins) == RunState(c, s1, rest)
            && Changes(c, s, ins) == (if Accepts(c, s, ins[0]) then 1 else 0) + Changes(c, s1, rest)
            && ValidSamples(ins) == (if ins[0].finite then 1 else 0) + ValidSamples(rest)
  {
    hide Step, Accepts;
  }

  /** Each change costs `cooldown + dwell` valid samples, paid in advance by the evidence
      collected and in arrears by the cooldown still to run. */
  lemma {:induction false} RatePotential(c: Controls, s: PolicyState, ins: seq<Input>)
    requires ValidControls(c) && SInv(c, s)
    ensures var s' := RunState(c, s, ins);
            Price(c, Changes(c, s, ins)) + s'.count + s.cooling <= ValidSamples(ins) + s'.cooling + s.count
    decreases |ins|
  {
    hide RunState, Changes, ValidSamples, Step, Accepts, SInv, ValidControls, Price;
    if ins == [] {
      RunOfNone(c, s);
      NoPrice(c);
    } else {
      var s1 := Step(c, s, ins[0]);
      StepInv(c, s, ins[0]);
      StepPotential(c, s, ins[0]);
      RunUnfolds(c, s, ins);
      RatePotential(c, s1, ins[1..]);
      PriceStep(c, Changes(c, s1, ins[1..]));
    }
  }

  /** The number of profile changes of a run from a fresh policy. */
  lemma {:induction false} RateBound(c: Controls, ins: seq<Input>)
    requires ValidControls(c)
    ensures Changes(c, FRESH, ins) * (c.cooldown + c.dwell) <= ValidSamples(ins) + c.cooldown
  {
    hide RunState, Changes, ValidSamples, Step, Accepts, KindOf;
    RatePotential(c, FRESH, ins);
    RunInv(c, FRESH, ins);
  }

  // ---- the rate bound is reached ----------------------------------------------------------------

  /** Telemetry whose raw recommendation is `p`. */
  function Sample(p: Profile): (i: Input)
    ensures i.finite && Raw(i) == p && i.current == Balanced
  {
    match p
    case Balanced => Input(true, 50.0, 1.0, 0, 0.0, 0.0, Balanced)
    case Interactive => Input(true, 50.0, 1.0, 2, 0.0, 5.0, Balanced)
    case Performance => Input(true, 95.0, 1.0, 2, 0.0, 0.0, Balanced)
    case Background => Input(true, 5.0, 0.0, 0, 0.0, 0.0, Balanced)
  }

  function Repeat(p: Profile, n: nat): seq<Input>
    decreases n
  {
    if n == 0 then [] else [Sample(p)] + Repeat(p, n - 1)
  }

  lemma {:induction false} RunConcat(c: Controls, s: PolicyState, a: seq<Input>, b: seq<Input>)
    ensures RunState(c, s, a + b) == RunState(c, RunState(c, s, a), b)
    ensures Changes(c, s, a + b) == Changes(c, s, a) + Changes(c, RunState(c, s, a), b)
    ensures ValidSamples(a + b) == ValidSamples(a) + ValidSamples(b)
    decreases |a|
  {
    hide Step, Accepts;
    if a == [] { assert a + b == b; }
    else { assert (a + b)[1..] == a[1..] + b; RunConcat(c, Step(c, s, a[0]), a[1..], b); }
  }

  /** One sample of evidence for `p` against the incumbent `a`. */
  lemma {:induction false} EvidenceStep(c: Controls, a: Profile, p: Profile, m: nat)
    requires ValidControls(c) && a != p && m < c.dwell
    ensures var s := PolicyState(Some(a), if m == 0 then None else Some(p), m, 0);
            && (Accepts(c, s, Sample(p)) <==> m + 1 == c.dwell)
            && Step(c, s, Sample(p)) == if m + 1 < c.dwell then PolicyState(Some(a), Some(p), m + 1, 0)
                                        else PolicyState(Some(p), None, 0, c.cooldown)
  {
    hide Raw, Sample;
    var i := Sample(p);
    assert i.finite && Raw(i) == p;
  }

  lemma {:induction false} RepeatChanges(c: Controls, a: Profile, p: Profile, m: nat)
    requires ValidControls(c) && a != p && m < c.dwell
    ensures var s := PolicyState(Some(a), if m == 0 then None else Some(p), m, 0);
            var ins := Repeat(p, c.dwell - m);
            && RunState(c, s, ins) == PolicyState(Some(p), None, 0, c.cooldown)
            && Changes(c, s, ins) == 1 && ValidSamples(ins) == |ins| == c.dwell - m
    decreases c.dwell - m
  {
    hide Raw, Sample, Step, Accepts, ValidControls;
    var n := c.dwell - m;
    var s := PolicyState(Some(a), if m == 0 then None else Some(p), m, 0);
    assert Sample(p).finite;
    EvidenceStep(c, a, p, m);
    assert Repeat(p, n) == [Sample(p)] + Repeat(p, n - 1);
    assert Repeat(p, n)[1..] == Repeat(p, n - 1);
    if n > 1 { RepeatChanges(c, a, p, m + 1); }
  }

  lemma {:induction false} RepeatCools(c: Controls, p: Profile, n: nat)
    ensures var s, ins := PolicyState(Some(p), None, 0, n), Repeat(p, n);
            && RunState(c, s, ins) == PolicyState(Some(p), None, 0, 0)
            && Changes(c, s, ins) == 0 && ValidSamples(ins) == |ins| == n
  {
    if n > 0 { assert Repeat(p, n)[1..] == Repeat(p, n - 1); RepeatCools(c, p, n - 1); }
  }

  function Flip(p: Profile): Profile { if p == Balanced then Performance else Balanced }

  /** Changes and valid samples of a run from state `s`. */
  ghost predicate Run(c: Controls, s: PolicyState, ins: seq<Input>, changes: nat, valid: nat, s': PolicyState) {
    Changes(c, s, ins) == changes && ValidSamples(ins) == valid && RunState(c, s, ins) == s'
  }

  lemma {:induction false} RunTrans(c: Controls, s: PolicyState, a: seq<Input>, b: seq<Input>,
                                    k: nat, n: nat, s1: PolicyState, k': nat, n': nat, s2: PolicyState)
    requires Run(c, s, a, k, n, s1) && Run(c, s1, b, k', n', s2)
    ensures Run(c, s, a + b, k + k', n + n', s2)
  {
    hide RunState, Changes, ValidSamples;
    RunConcat(c, s, a, b);
  }

  function Steady(p: Profile, cooling: nat): PolicyState {
    PolicyState(Some(p), None, 0, cooling)
  }

  lemma RepeatStarts(p: Profile, n: nat)
    requires n > 0
    ensures Repeat(p, n) != [] && Repeat(p, n)[0] == Sample(p)
  {
    hide Sample;
  }

  lemma ChangeOnce(c: Controls, a: Profile, p: Profile)
    requires ValidControls(c) && a != p
    ensures Run(c, Steady(a, 0), Repeat(p, c.dwell), 1, c.dwell, Steady(p, c.cooldown))
  {
    hide RunState, Changes, ValidSamples, Repeat;
    RepeatChanges(c, a, p, 0);
  }

  lemma ChangeAndCool(c: Controls, a: Profile, p: Profile)
    requires ValidControls(c) && a != p
    ensures Run(c, Steady(a, 0), Repeat(p, c.dwell) + Repeat(p, c.cooldown), 1, c.dwell + c.cooldown, Steady(p, 0))
  {
    hide RunState, Changes, ValidSamples, Repeat;
    ChangeOnce(c, a, p);
    RepeatCools(c, p, c.cooldown);
    RunTrans(c, Steady(a, 0), Repeat(p, c.dwell), Repeat(p, c.cooldown), 1, c.dwell, Steady(p, c.cooldown),
             0, c.cooldown, Steady(p, 0));
  }

  /** `k + 1` changes, each after `dwell` samples and but for the last followed by `cooldown`. */
  lemma {:induction false} RateReached(c: Controls, a: Profile, k: nat) returns (ins: seq<Input>, p: Profile)
    requires ValidControls(c)
    ensures Run(c, Steady(a, 0), ins, k + 1, Price(c, k) + c.dwell, Steady(p, c.cooldown))
    ensures ins != [] && ins[0].finite && ins[0].current == Balanced
    decreases k
  {
    hide Run, RunState, Changes, ValidSamples, Sample, Price, Repeat, Steady;
    p := Flip(a);
    ins := Repeat(p, c.dwell);
    RepeatStarts(p, c.dwell);
    if k == 0 {
      ChangeOnce(c, a, p);
      NoPrice(c);
    } else {
      var q, first := p, ins + Repeat(p, c.cooldown);
      ChangeAndCool(c, a, q);
      PriceStep(c, k - 1);
      var rest: seq<Input>;
      rest, p := RateReached(c, q, k - 1);
      RunTrans(c, Steady(a, 0), first, rest, 1, c.dwell + c.cooldown, Steady(q, 0),
               k, Price(c, k - 1) + c.dwell, Steady(p, c.cooldown));
      ins := first + rest;
    }
  }

  /** For every number of changes some run of a fresh policy meets the bound with equality. */
  lemma {:induction false} RateBoundTight(c: Controls, k: nat) returns (ins: seq<Input>)
    requires ValidControls(c) && k >= 1
    ensures Changes(c, FRESH, ins) == k
    ensures k * (c.cooldown + c.dwell) == ValidSamples(ins) + c.cooldown
  {
    hide RunState, Changes, ValidSamples, Step, Accepts;
    var p: Profile;
    ins, p := RateReached(c, Balanced, k - 1);
    PriceStep(c, k - 1);
    FirstSampleAdopts(c, ins);
  }

  lemma {:induction false} FirstSampleAdopts(c: Controls, ins: seq<Input>)
    requires ins != [] && ins[0].finite
    ensures Changes(c, FRESH, ins) == Changes(c, PolicyState(Some(ins[0].current), None, 0, 0), ins)
  {
  }

  // ---- evidence -----------------------------------------------------------------------------------

  /** The state before sample `i` of a run from a fresh policy. */
  function At(c: Controls, ins: seq<Input>, i: nat): PolicyState
    requires i <= |ins|
  {
    RunState(c, FRESH, ins[..i])
  }

  lemma {:induction false} AtNext(c: Controls, ins: seq<Input>, i: nat)
    requires i < |ins|
    ensures At(c, ins, i + 1) == Step(c, At(c, ins, i), ins[i])
  {
    hide Step;
    assert ins[..i + 1] == ins[..i] + [ins[i]];
    RunConcat(c, FRESH, ins[..i], [ins[i]]);
    var s := At(c, ins, i);
    assert RunState(c, s, [ins[i]]) == RunState(c, Step(c, s, ins[i]), []) by { assert [ins[i]][1..] == []; }
  }

  function ValidOnly(ins: seq<Input>): seq<Input> {
    if ins == [] then [] else (if ins[0].finite then [ins[0]] else []) + ValidOnly(ins[1..])
  }

  predicate AllValid(ins: seq<Input>) {
    forall i :: 0 <= i < |ins| ==> ins[i].finite
  }

  /** Sample `i` is evidence for `p`: it recommends `p`, and no cooldown was running. */
  predicate Supports(c: Controls, ins: seq<Input>, i: nat, p: Profile)
    requires i < |ins|
  {
    Raw(ins[i]) == p && At(c, ins, i).cooling == 0
  }

  /** The samples `from <= j < i` are all evidence for `p`. */
  ghost predicate Backed(c: Controls, ins: seq<Input>, from: int, i: nat, p: Profile) {
    0 <= from <= i <= |ins| && forall j: nat :: from <= j < i ==> Supports(c, ins, j, p)
  }

  lemma BackedByNone(c: Controls, ins: seq<Input>, i: nat, p: Profile)
    requires i <= |ins|
    ensures Backed(c, ins, i, i, p)
  {
  }

  lemma AtStart(c: Controls, ins: seq<Input>)
    ensures At(c, ins, 0) == FRESH
  {
  }

  lemma {:induction false} AtInv(c: Controls, ins: seq<Input>, i: nat)
    requires ValidControls(c) && i <= |ins|
    ensures SInv(c, At(c, ins, i))
  {
    RunInv(c, FRESH, ins[..i]);
  }

  lemma {:induction false} BackedNext(c: Controls, ins: seq<Input>, from: int, i: nat, p: Profile)
    requires Backed(c, ins, from, i, p) && i < |ins| && Supports(c, ins, i, p)
    ensures Backed(c, ins, from, i + 1, p)
  {
    hide Supports;
  }

  /** Evidence at two samples in a row: it was pending after the first, if it is after the second. */
  lemma {:induction false} EvidenceBreaks(c: Controls, s: PolicyState, x: Input, y: Input)
    requires ValidControls(c) && SInv(c, s) && x.finite && y.finite
    requires s.cooling == 0 && Step(c, Step(c, s, x), y).pending == Some(Raw(x))
    ensures Step(c, s, x).pending == Some(Raw(x))
  {
    StepInv(c, s, x);
    hide Raw;
  }

  lemma {:induction false} CountIsAllEvidenceIn(c: Controls, ins: seq<Input>, i: nat)
    requires ValidControls(c) && AllValid(ins) && i <= |ins|
    ensures var s := At(c, ins, i);
            s.pending.Some? && i > s.count ==> !Supports(c, ins, i - s.count - 1, s.pending.value)
  {
    hide Raw, RunState, Step, SInv, ValidControls, Accepts, At;
    if i == 0 {
      AtStart(c, ins);
    } else {
      var s0, s := At(c, ins, i - 1), At(c, ins, i);
      CountIsAllEvidenceIn(c, ins, i - 1);
      AtNext(c, ins, i - 1);
      AtInv(c, ins, i - 1);
      CountStep(c, s0, ins[i - 1]);
      if s.pending.Some? && s0.pending != s.pending && i >= 2 {
        AtNext(c, ins, i - 2);
        AtInv(c, ins, i - 2);
        if Supports(c, ins, i - 2, s.pending.value) {
          EvidenceBreaks(c, At(c, ins, i - 2), ins[i - 2], ins[i - 1]);
        }
      }
    }
  }

  lemma {:induction false} CountIsEvidenceIn(c: Controls, ins: seq<Input>, i: nat)
    requires ValidControls(c) && AllValid(ins) && i <= |ins|
    ensures var s := At(c, ins, i);
            s.pending.Some? ==> Backed(c, ins, i - s.count, i, s.pending.value)
  {
    hide Raw, RunState, Step, SInv, ValidControls, Accepts, At, Backed;
    if i == 0 {
      AtStart(c, ins);
    } else {
      var s0, s := At(c, ins, i - 1), At(c, ins, i);
      CountIsEvidenceIn(c, ins, i - 1);
      AtNext(c, ins, i - 1);
      AtInv(c, ins, i - 1);
      CountStep(c, s0, ins[i - 1]);
      if s.pending.Some? {
        var p := s.pending.value;
        assert Supports(c, ins, i - 1, p);
        if s0.pending != s.pending {
          BackedByNone(c, ins, i - 1, p);
        }
        BackedNext(c, ins, i - s.count, i - 1, p);
      }
    }
  }

  /** A pending profile after a sample is the one the sample recommends, without a cooldown,
      and the count went up by one or started at one. */
  lemma {:induction false} CountStep(c: Controls, s: PolicyState, i: Input)
    requires ValidControls(c) && SInv(c, s) && i.finite
    ensures var s' := Step(c, s, i);
            if s'.pending.Some? then
              && s'.pending == Some(Raw(i)) && s.cooling == 0
              && s'.count == (if s.pending == s'.pending then s.count + 1 else 1)
            else s'.count == 0
    ensures Accepts(c, s, i) ==>
              && s.cooling == 0 && Step(c, s, i).accepted == Some(Raw(i))
              && c.dwell == (if s.pending == Some(Raw(i)) then s.count + 1 else 1)
  {
    StepInv(c, s, i);
    hide Raw;
  }

  lemma {:induction false} ChangeFacts(c: Controls, ins: seq<Input>, i: nat)
    requires ValidControls(c) && AllValid(ins) && i < |ins| && Accepts(c, At(c, ins, i), ins[i])
    ensures var s, p := At(c, ins, i), Raw(ins[i]);
            && s.cooling == 0 && At(c, ins, i + 1).accepted == Some(p)
            && c.dwell == (if s.pending == Some(p) then s.count + 1 else 1)
  {
    AtNext(c, ins, i);
    RunInv(c, FRESH, ins[..i]);
    CountStep(c, At(c, ins, i), ins[i]);
    hide Step, Accepts, Raw, ValidControls, SInv;
  }

  lemma {:induction false} EvidenceIn(c: Controls, ins: seq<Input>, i: nat)
    requires ValidControls(c) && AllValid(ins) && i < |ins| && Accepts(c, At(c, ins, i), ins[i])
    ensures i + 1 >= c.dwell && At(c, ins, i + 1).accepted == Some(Raw(ins[i]))
    ensures forall j: nat :: i + 1 - c.dwell <= j <= i ==> Supports(c, ins, j, Raw(ins[i]))
  {
    hide RunState, Step, Accepts, Raw, ValidControls, At;
    ChangeFacts(c, ins, i);
    var p := Raw(ins[i]);
    assert Supports(c, ins, i, p);
    hide Supports;
    CountIsEvidenceIn(c, ins, i);
    if At(c, ins, i).pending != Some(p) { BackedByNone(c, ins, i, p); }
    BackedNext(c, ins, i + 1 - c.dwell, i, p);
  }

  /** The cooldown after a change: `m` valid samples later it is `cooldown - m`. */
  lemma {:induction false} StillCooling(c: Controls, ins: seq<Input>, i: nat, j: nat)
    requires i < j <= |ins| && Accepts(c, At(c, ins, i), ins[i])
    requires ValidSamples(ins[i + 1..j]) <= c.cooldown
    ensures At(c, ins, j).cooling == c.cooldown - ValidSamples(ins[i + 1..j])
    decreases j
  {
    hide At, Step, Raw;
    AtNext(c, ins, j - 1);
    if j == i + 1 {
      assert ins[i + 1..j] == [];
      assert ins[i].finite;
      CoolingStep(c, At(c, ins, i), ins[i]);
    } else {
      var before := ins[i + 1..j - 1];
      assert ins[i + 1..j] == before + [ins[j - 1]];
      ValidSamplesConcat(before, [ins[j - 1]]);
      OneSample(ins[j - 1]);
      StillCooling(c, ins, i, j - 1);
      if ins[j - 1].finite { CoolingStep(c, At(c, ins, j - 1), ins[j - 1]); }
      else { InvalidKeeps(c, At(c, ins, j - 1), ins[j - 1]); }
    }
  }

  lemma {:induction false} ValidSamplesConcat(a: seq<Input>, b: seq<Input>)
    ensures ValidSamples(a + b) == ValidSamples(a) + ValidSamples(b)
    decreases |a|
  {
    if a == [] { assert a + b == b; }
    else { assert (a + b)[1..] == a[1..] + b; ValidSamplesConcat(a[1..], b); }
  }

  lemma OneSample(i: Input)
    ensures ValidSamples([i]) == if i.finite then 1 else 0
  {
    assert [i][1..] == [];
  }

  lemma InvalidKeeps(c: Controls, s: PolicyState, i: Input)
    requires !i.finite
    ensures Step(c, s, i) == s
  {
  }

  lemma {:induction false} CoolingStep(c: Controls, s: PolicyState, i: Input)
    requires i.finite
    ensures Accepts(c, s, i) ==> s.cooling == 0 && Step(c, s, i).cooling == c.cooldown
    ensures s.cooling > 0 ==> Step(c, s, i).cooling == s.cooling - 1
  {
    hide Raw;
  }

  /** A sample that recommends the accepted profile is no change and keeps it. */
  lemma {:induction false} AgreementKeeps(c: Controls, s: PolicyState, i: Input)
    requires i.finite && s.accepted == Some(Raw(i))
    ensures !Accepts(c, s, i) && Step(c, s, i).accepted == s.accepted
  {
    hide Raw;
  }

  lemma {:induction false} StaysAccepted(c: Controls, ins: seq<Input>, a: nat, b: nat, p: Profile)
    requires AllValid(ins) && a <= b <= |ins| && At(c, ins, a).accepted == Some(p)
    requires forall x: nat :: a <= x < b ==> Raw(ins[x]) == p
    ensures At(c, ins, b).accepted == Some(p)
  {
    hide Raw, RunState, Step;
    if a < b {
      StaysAccepted(c, ins, a, b - 1, p);
      AgreementKeeps(c, At(c, ins, b - 1), ins[b - 1]);
      AtNext(c, ins, b - 1);
    }
  }

  lemma {:induction false} AllValidCount(ins: seq<Input>)
    requires AllValid(ins)
    ensures ValidSamples(ins) == |ins|
  {
    if ins != [] { AllValidCount(ins[1..]); }
  }

  lemma {:induction false} ChangesApartIn(c: Controls, ins: seq<Input>, i: nat, j: nat)
    requires ValidControls(c) && AllValid(ins) && i < j < |ins|
    requires Accepts(c, At(c, ins, i), ins[i]) && Accepts(c, At(c, ins, j), ins[j])
    ensures j - i >= c.cooldown + c.dwell
  {
    assert c.dwell >= 1;
    hide RunState, Step, Accepts, Raw, ValidControls, At;
    EvidenceIn(c, ins, j);
    var first := j + 1 - c.dwell;
    if first <= i {
      // the evidence would include the change itself, whose profile is the new incumbent
      EvidenceIn(c, ins, i);
      assert Supports(c, ins, i, Raw(ins[j]));
      forall x: nat | i + 1 <= x < j ensures Raw(ins[x]) == Raw(ins[j]) { assert Supports(c, ins, x, Raw(ins[j])); }
      StaysAccepted(c, ins, i + 1, j, Raw(ins[j]));
      AgreementKeeps(c, At(c, ins, j), ins[j]);
    } else if first - i - 1 < c.cooldown {
      assert Supports(c, ins, first, Raw(ins[j]));
      AllValidCount(ins[i + 1..first]);
      StillCooling(c, ins, i, first);
    }
  }

  // ---- evidence in any run -----------------------------------------------------------------------

  lemma {:induction false} ValidOnlyConcat(a: seq<Input>, b: seq<Input>)
    ensures ValidOnly(a + b) == ValidOnly(a) + ValidOnly(b)
    decreases |a|
  {
    if a == [] { assert a + b == b; }
    else {
      assert (a + b)[1..] == a[1..] + b;
      ValidOnlyConcat(a[1..], b);
      var head := if a[0].finite then [a[0]] else [];
      assert head + (ValidOnly(a[1..]) + ValidOnly(b)) == head + ValidOnly(a[1..]) + ValidOnly(b);
    }
  }

  lemma {:induction false} ValidOnlyIsValid(ins: seq<Input>)
    ensures AllValid(ValidOnly(ins)) && |ValidOnly(ins)| == ValidSamples(ins)
  {
    if ins != [] { ValidOnlyIsValid(ins[1..]); }
  }

  /** Where the valid sample `i` stands among the valid samples of a longer prefix, and that the
      state before it is the same there. */
  lemma {:induction false} ValidPlace(c: Controls, ins: seq<Input>, i: nat, n: nat)
    requires i < n <= |ins| && ins[i].finite
    ensures var v, a := ValidOnly(ins[..n]), ValidSamples(ins[..i]);
            && AllValid(v) && a < |v| && v[a] == ins[i]
            && At(c, v, a) == At(c, ins, i) && |v| == a + ValidSamples(ins[i..n])
  {
    hide RunState, Step;
    var before, here, after := ValidOnly(ins[..i]), ins[i], ValidOnly(ins[i + 1..n]);
    var v := ValidOnly(ins[..n]);
    assert ins[..n] == ins[..i] + ins[i..n] && ins[i..n] == [here] + ins[i + 1..n];
    ValidOnlyConcat(ins[..i], ins[i..n]);
    assert ([here] + ins[i + 1..n])[1..] == ins[i + 1..n];
    assert v == before + ([here] + after);
    ValidOnlyIsValid(ins[..i]);
    ValidOnlyIsValid(ins[..n]);
    ValidSamplesConcat(ins[..i], ins[i..n]);
    assert v[..|before|] == before;
    InvalidSamplesIgnored(c, FRESH, ins[..i]);
  }

  lemma SameState(c: Controls, ins: seq<Input>, i: nat)
    requires i <= |ins|
    ensures var v := ValidOnly(ins[..i]); At(c, v, |v|) == At(c, ins, i)
  {
    hide RunState, ValidOnly;
    var v := ValidOnly(ins[..i]);
    assert v[..|v|] == v;
    InvalidSamplesIgnored(c, FRESH, ins[..i]);
  }

  /** In every run the pending count is the length of the unbroken evidence for the pending
      profile among the valid samples so far. */
  lemma {:induction false} CountIsEvidence(c: Controls, ins: seq<Input>, i: nat)
    requires ValidControls(c) && i <= |ins|
    ensures var s, v := At(c, ins, i), ValidOnly(ins[..i]);
            s.pending.Some? ==>
              && Backed(c, v, |v| - s.count, |v|, s.pending.value)
              && (|v| > s.count ==> !Supports(c, v, |v| - s.count - 1, s.pending.value))
  {
    hide Backed, Supports, RunState, At, AllValid, ValidOnly;
    var v := ValidOnly(ins[..i]);
    ValidOnlyIsValid(ins[..i]);
    SameState(c, ins, i);
    CountIsEvidenceIn(c, v, |v|);
    CountIsAllEvidenceIn(c, v, |v|);
  }

  /** In every run a change to a profile comes only when the last `dwell` valid samples all
      recommend it, with no cooldown running at any of them. */
  lemma {:induction false} EvidenceWindow(c: Controls, ins: seq<Input>, i: nat)
    requires ValidControls(c) && i < |ins| && Accepts(c, At(c, ins, i), ins[i])
    ensures At(c, ins, i + 1).accepted == Some(Raw(ins[i]))
    ensures var v := ValidOnly(ins[..i + 1]);
            |v| >= c.dwell && Backed(c, v, |v| - c.dwell, |v|, Raw(ins[i]))
  {
    var v := ValidOnly(ins[..i + 1]);
    assert ins[i].finite;
    hide RunState, Step, Accepts, Raw, At, Supports, ValidControls;
    ValidPlace(c, ins, i, i + 1);
    assert ins[i..i + 1] == [ins[i]];
    OneSample(ins[i]);
    EvidenceIn(c, v, |v| - 1);
    AtNext(c, v, |v| - 1);
    AtNext(c, ins, i);
  }

  /** In every run two changes are at least `cooldown + dwell` valid samples apart. */
  lemma {:induction false} ChangesApart(c: Controls, ins: seq<Input>, i: nat, j: nat)
    requires ValidControls(c) && i < j < |ins|
    requires Accepts(c, At(c, ins, i), ins[i]) && Accepts(c, At(c, ins, j), ins[j])
    ensures ValidSamples(ins[i..j]) >= c.cooldown + c.dwell
  {
    assert ins[i].finite && ins[j].finite;
    hide RunState, Step, Accepts, Raw, At, ValidControls;
    var v := ValidOnly(ins[..j + 1]);
    ValidPlace(c, ins, i, j + 1);
    ValidPlace(c, ins, j, j + 1);
    assert ins[..j] == ins[..i] + ins[i..j];
    ValidSamplesConcat(ins[..i], ins[i..j]);
    assert ins[j..j + 1] == [ins[j]];
    OneSample(ins[j]);
    assert ValidSamples(ins[i..j]) > 0 by {
      assert ins[i..j] == [ins[i]] + ins[i + 1..j];
      OneSample(ins[i]);
      ValidSamplesConcat([ins[i]], ins[i + 1..j]);
    }
    ChangesApartIn(c, v, ValidSamples(ins[..i]), ValidSamples(ins[..j]));
  }

  // ---- response ------------------------------------------------------------------------------------

  /** The number of further samples for `p` after which the policy accepts it. */
  function Latency(c: Controls, s: PolicyState, p: Profile): int {
    if s.accepted == Some(p) then 0
    else s.cooling + c.dwell - if s.cooling == 0 && s.pending == Some(p) then s.count else 0
  }

  predicate AllRaw(ins: seq<Input>, p: Profile) {
    forall i :: 0 <= i < |ins| ==> ins[i].finite && Raw(ins[i]) == p
  }

  lemma {:induction false} LatencyStep(c: Controls, s: PolicyState, i: Input)
    requires ValidControls(c) && SInv(c, s) && s.accepted.Some? && i.finite
    ensures var s', p := Step(c, s, i), Raw(i);
            && s'.accepted.Some? && 0 <= Latency(c, s', p)
            && (s.accepted == Some(p) ==> s'.accepted == Some(p))
            && (s.accepted != Some(p) ==> Latency(c, s, p) == Latency(c, s', p) + 1)
  {
    hide Raw;
  }

  lemma CountBelowDwell(c: Controls, s: PolicyState)
    requires SInv(c, s)
    ensures s.count < c.dwell
  {
  }

  /** While the workload keeps recommending `p`, the policy accepts it at exactly the
      `Latency`-th sample and keeps it. */
  lemma {:induction false} ResponseExact(c: Controls, s: PolicyState, ins: seq<Input>, p: Profile)
    requires ValidControls(c) && SInv(c, s) && s.accepted.Some? && AllRaw(ins, p)
    ensures RunState(c, s, ins).accepted == Some(p) <==> |ins| >= Latency(c, s, p)
    decreases |ins|
  {
    hide Raw, Step, SInv, ValidControls;
    if ins == [] {
      CountBelowDwell(c, s);
    } else {
      StepInv(c, s, ins[0]);
      LatencyStep(c, s, ins[0]);
      ResponseExact(c, Step(c, s, ins[0]), ins[1..], p);
    }
  }

  /** From every state a policy can reach, `cooldown + dwell` valid samples in a row for `p`
      make it the accepted profile, and it stays accepted while they go on. */
  lemma {:induction false} Response(c: Controls, s: PolicyState, ins: seq<Input>, p: Profile)
    requires ValidControls(c) && SInv(c, s) && AllRaw(ins, p) && |ins| >= c.cooldown + c.dwell
    ensures RunState(c, s, ins).accepted == Some(p)
  {
    hide Raw;
    if s.accepted.Some? { ResponseExact(c, s, ins, p); }
    else {
      var s1 := s.(accepted := Some(ins[0].current));
      assert RunState(c, s, ins) == RunState(c, s1, ins);
      ResponseExact(c, s1, ins, p);
    }
  }

  // ---- what cannot influence the policy ---------------------------------------------------------

  /** The outputs for the valid samples of a run, in order. */
  function ValidOutputs(c: Controls, s: PolicyState, ins: seq<Input>): seq<Decision>
    decreases |ins|
  {
    if ins == [] then []
    else (if ins[0].finite then [Evaluated(c, s, ins[0])] else [])
         + ValidOutputs(c, Step(c, s, ins[0]), ins[1..])
  }

  /** Deleting the invalid samples changes no decision about the others and no later state. */
  lemma {:induction false} InvalidSamplesIgnored(c: Controls, s: PolicyState, ins: seq<Input>)
    ensures RunState(c, s, ins) == RunState(c, s, ValidOnly(ins))
    ensures ValidOutputs(c, s, ins) == Outputs(c, s, ValidOnly(ins))
    decreases |ins|
  {
    if ins != [] {
      InvalidSamplesIgnored(c, Step(c, s, ins[0]), ins[1..]);
      if ins[0].finite { assert ([ins[0]] + ValidOnly(ins[1..]))[1..] == ValidOnly(ins[1..]); }
      else { assert [] + ValidOnly(ins[1..]) == ValidOnly(ins[1..]); }
      hide Raw, Evaluated;
    }
  }

  /** Two runs that differ only in the reported current profile. */
  predicate SameTelemetry(a: seq<Input>, b: seq<Input>) {
    |a| == |b| && forall i :: 0 <= i < |a| ==> b[i] == a[i].(current := b[i].current)
  }

  /** Once a profile is accepted, the reported current profile has no influence. */
  lemma {:induction false} CurrentProfileIrrelevant(c: Controls, s: PolicyState, a: seq<Input>, b: seq<Input>)
    requires s.accepted.Some? && SameTelemetry(a, b)
    ensures Outputs(c, s, a) == Outputs(c, s, b) && RunState(c, s, a) == RunState(c, s, b)
    decreases |a|
  {
    if a != [] {
      SameStep(c, s, a[0], b[0]);
      CurrentProfileIrrelevant(c, Step(c, s, a[0]), a[1..], b[1..]);
    }
  }

  lemma {:induction false} SameStep(c: Controls, s: PolicyState, x: Input, y: Input)
    requires s.accepted.Some? && y == x.(current := y.current)
    ensures Step(c, s, x) == Step(c, s, y) && Evaluated(c, s, x) == Evaluated(c, s, y)
    ensures Step(c, s, x).accepted.Some?
  {
    SameNext(c, s, x, y);
    SameOutput(c, s, x, y);
    hide Step, Evaluated;
  }

  lemma {:induction false} SameNext(c: Controls, s: PolicyState, x: Input, y: Input)
    requires s.accepted.Some? && y == x.(current := y.current)
    ensures Step(c, s, x) == Step(c, s, y) && Step(c, s, x).accepted.Some?
  {
    hide Candidate, Raw, Evidence;
    SameRaw(x, y);
  }

  lemma {:induction false} SameOutput(c: Controls, s: PolicyState, x: Input, y: Input)
    requires s.accepted.Some? && y == x.(current := y.current)
    ensures Evaluated(c, s, x) == Evaluated(c, s, y)
  {
    hide Candidate, CooldownReason, DwellReason, Decide, Evidence;
    SameCandidate(c, x, y);
  }

  lemma {:induction false} SameRaw(x: Input, y: Input)
    requires y == x.(current := y.current)
    ensures Raw(x) == Raw(y)
  {
  }

  lemma {:induction false} SameCandidate(c: Controls, x: Input, y: Input)
    requires y == x.(current := y.current)
    ensures Candidate(c, x) == Candidate(c, y)
  {
    hide WorkloadConfidence, Classify, Decide;
    SameClass(x, y);
    SameConfidence(x, y);
  }

  lemma {:induction false} SameClass(x: Input, y: Input)
    requires y == x.(current := y.current)
    ensures Classify(x) == Classify(y)
  {
  }

  lemma {:induction false} SameConfidence(x: Input, y: Input)
    requires y == x.(current := y.current)
    ensures forall p :: WorkloadConfidence(p, x) == WorkloadConfidence(p, y)
  {
    hide Clamp;
  }

  /** A valid sample always recommends the profile the policy then holds accepted, and every
      confidence lies between the configured minimum and one. */
  lemma {:induction false} DecisionSound(c: Controls, s: PolicyState, i: Input)
    requires ValidControls(c)
    ensures i.finite ==> Step(c, s, i).accepted == Some(Evaluated(c, s, i).profile)
    ensures !i.finite ==> Evaluated(c, s, i).profile == Balanced && Step(c, s, i) == s
    ensures c.minConfidence <= Evaluated(c, s, i).confidence <= 1.0
  {
    hide Candidate, Raw, CooldownReason, DwellReason, Evidence;
    RawIsCandidate(c, i);
    CandidateConfidence(c, i);
  }

  lemma {:induction false} CandidateConfidence(c: Controls, i: Input)
    requires ValidControls(c)
    ensures c.minConfidence <= Candidate(c, i).confidence <= 1.0
  {
    hide WorkloadConfidence;
  }
}
