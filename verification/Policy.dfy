/** The adaptive policy (crates/cerynth-policy/src/lib.rs): a raw recommendation from the
    telemetry, and the dwell and cooldown that decide when it is accepted. Telemetry and
    confidence are reals; `finite` is false when some reading is NaN or infinite. */
module Policy {
  import opened Types
  import opened Text

  const U32_MAX: nat := 0xFFFF_FFFF

  datatype Input = Input(
    finite: bool,
    cpu: real,
    load: real,
    runnable: nat,
    switchRate: real,
    shortLived: real,
    current: Profile)

  datatype Decision = Decision(profile: Profile, confidence: real, reason: string)

  /** The settings fixed when a policy is created. */
  datatype Controls = Controls(minConfidence: real, dwell: nat, cooldown: nat)

  datatype PolicyState = PolicyState(
    accepted: Option<Profile>,
    pending: Option<Profile>,
    count: nat,
    cooling: nat)

  function Clamp(x: real): (r: real)
    ensures 0.0 <= r <= 1.0
  {
    if x < 0.0 then 0.0 else if x > 1.0 then 1.0 else x
  }

  function Max(a: real, b: real): real { if a < b then b else a }

  function Distance(a: real, b: real): real { if a < b then b - a else a - b }

  /** The confidence of each profile for a workload. */
  function WorkloadConfidence(p: Profile, i: Input): (r: real)
    ensures 0.0 <= r <= 1.0
  {
    match p
    case Performance =>
      Clamp(0.65 * Clamp((i.cpu - 85.0) / 15.0) + 0.20 * Clamp((i.load - 1.0) / 2.0)
            + 0.15 * Clamp((i.runnable as real - 2.0) / 4.0))
    case Interactive =>
      Clamp(0.35 * Clamp((i.runnable as real - 1.0) / 3.0) + 0.40 * Clamp((i.switchRate - 150.0) / 850.0)
            + 0.25 * Clamp((i.shortLived - 2.0) / 8.0))
    case Background =>
      Clamp(0.40 * Clamp(1.0 - i.cpu / 10.0) + 0.25 * Clamp(1.0 - i.load / 0.5)
            + 0.20 * (if i.runnable == 0 then 1.0 else 0.0) + 0.15 * Clamp(1.0 - i.shortLived))
    case Balanced =>
      Clamp(1.0 - 0.6 * (Distance(i.cpu, 50.0) / 50.0) - 0.4 * (Distance(i.load, 1.0) / 2.0))
  }

  function Decide(c: Controls, p: Profile, confidence: real, reason: string): Decision {
    Decision(p, Max(confidence, c.minConfidence), reason)
  }

  /** What the telemetry shows, by the first test it passes. */
  datatype Workload = Saturated | Churning | Quiet | Light | Ordinary

  function Classify(i: Input): Workload {
    if i.cpu >= 90.0 && i.load >= 1.0 && i.runnable >= 2 then Saturated
    else if i.runnable >= 2 && ((i.switchRate >= 500.0 && i.runnable >= 3) || i.shortLived >= 5.0) then Churning
    else if i.cpu < 10.0 && i.load < 0.5 && i.runnable <= 1 && i.shortLived < 1.0 then Quiet
    else if i.cpu < 30.0 && i.runnable <= 1 then Light
    else Ordinary
  }

  /** The profile recommended before dwell and cooldown. */
  function Raw(i: Input): Profile {
    match Classify(i)
    case Saturated => Performance
    case Churning => Interactive
    case Quiet => Background
    case Light | Ordinary => Balanced
  }

  /** The recommendation before dwell and cooldown. */
  function Candidate(c: Controls, i: Input): Decision {
    match Classify(i)
    case Saturated => Decide(c, Performance, WorkloadConfidence(Performance, i), Sentence(VERY_HIGH))
    case Churning => Decide(c, Interactive, WorkloadConfidence(Interactive, i), Sentence(CHURN))
    case Quiet => Decide(c, Background, WorkloadConfidence(Background, i), Sentence(VERY_LOW))
    case Light => Decide(c, Balanced, 0.90, Sentence(LOW))
    case Ordinary => Decide(c, Balanced, WorkloadConfidence(Balanced, i), Sentence(OTHER))
  }

  // ---- hysteresis -------------------------------------------------------------------------

  function CooldownReason(accepted: Profile, raw: Profile): string {
    Cat(["Holding ", Name(accepted), " during ", "profile-change ", "cooldown", "; candidate ", Name(raw)])
  }

  /** The text as it is written: the profile stands where the number of samples should. */
  function DwellReason(accepted: Profile, raw: Profile, count: nat, dwell: nat): string {
    Cat(["Holding ", Name(accepted), " until ", Name(raw), " ", "consecutive samples", " support ", Name(raw),
         "; ", Num(count), "/", Num(dwell)])
  }

  datatype Kind = Agree | CooldownHold | DwellHold | Accept

  function Incumbent(s: PolicyState, current: Profile): Profile {
    if s.accepted.Some? then s.accepted.value else current
  }

  function SaturatingInc(n: nat): nat {
    if n >= U32_MAX then U32_MAX else n + 1
  }

  /** The evidence for `raw` including this sample. */
  function Evidence(s: PolicyState, raw: Profile): nat {
    if s.pending == Some(raw) then SaturatingInc(s.count) else 1
  }

  function KindOf(c: Controls, s: PolicyState, raw: Profile, current: Profile): Kind {
    if raw == Incumbent(s, current) then Agree
    else if s.cooling > 0 then CooldownHold
    else if Evidence(s, raw) < c.dwell then DwellHold
    else Accept
  }

  function Next(c: Controls, s: PolicyState, raw: Profile, current: Profile): PolicyState {
    var accepted := Some(Incumbent(s, current));
    match KindOf(c, s, raw, current)
    case Agree => PolicyState(accepted, None, 0, if s.cooling > 0 then s.cooling - 1 else 0)
    case CooldownHold => PolicyState(accepted, None, 0, s.cooling - 1)
    case DwellHold => PolicyState(accepted, Some(raw), Evidence(s, raw), 0)
    case Accept => PolicyState(Some(raw), None, 0, c.cooldown)
  }

  function Output(c: Controls, s: PolicyState, cand: Decision, current: Profile): Decision {
    var a := Incumbent(s, current);
    match KindOf(c, s, cand.profile, current)
    case Agree => cand
    case CooldownHold => Decide(c, a, cand.confidence, CooldownReason(a, cand.profile))
    case DwellHold =>
      Decide(c, a, cand.confidence, DwellReason(a, cand.profile, Evidence(s, cand.profile), c.dwell))
    case Accept => cand
  }

  function Step(c: Controls, s: PolicyState, i: Input): PolicyState {
    if i.finite then Next(c, s, Raw(i), i.current) else s
  }

  function Evaluated(c: Controls, s: PolicyState, i: Input): Decision {
    if i.finite then Output(c, s, Candidate(c, i), i.current)
    else Decide(c, Balanced, 1.0, Sentence(INVALID))
  }

  /** Settings a constructor can produce. */
  predicate ValidControls(c: Controls) {
    0.0 <= c.minConfidence <= 1.0 && 1 <= c.dwell <= U32_MAX
  }

  /** Kept by every evaluation of a policy with valid controls. */
  predicate SInv(c: Controls, s: PolicyState) {
    && s.count < c.dwell && s.cooling <= c.cooldown
    && (s.pending.None? <==> s.count == 0)
    && (s.cooling > 0 ==> s.count == 0)
    && (s.pending.Some? ==> s.accepted.Some? && s.pending != s.accepted)
    && (s.accepted.None? ==> s.cooling == 0)
  }

  const FRESH: PolicyState := PolicyState(None, None, 0, 0)

  lemma {:induction false} RawIsCandidate(c: Controls, i: Input)
    ensures Candidate(c, i).profile == Raw(i)
  {
  }

  /** When each profile is the candidate: Performance under saturation, whatever else is seen;
      Interactive under churn without saturation; Background when nothing happens; else Balanced. */
  lemma RawExactly(i: Input)
    ensures Raw(i) == Performance <==> i.cpu >= 90.0 && i.load >= 1.0 && i.runnable >= 2
    ensures Raw(i) == Interactive <==>
              && (i.cpu < 90.0 || i.load < 1.0) && i.runnable >= 2
              && (i.shortLived >= 5.0 || (i.switchRate >= 500.0 && i.runnable >= 3))
    ensures Raw(i) == Background <==> i.cpu < 10.0 && i.load < 0.5 && i.runnable <= 1 && i.shortLived < 1.0
  {
  }

  lemma ChangesToRaw(c: Controls, s: PolicyState, raw: Profile, current: Profile)
    ensures var s' := Next(c, s, raw, current);
            s.accepted.Some? && s'.accepted != s.accepted ==> s'.accepted == Some(raw)
  {
  }

  /** The bounds hold after every evaluation, so the saturating increment never saturates. */
  lemma {:induction false} StepInv(c: Controls, s: PolicyState, i: Input)
    requires ValidControls(c) && SInv(c, s)
    ensures SInv(c, Step(c, s, i))
    ensures s.pending == Some(Raw(i)) ==> Evidence(s, Raw(i)) == s.count + 1
  {
  }

  // ---- the policy object -------------------------------------------------------------------

  class RulesBasedPolicy {
    var minConfidence: real
    var minDwellSamples: nat
    var cooldownSamples: nat
    var acceptedProfile: Option<Profile>
    var pendingProfile: Option<Profile>
    var pendingCount: nat
    var cooldownRemaining: nat

    function Settings(): Controls
      reads this
    {
      Controls(minConfidence, minDwellSamples, cooldownSamples)
    }

    function State(): PolicyState
      reads this
    {
      PolicyState(acceptedProfile, pendingProfile, pendingCount, cooldownRemaining)
    }

    predicate Valid()
      reads this
    {
      ValidControls(Settings()) && SInv(Settings(), State())
    }

    /** The default policy: confidence 0.6, three samples of dwell, five of cooldown. */
    constructor ()
      ensures Valid() && Settings() == Controls(0.60, 3, 5) && State() == FRESH
    {
      minConfidence, minDwellSamples, cooldownSamples := 0.60, 3, 5;
      acceptedProfile, pendingProfile, pendingCount, cooldownRemaining := None, None, 0, 0;
    }

    constructor WithMinConfidence(confidence: real)
      ensures Valid() && Settings() == Controls(Clamp(confidence), 3, 5) && State() == FRESH
    {
      minConfidence, minDwellSamples, cooldownSamples := Clamp(confidence), 3, 5;
      acceptedProfile, pendingProfile, pendingCount, cooldownRemaining := None, None, 0, 0;
    }

    constructor WithStabilityControls(confidence: real, dwell: nat, cooldown: nat)
      requires dwell <= U32_MAX
      ensures Valid() && State() == FRESH
      ensures Settings() == Controls(Clamp(confidence), if dwell == 0 then 1 else dwell, cooldown)
    {
      minConfidence, cooldownSamples := Clamp(confidence), cooldown;
      minDwellSamples := if dwell == 0 then 1 else dwell;
      acceptedProfile, pendingProfile, pendingCount, cooldownRemaining := None, None, 0, 0;
    }

    method Stabilize(candidate: Decision, currentProfile: Profile) returns (d: Decision)
      requires Valid()
      modifies this`acceptedProfile, this`pendingProfile, this`pendingCount, this`cooldownRemaining
      ensures Valid()
      ensures State() == Next(Settings(), old(State()), candidate.profile, currentProfile)
      ensures d == Output(Settings(), old(State()), candidate, currentProfile)
    {
      hide CooldownReason, DwellReason, Decide;
      if acceptedProfile.None? {
        acceptedProfile := Some(currentProfile);
      }
      var accepted := acceptedProfile.value;
      if candidate.profile == accepted {
        pendingProfile, pendingCount := None, 0;
        if cooldownRemaining > 0 { cooldownRemaining := cooldownRemaining - 1; }
        return candidate;
      }
      if cooldownRemaining > 0 {
        pendingProfile, pendingCount := None, 0;
        cooldownRemaining := cooldownRemaining - 1;
        return Decide(Settings(), accepted, candidate.confidence, CooldownReason(accepted, candidate.profile));
      }
      if pendingProfile == Some(candidate.profile) {
        pendingCount := SaturatingInc(pendingCount);
      } else {
        pendingProfile, pendingCount := Some(candidate.profile), 1;
      }
      if pendingCount < minDwellSamples {
        return Decide(Settings(), accepted, candidate.confidence,
                      DwellReason(accepted, candidate.profile, pendingCount, minDwellSamples));
      }
      acceptedProfile := Some(candidate.profile);
      pendingProfile, pendingCount, cooldownRemaining := None, 0, cooldownSamples;
      return candidate;
    }

    method Evaluate(i: Input) returns (d: Decision)
      requires Valid()
      modifies this`acceptedProfile, this`pendingProfile, this`pendingCount, this`cooldownRemaining
      ensures Valid()
      ensures State() == Step(Settings(), old(State()), i)
      ensures d == Evaluated(Settings(), old(State()), i)
      ensures i.finite && old(acceptedProfile).Some? && acceptedProfile != old(acceptedProfile) ==>
                && (acceptedProfile == Some(Performance) <==> i.cpu >= 90.0 && i.load >= 1.0 && i.runnable >= 2)
                && (acceptedProfile == Some(Interactive) <==>
                      && (i.cpu < 90.0 || i.load < 1.0) && i.runnable >= 2
                      && (i.shortLived >= 5.0 || (i.switchRate >= 500.0 && i.runnable >= 3)))
                && (acceptedProfile == Some(Background) <==>
                      i.cpu < 10.0 && i.load < 0.5 && i.runnable <= 1 && i.shortLived < 1.0)
    {
      hide Candidate, Raw, Next, Output, SInv, Sentence, WorkloadConfidence;
      RawExactly(i);
      ChangesToRaw(Settings(), State(), Raw(i), i.current);
      if !i.finite {
        return Decide(Settings(), Balanced, 1.0, Sentence(INVALID));
      }
      var candidate := Candidate(Settings(), i);
      RawIsCandidate(Settings(), i);
      d := Stabilize(candidate, i.current);
    }
  }
}
