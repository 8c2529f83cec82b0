/** The offline tools: replaying recorded telemetry through the policy, and the report that
    counts what the replay wrote. A telemetry file is a sequence of lines already parsed;
    JSON carries no NaN or infinity, so every snapshot that parses is finite. */
module ReplayReport {
  import opened Types
  import opened Text
  import opened Policy
  import opened PolicyRuns
  import SeqFacts

  datatype Snapshot = Snapshot(
    timestampMs: nat,
    cpu: real,
    load: real,
    runnable: nat,
    contextSwitches: nat,
    profile: Option<Profile>)

  datatype Line<T> = Blank | Malformed | Parsed(value: T)

  /** What the replay writes and the report reads. */
  datatype Record = Record(recommended: Profile, confidence: real, reason: string)

  // ---- replay -----------------------------------------------------------------------------

  function SaturatingSub(a: nat, b: nat): nat { if a < b then 0 else a - b }

  /** Context switches per second since the previous snapshot. */
  function SwitchRate(previous: Option<Snapshot>, s: Snapshot): (r: real)
    ensures r >= 0.0
  {
    if previous.None? then 0.0
    else
      var ms := SaturatingSub(s.timestampMs, previous.value.timestampMs);
      if ms == 0 then 0.0
      else
        var n := SaturatingSub(s.contextSwitches, previous.value.contextSwitches);
        NonNegativeQuotient(n as real, ms as real / 1000.0);
        n as real / (ms as real / 1000.0)
  }

  lemma NonNegativeQuotient(a: real, b: real)
    requires a >= 0.0 && b > 0.0
    ensures a / b >= 0.0
  {
  }

  function CurrentProfile(s: Snapshot): Profile {
    if s.profile.Some? then s.profile.value else Balanced
  }

  /** The policy input of a snapshot; the recording has no process lifetimes. */
  function InputOf(previous: Option<Snapshot>, s: Snapshot): Input {
    Input(true, s.cpu, s.load, s.runnable, SwitchRate(previous, s), 0.0, CurrentProfile(s))
  }

  function Inputs(previous: Option<Snapshot>, lines: seq<Line<Snapshot>>): seq<Input>
    decreases |lines|
  {
    if lines == [] || lines[0].Malformed? then []
    else if lines[0].Blank? then Inputs(previous, lines[1..])
    else [InputOf(previous, lines[0].value)] + Inputs(Some(lines[0].value), lines[1..])
  }

  function RecordOf(d: Decision): Record {
    Record(d.profile, d.confidence, d.reason)
  }

  function Records(ds: seq<Decision>): seq<Record> {
    if ds == [] then [] else [RecordOf(ds[0])] + Records(ds[1..])
  }

  predicate WellFormed<T>(lines: seq<Line<T>>) {
    forall i :: 0 <= i < |lines| ==> !lines[i].Malformed?
  }

  const DEFAULTS: Controls := Controls(0.60, 3, 5)

  /** The records the replay of a file writes. */
  function Replayed(lines: seq<Line<Snapshot>>): seq<Record> {
    Records(Outputs(DEFAULTS, FRESH, Inputs(None, lines)))
  }

  /** The records still to be written from policy state `s`. */
  function Remaining(s: PolicyState, previous: Option<Snapshot>, lines: seq<Line<Snapshot>>): seq<Record> {
    Records(Outputs(DEFAULTS, s, Inputs(previous, lines)))
  }

  lemma {:induction false} RemainingStep(s: PolicyState, previous: Option<Snapshot>, lines: seq<Line<Snapshot>>)
    requires lines != []
    ensures Remaining(s, previous, lines) ==
            if lines[0].Malformed? then []
            else if lines[0].Blank? then Remaining(s, previous, lines[1..])
            else
              var i := InputOf(previous, lines[0].value);
              [RecordOf(Evaluated(DEFAULTS, s, i))]
              + Remaining(Step(DEFAULTS, s, i), Some(lines[0].value), lines[1..])
  {
    hide Evaluated, Step;
    if lines[0].Parsed? {
      var i, later := InputOf(previous, lines[0].value), Inputs(Some(lines[0].value), lines[1..]);
      assert ([i] + later)[1..] == later;
      var d, ds := Evaluated(DEFAULTS, s, i), Outputs(DEFAULTS, Step(DEFAULTS, s, i), later);
      assert ([d] + ds)[1..] == ds;
    }
  }

  lemma ReplayStarts(lines: seq<Line<Snapshot>>)
    ensures Replayed(lines) == [] + Remaining(FRESH, None, lines[0..])
  {
    hide Records, Outputs, Inputs;
    assert lines[0..] == lines;
  }

  /** What one line adds to the records written so far. */
  lemma {:induction false} ReplayLine(all: seq<Record>, records: seq<Record>, s: PolicyState,
                                      previous: Option<Snapshot>, lines: seq<Line<Snapshot>>, n: nat)
    requires n < |lines| && all == records + Remaining(s, previous, lines[n..])
    ensures lines[n].Malformed? ==> all == records
    ensures lines[n].Blank? ==> all == records + Remaining(s, previous, lines[n + 1..])
    ensures lines[n].Parsed? ==>
              var i := InputOf(previous, lines[n].value);
              all == (records + [RecordOf(Evaluated(DEFAULTS, s, i))])
                     + Remaining(Step(DEFAULTS, s, i), Some(lines[n].value), lines[n + 1..])
  {
    hide Remaining, Evaluated, Step, InputOf;
    RemainingStep(s, previous, lines[n..]);
    assert lines[n..][1..] == lines[n + 1..];
    if lines[n].Parsed? {
      var i := InputOf(previous, lines[n].value);
      SeqFacts.Assoc(records, [RecordOf(Evaluated(DEFAULTS, s, i))],
                     Remaining(Step(DEFAULTS, s, i), Some(lines[n].value), lines[n + 1..]));
    }
  }

  lemma ReplayEnds(s: PolicyState, previous: Option<Snapshot>)
    ensures Remaining(s, previous, []) == []
  {
  }

  /** The replay loop. A malformed line ends it with an error, after the records so far. */
  method Replay(lines: seq<Line<Snapshot>>) returns (ok: bool, records: seq<Record>)
    ensures ok == WellFormed(lines)
    ensures records == Replayed(lines)
  {
    hide Evaluated, Step, Remaining, Replayed, InputOf;
    var policy := new RulesBasedPolicy();
    var previous: Option<Snapshot> := None;
    records := [];
    var i := 0;
    ReplayStarts(lines);
    while i < |lines|
      invariant 0 <= i <= |lines| && WellFormed(lines[..i])
      invariant fresh(policy) && policy.Valid() && policy.Settings() == DEFAULTS
      invariant Replayed(lines) == records + Remaining(policy.State(), previous, lines[i..])
    {
      ReplayLine(Replayed(lines), records, policy.State(), previous, lines, i);
      if lines[i].Malformed? { return false, records; }
      if lines[i].Parsed? {
        var snapshot := lines[i].value;
        var d := policy.Evaluate(InputOf(previous, snapshot));
        records := records + [RecordOf(d)];
        previous := Some(snapshot);
      }
      i := i + 1;
    }
    assert lines[i..] == [];
    ReplayEnds(policy.State(), previous);
    assert lines[..i] == lines;
    ok := true;
  }

  // ---- report ------------------------------------------------------------------------------

  datatype Report = Report(
    samples: nat,
    recommendationCounts: map<string, nat>,
    transitions: map<string, nat>,
    dwellHolds: nat,
    cooldownHolds: nat,
    first: Option<Profile>,
    last: Option<Profile>)

  const EMPTY: Report := Report(0, map[], map[], 0, 0, None, None)

  function Get(m: map<string, nat>, key: string): nat {
    if key in m then m[key] else 0
  }

  function Bump(m: map<string, nat>, key: string): map<string, nat> {
    m[key := Get(m, key) + 1]
  }

  function Arrow(a: Profile, b: Profile): string {
    Name(a) + " -> " + Name(b)
  }

  /** One record added to a report. */
  function Add(rep: Report, previous: Option<Profile>, r: Record): Report {
    Report(
      rep.samples + 1,
      Bump(rep.recommendationCounts, Name(r.recommended)),
      if previous.Some? && previous.value != r.recommended
        then Bump(rep.transitions, Arrow(previous.value, r.recommended)) else rep.transitions,
      rep.dwellHolds + (if Contains(r.reason, "consecutive samples") then 1 else 0),
      rep.cooldownHolds + (if Contains(r.reason, "cooldown") then 1 else 0),
      if rep.first.None? then Some(r.recommended) else rep.first,
      Some(r.recommended))
  }

  function AddAll(rep: Report, previous: Option<Profile>, rs: seq<Record>): Report
    decreases |rs|
  {
    if rs == [] then rep else AddAll(Add(rep, previous, rs[0]), Some(rs[0].recommended), rs[1..])
  }

  function ParsedOnly<T>(lines: seq<Line<T>>): seq<T> {
    if lines == [] then []
    else (if lines[0].Parsed? then [lines[0].value] else []) + ParsedOnly(lines[1..])
  }

  lemma {:induction false} AddParsed(rep: Report, previous: Option<Profile>, lines: seq<Line<Record>>)
    requires lines != [] && !lines[0].Malformed?
    ensures AddAll(rep, previous, ParsedOnly(lines)) ==
            if lines[0].Blank? then AddAll(rep, previous, ParsedOnly(lines[1..]))
            else AddAll(Add(rep, previous, lines[0].value), Some(lines[0].value.recommended), ParsedOnly(lines[1..]))
  {
    hide Add;
    var rest := ParsedOnly(lines[1..]);
    if lines[0].Blank? { assert [] + rest == rest; }
    else { assert ([lines[0].value] + rest)[1..] == rest; }
  }

  method AddRecord(rep: Report, previous: Option<Profile>, r: Record) returns (report: Report)
    ensures report == Add(rep, previous, r)
  {
    report := rep;
    report := report.(samples := report.samples + 1);
    report := report.(recommendationCounts := Bump(report.recommendationCounts, Name(r.recommended)));
    if report.first.None? { report := report.(first := Some(r.recommended)); }
    report := report.(last := Some(r.recommended));
    if previous.Some? && previous.value != r.recommended {
      report := report.(transitions := Bump(report.transitions, Arrow(previous.value, r.recommended)));
    }
    if Contains(r.reason, "consecutive samples") { report := report.(dwellHolds := report.dwellHolds + 1); }
    if Contains(r.reason, "cooldown") { report := report.(cooldownHolds := report.cooldownHolds + 1); }
  }

  /** The report of a decision file, or an error if some line does not parse. */
  method Analyze(lines: seq<Line<Record>>) returns (result: Option<Report>)
    ensures result.Some? <==> WellFormed(lines)
    ensures result.Some? ==> result.value == AddAll(EMPTY, None, ParsedOnly(lines))
  {
    hide Add;
    var report, previous: Option<Profile> := EMPTY, None;
    var i := 0;
    assert lines[0..] == lines;
    while i < |lines|
      invariant 0 <= i <= |lines| && WellFormed(lines[..i])
      invariant AddAll(EMPTY, None, ParsedOnly(lines)) == AddAll(report, previous, ParsedOnly(lines[i..]))
    {
      if lines[i].Malformed? { return None; }
      AddParsed(report, previous, lines[i..]);
      assert lines[i..][1..] == lines[i + 1..];
      if lines[i].Parsed? {
        report := AddRecord(report, previous, lines[i].value);
        previous := Some(lines[i].value.recommended);
      }
      i := i + 1;
    }
    assert lines[i..] == [];
    assert lines[..i] == lines;
    result := Some(report);
  }

  // ---- reading the reasons back ---------------------------------------------------------------

  lemma Markers()
    ensures HasPair("cooldown", 'o', 'o') && HasPair("consecutive samples", 'c', 'u')
  {
    assert "cooldown"[1] == 'o' && "cooldown"[2] == 'o';
    assert "consecutive samples"[5] == 'c' && "consecutive samples"[6] == 'u';
  }

  /** A text without the pair does not contain the marker that has it. */
  lemma NoMarker(s: string)
    ensures !HasPair(s, 'o', 'o') ==> !Contains(s, "cooldown")
    ensures !HasPair(s, 'c', 'u') ==> !Contains(s, "consecutive samples")
  {
    Markers();
    if Contains(s, "cooldown") { ContainsPair(s, "cooldown", 'o', 'o'); }
    if Contains(s, "consecutive samples") { ContainsPair(s, "consecutive samples", 'c', 'u'); }
  }

  lemma CooldownText(a: Profile, b: Profile)
    ensures Contains(CooldownReason(a, b), "cooldown") && !Contains(CooldownReason(a, b), "consecutive samples")
  {
    var parts := ["Holding ", Name(a), " during ", "profile-change ", "cooldown", "; candidate ", Name(b)];
    ContainsPart(parts, 4);
    NamesInert(a);
    NamesInert(b);
    CooldownPieces();
    hide Inert, Name, Cat;
    InertCat(parts, 'c', 'u');
    NoMarker(Cat(parts));
  }

  lemma CooldownPieces()
    ensures Inert("Holding ", 'c', 'u') && Inert(" during ", 'c', 'u') && Inert("profile-change ", 'c', 'u')
    ensures Inert("cooldown", 'c', 'u') && Inert("; candidate ", 'c', 'u')
  {
  }

  lemma DwellText(a: Profile, b: Profile, m: nat, n: nat)
    ensures Contains(DwellReason(a, b, m, n), "consecutive samples") && !Contains(DwellReason(a, b, m, n), "cooldown")
  {
    var parts := ["Holding ", Name(a), " until ", Name(b), " ", "consecutive samples", " support ", Name(b),
                  "; ", Num(m), "/", Num(n)];
    ContainsPart(parts, 5);
    NamesInert(a);
    NamesInert(b);
    DigitsInert(m);
    DigitsInert(n);
    DwellPieces();
    hide Inert, Name, Num, Cat;
    InertCat(parts, 'o', 'o');
    NoMarker(Cat(parts));
  }

  lemma DwellPieces()
    ensures Inert("Holding ", 'o', 'o') && Inert(" until ", 'o', 'o') && Inert(" ", 'o', 'o')
    ensures Inert("consecutive samples", 'o', 'o') && Inert(" support ", 'o', 'o')
    ensures Inert("; ", 'o', 'o') && Inert("/", 'o', 'o')
  {
  }

  lemma CandidatePlain(c: Controls, i: Input)
    ensures Plain(Candidate(c, i).reason)
  {
    FixedReasonsPlain();
    hide Sentence, Plain, WorkloadConfidence;
  }

  /** The report recognises held recommendations by their text, and does so exactly. */
  lemma {:induction false} HoldsRecognised(c: Controls, s: PolicyState, i: Input)
    requires i.finite
    ensures var reason := Evaluated(c, s, i).reason;
            && (Contains(reason, "cooldown") <==> KindOf(c, s, Raw(i), i.current).CooldownHold?)
            && (Contains(reason, "consecutive samples") <==> KindOf(c, s, Raw(i), i.current).DwellHold?)
  {
    RawIsCandidate(c, i);
    CandidatePlain(c, i);
    NoMarker(Candidate(c, i).reason);
    var a, raw := Incumbent(s, i.current), Raw(i);
    CooldownText(a, raw);
    DwellText(a, raw, Evidence(s, raw), c.dwell);
    hide Candidate, Raw, Contains, CooldownReason, DwellReason, Evidence;
  }
}
