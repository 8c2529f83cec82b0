/** What the telemetry recommends, and what the confidence of a recommendation measures: both follow
    the load in one direction. */
module PolicyConfidence {
  import opened Types
  import opened Text
  import opened Policy

  /** `j` shows at least the load of `i` in every reading. */
  predicate AtLeast(i: Input, j: Input) {
    && i.cpu <= j.cpu && i.load <= j.load && i.runnable <= j.runnable
    && i.switchRate <= j.switchRate && i.shortLived <= j.shortLived
  }

  /** The profiles by the load they are for. */
  function Rank(p: Profile): nat {
    match p
    case Background => 0
    case Balanced => 1
    case Interactive => 2
    case Performance => 3
  }

  /** More load never recommends a profile for less load. */
  lemma RecommendationFollowsLoad(i: Input, j: Input)
    requires AtLeast(i, j)
    ensures Rank(Raw(i)) <= Rank(Raw(j))
  {
    RawExactly(i);
    RawExactly(j);
    hide Raw;
  }

  /** More load never lowers the confidence in Performance or Interactive, and never raises the
      one in Background. */
  lemma ConfidenceFollowsLoad(i: Input, j: Input)
    requires AtLeast(i, j)
    ensures WorkloadConfidence(Performance, i) <= WorkloadConfidence(Performance, j)
    ensures WorkloadConfidence(Interactive, i) <= WorkloadConfidence(Interactive, j)
    ensures WorkloadConfidence(Background, i) >= WorkloadConfidence(Background, j)
  {
  }

  /** Performance is certain exactly at 100 % CPU, load 3 and six runnable tasks, and has no
      support exactly up to 85 %, load 1 and two tasks. */
  lemma PerformanceBounds(i: Input)
    ensures WorkloadConfidence(Performance, i) == 1.0 <==> i.cpu >= 100.0 && i.load >= 3.0 && i.runnable >= 6
    ensures WorkloadConfidence(Performance, i) == 0.0 <==> i.cpu <= 85.0 && i.load <= 1.0 && i.runnable <= 2
  {
  }

  lemma InteractiveBounds(i: Input)
    ensures WorkloadConfidence(Interactive, i) == 1.0 <==>
              i.runnable >= 4 && i.switchRate >= 1000.0 && i.shortLived >= 10.0
    ensures WorkloadConfidence(Interactive, i) == 0.0 <==>
              i.runnable <= 1 && i.switchRate <= 150.0 && i.shortLived <= 2.0
  {
  }

  lemma BackgroundBounds(i: Input)
    ensures WorkloadConfidence(Background, i) == 1.0 <==>
              i.cpu <= 0.0 && i.load <= 0.0 && i.runnable == 0 && i.shortLived <= 0.0
    ensures WorkloadConfidence(Background, i) == 0.0 <==>
              i.cpu >= 10.0 && i.load >= 0.5 && i.runnable > 0 && i.shortLived >= 1.0
  {
  }

  /** A recommendation other than Balanced always has support of its own, whatever the
      configured minimum. */
  lemma RecommendationHasSupport(i: Input)
    requires Raw(i) != Balanced
    ensures WorkloadConfidence(Raw(i), i) > 0.0
  {
    PerformanceBounds(i);
    InteractiveBounds(i);
    BackgroundBounds(i);
  }

  // ---- how fast it moves --------------------------------------------------------------------------

  /** The reading within the range that counts. */
  function Within(x: real, low: real, high: real): (r: real)
    requires low <= high
    ensures low <= r <= high && (low <= x <= high ==> r == x)
  {
    if x < low then low else if x > high then high else x
  }

  lemma NoClamp(x: real)
    requires 0.0 <= x <= 1.0
    ensures Clamp(x) == x
  {
  }

  lemma PerformanceScores(i: Input)
    ensures Clamp((i.cpu - 85.0) / 15.0) == (Within(i.cpu, 85.0, 100.0) - 85.0) / 15.0
    ensures Clamp((i.load - 1.0) / 2.0) == (Within(i.load, 1.0, 3.0) - 1.0) / 2.0
    ensures Clamp((i.runnable as real - 2.0) / 4.0) == (Within(i.runnable as real, 2.0, 6.0) - 2.0) / 4.0
  {
  }

  lemma InteractiveScores(i: Input)
    ensures Clamp((i.runnable as real - 1.0) / 3.0) == (Within(i.runnable as real, 1.0, 4.0) - 1.0) / 3.0
    ensures Clamp((i.switchRate - 150.0) / 850.0) == (Within(i.switchRate, 150.0, 1000.0) - 150.0) / 850.0
    ensures Clamp((i.shortLived - 2.0) / 8.0) == (Within(i.shortLived, 2.0, 10.0) - 2.0) / 8.0
  {
  }

  lemma BackgroundScores(i: Input)
    ensures Clamp(1.0 - i.cpu / 10.0) == 1.0 - Within(i.cpu, 0.0, 10.0) / 10.0
    ensures Clamp(1.0 - i.load / 0.5) == 1.0 - Within(i.load, 0.0, 0.5) / 0.5
    ensures Clamp(1.0 - i.shortLived) == 1.0 - Within(i.shortLived, 0.0, 1.0)
  {
  }

  lemma PerformanceAt(i: Input)
    ensures WorkloadConfidence(Performance, i)
         == 0.65 * (Within(i.cpu, 85.0, 100.0) - 85.0) / 15.0 + 0.20 * (Within(i.load, 1.0, 3.0) - 1.0) / 2.0
            + 0.15 * (Within(i.runnable as real, 2.0, 6.0) - 2.0) / 4.0
  {
    hide Clamp, Within;
    PerformanceScores(i);
    NoClamp(0.65 * Clamp((i.cpu - 85.0) / 15.0) + 0.20 * Clamp((i.load - 1.0) / 2.0)
            + 0.15 * Clamp((i.runnable as real - 2.0) / 4.0));
  }

  lemma InteractiveAt(i: Input)
    ensures WorkloadConfidence(Interactive, i)
         == 0.35 * (Within(i.runnable as real, 1.0, 4.0) - 1.0) / 3.0
            + 0.40 * (Within(i.switchRate, 150.0, 1000.0) - 150.0) / 850.0
            + 0.25 * (Within(i.shortLived, 2.0, 10.0) - 2.0) / 8.0
  {
    hide Clamp, Within;
    InteractiveScores(i);
    NoClamp(0.35 * Clamp((i.runnable as real - 1.0) / 3.0) + 0.40 * Clamp((i.switchRate - 150.0) / 850.0)
            + 0.25 * Clamp((i.shortLived - 2.0) / 8.0));
  }

  lemma BackgroundAt(i: Input)
    ensures WorkloadConfidence(Background, i)
         == 1.0 - 0.40 * Within(i.cpu, 0.0, 10.0) / 10.0 - 0.25 * Within(i.load, 0.0, 0.5) / 0.5
            - 0.15 * Within(i.shortLived, 0.0, 1.0) - 0.20 * (if i.runnable > 0 then 1.0 else 0.0)
  {
    hide Clamp, Within;
    BackgroundScores(i);
    NoClamp(0.40 * Clamp(1.0 - i.cpu / 10.0) + 0.25 * Clamp(1.0 - i.load / 0.5)
            + 0.20 * (if i.runnable == 0 then 1.0 else 0.0) + 0.15 * Clamp(1.0 - i.shortLived));
  }

  /** Between its bounds each reading moves the confidence in a profile by its own weight, however the
      others stand, and outside of them not at all. */
  lemma ConfidenceSlopes(i: Input, j: Input)
    ensures WorkloadConfidence(Performance, j) - WorkloadConfidence(Performance, i)
         == 0.65 * (Within(j.cpu, 85.0, 100.0) - Within(i.cpu, 85.0, 100.0)) / 15.0
            + 0.20 * (Within(j.load, 1.0, 3.0) - Within(i.load, 1.0, 3.0)) / 2.0
            + 0.15 * (Within(j.runnable as real, 2.0, 6.0) - Within(i.runnable as real, 2.0, 6.0)) / 4.0
    ensures WorkloadConfidence(Interactive, j) - WorkloadConfidence(Interactive, i)
         == 0.35 * (Within(j.runnable as real, 1.0, 4.0) - Within(i.runnable as real, 1.0, 4.0)) / 3.0
            + 0.40 * (Within(j.switchRate, 150.0, 1000.0) - Within(i.switchRate, 150.0, 1000.0)) / 850.0
            + 0.25 * (Within(j.shortLived, 2.0, 10.0) - Within(i.shortLived, 2.0, 10.0)) / 8.0
    ensures WorkloadConfidence(Background, i) - WorkloadConfidence(Background, j)
         == 0.40 * (Within(j.cpu, 0.0, 10.0) - Within(i.cpu, 0.0, 10.0)) / 10.0
            + 0.25 * (Within(j.load, 0.0, 0.5) - Within(i.load, 0.0, 0.5)) / 0.5
            + 0.15 * (Within(j.shortLived, 0.0, 1.0) - Within(i.shortLived, 0.0, 1.0))
            + 0.20 * ((if j.runnable > 0 then 1.0 else 0.0) - (if i.runnable > 0 then 1.0 else 0.0))
  {
    hide Within, WorkloadConfidence;
    PerformanceAt(i);
    PerformanceAt(j);
    InteractiveAt(i);
    InteractiveAt(j);
    BackgroundAt(i);
    BackgroundAt(j);
  }

  /** Balanced is certain exactly at 50 % CPU and load 1. Every point of CPU away from there costs
      0.012, every unit of load 0.2, until nothing is left; neither side is favoured. */
  lemma BalancedSlope(i: Input)
    ensures WorkloadConfidence(Balanced, i) == 1.0 <==> i.cpu == 50.0 && i.load == 1.0
    ensures var cpu, load := if i.cpu < 50.0 then 50.0 - i.cpu else i.cpu - 50.0,
                             if i.load < 1.0 then 1.0 - i.load else i.load - 1.0;
            && (WorkloadConfidence(Balanced, i) == 0.0 <==> 0.012 * cpu + 0.2 * load >= 1.0)
            && (WorkloadConfidence(Balanced, i) > 0.0 ==>
                  WorkloadConfidence(Balanced, i) + 0.012 * cpu + 0.2 * load == 1.0)
  {
  }

  // ---- what a decision carries --------------------------------------------------------------------

  /** A decision on valid telemetry carries the confidence of the candidate, held or not: 0.9 under
      light load, else what the readings give, and at least the configured minimum. Invalid
      telemetry is certain of its default. */
  lemma ConfidenceReported(c: Controls, s: PolicyState, i: Input)
    requires ValidControls(c)
    ensures var r := Evaluated(c, s, i).confidence;
            var light := Raw(i) == Balanced && i.cpu < 30.0 && i.runnable <= 1;
            var measured := if light then 0.9 else WorkloadConfidence(Raw(i), i);
            && (i.finite && measured >= c.minConfidence ==> r == measured)
            && (i.finite && measured < c.minConfidence ==> r == c.minConfidence)
            && (!i.finite ==> r == 1.0)
  {
    hide WorkloadConfidence, Output;
    RawIsCandidate(c, i);
    OutputConfidence(c, s, Candidate(c, i), i.current);
  }

  /** Holding a candidate keeps its confidence. */
  lemma OutputConfidence(c: Controls, s: PolicyState, cand: Decision, current: Profile)
    requires cand.confidence >= c.minConfidence
    ensures Output(c, s, cand, current).confidence == cand.confidence
  {
    hide CooldownReason, DwellReason, Evidence, KindOf;
  }

  /** The reasons of the candidates, which decisions that are not held carry. */
  lemma ReasonsTell(c: Controls, s: PolicyState, i: Input)
    ensures Raw(i) == Performance ==>
              Candidate(c, i).reason
              == Sentence(["Very", "high", "CPU", "utilisation", "with", "sustained", "runnable", "pressure"])
    ensures Raw(i) == Interactive ==>
              Candidate(c, i).reason
              == Sentence(["High", "runnable", "load", "with", "frequent", "context", "switches", "or",
                           "short-lived", "process", "activity"])
    ensures Raw(i) == Background ==>
              Candidate(c, i).reason
              == Sentence(["Very", "low", "CPU", "utilisation", "and", "runnable", "pressure", "with",
                           "minimal", "process", "activity"])
    ensures Raw(i) == Balanced ==>
              Candidate(c, i).reason
              == if i.cpu < 30.0 && i.runnable <= 1
                 then Sentence(["Low", "CPU", "utilisation", "and", "low", "runnable", "load"])
                 else Sentence(["Workload", "does", "not", "strongly", "match", "another", "profile"])
    ensures !i.finite ==>
              Evaluated(c, s, i).reason == Sentence(["Invalid", "telemetry;", "defaulting", "to", "balanced"])
  {
    hide WorkloadConfidence, Sentence, Output;
  }

  lemma NamesTell()
    ensures Name(Balanced) == "balanced" && Name(Interactive) == "interactive"
    ensures Name(Performance) == "performance" && Name(Background) == "background"
  {
  }

  /** A decision that is not held is the candidate with its reason; a held one says what holds it. */
  lemma HeldTexts(c: Controls, s: PolicyState, i: Input)
    requires i.finite
    ensures var d, a, raw := Evaluated(c, s, i), Incumbent(s, i.current), Raw(i);
            match KindOf(c, s, raw, i.current)
            case Agree => d == Candidate(c, i)
            case Accept => d == Candidate(c, i)
            case CooldownHold =>
              d.profile == a
              && d.reason == "Holding " + Name(a) + " during " + "profile-change " + "cooldown"
                             + "; candidate " + Name(raw)
            case DwellHold =>
              d.profile == a
              && d.reason == "Holding " + Name(a) + " until " + Name(raw) + " " + "consecutive samples"
                             + " support " + Name(raw) + "; " + Num(Evidence(s, raw)) + "/" + Num(c.dwell)
  {
    RawIsCandidate(c, i);
    var a, raw := Incumbent(s, i.current), Raw(i);
    CooldownText(Name(a), Name(raw));
    DwellText(Name(a), Name(raw), Num(Evidence(s, raw)), Num(c.dwell));
    hide Candidate, Raw, Cat, Name, Num, Evidence;
  }

  lemma CooldownText(a: string, b: string)
    ensures Cat(["Holding ", a, " during ", "profile-change ", "cooldown", "; candidate ", b])
         == "Holding " + a + " during " + "profile-change " + "cooldown" + "; candidate " + b
  {
    hide Cat;
    var parts := ["Holding ", a, " during ", "profile-change ", "cooldown", "; candidate ", b];
    CatFirst(parts);
    CatNext(parts, 1); CatNext(parts, 2); CatNext(parts, 3); CatNext(parts, 4); CatNext(parts, 5); CatNext(parts, 6);
    assert parts[..7] == parts;
  }

  lemma DwellText(a: string, b: string, m: string, n: string)
    ensures Cat(["Holding ", a, " until ", b, " ", "consecutive samples", " support ", b, "; ", m, "/", n])
         == "Holding " + a + " until " + b + " " + "consecutive samples" + " support " + b + "; " + m + "/" + n
  {
    hide Cat;
    var parts := ["Holding ", a, " until ", b, " ", "consecutive samples", " support ", b, "; ", m, "/", n];
    CatFirst(parts);
    CatNext(parts, 1); CatNext(parts, 2); CatNext(parts, 3); CatNext(parts, 4);
    CatNext(parts, 5); CatNext(parts, 6); CatNext(parts, 7); CatNext(parts, 8);
    CatNext(parts, 9); CatNext(parts, 10); CatNext(parts, 11);
    assert parts[..12] == parts;
  }

  lemma CatFirst(parts: seq<string>)
    requires parts != []
    ensures Cat(parts[..1]) == parts[0]
  {
    assert parts[..1] == [parts[0]];
    CatOne(parts[0]);
  }

  lemma CatNext(parts: seq<string>, k: nat)
    requires k < |parts|
    ensures Cat(parts[..k + 1]) == Cat(parts[..k]) + parts[k]
  {
    assert parts[..k + 1] == parts[..k] + [parts[k]];
    CatGrow(parts[..k], parts[k]);
  }
}
