/** What the offline tools make of a file, line by line: the readings the policy is given, the records
    written, and the tables of the report. */
module ReplayFile {
  import opened Types
  import opened Text
  import opened Policy
  import opened PolicyRuns
  import opened ReplayReport
  import opened ReplayTotals

  // ---- the readings --------------------------------------------------------------------------------

  /** The snapshots of a file, up to a line that does not parse. */
  function Snapshots(lines: seq<Line<Snapshot>>): seq<Snapshot> {
    if lines == [] || lines[0].Malformed? then []
    else (if lines[0].Parsed? then [lines[0].value] else []) + Snapshots(lines[1..])
  }

  /** The rate times the time that passed is the number of switches, per thousand milliseconds; a
      clock or a counter that went back gives zero. */
  lemma SwitchRateExactly(before: Snapshot, s: Snapshot)
    ensures SwitchRate(None, s) == 0.0
    ensures before.timestampMs < s.timestampMs && before.contextSwitches <= s.contextSwitches ==>
              SwitchRate(Some(before), s) * (s.timestampMs - before.timestampMs) as real
              == 1000.0 * (s.contextSwitches - before.contextSwitches) as real
    ensures s.timestampMs <= before.timestampMs || s.contextSwitches <= before.contextSwitches ==>
              SwitchRate(Some(before), s) == 0.0
  {
    if before.timestampMs < s.timestampMs && before.contextSwitches <= s.contextSwitches {
      var n, ms := (s.contextSwitches - before.contextSwitches) as real, (s.timestampMs - before.timestampMs) as real;
      PerSecond(n, ms);
    } else if before.timestampMs < s.timestampMs {
      ZeroQuotient((s.timestampMs - before.timestampMs) as real / 1000.0);
    }
  }

  lemma PerSecond(n: real, ms: real)
    requires ms > 0.0
    ensures n / (ms / 1000.0) * ms == 1000.0 * n
    ensures n == 0.0 ==> n / (ms / 1000.0) == 0.0
  {
    var q := n / (ms / 1000.0);
    assert q * (ms / 1000.0) == n;
    assert q * ms == 1000.0 * (q * (ms / 1000.0));
  }

  lemma ZeroQuotient(d: real)
    requires d > 0.0
    ensures 0.0 / d == 0.0
  {
  }

  /** The clock advances and the counter does not go back. */
  predicate Advances(before: Snapshot, s: Snapshot) {
    before.timestampMs < s.timestampMs && before.contextSwitches <= s.contextSwitches
  }

  /** The rate weighted with its time. */
  function RateTime(before: Snapshot, s: Snapshot): real {
    SwitchRate(Some(before), s) * (s.timestampMs - before.timestampMs) as real
  }

  /** The rates of a recording, each weighted with its time. */
  function Weighted(ss: seq<Snapshot>): real {
    if |ss| < 2 then 0.0
    else Weighted(ss[..|ss| - 1]) + RateTime(ss[|ss| - 2], ss[|ss| - 1])
  }

  /** Over a recording whose clock advances and whose counter does not go back, the rates account for
      every context switch. */
  lemma {:induction false} RatesAddUp(ss: seq<Snapshot>)
    requires ss != [] && forall i :: 1 <= i < |ss| ==> Advances(ss[i - 1], ss[i])
    ensures Weighted(ss) == 1000.0 * (ss[|ss| - 1].contextSwitches - ss[0].contextSwitches) as real
  {
    hide RateTime, Advances;
    if |ss| >= 2 {
      var n := |ss| - 1;
      var init := ss[..n];
      forall i | 1 <= i < |init| ensures Advances(init[i - 1], init[i]) {
        assert Advances(ss[i - 1], ss[i]);
      }
      RatesAddUp(init);
      assert Advances(ss[n - 1], ss[n]);
      RateTimeExactly(ss[n - 1], ss[n]);
    }
  }

  lemma RateTimeExactly(before: Snapshot, s: Snapshot)
    requires Advances(before, s)
    ensures RateTime(before, s) == 1000.0 * (s.contextSwitches - before.contextSwitches) as real
  {
    hide SwitchRate;
    SwitchRateExactly(before, s);
  }

  /** The policy input `i` has the readings of snapshot `s`, which followed `before`. */
  predicate Carries(i: Input, before: Option<Snapshot>, s: Snapshot) {
    && i.finite && i.cpu == s.cpu && i.load == s.load && i.runnable == s.runnable && i.shortLived == 0.0
    && i.switchRate == SwitchRate(before, s)
    && (s.profile.Some? ==> i.current == s.profile.value) && (s.profile.None? ==> i.current == Balanced)
  }

  lemma {:induction false} InputsFollow(previous: Option<Snapshot>, lines: seq<Line<Snapshot>>, j: nat)
    ensures |Inputs(previous, lines)| == |Snapshots(lines)|
    ensures j < |Snapshots(lines)| ==>
              Carries(Inputs(previous, lines)[j], if j == 0 then previous else Some(Snapshots(lines)[j - 1]),
                      Snapshots(lines)[j])
    decreases |lines|
  {
    hide Carries, InputOf, Inputs, Snapshots;
    LinesStep(previous, lines);
    if lines != [] && !lines[0].Malformed? {
      if lines[0].Blank? {
        InputsFollow(previous, lines[1..], j);
      } else {
        var s := lines[0].value;
        FirstCarries(previous, s);
        InputsFollow(Some(s), lines[1..], if j == 0 then 0 else j - 1);
        Prepended(InputOf(previous, s), Inputs(Some(s), lines[1..]), j);
        Prepended(s, Snapshots(lines[1..]), j);
        if j > 0 { Prepended(s, Snapshots(lines[1..]), j - 1); }
      }
    }
  }

  /** What the first line adds. */
  lemma LinesStep(previous: Option<Snapshot>, lines: seq<Line<Snapshot>>)
    ensures lines == [] || lines[0].Malformed? ==> Inputs(previous, lines) == [] && Snapshots(lines) == []
    ensures lines != [] && lines[0].Blank? ==>
              Inputs(previous, lines) == Inputs(previous, lines[1..]) && Snapshots(lines) == Snapshots(lines[1..])
    ensures lines != [] && lines[0].Parsed? ==>
              var s := lines[0].value;
              && Inputs(previous, lines) == [InputOf(previous, s)] + Inputs(Some(s), lines[1..])
              && Snapshots(lines) == [s] + Snapshots(lines[1..])
  {
    hide InputOf;
    if lines != [] { assert [] + Snapshots(lines[1..]) == Snapshots(lines[1..]); }
  }

  lemma Prepended<T>(x: T, xs: seq<T>, j: nat)
    ensures |[x] + xs| == |xs| + 1 && ([x] + xs)[0] == x
    ensures 0 < j <= |xs| ==> ([x] + xs)[j] == xs[j - 1]
  {
  }

  lemma FirstCarries(previous: Option<Snapshot>, s: Snapshot)
    ensures Carries(InputOf(previous, s), previous, s)
  {
    hide SwitchRate;
  }

  // ---- the records ---------------------------------------------------------------------------------

  lemma {:induction false} OutputsAt(c: Controls, s: PolicyState, ins: seq<Input>, j: nat)
    requires j < |ins|
    ensures |Outputs(c, s, ins)| == |ins|
    ensures Outputs(c, s, ins)[j] == Evaluated(c, RunState(c, s, ins[..j]), ins[j])
    decreases |ins|
  {
    hide Evaluated, Step;
    OutputsLength(c, s, ins);
    if j > 0 {
      OutputsAt(c, Step(c, s, ins[0]), ins[1..], j - 1);
      assert ins[..j][1..] == ins[1..][..j - 1];
    }
  }

  lemma {:induction false} OutputsLength(c: Controls, s: PolicyState, ins: seq<Input>)
    ensures |Outputs(c, s, ins)| == |ins|
    decreases |ins|
  {
    if ins != [] {
      hide Evaluated, Step;
      OutputsLength(c, Step(c, s, ins[0]), ins[1..]);
    }
  }

  lemma {:induction false} RecordsAt(ds: seq<Decision>, j: nat)
    ensures |Records(ds)| == |ds|
    ensures j < |ds| ==>
              var r := Records(ds)[j];
              r.recommended == ds[j].profile && r.confidence == ds[j].confidence && r.reason == ds[j].reason
  {
    if ds != [] { RecordsAt(ds[1..], if j == 0 then 0 else j - 1); }
  }

  /** The replay writes one record for each snapshot, in order: the decision of a policy with the
      default settings that was given the snapshots before it, on the readings of this one. */
  lemma {:induction false} RecordOfSnapshot(lines: seq<Line<Snapshot>>, j: nat)
    requires j < |Snapshots(lines)|
    ensures |Replayed(lines)| == |Snapshots(lines)| == |Inputs(None, lines)|
    ensures var ins, ss, r := Inputs(None, lines), Snapshots(lines), Replayed(lines)[j];
            var d := Evaluated(Controls(0.60, 3, 5), RunState(Controls(0.60, 3, 5), FRESH, ins[..j]), ins[j]);
            && Carries(ins[j], if j == 0 then None else Some(ss[j - 1]), ss[j])
            && r.recommended == d.profile && r.confidence == d.confidence && r.reason == d.reason
  {
    hide Evaluated, RunState, Outputs, Inputs, Snapshots, Records, Carries;
    InputsFollow(None, lines, j);
    OutputsAt(DEFAULTS, FRESH, Inputs(None, lines), j);
    RecordsAt(Outputs(DEFAULTS, FRESH, Inputs(None, lines)), j);
  }

  // ---- the tables of the report ----------------------------------------------------------------------

  /** How many records recommend `x`. */
  function Chosen(rs: seq<Record>, x: Profile): nat {
    if rs == [] then 0 else One(rs[0].recommended == x) + Chosen(rs[1..], x)
  }

  /** How often a recommendation of `x` is followed by one of `y`. */
  function Pairs(previous: Option<Profile>, rs: seq<Record>, x: Profile, y: Profile): nat
    decreases |rs|
  {
    if rs == [] then 0
    else One(previous == Some(x) && rs[0].recommended == y) + Pairs(Some(rs[0].recommended), rs[1..], x, y)
  }

  /** How many reasons contain the text. */
  function Saying(rs: seq<Record>, text: string): nat {
    if rs == [] then 0 else One(Contains(rs[0].reason, text)) + Saying(rs[1..], text)
  }

  lemma AddCounts(rep: Report, previous: Option<Profile>, r: Record, x: Profile, y: Profile)
    ensures var rep' := Add(rep, previous, r);
            && Get(rep'.recommendationCounts, Name(x))
               == Get(rep.recommendationCounts, Name(x)) + One(r.recommended == x)
            && Get(rep'.transitions, Arrow(x, y))
               == Get(rep.transitions, Arrow(x, y)) + One(x != y && previous == Some(x) && r.recommended == y)
            && rep'.dwellHolds == rep.dwellHolds + One(Contains(r.reason, "consecutive samples"))
            && rep'.cooldownHolds == rep.cooldownHolds + One(Contains(r.reason, "cooldown"))
  {
    NamesInjective(r.recommended, x);
    if previous.Some? { BumpArrow(rep.transitions, previous.value, r.recommended, x, y); }
    hide Name, Arrow, Contains;
  }

  lemma {:induction false} AddAllCounts(rep: Report, previous: Option<Profile>, rs: seq<Record>, x: Profile, y: Profile)
    ensures var rep' := AddAll(rep, previous, rs);
            && Get(rep'.recommendationCounts, Name(x)) == Get(rep.recommendationCounts, Name(x)) + Chosen(rs, x)
            && Get(rep'.transitions, Arrow(x, y))
               == Get(rep.transitions, Arrow(x, y)) + (if x != y then Pairs(previous, rs, x, y) else 0)
            && rep'.dwellHolds == rep.dwellHolds + Saying(rs, "consecutive samples")
            && rep'.cooldownHolds == rep.cooldownHolds + Saying(rs, "cooldown")
    decreases |rs|
  {
    if rs != [] {
      hide Add, Name, Arrow, Contains, Get;
      AddCounts(rep, previous, rs[0], x, y);
      AddAllCounts(Add(rep, previous, rs[0]), Some(rs[0].recommended), rs[1..], x, y);
    }
  }

  lemma {:induction false} ChosenAll(rs: seq<Record>)
    ensures Chosen(rs, Balanced) + Chosen(rs, Interactive) + Chosen(rs, Performance) + Chosen(rs, Background) == |rs|
  {
    if rs != [] { ChosenAll(rs[1..]); }
  }

  /** The tables of a report, for every decision file: each profile is counted once for each record
      that recommends it, and the four counts make up the samples; each arrow is counted once for each
      change from its one end to its other; the holds are the reasons that say so. */
  lemma {:induction false} TablesExactly(rs: seq<Record>, x: Profile, y: Profile)
    ensures var rep := AddAll(EMPTY, None, rs);
            && Get(rep.recommendationCounts, Name(x)) == Chosen(rs, x)
            && Get(rep.transitions, Name(x) + " -> " + Name(y)) == (if x != y then Pairs(None, rs, x, y) else 0)
            && rep.dwellHolds == Saying(rs, "consecutive samples") && rep.cooldownHolds == Saying(rs, "cooldown")
            && rep.samples == |rs|
            && Chosen(rs, Balanced) + Chosen(rs, Interactive) + Chosen(rs, Performance) + Chosen(rs, Background) == |rs|
            && rep.first == (if rs == [] then None else Some(rs[0].recommended))
            && rep.last == (if rs == [] then None else Some(rs[|rs| - 1].recommended))
  {
    AddAllCounts(EMPTY, None, rs, x, y);
    FirstAndLast(EMPTY, None, rs);
    ChosenAll(rs);
    hide AddAll, Name, Chosen, Pairs, Saying;
  }
}
