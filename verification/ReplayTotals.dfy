/** What the report must show for every replayed file: the totals are tied to the policy's
    dwell and cooldown, and the transitions form one path. */
module ReplayTotals {
  import opened Types
  import opened Text
  import opened Policy
  import opened PolicyRuns
  import opened ReplayReport

  // ---- the transition table ----------------------------------------------------------------

  lemma NamesDiffer(a: Profile, b: Profile)
    requires a != b
    ensures |Name(a)| >= 3 && |Name(b)| >= 3 && (Name(a)[0] != Name(b)[0] || Name(a)[2] != Name(b)[2])
  {
  }

  lemma NamesInjective(a: Profile, b: Profile)
    ensures Name(a) == Name(b) ==> a == b
  {
    if a != b { NamesDiffer(a, b); }
  }

  lemma ArrowsInjective(a: Profile, b: Profile, c: Profile, d: Profile)
    ensures Arrow(a, b) == Arrow(c, d) ==> a == c && b == d
  {
    if Arrow(a, b) == Arrow(c, d) {
      assert Arrow(a, b)[0] == Name(a)[0] && Arrow(c, d)[0] == Name(c)[0];
      assert Arrow(a, b)[2] == Name(a)[2] && Arrow(c, d)[2] == Name(c)[2];
      if a != c { NamesDiffer(a, c); }
      var n := |Name(a)| + 4;
      assert Arrow(a, b)[n..] == Name(b) && Arrow(c, d)[n..] == Name(d);
      NamesInjective(b, d);
    }
  }

  function OutOf(m: map<string, nat>, x: Profile): nat {
    Get(m, Arrow(x, Balanced)) + Get(m, Arrow(x, Interactive))
    + Get(m, Arrow(x, Performance)) + Get(m, Arrow(x, Background))
  }

  function Into(m: map<string, nat>, x: Profile): nat {
    Get(m, Arrow(Balanced, x)) + Get(m, Arrow(Interactive, x))
    + Get(m, Arrow(Performance, x)) + Get(m, Arrow(Background, x))
  }

  function Total(m: map<string, nat>): nat {
    OutOf(m, Balanced) + OutOf(m, Interactive) + OutOf(m, Performance) + OutOf(m, Background)
  }

  function One(b: bool): nat { if b then 1 else 0 }

  lemma BumpArrow(m: map<string, nat>, a: Profile, b: Profile, x: Profile, y: Profile)
    ensures Get(Bump(m, Arrow(a, b)), Arrow(x, y)) == Get(m, Arrow(x, y)) + One(a == x && b == y)
  {
    ArrowsInjective(a, b, x, y);
    hide Arrow;
  }

  lemma BumpOut(m: map<string, nat>, a: Profile, b: Profile, x: Profile)
    ensures OutOf(Bump(m, Arrow(a, b)), x) == OutOf(m, x) + One(a == x)
  {
    BumpArrow(m, a, b, x, Balanced);
    BumpArrow(m, a, b, x, Interactive);
    BumpArrow(m, a, b, x, Performance);
    BumpArrow(m, a, b, x, Background);
    hide Arrow, Get, Bump;
  }

  lemma BumpInto(m: map<string, nat>, a: Profile, b: Profile, x: Profile)
    ensures Into(Bump(m, Arrow(a, b)), x) == Into(m, x) + One(b == x)
  {
    BumpArrow(m, a, b, Balanced, x);
    BumpArrow(m, a, b, Interactive, x);
    BumpArrow(m, a, b, Performance, x);
    BumpArrow(m, a, b, Background, x);
    hide Arrow, Get, Bump;
  }

  lemma BumpTotal(m: map<string, nat>, a: Profile, b: Profile)
    ensures Total(Bump(m, Arrow(a, b))) == Total(m) + 1
  {
    BumpOut(m, a, b, Balanced);
    BumpOut(m, a, b, Interactive);
    BumpOut(m, a, b, Performance);
    BumpOut(m, a, b, Background);
    hide Arrow, OutOf, Bump;
  }

  // ---- any decision file ------------------------------------------------------------------------

  function LastOf(previous: Option<Profile>, rs: seq<Record>): Option<Profile> {
    if rs == [] then previous else Some(rs[|rs| - 1].recommended)
  }

  lemma {:induction false} PathStep(rep: Report, a: Option<Profile>, r: Record, x: Profile)
    ensures var m, m' := rep.transitions, Add(rep, a, r).transitions;
            a.Some? ==> OutOf(m', x) + Into(m, x) + One(r.recommended == x)
                        == OutOf(m, x) + Into(m', x) + One(a == Some(x))
    ensures a.None? ==> Add(rep, a, r).transitions == rep.transitions
  {
    if a.Some? && a.value != r.recommended {
      BumpOut(rep.transitions, a.value, r.recommended, x);
      BumpInto(rep.transitions, a.value, r.recommended, x);
    }
    hide OutOf, Into, Bump, Contains, Arrow;
  }

  lemma {:induction false} PathFrom(rep: Report, a: Profile, rs: seq<Record>, x: Profile)
    ensures var m, m' := rep.transitions, AddAll(rep, Some(a), rs).transitions;
            OutOf(m', x) + Into(m, x) + One(LastOf(Some(a), rs) == Some(x))
            == OutOf(m, x) + Into(m', x) + One(a == x)
    decreases |rs|
  {
    if rs != [] {
      PathStep(rep, Some(a), rs[0], x);
      hide OutOf, Into, Add;
      PathFrom(Add(rep, Some(a), rs[0]), rs[0].recommended, rs[1..], x);
    }
  }

  lemma {:induction false} FirstAndLast(rep: Report, previous: Option<Profile>, rs: seq<Record>)
    ensures var rep' := AddAll(rep, previous, rs);
            && rep'.samples == rep.samples + |rs|
            && rep'.first == (if rep.first.None? && rs != [] then Some(rs[0].recommended) else rep.first)
            && rep'.last == (if rs != [] then Some(rs[|rs| - 1].recommended) else rep.last)
    decreases |rs|
  {
    if rs != [] {
      hide Bump, Contains;
      FirstAndLast(Add(rep, previous, rs[0]), Some(rs[0].recommended), rs[1..]);
    }
  }

  /** In every decision file the transitions form one path from the first recommendation to
      the last: for each profile, those out of it and those into it differ by its being the
      first and its being the last. */
  lemma {:induction false} TransitionsFormPath(rs: seq<Record>, x: Profile)
    ensures var rep := AddAll(EMPTY, None, rs);
            OutOf(rep.transitions, x) + One(rep.last == Some(x)) == Into(rep.transitions, x) + One(rep.first == Some(x))
    ensures AddAll(EMPTY, None, rs).samples == |rs|
  {
    hide OutOf, Into, Add;
    FirstAndLast(EMPTY, None, rs);
    EmptyTable(x);
    if rs != [] {
      PathStep(EMPTY, None, rs[0], x);
      PathFrom(Add(EMPTY, None, rs[0]), rs[0].recommended, rs[1..], x);
    }
  }

  lemma EmptyTable(x: Profile)
    ensures OutOf(map[], x) == 0 && Into(map[], x) == 0 && Total(map[]) == 0
  {
  }

  // ---- files written by the replay ----------------------------------------------------------------

  function CooldownHolds(c: Controls, s: PolicyState, ins: seq<Input>): nat
    decreases |ins|
  {
    if ins == [] then 0
    else One(ins[0].finite && KindOf(c, s, Raw(ins[0]), ins[0].current).CooldownHold?)
         + CooldownHolds(c, Step(c, s, ins[0]), ins[1..])
  }

  function DwellHolds(c: Controls, s: PolicyState, ins: seq<Input>): nat
    decreases |ins|
  {
    if ins == [] then 0
    else One(ins[0].finite && KindOf(c, s, Raw(ins[0]), ins[0].current).DwellHold?)
         + DwellHolds(c, Step(c, s, ins[0]), ins[1..])
  }

  lemma {:induction false} HoldStep(c: Controls, s: PolicyState, i: Input)
    requires ValidControls(c) && SInv(c, s)
    ensures var s' := Step(c, s, i);
            var cooled := One(i.finite && KindOf(c, s, Raw(i), i.current).CooldownHold?);
            var dwelt := One(i.finite && KindOf(c, s, Raw(i), i.current).DwellHold?);
            && cooled + s'.cooling <= (if Accepts(c, s, i) then c.cooldown else 0) + s.cooling
            && dwelt + s.count >= (if Accepts(c, s, i) then c.dwell - 1 else 0) + s'.count
  {
    hide Raw;
  }

  function Times(k: nat, n: nat): nat { k * n }

  lemma TimesNone(n: nat)
    ensures Times(0, n) == 0
  {
  }

  lemma TimesNext(k: nat, n: nat)
    ensures Times(k + 1, n) == Times(k, n) + n
  {
  }

  lemma HoldsOfNone(c: Controls, s: PolicyState)
    ensures CooldownHolds(c, s, []) == 0 && DwellHolds(c, s, []) == 0
  {
  }

  lemma HoldsUnfold(c: Controls, s: PolicyState, ins: seq<Input>)
    requires ins != []
    ensures var s1, rest := Step(c, s, ins[0]), ins[1..];
            && CooldownHolds(c, s, ins)
               == One(ins[0].finite && KindOf(c, s, Raw(ins[0]), ins[0].current).CooldownHold?)
                  + CooldownHolds(c, s1, rest)
            && DwellHolds(c, s, ins)
               == One(ins[0].finite && KindOf(c, s, Raw(ins[0]), ins[0].current).DwellHold?)
                  + DwellHolds(c, s1, rest)
  {
    hide Step, KindOf, Raw;
  }

  /** A change is followed by at most `cooldown` samples held in its cooldown. */
  lemma {:induction false} CooldownBound(c: Controls, s: PolicyState, ins: seq<Input>)
    requires ValidControls(c) && SInv(c, s)
    ensures CooldownHolds(c, s, ins) + RunState(c, s, ins).cooling
         <= Times(Changes(c, s, ins), c.cooldown) + s.cooling
    decreases |ins|
  {
    hide RunState, Changes, CooldownHolds, DwellHolds, Step, Accepts, SInv, KindOf, Raw, One, Times, ValidControls;
    if ins == [] {
      RunOfNone(c, s);
      HoldsOfNone(c, s);
      TimesNone(c.cooldown);
    } else {
      var s1 := Step(c, s, ins[0]);
      StepInv(c, s, ins[0]);
      HoldStep(c, s, ins[0]);
      RunUnfolds(c, s, ins);
      HoldsUnfold(c, s, ins);
      CooldownBound(c, s1, ins[1..]);
      var k := Changes(c, s1, ins[1..]);
      TimesNext(k, c.cooldown);
      assert Changes(c, s, ins) == if Accepts(c, s, ins[0]) then k + 1 else k;
    }
  }

  /** A change is preceded by `dwell - 1` samples held for evidence. */
  lemma {:induction false} DwellBound(c: Controls, s: PolicyState, ins: seq<Input>)
    requires ValidControls(c) && SInv(c, s) && c.dwell >= 1
    ensures DwellHolds(c, s, ins) + s.count
         >= Times(Changes(c, s, ins), c.dwell - 1) + RunState(c, s, ins).count
    decreases |ins|
  {
    hide RunState, Changes, CooldownHolds, DwellHolds, Step, Accepts, SInv, KindOf, Raw, One, Times, ValidControls;
    if ins == [] {
      RunOfNone(c, s);
      HoldsOfNone(c, s);
      TimesNone(c.dwell - 1);
    } else {
      var s1 := Step(c, s, ins[0]);
      StepInv(c, s, ins[0]);
      HoldStep(c, s, ins[0]);
      RunUnfolds(c, s, ins);
      HoldsUnfold(c, s, ins);
      DwellBound(c, s1, ins[1..]);
      var k := Changes(c, s1, ins[1..]);
      TimesNext(k, c.dwell - 1);
      assert Changes(c, s, ins) == if Accepts(c, s, ins[0]) then k + 1 else k;
    }
  }

  /** What the report adds up for the records a policy writes from state `s`. */
  lemma {:induction false} ReportFollowsPolicy(rep: Report, c: Controls, s: PolicyState, ins: seq<Input>)
    requires ValidControls(c) && s.accepted.Some? && AllValid(ins)
    ensures var rep' := AddAll(rep, s.accepted, Records(Outputs(c, s, ins)));
            && Total(rep'.transitions) == Total(rep.transitions) + Changes(c, s, ins)
            && rep'.cooldownHolds == rep.cooldownHolds + CooldownHolds(c, s, ins)
            && rep'.dwellHolds == rep.dwellHolds + DwellHolds(c, s, ins)
            && rep'.samples == rep.samples + |ins|
    decreases |ins|
  {
    if ins != [] {
      var d, s1 := Evaluated(c, s, ins[0]), Step(c, s, ins[0]);
      ReportStep(rep, c, s, ins[0]);
      hide Evaluated, Step, Add, Accepts, KindOf, Total;
      ReportFollowsPolicy(Add(rep, s.accepted, RecordOf(d)), c, s1, ins[1..]);
      RecordsCons(c, s, ins);
    }
  }

  lemma {:induction false} RecordsCons(c: Controls, s: PolicyState, ins: seq<Input>)
    requires ins != []
    ensures Records(Outputs(c, s, ins))
         == [RecordOf(Evaluated(c, s, ins[0]))] + Records(Outputs(c, Step(c, s, ins[0]), ins[1..]))
  {
    hide Evaluated, Step;
    var d, ds := Evaluated(c, s, ins[0]), Outputs(c, Step(c, s, ins[0]), ins[1..]);
    assert ([d] + ds)[1..] == ds;
  }

  lemma {:induction false} ReportStep(rep: Report, c: Controls, s: PolicyState, i: Input)
    requires ValidControls(c) && s.accepted.Some? && i.finite
    ensures var r := RecordOf(Evaluated(c, s, i));
            var rep' := Add(rep, s.accepted, r);
            && Some(r.recommended) == Step(c, s, i).accepted
            && Total(rep'.transitions) == Total(rep.transitions) + One(Accepts(c, s, i))
            && rep'.cooldownHolds == rep.cooldownHolds + One(KindOf(c, s, Raw(i), i.current).CooldownHold?)
            && rep'.dwellHolds == rep.dwellHolds + One(KindOf(c, s, Raw(i), i.current).DwellHold?)
            && rep'.samples == rep.samples + 1
  {
    DecisionSound(c, s, i);
    HoldsRecognised(c, s, i);
    ChangeIsAccept(c, s, i);
    var r := RecordOf(Evaluated(c, s, i));
    if s.accepted.value != r.recommended { BumpTotal(rep.transitions, s.accepted.value, r.recommended); }
    hide Evaluated, Step, Accepts, KindOf, Total, Contains, Bump, Arrow;
  }

  lemma {:induction false} ChangeIsAccept(c: Controls, s: PolicyState, i: Input)
    requires s.accepted.Some? && i.finite
    ensures Step(c, s, i).accepted.Some?
    ensures Accepts(c, s, i) <==> Step(c, s, i).accepted != s.accepted
  {
    hide Raw;
  }

  lemma {:induction false} InputsValid(previous: Option<Snapshot>, lines: seq<Line<Snapshot>>)
    ensures AllValid(Inputs(previous, lines))
    decreases |lines|
  {
    if lines != [] && lines[0].Parsed? { InputsValid(Some(lines[0].value), lines[1..]); }
    if lines != [] && lines[0].Blank? { InputsValid(previous, lines[1..]); }
  }

  /** The totals of a run of a fresh policy, whose first record has no predecessor: a change at
      the very first sample shows in no transition. */
  lemma {:induction false} RunTotals(c: Controls, ins: seq<Input>)
    requires ValidControls(c) && AllValid(ins)
    ensures var rep := AddAll(EMPTY, None, Records(Outputs(c, FRESH, ins)));
            && Total(rep.transitions) + One(ins != [] && Accepts(c, FRESH, ins[0])) == Changes(c, FRESH, ins)
            && rep.cooldownHolds == CooldownHolds(c, FRESH, ins)
            && rep.dwellHolds == DwellHolds(c, FRESH, ins)
            && rep.samples == |ins|
  {
    hide Outputs, AddAll, Total, Records, Step, Evaluated, Accepts, Add, KindOf, ValidControls, RunState,
      Changes, CooldownHolds, DwellHolds, Raw;
    EmptyTable(Balanced);
    if ins == [] {
      NoTotals(c);
    } else {
      RunUnfolds(c, FRESH, ins);
      HoldsUnfold(c, FRESH, ins);
      var d, s1 := Evaluated(c, FRESH, ins[0]), Step(c, FRESH, ins[0]);
      var rep1 := Add(EMPTY, None, RecordOf(d));
      FirstRecord(c, ins[0]);
      RecordsCons(c, FRESH, ins);
      AddFirst(RecordOf(d), Records(Outputs(c, s1, ins[1..])));
      ReportFollowsPolicy(rep1, c, s1, ins[1..]);
    }
  }

  lemma NoTotals(c: Controls)
    ensures AddAll(EMPTY, None, Records(Outputs(c, FRESH, []))) == EMPTY
    ensures Changes(c, FRESH, []) == 0 && CooldownHolds(c, FRESH, []) == 0 && DwellHolds(c, FRESH, []) == 0
  {
  }

  lemma {:induction false} FirstRecord(c: Controls, i: Input)
    requires ValidControls(c) && i.finite
    ensures var r := RecordOf(Evaluated(c, FRESH, i)); var rep := Add(EMPTY, None, r);
            && Some(r.recommended) == Step(c, FRESH, i).accepted && rep.transitions == map[] && rep.samples == 1
            && rep.cooldownHolds == One(KindOf(c, FRESH, Raw(i), i.current).CooldownHold?)
            && rep.dwellHolds == One(KindOf(c, FRESH, Raw(i), i.current).DwellHold?)
  {
    DecisionSound(c, FRESH, i);
    HoldsRecognised(c, FRESH, i);
    hide Evaluated, Step, KindOf, Contains, Bump, Raw;
  }

  lemma AddFirst(r: Record, rs: seq<Record>)
    ensures AddAll(EMPTY, None, [r] + rs) == AddAll(Add(EMPTY, None, r), Some(r.recommended), rs)
  {
    hide Add;
    assert ([r] + rs)[1..] == rs;
  }

  lemma NoChangeAtOnce(c: Controls, i: Input)
    requires c.dwell >= 2
    ensures !Accepts(c, FRESH, i)
  {
    hide Raw;
  }

  /** For every telemetry file the report of its replay shows at most (samples + 5) / 8
      transitions, at least two dwell holds for each of them, and at most five cooldown holds
      for each. */
  lemma {:induction false} ReplayTheorem(lines: seq<Line<Snapshot>>)
    ensures var rep := AddAll(EMPTY, None, Replayed(lines));
            var transitions := Total(rep.transitions);
            && 8 * transitions <= rep.samples + 5
            && rep.dwellHolds >= 2 * transitions
            && rep.cooldownHolds <= 5 * transitions
  {
    hide Outputs, Changes, RunState, CooldownHolds, DwellHolds, AddAll, Total, Inputs, ValidSamples;
    var ins := Inputs(None, lines);
    InputsValid(None, lines);
    AllValidCount(ins);
    if ins != [] { NoChangeAtOnce(DEFAULTS, ins[0]); }
    RunTotals(DEFAULTS, ins);
    RateBound(DEFAULTS, ins);
    CooldownBound(DEFAULTS, FRESH, ins);
    DwellBound(DEFAULTS, FRESH, ins);
  }
}
