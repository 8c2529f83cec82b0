/** The user-space loop of main.rs on top of the BPF object. Between any two of its calls the
    kernel may do anything. What the loop does is decided by those events and by which ring calls
    fail, and it is one of the runs `Pipeline` describes. */
module Scheduler {
  import opened Types
  import opened Kernel
  import opened TaskOrder
  import opened Pipeline
  import opened PipelineSafety
  import opened BpfBackend

  /** The kernel events before one call, and whether the ring operation of the call fails. */
  datatype Turn = Turn(before: seq<Event>, fail: bool)

  function Kerns(es: seq<Event>): seq<PEvent> {
    if es == [] then [] else [Kern(es[0])] + Kerns(es[1..])
  }

  /** The next turn; with none left, nothing interferes and nothing fails. */
  function Head(env: seq<Turn>): Turn {
    if env == [] then Turn([], false) else env[0]
  }

  function Rest(env: seq<Turn>): seq<Turn> {
    if env == [] then [] else env[1..]
  }

  // ---- the run the environment decides -------------------------------------------------------

  /** The kernel events of a turn, then the user call it is for. */
  function Turned(s: PState, t: Turn): PState {
    UserStep(s.(k := Steps(s.k, t.before)), t.fail)
  }

  /** The collecting loop: one turn for each ring call, until the batch is closed. */
  function Collected(s: PState, env: seq<Turn>): (PState, seq<Turn>)
    requires s.phase.Collecting?
    decreases MAX_BATCH - |s.batch|
  {
    if |s.batch| >= MAX_BATCH then (CloseBatch(s), env)
    else
      var s1 := Turned(s, Head(env));
      if s1.phase.Collecting? then Collected(s1, Rest(env)) else (s1, Rest(env))
  }

  /** The sending loop: one turn for each task. */
  function Submitted(s: PState, env: seq<Turn>): (PState, seq<Turn>)
    requires s.phase.Sending?
    decreases |s.outgoing|
  {
    if s.outgoing == [] then (s, env) else Submitted(Turned(s, Head(env)), Rest(env))
  }

  /** One cycle: collect, send, and complete. */
  function Cycle(s: PState, env: seq<Turn>): PState
    requires s.phase.Collecting?
  {
    CollectedCloses(s, env);
    var (s1, env1) := Collected(s, env);
    var (s2, env2) := Submitted(s1, env1);
    Turned(s2, Head(env2))
  }

  lemma {:induction false} CollectedCloses(s: PState, env: seq<Turn>)
    requires s.phase.Collecting?
    ensures Collected(s, env).0.phase.Sending?
    decreases MAX_BATCH - |s.batch|
  {
    hide Steps, OrderTasks;
    if |s.batch| < MAX_BATCH {
      var s1 := Turned(s, Head(env));
      if s1.phase.Collecting? { CollectedCloses(s1, Rest(env)); }
    }
  }

  lemma {:induction false} SubmittedEnds(s: PState, env: seq<Turn>)
    requires s.phase.Sending?
    ensures var s1 := Submitted(s, env).0;
            s1.phase.Sending? && s1.outgoing == [] && s1.stats.progressSequence == s.stats.progressSequence
    decreases |s.outgoing|
  {
    hide Steps;
    if s.outgoing != [] { SubmittedEnds(Turned(s, Head(env)), Rest(env)); }
  }

  lemma {:induction false} CollectedCounts(s: PState, env: seq<Turn>)
    requires s.phase.Collecting?
    ensures Collected(s, env).0.stats.progressSequence == s.stats.progressSequence
    decreases MAX_BATCH - |s.batch|
  {
    hide Steps, OrderTasks;
    if |s.batch| < MAX_BATCH {
      var s1 := Turned(s, Head(env));
      if s1.phase.Collecting? { CollectedCounts(s1, Rest(env)); }
    }
  }

  lemma {:induction false} CycleProgress(s: PState, env: seq<Turn>)
    requires s.phase.Collecting?
    ensures Cycle(s, env).phase.Collecting?
    ensures Cycle(s, env).stats.progressSequence == s.stats.progressSequence + 1
  {
    hide Steps, OrderTasks, Collected, Submitted;
    CollectedCloses(s, env);
    CollectedCounts(s, env);
    var (s1, env1) := Collected(s, env);
    SubmittedEnds(s1, env1);
  }

  function Cycles(s: PState, cycles: seq<seq<Turn>>): PState
    requires s.phase.Collecting?
    decreases |cycles|
  {
    if cycles == [] then s
    else
      CycleProgress(s, cycles[0]);
      Cycles(Cycle(s, cycles[0]), cycles[1..])
  }

  // ---- it is a run of the pipeline -------------------------------------------------------------

  lemma {:induction false} PStepsKerns(s: PState, es: seq<Event>)
    ensures PSteps(s, Kerns(es)) == s.(k := Steps(s.k, es))
    decreases |es|
  {
    if es != [] {
      hide Step;
      assert ([Kern(es[0])] + Kerns(es[1..]))[1..] == Kerns(es[1..]);
      PStepsKerns(s.(k := Step(s.k, es[0])), es[1..]);
    }
  }

  /** The events of a turn. */
  function Moves(t: Turn): seq<PEvent> {
    Kerns(t.before) + [User(t.fail)]
  }

  lemma {:induction false} TurnIsRun(s: PState, t: Turn)
    ensures PSteps(s, Moves(t)) == Turned(s, t)
  {
    hide UserStep;
    PStepsConcat(s, Kerns(t.before), [User(t.fail)]);
    PStepsKerns(s, t.before);
    var s1 := s.(k := Steps(s.k, t.before));
    assert PSteps(s1, [User(t.fail)]) == PStep(s1, User(t.fail)) by { assert [User(t.fail)][1..] == []; }
  }

  lemma {:induction false} CollectedIsRun(s: PState, env: seq<Turn>) returns (trace: seq<PEvent>)
    requires s.phase.Collecting?
    ensures PSteps(s, trace) == Collected(s, env).0
    decreases MAX_BATCH - |s.batch|
  {
    if |s.batch| >= MAX_BATCH {
      trace := [User(false)];
      assert [User(false)][1..] == [];
    } else {
      hide Steps, OrderTasks, PSteps;
      var s1 := Turned(s, Head(env));
      trace := Moves(Head(env));
      TurnIsRun(s, Head(env));
      if s1.phase.Collecting? {
        var rest := CollectedIsRun(s1, Rest(env));
        PStepsConcat(s, trace, rest);
        trace := trace + rest;
      }
    }
  }

  lemma {:induction false} SubmittedIsRun(s: PState, env: seq<Turn>) returns (trace: seq<PEvent>)
    requires s.phase.Sending?
    ensures PSteps(s, trace) == Submitted(s, env).0
    decreases |s.outgoing|
  {
    trace := [];
    if s.outgoing != [] {
      hide Steps, PSteps;
      TurnIsRun(s, Head(env));
      var rest := SubmittedIsRun(Turned(s, Head(env)), Rest(env));
      trace := Moves(Head(env));
      PStepsConcat(s, trace, rest);
      trace := trace + rest;
    }
  }

  lemma {:induction false} CycleIsRun(s: PState, env: seq<Turn>) returns (trace: seq<PEvent>)
    requires s.phase.Collecting?
    ensures PSteps(s, trace) == Cycle(s, env)
  {
    hide PSteps, Collected, Submitted, Turned;
    CollectedCloses(s, env);
    var (s1, env1) := Collected(s, env);
    var (s2, env2) := Submitted(s1, env1);
    var t1 := CollectedIsRun(s, env);
    var t2 := SubmittedIsRun(s1, env1);
    PStepsConcat(s, t1, t2);
    TurnIsRun(s2, Head(env2));
    PStepsConcat(s, t1 + t2, Moves(Head(env2)));
    trace := t1 + t2 + Moves(Head(env2));
  }

  /** Whatever the environment decides, the loop stays among the reachable states. */
  lemma {:induction false} CyclesReachable(s: PState, cycles: seq<seq<Turn>>)
    requires Reachable(s) && s.phase.Collecting?
    ensures Reachable(Cycles(s, cycles)) && Cycles(s, cycles).phase.Collecting?
    ensures Cycles(s, cycles).stats.progressSequence == s.stats.progressSequence + |cycles|
    decreases |cycles|
  {
    hide Cycle, PSteps, Reachable;
    if cycles != [] {
      var trace := CycleIsRun(s, cycles[0]);
      CycleProgress(s, cycles[0]);
      ReachableSteps(s, trace);
      CyclesReachable(Cycle(s, cycles[0]), cycles[1..]);
    }
  }

  class Sched {
    const profile: Profile
    const bpf: Bpf
    var stats: Stats
    ghost var batches: seq<seq<QueuedTask>>
    ghost var attempts: seq<Attempt>

    /** The pipeline state, given where the loop is. */
    ghost function View(phase: Phase, batch: seq<QueuedTask>, outgoing: seq<QueuedTask>): PState
      reads this, bpf
    {
      PState(bpf.View(), profile, phase, batch, outgoing, stats, batches, attempts)
    }

    constructor (cfg: Config, profile: Profile)
      ensures fresh(bpf) && View(Collecting, [], []) == InitState(cfg, profile)
    {
      this.profile := profile;
      bpf := new Bpf(cfg);
      stats := InitStats();
      batches, attempts := [], [];
    }

    /** `order_tasks`: only Interactive reorders, in place. */
    method OrderBatch(tasks: seq<QueuedTask>) returns (ordered: seq<QueuedTask>)
      ensures ordered == OrderTasks(profile, tasks)
    {
      match profile
      case Interactive =>
        var a := new QueuedTask[|tasks|](i requires 0 <= i < |tasks| => tasks[i]);
        assert a[..] == tasks;
        RescueStarvedTasks(a);
        return a[..];
      case _ => return tasks;
    }

    /** What the kernel does before the next call of the loop. */
    method Interfere(turn: Turn)
      modifies bpf
      ensures bpf.View() == Steps(old(bpf.View()), turn.before)
    {
      bpf.DeliverAll(turn.before);
    }

    /** The collecting loop, up to the call that ended it; closing the batch is what the loop
        does next. */
    method CollectBatch(env: seq<Turn>) returns (tasks: seq<QueuedTask>, rest: seq<Turn>)
      modifies bpf, this`stats
      ensures (CloseBatch(View(Collecting, tasks, [])), rest) == Collected(old(View(Collecting, [], [])), env)
    {
      ghost var s0 := View(Collecting, [], []);
      tasks, rest := [], env;
      hide Steps, OrderTasks;
      while true
        invariant |tasks| <= MAX_BATCH
        invariant Collected(s0, env) == Collected(View(Collecting, tasks, []), rest)
        decreases MAX_BATCH - |tasks|
      {
        if |tasks| >= MAX_BATCH { return; }
        var turn := Head(rest);
        rest := Rest(rest);
        Interfere(turn);
        var ok, next := bpf.DequeueTask(turn.fail);
        if !ok {
          stats := stats.(dequeueErrors := stats.dequeueErrors + 1);
          return;
        }
        if next.None? { return; }
        tasks := tasks + [next.value];
      }
    }

    /** The bookkeeping between the loops. */
    method RecordBatch(n: nat)
      modifies this`stats
      ensures stats == CountBatch(old(stats), n)
    {
      stats := stats.(tasksDequeued := stats.tasksDequeued + n);
      if n > 0 {
        stats := stats.(batchesProcessed := stats.batchesProcessed + 1);
        if stats.maxBatchSize < n { stats := stats.(maxBatchSize := n); }
        stats := stats.(avgBatchSize := stats.tasksDequeued as real / stats.batchesProcessed as real);
      }
    }

    /** The sending loop: every ordered task is submitted once, and counted as dispatched or
        as an error. */
    method SendBatch(ordered: seq<QueuedTask>, env: seq<Turn>) returns (rest: seq<Turn>)
      modifies bpf, this`stats, this`attempts
      ensures (View(Sending, [], []), rest) == Submitted(old(View(Sending, [], ordered)), env)
    {
      ghost var s0 := View(Sending, [], ordered);
      var j := 0;
      rest := env;
      hide Steps;
      assert ordered[0..] == ordered;
      while j < |ordered|
        invariant 0 <= j <= |ordered|
        invariant Submitted(s0, env) == Submitted(View(Sending, [], ordered[j..]), rest)
      {
        var turn := Head(rest);
        rest := Rest(rest);
        Interfere(turn);
        var ok := bpf.DispatchTask(NewDispatch(ordered[j]), turn.fail);
        attempts := attempts + [Attempt(ordered[j], ok)];
        if !ok {
          stats := stats.(dispatchErrors := stats.dispatchErrors + 1);
        } else {
          stats := stats.(tasksDispatched := stats.tasksDispatched + 1);
        }
        assert ordered[j..][1..] == ordered[j + 1..];
        j := j + 1;
      }
    }

    /** `dispatch_tasks`: one scheduling cycle, exactly as the environment decides it. */
    method DispatchTasks(env: seq<Turn>)
      modifies bpf, this`stats, this`batches, this`attempts
      ensures View(Collecting, [], []) == Cycle(old(View(Collecting, [], [])), env)
    {
      hide Steps, OrderTasks, Collected, Submitted;
      var tasks, rest := CollectBatch(env);
      RecordBatch(|tasks|);
      var ordered := OrderBatch(tasks);
      batches := batches + [tasks];
      rest := SendBatch(ordered, rest);
      Interfere(Head(rest));
      bpf.NotifyCompletion(0);
      stats := stats.(progressSequence := stats.progressSequence + 1);
    }

    /** The run loop: cycles until the scheduler exits, one environment for each cycle. */
    method Run(cycles: seq<seq<Turn>>)
      modifies bpf, this`stats, this`batches, this`attempts
      ensures View(Collecting, [], []) == Cycles(old(View(Collecting, [], [])), cycles)
    {
      ghost var s0 := View(Collecting, [], []);
      hide Cycle;
      assert cycles[0..] == cycles;
      for i := 0 to |cycles|
        invariant Cycles(s0, cycles) == Cycles(View(Collecting, [], []), cycles[i..])
      {
        assert cycles[i..][1..] == cycles[i + 1..];
        DispatchTasks(cycles[i]);
      }
      assert cycles[|cycles|..] == [];
    }
  }
}
