# Verified model of CerynthOS

CerynthOS schedules Linux tasks with a sched_ext scheduler split between BPF and user space, recommends
scheduling profiles from telemetry, and supervises the scheduler process with a daemon. This project models
the stateful cores of that system in Dafny and proves what its design promises of them, over every run.

| part | files |
|---|---|
| shared types, sequence facts, texts | `Types.dfy`, `SeqFacts.dfy`, `Text.dfy` |
| the two-sided scheduling pipeline | `TaskOrder.dfy`, `Kernel.dfy`, `KernelInvariant.dfy`, `DrainProgress.dfy`, `Pipeline.dfy`, `PipelineInvariant.dfy`, `PipelineSafety.dfy`, `PipelineOrder.dfy`, `EnqueueOutcomes.dfy`, `Placement.dfy`, `TaskTimes.dfy`, `LostRecords.dfy`, `TrailingRecord.dfy`, `GenerationOrder.dfy`, `HandOffProgress.dfy`, `SchedulerWakeup.dfy`, and the code itself in `BpfBackend.dfy` and `Scheduler.dfy` |
| the adaptive policy and its offline tools | `Policy.dfy`, `PolicyConfidence.dfy`, `PolicyRuns.dfy`, `ReplayReport.dfy`, `ReplayTotals.dfy`, `ReplayFile.dfy` |
| the scheduler process under the daemon | `LifecycleSpec.dfy`, `LifecycleOutcomes.dfy`, `Lifecycle.dfy` |
| the status reporter | `ReporterChannel.dfy`, `ReporterRuns.dfy`, `Reporter.dfy` |
| the experiment harness | `AuditReader.dfy`, `ExperimentPlan.dfy` |

`dafny verify dfyconfig.toml` checks everything.

## How the parts fit together

**Pipeline.** `Kernel` gives each BPF callback and ring operation as a function of the BPF state, and
`Pipeline` interleaves them with the calls of the user-space loop; every kernel event may come before every
call. A state is reachable if some interleaving leads to it from the initial state. `KernelInvariant` and
`PipelineInvariant` prove what every step keeps; `PipelineSafety`, `PipelineOrder`, `EnqueueOutcomes`,
`LostRecords`, `TrailingRecord`, `GenerationOrder`, `HandOffProgress` and `SchedulerWakeup` draw the theorems
about reachable states from it; `Placement` and `TaskTimes` say where a task goes and what its times mean. `BpfBackend.Bpf` and
`Scheduler.Sched` are the same code as objects that change their fields in place. Each method of `Bpf` is
proved equal to its function. Each loop of `Sched` is proved to do what the kernel events before each of its
calls, and the failures of those calls, decide; and that to be a run of `Pipeline`.

**Policy.** `Policy` holds the object and the machine it refines. `PolicyRuns` proves how often, on what
evidence and how soon a run changes the profile. `ReplayReport` has the two offline tools and shows that the
report recognises held decisions by their text, exactly; `ReplayTotals` carries the bounds on the policy over
to the totals of the report for every telemetry file.

**Lifecycle.** `Lifecycle.Os` is an operating system in which processes die at any moment and every answer is
arbitrary; it keeps the history of its calls with their answers. Each method of `Lifecycle.ScxBackend` states
exactly which calls it made, and that its answer and its fields are the decision of `LifecycleSpec` on their
answers. `LifecycleSpec` says what failed calls leave behind and when a child is killed.

**Reporter.** `ReporterChannel` is the step machine of both processes, the socket and the files;
`ReporterRuns` has its theorems, and one that joins it to the health check of the daemon; `Reporter` has the
loops.

## Assumptions

- Each BPF callback and each call of the user-space loop is one atomic step, but for one: the CPU an enqueue
  picks may have been picked before the last affinity change, as main.bpf.c:822-828 expects.
- The kernel carries out an insert only for a task the BPF scheduler owns, a cancel returns its slot, equal
  keys in a DSQ ordered by vtime stay in insertion order, and the callbacks arrive in the order sched_ext
  documents (`Kernel.Deliverable`).
- Every task has its storage, PIDs are not reused, `enq_cnt` does not wrap at 64 bits, and there are at most
  `MAX_CPUS` CPUs. Timestamps and run times are 64-bit words.
- The picked idle CPU, the cause of a wakeup, the free capacity of the rings and the failure of a ring call
  are arbitrary.
- A sleep advances the monotonic clock by at least its duration. A process found missing or waited for is
  dead. A spawned process has a new PID.
- A datagram is in the socket whole or not at all; JSON is a faithful round trip; each file is replaced
  atomically.

## Findings

- `LostRecords.OldRecordMovesTask`: an enqueue that loses the race with an affinity change
  (schedulers/cerynth-scx/main.bpf.c:829-830) neither inserts the task nor sends a record, and leaves
  `enq_cnt` as it was. A record of the enqueue before may still be in flight with that very count; the
  staleness test (main.bpf.c:560) then lets it move the task. `OnlyTheRaceDropsRecords` shows that this is the
  only way to an owned task whose enqueue sent no record, and `PlacesExactly` says which records move a task.
  The comment in the source expects another enqueue instead.
- `LifecycleSpec.SwitchLosesChild`: `set_profile` looks at the child twice. If the child exits in between, the
  switch is refused with "no scheduler is currently running", the profile stays, and the child is gone.
  `FailedStopInSwitch` shows that this is the only failed stop after which the child has changed.
- `TrailingRecord.TrailingRecordWaits`: n live records need ceil(n / c) drains with c slots each, but when the
  last slot goes to the last live record, records of vanished or newer tasks behind it wait for one more drain.
  Such states are reachable for every c and every number of drains (`OneDispatchIsNotEnough`: for the 512 slots
  of one dispatch). `DrainsEmptyExactly` gives the exact condition for an empty ring.
- `LostRecords.SubmissionLost`: a submission that fails is counted and not retried, so the record of its task is
  gone, and the task waits for its next enqueue. `FailedSendLosesRecord` gives the exact condition.
- `AuditReader.RegrownLogIsMissed`: a truncated audit log that grows past the saved offset is not noticed, and
  lines of it are lost; `ReplacementIsNoticed` gives the exact condition.
- The reason of a recommendation held for evidence names the candidate where it should name the number of
  samples ("Holding balanced until performance consecutive samples support performance; 1/3"): the second
  placeholder of crates/cerynth-policy/src/lib.rs:233 is filled with the profile. The model writes the same
  text, and the report still recognises it (`ReplayReport.HoldsRecognised`).

## Model

| member | source | states |
|---|---|---|
| `TaskOrder.Newest` | schedulers/cerynth-scx/src/policy.rs:38-40 | the stand-in for the current time is the largest `stop_ts` of the batch |
| `TaskOrder.RescueStarvedTasks` | schedulers/cerynth-scx/src/policy.rs:37-50 | sorts the array in place: the result is the stable sort of the old contents and a permutation of them; the empty batch is left alone |
| `TaskOrder.StableSortIsStable` | schedulers/cerynth-scx/src/policy.rs:42-49 | the sort permutes, ascends by key, and keeps the order of equal keys |
| `TaskOrder.StableSortUnique` | schedulers/cerynth-scx/src/policy.rs:42-49 | two sorted sequences that agree key by key are equal, so the stable sort is unique |
| `TaskOrder.InteractiveIsTheStableSort` | schedulers/cerynth-scx/src/policy.rs:19-22 | a sequence is a stable sort of the batch if and only if it is what Interactive sends |
| `TaskOrder.InteractiveOrder` | schedulers/cerynth-scx/src/policy.rs:28-49 | tasks that released their CPU 20 ms or more before the newest one come first by ascending `stop_ts`, the rest by ascending `exec_runtime` |
| `TaskOrder.OrderIsPermutation` | schedulers/cerynth-scx/src/policy.rs:16-26 | every profile sends each dequeued task exactly once |
| `TaskOrder.OrderIdempotent` | schedulers/cerynth-scx/src/policy.rs:16-26 | ordering an ordered batch changes nothing |
| `TaskOrder.NewestNotStarved` | schedulers/cerynth-scx/src/policy.rs:37-49 | a task with the newest `stop_ts` is never treated as starved |
| `TaskOrder.OrderShiftInvariant` | schedulers/cerynth-scx/src/policy.rs:32-49 | shifting all timestamps by one amount shifts the result and nothing else: no clock is read |
| `KernelInvariant.InitInv` | schedulers/cerynth-scx/main.bpf.c:1067-1100 | the state after init satisfies the kernel-side invariant |
| `KernelInvariant.ZeroKeyInsertAppends` | schedulers/cerynth-scx/main.bpf.c:550-551 | with key zero a vtime-ordered insert appends, when all keys are zero |
| `KernelInvariant.SelectCpuInv` | schedulers/cerynth-scx/main.bpf.c:584-631 | CPU selection keeps the invariant for every pick of an idle CPU |
| `KernelInvariant.QueueToUserInv` | schedulers/cerynth-scx/main.bpf.c:715-748 | a hand-off, or the congestion fallback, keeps the invariant: generations number the hand-offs of each task |
| `KernelInvariant.EnqueueInv` | schedulers/cerynth-scx/main.bpf.c:755-845 | every branch of the enqueue keeps the invariant |
| `KernelInvariant.HandleInv` | schedulers/cerynth-scx/main.bpf.c:513-573 | handling a drained record with a free slot keeps the invariant, the counters included |
| `KernelInvariant.DrainInv` | schedulers/cerynth-scx/main.bpf.c:863-873 | a drain that starts with a free slot keeps the invariant |
| `KernelInvariant.DispatchInv` | schedulers/cerynth-scx/main.bpf.c:863-893 | `rustland_dispatch` keeps the invariant: queues and task places agree after each move |
| `KernelInvariant.StepInv` | schedulers/cerynth-scx/main.bpf.c:584-983 | every kernel event keeps the invariant: one place for each task, zero keys, valid CPUs, records no newer than their task |
| `DrainProgress.DrainPrefix` | schedulers/cerynth-scx/dispatch.h:6-19 | a drain consumes a prefix of @dispatched in order, pays one slot for each live record of it, and stops early only when the last record took the last slot |
| `DrainProgress.DrainFault` | schedulers/cerynth-scx/dispatch.h:6-19 | a drain fails if and only if it starts without a slot on a record whose task exists |
| `DrainProgress.DrainsConsume` | schedulers/cerynth-scx/tests/dispatch-progress.c:28-57 | repeated drains consume the ring in order, each record exactly once |
| `DrainProgress.DrainsDeliver` | schedulers/cerynth-scx/tests/dispatch-progress.c:28-57 | of n live records, m drains with c slots leave n - min(n, m*c) |
| `DrainProgress.DrainsEmptyExactly` | schedulers/cerynth-scx/dispatch.h:6-19 | after m drains with c slots the ring is empty if and only if it was, or m*c > n, or m*c = n and its last record is live |
| `TrailingRecord.TrailingRecordWaits` | schedulers/cerynth-scx/dispatch.h:17-18 | for all c and m, a reachable state with m*c live records in which m drains with c slots do not empty the ring, because the record of an exited task is last, and m + 1 do |
| `TrailingRecord.OneDispatchIsNotEnough` | schedulers/cerynth-scx/main.bpf.c:863-873 | a reachable state with as many live records as one dispatch has slots, which a dispatch on any CPU leaves with a record in the ring |
| `PipelineInvariant.StepGrew` | schedulers/cerynth-scx/main.bpf.c:715-873 | a kernel event appends at most new records to @queued and moves records from @dispatched to the drained ones in order |
| `PipelineInvariant.PStepsInv` | schedulers/cerynth-scx/src/main.rs:93-126 | every interleaving of kernel events and user calls keeps the stream equations, the counters and the kernel invariant |
| `PipelineSafety.Conservation` | schedulers/cerynth-scx/src/main.rs:93-126 | each hand-off is in flight once, drained, or one of the counted dispatch errors, in every reachable state |
| `PipelineSafety.GenerationsDistinct` | schedulers/cerynth-scx/main.bpf.c:689 | the generations handed off for a task are exactly 1 up to its `enq_cnt`, once each |
| `PipelineSafety.WaitingTaskHasOneRecord` | schedulers/cerynth-scx/main.bpf.c:715-748 | the current record of a waiting task is in exactly one of @queued, the batch, the outgoing tasks and @dispatched, or its submission was counted as an error |
| `PipelineSafety.InFlightDistinct` | schedulers/cerynth-scx/main.bpf.c:553-564 | no two records in flight share task and generation; none is newer than its task, drained before, or a counted error |
| `PipelineSafety.OneDsqEach` | schedulers/cerynth-scx/main.bpf.c:550-551 | a task is on a DSQ exactly when its place says so, then once; all keys are zero, so every insert appends |
| `PipelineSafety.NoFault` | schedulers/cerynth-scx/main.bpf.c:529-551 | no reachable record takes the any-CPU branch or the invalid-CPU branch, and no insert fails |
| `PipelineSafety.PlacesExactly` | schedulers/cerynth-scx/main.bpf.c:513-573 | a drained record queues its task if and only if the task exists, is owned and has the record's generation: on the CPU it asks for if the task may use it, else on the task's own; all else stays where it was; it is counted as the user's if and only if its CPU is allowed, else as bounced, as cancelled if and only if it is older than its task, and costs a slot if and only if it is current |
| `PipelineSafety.AnyCpuMeansShared` | schedulers/cerynth-scx/main.bpf.c:529-534 | a record that asks for no CPU puts an owned task on the shared DSQ, whatever its generation, and counts nothing; no reachable run takes this branch (`NoFault`) |
| `PipelineSafety.SubmittedAsHandedOff` | schedulers/cerynth-scx/src/bpf.rs:130-139 | in every run each submitted record, drained or not, has the PID, generation, CPU and flags of a hand-off, the default slice and key zero |
| `PipelineSafety.OlderGenerationIsInert` | schedulers/cerynth-scx/main.bpf.c:553-564 | the oldest record of @dispatched, if its generation is older than its task's, changes no DSQ and no place (over whole runs: `OnlyNewerRecordsMove`) |
| `GenerationOrder.OnlyNewerRecordsMove` | schedulers/cerynth-scx/main.bpf.c:553-564 | in every run a drained record that moved its task is strictly newer than every record of the task drained before it, by whatever dispatch, however batches were reordered |
| `PipelineOrder.FifoRefinement` | schedulers/cerynth-scx/src/main.rs:93-126 | under Balanced, Performance and Background the submissions repeat the hand-off order, and the inserts that take effect are exactly the submissions that were not lost, waiting, vanished, cancelled or refused, in order |
| `PipelineOrder.BoundedOvertaking` | schedulers/cerynth-scx/src/main.rs:93-126 | for every profile and run, a record's place among the submissions differs from its place among the hand-offs by at most 63 |
| `PipelineOrder.BoundedOvertakingSent` | schedulers/cerynth-scx/src/main.rs:93-126 | in every run with e dispatch errors, a record's place in the stream that enters @dispatched is at most 63 later and at most 63 + e earlier than its place among the hand-offs |
| `PipelineOrder.BoundedWaiting` | schedulers/cerynth-scx/src/main.rs:93-126 | in every run a record with k ahead of it leaves @queued within k/64 + 1 cycles, and one more for each error the ring reports meanwhile, whatever is handed off |
| `HandOffProgress.BoundedDraining` | schedulers/cerynth-scx/main.bpf.c:863-873 | from any state a record with k ahead of it in @dispatched is drained once k/512 + 1 dispatches have happened, on any CPUs and whatever is submitted meanwhile |
| `HandOffProgress.HandOffIsDrained` | schedulers/cerynth-scx/src/main.rs:93-126 | end to end, in every run: once the cycles of `BoundedWaiting` are complete and then length/512 + 1 dispatches have happened, where length is that of @dispatched, a record that waited in @queued is in flight no more; it was drained, once, or is a counted error |
| `PipelineOrder.BatchEnds` | schedulers/cerynth-scx/src/main.rs:96-107 | a turn of the collecting loop ends the batch if and only if it has 64 records, the ring fails or the ring is empty; otherwise it takes the oldest record; only a failure is counted |
| `PipelineOrder.RingErrorsCostCycles` | schedulers/cerynth-scx/src/main.rs:96-125 | in every run there are between batches no more ring errors than cycles |
| `PipelineOrder.CycleCounters` | schedulers/cerynth-scx/src/main.rs:108-123 | between batches, tasks dequeued = tasks dispatched + dispatch errors |
| `PipelineOrder.BatchStatistics` | schedulers/cerynth-scx/src/main.rs:108-125 | average size times batches = tasks dequeued <= largest size times batches; no batch exceeds 64; no more non-empty batches than cycles |
| `PipelineOrder.DrainCounters` | schedulers/cerynth-scx/main.bpf.c:544-564 | each drained record is counted once as vanished, user or bounced; cancels and effective inserts are among the last two; `nr_queued` is the occupancy of @queued |
| `EnqueueOutcomes.EnqueueOutcome` | schedulers/cerynth-scx/main.bpf.c:755-845 | an ordinary enqueue is handed off in a record that describes the task and has the next generation, inserted on exactly one DSQ, or dropped by the lost affinity race: critical threads on their own CPU, a wakeup on the picked idle CPU if nothing waits there or on the shared DSQ, all else to user space, and on the shared DSQ with a congestion count when the ring is full |
| `EnqueueOutcomes.OnlyTheRaceDropsRecords` | schedulers/cerynth-scx/main.bpf.c:822-830 | a task becomes owned without a record if and only if an enqueue loses that race |
| `LostRecords.FailedSendLosesRecord` | schedulers/cerynth-scx/src/main.rs:116-123 | sending the current record of a waiting task leaves the task without a record in flight if and only if the ring call fails or @dispatched is full |
| `LostRecords.SubmissionLost` | schedulers/cerynth-scx/src/main.rs:118-119 | a reachable state in which a task waits for user space and no record of it is anywhere |
| `LostRecords.OldRecordMovesTask` | schedulers/cerynth-scx/main.bpf.c:822-830 | a reachable run in which the affinity changes between an enqueue's pick and its test: no record is sent, and the record of the enqueue before, of equal generation, moves the task |
| `Placement.SelectOutcome` | schedulers/cerynth-scx/main.bpf.c:584-631 | CPU selection inserts an ordinary task on the picked idle CPU if and only if nothing waits there or on the shared DSQ; without a picked CPU it names the previous CPU, else the waker's, else the lowest, always one the task may use |
| `Placement.SchedulerEnqueue` | schedulers/cerynth-scx/main.bpf.c:765-768 | the scheduler's own task is put at the end of its own DSQ; nothing else changes |
| `Placement.DispatchServesOldest` | schedulers/cerynth-scx/main.bpf.c:863-893 | after the drain a CPU takes exactly one task if any may run there: the scheduler's if work is pending, else the oldest runnable one of its own DSQ, else the oldest runnable one of the shared DSQ |
| `TaskTimes.TimesFollowEvents` | schedulers/cerynth-scx/main.bpf.c:908-973 | in every run of the kernel the start and stop times of a task are those of its last events, and its run time is, modulo 2^64, what it ran since it last became runnable |
| `TaskTimes.RunsWhereMoved` | schedulers/cerynth-scx/main.bpf.c:925-945 | a task that starts to run does so on the CPU it was moved to |
| `SchedulerWakeup.ReachableOnly` | schedulers/cerynth-scx/main.bpf.c:765-768 | in every reachable state only the scheduler's task is on its DSQ, and the scheduler's task is on no other and never handed off |
| `SchedulerWakeup.PendingWorkRunsScheduler` | schedulers/cerynth-scx/main.bpf.c:321-330 | a dispatch on a CPU the waiting scheduler may use runs it there if and only if a wakeup was requested, tasks are scheduled or records are queued; and the request is taken |
| `SchedulerWakeup.TimerWakesScheduler` | schedulers/cerynth-scx/main.bpf.c:994-1018 | the timer makes the next dispatch run an inactive scheduler even if nothing is queued, and changes nothing for an active one |
| `BpfBackend.Bpf.MoveFirstToLocal` | schedulers/cerynth-scx/main.bpf.c:884-892 | moves the first task that may run on the CPU, and only it |
| `BpfBackend.Bpf.ChooseCpu` | schedulers/cerynth-scx/main.bpf.c:595-596 | the previous CPU if usable, else the waker's, else the first usable |
| `BpfBackend.Bpf.DrainDispatched` | schedulers/cerynth-scx/main.bpf.c:870-871 | the callback loop equals the specified drain |
| `BpfBackend.Bpf.Deliver` | schedulers/cerynth-scx/main.bpf.c:584-983 | one kernel event in place equals one specified step |
| `Scheduler.Sched.constructor` | schedulers/cerynth-scx/src/main.rs:61-91 | starts in the initial pipeline state |
| `Scheduler.Sched.OrderBatch` | schedulers/cerynth-scx/src/policy.rs:16-26 | the ordered batch is the specified order of the profile |
| `Scheduler.Sched.CollectBatch` | schedulers/cerynth-scx/src/main.rs:93-107 | the tasks, the counters and the turns left are those the collecting loop has for the given kernel events and ring failures |
| `Scheduler.Sched.RecordBatch` | schedulers/cerynth-scx/src/main.rs:108-115 | the batch counters are updated as specified |
| `Scheduler.Sched.SendBatch` | schedulers/cerynth-scx/src/main.rs:116-123 | the same for the sending loop: each task is submitted once, and fails exactly in a failing turn or on a full ring |
| `Scheduler.Sched.DispatchTasks` | schedulers/cerynth-scx/src/main.rs:93-126 | the state after a cycle is the one that the given kernel events and ring failures decide |
| `Scheduler.Sched.Run` | schedulers/cerynth-scx/src/main.rs:146-156 | the same for any number of cycles |
| `Scheduler.CycleIsRun` | schedulers/cerynth-scx/src/main.rs:93-126 | a cycle so decided is a run of the pipeline |
| `Scheduler.CyclesReachable` | schedulers/cerynth-scx/src/main.rs:146-156 | whatever the environment decides, the loop stays among the reachable states, so every theorem about them applies to the code |
| `Policy.WorkloadConfidence` | crates/cerynth-policy/src/lib.rs:105-167 | every confidence lies between 0 and 1 |
| `Policy.StepInv` | crates/cerynth-policy/src/lib.rs:182-250 | the count stays below the dwell and the cooldown within its setting, so the saturating increment never saturates |
| `Policy.RawExactly` | crates/cerynth-policy/src/lib.rs:268-340 | the candidate is Performance, Interactive or Background if and only if the readings pass its test, and Performance comes first |
| `Policy.RulesBasedPolicy.constructor` | crates/cerynth-policy/src/lib.rs:63-75 | confidence 0.6, dwell 3, cooldown 5, nothing accepted |
| `Policy.RulesBasedPolicy.WithMinConfidence` | crates/cerynth-policy/src/lib.rs:84-89 | the confidence is clamped; the rest are defaults |
| `Policy.RulesBasedPolicy.WithStabilityControls` | crates/cerynth-policy/src/lib.rs:92-103 | a zero dwell becomes one |
| `Policy.RulesBasedPolicy.Stabilize` | crates/cerynth-policy/src/lib.rs:182-250 | the fields after the call and the answer are those of the hysteresis machine |
| `Policy.RulesBasedPolicy.Evaluate` | crates/cerynth-policy/src/lib.rs:254-356 | invalid telemetry changes nothing and recommends Balanced; otherwise candidate, state and answer are those of the machine, and a profile newly accepted is the one whose test the readings of this sample pass |
| `PolicyConfidence.ConfidenceFollowsLoad` | crates/cerynth-policy/src/lib.rs:105-155 | more load never lowers the confidence in Performance or Interactive, nor raises that in Background |
| `PolicyConfidence.RecommendationFollowsLoad` | crates/cerynth-policy/src/lib.rs:268-340 | more load never recommends a profile for less load: Background, Balanced, Interactive, Performance |
| `PolicyConfidence.ConfidenceSlopes` | crates/cerynth-policy/src/lib.rs:105-155 | within its range each reading moves the confidence in Performance, Interactive and Background by its own weight, however the others stand, and outside of it not at all |
| `PolicyConfidence.BalancedSlope` | crates/cerynth-policy/src/lib.rs:157-166 | Balanced is certain exactly at 50 % CPU and load 1, loses 0.012 for each point of CPU and 0.2 for each unit of load in either direction, and no more than there is |
| `PolicyConfidence.ConfidenceReported` | crates/cerynth-policy/src/lib.rs:169-180 | a decision, held or not, carries the confidence of its candidate, raised to the configured minimum; 0.9 under light load; 1 for invalid telemetry |
| `PolicyConfidence.ReasonsTell` | crates/cerynth-policy/src/lib.rs:262-340 | which text each candidate carries |
| `PolicyConfidence.HeldTexts` | crates/cerynth-policy/src/lib.rs:207-241 | what a held decision says, and that every other one is the candidate |
| `PolicyConfidence.RecommendationHasSupport` | crates/cerynth-policy/src/lib.rs:269-320 | a recommendation other than Balanced has a positive confidence of its own |
| `PolicyRuns.RatePotential` | crates/cerynth-policy/src/lib.rs:182-250 | over any run from any state, changes times (cooldown + dwell) plus the evidence counted is at most the valid samples plus the cooldown left |
| `PolicyRuns.RateBound` | crates/cerynth-policy/src/lib.rs:182-250 | a fresh policy makes at most (n + cooldown) / (cooldown + dwell) changes in n valid samples |
| `PolicyRuns.RateBoundTight` | crates/cerynth-policy/src/lib.rs:182-250 | for every number of changes some run meets the bound with equality |
| `PolicyRuns.CountIsEvidence` | crates/cerynth-policy/src/lib.rs:219-225 | in every run the pending count is the length of the unbroken, cooldown-free evidence for the pending profile among the valid samples |
| `PolicyRuns.EvidenceWindow` | crates/cerynth-policy/src/lib.rs:227-249 | in every run a change to a profile comes only when the last `dwell` valid samples all recommend it with the cooldown at zero |
| `PolicyRuns.StillCooling` | crates/cerynth-policy/src/lib.rs:203-216 | in every run, m valid samples after a change the cooldown left is exactly cooldown - m |
| `PolicyRuns.ChangesApart` | crates/cerynth-policy/src/lib.rs:203-249 | in every run two changes are at least cooldown + dwell valid samples apart |
| `PolicyRuns.ResponseExact` | crates/cerynth-policy/src/lib.rs:182-250 | while one profile is recommended, it is accepted from exactly the sample that cooldown and evidence predict, and kept |
| `PolicyRuns.Response` | crates/cerynth-policy/src/lib.rs:191-249 | cooldown + dwell valid samples for one profile make it the accepted one from every reachable state |
| `PolicyRuns.InvalidSamplesIgnored` | crates/cerynth-policy/src/lib.rs:254-266 | deleting invalid samples changes no other decision and no state |
| `PolicyRuns.CurrentProfileIrrelevant` | crates/cerynth-policy/src/lib.rs:183-189 | once a profile is accepted, the reported current profile changes neither decisions nor state |
| `PolicyRuns.DecisionSound` | crates/cerynth-policy/src/lib.rs:169-180 | a valid sample recommends the profile then accepted; invalid ones recommend Balanced; every confidence is between the minimum and 1 |
| `ReplayFile.SwitchRateExactly` | crates/cerynth-policy/src/bin/cerynth-policy-replay.rs:49-68 | the rate times the time passed is the number of switches; zero for the first snapshot and when the clock or the counter does not advance |
| `ReplayFile.RatesAddUp` | crates/cerynth-policy/src/bin/cerynth-policy-replay.rs:49-68 | over a recording whose clock advances, the rates weighted with their times account for every context switch |
| `ReplayFile.RecordOfSnapshot` | crates/cerynth-policy/src/bin/cerynth-policy-replay.rs:90-130 | one record for each snapshot, in order: profile, confidence and reason a policy with the defaults decides after the snapshots before it, on exactly the readings of this one |
| `ReplayReport.Replay` | crates/cerynth-policy/src/bin/cerynth-policy-replay.rs:90-130 | writes the decisions of a fresh policy for the snapshots in order, and fails if and only if some line does not parse |
| `ReplayReport.AddRecord` | crates/cerynth-policy/src/bin/cerynth-policy-report.rs:50-90 | one record updates counts, transitions, holds, first and last as specified |
| `ReplayReport.Analyze` | crates/cerynth-policy/src/bin/cerynth-policy-report.rs:39-94 | folds the records in order, and fails if and only if some line does not parse |
| `ReplayFile.TablesExactly` | crates/cerynth-policy/src/bin/cerynth-policy-report.rs:46-91 | for every decision file: each profile is counted once for each record that recommends it and the counts add up to the samples; each arrow once for each such change; the holds are the reasons that say so; first and last are those of the file |
| `ReplayReport.HoldsRecognised` | crates/cerynth-policy/src/bin/cerynth-policy-report.rs:77-83 | the two texts the report searches occur in exactly the reasons of the two kinds of held decisions |
| `ReplayTotals.TransitionsFormPath` | crates/cerynth-policy/src/bin/cerynth-policy-report.rs:59-75 | in any decision file, transitions out of a profile minus those into it are its being first minus its being last |
| `ReplayTotals.CooldownBound` | crates/cerynth-policy/src/lib.rs:203-217 | at most `cooldown` samples are held in cooldown for each change |
| `ReplayTotals.DwellBound` | crates/cerynth-policy/src/lib.rs:227-241 | at least `dwell` - 1 samples are held for evidence for each change |
| `ReplayTotals.ReportFollowsPolicy` | crates/cerynth-policy/src/bin/cerynth-policy-report.rs:46-91 | from any state, transitions and holds of the report equal changes and holds of the policy |
| `ReplayTotals.RunTotals` | crates/cerynth-policy/src/bin/cerynth-policy-report.rs:46-91 | the same from a fresh policy, whose first record has no predecessor: a change at the very first sample shows in no transition |
| `ReplayTotals.ReplayTheorem` | crates/cerynth-policy/src/bin/cerynth-policy-report.rs:39-94 | for every telemetry file: 8 * transitions <= samples + 5, dwell holds >= 2 * transitions, cooldown holds <= 5 * transitions |
| `Text.TrimReads` | services/cerynthd/src/backends/scx.rs:36-45 | trimming a text gives a word if and only if the text is that word between white space |
| `LifecycleSpec.HealthyExactly` | services/cerynthd/src/backends/scx.rs:47-79 | healthy if and only if the probe answers, the state file says "enabled" between white space, and the status file is that of this PID, running, healthy and at most ten seconds old |
| `LifecycleSpec.StateExactly` | services/cerynthd/src/backends/scx.rs:36-45 | the state reported is the word in the file, unless it is empty or "none" |
| `LifecycleSpec.Stopped` | services/cerynthd/src/backends/scx.rs:279-362 | a stop leaves no child exactly when it succeeds or finds none; otherwise nothing changes |
| `LifecycleSpec.Started` | services/cerynthd/src/backends/scx.rs:238-277 | a successful start tracks the process it spawned, and began without a child |
| `LifecycleSpec.FailedStart` | services/cerynthd/src/backends/scx.rs:156-162 | a start that spawned and then failed tracks its child if and only if the child did not exit and the cleaning stop failed (that the run is the calls made: `Start`) |
| `LifecycleSpec.StartEndsHealthy` | services/cerynthd/src/backends/scx.rs:265-276 | the calls of a successful start end with a check that found the spawned process alive, sched_ext enabled and the heartbeat fresh |
| `LifecycleSpec.KillOnlyAfterGrace` | services/cerynthd/src/backends/scx.rs:294-326 | a stop kills only its child, only after its termination signal was delivered, and only when the clock has shown five seconds to be over since |
| `LifecycleSpec.WaitsAreShort` | services/cerynthd/src/backends/scx.rs:164-185 | a start looks at its child at most 150 times in vain, a stop polls at most 50 times |
| `LifecycleOutcomes.StopTellsLastCall` | services/cerynthd/src/backends/scx.rs:279-362 | every answer of a stop belongs to one last call: the error names the call that failed, and success the one that showed the child gone |
| `LifecycleOutcomes.OverdueIsKilled` | services/cerynthd/src/backends/scx.rs:317-340 | a child that outlives the grace period is signalled for good |
| `LifecycleOutcomes.StartOutcome` | services/cerynthd/src/backends/scx.rs:238-277 | a start succeeds if and only if its calls launch a process and end with a healthy check of it; every error names the step that failed; a timeout means fifteen seconds |
| `LifecycleOutcomes.SwitchOutcome` | services/cerynthd/src/backends/scx.rs:214-226 | a switch succeeds if and only if nothing was running, or stop and start succeeded; then the new scheduler is tracked with the new profile; otherwise its error is that of the step that failed |
| `LifecycleOutcomes.RestartOutcome` | services/cerynthd/src/backends/scx.rs:364-372 | the same for a restart, which always ends with a new scheduler |
| `LifecycleOutcomes.PausesAreShort` | services/cerynthd/src/backends/scx.rs:182-182 | every pause of a start or a stop takes a tenth of a second |
| `LifecycleSpec.FailedStopInSwitch` | services/cerynthd/src/backends/scx.rs:214-226 | a switch whose stop failed never changes the profile, and keeps the child if and only if the child did not exit between the two looks |
| `LifecycleSpec.SwitchLosesChild` | services/cerynthd/src/backends/scx.rs:214-226 | an input of the failing family: the switch is refused and the child is gone |
| `Lifecycle.ScxBackend.constructor` | services/cerynthd/src/backends/scx.rs:90-98 | nothing tracked, adaptation on |
| `Lifecycle.ScxBackend.ReapChild` | services/cerynthd/src/backends/scx.rs:109-133 | asks once, and forgets the child exactly when the answer is that it exited; an unreadable child stays tracked and is an error |
| `Lifecycle.ScxBackend.SchedulerIsHealthy` | services/cerynthd/src/backends/scx.rs:136-154 | calls the probe and, if it answers, reads both files, in this order and nothing else; healthy if and only if a PID is tracked, the probe answers, the state file says "enabled" between white space and the status file shows the beat of that PID |
| `Lifecycle.ScxBackend.WaitUntilHealthy` | services/cerynthd/src/backends/scx.rs:165-185 | the calls made are those of a wait whose rounds are in time and in vain, and the verdict is that of its last look; the loop ends |
| `Lifecycle.ScxBackend.EnsureHealthyStartup` | services/cerynthd/src/backends/scx.rs:156-162 | a bad verdict is followed by the calls of one stop, and the verdict is the answer |
| `Lifecycle.ScxBackend.AwaitShutdown` | services/cerynthd/src/backends/scx.rs:314-356 | the calls made are those of a wait that polls within the grace period and then kills once; success means that the child is dead; the loop ends |
| `Lifecycle.ScxBackend.Stop` | services/cerynthd/src/backends/scx.rs:279-362 | the calls made are those of a stop, and answer and child are the decision on their answers; nothing untracked is alive |
| `Lifecycle.ScxBackend.Start` | services/cerynthd/src/backends/scx.rs:238-277 | spawns only when every earlier process is dead; success means that the newest calls found the child healthy; a failed start keeps its child if and only if the child did not exit and the stop it made failed; answer, child and calls are those of the decision |
| `Lifecycle.ScxBackend.Status` | services/cerynthd/src/backends/scx.rs:189-208 | reports the profile, the adaptation flag and whether a child is tracked; the state is the word in the file it read, and the heartbeat is good if and only if the status file shows that of the tracked child |
| `Lifecycle.ScxBackend.SetProfile` | services/cerynthd/src/backends/scx.rs:214-226 | answer, profile, child and calls are those of the decision on the answers received; a new profile is taken if and only if no child was left to stop, or the stop succeeded; after success a scheduler runs if and only if one did, it is a new process and was found healthy last |
| `Lifecycle.ScxBackend.Restart` | services/cerynthd/src/backends/scx.rs:364-372 | answer, child and calls are those of the decision on the answers received; success means a new process that was found healthy last |
| `Lifecycle.ScxBackend.HandleRequest` | services/cerynthd/src/handlers.rs:4-46 | the client is answered with the error of the decision on its request, or with what it asked for: the report of what is held and read, the profile, or success, which means for each request what it changed; state, adaptation flag and calls are those of the decision |
| `Lifecycle.ScxBackend.HandleConnection` | services/cerynthd/src/server/connection.rs:41-56 | a status follows each request; what is saved is the profile and the flag after both, unless that status fails; answer, state and calls are those of both decisions |
| `Lifecycle.ScxBackend.Serve` | services/cerynthd/src/handlers.rs:4-46 | after any requests with any failures at most one spawned scheduler is alive: the tracked one, launched with the current profile; PID and child agree; the calls are those of the requests in order |
| `ReporterRuns.StepInv` | schedulers/cerynth-scx/src/reporter.rs:32-149 | every action of either process keeps the channel's invariant |
| `ReporterRuns.PublishConservation` | schedulers/cerynth-scx/src/main.rs:137-143 | publish attempts = reporter drops + accepted snapshots, and accepted are exactly those encoded in 8192 bytes or less and sent whole; accepted ones wait in order; the progress is the number of cycles |
| `ReporterRuns.WrittenSelection` | schedulers/cerynth-scx/src/reporter.rs:131-147 | the files show an order-preserving selection of the accepted snapshots; all but the kernel observation is the parent's; progress never decreases along it |
| `ReporterRuns.OwnFramesAreReadable` | schedulers/cerynth-scx/src/reporter.rs:125-137 | the reporter never gives up over an unreadable frame or a foreign PID of its own scheduler |
| `ReporterRuns.ExitsExactly` | schedulers/cerynth-scx/src/reporter.rs:120-149 | the reporter ends if and only if its parent is gone, a receive fails, the state file cannot be read or a file cannot be written, and says which |
| `ReporterRuns.DiskProgress` | schedulers/cerynth-scx/src/reporter.rs:145-146 | the progress on disk never goes back, over any run |
| `ReporterRuns.FullDrain` | schedulers/cerynth-scx/src/reporter.rs:121-147 | once the socket is empty, a successful write leaves the last accepted snapshot in both files, whatever is published in between; the status file shows the word of the kernel's state file, and health if and only if that is "enabled" |
| `ReporterRuns.HealthyMeansPublished` | services/cerynthd/src/backends/scx.rs:50-79 | if the daemon finds the status file healthy, the scheduler itself published within ten seconds, and the reporter saw sched_ext enabled |
| `Reporter.Channel.Send` | schedulers/cerynth-scx/src/reporter.rs:32-55 | accepted if and only if the snapshot has at most 8192 bytes and all of them were sent; backpressure, which is no error, if and only if the socket was full or the call interrupted |
| `Reporter.Channel.Report` | schedulers/cerynth-scx/src/main.rs:128-144 | refreshes heartbeat and uptime; a snapshot that was encoded and sent whole enters the socket and is no drop; every other one is a drop and enters nothing |
| `Reporter.Channel.DrainToLatest` | schedulers/cerynth-scx/src/reporter.rs:121-130 | the receive loop ends as the given publishes and receive results decide: with the socket empty and the newest snapshot held, or with an exit |
| `Reporter.Channel.WriteLatest` | schedulers/cerynth-scx/src/reporter.rs:131-147 | with nothing held, nothing happens; otherwise it succeeds if and only if the snapshot is the parent's and read and writes succeed, and then both files show it, healthy if and only if the kernel's state file says "enabled" |
| `Reporter.Channel.Run` | schedulers/cerynth-scx/src/reporter.rs:120-149 | the state after any iterations is the one that the scheduler's publishes and the results of the calls decide |
| `Reporter.RoundsReachable` | schedulers/cerynth-scx/src/reporter.rs:120-149 | whatever the environment decides, both processes stay among the reachable states of the channel |
| `AuditReader.LinesCut` | benchmarks/experiment.py:71-74 | lines and tail together are the data; every line holds one newline, at its end |
| `AuditReader.LinesUnique` | benchmarks/experiment.py:71-74 | that cut is the only one |
| `AuditReader.LinesAppend` | benchmarks/experiment.py:71-74 | lines of appended data continue the unfinished tail |
| `AuditReader.Collector.constructor` | benchmarks/experiment.py:59-61 | begins at the end of the existing log |
| `AuditReader.Collector.CollectAudit` | benchmarks/experiment.py:62-78 | the line loop equals the specified poll in offset, inode and lines; there is one event for each line, in order, a line that is no JSON value as an observation error, and events already collected never change |
| `AuditReader.CollectsEveryLine` | benchmarks/experiment.py:62-78 | for any appends and polls in any order, ended by a poll: exactly the complete lines after the start, once each and in order |
| `AuditReader.RotationStartsOver` | benchmarks/experiment.py:65-68 | after the log is replaced, the next poll collects the new file from its start, whatever is appended during it, and later ones continue it |
| `AuditReader.ReplacementIsNoticed` | benchmarks/experiment.py:66-67 | a poll of a replaced file collects all its complete lines if and only if the inode differs, the file is shorter than the offset, the offset is zero, or it has no complete line |
| `AuditReader.RegrownLogIsMissed` | benchmarks/experiment.py:66-67 | a truncated log that grew past the offset loses a line |
| `ExperimentPlan.EachPairRepeats` | benchmarks/experiment.py:225-227 | the plan holds each pair of profile and workload exactly `repeats` times |
| `ExperimentPlan.PlanAt` | benchmarks/experiment.py:225-227 | which item stands at each position of the plan |
| `ExperimentPlan.PlaceExact` | benchmarks/experiment.py:225-227 | how often each profile runs at each place of a workload |
| `ExperimentPlan.PlacesBalanced` | benchmarks/experiment.py:225-227 | no profile runs at a place more than once oftener than another |
| `ExperimentPlan.Incomplete` | benchmarks/experiment.py:145-148 | finds nothing if and only if every pair has enough results, and otherwise a pair that has not |
| `ExperimentPlan.DoneExactly` | benchmarks/experiment.py:171-183 | an earlier run counts as done if and only if it was for this item, ended well, and recorded as many samples as it counted, at least one, all of the right profile and a healthy scheduler |
| `ExperimentPlan.RunMatrix` | benchmarks/experiment.py:298-340 | the results are those of a prefix of the plan, reused exactly where a record exists and reuse is asked for; every one of them was done earlier or ran well, and if it is not the whole plan, the next item failed; `reused` counts the reused results, `measured` the rest |
| `ExperimentPlan.PrefixComplete` | benchmarks/experiment.py:145-148 | the completeness check accepts the results of a prefix of the plan if and only if it is the whole plan |

## Left out

- The methods of `BpfBackend.Bpf` without a row: each is proved equal to the function of `Kernel` it implements, and says no more.
- Rows for the exact bounds of the confidences in `PolicyConfidence`: they follow from the slopes.
- White space other than blanks, tabs and line ends, which `trim` would remove from a state file too.
- ReplayTheorem: takes the file as parsed lines of finite numbers, because the JSON the tools read has no others.
- HealthyMeansPublished: reads the clock of the scheduler and that of the daemon as one wall clock.
- Time slices: user space asks for the default one, and what that means is fixed by the kernel.
- Idle-CPU selection, SMT, NUMA and cache topology, kicks and `rs_select_cpu`: the picked CPU is arbitrary.
- The last step of `rustland_dispatch`, which extends the running task's slice and reads the pending flag once more.
- `nr_running`, which only reports, and the task name in a queued record, which nothing reads.
- Samples of @dispatched too short to hold a record are skipped by `HandleDispatchedTask`; user space never submits one, so the ring of the model has none.
- The liveness of the wakeup timer, the kernel watchdog, attaching and detaching the BPF program, and restarts of the whole scheduler by the outer loop.
- Floating-point rounding, and a minimum confidence that is not a number: telemetry, confidence and averages are reals.
- The lower-case parsing of profile names, the text of the records' timestamps, and the raw telemetry line the policy prints.
- The daemon's configuration, state files, sockets, IPC envelopes and command line; `prepare_then_attach`.
- The copies of kernel counters that `write_stats` puts into a snapshot, and the start and end of the reporter process.
- Statistics and files the experiment writes; the adaptive sequence; starting and stopping the scheduler between its runs; the timing of polls.
- The text of an audit line that is no JSON value: the model keeps its bytes, without decoding them.
- A reader that sees one append in part: a poll reads one state of the log, at or after the one its size was taken from.
