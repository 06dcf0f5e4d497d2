# TIMPANI verification model

TIMPANI plans time-triggered (TT) and constant-bandwidth-server (CBS) schedules offline, ships them to nodes and
enforces them there with a timer thread per CPU and a sched_ext kernel scheduler. This project models that chain in
Dafny and proves what it promises for every input, every run and every reachable state.

`dafny verify dfyconfig.toml` checks the whole project.

## The chain

- **Planner** (`SlotPlacement`, `Gaps`, `CpuAssignment`, `Planner`). The jump-forward scan finds the earliest free start
  or there is none; a successful placement is a complete, conflict-free layout of every job in its frame; gaps are the
  exact complement of the slots; the two CBS admission gates agree; every emitted table is sound and every refusal names
  its real cause. The whole planner computes a plain reference function, so equal input gives an equal table.
- **Timer** (`TimerMaster`, `EndToEnd`, `NodeTimers`). The endless firing loop has a closed form, the epoch catch-up keeps
  CPUs and nodes in phase, and the timers of a whole emitted table, collected, sorted and split by CPU, start every task
  exactly once in every period window its plan fills, forever and without overlap, and raise its own counter each time.
- **Shared-memory index** (`ShmIndex`). Over any sequence of table updates tasks keep their cell, the client's scan
  by name finds exactly that cell, and each firing raises the counter in it.
- **Kernel scheduler** (`CbsServer`, `TtPriority`). The bandwidth bound holds for every interleaving of operations, the
  budgets granted are counted exactly, and CBS work is dispatched only when no TT task of the CPU is runnable.
- **Orchestrator** (`WorkloadStore`, `ReplayLoop`, `Orchestrator`, `SyncBarrier`, `RustScheduler`, `Hyperperiod`,
  `Divisibility`). Which tasks each node's table holds, when the tables reach the nodes and when they change unnoticed, over
  any run of store operations and replay passes; agreement, progress and the cause of every reply of the SyncTimer barrier;
  soundness of the three Rust placement algorithms; the hyperperiod arithmetic of both implementations.
- **Transport** (`Serializer`, `FaultQueue`). Stack serializer round trips and conservation of fault notifications.

`Sequences` holds permutations, sums and what is taken of the C++ library: `Library` is an arbitrary but fixed choice of
the permutation `std::sort` makes of given keys and of the order in which `std::map` lists its keys. `Basics` holds shared
types. `Witnesses` holds concrete inputs for the planner, the store and the replay loop.

## Where the code and the expectation part

These are properties one would expect that the code does not have. Each has the exact condition under which it holds
and a concrete input on which it fails.

- Slots are laid out over the CPU's own hyperperiod but the table is published with the node's. A period window is served
  if and only if it falls into the first own hyperperiod of the published one (`WindowServedIff`), hence all are if and
  only if the two are equal (`TableServedIff`, `OncePerPeriodIff`); the planner emits a table on which they differ and a
  window is missed (`SplitHyperperiods`, `PeriodMissed`).
- A CBS server is charged whole microseconds, rounded down per run. Processor time equals the time charged if and only if
  every run lasts whole microseconds (`NothingLeaksIff`); otherwise it exceeds the charge by up to 999 ns per stop, and every
  server with 2 * budget + 1 < period can exceed its bound in its first period (`LeakBreaksBound`).
- A CBS run that uses up its budget loses a due refill if and only if it stops at or after the replenishment instant
  (`LostRefillIff`, `RefillLost`).
- The second CBS gate refuses a CPU that the first accepted if and only if TT load and overhead fill the bound exactly
  (`GatesAgree`). In exact arithmetic the planner then refuses a TT load of 0.78 with a CBS task that asks for no time
  (`GatesDisagree`); in doubles 0.80 - 0.78 - 0.02 comes out positive and that input is accepted.
- The TT counter stays exact if and only if a blocking TT task stops on its assigned CPU (`StepCountedIff`). One stop
  elsewhere keeps CBS work off the home CPU as long as no TT task of another CPU blocks there (`StrayLasts`,
  `StrayReachable`); `DriftRun` gives the error of every counter over any run.
- A removed task's old name can stay in a hole of the index, so its client may still resolve to the dead cell: -1 is
  returned if and only if no hole holds the name (`LookupAvoidsMapped`, `StaleHole`). A table of more than 32 tasks leaves
  some without a cell, and those are never woken (`AllMappedIff`, `UnmappedNeverWoken`).
- A node that calls SyncTimer again after the release re-arms the barrier and two acknowledgements disagree. There is
  at most one broadcast if and only if nobody checks in after completion (`AtMostOneBroadcastIff`, `SecondCallDisagrees`).
- The store can change a node's table without raising the flag: by a refused update of a known workload, which also loses
  the old version, and by a removal without a push, which is how recovery removes workloads
  (timpani-o/src/recovery_service.cpp:29). `UnflaggedChangeIff` says exactly when for one operation, `ReadersToldIff` for any
  operations between two readings, `FlaggedIff` for whole runs; `SilentChangesHappen` does both with the planner. Some
  synced node then holds an outdated table if and only if such a change hits it while it stays connected
  (`AlwaysCurrentIff`). `NodeLeftStale` gives two runs of planner, store and loop that end so with no replay pending, one
  by a refused update and one by a removal; the loop's record stays stale while the node is connected and no flag comes
  (`StaleStays`), and the next flagged pass repairs it (`FlaggedPassRepairs`). After a refused update the node really keeps
  the old table. After a removal recovery also broadcasts a stop (timpani-o/src/recovery_service.cpp:36-40) on which the
  node drops the workload's slots itself, so there only the loop's record is stale, unless the broadcast is lost.
- A pinned task of the Rust scheduler may land outside its mask (`KeepsToMaskIff`, `LandsOutsideMask`).
- A new fault may be delivered before older queued ones; delivery order is kept if and only if it does not
  (`InOrderKeptIff`, `OvertakingHappens`).
- A sched_info arrives intact if and only if the announced task count is the length of its list (`InfoRoundTripIff`, which
  fails the round trip on every other count).
- The 64-bit hyperperiod of the C++ planner wraps silently: it is the least common multiple if and only if that fits
  (`CalculateHyperperiod`). Periods are 32-bit fields, so neither one or two of them nor the harmonic periods of one CPU
  can wrap (`TwoNeverWrap`, `HarmonicNeverWraps`); three periods of a node can (`HyperperiodWraps`). The planner theorems
  below are stated for hyperperiods under 2^31.

The comment above the Rust `gcd` says that it returns 0 when either input is 0; the code and its tests return the other
input, and the model follows the code.

## Model

| member | source | states |
|---|---|---|
| `SlotPlacement.FindFreeSlot` | timpani-o/src/global_scheduler.cpp:293-312 | returns the least start in the frame that misses every occupied interval, in whatever order they are stored; -1 exactly when there is none; the same as trying every start in turn |
| `SlotPlacement.EarliestIsReference` | timpani-o/src/global_scheduler.cpp:293-312 | an earliest free start, or the absence of any, is what trying every start of the frame in turn finds |
| `SlotPlacement.ConflictIsIntersection` | timpani-o/src/global_scheduler.cpp:300-306 | the code's overlap test holds exactly when the two intervals share an instant |
| `SlotPlacement.PlaceJob` | timpani-o/src/global_scheduler.cpp:318-333 | one frame in 32-bit arithmetic: placed exactly if some start from kT on ends by kT+D and by the hyperperiod and clashes with nothing, and then at the earliest such start |
| `SlotPlacement.PlaceTask` | timpani-o/src/global_scheduler.cpp:314-348 | all hp/T instances of a task extend the greedy, separated layout; failure means the greedy strategy is stuck |
| `SlotPlacement.PlaceInOrder` | timpani-o/src/global_scheduler.cpp:314-348 | success is a complete layout of all jobs, failure names the first job without a free start |
| `SlotPlacement.PlaceTtSlots` | timpani-o/src/global_scheduler.cpp:266-359 | every job served once, inside its frame, slots pairwise disjoint and sorted by offset; succeeds exactly when the greedy strategy in a deadline-monotonic order places all jobs; the outcome is that of a reference function of tasks and sort order |
| `SlotPlacement.GreedyUnique` | timpani-o/src/global_scheduler.cpp:314-348 | the job order alone determines the layout, hence success or failure |
| `SlotPlacement.StuckIsLayout` | timpani-o/src/global_scheduler.cpp:314-348 | a greedy layout that is complete or stuck is the one the reference computes |
| `SlotPlacement.AllJobsValid` | timpani-o/src/global_scheduler.cpp:314-321 | the two loops visit every instance of every task in the hyperperiod exactly once |
| `SlotPlacement.JobsInOrder` | timpani-o/src/global_scheduler.cpp:314-321 | task by task, and instance by instance within a task |
| `SlotPlacement.LayoutPermute` | timpani-o/src/global_scheduler.cpp:350-354 | sorting the slots keeps the layout |
| `Gaps.ComputeGaps` | timpani-o/src/global_scheduler.cpp:365-397 | for sorted slots, overlapping or not, the gaps are exactly the uncovered instants of [0, hp); for separated slots lengths add up to hp |
| `Gaps.CoveredOnce` | timpani-o/src/global_scheduler.cpp:365-397 | no instant lies in two gaps nor in two slots |
| `Gaps.LayoutDemand` | timpani-o/src/global_scheduler.cpp:314-348 | the slots of a layout take exactly the sum of wcet times hp/T |
| `Gaps.LayoutRepeats` | timpani-o/src/global_scheduler.cpp:314-348 | a layout serves each task exactly hp/T times |
| `Gaps.DemandIsUtilization` | timpani-o/src/global_scheduler.cpp:365-397 | that demand is the tasks' utilisation times the hyperperiod |
| `CpuAssignment.AssignTt` | timpani-o/src/global_scheduler.cpp:175-211 | the load map equals the re-scan, and each workload sits wholly on its own CPU or, once they run out, on the last, by its place in the id order |
| `CpuAssignment.CpusSharedIff` | timpani-o/src/global_scheduler.cpp:175-210 | workloads take the CPUs in order, one each; two share a CPU if and only if both come at the last CPU or after it |
| `CpuAssignment.WorstFit` | timpani-o/src/global_scheduler.cpp:233-244 | first CPU of largest residual capacity that can take the task; -1 exactly when none can |
| `CpuAssignment.AssignCbs` | timpani-o/src/global_scheduler.cpp:213-259 | every CPU that receives CBS work keeps U_tt + U_cbs + 0.02 within 0.80; a refused task fits nowhere although only tasks at least as demanding were placed before it |
| `CpuAssignment.AllocateInOrder` | timpani-o/src/global_scheduler.cpp:442-472 | accepts exactly when the tasks fit; otherwise names the first task whose running total exceeds the room |
| `CpuAssignment.AllocateCbsBudgets` | timpani-o/src/global_scheduler.cpp:403-479 | accepts exactly when bandwidth is left and the tasks fit, whatever the order; one entry per task, most demanding first |
| `CpuAssignment.GatesAgree` | timpani-o/src/global_scheduler.cpp:411-418 | what the assignment accepted the allocation accepts too, except exactly when TT load and overhead equal the bound |
| `CpuAssignment.UtilizationPermute` | timpani-o/src/global_scheduler.cpp:432-441 | sorting does not change the utilisation |
| `Planner.PlaceOnCpu` | timpani-o/src/global_scheduler.cpp:68-102 | a sound TT layout over the CPU's own hyperperiod, or a refusal for non-harmonic periods, no period, or a stuck layout; the outcome is the reference's |
| `Planner.LayoutServes` | timpani-o/src/global_scheduler.cpp:314-316 | in a layout exactly the tasks with a positive period have slots |
| `Planner.LayoutWithin` | timpani-o/src/global_scheduler.cpp:314-348 | a CPU whose TT tasks got a layout has TT utilisation at most 1 |
| `Planner.PlaceAll` | timpani-o/src/global_scheduler.cpp:68-102 | the slots of all CPUs, or the first refusal in CPU order with its cause |
| `Planner.SubsetLcm` | timpani-o/src/global_scheduler.cpp:96-109 | a CPU's own hyperperiod divides the node's |
| `Planner.AllocateAll` | timpani-o/src/global_scheduler.cpp:111-137 | all CPUs get their gaps, the exact complement of their slots, and their CBS entries within the bound; or TT load and overhead fill the bound exactly on the named CPU |
| `Planner.FreeTime` | timpani-o/src/global_scheduler.cpp:111-121 | the gaps a CPU gets and the demand of its own TT tasks over their own hyperperiod add up to the node-wide hyperperiod |
| `Planner.BuildPartitions` | timpani-o/src/global_scheduler.cpp:485-559 | one partition for every CPU with slots or entries, in CPU order, and no other |
| `Planner.PartsRise` | timpani-o/src/global_scheduler.cpp:502-506 | partitions come in ascending order of their CPUs |
| `Planner.AvailableCpus` | timpani-o/src/global_scheduler.cpp:154-173 | the configured CPUs, or the default pair, ascending |
| `Planner.GenerateSchedule` | timpani-o/src/global_scheduler.cpp:32-142 | every table: distinct available CPUs, sound layouts in which exactly the TT tasks with a period have slots, TT utilisation at most 1, CBS within the bound, a partition for each task's CPU, workloads on one CPU; every refusal: its cause, down to the stuck job or the task that fits nowhere after more demanding ones; the result is a function of the input and the library |
| `Planner.SoundHoldsTasks` | timpani-o/src/global_scheduler.cpp:502-549 | an emitted table has a slot for every TT task with a period, an entry for every CBS task, and neither for anything else |
| `Planner.GlobalHyperperiod` | timpani-o/src/global_scheduler.cpp:104-109 | the least common multiple of all TT periods, 0 if there is none |
| `Planner.EveryTaskHasPartition` | timpani-o/src/global_scheduler.cpp:485-559 | skipping empty CPUs drops no CPU that a task was assigned to |
| `EndToEnd.TargetIsFireAt` | timpani-n/src/main.cpp:702-715 | nanosecond targets are the table's microsecond instants scaled by 1000 |
| `EndToEnd.RemovesWorkload` | timpani-n/src/timer_master.cpp:292-310 | removing a workload by its hash removes exactly its slots |
| `EndToEnd.OncePerPeriod` | timpani-n/src/timer_master.cpp:376-462 | with the CPU's own hyperperiod exactly one firing starts the task in [mT, mT+D-wcet], for every m |
| `EndToEnd.WindowServedIff` | timpani-n/src/timer_master.cpp:376-462 | with any multiple of the own hyperperiod as table cycle, window m gets exactly one start if m modulo the windows per cycle is below the windows per own hyperperiod, else none |
| `EndToEnd.NeverOverlap` | timpani-n/src/timer_master.cpp:376-462 | execution windows of any two firings are disjoint, also across wraps of the cycle |
| `EndToEnd.MissedWindow` | timpani-o/src/global_scheduler.cpp:96-140 | with a longer table cycle the first window after the own hyperperiod stays empty |
| `EndToEnd.OncePerPeriodIff` | timpani-o/src/global_scheduler.cpp:96-140 | every window is served if and only if table and own hyperperiod are equal |
| `EndToEnd.TtSoundIsPlanned` | timpani-o/src/global_scheduler.cpp:68-102 | the planner's output satisfies the hypotheses of the firing theorems |
| `EndToEnd.TableServedIff` | timpani-o/src/global_scheduler.cpp:32-142 | for every emitted table and every CPU with TT work: all windows of all tasks are served if and only if the CPU's hyperperiod is the published one |
| `EndToEnd.TimerKeepsPlan` | timpani-n/src/timer_master.cpp:327-331 | the timer's own sort keeps the plan |
| `EndToEnd.TimerServesPlan` | timpani-n/src/timer_master.cpp:311-467 | the timer's targets start each task exactly once in every window that has a slot and in no other, for all m, and never before the previous slot's execution time has passed |
| `EndToEnd.WindowRaisesCounter` | timpani-n/src/timer_master.cpp:376-487 | with at most 32 tasks in the table, the one firing of each served window raises the counter in the task's own cell and no other, whatever the other CPUs' timers did before |
| `EndToEnd.CounterCountsFirings` | timpani-n/src/timer_master.cpp:469-487 | after any interleaving of all timers a mapped task's counter has risen by the firings for it on its own CPU, modulo 2^32 |
| `EndToEnd.RoundsRepeat` | timpani-n/src/timer_master.cpp:376-462 | in k rounds of a planned CPU's table each task fires exactly k * hp/T times |
| `EndToEnd.UnmappedNeverWoken` | timpani-n/src/timer_master.cpp:469-487 | a firing for a task without a cell changes no counter |
| `NodeTimers.CollectEntries` | timpani-n/src/main.cpp:622-715 | the entries of all partitions, in order |
| `NodeTimers.SplitByCpu` | timpani-n/src/timer_master.cpp:208-216 | each CPU that has entries gets exactly its own, in their order |
| `NodeTimers.OnCpuSame` | timpani-n/src/timer_master.cpp:208-216 | which entries a CPU gets does not depend on how the table was sorted |
| `NodeTimers.SplitUndoesCollect` | timpani-n/src/timer_master.cpp:208-216 | splitting the collected table gives each CPU back the slots of its partition |
| `NodeTimers.Start` | timpani-n/src/timer_master.cpp:196-260 | one timer per CPU with entries, holding just these in ascending order |
| `NodeTimers.TableServed` | timpani-n/src/timer_master.cpp:196-467 | for a whole emitted table: every TT task's CPU has a timer, and every timer holds a plan of its CPU's tasks and wakes each exactly once in every window the plan fills, in no other, and never early |
| `NodeTimers.TableCounted` | timpani-n/src/timer_master.cpp:376-487 | with at most 32 tasks of distinct hashes each has a cell whose counter rises by k * hp/T, modulo 2^32, in k rounds of its CPU's timer, however the timers interleave |
| `NodeTimers.RunTable` | timpani-n/src/timer_master.cpp:87-260 | updating the index and starting the timers of an emitted table establishes both |
| `NodeTimers.PlanAndRun` | timpani-n/src/main.cpp:622-715 | planner, index and timers together: whatever the planner accepts is served and counted so |
| `TimerMaster.CatchUpIsLeast` | timpani-n/src/timer_master.cpp:355-371 | with a past epoch the first start is the least epoch + m*hp strictly after now |
| `TimerMaster.RightStartIff` | timpani-n/src/timer_master.cpp:355-371 | the start is now without an epoch, the epoch itself while it is not past, else the least boundary of its grid strictly after now, and no other instant is right |
| `TimerMaster.PhaseCongruent` | timpani-n/src/timer_master.cpp:355-371 | CPUs and nodes with the same non-zero epoch start congruent modulo the hyperperiod, whenever they start |
| `TimerMaster.PhaseForever` | timpani-n/src/timer_master.cpp:376-462 | and stay so in every round |
| `TimerMaster.NextStartIsNextTarget` | timpani-n/src/timer_master.cpp:274-288 | the published next TT start at step n is target n+1, also across the wrap |
| `TimerMaster.TargetsMonotone` | timpani-n/src/timer_master.cpp:376-462 | targets never go back in time when offsets lie inside the hyperperiod |
| `TimerMaster.CpuTimer.constructor` | timpani-n/src/timer_master.cpp:327-371 | sorted slots and the right start: now, the epoch still ahead, or the least boundary after now; idle without slots or hyperperiod |
| `TimerMaster.CpuTimer.Fire` | timpani-n/src/timer_master.cpp:337-462 | the n-th iteration sleeps until start + (n div k)*hp + offset[n mod k], wakes that slot, and publishes the lead to target n+1; an idle worker never fires |
| `ShmIndex.TaskIndex.constructor` | timpani-n/src/timer_master.cpp:28-59 | any shared-memory contents are a valid start, with nothing mapped |
| `ShmIndex.TaskIndex.SetScheduleTable` | timpani-n/src/timer_master.cpp:87-179 | the table is kept sorted; tasks of both tables keep their cell, min(32, distinct) tasks are mapped injectively, new ones take the lowest free cells, counters of the others go on, holes keep their old name |
| `ShmIndex.KeepExisting` | timpani-n/src/timer_master.cpp:120-138 | the first pass maps exactly the tasks mapped before, at their old cells |
| `ShmIndex.AllocateNew` | timpani-n/src/timer_master.cpp:140-160 | the second pass fills the lowest free cells until tasks or cells run out |
| `ShmIndex.Allocate` | timpani-n/src/timer_master.cpp:120-160 | both passes: stable, filled, lowest first, first match by name |
| `ShmIndex.IndexSize` | timpani-n/src/timer_master.cpp:120-160 | at most 32 tasks are mapped, exactly 32 when no cell is free |
| `ShmIndex.AllMappedIff` | timpani-n/src/timer_master.cpp:140-160 | all tasks of the table are mapped if and only if there are at most 32 |
| `ShmIndex.HighestPlusOne` | timpani-n/src/timer_master.cpp:162-175 | the published count is one past the largest index in use |
| `ShmIndex.LookupFindsMapped` | sample-apps/src/libttsched.c:21-34 | the first match by name is the mapped cell, despite stale names in holes |
| `ShmIndex.LookupAvoidsMapped` | sample-apps/src/libttsched.c:21-34 | an unmapped task never resolves to a cell in use, and gets -1 exactly when no hole holds its name |
| `ShmIndex.StaleHole` | sample-apps/src/libttsched.c:21-34 | two table updates after which a removed task's lookup returns its old cell |
| `ShmIndex.TaskIndex.FindTaskSlot` | sample-apps/src/libttsched.c:21-34 | -1 without the magic word, else the first match, which is the mapped cell of a mapped task |
| `ShmIndex.TaskIndex.RemoveWorkload` | timpani-n/src/timer_master.cpp:290-309 | the other workloads' slots stay, in order and number; the index stays |
| `ShmIndex.TaskIndex.WakeTask` | timpani-n/src/timer_master.cpp:469-487 | only the task's own counter moves |
| `CbsServer.BandwidthBound` | timpani-n/src/bpf/timpani.bpf.c:111-122 | for every interleaving on a clock that does not go back: charged time at most budget*(1+floor((t-t0)/P)), remaining at most budget, replenishment on the grid t0+kP |
| `CbsServer.BudgetsGranted` | timpani-n/src/bpf/timpani.bpf.c:111-122 | over any run: time charged, budget left and budget forfeited at refills add up to one budget plus one per refill, a refill being the first operation other than a stop in a period not yet settled |
| `CbsServer.FirstOfPeriodRefills` | timpani-n/src/bpf/timpani.bpf.c:111-122 | the first operation in a period, unless a stop, finds the whole budget, whatever was left |
| `CbsServer.RefillIsWhole` | timpani-n/src/bpf/timpani.bpf.c:111-122 | from the replenishment instant on such an operation leaves the whole budget, before it nothing changes |
| `CbsServer.ReleasedIff` | timpani-n/src/bpf/timpani.bpf.c:193-226 | a throttled task that the scan reaches is let in exactly when the instant has come, and then with the whole budget |
| `CbsServer.AlwaysMetered` | timpani-n/src/bpf/timpani.bpf.c:356-402 | the inductive invariant: charged plus remaining is covered by the budgets of the instants passed |
| `CbsServer.NoPeriodBound` | timpani-n/src/bpf/timpani.bpf.c:111-122 | without a period charged plus remaining is always the one budget |
| `CbsServer.SliceEndsBeforeTt` | timpani-n/src/bpf/timpani.bpf.c:316-345 | a slice ends by the next TT start, except for the minimum of one microsecond |
| `CbsServer.SliceIsLargest` | timpani-n/src/bpf/timpani.bpf.c:331-342 | slices are whole microseconds; u of them are granted exactly if so much budget is left and they end by the next TT start, or u is 1 |
| `CbsServer.LostRefillIff` | timpani-n/src/bpf/timpani.bpf.c:390-403 | after a run that exhausts the budget a due refill is missing if and only if the run stopped at or after the replenishment instant and the next one is still ahead; a period later the budget is full again |
| `CbsServer.RefillLost` | timpani-n/src/bpf/timpani.bpf.c:390-403 | a run over the instant at 10 ms after which the server is still empty at 15 ms |
| `CbsServer.ProcessorTimeBound` | timpani-n/src/bpf/timpani.bpf.c:316-402 | real processor time of a server's task is within the bound plus 999 ns per stop |
| `CbsServer.NothingLeaksIff` | timpani-n/src/bpf/timpani.bpf.c:356-368 | processor time equals the time charged if and only if every run lasts whole microseconds, and then stays within the plain bound |
| `CbsServer.RoundingLeak` | timpani-n/src/bpf/timpani.bpf.c:356-402 | any number of bursts of 999 ns inside the first period is charged nothing |
| `CbsServer.LeakBreaksBound` | timpani-n/src/bpf/timpani.bpf.c:356-368 | every server with 2 * budget + 1 < period has a life that exceeds its bandwidth bound within the first period |
| `CbsServer.CbsCell.constructor` | timpani-n/src/main.cpp:802-817 | registered with a full budget and first replenishment one period ahead |
| `CbsServer.CbsCell.LazyReplenish` | timpani-n/src/bpf/timpani.bpf.c:111-122 | from the instant on the budget is whole and the next instant ahead, before it the cell is untouched; the step of the run theorems |
| `CbsServer.CbsCell.OnEnqueue` | timpani-n/src/bpf/timpani.bpf.c:274-292 | throttled exactly when no budget is left after replenishing |
| `CbsServer.CbsCell.OnRunning` | timpani-n/src/bpf/timpani.bpf.c:316-345 | start stamp and slice |
| `CbsServer.CbsCell.OnStopping` | timpani-n/src/bpf/timpani.bpf.c:356-402 | deducts the charge and reports an exhausted budget |
| `TtPriority.StepCountedIff` | timpani-n/src/bpf/timpani.bpf.c:135-167 | one operation keeps counters equal to the number of flagged tasks if and only if a blocking TT task stops on its CPU |
| `TtPriority.StrayStop` | timpani-n/src/bpf/timpani.bpf.c:419-424 | a stop elsewhere leaves the home counter one too high |
| `TtPriority.DriftStep` | timpani-n/src/bpf/timpani.bpf.c:135-167 | one operation changes the error of a CPU's counter by one up if a task of that CPU blocks, and by one down if a task blocks on that CPU while the counter is positive |
| `TtPriority.DriftRun` | timpani-n/src/bpf/timpani.bpf.c:135-167 | over any run, from any maps, the error of a counter changes by the sum of these |
| `TtPriority.StrayLasts` | timpani-n/src/bpf/timpani.bpf.c:419-424 | after one stray stop the home counter stays above the number of runnable tasks, and CBS work off that CPU, as long as no TT task of another CPU blocks there |
| `TtPriority.StrayReachable` | timpani-n/src/bpf/timpani.bpf.c:252-296 | two operations from fresh maps that lead there |
| `TtPriority.AlwaysCounted` | timpani-n/src/bpf/timpani.bpf.c:252-296 | counters are exact after every run of operations |
| `TtPriority.TtAlwaysWins` | timpani-n/src/bpf/timpani.bpf.c:298-313 | in every reachable state the activity word is all ones exactly when the count is positive, 0 otherwise, and dispatch admits CBS work exactly when no TT task of the CPU is runnable |
| `TtPriority.ReenqueueIdempotent` | timpani-n/src/bpf/timpani.bpf.c:135-148 | re-enqueueing, also after a preemption, never counts twice |
| `TtPriority.SchedMaps.OnEnqueue` | timpani-n/src/bpf/timpani.bpf.c:252-296 | in-place update is the step of the run theorems, and the queue chosen |
| `TtPriority.SchedMaps.OnStopping` | timpani-n/src/bpf/timpani.bpf.c:419-424 | in-place update is the step of the run theorems |
| `TtPriority.SchedMaps.OnDispatch` | timpani-n/src/bpf/timpani.bpf.c:298-313 | CBS work is consumed exactly when no TT activity is recorded for the CPU |
| `SyncBarrier.ComputeStartTime` | timpani_rust/timpani-o/src/grpc/node_service.rs:95-102 | one second ahead, with a normalised nanosecond part |
| `SyncBarrier.RunInv` | timpani_rust/timpani-o/src/grpc/node_service.rs:170-320 | the protocol invariant holds after every sequence of events |
| `SyncBarrier.BarrierAgreement` | timpani_rust/timpani-o/src/grpc/node_service.rs:182-319 | in every reachable state acks carry a start time of their own workload, broadcast only when every active node had checked in, and the same one if each node calls at most once |
| `SyncBarrier.AtMostOneBroadcastIff` | timpani_rust/timpani-o/src/grpc/node_service.rs:202-234 | at most one broadcast if and only if nobody checks in once the set is complete |
| `SyncBarrier.OnceMeansNoLateCall` | timpani_rust/timpani-o/src/grpc/node_service.rs:202-234 | single calls are enough for that |
| `SyncBarrier.SecondCallDisagrees` | timpani_rust/timpani-o/src/grpc/node_service.rs:202-234 | a reachable state in which two acks of one workload disagree |
| `SyncBarrier.NoStuckHandler` | timpani_rust/timpani-o/src/grpc/node_service.rs:247-319 | in every reachable state a handler can return once its barrier left Waiting or its workload was replaced |
| `SyncBarrier.RepliesExplained` | timpani_rust/timpani-o/src/grpc/node_service.rs:249-317 | in every run a handler is told aborted only if its workload was replaced, deadline exceeded only if its own sleep ended or one did while its workload was current and waited for, and an ack only with a start of its workload |
| `SyncBarrier.ReplacedIsAborted` | timpani_rust/timpani-o/src/grpc/node_service.rs:269-289 | a handler alive when its workload is replaced returns aborted, whatever follows, unless its own sleep ends or its caller hangs up first |
| `SyncBarrier.TimeoutIsExceeded` | timpani_rust/timpani-o/src/grpc/node_service.rs:290-317 | when a sleep ends, every other handler alive on the current workload returns deadline exceeded, unless a new check-in or workload intervenes |
| `SyncBarrier.CompletionIsAcked` | timpani_rust/timpani-o/src/grpc/node_service.rs:207-268 | when a check-in completes the set, every handler alive returns an ack with that start time, unless a sleep ends, a new check-in or a workload intervenes |
| `SyncBarrier.NeverWaitingAgain` | timpani_rust/timpani-o/src/grpc/mod.rs:47-120 | no event takes a barrier back to Waiting |
| `SyncBarrier.WorkloadStore.Store` | timpani_rust/timpani-o/src/grpc/schedinfo_service.rs:173-192 | replacing a workload cancels the old barrier |
| `SyncBarrier.WorkloadStore.CheckInNode` | timpani_rust/timpani-o/src/grpc/node_service.rs:182-235 | phase 1 with its three refusals, each exactly when its condition holds |
| `SyncBarrier.WorkloadStore.ReadHandler` | timpani_rust/timpani-o/src/grpc/node_service.rs:249-287 | phase 2: the reply that the channel's value calls for, none while it is waiting |
| `SyncBarrier.WorkloadStore.WakeHandler` | timpani_rust/timpani-o/src/grpc/node_service.rs:289-297 | a new version is read; without one a handler of a replaced workload returns aborted |
| `SyncBarrier.WorkloadStore.TimeOutHandler` | timpani_rust/timpani-o/src/grpc/node_service.rs:300-317 | a timeout broadcasts on whichever workload is current |
| `ReplayLoop.BackoffDoubles` | timpani-o/src/main.cpp:325-341 | 500 ms doubling up to 8 s from the fifth failure on; the cap never bites |
| `ReplayLoop.ObserveValid` | timpani-o/src/main.cpp:202-224 | connects and disconnects keep the invariant and only synced nodes still connected stay synced |
| `ReplayLoop.ObserveMarks` | timpani-o/src/main.cpp:202-224 | nodes that came or went are forgotten, all others untouched; a replay is queued exactly if one came |
| `ReplayLoop.ApplyChange` | timpani-o/src/main.cpp:226-276 | the loop over the connected nodes does to all marks what the reference says |
| `ReplayLoop.ChangedValid` | timpani-o/src/main.cpp:226-276 | that unsyncs exactly the nodes whose table changed by more than its epoch, queues a replay exactly if there is one, and leaves nothing stale |
| `ReplayLoop.ChangedMarks` | timpani-o/src/main.cpp:226-276 | an outdated node loses its synced mark, failures and retry instant, all others are untouched; without tables everything is forgotten |
| `ReplayLoop.PushAll` | timpani-o/src/main.cpp:287-343 | every due node is attempted once; marks, failure count, retry instant and last table of each node follow from its own state only |
| `ReplayLoop.Iterate` | timpani-o/src/main.cpp:191-361 | after any pass synced nodes are connected, and those not holding their current table are exactly the connected ones whose table was replaced without the flag; a replay is pending exactly while a connected node is unsynced; each node was attempted as its marks say, and none if nothing was pending |
| `ReplayLoop.AcceptingAreSynced` | timpani-o/src/main.cpp:278-343 | when all connected nodes accept and no retry is still to wait for, a pass syncs them all |
| `ReplayLoop.Replay` | timpani-o/src/main.cpp:175-361 | from the initial variables, all of this holds after each of any number of passes |
| `ReplayLoop.AlwaysCurrentIff` | timpani-o/src/main.cpp:226-276 | synced nodes hold their current table after each of the first k passes if and only if no pass met a silent change of a synced node's table |
| `ReplayLoop.FlaggedPassRepairs` | timpani-o/src/main.cpp:226-276 | after a flagged pass no synced node is outdated, whatever happened before |
| `ReplayLoop.FlaggedRunsCurrent` | timpani-o/src/main.cpp:191-361 | when tables only change together with the flag, synced nodes are always up to date |
| `ReplayLoop.StaleStays` | timpani-o/src/main.cpp:191-361 | over any passes without the flag and with the same tables, a connected stale node stays stale |
| `ReplayLoop.LeftStale` | timpani-o/src/main.cpp:191-361 | a node that accepted its flagged table and whose table is then replaced without the flag is stale, taken for synced, and no replay is pending |
| `WorkloadStore.Regenerate` | timpani-o/src/schedinfo_service.cpp:141-179 | all tables or none; succeeds exactly when every node can be scheduled |
| `WorkloadStore.Store.AddSchedInfo` | timpani-o/src/schedinfo_service.cpp:109-131 | accepted exactly when every node can be scheduled; otherwise the id is erased and the rest regenerated without the flag; node keys never shrink |
| `WorkloadStore.Resolve` | timpani-o/src/schedinfo_service.cpp:333-344 | a removal means the workload of that id, else the first whose hash it spells, and nothing exactly when there is neither |
| `WorkloadStore.FirstMatchAt` | timpani-o/src/schedinfo_service.cpp:335-343 | no id before the one found matches |
| `WorkloadStore.Store.RemoveWorkload` | timpani-o/src/schedinfo_service.cpp:330-368 | the workload meant is removed in any case, tables are replaced only if all nodes can be scheduled, and the flag is raised only on request; nothing happens if none is meant |
| `WorkloadStore.Store.GetScheduleTables` | timpani-o/src/schedinfo_service.cpp:211-219 | hands out the tables and clears the flag |
| `WorkloadStore.RegenerationIsStable` | timpani-o/src/schedinfo_service.cpp:141-179 | regenerating from the same workloads is possible and changes nothing but the epoch, for every scheduler that is a function of its input |
| `WorkloadStore.RollbackRestoresIff` | timpani-o/src/schedinfo_service.cpp:119-128 | a refusal restores the workloads if and only if the id was new, and then keeps the tables up to their epoch |
| `WorkloadStore.UnflaggedChangeIff` | timpani-o/src/schedinfo_service.cpp:109-131 | from generated tables, an operation raises the flag or keeps the tables if and only if the flag is up, the operation raises it, the id is unknown, the rest cannot be scheduled, or no node's plan depends on the workload |
| `WorkloadStore.FlaggedOrSameIff` | timpani-o/src/schedinfo_service.cpp:330-363 | the same from any state in which every target has a table |
| `WorkloadStore.RunOpsTables` | timpani-o/src/schedinfo_service.cpp:141-179 | after any operations the flag is up exactly when one raised it; without that the tables are those of the last silent regeneration |
| `WorkloadStore.ReadersToldIff` | timpani-o/src/schedinfo_service.cpp:211-219 | over any operations between two readings: the reader is told of every real change if and only if one raised the flag, none replaced the tables, or the last silent replacement plans every node as before |
| `WorkloadStore.SilentChanges` | timpani-o/src/schedinfo_service.cpp:119-128 | with one node and one workload, a refused update and a removal without push each change the table and leave the flag down |
| `Orchestrator.Gather` | timpani-o/src/schedinfo_service.cpp:157-164 | the tasks planned for a node are all tasks of its workloads, each workload's together and in order, in the order of the ids, and nothing else |
| `Orchestrator.PlanNode` | timpani-o/src/schedinfo_service.cpp:156-172 | the planner run for a node gives what a fixed function of node, configuration and workloads gives, so it is a scheduler in the store's sense; an accepted table holds every task of every workload given and no other, a refusal has its cause |
| `Orchestrator.RegenerateAll` | timpani-o/src/schedinfo_service.cpp:141-179 | with the planner: all tables or none; then every task of every workload is in the table of each node it targets, and no table holds a task of a workload that does not target its node |
| `Orchestrator.FlaggedIff` | timpani-o/src/main.cpp:191-276 | whatever operations happen between the passes, tables change only together with the flag if and only if every round tells of its changes |
| `Orchestrator.ToldRunsCurrent` | timpani-o/src/main.cpp:191-361 | then each synced node holds the store's table after every pass |
| `Witnesses.SilentChangesHappen` | timpani-o/src/recovery_service.cpp:26-35 | with the planner as scheduler, a refused update and a removal without push change the node's table unnoticed |
| `Witnesses.PlannerFacts` | timpani-o/src/global_scheduler.cpp:228-250 | as the store's scheduler the planner accepts a workload of CBS utilisation 0.5, refuses one of 0.9, and has another table for no workload |
| `Witnesses.GatesDisagree` | timpani-o/src/global_scheduler.cpp:411-418 | in exact arithmetic the planner assigns a CBS task without demand to a CPU with TT load 0.78 and then refuses for lack of CBS bandwidth |
| `Witnesses.NodeLeftStale` | timpani-o/src/schedinfo_service.cpp:119-128 | planner, store and loop together: a workload is accepted and delivered, then an update of it is refused, or it is removed without a push; the loop takes the node for synced with the old table and no replay is pending |
| `Witnesses.SplitHyperperiods` | timpani-o/src/global_scheduler.cpp:96-140 | the planner emits a table published with 20 whose first CPU repeats every 10 |
| `Witnesses.PeriodMissed` | timpani-n/src/timer_master.cpp:376-462 | on that CPU some period window is not served |
| `RustScheduler.FindBestCpu` | timpani_rust/timpani-o/src/scheduler/mod.rs:488-546 | the pinned CPU if it fits, else the highest-numbered CPU that fits; none exactly when none fits |
| `RustScheduler.AdmissionIff` | timpani_rust/timpani-o/src/scheduler/mod.rs:440-475 | each refusal in its own case, the first that applies; admitted exactly if the node exists, has the memory and has the lowest CPU of the mask |
| `RustScheduler.KeepsToMaskIff` | timpani_rust/timpani-o/src/scheduler/mod.rs:501-543 | a pinned task stays in its mask if and only if the lowest CPU of a non-empty mask fits, or it does not and the highest fitting CPU is in the mask |
| `RustScheduler.LandsOutsideMask` | timpani_rust/timpani-o/src/scheduler/mod.rs:515-541 | a task pinned to a full CPU 0 is put on CPU 1 |
| `RustScheduler.AssignCpu` | timpani_rust/timpani-o/src/scheduler/mod.rs:554-574 | the live map stays equal to the re-scan and within 0.90 |
| `RustScheduler.NodeUtilization` | timpani_rust/timpani-o/src/scheduler/mod.rs:590-594 | the node total from the map equals the re-scan, and a CPU with room means the node has |
| `RustScheduler.NodeLoadIsSum` | timpani_rust/timpani-o/src/scheduler/mod.rs:590-594 | adding up CPUs counts every task of the node once |
| `RustScheduler.TargetNodePriority` | timpani_rust/timpani-o/src/scheduler/mod.rs:161-226 | every task on its target node, or the first task refused with the reason that applies |
| `RustScheduler.LeastLoadedNode` | timpani_rust/timpani-o/src/scheduler/mod.rs:285-314 | the least loaded admissible node, none exactly when no node is admissible |
| `RustScheduler.BestFitNode` | timpani_rust/timpani-o/src/scheduler/mod.rs:376-426 | the admissible target, else the tightest admissible node; the capacity filter never excludes a candidate |
| `RustScheduler.PlaceEach` | timpani_rust/timpani-o/src/scheduler/mod.rs:232-374 | all tasks placed, or NoSchedulableNode only when no node is admissible; the skipping branch is unreachable |
| `RustScheduler.BuildSchedMap` | timpani_rust/timpani-o/src/scheduler/mod.rs:700-709 | each node's group is the tasks placed on it, in order, and only non-empty groups appear |
| `RustScheduler.GroupAt` | timpani_rust/timpani-o/src/scheduler/mod.rs:700-709 | the i-th task stands in its node's group behind exactly those placed there before it |
| `RustScheduler.GroupsPartition` | timpani_rust/timpani-o/src/scheduler/mod.rs:700-709 | the tasks on the listed nodes and on the nameless one are all tasks, with their multiplicity |
| `RustScheduler.RunAlgorithm` | timpani_rust/timpani-o/src/scheduler/mod.rs:106-155 | a permutation of the tasks, all placed or stopped at a task refused for cause |
| `RustScheduler.Schedule` | timpani_rust/timpani-o/src/scheduler/mod.rs:106-155 | on success the returned groups together hold every given task exactly once, except those on a node with an empty name, each on a CPU of its node, with every CPU at most 0.90; each error exactly in its own case and with its cause |
| `Divisibility.GcdIsGreatest` | timpani_rust/timpani-o/src/hyperperiod/math.rs:17-24 | the Euclidean result divides both and every common divisor divides it |
| `Divisibility.LcmIsLeast` | timpani_rust/timpani-o/src/hyperperiod/math.rs:34-46 | dividing first yields the least common multiple |
| `Divisibility.LcmOfIsLeast` | timpani-o/src/global_scheduler.cpp:581-594 | the fold is the least common multiple of all periods |
| `Hyperperiod.ComputeGcd` | timpani-o/src/global_scheduler.cpp:565-573 | the loop computes the greatest common divisor |
| `Hyperperiod.ComputeLcm` | timpani-o/src/global_scheduler.cpp:575-579 | least common multiple modulo 2^64, 0 for a zero input |
| `Hyperperiod.CalculateHyperperiod` | timpani-o/src/global_scheduler.cpp:581-594 | the result is the least common multiple if and only if that fits in 64 bits |
| `Hyperperiod.TwoNeverWrap` | timpani-o/src/global_scheduler.cpp:575-594 | one or two 32-bit periods never wrap |
| `Hyperperiod.HarmonicNeverWraps` | timpani-o/src/global_scheduler.cpp:92-98 | nor do the harmonic periods of one CPU |
| `Hyperperiod.HyperperiodWraps` | timpani-o/src/global_scheduler.cpp:104-109 | three 32-bit periods of a node whose result wraps and is no common multiple |
| `Hyperperiod.ValidateHarmonic` | timpani-o/src/global_scheduler.cpp:596-615 | comparing all pairs of the sorted set accepts exactly the sets in which of any two periods one divides the other |
| `Hyperperiod.HarmonicHyperperiod` | timpani-o/src/global_scheduler.cpp:596-615 | a harmonic set has its maximum as hyperperiod |
| `Hyperperiod.CheckedLcm` | timpani_rust/timpani-o/src/hyperperiod/math.rs:34-46 | overflow is reported exactly when the true result does not fit |
| `Hyperperiod.LcmOfSlice` | timpani_rust/timpani-o/src/hyperperiod/math.rs:53-57 | Err exactly when the least common multiple of the whole slice exceeds u64::MAX, though the fold stops early |
| `Hyperperiod.SameElementsSameLcm` | timpani_rust/timpani-o/src/hyperperiod/mod.rs:168-200 | sorting and deduplicating first does not change the result |
| `Hyperperiod.MatchingCount` | timpani_rust/timpani-o/src/hyperperiod/mod.rs:168-172 | one period for each task of the workload that has one |
| `Hyperperiod.HyperperiodManager.Calculate` | timpani_rust/timpani-o/src/hyperperiod/mod.rs:162-224 | each of the four outcomes exactly under its condition; stored only on success |
| `Serializer.SignedRoundTrip` | libtrpc/src/serialize.h:21-79 | signed integers of every width survive network byte order |
| `Serializer.BigEndianAt` | libtrpc/src/serialize.h:21-49 | network order: the i-th of w bytes has weight 256^(w-1-i) |
| `Serializer.PopAfterPush` | libtrpc/src/serialize.c:145-195 | a pop returns what was pushed and restores every byte below |
| `Serializer.StackRoundTrip` | libtrpc/src/serialize.c:145-195 | any sequence of pushes is undone by popping in reverse |
| `Serializer.InfoRoundTripIff` | libtrpc/test/trpc_client.c:35-75 | a sched_info comes back whole, task list in its order, if and only if the announced count is its length |
| `Serializer.SerialBuf.constructor` | libtrpc/src/serialize.c:76-95 | an empty buffer of the asked or the default size |
| `Serializer.SerialBuf.FromBytes` | libtrpc/src/serialize.c:97-109 | positioned at the end of the received bytes |
| `Serializer.SerialBuf.ReserveSpace` | libtrpc/src/serialize.c:126-143 | growth always provides enough room and keeps the prefix; fails exactly when it must grow and cannot |
| `Serializer.SerialBuf.WriteInt` | libtrpc/src/serialize.h:21-49 | pushes the bytes, or leaves the contents alone when memory runs out |
| `Serializer.SerialBuf.WriteBlob` | libtrpc/src/serialize.c:152-164 | pushes bytes and length, or leaves the contents alone |
| `Serializer.SerialBuf.ReadInt` | libtrpc/src/serialize.h:51-79 | pops, or fails without moving |
| `Serializer.SerialBuf.ReadBlob` | libtrpc/src/serialize.c:166-179 | pops, or fails, having consumed the length word if only the bytes are missing |
| `Serializer.SerializeSchedInfo` | libtrpc/test/trpc_server.c:25-66 | the buffer holds exactly the tasks in order, then the header |
| `Serializer.DeserializeSchedInfo` | libtrpc/test/trpc_client.c:35-75 | on any bytes, fields whose pop failed keep what they held and the list has the announced length |
| `FaultQueue.FaultClient.Initialize` | timpani-o/src/fault_client.cpp:18-37 | initialised exactly when it was, or the address is non-empty and the channel could be created |
| `FaultQueue.FaultClient.Flush` | timpani-o/src/fault_client.cpp:102-113 | delivers from the front up to the first failure |
| `FaultQueue.FaultClient.Enqueue` | timpani-o/src/fault_client.cpp:115-123 | appends, dropping the oldest of a full queue |
| `FaultQueue.FaultClient.NotifyFault` | timpani-o/src/fault_client.cpp:44-75 | true exactly when the call's own fault was delivered; nothing happens before initialisation; no fault is lost or duplicated |
| `FaultQueue.EveryFaultInOnePlace` | timpani-o/src/fault_client.cpp:44-123 | in every run each fault is exactly once delivered, queued or dropped, and the queue holds at most 1024 |
| `FaultQueue.OldestDroppedFirst` | timpani-o/src/fault_client.cpp:115-123 | in every run the queue is in arrival order and newer than everything dropped |
| `FaultQueue.InOrderKeptIff` | timpani-o/src/fault_client.cpp:62-72 | a call keeps the delivery order if and only if its fault does not overtake the queue |
| `FaultQueue.DeliveredInOrder` | timpani-o/src/fault_client.cpp:44-123 | runs without overtaking deliver in arrival order |
| `FaultQueue.OvertakingHappens` | timpani-o/src/fault_client.cpp:62-72 | a run that delivers an older fault after a newer one |

## Left out

- Floating point: utilisations are exact reals, so rounding at the bounds 0.80 and 0.90 is not modelled.
- TableServed: stated for tasks with positive execution time and a deadline within the period; the planner does not check either.
- FindFreeSlot: stated for hyperperiod + deadline + wcet below 2^31, because offsets pass through 32-bit signed and unsigned integers; the same hypothesis runs through the planner.
- GenerateSchedule: `std::sort` is a fixed function from keys to a sorted permutation and `std::map` lists its keys in a fixed order; which ones they are is left open, so ties between equal deadlines are too.
- ValidateHarmonic: stated for positive periods; the only caller filters zeros, and the code would divide by zero otherwise.
- AvailableCpus: configured CPU ids are taken as non-negative 31-bit numbers.
- CpuTimer.Fire: nanosecond clocks are unbounded, and sleep jitter, thread stop and table swaps between iterations are left out.
- WindowRaisesCounter: firings are atomic steps. Cells go by the hash of the task id alone, so two workloads that share a task id may raise one cell from two CPUs.
- CounterCountsFirings: assumes that slots of the task's hash are on one CPU (`OnlyOn`); `OnItsCpu` derives it where all TT tasks of the node have distinct hashes.
- TableCounted: assumes distinct hashes of the node's TT tasks; the code checks neither that nor distinct task ids.
- NodeLeftStale: the stop signal that recovery broadcasts after a removal, and what the node does on it, are not steps of the run.
- SetScheduleTable: assumes that task hash and 15-character name determine each other; publication and lookup are atomic steps, so per-instruction races with the client are not covered.
- ProcessorTimeBound: assumes a server with one task that leaves the CPU within its slice; the kernel's own slice enforcement is not modelled.
- ReleasedIff: the limit on how many throttled tasks one dispatch scans is not modelled, so when the scan reaches a task is left open.
- TtAlwaysWins: covers the scheduler's own operations; user space resetting the runnable flag on a new table is not a step.
- Store.RemoveWorkload: whether a text spells a workload's hash is a parameter; the exception on a malformed text after 0x is not modelled.
- SerializeSchedInfo: assumes that growing the buffer succeeds, where the source goes on after a failed write; sizes are unbounded.
- DeserializeSchedInfo: the fixed sizes of the receiving C arrays are not modelled.
- PopTasks: the unset fields of a freshly allocated task are one arbitrary value for all tasks of a message.
- Float and double serialization, which reinterpret bits of the same widths.
- gRPC, protobuf, D-Bus, futex, mmap and BPF map calls: their outcomes are parameters or steps.
- Priority and CPU-selection hooks of the kernel scheduler other than enqueue, dispatch, running and stopping.
- Classification of incoming tasks in the workload store.
- Deadline-miss reporting, fault monitor, statistics, jitter histograms, logging: easy state.
- Liu and Layland check of the Rust scheduler, which only warns.
- YAML, command line, cgroup and /proc handling, sample workloads, simulators and build files.
