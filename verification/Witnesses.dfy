/** Concrete inputs on which the planner and the store behave as the exact conditions say. */
module Witnesses {
  import opened Basics
  import opened Sequences
  import opened Divisibility
  import opened Hyperperiod
  import opened SlotPlacement
  import opened Gaps
  import opened CpuAssignment
  import opened Planner
  import opened EndToEnd
  import opened WorkloadStore
  import opened ReplayLoop
  import opened Orchestrator

  // ---- a workload that fits and one that does not ----

  const LIGHT: ClassifiedTask := ClassifiedTask("w", "c", CBS, 2, 1, 2, 0)
  const HEAVY: ClassifiedTask := ClassifiedTask("w", "c", CBS, 10, 9, 10, 0)

  lemma OneCbs(t: ClassifiedTask)
    requires t.mechanism == CBS
    ensures OfMechanism([t], TT) == [] && OfMechanism([t], CBS) == [t]
  {
    assert [t][..0] == [];
  }

  lemma OneLoad(t: ClassifiedTask, at: int, cpu: int)
    ensures Load([t], [at], cpu) == (if at == cpu then TaskUtilization(t) else 0.0)
    ensures Collect([t], [at], cpu) == if at == cpu then [t] else []
  {
    assert [t][..0] == [] && [at][..0] == [];
  }

  lemma LightHasRoom(cbsCpu: seq<int>, i: int)
    requires |cbsCpu| == 1
    ensures !FitsNowhere([2, 3], [], [LIGHT], [], cbsCpu, i)
  {
    assert 2 in [2, 3];
    if cbsCpu[0] == -1 {
      OneLoad(LIGHT, -1, 2);
      assert cbsCpu == [-1];
    }
  }

  lemma LightFits(e: InfeasibleError, ttCpu: seq<int>, cbsCpu: seq<int>)
    ensures !RefusalExplained(e, [2, 3], [], [LIGHT], ttCpu, cbsCpu)
  {
    if |ttCpu| == 0 && |cbsCpu| == 1 {
      forall i { LightHasRoom(cbsCpu, i); }
    }
  }

  lemma HeavyTooMuch(entries: seq<CbsAllocation>, cpu: int)
    ensures !CbsSound(entries, [], [HEAVY], cpu)
  {
    UtilizationOfOne(HEAVY);
  }

  lemma HeavyDoesNot(table: ScheduleTable, ttCpu: seq<int>, cbsCpu: seq<int>)
    ensures !TableSound(table, [], [HEAVY], ttCpu, cbsCpu)
  {
    if |ttCpu| == 0 && |cbsCpu| == 1 {
      assert HasPartition(table.partitions, cbsCpu[0]) ==> exists p :: p in table.partitions && p.cpu == cbsCpu[0];
      forall p | p in table.partitions && p.cpu == cbsCpu[0]
        ensures !CbsSound(p.cbsEntries, Collect([], ttCpu, p.cpu), Collect([HEAVY], cbsCpu, p.cpu), p.cpu)
      {
        OneLoad(HEAVY, p.cpu, p.cpu);
        assert cbsCpu == [p.cpu];
        HeavyTooMuch(p.cbsEntries, p.cpu);
      }
    }
  }

  lemma LightAnswer(r: Option<ScheduleTable>, ttCpu: seq<int>, cbsCpu: seq<int>)
    requires Answered("n", [2, 3], [LIGHT], r, ttCpu, cbsCpu)
    ensures r.Some? && r.value != ScheduleTable("n", 10000, [])
  {
    OneCbs(LIGHT);
    if r.None? {
      forall e { LightFits(e, ttCpu, cbsCpu); }
    } else {
      assert HasPartition(r.value.partitions, cbsCpu[0]);
    }
  }

  lemma HeavyAnswer(r: Option<ScheduleTable>, ttCpu: seq<int>, cbsCpu: seq<int>)
    requires Answered("n", [2, 3], [HEAVY], r, ttCpu, cbsCpu)
    ensures r.None?
  {
    OneCbs(HEAVY);
    if r.Some? { HeavyDoesNot(r.value, ttCpu, cbsCpu); }
  }

  // ---- the two bandwidth gates ----

  const FULL: ClassifiedTask := ClassifiedTask("a", "t", TT, 100, 78, 100, 0)
  const IDLE: ClassifiedTask := ClassifiedTask("b", "u", CBS, 100, 0, 100, 0)

  lemma OnlyCpu(lib: Library)
    requires Lawful(lib)
    ensures CpusReference(lib, [0]) == [0] && TtCpus(lib, [0], [FULL]) == [0]
  {
    var keys := CpuKeys(Configured([0]));
    assert |lib.sort(keys)| == 1;
    assert Permute([0], lib.sort(keys)) == [0];
    var on := TtCpus(lib, [0], [FULL]);
    assert on[0] == 0;
  }

  lemma FullLeavesNothing(table: ScheduleTable, tt: seq<ClassifiedTask>, cbs: seq<ClassifiedTask>, ttCpu: seq<int>,
                          cbsCpu: seq<int>)
    requires tt == [FULL] && cbs == [IDLE] && ttCpu == [0]
    requires forall i :: 0 <= i < |cbsCpu| ==> cbsCpu[i] == 0
    ensures !TableSound(table, tt, cbs, ttCpu, cbsCpu)
  {
    if |cbsCpu| == 1 {
      assert cbsCpu == [0];
      OneLoad(FULL, 0, 0);
      OneLoad(IDLE, 0, 0);
      UtilizationOfOne(FULL);
      assert HasPartition(table.partitions, cbsCpu[0]) ==> exists p :: p in table.partitions && p.cpu == 0;
      forall p | p in table.partitions && p.cpu == 0
        ensures !CbsSound(p.cbsEntries, Collect([FULL], [0], p.cpu), Collect([IDLE], cbsCpu, p.cpu), p.cpu)
      {
      }
    }
  }

  lemma IdleFits(cbsCpu: seq<int>, i: int)
    requires |cbsCpu| == 1
    ensures !FitsNowhere([0], [FULL], [IDLE], [0], cbsCpu, i)
  {
    assert 0 in [0];
    if cbsCpu[0] == -1 {
      assert cbsCpu == [-1];
      OneLoad(FULL, 0, 0);
      OneLoad(IDLE, -1, 0);
    }
  }

  lemma OnlyNoBandwidth(e: InfeasibleError, avail: seq<int>, tt: seq<ClassifiedTask>, cbs: seq<ClassifiedTask>,
                        ttCpu: seq<int>, cbsCpu: seq<int>)
    requires avail == ttCpu == [0] && tt == [FULL] && cbs == [IDLE]
    ensures RefusalExplained(e, avail, tt, cbs, ttCpu, cbsCpu) ==> e == InfeasibleError(NoCbsBandwidth, 0, "")
  {
    if |cbsCpu| == 1 {
      forall i { IdleFits(cbsCpu, i); }
      OneTaskPlaced(FULL, e.cpu, e);
      OneLoad(FULL, 0, e.cpu);
      assert Collect(tt, ttCpu, e.cpu) == [FULL] || Collect(tt, ttCpu, e.cpu) == [];
    }
  }

  lemma FullAndIdle(lib: Library, cpus: seq<int>, tasks: seq<ClassifiedTask>)
    requires Lawful(lib) && cpus == [0] && tasks == [FULL, IDLE]
    ensures OfMechanism(tasks, TT) == [FULL] && OfMechanism(tasks, CBS) == [IDLE]
    ensures InRange([FULL], LcmOf(Periods([FULL])))
    ensures CpusReference(lib, cpus) == [0] && TtCpus(lib, CpusReference(lib, cpus), [FULL]) == [0]
  {
    PairOf(FULL, IDLE, TT);
    PairOf(FULL, IDLE, CBS);
    OnlyCpu(lib);
    OneTaskPlaced(FULL, 0, InfeasibleError(TtSlotConflict, 0, ""));
  }

  method PlanFull(lib: Library, cpus: seq<int>, tasks: seq<ClassifiedTask>) returns (r: ScheduleResult)
    requires Lawful(lib) && cpus == [0] && tasks != []
    requires OfMechanism(tasks, TT) == [FULL] && OfMechanism(tasks, CBS) == [IDLE]
    requires InRange([FULL], LcmOf(Periods([FULL])))
    requires CpusReference(lib, cpus) == [0] && TtCpus(lib, CpusReference(lib, cpus), [FULL]) == [0]
    ensures r == Generate(lib, "n", cpus, tasks) == Infeasible(InfeasibleError(NoCbsBandwidth, 0, ""))
  {
    ghost var ttCpu, cbsCpu;
    r, ttCpu, cbsCpu := GenerateSchedule(lib, "n", cpus, tasks);
    ghost var tt, cbs := OfMechanism(tasks, TT), OfMechanism(tasks, CBS);
    if r.Scheduled? {
      FullLeavesNothing(r.table, tt, cbs, ttCpu, cbsCpu);
    } else {
      OnlyNoBandwidth(r.error, Configured(cpus), tt, cbs, ttCpu, cbsCpu);
    }
  }

  /**
   * TT load 0.78 and a CBS task that asks for nothing pass the gate of the assignment
   * and are refused at the gate of the budgets. (Exact arithmetic; in doubles 0.80 - 0.78 - 0.02 is positive.)
   */
  method GatesDisagree(lib: Library) returns (r: ScheduleResult)
    requires Lawful(lib)
    ensures r == Generate(lib, "n", [0], [FULL, IDLE]) == Infeasible(InfeasibleError(NoCbsBandwidth, 0, ""))
  {
    FullAndIdle(lib, [0], [FULL, IDLE]);
    r := PlanFull(lib, [0], [FULL, IDLE]);
  }

  // ---- the store, with the planner as its scheduler ----

  function NoConfig(node: string): seq<int> { [] }

  lemma SingleListing(s: seq<string>, w: string)
    requires Distinct(s) && forall x :: x in s <==> x == w
    ensures s == [w]
  {
    assert w in s;
    DistinctSubset(s, [w]);
  }

  lemma EmptyListing(s: seq<string>)
    requires forall x :: x !in s
    ensures s == []
  {
    SomeElement(s);
  }

  lemma Listed(lib: Library)
    requires Lawful(lib)
    ensures lib.list({"w"}) == ["w"] && lib.list({}) == []
  {
    SingleListing(lib.list({"w"}), "w");
    EmptyListing(lib.list({}));
  }

  lemma OneFlattened(lib: Library, t: ClassifiedTask)
    requires Lawful(lib)
    ensures var ws := map["w" := [t]]; Flatten(ws, lib.list(ws.Keys)) == [t]
    ensures var ws: map<string, seq<ClassifiedTask>> := map[]; Flatten(ws, lib.list(ws.Keys)) == []
  {
    Listed(lib);
    var ws := map["w" := [t]];
    assert ws.Keys == {"w"};
    assert ["w"][..0] == [];
    var none: map<string, seq<ClassifiedTask>> := map[];
    assert none.Keys == {};
  }

  /** What the planner, as the store's scheduler, says of the two workloads and of none. */
  method PlannerFacts(lib: Library) returns (table: ScheduleTable)
    requires Lawful(lib)
    ensures ConfigKnown(NoConfig)
    ensures var gen := PlannerScheduler(lib, NoConfig);
            && gen("n", map["w" := [LIGHT]]) == Some(table) && gen("n", map["w" := [HEAVY]]) == None
            && gen("n", map[]) == Some(ScheduleTable("n", 10000, [])) && table != ScheduleTable("n", 10000, [])
  {
    OneFlattened(lib, LIGHT);
    OneFlattened(lib, HEAVY);
    OneCbs(LIGHT);
    OneCbs(HEAVY);
    var light, heavy, none;
    ghost var ttCpu, cbsCpu;
    light, ttCpu, cbsCpu := PlanNode(lib, NoConfig, "n", map["w" := [LIGHT]]);
    LightAnswer(light, ttCpu, cbsCpu);
    table := light.value;
    heavy, ttCpu, cbsCpu := PlanNode(lib, NoConfig, "n", map["w" := [HEAVY]]);
    HeavyAnswer(heavy, ttCpu, cbsCpu);
    none, ttCpu, cbsCpu := PlanNode(lib, NoConfig, "n", map[]);
  }

  lemma SilentWith(gen: TaskScheduler, table: ScheduleTable)
    requires gen("n", map["w" := [LIGHT]]) == Some(table) && gen("n", map["w" := [HEAVY]]) == None
    requires gen("n", map[]) == Some(ScheduleTable("n", 10000, [])) && table != ScheduleTable("n", 10000, [])
    ensures ChangesSilently(gen)
  {
    SilentChanges(gen, LIGHT, HEAVY, table, ScheduleTable("n", 10000, []));
  }

  /** With one accepted workload, a refused update and a quiet removal change the table without the flag. */
  ghost predicate ChangesSilently(gen: TaskScheduler) {
    var s := Apply(gen, EMPTY_STORE, Add("w", Entry({"n"}, [LIGHT]), 1)).(changed := false);
    var refused := Apply(gen, s, Add("w", Entry({"n"}, [HEAVY]), 2));
    var removed := Apply(gen, s, Remove("w", false, 2));
    && GeneratedFrom(gen, s.workloads, s.tables)
    && !refused.changed && !SameUpToEpoch(s.tables, refused.tables)
    && !removed.changed && !SameUpToEpoch(s.tables, removed.tables)
  }

  /** With the planner as its scheduler the store does so. */
  method SilentChangesHappen(lib: Library) returns (table: ScheduleTable)
    requires Lawful(lib)
    ensures ConfigKnown(NoConfig) && ChangesSilently(PlannerScheduler(lib, NoConfig))
    ensures PlannerScheduler(lib, NoConfig)("n", map["w" := [LIGHT]]) == Some(table)
  {
    table := PlannerFacts(lib);
    SilentWith(PlannerScheduler(lib, NoConfig), table);
  }

  // ---- a synced node with the wrong table ----

  const FIRST: Round := Round([Add("w", Entry({"n"}, [LIGHT]), 1)], {"n"}, {"n"}, 0, 0)
  const QUIET: Round := Round([Remove("w", false, 2)], {"n"}, {"n"}, 1, 0)
  const REFUSED: Round := Round([Add("w", Entry({"n"}, [HEAVY]), 2)], {"n"}, {"n"}, 1, 0)

  function FirstPass(table: ScheduleTable): Pass {
    Pass(map["n" := Stamped(table, 1)], true, {"n"}, {"n"}, 0, 0)
  }

  function SecondPass(): Pass {
    Pass(map["n" := Stamped(ScheduleTable("n", 10000, []), 2)], false, {"n"}, {"n"}, 1, 0)
  }

  lemma OneOp(gen: TaskScheduler, s: Orchestrator.Store, op: Op<ClassifiedTask>)
    ensures RunOps(gen, s, [op]) == Apply(gen, s, op)
  {
    assert [op][..0] == [];
  }

  /** The store makes the same two passes of an accepted workload and its removal or refused update. */
  lemma TwoRounds(gen: TaskScheduler, table: ScheduleTable, second: Round)
    requires gen("n", map["w" := [LIGHT]]) == Some(table) && gen("n", map["w" := [HEAVY]]) == None
    requires gen("n", map[]) == Some(ScheduleTable("n", 10000, [])) && (second == QUIET || second == REFUSED)
    ensures PassesOf(gen, [FIRST, second]) == [FirstPass(table), SecondPass()]
  {
    var rounds := [FIRST, second];
    OneOp(gen, EMPTY_STORE, FIRST.ops[0]);
    FirstWorkload(gen, LIGHT, table);
    var s := State(Only(LIGHT), map["n" := Stamped(table, 1)], false);
    assert StoreBefore(gen, rounds, 0) == EMPTY_STORE;
    assert StoreBefore(gen, rounds, 1) == s;
    OneOp(gen, s, second.ops[0]);
    QuietRemoval(gen, LIGHT, HEAVY, table, ScheduleTable("n", 10000, []));
  }

  method StaleRun(table: ScheduleTable) returns (history: seq<Loop>)
    requires table != ScheduleTable("n", 10000, [])
    ensures AllPassed([FirstPass(table), SecondPass()], history)
    ensures |history| == 2 && Stale(history[1]) == {"n"} && !history[1].pending
  {
    var passes := [FirstPass(table), SecondPass()];
    history := Replay(passes);
    assert "n" in passes[0].current;
    LeftStale(passes, history, "n");
  }

  /**
   * Planner, store and loop together: a workload is accepted and its table delivered, then the
   * workload is removed without a push, or an update of it is refused. Either way the loop takes
   * the node for synced with the table it last pushed, and no replay is pending.
   */
  method NodeLeftStale(lib: Library) returns (history: seq<Loop>)
    requires Lawful(lib)
    ensures ConfigKnown(NoConfig)
    ensures AllPassed(PassesOf(PlannerScheduler(lib, NoConfig), [FIRST, QUIET]), history)
    ensures AllPassed(PassesOf(PlannerScheduler(lib, NoConfig), [FIRST, REFUSED]), history)
    ensures |history| == 2 && Stale(history[1]) == {"n"} && !history[1].pending
  {
    var table := PlannerFacts(lib);
    TwoRounds(PlannerScheduler(lib, NoConfig), table, QUIET);
    TwoRounds(PlannerScheduler(lib, NoConfig), table, REFUSED);
    history := StaleRun(table);
  }

  // ---- two CPUs with different hyperperiods ----

  const FAST: ClassifiedTask := ClassifiedTask("a", "t", TT, 10, 1, 10, 0)
  const SLOW: ClassifiedTask := ClassifiedTask("b", "u", TT, 20, 1, 20, 0)

  lemma OneJob(t: ClassifiedTask)
    requires t.periodUs > 0
    ensures AllJobs([t], t.periodUs) == [Job(0, 0)]
  {
    DivSelf(t.periodUs);
    assert Repeats(t, t.periodUs) == 1;
    assert Instances(0, 1) == [Job(0, 0)] && Instances(1, 0) == [];
    assert JobsBefore([t], t.periodUs, 0, 1) == [] + Instances(0, 1);
  }

  lemma DivSelf(n: nat)
    requires n > 0
    ensures n / n == 1
  {
  }

  lemma OneTaskNotStuck(t: ClassifiedTask, cpu: int, e: InfeasibleError)
    requires t.periodUs > 0 && t.wcetUs <= t.deadlineUs && t.wcetUs <= t.periodUs
    ensures !GreedyStuck([t], t.periodUs, cpu, e)
  {
    if GreedyStuck([t], t.periodUs, cpu, e) {
      var order, occ :| GreedyIn(order, [t], t.periodUs, occ) && Stuck(Permute([t], order), t.periodUs, cpu, occ, e);
      assert Permute([t], order) == [t];
      OneJob(t);
      assert occ == [];
      assert InFrame(t, 0, t.periodUs, 0);
    }
  }

  lemma OneTaskPlaced(t: ClassifiedTask, cpu: int, e: InfeasibleError)
    requires t.periodUs > 0 && t.wcetUs <= t.deadlineUs && t.wcetUs <= t.periodUs
    ensures Periods([t]) == [t.periodUs] && LcmOf([t.periodUs]) == t.periodUs && !TtRefused([t], cpu, e)
  {
    assert [t][..0] == [];
    assert Periods([t]) == [t.periodUs];
    SingletonLcm(t.periodUs);
    OneTaskNotStuck(t, cpu, e);
    MulMod(1, t.periodUs);
  }

  lemma DoublePeriod(a: nat, b: nat)
    requires a > 0 && b == 2 * a
    ensures LcmOf([a, b]) == b
  {
    MulMod(2, a);
    MulMod(1, a);
    MulMod(1, b);
    assert Harmonic([a, b]);
    HarmonicHyperperiod([a, b], 1);
  }

  lemma PairOf(a: ClassifiedTask, b: ClassifiedTask, m: Mechanism)
    ensures OfMechanism([a, b], m) == (if a.mechanism == m then [a] else []) + if b.mechanism == m then [b] else []
    ensures a.periodUs > 0 && b.periodUs > 0 ==> Periods([a, b]) == [a.periodUs, b.periodUs]
  {
    assert [a, b][..1] == [a] && [a][..0] == [];
    assert OfMechanism([a], m) == if a.mechanism == m then [a] else [];
    assert a.periodUs > 0 ==> Periods([a]) == [a.periodUs];
  }

  lemma TwoTasks()
    ensures OfMechanism([FAST, SLOW], TT) == [FAST, SLOW] && OfMechanism([FAST, SLOW], CBS) == []
    ensures Periods([FAST, SLOW]) == [10, 20]
  {
    PairOf(FAST, SLOW, TT);
    PairOf(FAST, SLOW, CBS);
  }

  lemma TwoCollected(c0: int, c1: int, cpu: int)
    requires c0 != c1
    ensures Collect([FAST, SLOW], [c0, c1], cpu) == if cpu == c0 then [FAST] else if cpu == c1 then [SLOW] else []
  {
    assert [FAST, SLOW][..1] == [FAST] && [c0, c1][..1] == [c0];
    OneLoad(FAST, c0, cpu);
  }

  lemma TwoNotRefused(e: InfeasibleError, avail: seq<int>, c0: int, c1: int, cbsCpu: seq<int>)
    requires c0 != c1 && e.reason != UtilizationExceeded
    ensures !RefusalExplained(e, avail, [FAST, SLOW], [], [c0, c1], cbsCpu)
  {
    TwoCollected(c0, c1, e.cpu);
    OneTaskPlaced(FAST, e.cpu, e);
    OneTaskPlaced(SLOW, e.cpu, e);
  }

  lemma TwoNotExceeded(e: InfeasibleError, avail: seq<int>, ttCpu: seq<int>, cbsCpu: seq<int>)
    requires e.reason == UtilizationExceeded
    ensures !RefusalExplained(e, avail, [FAST, SLOW], [], ttCpu, cbsCpu)
  {
  }

  lemma AtMostTwo(ids: seq<string>)
    requires Distinct(ids) && forall w :: w in ids <==> w == "a" || w == "b"
    ensures |ids| <= 2
  {
    DistinctSubset(ids, ["a", "b"]);
  }

  lemma OwnCpus(lib: Library)
    requires Lawful(lib)
    ensures CpusReference(lib, [0, 1]) != []
    ensures var on := TtCpus(lib, CpusReference(lib, [0, 1]), [FAST, SLOW]); on == [on[0], on[1]] && on[0] != on[1]
  {
    var tt := [FAST, SLOW];
    var cpus, ids := CpusReference(lib, [0, 1]), lib.list(IdsOf(tt));
    assert |cpus| == 2 && cpus[0] != cpus[1];
    assert IdsOf(tt) == {"a", "b"} by { assert tt[0].workloadId == "a" && tt[1].workloadId == "b"; }
    AtMostTwo(ids);
    assert "a" in ids && "b" in ids;
    var on := TtCpus(lib, cpus, tt);
    assert on[0] == CpuFor(cpus, IndexOf(ids, "a")) && on[1] == CpuFor(cpus, IndexOf(ids, "b"));
  }

  /** The planner emits a table whose published hyperperiod is 20 while the first task's CPU repeats every 10. */
  method SplitHyperperiods(lib: Library)
    returns (table: ScheduleTable, ghost cpu: int, ghost ttCpu: seq<int>, ghost cbsCpu: seq<int>)
    requires Lawful(lib)
    ensures Generate(lib, "n", [0, 1], [FAST, SLOW]) == Scheduled(table)
    ensures TableSound(table, [FAST, SLOW], [], ttCpu, cbsCpu) && HasPartition(table.partitions, cpu)
    ensures Collect([FAST, SLOW], ttCpu, cpu) == [FAST] && LcmOf(Periods([FAST])) == 10 && table.hyperperiodUs == 20
  {
    TwoTasks();
    DoublePeriod(10, 20);
    OwnCpus(lib);
    var r;
    r, ttCpu, cbsCpu := GenerateSchedule(lib, "n", [0, 1], [FAST, SLOW]);
    cpu := ttCpu[0];
    if r.Infeasible? {
      if r.error.reason == UtilizationExceeded {
        TwoNotExceeded(r.error, [0, 1], ttCpu, cbsCpu);
      } else {
        TwoNotRefused(r.error, [0, 1], ttCpu[0], ttCpu[1], cbsCpu);
      }
    }
    table := r.table;
    TwoCollected(ttCpu[0], ttCpu[1], cpu);
    OneTaskPlaced(FAST, cpu, InfeasibleError(TtSlotConflict, cpu, ""));
  }

  /** On that CPU the task misses a period window. */
  lemma PeriodMissed(table: ScheduleTable, ttCpu: seq<int>, cbsCpu: seq<int>, p: Partition) returns (jobs: seq<Job>)
    requires TableSound(table, [FAST, SLOW], [], ttCpu, cbsCpu) && table.hyperperiodUs == 20
    requires p in table.partitions && Collect([FAST, SLOW], ttCpu, p.cpu) == [FAST]
    ensures Planned(p.ttSlots, jobs, [FAST], 10, p.cpu)
    ensures !forall m: nat :: OncePerWindow(p.ttSlots, jobs, [FAST], 20, 0, m)
  {
    OneTaskPlaced(FAST, p.cpu, InfeasibleError(TtSlotConflict, p.cpu, ""));
    jobs := TableServedIff(table, [FAST, SLOW], [], ttCpu, cbsCpu, p);
    assert [FAST][0].periodUs == 10;
  }
}
