/** The orchestrator as a whole: planner, workload store and replay loop together. */
module Orchestrator {
  import opened Basics
  import opened Sequences
  import opened Divisibility
  import opened SlotPlacement
  import opened Planner
  import opened WorkloadStore
  import opened ReplayLoop

  type TaskScheduler = Scheduler<ClassifiedTask, ScheduleTable>

  type Store = State<ClassifiedTask, ScheduleTable>

  const EMPTY_STORE: Store := State(map[], map[], false)

  // ---- the planner as the store's scheduler ----

  /** The tasks of the workloads, in the order of their ids. */
  function Flatten(ws: map<string, seq<ClassifiedTask>>, ids: seq<string>): seq<ClassifiedTask> {
    if ids == [] then []
    else
      var n := |ids| - 1;
      Flatten(ws, ids[..n]) + if ids[n] in ws then ws[ids[n]] else []
  }

  /** How many tasks the workloads before the i-th have. */
  function TasksBefore(ws: map<string, seq<ClassifiedTask>>, ids: seq<string>, i: nat): nat
    requires i <= |ids|
  {
    if i == 0 then 0 else TasksBefore(ws, ids, i - 1) + if ids[i - 1] in ws then |ws[ids[i - 1]]| else 0
  }

  /** The tasks of the i-th workload stand together, in their order, behind those of the workloads before it. */
  ghost predicate StandsAt(ws: map<string, seq<ClassifiedTask>>, ids: seq<string>, tasks: seq<ClassifiedTask>, i: nat)
    requires i < |ids| && ids[i] in ws
  {
    var at, own := TasksBefore(ws, ids, i), ws[ids[i]];
    at + |own| <= |tasks| && tasks[at..at + |own|] == own
  }

  /** All tasks of all workloads, each workload's block in its place, and nothing else. */
  ghost predicate Gathered(ws: map<string, seq<ClassifiedTask>>, ids: seq<string>, tasks: seq<ClassifiedTask>) {
    && Distinct(ids) && (forall w :: w in ids <==> w in ws)
    && |tasks| == TasksBefore(ws, ids, |ids|)
    && forall i :: 0 <= i < |ids| && ids[i] in ws ==> StandsAt(ws, ids, tasks, i)
  }

  lemma {:induction false} TasksBeforePrefix(ws: map<string, seq<ClassifiedTask>>, ids: seq<string>, n: nat, i: nat)
    requires i <= n <= |ids|
    ensures TasksBefore(ws, ids[..n], i) == TasksBefore(ws, ids, i)
  {
    if i > 0 { TasksBeforePrefix(ws, ids, n, i - 1); }
  }

  lemma {:induction false} FlattenStands(ws: map<string, seq<ClassifiedTask>>, ids: seq<string>, i: nat)
    requires i < |ids| && ids[i] in ws
    ensures |Flatten(ws, ids)| == TasksBefore(ws, ids, |ids|) && StandsAt(ws, ids, Flatten(ws, ids), i)
  {
    var n := |ids| - 1;
    var init := Flatten(ws, ids[..n]);
    FlattenLength(ws, ids[..n]);
    TasksBeforePrefix(ws, ids, n, n);
    if i < n {
      FlattenStands(ws, ids[..n], i);
      TasksBeforePrefix(ws, ids, n, i);
    }
  }

  lemma {:induction false} FlattenLength(ws: map<string, seq<ClassifiedTask>>, ids: seq<string>)
    ensures |Flatten(ws, ids)| == TasksBefore(ws, ids, |ids|)
  {
    if ids != [] {
      FlattenLength(ws, ids[..|ids| - 1]);
      TasksBeforePrefix(ws, ids, |ids| - 1, |ids| - 1);
    }
  }

  /** The tasks of all workloads, one workload after the other. */
  method Gather(lib: Library, ws: map<string, seq<ClassifiedTask>>) returns (tasks: seq<ClassifiedTask>)
    requires Lawful(lib)
    ensures tasks == Flatten(ws, lib.list(ws.Keys)) && Gathered(ws, lib.list(ws.Keys), tasks)
  {
    var ids := lib.list(ws.Keys);
    tasks := [];
    for i := 0 to |ids|
      invariant tasks == Flatten(ws, ids[..i])
    {
      assert ids[..i + 1][..i] == ids[..i];
      assert ids[i] in ids;
      tasks := tasks + ws[ids[i]];
    }
    assert ids[..|ids|] == ids;
    FlattenLength(ws, ids);
    forall i | 0 <= i < |ids| && ids[i] in ws ensures StandsAt(ws, ids, tasks, i) { FlattenStands(ws, ids, i); }
  }

  /** Every workload's tasks are gathered. */
  lemma GatheredHas(ws: map<string, seq<ClassifiedTask>>, ids: seq<string>, tasks: seq<ClassifiedTask>, w: string,
                    t: ClassifiedTask)
    requires Gathered(ws, ids, tasks) && w in ws && t in ws[w]
    ensures t in tasks
  {
    assert w in ids;
    var i :| 0 <= i < |ids| && ids[i] == w;
    BlockHas(ws, ids, tasks, i, t);
  }

  lemma BlockHas(ws: map<string, seq<ClassifiedTask>>, ids: seq<string>, tasks: seq<ClassifiedTask>, i: nat,
                 t: ClassifiedTask)
    requires i < |ids| && ids[i] in ws && StandsAt(ws, ids, tasks, i) && t in ws[ids[i]]
    ensures t in tasks
  {
    InBlock(tasks, TasksBefore(ws, ids, i), ws[ids[i]], t);
  }

  lemma InBlock(tasks: seq<ClassifiedTask>, at: nat, own: seq<ClassifiedTask>, t: ClassifiedTask)
    requires at + |own| <= |tasks| && tasks[at..at + |own|] == own && t in own
    ensures t in tasks
  {
  }

  lemma {:induction false} FlattenFrom(ws: map<string, seq<ClassifiedTask>>, ids: seq<string>, t: ClassifiedTask)
    returns (w: string)
    requires t in Flatten(ws, ids)
    ensures w in ids && w in ws && t in ws[w]
  {
    var n := |ids| - 1;
    if t in Flatten(ws, ids[..n]) { w := FlattenFrom(ws, ids[..n], t); } else { w := ids[n]; }
  }

  ghost predicate ConfigKnown(cpusOf: string -> seq<int>) {
    forall node :: CpusKnown(cpusOf(node))
  }

  /** The planner decides alone by the node, its configured CPUs and the tasks: it is a scheduler of the store. */
  ghost function PlannerScheduler(lib: Library, cpusOf: string -> seq<int>): TaskScheduler
    requires Lawful(lib) && ConfigKnown(cpusOf)
  {
    (node: string, ws: map<string, seq<ClassifiedTask>>) =>
      TableOf(Generate(lib, node, cpusOf(node), Flatten(ws, lib.list(ws.Keys))))
  }

  function TableOf(r: ScheduleResult): Option<ScheduleTable> {
    match r case Scheduled(table) => Some(table) case Infeasible(_) => None
  }

  /** What a run of the planner for the tasks means: a sound table, or a refusal for cause. */
  ghost predicate Answered(node: string, avail: seq<int>, tasks: seq<ClassifiedTask>, r: Option<ScheduleTable>,
                           ttCpu: seq<int>, cbsCpu: seq<int>)
  {
    if tasks == [] then r == Some(ScheduleTable(node, 10000, []))
    else if r.Some? then
      r.value.nodeId == node && TableSound(r.value, OfMechanism(tasks, TT), OfMechanism(tasks, CBS), ttCpu, cbsCpu)
    else
      exists e :: RefusalExplained(e, avail, OfMechanism(tasks, TT), OfMechanism(tasks, CBS), ttCpu, cbsCpu)
  }

  method PlanTasks(lib: Library, node: string, cpus: seq<int>, tasks: seq<ClassifiedTask>)
    returns (r: Option<ScheduleTable>, ghost ttCpu: seq<int>, ghost cbsCpu: seq<int>)
    requires Lawful(lib) && CpusKnown(cpus)
    requires var tt := OfMechanism(tasks, TT); InRange(tt, LcmOf(Periods(tt)))
    ensures r == TableOf(Generate(lib, node, cpus, tasks))
    ensures Answered(node, Configured(cpus), tasks, r, ttCpu, cbsCpu)
  {
    var result;
    result, ttCpu, cbsCpu := GenerateSchedule(lib, node, cpus, tasks);
    r := TableOf(result);
  }

  /** Running the planner for a node gives what that scheduler promises, whenever it is run. */
  method PlanNode(lib: Library, cpusOf: string -> seq<int>, node: string, ws: map<string, seq<ClassifiedTask>>)
    returns (r: Option<ScheduleTable>, ghost ttCpu: seq<int>, ghost cbsCpu: seq<int>)
    requires Lawful(lib) && ConfigKnown(cpusOf)
    requires var tt := OfMechanism(Flatten(ws, lib.list(ws.Keys)), TT); InRange(tt, LcmOf(Periods(tt)))
    ensures r == PlannerScheduler(lib, cpusOf)(node, ws)
    ensures Answered(node, Configured(cpusOf(node)), Flatten(ws, lib.list(ws.Keys)), r, ttCpu, cbsCpu)
    ensures Gathered(ws, lib.list(ws.Keys), Flatten(ws, lib.list(ws.Keys)))
    ensures r.Some? ==> Holds(ws, r.value.partitions)
  {
    assert CpusKnown(cpusOf(node));
    var tasks := Gather(lib, ws);
    r, ttCpu, cbsCpu := PlanTasks(lib, node, cpusOf(node), tasks);
    if r.Some? { AnswerHolds(node, Configured(cpusOf(node)), ws, lib.list(ws.Keys), tasks, r, ttCpu, cbsCpu); }
  }

  /** The table holds every task of every workload, and nothing else. */
  ghost predicate Holds(ws: map<string, seq<ClassifiedTask>>, parts: seq<Partition>) {
    && (forall w, t :: w in ws && t in ws[w] ==> InTable(parts, t))
    && exists tasks :: OnlyFrom(parts, tasks) && forall t :: t in tasks ==> OfSome(ws, t)
  }

  ghost predicate OfSome(ws: map<string, seq<ClassifiedTask>>, t: ClassifiedTask) {
    exists w :: w in ws && t in ws[w]
  }

  lemma AnswerHolds(node: string, avail: seq<int>, ws: map<string, seq<ClassifiedTask>>, ids: seq<string>,
                    tasks: seq<ClassifiedTask>, r: Option<ScheduleTable>, ttCpu: seq<int>, cbsCpu: seq<int>)
    requires Answered(node, avail, tasks, r, ttCpu, cbsCpu) && r.Some?
    requires Gathered(ws, ids, tasks) && tasks == Flatten(ws, ids)
    ensures Holds(ws, r.value.partitions)
  {
    var parts := r.value.partitions;
    if tasks != [] { SoundHoldsTasks(r.value, tasks, ttCpu, cbsCpu); }
    forall w, t | w in ws && t in ws[w] ensures InTable(parts, t) { GatheredHas(ws, ids, tasks, w, t); }
    forall t | t in tasks ensures OfSome(ws, t) { var w := FlattenFrom(ws, ids, t); }
    assert OnlyFrom(parts, tasks);
  }

  // ---- all tables of the store ----

  /** The node's TT tasks keep clear of the 31-bit limit. */
  ghost predicate NodeInRange(lib: Library, ws: Workloads<ClassifiedTask>, node: string) {
    var own := TasksFor(ws, node);
    var tt := OfMechanism(Flatten(own, lib.list(own.Keys)), TT);
    InRange(tt, LcmOf(Periods(tt)))
  }

  /** Every table holds every task of every workload that targets its node, and no task of any other. */
  ghost predicate TablesHold(ws: Workloads<ClassifiedTask>, tables: NodeTables) {
    && (forall w, n, t :: w in ws && n in ws[w].targets && t in ws[w].tasks ==>
          n in tables && InTable(tables[n].content.partitions, t))
    && (forall n :: n in tables ==> FromTargeting(ws, n, tables[n].content.partitions))
  }

  ghost predicate FromTargeting(ws: Workloads<ClassifiedTask>, node: string, parts: seq<Partition>) {
    exists tasks :: OnlyFrom(parts, tasks) &&
      forall t :: t in tasks ==> exists w :: w in ws && node in ws[w].targets && t in ws[w].tasks
  }

  lemma HoldsForNode(ws: Workloads<ClassifiedTask>, node: string, parts: seq<Partition>)
    requires Holds(TasksFor(ws, node), parts)
    ensures forall w, t :: w in ws && node in ws[w].targets && t in ws[w].tasks ==> InTable(parts, t)
    ensures FromTargeting(ws, node, parts)
  {
    var own := TasksFor(ws, node);
    forall w, t | w in ws && node in ws[w].targets && t in ws[w].tasks ensures InTable(parts, t) {
      assert w in own && t in own[w];
    }
    var tasks :| OnlyFrom(parts, tasks) && forall t :: t in tasks ==> OfSome(own, t);
    forall t | t in tasks ensures exists w :: w in ws && node in ws[w].targets && t in ws[w].tasks {
      assert OfSome(own, t);
      var w :| w in own && t in own[w];
    }
  }

  ghost predicate NodeHolds(ws: Workloads<ClassifiedTask>, node: string, parts: seq<Partition>) {
    && (forall w, t :: w in ws && node in ws[w].targets && t in ws[w].tasks ==> InTable(parts, t))
    && FromTargeting(ws, node, parts)
  }

  /** The node's table is the planned one and holds the node's tasks. */
  ghost predicate Made(gen: TaskScheduler, ws: Workloads<ClassifiedTask>, node: string, table: Table, epochNs: nat) {
    && Plan(gen, ws, node) == Some(table.content) && table.epochNs == epochNs
    && NodeHolds(ws, node, table.content.partitions)
  }

  ghost predicate AllMade(gen: TaskScheduler, ws: Workloads<ClassifiedTask>, all: NodeTables, epochNs: nat) {
    forall n :: n in all ==> Made(gen, ws, n, all[n], epochNs)
  }

  /** The node's table, planned from the workloads that target it. */
  method PlanOwn(lib: Library, cpusOf: string -> seq<int>, ghost gen: TaskScheduler, ws: Workloads<ClassifiedTask>,
                 node: string, epochNs: nat) returns (r: Option<Table>)
    requires Lawful(lib) && ConfigKnown(cpusOf) && gen == PlannerScheduler(lib, cpusOf) && NodeInRange(lib, ws, node)
    ensures match r case Some(table) => Made(gen, ws, node, table, epochNs) case None => Plan(gen, ws, node).None?
  {
    var planned;
    ghost var ttCpu, cbsCpu;
    planned, ttCpu, cbsCpu := PlanNode(lib, cpusOf, node, TasksFor(ws, node));
    if planned.None? { return None; }
    HoldsForNode(ws, node, planned.value.partitions);
    r := Some(Stamped(planned.value, epochNs));
  }

  /** The tables of the first `n` nodes. */
  ghost predicate MadeUpTo(gen: TaskScheduler, ws: Workloads<ClassifiedTask>, order: seq<string>, all: NodeTables,
                           epochNs: nat, n: nat)
    requires n <= |order|
  {
    AllMade(gen, ws, all, epochNs) && forall node :: node in all <==> node in order[..n]
  }

  lemma MadePut(gen: TaskScheduler, ws: Workloads<ClassifiedTask>, order: seq<string>, all: NodeTables, table: Table,
                epochNs: nat, n: nat, next: NodeTables)
    requires n < |order| && MadeUpTo(gen, ws, order, all, epochNs, n) && next == all[order[n] := table]
    requires Made(gen, ws, order[n], table, epochNs)
    ensures MadeUpTo(gen, ws, order, next, epochNs, n + 1)
  {
    assert order[..n + 1] == order[..n] + [order[n]];
    forall node | node in next ensures Made(gen, ws, node, next[node], epochNs) {
      assert node != order[n] ==> Made(gen, ws, node, all[node], epochNs);
    }
  }

  method PlanNext(lib: Library, cpusOf: string -> seq<int>, ghost gen: TaskScheduler, ws: Workloads<ClassifiedTask>,
                  order: seq<string>, all: NodeTables, epochNs: nat, n: nat) returns (ok: bool, next: NodeTables)
    requires Lawful(lib) && ConfigKnown(cpusOf) && gen == PlannerScheduler(lib, cpusOf)
    requires n < |order| && NodeInRange(lib, ws, order[n]) && MadeUpTo(gen, ws, order, all, epochNs, n)
    ensures if ok then MadeUpTo(gen, ws, order, next, epochNs, n + 1) else Plan(gen, ws, order[n]).None?
  {
    var planned := PlanOwn(lib, cpusOf, gen, ws, order[n], epochNs);
    if planned.None? { return false, all; }
    next := all[order[n] := planned.value];
    MadePut(gen, ws, order, all, planned.value, epochNs, n, next);
    ok := true;
  }

  method PlanNodes(lib: Library, cpusOf: string -> seq<int>, ghost gen: TaskScheduler, ws: Workloads<ClassifiedTask>,
                   order: seq<string>, epochNs: nat)
    returns (ok: bool, all: NodeTables, ghost at: nat)
    requires Lawful(lib) && ConfigKnown(cpusOf) && gen == PlannerScheduler(lib, cpusOf)
    requires forall i :: 0 <= i < |order| ==> NodeInRange(lib, ws, order[i])
    ensures ok ==> MadeUpTo(gen, ws, order, all, epochNs, |order|)
    ensures !ok ==> at < |order| && Plan(gen, ws, order[at]).None?
  {
    all, at := map[], 0;
    for i := 0 to |order|
      invariant MadeUpTo(gen, ws, order, all, epochNs, i)
    {
      at := i;
      ok, all := PlanNext(lib, cpusOf, gen, ws, order, all, epochNs, i);
      if !ok { return; }
    }
    ok := true;
  }

  /**
   * The store's regeneration with the planner: all nodes that are targeted or have a table, or none. If it
   * succeeds, every task of every workload is in the table of each node that the workload targets.
   */
  method RegenerateAll(lib: Library, cpusOf: string -> seq<int>, ghost gen: TaskScheduler,
                       ws: Workloads<ClassifiedTask>, tables: NodeTables, epochNs: nat)
    returns (ok: bool, r: NodeTables)
    requires Lawful(lib) && ConfigKnown(cpusOf) && gen == PlannerScheduler(lib, cpusOf)
    requires forall n :: n in AllNodes(ws, tables) ==> NodeInRange(lib, ws, n)
    ensures ok <==> Feasible(gen, ws, AllNodes(ws, tables))
    ensures r == Regenerated(gen, ws, tables, epochNs)
    ensures ok ==> TablesHold(ws, r)
  {
    var order := lib.list(AllNodes(ws, tables));
    forall i | 0 <= i < |order| ensures NodeInRange(lib, ws, order[i]) { assert order[i] in order; }
    var all;
    ghost var at;
    ok, all, at := PlanNodes(lib, cpusOf, gen, ws, order, epochNs);
    if ok {
      assert order[..|order|] == order && all.Keys == AllNodes(ws, tables);
      AllHold(gen, ws, tables, all, epochNs);
      r := all;
    } else {
      assert order[at] in order;
      RefusedKeeps(gen, ws, tables, epochNs, order[at]);
      r := tables;
    }
  }

  lemma AllHold(gen: TaskScheduler, ws: Workloads<ClassifiedTask>, tables: NodeTables, all: NodeTables, epochNs: nat)
    requires all.Keys == AllNodes(ws, tables) && AllMade(gen, ws, all, epochNs)
    ensures Feasible(gen, ws, AllNodes(ws, tables)) && Regenerated(gen, ws, tables, epochNs) == all
    ensures TablesHold(ws, all)
  {
    forall n | n in all
      ensures Plan(gen, ws, n) == Some(all[n].content) && all[n].epochNs == epochNs
      ensures NodeHolds(ws, n, all[n].content.partitions)
    {
      assert Made(gen, ws, n, all[n], epochNs);
    }
    RegeneratedIs(gen, ws, tables, epochNs, all);
    forall w, n, t | w in ws && n in ws[w].targets && t in ws[w].tasks
      ensures n in all && InTable(all[n].content.partitions, t)
    {
      assert n in Targets(ws);
      assert NodeHolds(ws, n, all[n].content.partitions);
    }
  }

  // ---- rounds: store operations, then one pass of the loop ----

  datatype Round =
    Round(ops: seq<Op<ClassifiedTask>>, connected: set<string>, accepts: set<string>, now: nat, epochNs: nat)

  /** The store when the i-th round begins: read by the pass before, so the flag is down. */
  ghost function StoreBefore(gen: TaskScheduler, rounds: seq<Round>, i: nat): Store
    requires i <= |rounds|
  {
    if i == 0 then EMPTY_STORE else RunOps(gen, StoreBefore(gen, rounds, i - 1), rounds[i - 1].ops).(changed := false)
  }

  ghost function PassOf(gen: TaskScheduler, rounds: seq<Round>, i: nat): Pass
    requires i < |rounds|
  {
    var s := RunOps(gen, StoreBefore(gen, rounds, i), rounds[i].ops);
    Pass(s.tables, s.changed, rounds[i].connected, rounds[i].accepts, rounds[i].now, rounds[i].epochNs)
  }

  ghost function PassesOf(gen: TaskScheduler, rounds: seq<Round>): (r: seq<Pass>)
    ensures |r| == |rounds| && forall i :: 0 <= i < |rounds| ==> r[i] == PassOf(gen, rounds, i)
  {
    seq(|rounds|, i requires 0 <= i < |rounds| => PassOf(gen, rounds, i))
  }

  lemma {:induction false} StoreCovered(gen: TaskScheduler, rounds: seq<Round>, i: nat)
    requires i <= |rounds|
    ensures Covered(StoreBefore(gen, rounds, i)) && !StoreBefore(gen, rounds, i).changed
  {
    if i > 0 {
      StoreCovered(gen, rounds, i - 1);
      RunOpsTables(gen, StoreBefore(gen, rounds, i - 1), rounds[i - 1].ops);
    }
  }

  /** The operations raised the flag, did not replace the tables, or last replaced them by equal ones. */
  ghost predicate Told(gen: TaskScheduler, s: Store, ops: seq<Op<ClassifiedTask>>) {
    var source := LastSource(gen, s, ops);
    SomeRaise(gen, s, ops) || source.None? ||
    forall n :: n in s.tables ==> Plan(gen, source.value, n) == Some(s.tables[n].content)
  }

  /** On equal node sets, equal up to the epoch is agreement of what every node is to have. */
  lemma AgreeIsSame(a: NodeTables, b: NodeTables)
    requires a.Keys == b.Keys
    ensures Agree(a, b) <==> SameUpToEpoch(a, b)
  {
    if Agree(a, b) {
      forall n | n in a ensures a[n].content == b[n].content {
        assert SameTable(Wanted(a, n, 0), Wanted(b, n, 0));
      }
    }
  }

  lemma RoundToldIff(gen: TaskScheduler, rounds: seq<Round>, i: nat)
    requires i < |rounds|
    ensures PassOf(gen, rounds, i).changed ||
            Agree(StoreBefore(gen, rounds, i).tables, PassOf(gen, rounds, i).current) <==>
            Told(gen, StoreBefore(gen, rounds, i), rounds[i].ops)
  {
    var s := StoreBefore(gen, rounds, i);
    StoreCovered(gen, rounds, i);
    ReadersToldIff(gen, s, rounds[i].ops);
    RunOpsTables(gen, s, rounds[i].ops);
    var r := RunOps(gen, s, rounds[i].ops);
    if !r.changed {
      AgreeIsSame(s.tables, r.tables);
    }
  }

  lemma TablesAgree(gen: TaskScheduler, rounds: seq<Round>, i: nat)
    requires i < |rounds|
    ensures TablesBefore(PassesOf(gen, rounds), i) == StoreBefore(gen, rounds, i).tables
  {
  }

  /**
   * Whatever the store does between the passes of the loop: its tables change only together with
   * the flag if and only if every round tells of its changes.
   */
  lemma FlaggedIff(gen: TaskScheduler, rounds: seq<Round>)
    ensures Flagged(PassesOf(gen, rounds)) <==> forall i :: 0 <= i < |rounds| ==>
              Told(gen, StoreBefore(gen, rounds, i), rounds[i].ops)
  {
    var passes := PassesOf(gen, rounds);
    forall i | 0 <= i < |rounds|
      ensures passes[i].changed || Agree(TablesBefore(passes, i), passes[i].current) <==>
              Told(gen, StoreBefore(gen, rounds, i), rounds[i].ops)
    {
      RoundToldIff(gen, rounds, i);
      TablesAgree(gen, rounds, i);
    }
  }

  /** Then, after every pass, each synced node holds the table the store has for it. */
  lemma ToldRunsCurrent(gen: TaskScheduler, rounds: seq<Round>, history: seq<Loop>)
    requires AllPassed(PassesOf(gen, rounds), history)
    requires forall i :: 0 <= i < |rounds| ==> Told(gen, StoreBefore(gen, rounds, i), rounds[i].ops)
    ensures CurrentUpTo(history, |rounds|)
  {
    FlaggedIff(gen, rounds);
    FlaggedRunsCurrent(PassesOf(gen, rounds), history);
  }
}
