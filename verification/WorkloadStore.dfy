/** The C++ workload store: accept, roll back and remove workloads, regenerating all tables together. */
module WorkloadStore {
  import opened Basics

  /** Classified tasks of one workload and the nodes they are meant for. */
  datatype Entry<Task> = Entry(targets: set<string>, tasks: seq<Task>)

  datatype Stamped<Content> = Stamped(content: Content, epochNs: nat)

  type Workloads<Task> = map<string, Entry<Task>>

  type Tables<Content> = map<string, Stamped<Content>>

  /** The scheduler: given a node and the tasks of the workloads that target it, by id, a table or a refusal. */
  type Scheduler<!Task, !Content> = (string, map<string, seq<Task>>) -> Option<Content>

  function TasksFor<Task>(ws: Workloads<Task>, node: string): map<string, seq<Task>> {
    map w | w in ws && node in ws[w].targets :: ws[w].tasks
  }

  function Targets<Task>(ws: Workloads<Task>): set<string> {
    set w, n | w in ws && n in ws[w].targets :: n
  }

  /** Nodes targeted by a workload or already holding a table. */
  function AllNodes<Task, Content>(ws: Workloads<Task>, tables: Tables<Content>): set<string> {
    Targets(ws) + tables.Keys
  }

  function Plan<Task, Content>(gen: Scheduler<Task, Content>, ws: Workloads<Task>, node: string): Option<Content> {
    gen(node, TasksFor(ws, node))
  }

  ghost predicate Feasible<Task, Content>(gen: Scheduler<Task, Content>, ws: Workloads<Task>, nodes: set<string>) {
    forall n :: n in nodes ==> Plan(gen, ws, n).Some?
  }

  /** Every table is what the scheduler yields for its node. */
  ghost predicate GeneratedFrom<Task, Content>(gen: Scheduler<Task, Content>, ws: Workloads<Task>,
                                               tables: Tables<Content>) {
    && Targets(ws) <= tables.Keys
    && forall n :: n in tables ==> Plan(gen, ws, n) == Some(tables[n].content)
  }

  ghost predicate SameUpToEpoch<Content(!new)>(a: Tables<Content>, b: Tables<Content>) {
    a.Keys == b.Keys && forall n :: n in a ==> a[n].content == b[n].content
  }

  /** All tables anew if every node can be scheduled, else the old ones. */
  ghost function Regenerated<Task, Content>(gen: Scheduler<Task, Content>, ws: Workloads<Task>,
                                            tables: Tables<Content>, epochNs: nat)
    : Tables<Content>
  {
    if Feasible(gen, ws, AllNodes(ws, tables))
    then map n | n in AllNodes(ws, tables) :: Stamped(Plan(gen, ws, n).value, epochNs)
    else tables
  }

  /** Tables planned for exactly the nodes are the regenerated ones; a refused node leaves the old ones. */
  lemma RegeneratedIs<Task, Content>(gen: Scheduler<Task, Content>, ws: Workloads<Task>, tables: Tables<Content>,
                                     epochNs: nat, all: Tables<Content>)
    requires all.Keys == AllNodes(ws, tables)
    requires forall n :: n in all ==> Plan(gen, ws, n) == Some(all[n].content) && all[n].epochNs == epochNs
    ensures Feasible(gen, ws, AllNodes(ws, tables)) && Regenerated(gen, ws, tables, epochNs) == all
  {
  }

  lemma RefusedKeeps<Task, Content>(gen: Scheduler<Task, Content>, ws: Workloads<Task>, tables: Tables<Content>,
                                    epochNs: nat, node: string)
    requires node in AllNodes(ws, tables) && Plan(gen, ws, node).None?
    ensures !Feasible(gen, ws, AllNodes(ws, tables)) && Regenerated(gen, ws, tables, epochNs) == tables
  {
  }

  /** Tables for all nodes, or nothing at the first refusal. */
  method Regenerate<Task, Content>(gen: Scheduler<Task, Content>, ws: Workloads<Task>, tables: Tables<Content>,
                                   epochNs: nat)
    returns (ok: bool, r: Tables<Content>)
    ensures ok <==> Feasible(gen, ws, AllNodes(ws, tables))
    ensures r == Regenerated(gen, ws, tables, epochNs)
    ensures ok ==> GeneratedFrom(gen, ws, r) && r.Keys == AllNodes(ws, tables)
    ensures !ok ==> r == tables
  {
    var all;
    ok, all := GenerateNodes(gen, ws, AllNodes(ws, tables), epochNs);
    r := if ok then all else tables;
  }

  method GenerateNodes<Task, Content>(gen: Scheduler<Task, Content>, ws: Workloads<Task>, nodes: set<string>,
                                      epochNs: nat)
    returns (ok: bool, r: Tables<Content>)
    ensures ok <==> Feasible(gen, ws, nodes)
    ensures ok ==> r.Keys == nodes && forall n :: n in r ==>
              Plan(gen, ws, n).Some? && r[n] == Stamped(Plan(gen, ws, n).value, epochNs)
  {
    var todo := nodes;
    r := map[];
    while todo != {}
      invariant todo <= nodes && r.Keys == nodes - todo
      invariant forall n :: n in r ==> Plan(gen, ws, n).Some? && r[n] == Stamped(Plan(gen, ws, n).value, epochNs)
      decreases |todo|
    {
      var n :| n in todo;
      var result := Plan(gen, ws, n);
      if result.None? { return false, r; }
      r := r[n := Stamped(result.value, epochNs)];
      todo := todo - {n};
    }
    ok := true;
  }

  // ---- the operations on values ----

  datatype State<Task, Content> = State(workloads: Workloads<Task>, tables: Tables<Content>, changed: bool)

  datatype Op<Task> =
    | Add(id: string, entry: Entry<Task>, epochNs: nat)
    | Remove(id: string, triggerPush: bool, epochNs: nat)

  /** The workloads without the one the operation names. */
  function Rest<Task, Content>(s: State<Task, Content>, op: Op<Task>): Workloads<Task> {
    s.workloads - {op.id}
  }

  ghost predicate Accepts<Task, Content>(gen: Scheduler<Task, Content>, s: State<Task, Content>, op: Op<Task>) {
    op.Add? && var ws := s.workloads[op.id := op.entry]; Feasible(gen, ws, AllNodes(ws, s.tables))
  }

  ghost predicate RestFeasible<Task, Content>(gen: Scheduler<Task, Content>, s: State<Task, Content>, op: Op<Task>) {
    Feasible(gen, Rest(s, op), AllNodes(Rest(s, op), s.tables))
  }

  /** A refused update and a removal leave the rest; an unknown id to remove leaves everything. */
  ghost function Apply<Task, Content>(gen: Scheduler<Task, Content>, s: State<Task, Content>,
                                      op: Op<Task>): State<Task, Content> {
    var settled := Regenerated(gen, Rest(s, op), s.tables, op.epochNs);
    match op
    case Add(id, entry, epochNs) =>
      var ws := s.workloads[id := entry];
      if Accepts(gen, s, op) then State(ws, Regenerated(gen, ws, s.tables, epochNs), true)
      else State(Rest(s, op), settled, s.changed)
    case Remove(id, triggerPush, _) =>
      if id !in s.workloads then s
      else State(Rest(s, op), settled, s.changed || (triggerPush && RestFeasible(gen, s, op)))
  }

  /** The first id in the list whose hash the given text spells. */
  function FirstMatch(order: seq<string>, spells: string -> bool): (r: Option<string>)
    ensures r.None? <==> forall w :: w in order ==> !spells(w)
    ensures r.Some? ==> r.value in order && spells(r.value)
  {
    if order == [] then None
    else if spells(order[0]) then Some(order[0])
    else FirstMatch(order[1..], spells)
  }

  /** No id before it matches. */
  lemma {:induction false} FirstMatchAt(order: seq<string>, spells: string -> bool) returns (i: nat)
    requires FirstMatch(order, spells).Some?
    ensures i < |order| && order[i] == FirstMatch(order, spells).value && forall j :: 0 <= j < i ==> !spells(order[j])
  {
    if spells(order[0]) {
      i := 0;
    } else {
      var k := FirstMatchAt(order[1..], spells);
      i := k + 1;
      assert forall j :: 0 < j < i ==> order[j] == order[1..][j - 1];
    }
  }

  /** Which workload a removal means: the id itself, or else the first whose hash it spells. */
  function Resolve<Task>(ws: Workloads<Task>, id: string, order: seq<string>,
                         spells: string -> bool): (r: Option<string>)
    requires forall w :: w in order <==> w in ws
    ensures r.None? <==> forall w :: w in ws ==> w != id && !spells(w)
    ensures r.Some? ==> r.value in ws && (r.value == id || (id !in ws && spells(r.value)))
    ensures id in ws ==> r == Some(id)
  {
    if id in ws then Some(id) else FirstMatch(order, spells)
  }

  method ResolveId<Task>(ws: Workloads<Task>, id: string, order: seq<string>, spells: string -> bool)
    returns (r: Option<string>)
    requires forall w :: w in order <==> w in ws
    ensures r == Resolve(ws, id, order, spells)
  {
    if id in ws { return Some(id); }
    for i := 0 to |order|
      invariant FirstMatch(order, spells) == FirstMatch(order[i..], spells)
    {
      if spells(order[i]) { return Some(order[i]); }
    }
    r := None;
  }

  class Store<Task, Content> {
    var workloads: Workloads<Task>
    var tables: Tables<Content>
    var changed: bool

    function Now(): State<Task, Content>
      reads this
    {
      State(workloads, tables, changed)
    }

    constructor ()
      ensures workloads == map[] && tables == map[] && !changed
    {
      workloads, tables, changed := map[], map[], false;
    }

    /**
     * Store or replace a workload. On refusal it is erased again and the tables
     * are regenerated once more, without raising the flag.
     */
    method AddSchedInfo(gen: Scheduler<Task, Content>, id: string, entry: Entry<Task>, epochNs: nat)
      returns (accepted: bool)
      modifies this
      ensures accepted <==> Accepts(gen, old(Now()), Add(id, entry, epochNs))
      ensures Now() == Apply(gen, old(Now()), Add(id, entry, epochNs))
      ensures old(tables).Keys <= tables.Keys
    {
      workloads := workloads[id := entry];
      var ok;
      ok, tables := Regenerate(gen, workloads, tables, epochNs);
      if !ok {
        assert workloads - {id} == old(workloads) - {id};
        workloads := workloads - {id};
        ok, tables := Regenerate(gen, workloads, tables, epochNs);
        return false;
      }
      changed := true;
      accepted := true;
    }

    /**
     * Remove the workload that the id means, found in the map's order if only its hash is given;
     * on refusal it stays removed but the old tables stay in force.
     */
    method RemoveWorkload(gen: Scheduler<Task, Content>, id: string, order: seq<string>, spells: string -> bool,
                          triggerPush: bool, epochNs: nat) returns (removed: bool, resolved: Option<string>)
      requires forall w :: w in order <==> w in workloads
      modifies this
      ensures resolved == Resolve(old(workloads), id, order, spells)
      ensures resolved.None? ==> !removed && Now() == old(Now())
      ensures resolved.Some? ==> var op := Remove(resolved.value, triggerPush, epochNs);
                (removed <==> RestFeasible(gen, old(Now()), op)) && Now() == Apply(gen, old(Now()), op)
      ensures old(tables).Keys <= tables.Keys
    {
      resolved := ResolveId(workloads, id, order, spells);
      if resolved.None? { return false, None; }
      workloads := workloads - {resolved.value};
      removed, tables := Regenerate(gen, workloads, tables, epochNs);
      if removed && triggerPush { changed := true; }
    }

    /** Hand out the tables and clear the flag. */
    method GetScheduleTables() returns (r: Tables<Content>, wasChanged: bool)
      modifies this`changed
      ensures r == tables && wasChanged == old(changed) && !changed
    {
      r, wasChanged := tables, changed;
      changed := false;
    }
  }

  // ---- when tables change without the flag ----

  ghost predicate Raises<Task, Content>(gen: Scheduler<Task, Content>, s: State<Task, Content>, op: Op<Task>) {
    if op.Add? then Accepts(gen, s, op) else op.id in s.workloads && op.triggerPush && RestFeasible(gen, s, op)
  }

  /** The tables are regenerated for the rest of the workloads and the flag stays as it is. */
  ghost predicate ReplacesSilently<Task, Content>(gen: Scheduler<Task, Content>, s: State<Task, Content>,
                                                  op: Op<Task>) {
    && RestFeasible(gen, s, op)
    && if op.Add? then !Accepts(gen, s, op) else op.id in s.workloads && !op.triggerPush
  }

  /** Every target has a table: kept by every operation from the empty store on. */
  ghost predicate Covered<Task, Content>(s: State<Task, Content>) {
    Targets(s.workloads) <= s.tables.Keys
  }

  lemma TargetsOfRest<Task, Content>(s: State<Task, Content>, op: Op<Task>)
    ensures Targets(Rest(s, op)) <= Targets(s.workloads)
  {
    forall n | n in Targets(Rest(s, op)) ensures n in Targets(s.workloads) {
      var w :| w in Rest(s, op) && n in Rest(s, op)[w].targets;
      assert w in s.workloads && n in s.workloads[w].targets;
    }
  }

  lemma ApplyCovered<Task, Content>(gen: Scheduler<Task, Content>, s: State<Task, Content>, op: Op<Task>)
    requires Covered(s)
    ensures Covered(Apply(gen, s, op)) && s.tables.Keys <= Apply(gen, s, op).tables.Keys
    ensures !Raises(gen, s, op) ==> Apply(gen, s, op).tables.Keys == s.tables.Keys
    ensures Apply(gen, s, op).changed <==> s.changed || Raises(gen, s, op)
  {
    TargetsOfRest(s, op);
  }

  /** Regenerating from the same workloads is possible and changes nothing but the epoch. */
  lemma RegenerationIsStable<Task, Content(!new)>(gen: Scheduler<Task, Content>, ws: Workloads<Task>,
                                           tables: Tables<Content>, epochNs: nat)
    requires GeneratedFrom(gen, ws, tables)
    ensures Feasible(gen, ws, AllNodes(ws, tables)) && SameUpToEpoch(tables, Regenerated(gen, ws, tables, epochNs))
  {
    assert AllNodes(ws, tables) == tables.Keys;
  }

  /** A silent replacement goes unnoticed exactly when it regenerates the tables that were there. */
  lemma FlaggedOrSameIff<Task, Content(!new)>(gen: Scheduler<Task, Content>, s: State<Task, Content>, op: Op<Task>)
    requires Covered(s)
    ensures var r := Apply(gen, s, op);
            r.changed || SameUpToEpoch(s.tables, r.tables) <==>
            s.changed || Raises(gen, s, op) || !ReplacesSilently(gen, s, op)
            || GeneratedFrom(gen, Rest(s, op), s.tables)
  {
    ApplyCovered(gen, s, op);
    TargetsOfRest(s, op);
    var r := Apply(gen, s, op);
    if !r.changed && ReplacesSilently(gen, s, op) {
      assert r.tables == Regenerated(gen, Rest(s, op), s.tables, op.epochNs);
      forall n | n in s.tables
        ensures s.tables[n].content == r.tables[n].content <==> Plan(gen, Rest(s, op), n) == Some(s.tables[n].content)
      {
      }
    }
  }

  /**
   * From generated tables: the tables change by more than their epoch without the
   * flag unless it is raised, the id is unknown, the rest cannot be scheduled, or
   * the workload makes no difference to any node's table.
   */
  lemma UnflaggedChangeIff<Task(!new), Content(!new)>(gen: Scheduler<Task, Content>, s: State<Task, Content>,
                                op: Op<Task>)
    requires GeneratedFrom(gen, s.workloads, s.tables)
    ensures var r := Apply(gen, s, op);
            r.changed || SameUpToEpoch(s.tables, r.tables) <==>
            || s.changed || Raises(gen, s, op) || op.id !in s.workloads || !RestFeasible(gen, s, op)
            || forall n :: n in s.tables ==> Plan(gen, Rest(s, op), n) == Plan(gen, s.workloads, n)
  {
    FlaggedOrSameIff(gen, s, op);
    TargetsOfRest(s, op);
    if op.id !in s.workloads {
      assert Rest(s, op) == s.workloads;
    }
  }

  /** A refused workload is rolled back if and only if its id was new; the tables are then kept up to their epoch. */
  lemma RollbackRestoresIff<Task(!new), Content(!new)>(gen: Scheduler<Task, Content>, s: State<Task, Content>,
                                 op: Op<Task>)
    requires GeneratedFrom(gen, s.workloads, s.tables) && op.Add? && !Accepts(gen, s, op)
    ensures var r := Apply(gen, s, op);
            && (r.workloads == s.workloads <==> op.id !in s.workloads)
            && (op.id !in s.workloads ==> SameUpToEpoch(s.tables, r.tables) && r.changed == s.changed)
  {
    var quiet := s.(changed := false);
    UnflaggedChangeIff(gen, quiet, op);
    assert Apply(gen, quiet, op).tables == Apply(gen, s, op).tables;
  }

  /** One workload "w" with one task for node "n". */
  function Only<Task>(t: Task): Workloads<Task> {
    map["w" := Entry({"n"}, [t])]
  }

  lemma OnlyPlan<Task, Content>(gen: Scheduler<Task, Content>, t: Task)
    ensures Targets(Only(t)) == {"n"} && Plan(gen, Only(t), "n") == gen("n", map["w" := [t]])
  {
    assert "w" in Only(t) && "n" in Only(t)["w"].targets;
    assert TasksFor(Only(t), "n") == map["w" := [t]];
  }

  lemma NonePlan<Task, Content>(gen: Scheduler<Task, Content>)
    ensures Targets<Task>(map[]) == {} && Plan(gen, map[], "n") == gen("n", map[])
  {
    assert TasksFor<Task>(map[], "n") == map[];
  }

  /** The first workload of an empty store. */
  lemma FirstWorkload<Task, Content(!new)>(gen: Scheduler<Task, Content>, light: Task, table: Content)
    requires gen("n", map["w" := [light]]) == Some(table)
    ensures var s := Apply(gen, State(map[], map[], false), Add("w", Entry({"n"}, [light]), 1));
            s == State(Only(light), map["n" := Stamped(table, 1)], true) && GeneratedFrom(gen, s.workloads, s.tables)
  {
    OnlyPlan(gen, light);
    var none: Workloads<Task> := map[];
    assert none["w" := Entry({"n"}, [light])] == Only(light);
  }

  /** A refused update of a workload and its removal without a push change the node's table; the flag stays down. */
  lemma SilentChanges<Task(!new), Content(!new)>(gen: Scheduler<Task, Content>, light: Task, heavy: Task,
                           table: Content, empty: Content)
    requires gen("n", map["w" := [light]]) == Some(table) && gen("n", map["w" := [heavy]]) == None
    requires gen("n", map[]) == Some(empty)
    requires table != empty
    ensures var s := Apply(gen, State(map[], map[], false), Add("w", Entry({"n"}, [light]), 1)).(changed := false);
            var refused := Apply(gen, s, Add("w", Entry({"n"}, [heavy]), 2));
            var removed := Apply(gen, s, Remove("w", false, 2));
            && GeneratedFrom(gen, s.workloads, s.tables)
            && !refused.changed && !SameUpToEpoch(s.tables, refused.tables)
            && !removed.changed && !SameUpToEpoch(s.tables, removed.tables)
  {
    FirstWorkload(gen, light, table);
    var s := State(Only(light), map["n" := Stamped(table, 1)], false);
    RestIsNone(gen, s, light, Add("w", Entry({"n"}, [heavy]), 2), empty);
    RestIsNone(gen, s, light, Remove("w", false, 2), empty);
    OnlyPlan(gen, heavy);
    assert Only(light)["w" := Entry({"n"}, [heavy])] == Only(heavy);
    UnflaggedChangeIff(gen, s, Add("w", Entry({"n"}, [heavy]), 2));
    UnflaggedChangeIff(gen, s, Remove("w", false, 2));
    ApplyCovered(gen, s, Add("w", Entry({"n"}, [heavy]), 2));
    ApplyCovered(gen, s, Remove("w", false, 2));
  }

  lemma RestIsNone<Task, Content(!new)>(gen: Scheduler<Task, Content>, s: State<Task, Content>, light: Task,
                                 op: Op<Task>, empty: Content)
    requires op.id == "w" && s.workloads == Only(light) && s.tables.Keys == {"n"} && gen("n", map[]) == Some(empty)
    ensures Rest(s, op) == map[] && RestFeasible(gen, s, op) && Plan(gen, Rest(s, op), "n") == Some(empty)
  {
    NonePlan(gen);
    assert Rest(s, op) == map[];
  }

  /** The removal leaves the node with the table for no workload, and so does the refused update. */
  lemma QuietRemoval<Task, Content(!new)>(gen: Scheduler<Task, Content>, light: Task, heavy: Task, table: Content,
                                          empty: Content)
    requires gen("n", map[]) == Some(empty) && gen("n", map["w" := [heavy]]) == None
    ensures var s, r := State(Only(light), map["n" := Stamped(table, 1)], false),
                        State(map[], map["n" := Stamped(empty, 2)], false);
            Apply(gen, s, Remove("w", false, 2)) == r && Apply(gen, s, Add("w", Entry({"n"}, [heavy]), 2)) == r
  {
    var s := State(Only(light), map["n" := Stamped(table, 1)], false);
    var remove, add := Remove("w", false, 2), Add("w", Entry({"n"}, [heavy]), 2);
    RestIsNone(gen, s, light, remove, empty);
    RestIsNone(gen, s, light, add, empty);
    NonePlan(gen);
    OnlyPlan(gen, heavy);
    assert Only(light)["w" := Entry({"n"}, [heavy])] == Only(heavy);
    var settled := Regenerated(gen, Rest(s, remove), s.tables, 2);
    assert settled == map["n" := Stamped(empty, 2)];
  }

  // ---- any sequence of operations between two readings ----

  ghost function RunOps<Task, Content>(gen: Scheduler<Task, Content>, s: State<Task, Content>,
                                       ops: seq<Op<Task>>): State<Task, Content> {
    if ops == [] then s else Apply(gen, RunOps(gen, s, ops[..|ops| - 1]), ops[|ops| - 1])
  }

  /** One of the operations raised the flag. */
  ghost predicate SomeRaise<Task, Content>(gen: Scheduler<Task, Content>, s: State<Task, Content>, ops: seq<Op<Task>>) {
    ops != [] &&
    var n := |ops| - 1;
    SomeRaise(gen, s, ops[..n]) || Raises(gen, RunOps(gen, s, ops[..n]), ops[n])
  }

  /** What the tables in force were last silently generated from, if they were. */
  ghost function LastSource<Task, Content>(gen: Scheduler<Task, Content>, s: State<Task, Content>,
                                           ops: seq<Op<Task>>): Option<Workloads<Task>> {
    if ops == [] then None
    else
      var before, op := RunOps(gen, s, ops[..|ops| - 1]), ops[|ops| - 1];
      if ReplacesSilently(gen, before, op) then Some(Rest(before, op)) else LastSource(gen, s, ops[..|ops| - 1])
  }

  /** The flag is up exactly when an operation raised it; else the tables are those of the last silent source. */
  lemma {:induction false} RunOpsTables<Task, Content>(gen: Scheduler<Task, Content>, s: State<Task, Content>,
                                                       ops: seq<Op<Task>>)
    requires Covered(s)
    ensures var r, source := RunOps(gen, s, ops), LastSource(gen, s, ops);
            && Covered(r) && s.tables.Keys <= r.tables.Keys
            && (r.changed <==> s.changed || SomeRaise(gen, s, ops))
            && (!SomeRaise(gen, s, ops) ==>
                  && r.tables.Keys == s.tables.Keys
                  && (source.None? ==> r.tables == s.tables)
                  && (source.Some? ==> forall n :: n in r.tables ==>
                      Plan(gen, source.value, n) == Some(r.tables[n].content)))
  {
    if ops != [] {
      var n := |ops| - 1;
      RunOpsTables(gen, s, ops[..n]);
      ApplyCovered(gen, RunOps(gen, s, ops[..n]), ops[n]);
    }
  }

  /**
   * Over any operations between two readings that clear the flag: the next reader is
   * told of every real change if and only if an operation raised the flag, none
   * replaced the tables, or the last silent replacement plans every node as before.
   */
  lemma ReadersToldIff<Task, Content(!new)>(gen: Scheduler<Task, Content>, s: State<Task, Content>, ops: seq<Op<Task>>)
    requires Covered(s) && !s.changed
    ensures var r, source := RunOps(gen, s, ops), LastSource(gen, s, ops);
            r.changed || SameUpToEpoch(s.tables, r.tables) <==>
            || SomeRaise(gen, s, ops) || source.None?
            || forall n :: n in s.tables ==> Plan(gen, source.value, n) == Some(s.tables[n].content)
  {
    RunOpsTables(gen, s, ops);
    var r, source := RunOps(gen, s, ops), LastSource(gen, s, ops);
    if !SomeRaise(gen, s, ops) && source.Some? {
      forall n | n in s.tables
        ensures s.tables[n].content == r.tables[n].content <==> Plan(gen, source.value, n) == Some(s.tables[n].content)
      {
        assert n in r.tables && Plan(gen, source.value, n) == Some(r.tables[n].content);
      }
    }
  }
}
