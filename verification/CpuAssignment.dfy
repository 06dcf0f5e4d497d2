/** CPU assignment and the two CBS admission gates of the planner, in exact arithmetic. */
module CpuAssignment {
  import opened Basics
  import opened Sequences
  import opened SlotPlacement
  import opened Gaps

  const U_BOUND: real := 0.80
  const U_OVERHEAD: real := 0.02

  lemma UtilizationNonNegative(t: ClassifiedTask)
    ensures TaskUtilization(t) >= 0.0
  {
    if t.periodUs > 0 { RatioNonNegative(t.wcetUs as real, t.periodUs as real); }
  }

  /** Utilisation of the tasks that `cpuOf` puts on `cpu`. */
  function Load(tasks: seq<ClassifiedTask>, cpuOf: seq<int>, cpu: int): real
    requires |tasks| == |cpuOf|
  {
    if tasks == [] then 0.0
    else
      var n := |tasks| - 1;
      Load(tasks[..n], cpuOf[..n], cpu) + if cpuOf[n] == cpu then TaskUtilization(tasks[n]) else 0.0
  }

  /** The tasks that `cpuOf` puts on `cpu`, in task order. */
  function Collect(tasks: seq<ClassifiedTask>, cpuOf: seq<int>, cpu: int): seq<ClassifiedTask>
    requires |tasks| == |cpuOf|
  {
    if tasks == [] then []
    else
      var n := |tasks| - 1;
      Collect(tasks[..n], cpuOf[..n], cpu) + if cpuOf[n] == cpu then [tasks[n]] else []
  }

  lemma {:induction false} CollectContents(tasks: seq<ClassifiedTask>, cpuOf: seq<int>, cpu: int)
    requires |tasks| == |cpuOf|
    ensures forall t :: t in Collect(tasks, cpuOf, cpu) <==>
              exists i :: 0 <= i < |tasks| && cpuOf[i] == cpu && tasks[i] == t
  {
    if tasks != [] {
      var n := |tasks| - 1;
      CollectContents(tasks[..n], cpuOf[..n], cpu);
      forall t
        ensures t in Collect(tasks, cpuOf, cpu) <==> exists i :: 0 <= i < |tasks| && cpuOf[i] == cpu && tasks[i] == t
      {
        if exists i :: 0 <= i < n && cpuOf[..n][i] == cpu && tasks[..n][i] == t {
          var i :| 0 <= i < n && cpuOf[..n][i] == cpu && tasks[..n][i] == t;
          assert cpuOf[i] == cpu && tasks[i] == t;
        }
        if exists i :: 0 <= i < |tasks| && cpuOf[i] == cpu && tasks[i] == t {
          var i :| 0 <= i < |tasks| && cpuOf[i] == cpu && tasks[i] == t;
          if i < n { assert cpuOf[..n][i] == cpu && tasks[..n][i] == t; }
        }
      }
    }
  }

  lemma {:induction false} CollectLoad(tasks: seq<ClassifiedTask>, cpuOf: seq<int>, cpu: int)
    requires |tasks| == |cpuOf|
    ensures Utilization(Collect(tasks, cpuOf, cpu)) == Load(tasks, cpuOf, cpu)
  {
    if tasks != [] {
      var n := |tasks| - 1;
      CollectLoad(tasks[..n], cpuOf[..n], cpu);
      var init := Collect(tasks[..n], cpuOf[..n], cpu);
      assert (init + [tasks[n]])[..|init|] == init;
      assert init + [] == init;
    }
  }

  /** Moving a task from no CPU to `to` raises exactly that CPU's load. */
  lemma {:induction false} LoadAssign(tasks: seq<ClassifiedTask>, cpuOf: seq<int>, i: nat, to: int, cpu: int)
    requires |tasks| == |cpuOf| && i < |tasks| && cpuOf[i] == -1 && cpu != -1
    ensures Load(tasks, cpuOf[i := to], cpu) ==
            Load(tasks, cpuOf, cpu) + if to == cpu then TaskUtilization(tasks[i]) else 0.0
  {
    var n := |tasks| - 1;
    if i == n {
      assert cpuOf[i := to][..n] == cpuOf[..n];
    } else {
      LoadAssign(tasks[..n], cpuOf[..n], i, to, cpu);
      assert cpuOf[i := to][..n] == cpuOf[..n][i := to];
    }
  }

  lemma {:induction false} LoadUnassigned(tasks: seq<ClassifiedTask>, cpuOf: seq<int>, cpu: int)
    requires |tasks| == |cpuOf| && forall i :: 0 <= i < |cpuOf| ==> cpuOf[i] != cpu
    ensures Load(tasks, cpuOf, cpu) == 0.0
  {
    if tasks != [] { LoadUnassigned(tasks[..|tasks| - 1], cpuOf[..|tasks| - 1], cpu); }
  }

  lemma {:induction false} LoadBounds(tasks: seq<ClassifiedTask>, cpuOf: seq<int>, cpu: int)
    requires |tasks| == |cpuOf|
    ensures Load(tasks, cpuOf, cpu) >= 0.0
    ensures forall i :: 0 <= i < |tasks| && cpuOf[i] == cpu ==> Load(tasks, cpuOf, cpu) >= TaskUtilization(tasks[i])
  {
    if tasks != [] {
      var n := |tasks| - 1;
      LoadBounds(tasks[..n], cpuOf[..n], cpu);
      UtilizationNonNegative(tasks[n]);
      forall i | 0 <= i < n && cpuOf[i] == cpu
        ensures Load(tasks, cpuOf, cpu) >= TaskUtilization(tasks[i])
      {
        assert cpuOf[..n][i] == cpu && tasks[..n][i] == tasks[i];
      }
    }
  }

  // ---- TT: one CPU per workload ----

  function IdsOf(tt: seq<ClassifiedTask>): set<string> {
    set i | 0 <= i < |tt| :: tt[i].workloadId
  }

  /** The distinct workload ids, in the order of std::map. */
  method WorkloadIds(lib: Library, tt: seq<ClassifiedTask>) returns (ids: seq<string>)
    requires Lawful(lib)
    ensures ids == lib.list(IdsOf(tt)) && Distinct(ids)
    ensures forall w :: w in ids <==> exists i :: 0 <= i < |tt| && tt[i].workloadId == w
  {
    var groups: set<string> := {};
    for n := 0 to |tt|
      invariant groups == set i | 0 <= i < n :: tt[i].workloadId
    {
      groups := groups + {tt[n].workloadId};
    }
    ids := lib.list(groups);
  }

  function IndexOf(ids: seq<string>, w: string): (r: nat)
    requires w in ids
    ensures r < |ids| && ids[r] == w
  {
    if ids[0] == w then 0 else 1 + IndexOf(ids[1..], w)
  }

  /** Reference: each workload's CPU by its place in the list of ids. */
  function TtCpus(lib: Library, cpus: seq<int>, tt: seq<ClassifiedTask>): (r: seq<int>)
    requires Lawful(lib) && cpus != []
    ensures |r| == |tt|
  {
    var ids := lib.list(IdsOf(tt));
    seq(|tt|, i requires 0 <= i < |tt| =>
      assert tt[i].workloadId in IdsOf(tt); CpuFor(cpus, IndexOf(ids, tt[i].workloadId)))
  }

  /** The CPU of the w-th workload: its own one, or the last one once they run out. */
  function CpuFor(cpus: seq<int>, w: nat): int
    requires cpus != []
  {
    if w < |cpus| then cpus[w] else cpus[|cpus| - 1]
  }

  lemma {:induction false} IndexUnique(ids: seq<string>, w: nat)
    requires Distinct(ids) && w < |ids|
    ensures IndexOf(ids, ids[w]) == w
  {
    if w > 0 {
      assert ids[0] != ids[w];
      IndexUnique(ids[1..], w - 1);
    }
  }

  /**
   * The workloads in the order of their ids take the CPUs in ascending order, one each as far as they go.
   * Two workloads share a CPU if and only if both come at the last CPU or after it.
   */
  lemma CpusSharedIff(lib: Library, cpus: seq<int>, tt: seq<ClassifiedTask>, i: nat, j: nat, a: nat, b: nat)
    requires Lawful(lib) && cpus != [] && Distinct(cpus) && i < |tt| && j < |tt|
    requires var ids := lib.list(IdsOf(tt));
             a < |ids| && b < |ids| && ids[a] == tt[i].workloadId && ids[b] == tt[j].workloadId
    ensures var on := TtCpus(lib, cpus, tt);
            && (a < |cpus| ==> on[i] == cpus[a])
            && (on[i] == on[j] <==> a == b || (a >= |cpus| - 1 && b >= |cpus| - 1))
  {
    var ids := lib.list(IdsOf(tt));
    IndexUnique(ids, a);
    IndexUnique(ids, b);
  }

  /** Per-CPU loads in the maps are the loads of the assignment. */
  ghost predicate Tracks(u: map<int, real>, cpus: seq<int>, tasks: seq<ClassifiedTask>, cpuOf: seq<int>) {
    && |tasks| == |cpuOf|
    && (forall c :: c in cpus <==> c in u)
    && forall c :: c in u ==> u[c] == Load(tasks, cpuOf, c)
  }

  method AssignTt(lib: Library, cpus: seq<int>, tt: seq<ClassifiedTask>)
    returns (cpuOf: seq<int>, uTt: map<int, real>, ghost ids: seq<string>)
    requires Lawful(lib) && cpus != [] && forall c :: c in cpus ==> c >= 0
    ensures cpuOf == TtCpus(lib, cpus, tt)
    ensures Tracks(uTt, cpus, tt, cpuOf)
    ensures Distinct(ids) && forall i :: 0 <= i < |tt| ==> tt[i].workloadId in ids
    ensures forall i, w :: 0 <= i < |tt| && 0 <= w < |ids| && tt[i].workloadId == ids[w] ==> cpuOf[i] == CpuFor(cpus, w)
  {
    var order := WorkloadIds(lib, tt);
    ids := order;
    cpuOf := seq(|tt|, i => -1);
    uTt := map c | c in cpus :: 0.0;
    forall c | c in uTt ensures uTt[c] == Load(tt, cpuOf, c) { LoadUnassigned(tt, cpuOf, c); }
    var cpuIdx := 0;
    for w := 0 to |order|
      invariant cpuIdx <= |cpus| && (cpuIdx < |cpus| ==> cpuIdx == w) && (cpuIdx == |cpus| ==> w >= |cpus|)
      invariant Tracks(uTt, cpus, tt, cpuOf)
      invariant TtDone(tt, order, w, cpus, cpuOf)
    {
      if cpuIdx >= |cpus| { cpuIdx := |cpus| - 1; }
      var cpu := cpus[cpuIdx];
      cpuOf, uTt := AssignWorkload(cpus, tt, order, w, cpu, cpuOf, uTt);
      cpuIdx := cpuIdx + 1;
    }
    DoneIsReference(lib, cpus, tt, order, cpuOf);
  }

  lemma DoneIsReference(lib: Library, cpus: seq<int>, tt: seq<ClassifiedTask>, ids: seq<string>, cpuOf: seq<int>)
    requires Lawful(lib) && cpus != [] && ids == lib.list(IdsOf(tt)) && TtDone(tt, ids, |ids|, cpus, cpuOf)
    ensures cpuOf == TtCpus(lib, cpus, tt)
  {
    forall i | 0 <= i < |tt| ensures cpuOf[i] == TtCpus(lib, cpus, tt)[i] {
      assert tt[i].workloadId in IdsOf(tt);
      assert tt[i].workloadId == ids[IndexOf(ids, tt[i].workloadId)];
    }
  }

  /** Tasks of the first `w` workloads have their CPU, the others none. */
  ghost predicate TtDone(tt: seq<ClassifiedTask>, ids: seq<string>, w: int, cpus: seq<int>, cpuOf: seq<int>) {
    && cpus != [] && |cpuOf| == |tt| && Distinct(ids)
    && (forall i, v :: 0 <= i < |tt| && 0 <= v < |ids| && tt[i].workloadId == ids[v] ==>
          cpuOf[i] == if v < w then CpuFor(cpus, v) else -1)
  }

  method AssignWorkload(cpus: seq<int>, tt: seq<ClassifiedTask>, ids: seq<string>, w: nat, cpu: int,
                        cpuOf0: seq<int>, uTt0: map<int, real>)
    returns (cpuOf: seq<int>, uTt: map<int, real>)
    requires w < |ids| && TtDone(tt, ids, w, cpus, cpuOf0) && cpu == CpuFor(cpus, w)
    requires Tracks(uTt0, cpus, tt, cpuOf0) && forall c :: c in cpus ==> c >= 0
    ensures TtDone(tt, ids, w + 1, cpus, cpuOf)
    ensures Tracks(uTt, cpus, tt, cpuOf)
  {
    cpuOf := cpuOf0;
    var wlUtil := 0.0;
    for i := 0 to |tt|
      invariant |cpuOf| == |tt|
      invariant forall k :: 0 <= k < |tt| ==>
                  cpuOf[k] == if k < i && tt[k].workloadId == ids[w] then cpu else cpuOf0[k]
      invariant forall c :: c in uTt0 ==> Load(tt, cpuOf, c) == uTt0[c] + if c == cpu then wlUtil else 0.0
    {
      if tt[i].workloadId == ids[w] {
        forall c | c in uTt0
          ensures Load(tt, cpuOf[i := cpu], c) == Load(tt, cpuOf, c) + if c == cpu then TaskUtilization(tt[i]) else 0.0
        {
          assert c in cpus;
          LoadAssign(tt, cpuOf, i, cpu, c);
        }
        cpuOf := cpuOf[i := cpu];
        if tt[i].periodUs > 0 {
          wlUtil := wlUtil + tt[i].wcetUs as real / tt[i].periodUs as real;
        }
      }
    }
    assert cpu in cpus;
    uTt := uTt0[cpu := uTt0[cpu] + wlUtil];
  }

  // ---- CBS: worst-fit decreasing ----

  function Residual(uTt: map<int, real>, uCbs: map<int, real>, cpu: int): real
    requires cpu in uTt && cpu in uCbs
  {
    U_BOUND - uTt[cpu] - uCbs[cpu] - U_OVERHEAD
  }

  ghost predicate KnownCpus(cpus: seq<int>, uTt: map<int, real>, uCbs: map<int, real>) {
    forall c :: c in cpus ==> c >= 0 && c in uTt && c in uCbs
  }

  /** Reference: the best of the first `n` CPUs. */
  ghost function BestOf(cpus: seq<int>, uTt: map<int, real>, uCbs: map<int, real>, us: real, n: nat): (best: int)
    requires n <= |cpus| && KnownCpus(cpus, uTt, uCbs)
    ensures best == -1 || best in cpus
  {
    if n == 0 then -1
    else
      var best := BestOf(cpus, uTt, uCbs, us, n - 1);
      assert cpus[n - 1] in cpus;
      var residual := Residual(uTt, uCbs, cpus[n - 1]);
      if residual >= us && (best == -1 || residual > Residual(uTt, uCbs, best)) then cpus[n - 1] else best
  }

  /** The first CPU of largest residual capacity among those that can take `us`; -1 if none can. */
  method WorstFit(cpus: seq<int>, uTt: map<int, real>, uCbs: map<int, real>, us: real) returns (best: int)
    requires us >= 0.0 && KnownCpus(cpus, uTt, uCbs)
    ensures best == BestOf(cpus, uTt, uCbs, us, |cpus|)
    ensures best == -1 <==> forall c :: c in cpus ==> Residual(uTt, uCbs, c) < us
    ensures best != -1 ==> best in cpus && Residual(uTt, uCbs, best) >= us
    ensures best != -1 ==> forall c :: c in cpus ==> Residual(uTt, uCbs, c) <= Residual(uTt, uCbs, best)
    ensures best != -1 ==> exists at :: 0 <= at < |cpus| && cpus[at] == best &&
                             forall i :: 0 <= i < at ==> Residual(uTt, uCbs, cpus[i]) < Residual(uTt, uCbs, best)
  {
    best := -1;
    var bestResidual := -1.0;
    ghost var at := 0;
    for n := 0 to |cpus|
      invariant best == BestOf(cpus, uTt, uCbs, us, n)
      invariant best == -1 ==> bestResidual == -1.0 && forall i :: 0 <= i < n ==> Residual(uTt, uCbs, cpus[i]) < us
      invariant best != -1 ==> best in cpus && bestResidual == Residual(uTt, uCbs, best) >= us
      invariant best != -1 ==> forall i :: 0 <= i < n ==> Residual(uTt, uCbs, cpus[i]) <= bestResidual
      invariant best != -1 ==> 0 <= at < n && cpus[at] == best
      invariant best != -1 ==> forall i :: 0 <= i < at ==> Residual(uTt, uCbs, cpus[i]) < bestResidual
    {
      assert cpus[n] in cpus;
      var residual := Residual(uTt, uCbs, cpus[n]);
      if residual >= us && residual > bestResidual {
        bestResidual := residual;
        best := cpus[n];
        at := n;
      }
    }
  }

  /** The first gate: CPUs that received CBS work keep it and their TT load within the bound. */
  ghost predicate GateOne(uTt: map<int, real>, uCbs: map<int, real>, cpuOf: seq<int>) {
    forall i :: 0 <= i < |cpuOf| && cpuOf[i] != -1 ==>
      cpuOf[i] in uTt && cpuOf[i] in uCbs && uTt[cpuOf[i]] + uCbs[cpuOf[i]] + U_OVERHEAD <= U_BOUND
  }

  /** A CBS task fits nowhere although only tasks at least as demanding were placed before it. */
  ghost predicate Rejected(cpus: seq<int>, cbs: seq<ClassifiedTask>, cpuOf: seq<int>, uTt: map<int, real>,
                           uCbs: map<int, real>, i: int) {
    && 0 <= i < |cbs| == |cpuOf| && cpuOf[i] == -1
    && (forall k :: 0 <= k < |cbs| && cpuOf[k] != -1 ==> TaskUtilization(cbs[k]) >= TaskUtilization(cbs[i]))
    && (forall c :: c in cpus ==>
          && c in uTt && c in uCbs
          && uTt[c] + uCbs[c] + TaskUtilization(cbs[i]) + U_OVERHEAD > U_BOUND)
  }

  /** The loads of an assignment on the given CPUs. */
  function LoadMap(cpus: seq<int>, tasks: seq<ClassifiedTask>, cpuOf: seq<int>): map<int, real>
    requires |tasks| == |cpuOf|
  {
    map c | c in cpus :: Load(tasks, cpuOf, c)
  }

  lemma TracksIsLoadMap(u: map<int, real>, cpus: seq<int>, tasks: seq<ClassifiedTask>, cpuOf: seq<int>)
    requires Tracks(u, cpus, tasks, cpuOf)
    ensures u == LoadMap(cpus, tasks, cpuOf)
  {
    assert forall c :: c in u <==> c in LoadMap(cpus, tasks, cpuOf);
  }

  function UtilizationKeys(tasks: seq<ClassifiedTask>): (r: seq<real>)
    ensures |r| == |tasks|
  {
    seq(|tasks|, i requires 0 <= i < |tasks| => -TaskUtilization(tasks[i]))
  }

  /** Reference: the first `n` CBS tasks in order, each on the best CPU; None once one fits nowhere. */
  ghost function CbsCpus(cpus: seq<int>, cbs: seq<ClassifiedTask>, uTt: map<int, real>, order: seq<nat>,
                         n: nat): (r: Option<seq<int>>)
    requires n <= |order| && IsPermutation(order, |cbs|) && forall c :: c in cpus ==> c >= 0 && c in uTt
    ensures r.Some? ==> |r.value| == |cbs|
  {
    if n == 0 then Some(seq(|cbs|, _ => -1))
    else
      match CbsCpus(cpus, cbs, uTt, order, n - 1)
      case None => None
      case Some(cpuOf) =>
        var best := BestOf(cpus, uTt, LoadMap(cpus, cbs, cpuOf), TaskUtilization(cbs[order[n - 1]]), |cpus|);
        if best < 0 then None else Some(cpuOf[order[n - 1] := best])
  }

  lemma CbsCpusStuck(cpus: seq<int>, cbs: seq<ClassifiedTask>, uTt: map<int, real>, order: seq<nat>, n: nat, m: nat)
    requires n <= m <= |order| && IsPermutation(order, |cbs|) && forall c :: c in cpus ==> c >= 0 && c in uTt
    requires CbsCpus(cpus, cbs, uTt, order, n) == None
    ensures CbsCpus(cpus, cbs, uTt, order, m) == None
  {
    if n < m { CbsCpusStuck(cpus, cbs, uTt, order, n, m - 1); }
  }

  method AssignCbs(lib: Library, cpus: seq<int>, cbs: seq<ClassifiedTask>, uTt: map<int, real>)
    returns (ok: bool, cpuOf: seq<int>, uCbs: map<int, real>, ghost stuck: int)
    requires Lawful(lib) && forall c :: c in cpus ==> c >= 0 && c in uTt
    ensures CbsCpus(cpus, cbs, uTt, lib.sort(UtilizationKeys(cbs)), |cbs|) == if ok then Some(cpuOf) else None
    ensures Tracks(uCbs, cpus, cbs, cpuOf)
    ensures GateOne(uTt, uCbs, cpuOf)
    ensures ok ==> forall i :: 0 <= i < |cbs| ==> cpuOf[i] in cpus
    ensures !ok ==> Rejected(cpus, cbs, cpuOf, uTt, uCbs, stuck)
  {
    ok, cpuOf, uCbs, stuck := AssignInOrder(cpus, cbs, uTt, lib.sort(UtilizationKeys(cbs)));
  }

  /** Exactly the first `n` tasks in order have a CPU. */
  ghost predicate PlacedPrefix(cpus: seq<int>, cpuOf: seq<int>, order: seq<nat>, n: nat) {
    && IsPermutation(order, |cpuOf|)
    && forall k :: 0 <= k < |order| ==> if k < n then cpuOf[order[k]] in cpus else cpuOf[order[k]] == -1
  }

  lemma PlacedNext(cpus: seq<int>, cpuOf: seq<int>, order: seq<nat>, n: nat, best: int)
    requires PlacedPrefix(cpus, cpuOf, order, n) && n < |order| && best in cpus
    ensures PlacedPrefix(cpus, cpuOf[order[n] := best], order, n + 1)
  {
  }

  lemma PlacedAll(cpus: seq<int>, cpuOf: seq<int>, order: seq<nat>)
    requires PlacedPrefix(cpus, cpuOf, order, |order|)
    ensures forall i :: 0 <= i < |cpuOf| ==> cpuOf[i] in cpus
  {
    forall i | 0 <= i < |cpuOf| ensures cpuOf[i] in cpus { assert i in order; }
  }

  method AssignInOrder(cpus: seq<int>, cbs: seq<ClassifiedTask>, uTt: map<int, real>, order: seq<nat>)
    returns (ok: bool, cpuOf: seq<int>, uCbs: map<int, real>, ghost stuck: int)
    requires IsPermutation(order, |cbs|) && Ascending(UtilizationKeys(cbs), order) && forall c :: c in cpus ==>
               c >= 0 && c in uTt
    ensures CbsCpus(cpus, cbs, uTt, order, |cbs|) == if ok then Some(cpuOf) else None
    ensures Tracks(uCbs, cpus, cbs, cpuOf) && GateOne(uTt, uCbs, cpuOf)
    ensures ok ==> forall i :: 0 <= i < |cbs| ==> cpuOf[i] in cpus
    ensures !ok ==> Rejected(cpus, cbs, cpuOf, uTt, uCbs, stuck)
  {
    stuck := -1;
    cpuOf, uCbs := NothingAssigned(cpus, cbs, uTt, order);
    for n := 0 to |order|
      invariant CbsState(cpus, cbs, uTt, order, n, cpuOf, uCbs)
    {
      var best;
      best, uCbs, cpuOf := AssignOne(cpus, cbs, uTt, uCbs, cpuOf, order, n);
      if best < 0 { return false, cpuOf, uCbs, order[n]; }
    }
    PlacedAll(cpus, cpuOf, order);
    ok := true;
  }

  /** After `n` tasks in order: the reference's assignment, its loads, and the first gate kept. */
  ghost predicate CbsState(cpus: seq<int>, cbs: seq<ClassifiedTask>, uTt: map<int, real>, order: seq<nat>, n: nat,
                           cpuOf: seq<int>, uCbs: map<int, real>) {
    && n <= |order| && IsPermutation(order, |cbs|) && (forall c :: c in cpus ==> c >= 0 && c in uTt)
    && CbsCpus(cpus, cbs, uTt, order, n) == Some(cpuOf)
    && Tracks(uCbs, cpus, cbs, cpuOf) && GateOne(uTt, uCbs, cpuOf) && PlacedPrefix(cpus, cpuOf, order, n)
  }

  method NothingAssigned(cpus: seq<int>, cbs: seq<ClassifiedTask>, ghost uTt: map<int, real>, ghost order: seq<nat>)
    returns (cpuOf: seq<int>, uCbs: map<int, real>)
    requires IsPermutation(order, |cbs|) && forall c :: c in cpus ==> c >= 0 && c in uTt
    ensures CbsState(cpus, cbs, uTt, order, 0, cpuOf, uCbs)
  {
    cpuOf := seq(|cbs|, i => -1);
    uCbs := map c | c in cpus :: 0.0;
    forall c | c in uCbs ensures uCbs[c] == Load(cbs, cpuOf, c) { LoadUnassigned(cbs, cpuOf, c); }
  }

  /** Only tasks at least as demanding were placed before the n-th in order. */
  lemma StuckOrder(cbs: seq<ClassifiedTask>, cpuOf: seq<int>, order: seq<nat>, n: nat)
    requires IsPermutation(order, |cbs|) && Ascending(UtilizationKeys(cbs), order) && n < |order| && |cpuOf| == |cbs|
    requires forall k :: n <= k < |order| ==> cpuOf[order[k]] == -1
    ensures forall k :: 0 <= k < |cbs| && cpuOf[k] != -1 ==> TaskUtilization(cbs[k]) >= TaskUtilization(cbs[order[n]])
  {
    forall k | 0 <= k < |cbs| && cpuOf[k] != -1
      ensures TaskUtilization(cbs[k]) >= TaskUtilization(cbs[order[n]])
    {
      assert k in order;
      var p :| 0 <= p < |order| && order[p] == k;
      assert p < n;
    }
  }

  lemma RejectedAt(cpus: seq<int>, cbs: seq<ClassifiedTask>, cpuOf: seq<int>, uTt: map<int, real>, uCbs: map<int,
                   real>, order: seq<nat>, n: nat)
    requires |cpuOf| == |cbs| && PlacedPrefix(cpus, cpuOf, order, n) && Ascending(UtilizationKeys(cbs), order)
    requires n < |order|
    requires forall c :: c in cpus ==>
               c in uTt && c in uCbs && uTt[c] + uCbs[c] + TaskUtilization(cbs[order[n]]) + U_OVERHEAD > U_BOUND
    ensures Rejected(cpus, cbs, cpuOf, uTt, uCbs, order[n])
  {
    StuckOrder(cbs, cpuOf, order, n);
  }

  /** The n-th CBS task: the best CPU, or -1 and a rejection with everything as it was. */
  method AssignOne(cpus: seq<int>, cbs: seq<ClassifiedTask>, uTt: map<int, real>, uCbs0: map<int, real>,
                   cpuOf0: seq<int>,
                   order: seq<nat>, n: nat)
    returns (best: int, uCbs: map<int, real>, cpuOf: seq<int>)
    requires CbsState(cpus, cbs, uTt, order, n, cpuOf0, uCbs0) && n < |order| && Ascending(UtilizationKeys(cbs), order)
    ensures best >= 0 ==> CbsState(cpus, cbs, uTt, order, n + 1, cpuOf, uCbs)
    ensures best < 0 ==>
              CbsState(cpus, cbs, uTt, order, n, cpuOf, uCbs) && CbsCpus(cpus, cbs, uTt, order, |order|) == None
    ensures best < 0 ==> Rejected(cpus, cbs, cpuOf, uTt, uCbs, order[n])
  {
    var us := TaskUtilization(cbs[order[n]]);
    UtilizationNonNegative(cbs[order[n]]);
    best := WorstFit(cpus, uTt, uCbs0, us);
    TracksIsLoadMap(uCbs0, cpus, cbs, cpuOf0);
    if best < 0 {
      uCbs, cpuOf := uCbs0, cpuOf0;
      CbsCpusStuck(cpus, cbs, uTt, order, n + 1, |order|);
      RejectedAt(cpus, cbs, cpuOf, uTt, uCbs, order, n);
    } else {
      uCbs, cpuOf := PlaceCbs(cpus, cbs, uTt, uCbs0, cpuOf0, order[n], best);
      PlacedNext(cpus, cpuOf0, order, n, best);
    }
  }

  method PlaceCbs(cpus: seq<int>, cbs: seq<ClassifiedTask>, ghost uTt: map<int, real>, uCbs0: map<int, real>,
                  cpuOf0: seq<int>, idx: nat, best: int)
    returns (uCbs: map<int, real>, cpuOf: seq<int>)
    requires forall c :: c in cpus ==> c >= 0 && c in uTt
    requires Tracks(uCbs0, cpus, cbs, cpuOf0) && GateOne(uTt, uCbs0, cpuOf0)
    requires idx < |cbs| && cpuOf0[idx] == -1 && best in cpus && Residual(uTt, uCbs0, best) >= TaskUtilization(cbs[idx])
    ensures cpuOf == cpuOf0[idx := best]
    ensures Tracks(uCbs, cpus, cbs, cpuOf) && GateOne(uTt, uCbs, cpuOf)
  {
    cpuOf := cpuOf0[idx := best];
    uCbs := uCbs0[best := uCbs0[best] + TaskUtilization(cbs[idx])];
    forall c | c in uCbs
      ensures uCbs[c] == Load(cbs, cpuOf, c)
    {
      assert c in cpus;
      LoadAssign(cbs, cpuOf0, idx, best, c);
    }
  }

  // ---- second gate ----

  datatype CbsAllocation = CbsAllocation(
    workloadId: string, taskId: string, budgetUs: u32, periodUs: u32, deadlineUs: u32, maxDmiss: u32, cpu: int)

  function Allocation(t: ClassifiedTask, cpu: int): (a: CbsAllocation)
    ensures AllocationOf(a, t, cpu)
  {
    CbsAllocation(t.workloadId, t.taskId, t.wcetUs, t.periodUs, t.deadlineUs, t.maxDmiss, cpu)
  }

  function AllocationSeq(tasks: seq<ClassifiedTask>, cpu: int): (r: seq<CbsAllocation>)
    ensures |r| == |tasks|
  {
    seq(|tasks|, i requires 0 <= i < |tasks| => Allocation(tasks[i], cpu))
  }

  /** Reference: one entry per task in the library's order of decreasing utilisation. */
  ghost function Entries(lib: Library, tasks: seq<ClassifiedTask>, cpu: int): seq<CbsAllocation>
    requires Lawful(lib)
  {
    AllocationSeq(Permute(tasks, lib.sort(UtilizationKeys(tasks))), cpu)
  }

  predicate AllocationOf(a: CbsAllocation, t: ClassifiedTask, cpu: int) {
    && a.workloadId == t.workloadId && a.taskId == t.taskId && a.budgetUs == t.wcetUs
    && a.periodUs == t.periodUs && a.deadlineUs == t.deadlineUs && a.maxDmiss == t.maxDmiss && a.cpu == cpu
  }

  datatype AllocResult = Allocated(entries: seq<CbsAllocation>, uCbs: real) | Refused(error: InfeasibleError)

  /** One entry per task, the most demanding task first. */
  ghost predicate AllocationsOf(entries: seq<CbsAllocation>, tasks: seq<ClassifiedTask>, cpu: int) {
    && |entries| == |tasks|
    && exists perm :: IsPermutation(perm, |tasks|) && ByUtilization(tasks, perm) &&
         forall i :: 0 <= i < |tasks| ==> AllocationOf(entries[i], tasks[perm[i]], cpu)
  }

  ghost predicate ByUtilization(tasks: seq<ClassifiedTask>, perm: seq<nat>)
    requires IsPermutation(perm, |tasks|)
  {
    forall i, j :: 0 <= i < j < |perm| ==> TaskUtilization(tasks[perm[i]]) >= TaskUtilization(tasks[perm[j]])
  }

  /**
   * Succeeds exactly when some bandwidth is left and the tasks fit into it; the
   * order in which the running total is formed does not matter.
   */
  method AllocateCbsBudgets(lib: Library, cpu: int, tasks: seq<ClassifiedTask>, uTt: real) returns (r: AllocResult)
    requires Lawful(lib)
    ensures r.Allocated? ==> r.entries == Entries(lib, tasks, cpu)
    ensures uTt + U_OVERHEAD >= U_BOUND ==> r == Refused(InfeasibleError(NoCbsBandwidth, cpu, ""))
    ensures r.Allocated? <==> uTt + U_OVERHEAD < U_BOUND && uTt + Utilization(tasks) + U_OVERHEAD <= U_BOUND
    ensures r.Allocated? ==> r.uCbs == Utilization(tasks) && AllocationsOf(r.entries, tasks, cpu)
    ensures r.Refused? ==> r.error.cpu == cpu
    ensures r.Refused? ==> r.error.reason == if uTt + U_OVERHEAD >= U_BOUND then NoCbsBandwidth else SafetyCbsExceeded
  {
    var uAvail := U_BOUND - uTt - U_OVERHEAD;
    if uAvail <= 0.0 { return Refused(InfeasibleError(NoCbsBandwidth, cpu, "")); }
    var order := lib.sort(UtilizationKeys(tasks));
    var sorted := Permute(tasks, order);
    r := AllocateInOrder(cpu, sorted, uAvail);
    UtilizationPermute(tasks, order);
    assert ByUtilization(tasks, order);
    if r.Allocated? {
      assert r.entries == AllocationSeq(sorted, cpu);
      assert AllocationsOf(r.entries, tasks, cpu);
    }
  }

  method AllocateInOrder(cpu: int, sorted: seq<ClassifiedTask>, uAvail: real) returns (r: AllocResult)
    requires uAvail > 0.0
    ensures r.Allocated? <==> Utilization(sorted) <= uAvail
    ensures r.Allocated? ==> r.uCbs == Utilization(sorted) && |r.entries| == |sorted|
    ensures r.Allocated? ==> forall k :: 0 <= k < |sorted| ==> AllocationOf(r.entries[k], sorted[k], cpu)
    ensures r.Refused? ==>
              exists i :: 0 <= i < |sorted| && r.error == InfeasibleError(SafetyCbsExceeded, cpu, sorted[i].taskId) &&
                Utilization(sorted[..i]) <= uAvail < Utilization(sorted[..i]) + TaskUtilization(sorted[i])
  {
    var uAlloc := 0.0;
    var entries := [];
    for i := 0 to |sorted|
      invariant uAlloc == Utilization(sorted[..i]) <= uAvail
      invariant |entries| == i && forall k :: 0 <= k < i ==> AllocationOf(entries[k], sorted[k], cpu)
    {
      var task := sorted[i];
      var us := TaskUtilization(task);
      assert sorted[..i + 1][..i] == sorted[..i];
      if uAlloc + us > uAvail {
        UtilizationPrefix(sorted, i + 1);
        return Refused(InfeasibleError(SafetyCbsExceeded, cpu, task.taskId));
      }
      entries := entries + [Allocation(task, cpu)];
      uAlloc := uAlloc + us;
    }
    assert sorted[..|sorted|] == sorted;
    r := Allocated(entries, uAlloc);
  }

  lemma {:induction false} UtilizationPrefix(tasks: seq<ClassifiedTask>, n: nat)
    requires n <= |tasks|
    ensures 0.0 <= Utilization(tasks[..n]) <= Utilization(tasks)
  {
    if tasks != [] {
      var last := |tasks| - 1;
      UtilizationNonNegative(tasks[last]);
      if n == |tasks| {
        assert tasks[..n] == tasks;
        UtilizationPrefix(tasks[..last], last);
        assert tasks[..last][..last] == tasks[..last];
      } else {
        UtilizationPrefix(tasks[..last], n);
        assert tasks[..last][..n] == tasks[..n];
      }
    }
  }

  lemma {:induction false} UtilizationAppend(a: seq<ClassifiedTask>, b: seq<ClassifiedTask>)
    ensures Utilization(a + b) == Utilization(a) + Utilization(b)
  {
    if b == [] {
      assert a + b == a;
    } else {
      UtilizationAppend(a, b[..|b| - 1]);
      assert (a + b)[..|a + b| - 1] == a + b[..|b| - 1];
    }
  }

  lemma UtilizationWithout(s: seq<ClassifiedTask>, at: nat)
    requires at < |s|
    ensures Utilization(s) == Utilization(s[..at] + s[at + 1..]) + TaskUtilization(s[at])
  {
    var a, x, b := s[..at], [s[at]], s[at + 1..];
    UtilizationAppend(a, b);
    UtilizationAppend(a, x);
    UtilizationAppend(a + x, b);
    UtilizationOfOne(s[at]);
    SplitAround(s, at);
  }

  lemma UtilizationOfOne(t: ClassifiedTask)
    ensures Utilization([t]) == TaskUtilization(t)
  {
    assert [t][..0] == [];
  }

  lemma SplitAround<T>(s: seq<T>, at: nat)
    requires at < |s|
    ensures s[..at] + [s[at]] + s[at + 1..] == s
  {
  }

  lemma {:induction false} UtilizationPermute(s: seq<ClassifiedTask>, perm: seq<nat>)
    requires IsPermutation(perm, |s|)
    ensures Utilization(Permute(s, perm)) == Utilization(s)
    decreases |s|
  {
    if s != [] {
      var n := |s| - 1;
      var at, rest := PermuteStep(s, perm);
      UtilizationPermute(s[..n], rest);
      UtilizationPut(s, Permute(s, perm), Permute(s[..n], rest), at);
    }
  }

  /** Putting the last task somewhere else. */
  lemma UtilizationPut(s: seq<ClassifiedTask>, p: seq<ClassifiedTask>, q: seq<ClassifiedTask>, at: nat)
    requires s != [] && at < |p| && p[at] == s[|s| - 1] && p[..at] + p[at + 1..] == q
    requires Utilization(q) == Utilization(s[..|s| - 1])
    ensures Utilization(p) == Utilization(s)
  {
    UtilizationWithout(p, at);
  }

  /**
   * The gates agree: on a CPU that gate one gave CBS work, gate two accepts
   * exactly when TT alone does not already use up the bound.
   */
  lemma GatesAgree(uTt: map<int, real>, uCbs: map<int, real>, cpus: seq<int>, cbs: seq<ClassifiedTask>,
                   cpuOf: seq<int>, i: nat)
    requires Tracks(uCbs, cpus, cbs, cpuOf) && GateOne(uTt, uCbs, cpuOf)
    requires i < |cbs| && cpuOf[i] in cpus && cpuOf[i] != -1
    ensures var c := cpuOf[i]; var u := Utilization(Collect(cbs, cpuOf, c));
            && c in uTt
            && uTt[c] + u + U_OVERHEAD <= U_BOUND
            && (uTt[c] + U_OVERHEAD < U_BOUND && uTt[c] + u + U_OVERHEAD <= U_BOUND <==> uTt[c] + U_OVERHEAD != U_BOUND)
            && (TaskUtilization(cbs[i]) > 0.0 ==> uTt[c] + U_OVERHEAD < U_BOUND)
  {
    CollectLoad(cbs, cpuOf, cpuOf[i]);
    LoadBounds(cbs, cpuOf, cpuOf[i]);
  }
}
