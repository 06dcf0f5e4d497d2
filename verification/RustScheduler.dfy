/** The Rust global scheduler: three placement algorithms over a live utilisation map, in exact arithmetic. */
module RustScheduler {
  import opened Basics
  import opened Sequences
  import opened Hyperperiod

  const THRESHOLD: real := 0.90

  datatype Affinity = Any | Pinned(mask: nat)

  datatype Task = Task(
    name: string, workloadId: string, targetNode: string, affinity: Affinity,
    memoryMb: nat, periodUs: nat, runtimeUs: nat)

  datatype NodeConfig = NodeConfig(cpus: seq<u64>, maxMemoryMb: nat)

  type Nodes = map<string, NodeConfig>

  type CpuUtil = map<string, map<nat, real>>

  datatype Place = Place(node: string, cpu: nat)

  datatype AdmissionReason = NodeNotFound | InsufficientMemory | CpuAffinityUnavailable | NoAvailableCpu

  datatype SchedulerError =
    | NoTasks
    | ConfigNotLoaded
    | UnknownAlgorithm
    | MissingWorkloadId(task: string)
    | MissingTargetNode(task: string)
    | AdmissionRejected(task: string, node: string, reason: AdmissionReason)
    | NoSchedulableNode(task: string)

  // ---- utilisation ----

  function Util(t: Task): (r: real)
    ensures r >= 0.0
  {
    if t.periodUs == 0 then 0.0
    else
      RatioNonNegative(t.runtimeUs as real, t.periodUs as real);
      t.runtimeUs as real / t.periodUs as real
  }

  /** Re-scan: utilisation of the tasks placed on one CPU. */
  function Load(tasks: seq<Task>, places: seq<Option<Place>>, p: Place): real
    requires |tasks| == |places|
  {
    if tasks == [] then 0.0
    else
      var n := |tasks| - 1;
      Load(tasks[..n], places[..n], p) + if places[n] == Some(p) then Util(tasks[n]) else 0.0
  }

  function CpuLoad(util: CpuUtil, node: string, cpu: nat): real {
    if node in util && cpu in util[node] then util[node][cpu] else 0.0
  }

  /** The live map equals the re-scan on every configured CPU and stays within the threshold. */
  ghost predicate Tracks(nodes: Nodes, util: CpuUtil, tasks: seq<Task>, places: seq<Option<Place>>) {
    && |places| == |tasks|
    && util.Keys == nodes.Keys
    && (forall n, c :: n in nodes ==> (c in util[n] <==> c in nodes[n].cpus))
    && (forall n, c :: n in nodes && c in util[n] ==>
          util[n][c] == Load(tasks, places, Place(n, c)) && util[n][c] <= THRESHOLD)
    && (forall i :: 0 <= i < |places| && places[i].Some? ==>
          places[i].value.node in nodes && places[i].value.cpu in nodes[places[i].value.node].cpus)
  }

  lemma {:induction false} LoadAssign(tasks: seq<Task>, places: seq<Option<Place>>, i: nat, to: Place, p: Place)
    requires |tasks| == |places| && i < |tasks| && places[i] == None
    ensures Load(tasks, places[i := Some(to)], p) == Load(tasks, places, p) + if to == p then Util(tasks[i]) else 0.0
  {
    var n := |tasks| - 1;
    if i == n {
      assert places[i := Some(to)][..n] == places[..n];
    } else {
      LoadAssign(tasks[..n], places[..n], i, to, p);
      assert places[i := Some(to)][..n] == places[..n][i := Some(to)];
    }
  }

  lemma {:induction false} LoadNothing(tasks: seq<Task>, places: seq<Option<Place>>, p: Place)
    requires |tasks| == |places| && forall i :: 0 <= i < |places| ==> places[i] == None
    ensures Load(tasks, places, p) == 0.0
  {
    if tasks != [] { LoadNothing(tasks[..|tasks| - 1], places[..|tasks| - 1], p); }
  }

  /** Re-scan: utilisation of the tasks placed on any CPU of a node. */
  function NodeLoad(tasks: seq<Task>, places: seq<Option<Place>>, node: string): real
    requires |tasks| == |places|
  {
    if tasks == [] then 0.0
    else
      var n := |tasks| - 1;
      NodeLoad(tasks[..n], places[..n], node) +
      if places[n].Some? && places[n].value.node == node then Util(tasks[n]) else 0.0
  }

  function SumLoads(tasks: seq<Task>, places: seq<Option<Place>>, node: string, ids: seq<nat>): real
    requires |tasks| == |places|
  {
    if ids == [] then 0.0
    else SumLoads(tasks, places, node, ids[..|ids| - 1]) + Load(tasks, places, Place(node, ids[|ids| - 1]))
  }

  lemma {:induction false} SumLoadsStep(tasks: seq<Task>, places: seq<Option<Place>>, node: string, ids: seq<nat>)
    requires |tasks| == |places| && tasks != [] && Distinct(ids)
    ensures var n := |tasks| - 1;
            SumLoads(tasks, places, node, ids) == SumLoads(tasks[..n], places[..n], node, ids) +
              if places[n].Some? && places[n].value.node == node && places[n].value.cpu in ids
              then Util(tasks[n]) else 0.0
  {
    if ids != [] {
      var k := |ids| - 1;
      assert ids == ids[..k] + [ids[k]];
      assert Distinct(ids[..k]);
      SumLoadsStep(tasks, places, node, ids[..k]);
    }
  }

  lemma {:induction false} SumLoadsNothing(node: string, ids: seq<nat>)
    ensures SumLoads([], [], node, ids) == 0.0
  {
    if ids != [] { SumLoadsNothing(node, ids[..|ids| - 1]); }
  }

  /** Adding up a node's CPUs gives the re-scan of the node. */
  lemma {:induction false} NodeLoadIsSum(tasks: seq<Task>, places: seq<Option<Place>>, node: string, ids: seq<nat>)
    requires |tasks| == |places| && Distinct(ids)
    requires forall i :: 0 <= i < |places| && places[i].Some? && places[i].value.node == node ==>
               places[i].value.cpu in ids
    ensures SumLoads(tasks, places, node, ids) == NodeLoad(tasks, places, node)
  {
    if tasks == [] {
      SumLoadsNothing(node, ids);
    } else {
      NodeLoadIsSum(tasks[..|tasks| - 1], places[..|tasks| - 1], node, ids);
      SumLoadsStep(tasks, places, node, ids);
    }
  }

  /** A CPU with room for the task means the node has: best-fit's capacity filter never excludes such a node. */
  lemma {:induction false} RoomOnNode(tasks: seq<Task>, places: seq<Option<Place>>, node: string, ids: seq<nat>,
                                      cpu: nat, extra: real)
    requires |tasks| == |places| && extra >= 0.0
    requires forall i :: 0 <= i < |ids| ==> Load(tasks, places, Place(node, ids[i])) <= THRESHOLD
    requires cpu in ids ==> Load(tasks, places, Place(node, cpu)) + extra <= THRESHOLD
    ensures SumLoads(tasks, places, node, ids) <= |ids| as real
    ensures cpu in ids ==> SumLoads(tasks, places, node, ids) + extra <= |ids| as real
  {
    if ids != [] {
      var n := |ids| - 1;
      assert ids == ids[..n] + [ids[n]];
      RoomOnNode(tasks, places, node, ids[..n], cpu, extra);
    }
  }

  // ---- admission and CPU choice ----

  function TrailingZeros(mask: nat): nat {
    if mask == 0 then 64 else if mask % 2 == 1 then 0 else 1 + TrailingZeros(mask / 2)
  }

  function CheckAdmission(nodes: Nodes, t: Task, node: string): Option<AdmissionReason> {
    if node !in nodes then Some(NodeNotFound)
    else if t.memoryMb > 0 && t.memoryMb > nodes[node].maxMemoryMb then Some(InsufficientMemory)
    else if t.affinity.Pinned? && TrailingZeros(t.affinity.mask) !in nodes[node].cpus then Some(CpuAffinityUnavailable)
    else None
  }

  predicate Fits(util: CpuUtil, t: Task, node: string, cpu: nat) {
    CpuLoad(util, node, cpu) + Util(t) <= THRESHOLD
  }

  predicate SomeCpuFits(nodes: Nodes, util: CpuUtil, t: Task, node: string) {
    node in nodes && exists c :: c in nodes[node].cpus && Fits(util, t, node, c)
  }

  predicate Admissible(nodes: Nodes, util: CpuUtil, t: Task, node: string) {
    CheckAdmission(nodes, t, node) == None && SomeCpuFits(nodes, util, t, node)
  }

  predicate PinnedFits(nodes: Nodes, util: CpuUtil, t: Task, node: string) {
    && node in nodes && t.affinity.Pinned?
    && TrailingZeros(t.affinity.mask) in nodes[node].cpus && Fits(util, t, node, TrailingZeros(t.affinity.mask))
  }

  /** The highest-numbered CPU of the node that fits. */
  predicate HighestFit(nodes: Nodes, util: CpuUtil, t: Task, node: string, cpu: nat) {
    && node in nodes && cpu in nodes[node].cpus && Fits(util, t, node, cpu)
    && forall c :: c in nodes[node].cpus && Fits(util, t, node, c) ==> c <= cpu
  }

  /** The pinned CPU if it fits, else the highest-numbered CPU that fits; none exactly when none fits. */
  method FindBestCpu(nodes: Nodes, util: CpuUtil, t: Task, node: string) returns (r: Option<nat>)
    ensures r.Some? <==> SomeCpuFits(nodes, util, t, node)
    ensures r.Some? ==> r.value in nodes[node].cpus && Fits(util, t, node, r.value)
    ensures r.Some? && PinnedFits(nodes, util, t, node) ==> r.value == TrailingZeros(t.affinity.mask)
    ensures r.Some? && !PinnedFits(nodes, util, t, node) ==> HighestFit(nodes, util, t, node, r.value)
  {
    if node !in nodes || nodes[node].cpus == [] { return None; }
    var cpus := nodes[node].cpus;
    if t.affinity.Pinned? {
      var pinned := TrailingZeros(t.affinity.mask);
      if pinned in cpus && CpuLoad(util, node, pinned) + Util(t) <= THRESHOLD { return Some(pinned); }
    }
    var sorted := Descending(cpus);
    for i := 0 to |sorted|
      invariant forall k :: 0 <= k < i ==> !Fits(util, t, node, sorted[k])
    {
      if CpuLoad(util, node, sorted[i]) + Util(t) <= THRESHOLD {
        assert sorted[i] in sorted;
        forall c | c in cpus && Fits(util, t, node, c) ensures c <= sorted[i] {
          assert c in sorted;
          var k :| 0 <= k < |sorted| && sorted[k] == c;
        }
        return Some(sorted[i]);
      }
    }
    forall c | c in cpus ensures !Fits(util, t, node, c) { assert c in sorted; }
    r := None;
  }

  /** Rust's slice sorts by key: any ordering of the indices in which the keys never decrease. */
  method SortIndices(keys: seq<real>) returns (perm: seq<nat>)
    ensures IsPermutation(perm, |keys|) && Ascending(keys, perm)
  {
    InsertionSorts(keys);
    perm := InsertionOrder(keys);
  }

  method Descending(cpus: seq<u64>) returns (sorted: seq<u64>)
    ensures (forall c :: c in sorted <==> c in cpus) && forall i, j :: 0 <= i < j < |sorted| ==> sorted[i] >= sorted[j]
  {
    var order := SortIndices(seq(|cpus|, i requires 0 <= i < |cpus| => -(cpus[i] as real)));
    sorted := Permute(cpus, order);
    PermuteElements(cpus, order);
  }

  predicate InMask(mask: nat, cpu: nat) {
    if cpu == 0 then mask % 2 == 1 else InMask(mask / 2, cpu - 1)
  }

  lemma {:induction false} LowestBit(mask: nat)
    requires mask > 0
    ensures InMask(mask, TrailingZeros(mask))
  {
    if mask % 2 == 0 { LowestBit(mask / 2); }
  }

  lemma {:induction false} BelowLowest(mask: nat, cpu: nat)
    requires mask > 0 && cpu < TrailingZeros(mask)
    ensures !InMask(mask, cpu)
  {
    if cpu > 0 { BelowLowest(mask / 2, cpu - 1); }
  }

  /** The lowest CPU of the mask, which is CPU 64 for an empty one. */
  ghost predicate IsLowest(mask: nat, cpu: nat) {
    if mask == 0 then cpu == 64 else InMask(mask, cpu) && forall c: nat :: c < cpu ==> !InMask(mask, c)
  }

  lemma LowestIff(mask: nat, cpu: nat)
    ensures IsLowest(mask, cpu) <==> cpu == TrailingZeros(mask)
  {
    if mask > 0 {
      LowestBit(mask);
      forall c: nat | c < TrailingZeros(mask) ensures !InMask(mask, c) { BelowLowest(mask, c); }
    }
  }

  /** The node has the lowest CPU of the task's mask. */
  ghost predicate MaskMet(t: Task, cpus: seq<u64>) {
    t.affinity.Pinned? ==> exists c :: c in cpus && IsLowest(t.affinity.mask, c)
  }

  /** Each refusal in its own case, the first that applies, and none when the node can take the task. */
  lemma AdmissionIff(nodes: Nodes, t: Task, node: string)
    ensures var r := CheckAdmission(nodes, t, node);
            && (r == Some(NodeNotFound) <==> node !in nodes)
            && (r == Some(InsufficientMemory) <==> node in nodes && t.memoryMb > nodes[node].maxMemoryMb)
            && (r == Some(CpuAffinityUnavailable) <==>
                  node in nodes && t.memoryMb <= nodes[node].maxMemoryMb && !MaskMet(t, nodes[node].cpus))
            && (r == None <==> node in nodes && t.memoryMb <= nodes[node].maxMemoryMb && MaskMet(t, nodes[node].cpus))
  {
    if t.affinity.Pinned? {
      forall c: nat { LowestIff(t.affinity.mask, c); }
    }
  }

  lemma {:induction false} EmptyMask(cpu: nat)
    ensures !InMask(0, cpu)
  {
    if cpu > 0 { EmptyMask(cpu - 1); }
  }

  /**
   * A pinned task keeps to its mask if and only if the lowest CPU of the mask fits (and the mask is
   * not empty), or that CPU does not fit and the highest CPU that does happens to be in the mask.
   */
  lemma KeepsToMaskIff(nodes: Nodes, util: CpuUtil, t: Task, node: string, chosen: nat, highest: nat)
    requires t.affinity.Pinned? && HighestFit(nodes, util, t, node, highest)
    requires chosen == if PinnedFits(nodes, util, t, node) then TrailingZeros(t.affinity.mask) else highest
    ensures InMask(t.affinity.mask, chosen) <==>
            if PinnedFits(nodes, util, t, node) then t.affinity.mask != 0 else InMask(t.affinity.mask, highest)
  {
    if t.affinity.mask == 0 { EmptyMask(chosen); } else { LowestBit(t.affinity.mask); }
  }

  /** A task pinned to CPU 0 lands on CPU 1 when CPU 0 is full. */
  method LandsOutsideMask() returns (r: Option<nat>)
    ensures r == Some(1) && !InMask(1, 1)
  {
    var nodes: Nodes := map["n" := NodeConfig([0, 1], 0)];
    var util: CpuUtil := map["n" := map[0 := 0.9, 1 := 0.0]];
    var t := Task("t", "w", "n", Pinned(1), 0, 10, 5);
    assert Fits(util, t, "n", 1) && !Fits(util, t, "n", 0);
    assert 1 in nodes["n"].cpus;
    r := FindBestCpu(nodes, util, t, "n");
    assert !PinnedFits(nodes, util, t, "n");
    assert !InMask(1 / 2, 0);
  }

  /** Record the placement and raise that CPU's entry, keeping map and re-scan equal. */
  method AssignCpu(nodes: Nodes, util0: CpuUtil, tasks: seq<Task>, places0: seq<Option<Place>>, i: nat, node: string,
                   cpu: nat)
    returns (util: CpuUtil, places: seq<Option<Place>>)
    requires Tracks(nodes, util0, tasks, places0) && i < |tasks| && places0[i] == None
    requires node in nodes && cpu in nodes[node].cpus && Fits(util0, tasks[i], node, cpu)
    ensures places == places0[i := Some(Place(node, cpu))]
    ensures Tracks(nodes, util, tasks, places)
  {
    places := places0[i := Some(Place(node, cpu))];
    var row: map<nat, real> := util0[node][cpu := CpuLoad(util0, node, cpu) + Util(tasks[i])];
    util := util0[node := row];
    forall n, c | n in nodes && c in util[n]
      ensures util[n][c] == Load(tasks, places, Place(n, c)) && util[n][c] <= THRESHOLD
    {
      LoadAssign(tasks, places0, i, Place(node, cpu), Place(n, c));
    }
  }

  method InitialUtil(nodes: Nodes, tasks: seq<Task>) returns (util: CpuUtil, places: seq<Option<Place>>)
    ensures Tracks(nodes, util, tasks, places) && forall i :: 0 <= i < |places| ==> places[i] == None
  {
    util := map n | n in nodes :: map c: nat | c in nodes[n].cpus :: 0.0;
    places := seq(|tasks|, i => None);
    forall n, c | n in nodes && c in util[n] ensures util[n][c] == Load(tasks, places, Place(n, c)) {
      LoadNothing(tasks, places, Place(n, c));
    }
  }

  // ---- the three algorithms ----

  /** Tasks before `n` are placed, the others are not. */
  ghost predicate PlacedUpTo(places: seq<Option<Place>>, n: nat) {
    n <= |places| && forall i :: 0 <= i < |places| ==> (places[i].Some? <==> i < n)
  }

  datatype Outcome = Done | Error(error: SchedulerError)

  /** What the target algorithm's refusal of a task says about the map it was refused on. */
  ghost predicate TargetRefused(nodes: Nodes, util: CpuUtil, t: Task, e: SchedulerError) {
    if t.workloadId == "" then e == MissingWorkloadId(t.name)
    else if t.targetNode == "" then e == MissingTargetNode(t.name)
    else
      && !Admissible(nodes, util, t, t.targetNode)
      && e == AdmissionRejected(t.name, t.targetNode,
                                match CheckAdmission(nodes, t, t.targetNode) case Some(reason) => reason
                                case None => NoAvailableCpu)
  }

  /** The other two refuse a task only when no node at all could take it. */
  ghost predicate NowhereAdmissible(nodes: Nodes, util: CpuUtil, t: Task, e: SchedulerError) {
    e == NoSchedulableNode(t.name) && forall n :: !Admissible(nodes, util, t, n)
  }

  method TargetNodePriority(nodes: Nodes, tasks: seq<Task>, util0: CpuUtil, places0: seq<Option<Place>>)
    returns (r: Outcome, util: CpuUtil, places: seq<Option<Place>>, ghost at: nat)
    requires Tracks(nodes, util0, tasks, places0) && PlacedUpTo(places0, 0)
    ensures Tracks(nodes, util, tasks, places) && PlacedUpTo(places, at)
    ensures forall i :: 0 <= i < at <= |tasks| ==> places[i].value.node == tasks[i].targetNode
    ensures r.Done? <==> at == |tasks|
    ensures r.Error? ==> at < |tasks| && TargetRefused(nodes, util, tasks[at], r.error)
  {
    util, places := util0, places0;
    for i := 0 to |tasks|
      invariant Tracks(nodes, util, tasks, places) && PlacedUpTo(places, i)
      invariant forall k :: 0 <= k < i ==> places[k].value.node == tasks[k].targetNode
    {
      var t := tasks[i];
      if t.workloadId == "" { return Error(MissingWorkloadId(t.name)), util, places, i; }
      if t.targetNode == "" { return Error(MissingTargetNode(t.name)), util, places, i; }
      var node := t.targetNode;
      var admission := CheckAdmission(nodes, t, node);
      if admission.Some? { return Error(AdmissionRejected(t.name, node, admission.value)), util, places, i; }
      var cpu := FindBestCpu(nodes, util, t, node);
      if cpu.None? { return Error(AdmissionRejected(t.name, node, NoAvailableCpu)), util, places, i; }
      util, places := AssignCpu(nodes, util, tasks, places, i, node, cpu.value);
    }
    return Done, util, places, |tasks|;
  }

  /** The CPUs of a node without duplicates: the keys of the node's utilisation map, ascending. */
  method CpuIds(nodes: Nodes, node: string) returns (ids: seq<nat>)
    requires node in nodes
    ensures Distinct(ids) && (forall c :: c in ids <==> c in nodes[node].cpus) && |ids| <= |nodes[node].cpus|
  {
    var sorted := SortedUnique(nodes[node].cpus);
    ids := sorted;
    assert Distinct(ids);
    DistinctSubset(ids, nodes[node].cpus);
  }

  /** The node's total, read from the live map without looking at the tasks, is the re-scan. */
  method NodeUtilization(nodes: Nodes, util: CpuUtil, node: string, ghost tasks: seq<Task>,
                         ghost places: seq<Option<Place>>)
    returns (total: real)
    requires Tracks(nodes, util, tasks, places) && node in nodes
    ensures total == NodeLoad(tasks, places, node)
    ensures forall t :: SomeCpuFits(nodes, util, t, node) ==> total + Util(t) <= |nodes[node].cpus| as real
  {
    var ids := CpuIds(nodes, node);
    total := 0.0;
    for i := 0 to |ids|
      invariant total == SumLoads(tasks, places, node, ids[..i])
    {
      assert ids[i] in ids;
      assert ids[..i + 1][..i] == ids[..i];
      total := total + util[node][ids[i]];
    }
    assert ids[..|ids|] == ids;
    NodeLoadIsSum(tasks, places, node, ids);
    NodeHasRoom(nodes, util, node, tasks, places, ids);
  }

  lemma NodeHasRoom(nodes: Nodes, util: CpuUtil, node: string, tasks: seq<Task>, places: seq<Option<Place>>,
                    ids: seq<nat>)
    requires Tracks(nodes, util, tasks, places) && node in nodes
    requires Distinct(ids) && (forall c :: c in ids <==> c in nodes[node].cpus) && |ids| <= |nodes[node].cpus|
    ensures forall t :: SomeCpuFits(nodes, util, t, node) ==>
              SumLoads(tasks, places, node, ids) + Util(t) <= |nodes[node].cpus| as real
  {
    forall t | SomeCpuFits(nodes, util, t, node)
      ensures SumLoads(tasks, places, node, ids) + Util(t) <= |nodes[node].cpus| as real
    {
      var c :| c in nodes[node].cpus && Fits(util, t, node, c);
      forall i | 0 <= i < |ids| ensures Load(tasks, places, Place(node, ids[i])) <= THRESHOLD { assert ids[i] in ids; }
      RoomOnNode(tasks, places, node, ids, c, Util(t));
    }
  }

  lemma {:induction false} NodeLoadNonNegative(tasks: seq<Task>, places: seq<Option<Place>>, node: string)
    requires |tasks| == |places|
    ensures NodeLoad(tasks, places, node) >= 0.0
  {
    if tasks != [] { NodeLoadNonNegative(tasks[..|tasks| - 1], places[..|tasks| - 1], node); }
  }

  /** The least loaded admissible node, none exactly when no node is admissible. */
  method LeastLoadedNode(nodes: Nodes, order: seq<string>, util: CpuUtil, t: Task, ghost tasks: seq<Task>,
                         ghost places: seq<Option<Place>>)
    returns (r: Option<string>)
    requires Tracks(nodes, util, tasks, places) && forall n :: n in order <==> n in nodes
    ensures r.None? <==> forall n :: !Admissible(nodes, util, t, n)
    ensures r.Some? ==> Admissible(nodes, util, t, r.value)
    ensures r.Some? ==> forall n :: Admissible(nodes, util, t, n) ==>
              NodeLoad(tasks, places, r.value) <= NodeLoad(tasks, places, n)
  {
    r := None;
    var lowest := 0.0;
    for i := 0 to |order|
      invariant r.None? ==> forall k :: 0 <= k < i ==> !Admissible(nodes, util, t, order[k])
      invariant r.Some? ==> Admissible(nodes, util, t, r.value) && lowest == NodeLoad(tasks, places, r.value)
      invariant r.Some? ==> forall k :: 0 <= k < i && Admissible(nodes, util, t, order[k]) ==>
                  lowest <= NodeLoad(tasks, places, order[k])
    {
      var node := order[i];
      assert node in nodes;
      if nodes[node].cpus == [] { continue; }
      if CheckAdmission(nodes, t, node).Some? { continue; }
      var cpu := FindBestCpu(nodes, util, t, node);
      if cpu.None? { continue; }
      var total := NodeUtilization(nodes, util, node, tasks, places);
      if r.None? || total < lowest {
        lowest := total;
        r := Some(node);
      }
    }
    forall n | Admissible(nodes, util, t, n)
      ensures r.Some? && lowest <= NodeLoad(tasks, places, n) { assert n in order; }
  }

  /** Tightest admissible node; the target node goes first if it is admissible. */
  method BestFitNode(nodes: Nodes, order: seq<string>, util: CpuUtil, t: Task, ghost tasks: seq<Task>,
                     ghost places: seq<Option<Place>>)
    returns (r: Option<string>)
    requires Tracks(nodes, util, tasks, places) && forall n :: n in order <==> n in nodes
    ensures r.None? <==> forall n :: !Admissible(nodes, util, t, n)
    ensures r.Some? ==> Admissible(nodes, util, t, r.value)
    ensures t.targetNode != "" && Admissible(nodes, util, t, t.targetNode) ==> r == Some(t.targetNode)
    ensures r.Some? && !(t.targetNode != "" && r.value == t.targetNode) ==>
              forall n :: Admissible(nodes, util, t, n) ==>
                NodeLoad(tasks, places, n) <= NodeLoad(tasks, places, r.value)
  {
    if t.targetNode != "" {
      var cpu := FindBestCpu(nodes, util, t, t.targetNode);
      if CheckAdmission(nodes, t, t.targetNode).None? && cpu.Some? {
        assert Admissible(nodes, util, t, t.targetNode);
        return Some(t.targetNode);
      }
    }
    r := None;
    var bestAfter := -1.0;
    for i := 0 to |order|
      invariant r.None? ==> bestAfter == -1.0 && forall k :: 0 <= k < i ==> !Admissible(nodes, util, t, order[k])
      invariant r.Some? ==>
                  Admissible(nodes, util, t, r.value) && bestAfter == NodeLoad(tasks, places, r.value) + Util(t)
      invariant r.Some? ==> forall k :: 0 <= k < i && Admissible(nodes, util, t, order[k]) ==>
                  NodeLoad(tasks, places, order[k]) + Util(t) <= bestAfter
    {
      var node := order[i];
      assert node in nodes;
      if nodes[node].cpus == [] { continue; }
      if CheckAdmission(nodes, t, node).Some? { continue; }
      var cpu := FindBestCpu(nodes, util, t, node);
      if cpu.None? { continue; }
      var total := NodeUtilization(nodes, util, node, tasks, places);
      NodeLoadNonNegative(tasks, places, node);
      var after := total + Util(t);
      if after <= |nodes[node].cpus| as real && after > bestAfter {
        bestAfter := after;
        r := Some(node);
      }
    }
    forall n | Admissible(nodes, util, t, n)
      ensures r.Some? && NodeLoad(tasks, places, n) + Util(t) <= bestAfter { assert n in order; }
  }

  /** The shared placement loop of algorithms 2 and 3; the "skipping" branch after node selection cannot be reached. */
  method PlaceEach(nodes: Nodes, order: seq<string>, tasks: seq<Task>, util0: CpuUtil, places0: seq<Option<Place>>,
                   bestFit: bool)
    returns (r: Outcome, util: CpuUtil, places: seq<Option<Place>>, ghost at: nat)
    requires Tracks(nodes, util0, tasks, places0) && PlacedUpTo(places0, 0) && forall n :: n in order <==> n in nodes
    ensures Tracks(nodes, util, tasks, places) && PlacedUpTo(places, at)
    ensures r.Done? <==> at == |tasks|
    ensures r.Error? ==> at < |tasks| && NowhereAdmissible(nodes, util, tasks[at], r.error)
  {
    util, places := util0, places0;
    for i := 0 to |tasks|
      invariant Tracks(nodes, util, tasks, places) && PlacedUpTo(places, i)
    {
      var t := tasks[i];
      var node;
      if bestFit {
        node := BestFitNode(nodes, order, util, t, tasks, places);
      } else {
        node := LeastLoadedNode(nodes, order, util, t, tasks, places);
      }
      if node.None? { return Error(NoSchedulableNode(t.name)), util, places, i; }
      var cpu := FindBestCpu(nodes, util, t, node.value);
      assert cpu.Some?;
      util, places := AssignCpu(nodes, util, tasks, places, i, node.value, cpu.value);
    }
    return Done, util, places, |tasks|;
  }

  // ---- the entry point ----

  datatype SchedTask = SchedTask(task: Task, node: string, cpu: nat)

  /** Tasks placed on `node`, in task order. */
  function Group(tasks: seq<Task>, places: seq<Option<Place>>, node: string): seq<SchedTask>
    requires |tasks| == |places|
  {
    if tasks == [] then []
    else
      var n := |tasks| - 1;
      Group(tasks[..n], places[..n], node) +
      if places[n].Some? && places[n].value.node == node && node != ""
      then [SchedTask(tasks[n], node, places[n].value.cpu)] else []
  }

  /** Group the placed tasks by node. */
  method BuildSchedMap(tasks: seq<Task>, places: seq<Option<Place>>) returns (m: map<string, seq<SchedTask>>)
    requires |tasks| == |places|
    ensures forall n :: n in m ==> m[n] == Group(tasks, places, n)
    ensures forall n :: n in m <==> Group(tasks, places, n) != []
  {
    m := map[];
    for i := 0 to |tasks|
      invariant forall n :: n in m ==> m[n] == Group(tasks[..i], places[..i], n)
      invariant forall n :: n in m <==> Group(tasks[..i], places[..i], n) != []
    {
      assert tasks[..i + 1][..i] == tasks[..i] && places[..i + 1][..i] == places[..i];
      if places[i].Some? && places[i].value.node != "" {
        var n := places[i].value.node;
        m := m[n := (if n in m then m[n] else []) + [SchedTask(tasks[i], n, places[i].value.cpu)]];
      }
    }
    assert tasks[..|tasks|] == tasks && places[..|tasks|] == places;
  }

  function TasksOf(group: seq<SchedTask>): multiset<Task> {
    if group == [] then multiset{} else TasksOf(group[..|group| - 1]) + multiset{group[|group| - 1].task}
  }

  /** The tasks of the groups of the listed nodes, with their multiplicity. */
  function Merged(m: map<string, seq<SchedTask>>, order: seq<string>): multiset<Task> {
    if order == [] then multiset{}
    else
      var n := |order| - 1;
      Merged(m, order[..n]) + if order[n] in m then TasksOf(m[order[n]]) else multiset{}
  }

  /** Tasks placed on one node. */
  function On(tasks: seq<Task>, places: seq<Option<Place>>, node: string): multiset<Task>
    requires |tasks| == |places|
  {
    if tasks == [] then multiset{}
    else
      var n := |tasks| - 1;
      On(tasks[..n], places[..n], node) +
      if places[n].Some? && places[n].value.node == node then multiset{tasks[n]} else multiset{}
  }

  function OnAll(tasks: seq<Task>, places: seq<Option<Place>>, order: seq<string>): multiset<Task>
    requires |tasks| == |places|
  {
    if order == [] then multiset{}
    else OnAll(tasks, places, order[..|order| - 1]) + On(tasks, places, order[|order| - 1])
  }

  datatype Algorithm = Target | LeastLoaded | BestFitDecreasing | Other

  datatype ScheduleResult = Scheduled(byNode: map<string, seq<SchedTask>>) | Rejected(error: SchedulerError)

  /** Everything promised of a successful schedule. */
  ghost predicate Sound(nodes: Nodes, given: seq<Task>, tasks: seq<Task>, places: seq<Option<Place>>, m: map<string,
                        seq<SchedTask>>) {
    && |places| == |tasks|
    && (exists perm :: IsPermutation(perm, |given|) && tasks == Permute(given, perm))
    && (forall i :: 0 <= i < |tasks| ==>
          places[i].Some? && places[i].value.node in nodes && places[i].value.cpu in nodes[places[i].value.node].cpus)
    && (forall n, c :: n in nodes && c in nodes[n].cpus ==> Load(tasks, places, Place(n, c)) <= THRESHOLD)
    && (forall n :: n in m ==> m[n] == Group(tasks, places, n))
    && (forall i :: 0 <= i < |tasks| && places[i].value.node != "" ==> places[i].value.node in m)
    && EachOnce(given, On(tasks, places, ""), m)
  }

  /**
   * However the nodes of the map are listed, its groups together hold every given task once; only
   * tasks on a node with an empty name are missing.
   */
  ghost predicate EachOnce(given: seq<Task>, nameless: multiset<Task>, m: map<string, seq<SchedTask>>) {
    forall order :: Distinct(order) && (forall n :: n in order <==> n in m) ==>
      Merged(m, order) + nameless == multiset(given)
  }

  /** Where the placement stopped: tasks before `at` placed within the threshold, task `at` refused for cause. */
  ghost predicate StoppedAt(nodes: Nodes, algorithm: Algorithm, tasks: seq<Task>, places: seq<Option<Place>>,
                            util: CpuUtil, at: nat,
                            e: SchedulerError) {
    && Tracks(nodes, util, tasks, places) && PlacedUpTo(places, at) && at < |tasks|
    && if algorithm.Target? then TargetRefused(nodes, util, tasks[at], e)
       else NowhereAdmissible(nodes, util, tasks[at], e)
  }

  method Schedule(nodes: Nodes, loaded: bool, order: seq<string>, given: seq<Task>, algorithm: Algorithm)
    returns (r: ScheduleResult, ghost tasks: seq<Task>, ghost places: seq<Option<Place>>,
             ghost util: CpuUtil, ghost at: nat)
    requires forall n :: n in order <==> n in nodes
    ensures r == Rejected(NoTasks) <==> given == []
    ensures r == Rejected(ConfigNotLoaded) <==> given != [] && !loaded
    ensures r == Rejected(UnknownAlgorithm) <==> given != [] && loaded && algorithm.Other?
    ensures r.Scheduled? ==> Sound(nodes, given, tasks, places, r.byNode)
    ensures r.Scheduled? && algorithm.Target? ==> tasks == given && forall i :: 0 <= i < |tasks| ==>
              places[i].value.node == tasks[i].targetNode
    ensures r.Scheduled? && algorithm.BestFitDecreasing? ==> forall i, j :: 0 <= i < j < |tasks| ==>
              tasks[i].runtimeUs >= tasks[j].runtimeUs
    ensures r.Rejected? && given != [] && loaded && !algorithm.Other? ==>
              StoppedAt(nodes, algorithm, tasks, places, util, at, r.error)
  {
    tasks, places, util, at := [], [], map[], 0;
    if given == [] { return Rejected(NoTasks), [], [], map[], 0; }
    if !loaded { return Rejected(ConfigNotLoaded), [], [], map[], 0; }
    if algorithm.Other? { return Rejected(UnknownAlgorithm), [], [], map[], 0; }
    var outcome, work, ps;
    outcome, work, ps, util, at := RunAlgorithm(nodes, order, given, algorithm);
    tasks, places := work, ps;
    if outcome.Error? { return Rejected(outcome.error), tasks, places, util, at; }
    var m := BuildSchedMap(work, ps);
    IsSound(nodes, given, work, ps, util, m);
    r := Scheduled(m);
  }

  lemma IsSound(nodes: Nodes, given: seq<Task>, tasks: seq<Task>, places: seq<Option<Place>>, util: CpuUtil,
                m: map<string, seq<SchedTask>>)
    requires Tracks(nodes, util, tasks, places) && PlacedUpTo(places, |tasks|)
    requires exists perm :: IsPermutation(perm, |given|) && tasks == Permute(given, perm)
    requires forall n :: n in m ==> m[n] == Group(tasks, places, n)
    requires forall n :: n in m <==> Group(tasks, places, n) != []
    ensures Sound(nodes, given, tasks, places, m)
  {
    forall i | 0 <= i < |tasks| && places[i].value.node != "" ensures places[i].value.node in m {
      GroupHas(tasks, places, i);
    }
    var perm :| IsPermutation(perm, |given|) && tasks == Permute(given, perm);
    PermuteMultiset(given, perm);
    forall order | Distinct(order) && (forall n :: n in order <==> n in m)
      ensures Merged(m, order) + On(tasks, places, "") == multiset(given)
    {
      NoNamelessGroup(tasks, places);
      MergedIsOnAll(tasks, places, m, order);
      GroupsPartition(tasks, places, order);
    }
  }

  /** Order the tasks, start from an empty map and run the chosen algorithm. */
  method RunAlgorithm(nodes: Nodes, order: seq<string>, given: seq<Task>, algorithm: Algorithm)
    returns (outcome: Outcome, tasks: seq<Task>, places: seq<Option<Place>>, ghost util: CpuUtil, ghost at: nat)
    requires (forall n :: n in order <==> n in nodes) && !algorithm.Other?
    ensures exists perm :: IsPermutation(perm, |given|) && tasks == Permute(given, perm)
    ensures Tracks(nodes, util, tasks, places) && PlacedUpTo(places, at)
    ensures outcome.Done? ==> at == |tasks|
    ensures outcome.Error? ==> StoppedAt(nodes, algorithm, tasks, places, util, at, outcome.error)
    ensures outcome.Done? && algorithm.Target? ==> tasks == given && forall i :: 0 <= i < |tasks| ==>
              places[i].value.node == tasks[i].targetNode
    ensures algorithm.BestFitDecreasing? ==> forall i, j :: 0 <= i < j < |tasks| ==>
              tasks[i].runtimeUs >= tasks[j].runtimeUs
  {
    var work, perm := InOrder(given, algorithm);
    var load, ps := InitialUtil(nodes, work);
    if algorithm.Target? {
      outcome, load, ps, at := TargetNodePriority(nodes, work, load, ps);
    } else {
      outcome, load, ps, at := PlaceEach(nodes, order, work, load, ps, algorithm.BestFitDecreasing?);
    }
    tasks, places, util := work, ps, load;
  }

  /** Best-fit-decreasing sorts by execution time, largest first; the others keep the order. */
  method InOrder(given: seq<Task>, algorithm: Algorithm) returns (tasks: seq<Task>, perm: seq<nat>)
    ensures IsPermutation(perm, |given|) && tasks == Permute(given, perm)
    ensures !algorithm.BestFitDecreasing? ==> tasks == given
    ensures algorithm.BestFitDecreasing? ==> forall i, j :: 0 <= i < j < |tasks| ==>
              tasks[i].runtimeUs >= tasks[j].runtimeUs
  {
    if algorithm.BestFitDecreasing? {
      perm := SortIndices(seq(|given|, i requires 0 <= i < |given| => -(given[i].runtimeUs as real)));
    } else {
      perm := seq(|given|, i requires 0 <= i < |given| => i);
      forall i | 0 <= i < |given| ensures i in perm { assert perm[i] == i; }
    }
    tasks := Permute(given, perm);
  }

  /** How many of the first `n` tasks are on the node. */
  function CountOn(places: seq<Option<Place>>, node: string, n: nat): nat
    requires n <= |places|
  {
    if n == 0 then 0
    else CountOn(places, node, n - 1) + if places[n - 1].Some? && places[n - 1].value.node == node then 1 else 0
  }

  lemma {:induction false} CountPrefix(places: seq<Option<Place>>, node: string, m: nat, n: nat)
    requires n <= m <= |places|
    ensures CountOn(places[..m], node, n) == CountOn(places, node, n)
  {
    if n > 0 { CountPrefix(places, node, m, n - 1); }
  }

  /** The node's tasks stand in its group in their order, one after the other. */
  lemma {:induction false} GroupAt(tasks: seq<Task>, places: seq<Option<Place>>, node: string, i: nat)
    requires |tasks| == |places| && i < |tasks| && places[i].Some? && places[i].value.node == node != ""
    ensures |Group(tasks, places, node)| == CountOn(places, node, |places|)
    ensures CountOn(places, node, i) < |Group(tasks, places, node)|
    ensures Group(tasks, places, node)[CountOn(places, node, i)] == SchedTask(tasks[i], node, places[i].value.cpu)
  {
    var n := |tasks| - 1;
    GroupSize(tasks[..n], places[..n], node);
    CountPrefix(places, node, n, n);
    if i < n {
      GroupAt(tasks[..n], places[..n], node, i);
      CountPrefix(places, node, n, i);
    }
  }

  lemma {:induction false} GroupSize(tasks: seq<Task>, places: seq<Option<Place>>, node: string)
    requires |tasks| == |places| && node != ""
    ensures |Group(tasks, places, node)| == CountOn(places, node, |places|)
  {
    if tasks != [] {
      GroupSize(tasks[..|tasks| - 1], places[..|tasks| - 1], node);
      CountPrefix(places, node, |tasks| - 1, |tasks| - 1);
    }
  }

  lemma {:induction false} GroupHas(tasks: seq<Task>, places: seq<Option<Place>>, i: nat)
    requires |tasks| == |places| && i < |tasks| && places[i].Some? && places[i].value.node != ""
    ensures SchedTask(tasks[i], places[i].value.node, places[i].value.cpu) in Group(tasks, places, places[i].value.node)
    ensures Group(tasks, places, places[i].value.node) != []
  {
    var n := |tasks| - 1;
    if i < n { GroupHas(tasks[..n], places[..n], i); }
  }

  lemma {:induction false} NoNamelessGroup(tasks: seq<Task>, places: seq<Option<Place>>)
    requires |tasks| == |places|
    ensures Group(tasks, places, "") == []
  {
    if tasks != [] { NoNamelessGroup(tasks[..|tasks| - 1], places[..|tasks| - 1]); }
  }

  lemma TasksOfAppend(group: seq<SchedTask>, t: SchedTask)
    ensures TasksOf(group + [t]) == TasksOf(group) + multiset{t.task}
  {
    assert (group + [t])[..|group|] == group;
  }

  lemma {:induction false} GroupTasks(tasks: seq<Task>, places: seq<Option<Place>>, node: string)
    requires |tasks| == |places| && node != ""
    ensures TasksOf(Group(tasks, places, node)) == On(tasks, places, node)
  {
    if tasks != [] {
      var n := |tasks| - 1;
      GroupTasks(tasks[..n], places[..n], node);
      if places[n].Some? && places[n].value.node == node {
        TasksOfAppend(Group(tasks[..n], places[..n], node), SchedTask(tasks[n], node, places[n].value.cpu));
      } else {
        assert Group(tasks, places, node) == Group(tasks[..n], places[..n], node);
      }
    }
  }

  lemma {:induction false} MergedIsOnAll(tasks: seq<Task>, places: seq<Option<Place>>, m: map<string, seq<SchedTask>>,
                                         order: seq<string>)
    requires |tasks| == |places| && forall n :: n in order ==> n in m && n != "" && m[n] == Group(tasks, places, n)
    ensures Merged(m, order) == OnAll(tasks, places, order)
  {
    if order != [] {
      var n := |order| - 1;
      assert order[n] in order;
      MergedIsOnAll(tasks, places, m, order[..n]);
      GroupTasks(tasks, places, order[n]);
    }
  }

  lemma {:induction false} OnAllStep(tasks: seq<Task>, places: seq<Option<Place>>, order: seq<string>)
    requires |tasks| == |places| && tasks != [] && Distinct(order)
    ensures var n := |tasks| - 1;
            OnAll(tasks, places, order) == OnAll(tasks[..n], places[..n], order) +
              if places[n].Some? && places[n].value.node in order then multiset{tasks[n]} else multiset{}
  {
    if order != [] {
      var k := |order| - 1;
      assert order == order[..k] + [order[k]];
      assert Distinct(order[..k]);
      OnAllStep(tasks, places, order[..k]);
    }
  }

  /** Placed tasks are on a listed node or on the nameless one, each once. */
  lemma {:induction false} GroupsPartition(tasks: seq<Task>, places: seq<Option<Place>>, order: seq<string>)
    requires |tasks| == |places| && Distinct(order) && "" !in order
    requires forall i :: 0 <= i < |places| ==>
               places[i].Some? && (places[i].value.node in order || places[i].value.node == "")
    ensures OnAll(tasks, places, order) + On(tasks, places, "") == multiset(tasks)
  {
    if tasks == [] {
      NothingOn(order);
    } else {
      var n := |tasks| - 1;
      GroupsPartition(tasks[..n], places[..n], order);
      OnAllStep(tasks, places, order);
      assert tasks == tasks[..n] + [tasks[n]];
      OneMore(OnAll(tasks[..n], places[..n], order), On(tasks[..n], places[..n], ""),
              multiset(tasks[..n]), multiset{tasks[n]});
    }
  }

  lemma OneMore<T>(a: multiset<T>, b: multiset<T>, c: multiset<T>, x: multiset<T>)
    requires a + b == c
    ensures a + x + (b + multiset{}) == c + x && a + multiset{} + (b + x) == c + x
  {
  }

  lemma {:induction false} NothingOn(order: seq<string>)
    ensures OnAll([], [], order) == multiset{}
  {
    if order != [] { NothingOn(order[..|order| - 1]); }
  }
}
