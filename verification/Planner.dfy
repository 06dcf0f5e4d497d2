/** The five-step pipeline that turns a node's tasks into a schedule table. */
module Planner {
  import opened Basics
  import opened Sequences
  import opened Divisibility
  import opened Hyperperiod
  import opened SlotPlacement
  import opened Gaps
  import opened CpuAssignment

  datatype Partition = Partition(cpu: int, ttSlots: seq<TtSlot>, cbsEntries: seq<CbsAllocation>)

  datatype ScheduleTable = ScheduleTable(nodeId: string, hyperperiodUs: u32, partitions: seq<Partition>)

  datatype ScheduleResult = Scheduled(table: ScheduleTable) | Infeasible(error: InfeasibleError)

  function OfMechanism(tasks: seq<ClassifiedTask>, m: Mechanism): (r: seq<ClassifiedTask>)
    ensures forall t :: t in r <==> t in tasks && t.mechanism == m
  {
    if tasks == [] then []
    else
      var init, t := OfMechanism(tasks[..|tasks| - 1], m), tasks[|tasks| - 1];
      assert tasks == tasks[..|tasks| - 1] + [t];
      if t.mechanism == m then init + [t] else init
  }

  /** Non-zero periods, in task order. */
  function Periods(tasks: seq<ClassifiedTask>): (r: seq<nat>)
    ensures AllPositive(r)
    ensures forall p :: p in r <==> exists t :: t in tasks && t.periodUs == p > 0
    ensures forall i :: 0 <= i < |r| ==> r[i] < TWO_32
  {
    if tasks == [] then []
    else
      var init, t := Periods(tasks[..|tasks| - 1]), tasks[|tasks| - 1];
      assert tasks == tasks[..|tasks| - 1] + [t];
      if t.periodUs > 0 then init + [t.periodUs] else init
  }

  lemma SubsetLcm(sub: seq<ClassifiedTask>, tasks: seq<ClassifiedTask>)
    requires forall t :: t in sub ==> t in tasks
    ensures Divides(LcmOf(Periods(sub)), LcmOf(Periods(tasks)))
    ensures LcmOf(Periods(sub)) <= LcmOf(Periods(tasks))
  {
    var a, b := Periods(sub), Periods(tasks);
    LcmOfIsLeast(a);
    LcmOfIsLeast(b);
    SameCommonMultiples(LcmOf(b), b, a) by {
      forall p | p in a ensures p in b {
        var t :| t in sub && t.periodUs == p > 0;
        assert t in tasks;
      }
    }
    Quotient(LcmOf(a), LcmOf(b));
  }

  lemma PeriodDividesLcm(tasks: seq<ClassifiedTask>, i: nat)
    requires i < |tasks| && tasks[i].periodUs > 0
    ensures Divides(tasks[i].periodUs, LcmOf(Periods(tasks)))
  {
    LcmOfIsLeast(Periods(tasks));
    assert tasks[i] in tasks;
    assert tasks[i].periodUs in Periods(tasks);
  }

  // ---- step 3 ----

  /** Harmonic periods and a complete, conflict-free layout over the CPU's own hyperperiod. */
  ghost predicate TtSound(slots: seq<TtSlot>, tasks: seq<ClassifiedTask>, cpu: int) {
    && SortedByOffset(slots)
    && if tasks == [] then slots == []
       else
         && Periods(tasks) != [] && Harmonic(Periods(tasks))
         && (exists jobs :: LaidOut(slots, jobs, tasks, cpu))
         && Utilization(tasks) <= 1.0
  }

  /** A slot serves the k-th task. */
  ghost predicate Served(jobs: seq<Job>, k: int) {
    exists i :: 0 <= i < |jobs| && jobs[i].task == k
  }

  /** A layout over the own hyperperiod, in which exactly the tasks with a period have slots. */
  ghost predicate LaidOut(slots: seq<TtSlot>, jobs: seq<Job>, tasks: seq<ClassifiedTask>, cpu: int) {
    && Layout(slots, jobs, tasks, LcmOf(Periods(tasks)), cpu)
    && forall k :: 0 <= k < |tasks| ==> (Served(jobs, k) <==> tasks[k].periodUs > 0)
  }

  lemma LayoutServes(slots: seq<TtSlot>, jobs: seq<Job>, tasks: seq<ClassifiedTask>, cpu: int)
    requires Layout(slots, jobs, tasks, LcmOf(Periods(tasks)), cpu)
    ensures LaidOut(slots, jobs, tasks, cpu)
  {
    var hp := LcmOf(Periods(tasks));
    LcmOfIsLeast(Periods(tasks));
    forall k | 0 <= k < |tasks| ensures Served(jobs, k) <==> tasks[k].periodUs > 0 {
      if tasks[k].periodUs > 0 {
        PeriodDividesLcm(tasks, k);
        Quotient(tasks[k].periodUs, hp);
        assert ValidJob(tasks, hp, Job(k, 0));
        var i :| 0 <= i < |jobs| && jobs[i] == Job(k, 0);
      }
      if Served(jobs, k) {
        var i :| 0 <= i < |jobs| && jobs[i].task == k;
        assert ValidJob(tasks, hp, jobs[i]);
      }
    }
  }

  /** Why a CPU's TT tasks are refused: periods that are not harmonic, no period at all, or a stuck layout. */
  ghost predicate TtRefused(tasks: seq<ClassifiedTask>, cpu: int, e: InfeasibleError) {
    && tasks != [] && e.cpu == cpu
    && if !Harmonic(Periods(tasks)) then e.reason == NonHarmonicPeriod
       else e.reason == TtSlotConflict && (Periods(tasks) == [] || GreedyStuck(tasks, LcmOf(Periods(tasks)), cpu, e))
  }

  /** Layouts exist only for tasks that do not overload the CPU. */
  lemma LayoutWithin(slots: seq<TtSlot>, jobs: seq<Job>, tasks: seq<ClassifiedTask>, cpu: int)
    requires Layout(slots, jobs, tasks, LcmOf(Periods(tasks)), cpu) && SortedByOffset(slots)
    ensures Utilization(tasks) <= 1.0
  {
    var hp := LcmOf(Periods(tasks));
    DemandWithin(slots, jobs, tasks, hp, cpu);
    forall i | 0 <= i < |tasks| && tasks[i].periodUs > 0 ensures Divides(tasks[i].periodUs, hp) {
      PeriodDividesLcm(tasks, i);
    }
    DemandFits(tasks, hp);
  }

  method CollectPeriods(tasks: seq<ClassifiedTask>) returns (r: seq<u64>)
    ensures r == Periods(tasks)
  {
    r := [];
    for i := 0 to |tasks|
      invariant r == Periods(tasks[..i])
    {
      assert tasks[..i + 1][..i] == tasks[..i];
      if tasks[i].periodUs > 0 { r := r + [tasks[i].periodUs]; }
    }
    assert tasks[..|tasks|] == tasks;
  }

  /** The least common multiple of the periods, 0 without any. */
  function HyperperiodOf(tasks: seq<ClassifiedTask>): nat {
    if Periods(tasks) == [] then 0 else LcmOf(Periods(tasks))
  }

  /** Reference: step 3 on one CPU. */
  ghost function CpuReference(lib: Library, cpu: int, tasks: seq<ClassifiedTask>): Placement
    requires Lawful(lib)
  {
    if tasks == [] then Placed([])
    else if !Harmonic(Periods(tasks)) then Failed(InfeasibleError(NonHarmonicPeriod, cpu, ""))
    else PlaceReference(lib, cpu, tasks, HyperperiodOf(tasks))
  }

  method PlaceOnCpu(lib: Library, cpu: int, tasks: seq<ClassifiedTask>) returns (r: Placement)
    requires Lawful(lib) && InRange(tasks, LcmOf(Periods(tasks)))
    ensures r == CpuReference(lib, cpu, tasks)
    ensures r.Placed? ==> TtSound(r.slots, tasks, cpu)
    ensures r.Failed? ==> TtRefused(tasks, cpu, r.error)
  {
    if tasks == [] { return Placed([]); }
    var periods := CollectPeriods(tasks);
    var harmonic := ValidateHarmonic(periods);
    if !harmonic { return Failed(InfeasibleError(NonHarmonicPeriod, cpu, "")); }
    var hp := CalculateHyperperiod(periods);
    LcmOfIsLeast(periods);
    if periods != [] { LcmUnique(hp, LcmOf(periods), periods); }
    ghost var jobs, order, occ;
    r, jobs, order, occ := PlaceTtSlots(lib, cpu, tasks, hp);
    if r.Placed? {
      LayoutServes(r.slots, jobs, tasks, cpu);
      LayoutWithin(r.slots, jobs, tasks, cpu);
    }
  }

  /** Own hyperperiods never exceed the node-wide one, so the range hypothesis carries over. */
  lemma CollectInRange(tt: seq<ClassifiedTask>, cpuOf: seq<int>, cpu: int)
    requires |tt| == |cpuOf| && InRange(tt, LcmOf(Periods(tt)))
    ensures InRange(Collect(tt, cpuOf, cpu), LcmOf(Periods(Collect(tt, cpuOf, cpu))))
  {
    var sub := Collect(tt, cpuOf, cpu);
    CollectContents(tt, cpuOf, cpu);
    forall t | t in sub ensures t in tt { }
    SubsetLcm(sub, tt);
    forall i | 0 <= i < |sub|
      ensures LcmOf(Periods(sub)) + sub[i].deadlineUs + sub[i].wcetUs < TWO_31
    {
      assert sub[i] in sub;
      var k :| 0 <= k < |tt| && tt[k] == sub[i];
    }
  }

  /** The first `n` values under their CPU ids. */
  function MapOf<T>(ids: seq<int>, values: seq<T>, n: nat): (r: map<int, T>)
    requires n <= |ids| == |values|
    ensures forall c :: c in r <==> c in ids[..n]
  {
    if n == 0 then map[]
    else
      assert ids[..n] == ids[..n - 1] + [ids[n - 1]];
      MapOf(ids, values, n - 1)[ids[n - 1] := values[n - 1]]
  }

  /** Reference: step 3 on every CPU. */
  ghost function TtOutcomes(lib: Library, ids: seq<int>, tt: seq<ClassifiedTask>, cpuOf: seq<int>): (r: seq<Placement>)
    requires Lawful(lib) && |tt| == |cpuOf|
    ensures |r| == |ids|
  {
    if ids == [] then []
    else
      var n := |ids| - 1;
      TtOutcomes(lib, ids[..n], tt, cpuOf) + [CpuReference(lib, ids[n], Collect(tt, cpuOf, ids[n]))]
  }

  lemma {:induction false} TtOutcomeAt(lib: Library, ids: seq<int>, tt: seq<ClassifiedTask>, cpuOf: seq<int>, i: nat,
                                       r: Placement)
    requires Lawful(lib) && |tt| == |cpuOf| && i < |ids| && r == CpuReference(lib, ids[i], Collect(tt, cpuOf, ids[i]))
    ensures TtOutcomes(lib, ids, tt, cpuOf)[i] == r
  {
    if i < |ids| - 1 { TtOutcomeAt(lib, ids[..|ids| - 1], tt, cpuOf, i, r); }
  }

  /** The first refusal from the i-th on. */
  function FirstRefusal(outcomes: seq<Placement>, i: nat): Option<InfeasibleError>
    requires i <= |outcomes|
    decreases |outcomes| - i
  {
    if i == |outcomes| then None
    else if outcomes[i].Failed? then Some(outcomes[i].error)
    else FirstRefusal(outcomes, i + 1)
  }

  function SlotsIn(outcomes: seq<Placement>): (r: seq<seq<TtSlot>>)
    ensures |r| == |outcomes|
  {
    seq(|outcomes|, i requires 0 <= i < |outcomes| => if outcomes[i].Placed? then outcomes[i].slots else [])
  }

  /** A sound layout, or a refusal for cause. */
  ghost predicate OutcomeOk(cpu: int, tasks: seq<ClassifiedTask>, r: Placement) {
    if r.Placed? then TtSound(r.slots, tasks, cpu) else TtRefused(tasks, cpu, r.error)
  }

  /** `outcomes` are the reference's, for the first `n` CPUs. */
  ghost predicate AreOutcomes(lib: Library, ids: seq<int>, tt: seq<ClassifiedTask>, cpuOf: seq<int>,
                              outcomes: seq<Placement>, n: nat) {
    && Lawful(lib) && |tt| == |cpuOf| && n <= |ids| == |outcomes|
    && (n > 0 ==>
          && AreOutcomes(lib, ids, tt, cpuOf, outcomes, n - 1)
          && outcomes[n - 1] == CpuReference(lib, ids[n - 1], Collect(tt, cpuOf, ids[n - 1])))
  }

  lemma {:induction false} OutcomesAre(lib: Library, ids: seq<int>, tt: seq<ClassifiedTask>, cpuOf: seq<int>, n: nat)
    requires Lawful(lib) && |tt| == |cpuOf| && n <= |ids|
    ensures AreOutcomes(lib, ids, tt, cpuOf, TtOutcomes(lib, ids, tt, cpuOf), n)
  {
    if n > 0 {
      OutcomesAre(lib, ids, tt, cpuOf, n - 1);
      TtOutcomeAt(lib, ids, tt, cpuOf, n - 1, CpuReference(lib, ids[n - 1], Collect(tt, cpuOf, ids[n - 1])));
    }
  }

  lemma {:induction false} OutcomeAt(lib: Library, ids: seq<int>, tt: seq<ClassifiedTask>, cpuOf: seq<int>,
                                     outcomes: seq<Placement>, i: nat, n: nat)
    requires AreOutcomes(lib, ids, tt, cpuOf, outcomes, n) && i < n
    ensures outcomes[i] == CpuReference(lib, ids[i], Collect(tt, cpuOf, ids[i]))
  {
    if i < n - 1 { OutcomeAt(lib, ids, tt, cpuOf, outcomes, i, n - 1); }
  }

  ghost predicate NthOk(ids: seq<int>, outcomes: seq<Placement>, tt: seq<ClassifiedTask>, cpuOf: seq<int>, i: nat) {
    i < |ids| == |outcomes| && |tt| == |cpuOf| && OutcomeOk(ids[i], Collect(tt, cpuOf, ids[i]), outcomes[i])
  }

  method PlaceNth(lib: Library, ids: seq<int>, tt: seq<ClassifiedTask>, cpuOf: seq<int>, n: nat,
                  ghost outcomes: seq<Placement>)
    returns (r: Placement)
    requires AreOutcomes(lib, ids, tt, cpuOf, outcomes, |ids|) && InRange(tt, LcmOf(Periods(tt))) && n < |ids|
    ensures r == outcomes[n] && NthOk(ids, outcomes, tt, cpuOf, n)
  {
    CollectInRange(tt, cpuOf, ids[n]);
    r := PlaceOnCpu(lib, ids[n], Collect(tt, cpuOf, ids[n]));
    OutcomeAt(lib, ids, tt, cpuOf, outcomes, n, |ids|);
  }

  /** The first `n` CPUs have their layout. */
  ghost predicate PlacedUpTo(ids: seq<int>, outcomes: seq<Placement>, tt: seq<ClassifiedTask>, cpuOf: seq<int>,
                             n: nat) {
    && n <= |ids| == |outcomes|
    && (n > 0 ==>
          && PlacedUpTo(ids, outcomes, tt, cpuOf, n - 1)
          && outcomes[n - 1].Placed? && NthOk(ids, outcomes, tt, cpuOf, n - 1))
  }

  lemma {:induction false} PlacedAt(ids: seq<int>, outcomes: seq<Placement>, tt: seq<ClassifiedTask>, cpuOf: seq<int>,
                                    i: nat, n: nat)
    requires PlacedUpTo(ids, outcomes, tt, cpuOf, n) && i < n
    ensures outcomes[i].Placed? && NthOk(ids, outcomes, tt, cpuOf, i)
  {
    if i < n - 1 { PlacedAt(ids, outcomes, tt, cpuOf, i, n - 1); }
  }

  method PlaceAll(lib: Library, cpuIds: seq<int>, tt: seq<ClassifiedTask>, cpuOf: seq<int>,
                  ghost outcomes: seq<Placement>)
    returns (error: Option<InfeasibleError>, slotsOf: map<int, seq<TtSlot>>, ghost at: nat)
    requires AreOutcomes(lib, cpuIds, tt, cpuOf, outcomes, |cpuIds|) && InRange(tt, LcmOf(Periods(tt)))
    ensures error == FirstRefusal(outcomes, 0)
    ensures at <= |cpuIds| && PlacedUpTo(cpuIds, outcomes, tt, cpuOf, at)
    ensures error.None? ==> at == |cpuIds| && slotsOf == MapOf(cpuIds, SlotsIn(outcomes), at)
    ensures error.Some? ==>
              at < |cpuIds| && outcomes[at] == Failed(error.value) && NthOk(cpuIds, outcomes, tt, cpuOf, at)
  {
    slotsOf := map[];
    for n := 0 to |cpuIds|
      invariant FirstRefusal(outcomes, 0) == FirstRefusal(outcomes, n)
      invariant slotsOf == MapOf(cpuIds, SlotsIn(outcomes), n)
      invariant PlacedUpTo(cpuIds, outcomes, tt, cpuOf, n)
    {
      var placed := PlaceNth(lib, cpuIds, tt, cpuOf, n, outcomes);
      if placed.Failed? { return Some(placed.error), slotsOf, n; }
      slotsOf := slotsOf[cpuIds[n] := placed.slots];
    }
    return None, slotsOf, |cpuIds|;
  }

  lemma {:induction false} MapOfAt<T>(ids: seq<int>, values: seq<T>, n: nat, c: int) returns (i: nat)
    requires n <= |ids| == |values| && c in ids[..n]
    ensures i < n && ids[i] == c && MapOf(ids, values, n)[c] == values[i]
  {
    assert ids[..n] == ids[..n - 1] + [ids[n - 1]];
    if c == ids[n - 1] { i := n - 1; } else { i := MapOfAt(ids, values, n - 1, c); }
  }

  lemma SoundAt(ids: seq<int>, outcomes: seq<Placement>, tt: seq<ClassifiedTask>, cpuOf: seq<int>, i: nat)
    requires NthOk(ids, outcomes, tt, cpuOf, i) && outcomes[i].Placed?
    ensures TtSound(outcomes[i].slots, Collect(tt, cpuOf, ids[i]), ids[i])
  {
  }

  lemma SlotsSoundFor(ids: seq<int>, outcomes: seq<Placement>, tt: seq<ClassifiedTask>, cpuOf: seq<int>,
                      slotsOf: map<int, seq<TtSlot>>, c: int)
    requires |tt| == |cpuOf| && PlacedUpTo(ids, outcomes, tt, cpuOf, |ids|) && c in ids
    requires slotsOf == MapOf(ids, SlotsIn(outcomes), |ids|)
    ensures c in slotsOf && TtSound(slotsOf[c], Collect(tt, cpuOf, c), c)
  {
    assert ids[..|ids|] == ids;
    var i := MapOfAt(ids, SlotsIn(outcomes), |ids|, c);
    PlacedAt(ids, outcomes, tt, cpuOf, i, |ids|);
    assert slotsOf[c] == outcomes[i].slots;
    SoundAt(ids, outcomes, tt, cpuOf, i);
  }

  lemma SlotsSound(ids: seq<int>, outcomes: seq<Placement>, tt: seq<ClassifiedTask>, cpuOf: seq<int>,
                   slotsOf: map<int, seq<TtSlot>>)
    requires |tt| == |cpuOf| && PlacedUpTo(ids, outcomes, tt, cpuOf, |ids|)
    requires slotsOf == MapOf(ids, SlotsIn(outcomes), |ids|)
    ensures forall c :: c in ids ==> c in slotsOf && TtSound(slotsOf[c], Collect(tt, cpuOf, c), c)
  {
    forall c | c in ids {
      SlotsSoundFor(ids, outcomes, tt, cpuOf, slotsOf, c);
    }
  }

  // ---- step 4 ----

  /** The CPU's CBS tasks all got an entry, within the bound, and the TT tasks leave bandwidth. */
  ghost predicate CbsSound(entries: seq<CbsAllocation>, ttOn: seq<ClassifiedTask>, cbsOn: seq<ClassifiedTask>,
                           cpu: int) {
    if cbsOn == [] then entries == []
    else
      && AllocationsOf(entries, cbsOn, cpu)
      && Utilization(ttOn) + U_OVERHEAD < U_BOUND
      && Utilization(ttOn) + Utilization(cbsOn) + U_OVERHEAD <= U_BOUND
  }

  ghost predicate PlacedWithin(cpuIds: seq<int>, slotsOf: map<int, seq<TtSlot>>, hp: int) {
    forall c :: c in cpuIds ==> c in slotsOf && SortedByOffset(slotsOf[c]) && EndBy(slotsOf[c], hp)
  }

  /** Reference: the first CPU from the i-th on whose TT load leaves nothing for its CBS tasks. */
  ghost function FirstCbsError(ids: seq<int>, uTt: map<int, real>, cbs: seq<ClassifiedTask>, cpuOf: seq<int>,
                               i: nat): Option<InfeasibleError>
    requires |cbs| == |cpuOf| && i <= |ids| && forall c :: c in ids ==> c in uTt
    decreases |ids| - i
  {
    if i == |ids| then None
    else if Collect(cbs, cpuOf, ids[i]) != [] && uTt[ids[i]] + U_OVERHEAD >= U_BOUND
    then Some(InfeasibleError(NoCbsBandwidth, ids[i], ""))
    else FirstCbsError(ids, uTt, cbs, cpuOf, i + 1)
  }

  /** Reference: step 4 on every CPU. */
  ghost function EntriesOn(lib: Library, ids: seq<int>, cbs: seq<ClassifiedTask>,
                           cpuOf: seq<int>): (r: seq<seq<CbsAllocation>>)
    requires Lawful(lib) && |cbs| == |cpuOf|
    ensures |r| == |ids|
  {
    if ids == [] then []
    else
      var n := |ids| - 1;
      EntriesOn(lib, ids[..n], cbs, cpuOf) + [Entries(lib, Collect(cbs, cpuOf, ids[n]), ids[n])]
  }

  lemma {:induction false} EntriesAt(lib: Library, ids: seq<int>, cbs: seq<ClassifiedTask>, cpuOf: seq<int>, i: nat)
    requires Lawful(lib) && |cbs| == |cpuOf| && i < |ids|
    ensures EntriesOn(lib, ids, cbs, cpuOf)[i] == Entries(lib, Collect(cbs, cpuOf, ids[i]), ids[i])
  {
    if i < |ids| - 1 { EntriesAt(lib, ids[..|ids| - 1], cbs, cpuOf, i); }
  }

  ghost predicate GapsFor(slotsOf: map<int, seq<TtSlot>>, gapsOf: map<int, seq<GapInterval>>, hp: int, c: int) {
    c in slotsOf && c in gapsOf && ExactComplement(slotsOf[c], gapsOf[c], hp)
  }

  /** The first `n` CPUs have their gaps. */
  ghost predicate GapsUpTo(ids: seq<int>, slotsOf: map<int, seq<TtSlot>>, gapsOf: map<int, seq<GapInterval>>, hp: int,
                           n: nat) {
    n <= |ids| && forall i :: 0 <= i < n ==> GapsFor(slotsOf, gapsOf, hp, ids[i])
  }

  lemma GapsPut(ids: seq<int>, slotsOf: map<int, seq<TtSlot>>, gapsOf: map<int, seq<GapInterval>>, hp: int, n: nat,
                gaps: seq<GapInterval>)
    requires n < |ids| && GapsUpTo(ids, slotsOf, gapsOf, hp, n)
    requires ids[n] in slotsOf && ExactComplement(slotsOf[ids[n]], gaps, hp)
    ensures GapsUpTo(ids, slotsOf, gapsOf[ids[n] := gaps], hp, n + 1)
  {
    var next := gapsOf[ids[n] := gaps];
    forall i | 0 <= i < n + 1 ensures GapsFor(slotsOf, next, hp, ids[i]) {
      assert i < n ==> GapsFor(slotsOf, gapsOf, hp, ids[i]);
    }
  }

  ghost predicate EntriesFor(entriesOf: map<int, seq<CbsAllocation>>, tt: seq<ClassifiedTask>, ttCpu: seq<int>,
                             cbs: seq<ClassifiedTask>, cpuOf: seq<int>, c: int)
    requires |tt| == |ttCpu| && |cbs| == |cpuOf|
  {
    c in entriesOf && CbsSound(entriesOf[c], Collect(tt, ttCpu, c), Collect(cbs, cpuOf, c), c)
  }

  /** The first `n` CPUs have their CBS entries. */
  ghost predicate EntriesUpTo(ids: seq<int>, entriesOf: map<int, seq<CbsAllocation>>, tt: seq<ClassifiedTask>,
                              ttCpu: seq<int>,
                              cbs: seq<ClassifiedTask>, cpuOf: seq<int>, n: nat)
    requires |tt| == |ttCpu| && |cbs| == |cpuOf|
  {
    n <= |ids| && forall i :: 0 <= i < n ==> EntriesFor(entriesOf, tt, ttCpu, cbs, cpuOf, ids[i])
  }

  lemma EntriesPut(ids: seq<int>, entriesOf: map<int, seq<CbsAllocation>>, tt: seq<ClassifiedTask>, ttCpu: seq<int>,
                   cbs: seq<ClassifiedTask>, cpuOf: seq<int>, n: nat, entries: seq<CbsAllocation>)
    requires |tt| == |ttCpu| && |cbs| == |cpuOf|
    requires n < |ids| && EntriesUpTo(ids, entriesOf, tt, ttCpu, cbs, cpuOf, n)
    requires CbsSound(entries, Collect(tt, ttCpu, ids[n]), Collect(cbs, cpuOf, ids[n]), ids[n])
    ensures EntriesUpTo(ids, entriesOf[ids[n] := entries], tt, ttCpu, cbs, cpuOf, n + 1)
  {
    var next := entriesOf[ids[n] := entries];
    forall i | 0 <= i < n + 1 ensures EntriesFor(next, tt, ttCpu, cbs, cpuOf, ids[i]) {
      assert i < n ==> EntriesFor(entriesOf, tt, ttCpu, cbs, cpuOf, ids[i]);
    }
  }

  method GapsOfNth(ids: seq<int>, slotsOf: map<int, seq<TtSlot>>, gapsOf: map<int, seq<GapInterval>>, hp: nat, n: nat)
    returns (next: map<int, seq<GapInterval>>)
    requires hp < TWO_31 && PlacedWithin(ids, slotsOf, hp) && n < |ids| && GapsUpTo(ids, slotsOf, gapsOf, hp, n)
    ensures GapsUpTo(ids, slotsOf, next, hp, n + 1)
  {
    var c := ids[n];
    assert c in ids;
    assert c in slotsOf && SortedByOffset(slotsOf[c]) && EndBy(slotsOf[c], hp);
    var gaps := ComputeGaps(slotsOf[c], hp);
    GapsPut(ids, slotsOf, gapsOf, hp, n, gaps);
    next := gapsOf[c := gaps];
  }

  /** The TT tasks fill the CPU to the bound exactly, and the CBS tasks there ask for no time. */
  ghost predicate BandwidthRefused(e: InfeasibleError, tt: seq<ClassifiedTask>, ttCpu: seq<int>,
                                   cbs: seq<ClassifiedTask>, cpuOf: seq<int>)
    requires |tt| == |ttCpu| && |cbs| == |cpuOf|
  {
    && e == InfeasibleError(NoCbsBandwidth, e.cpu, "")
    && Collect(cbs, cpuOf, e.cpu) != []
    && Load(tt, ttCpu, e.cpu) + U_OVERHEAD == U_BOUND
    && forall i :: 0 <= i < |cbs| && cpuOf[i] == e.cpu ==> TaskUtilization(cbs[i]) <= 0.0
  }

  /** Step 4 on the n-th CPU, behind gate one. */
  method AllocateNth(lib: Library, ids: seq<int>, cbs: seq<ClassifiedTask>, cpuOf: seq<int>, uTt: map<int, real>,
                     ghost uCbs: map<int, real>,
                     ghost tt: seq<ClassifiedTask>, ghost ttCpu: seq<int>,
                     entriesOf: map<int, seq<CbsAllocation>>, n: nat)
    returns (error: Option<InfeasibleError>, next: map<int, seq<CbsAllocation>>)
    requires Lawful(lib) && Tracks(uTt, ids, tt, ttCpu) && Tracks(uCbs, ids, cbs, cpuOf) && GateOne(uTt, uCbs, cpuOf)
    requires n < |ids| && -1 !in ids && EntriesUpTo(ids, entriesOf, tt, ttCpu, cbs, cpuOf, n)
    ensures ids[n] in uTt
    ensures error == if Collect(cbs, cpuOf, ids[n]) != [] && uTt[ids[n]] + U_OVERHEAD >= U_BOUND
                     then Some(InfeasibleError(NoCbsBandwidth, ids[n], "")) else None
    ensures error.None? ==> next == entriesOf[ids[n] := EntriesOn(lib, ids, cbs, cpuOf)[n]]
    ensures error.None? ==> EntriesUpTo(ids, next, tt, ttCpu, cbs, cpuOf, n + 1)
    ensures error.Some? ==> BandwidthRefused(error.value, tt, ttCpu, cbs, cpuOf)
  {
    var cpu := ids[n];
    assert cpu in ids;
    EntriesAt(lib, ids, cbs, cpuOf, n);
    var cpuCbs := Collect(cbs, cpuOf, cpu);
    if cpuCbs == [] {
      EntriesPut(ids, entriesOf, tt, ttCpu, cbs, cpuOf, n, []);
      return None, entriesOf[cpu := []];
    }
    var r := AllocateCbsBudgets(lib, cpu, cpuCbs, uTt[cpu]);
    AllocationOutcome(ids, cbs, cpuOf, uTt, uCbs, cpu);
    CollectLoad(tt, ttCpu, cpu);
    if r.Refused? { return Some(r.error), entriesOf; }
    EntriesPut(ids, entriesOf, tt, ttCpu, cbs, cpuOf, n, r.entries);
    return None, entriesOf[cpu := r.entries];
  }

  method AllocateAll(lib: Library, cpuIds: seq<int>, cbs: seq<ClassifiedTask>, cpuOf: seq<int>, uTt: map<int, real>,
                     ghost uCbs: map<int, real>,
                     slotsOf: map<int, seq<TtSlot>>, hp: nat, ghost tt: seq<ClassifiedTask>, ghost ttCpu: seq<int>)
    returns (error: Option<InfeasibleError>, entriesOf: map<int, seq<CbsAllocation>>,
             gapsOf: map<int, seq<GapInterval>>)
    requires Lawful(lib) && Tracks(uTt, cpuIds, tt, ttCpu) && Tracks(uCbs, cpuIds, cbs, cpuOf)
    requires GateOne(uTt, uCbs, cpuOf)
    requires hp < TWO_31 && PlacedWithin(cpuIds, slotsOf, hp) && -1 !in cpuIds
    ensures error == FirstCbsError(cpuIds, uTt, cbs, cpuOf, 0)
    ensures error.None? ==> GapsUpTo(cpuIds, slotsOf, gapsOf, hp, |cpuIds|)
    ensures error.None? ==> entriesOf == MapOf(cpuIds, EntriesOn(lib, cpuIds, cbs, cpuOf), |cpuIds|)
    ensures error.None? ==> EntriesUpTo(cpuIds, entriesOf, tt, ttCpu, cbs, cpuOf, |cpuIds|)
    ensures error.Some? ==> BandwidthRefused(error.value, tt, ttCpu, cbs, cpuOf)
  {
    entriesOf, gapsOf := map[], map[];
    for n := 0 to |cpuIds|
      invariant GapsUpTo(cpuIds, slotsOf, gapsOf, hp, n)
      invariant FirstCbsError(cpuIds, uTt, cbs, cpuOf, 0) == FirstCbsError(cpuIds, uTt, cbs, cpuOf, n)
      invariant entriesOf == MapOf(cpuIds, EntriesOn(lib, cpuIds, cbs, cpuOf), n)
      invariant EntriesUpTo(cpuIds, entriesOf, tt, ttCpu, cbs, cpuOf, n)
    {
      gapsOf := GapsOfNth(cpuIds, slotsOf, gapsOf, hp, n);
      error, entriesOf := AllocateNth(lib, cpuIds, cbs, cpuOf, uTt, uCbs, tt, ttCpu, entriesOf, n);
      if error.Some? { return; }
    }
    error := None;
  }

  /** Consequences of gate one for a CPU about to pass gate two. */
  lemma AllocationOutcome(cpuIds: seq<int>, cbs: seq<ClassifiedTask>, cpuOf: seq<int>, uTt: map<int, real>,
                          uCbs: map<int, real>, cpu: int)
    requires Tracks(uCbs, cpuIds, cbs, cpuOf) && GateOne(uTt, uCbs, cpuOf)
    requires cpu in cpuIds && cpu != -1 && Collect(cbs, cpuOf, cpu) != []
    ensures cpu in uTt && uTt[cpu] + Utilization(Collect(cbs, cpuOf, cpu)) + U_OVERHEAD <= U_BOUND
    ensures uTt[cpu] + U_OVERHEAD >= U_BOUND ==>
              && uTt[cpu] + U_OVERHEAD == U_BOUND
              && forall i :: 0 <= i < |cbs| && cpuOf[i] == cpu ==> TaskUtilization(cbs[i]) <= 0.0
  {
    var on := Collect(cbs, cpuOf, cpu);
    CollectContents(cbs, cpuOf, cpu);
    assert on[0] in on;
    var i :| 0 <= i < |cbs| && cpuOf[i] == cpu;
    GatesAgree(uTt, uCbs, cpuIds, cbs, cpuOf, i);
    forall k | 0 <= k < |cbs| && cpuOf[k] == cpu
      ensures TaskUtilization(cbs[k]) > 0.0 ==> uTt[cpu] + U_OVERHEAD < U_BOUND
    {
      GatesAgree(uTt, uCbs, cpuIds, cbs, cpuOf, k);
    }
    CollectLoad(cbs, cpuOf, cpu);
    LoadBounds(cbs, cpuOf, cpu);
  }

  // ---- step 5 and the whole pipeline ----

  /** Reference: a partition for each of the first `n` CPUs that has slots or entries. */
  function Parts(ids: seq<int>, slotsOf: map<int, seq<TtSlot>>, entriesOf: map<int, seq<CbsAllocation>>,
                 n: nat): seq<Partition>
    requires n <= |ids| && forall c :: c in ids ==> c in slotsOf && c in entriesOf
  {
    if n == 0 then []
    else
      assert ids[n - 1] in ids;
      var c := ids[n - 1];
      Parts(ids, slotsOf, entriesOf, n - 1) +
      if slotsOf[c] == [] && entriesOf[c] == [] then [] else [Partition(c, slotsOf[c], entriesOf[c])]
  }

  ghost predicate CpusRise(parts: seq<Partition>) {
    forall i, j :: 0 <= i < j < |parts| ==> parts[i].cpu < parts[j].cpu
  }

  /** Partitions come in the order of the CPUs. */
  lemma {:induction false} PartsRise(ids: seq<int>, slotsOf: map<int, seq<TtSlot>>,
                                     entriesOf: map<int, seq<CbsAllocation>>, n: nat, parts: seq<Partition>)
    requires Rising(ids) && n <= |ids| && forall c :: c in ids ==> c in slotsOf && c in entriesOf
    requires parts == Parts(ids, slotsOf, entriesOf, n)
    ensures CpusRise(parts) && forall i :: 0 <= i < |parts| ==> parts[i].cpu in ids[..n]
  {
    if n > 0 {
      var c, before := ids[n - 1], Parts(ids, slotsOf, entriesOf, n - 1);
      PartsRise(ids, slotsOf, entriesOf, n - 1, before);
      assert c in ids && ids[..n] == ids[..n - 1] + [c];
      forall i | 0 <= i < |before| ensures before[i].cpu < c {
        var k :| 0 <= k < n - 1 && ids[..n - 1][k] == before[i].cpu;
      }
    }
  }

  /** The partitions are those of the first `n` CPUs with slots or entries, each once. */
  ghost predicate Built(ids: seq<int>, slotsOf: map<int, seq<TtSlot>>, entriesOf: map<int, seq<CbsAllocation>>,
                        parts: seq<Partition>, n: nat)
    requires n <= |ids| && forall c :: c in ids ==> c in slotsOf && c in entriesOf
  {
    && (forall i, j :: 0 <= i < j < |parts| ==> parts[i].cpu != parts[j].cpu)
    && (forall p :: p in parts ==>
          && p.cpu in ids[..n] && p == Partition(p.cpu, slotsOf[p.cpu], entriesOf[p.cpu])
          && (p.ttSlots != [] || p.cbsEntries != []))
    && (forall k :: 0 <= k < n ==> HasOwn(slotsOf, entriesOf, parts, ids[k]))
  }

  ghost predicate HasOwn(slotsOf: map<int, seq<TtSlot>>, entriesOf: map<int, seq<CbsAllocation>>,
                         parts: seq<Partition>, c: int)
  {
    c in slotsOf && c in entriesOf && (slotsOf[c] != [] || entriesOf[c] != []) ==>
      Partition(c, slotsOf[c], entriesOf[c]) in parts
  }

  method AddPartition(ids: seq<int>, slotsOf: map<int, seq<TtSlot>>, entriesOf: map<int, seq<CbsAllocation>>,
                      parts: seq<Partition>, n: nat) returns (r: seq<Partition>)
    requires Distinct(ids) && n < |ids| && forall c :: c in ids ==> c in slotsOf && c in entriesOf
    requires parts == Parts(ids, slotsOf, entriesOf, n) && Built(ids, slotsOf, entriesOf, parts, n)
    ensures r == Parts(ids, slotsOf, entriesOf, n + 1) && Built(ids, slotsOf, entriesOf, r, n + 1)
  {
    var c := ids[n];
    assert c in ids && c !in ids[..n] && ids[..n + 1] == ids[..n] + [c];
    if slotsOf[c] == [] && entriesOf[c] == [] { return parts; }
    r := parts + [Partition(c, slotsOf[c], entriesOf[c])];
    forall i | 0 <= i < |parts| ensures parts[i].cpu != c { assert parts[i] in parts; }
    forall k | 0 <= k < n + 1 ensures HasOwn(slotsOf, entriesOf, r, ids[k]) {
      assert k < n ==> HasOwn(slotsOf, entriesOf, parts, ids[k]);
    }
  }

  method BuildPartitions(cpuIds: seq<int>, slotsOf: map<int, seq<TtSlot>>, entriesOf: map<int, seq<CbsAllocation>>)
    returns (parts: seq<Partition>)
    requires Distinct(cpuIds) && forall c :: c in cpuIds ==> c in slotsOf && c in entriesOf
    ensures parts == Parts(cpuIds, slotsOf, entriesOf, |cpuIds|)
    ensures forall i, j :: 0 <= i < j < |parts| ==> parts[i].cpu != parts[j].cpu
    ensures forall p :: p in parts ==> p.cpu in cpuIds && p == Partition(p.cpu, slotsOf[p.cpu], entriesOf[p.cpu])
    ensures forall p :: p in parts ==> p.ttSlots != [] || p.cbsEntries != []
    ensures forall c :: c in cpuIds && (slotsOf[c] != [] || entriesOf[c] != []) ==>
              Partition(c, slotsOf[c], entriesOf[c]) in parts
  {
    parts := [];
    for n := 0 to |cpuIds|
      invariant parts == Parts(cpuIds, slotsOf, entriesOf, n) && Built(cpuIds, slotsOf, entriesOf, parts, n)
    {
      parts := AddPartition(cpuIds, slotsOf, entriesOf, parts, n);
    }
    assert cpuIds[..|cpuIds|] == cpuIds;
    forall c | c in cpuIds ensures HasOwn(slotsOf, entriesOf, parts, c) {
      var k :| 0 <= k < |cpuIds| && cpuIds[k] == c;
    }
  }

  function Configured(cpus: seq<int>): (r: seq<int>)
    ensures r != [] && forall c :: c in r ==> c in cpus || c == 2 || c == 3
  {
    if cpus == [] then [2, 3] else cpus
  }

  function CpuKeys(cpus: seq<int>): (r: seq<real>)
    ensures |r| == |cpus|
  {
    seq(|cpus|, i requires 0 <= i < |cpus| => cpus[i] as real)
  }

  /** Reference: the available CPUs in ascending order. */
  ghost function CpusReference(lib: Library, configured: seq<int>): seq<int>
    requires Lawful(lib)
  {
    Permute(Configured(configured), lib.sort(CpuKeys(Configured(configured))))
  }

  /** Reference: the keys of the per-CPU map, in its order. */
  function Keys(s: seq<int>): seq<int> {
    if s == [] then [] else Inserted(Keys(s[..|s| - 1]), s[|s| - 1])
  }

  function Inserted(s: seq<int>, x: int): seq<int> {
    if s == [] then [x]
    else if s[|s| - 1] < x then s + [x]
    else if s[|s| - 1] == x then s
    else Inserted(s[..|s| - 1], x) + [s[|s| - 1]]
  }

  lemma {:induction false} InsertedRises(s: seq<int>, x: int)
    requires Rising(s)
    ensures Rising(Inserted(s, x)) && forall y :: y in Inserted(s, x) <==> y in s || y == x
  {
    if s != [] {
      var n := |s| - 1;
      assert s == s[..n] + [s[n]];
      if s[n] > x {
        InsertedRises(s[..n], x);
        var r := Inserted(s[..n], x);
        forall i | 0 <= i < |r| ensures r[i] < s[n] {
          assert r[i] in r;
        }
      }
    }
  }

  lemma {:induction false} KeysRise(s: seq<int>)
    ensures Rising(Keys(s)) && forall y :: y in Keys(s) <==> y in s
  {
    if s != [] {
      var n := |s| - 1;
      assert s == s[..n] + [s[n]];
      KeysRise(s[..n]);
      InsertedRises(Keys(s[..n]), s[n]);
    }
  }

  lemma {:induction false} RisingUnique(a: seq<int>, b: seq<int>)
    requires Rising(a) && Rising(b) && forall y :: y in a <==> y in b
    ensures a == b
    decreases |a|
  {
    if a == [] {
      SomeElement(b);
    } else {
      var n, m := |a| - 1, |b| - 1;
      LargestSame(a, b);
      assert a == a[..n] + [a[n]] && b == b[..m] + [b[m]];
      forall y ensures y in a[..n] <==> y in b[..m] {
        assert y in a[..n] ==> y in a && y != a[n];
        assert y in b[..m] ==> y in b && y != b[m];
      }
      RisingUnique(a[..n], b[..m]);
    }
  }

  lemma LargestSame(a: seq<int>, b: seq<int>)
    requires Rising(a) && Rising(b) && a != [] && forall y :: y in a <==> y in b
    ensures b != [] && a[|a| - 1] == b[|b| - 1]
  {
    assert a[|a| - 1] in a;
    var i :| 0 <= i < |b| && b[i] == a[|a| - 1];
    assert b[|b| - 1] in b;
    var j :| 0 <= j < |a| && a[j] == b[|b| - 1];
  }

  /** Configured CPUs, or the default isolated pair, ascending; and the keys of the per-CPU map. */
  method AvailableCpus(lib: Library, configured: seq<int>) returns (cpus: seq<int>, cpuIds: seq<int>)
    requires Lawful(lib) && forall c :: c in configured ==> 0 <= c < TWO_31
    ensures cpus == CpusReference(lib, configured) && cpuIds == Keys(cpus)
    ensures cpus != [] && forall c :: c in cpus ==> c >= 0
    ensures forall i, j :: 0 <= i < j < |cpus| ==> cpus[i] <= cpus[j]
    ensures forall c :: c in cpus <==> c in Configured(configured)
    ensures Distinct(cpuIds) && forall c :: c in cpuIds <==> c in cpus
  {
    var avail := Configured(configured);
    var order := lib.sort(CpuKeys(avail));
    cpus := Permute(avail, order);
    PermuteElements(avail, order);
    forall i | 0 <= i < |cpus| ensures 0 <= cpus[i] < TWO_31 { assert cpus[i] in cpus; }
    cpuIds := SortedUnique(cpus);
    KeysRise(cpus);
    RisingUnique(cpuIds, Keys(cpus));
  }

  ghost predicate CpusSound(cpuIds: seq<int>, tt: seq<ClassifiedTask>, ttCpu: seq<int>, cbs: seq<ClassifiedTask>,
                            cbsCpu: seq<int>,
                            slotsOf: map<int, seq<TtSlot>>, entriesOf: map<int, seq<CbsAllocation>>)
    requires |tt| == |ttCpu| && |cbs| == |cbsCpu|
  {
    forall c :: c in cpuIds ==>
      && c in slotsOf && c in entriesOf
      && TtSound(slotsOf[c], Collect(tt, ttCpu, c), c)
      && CbsSound(entriesOf[c], Collect(tt, ttCpu, c), Collect(cbs, cbsCpu, c), c)
  }

  predicate HasPartition(parts: seq<Partition>, cpu: int) {
    exists p :: p in parts && p.cpu == cpu
  }

  /** What every emitted table satisfies. */
  ghost predicate TableSound(table: ScheduleTable, tt: seq<ClassifiedTask>, cbs: seq<ClassifiedTask>, ttCpu: seq<int>,
                             cbsCpu: seq<int>) {
    && |ttCpu| == |tt| && |cbsCpu| == |cbs|
    && table.hyperperiodUs == (if Periods(tt) == [] then 0 else LcmOf(Periods(tt)))
    && (forall i, j :: 0 <= i < j < |table.partitions| ==> table.partitions[i].cpu != table.partitions[j].cpu)
    && (forall p :: p in table.partitions ==>
          && TtSound(p.ttSlots, Collect(tt, ttCpu, p.cpu), p.cpu)
          && CbsSound(p.cbsEntries, Collect(tt, ttCpu, p.cpu), Collect(cbs, cbsCpu, p.cpu), p.cpu))
    && (forall i :: 0 <= i < |tt| ==> HasPartition(table.partitions, ttCpu[i]))
    && (forall i :: 0 <= i < |cbs| ==> HasPartition(table.partitions, cbsCpu[i]))
    && (forall i, j :: 0 <= i < |tt| && 0 <= j < |tt| && tt[i].workloadId == tt[j].workloadId ==> ttCpu[i] == ttCpu[j])
  }

  /** The CPU of the placed CBS task is available and within the bound. */
  ghost predicate PlacedWell(avail: seq<int>, tt: seq<ClassifiedTask>, cbs: seq<ClassifiedTask>, ttCpu: seq<int>,
                             cbsCpu: seq<int>, k: nat)
    requires |ttCpu| == |tt| && |cbsCpu| == |cbs| && k < |cbs|
  {
    var c := cbsCpu[k];
    c in avail && Load(tt, ttCpu, c) + Load(cbs, cbsCpu, c) + U_OVERHEAD <= U_BOUND
  }

  /**
   * CBS task `i` was left without a CPU because it would push every one of them over the bound, although
   * only tasks at least as demanding were placed before it, each within the bound.
   */
  ghost predicate FitsNowhere(avail: seq<int>, tt: seq<ClassifiedTask>, cbs: seq<ClassifiedTask>, ttCpu: seq<int>,
                              cbsCpu: seq<int>, i: int)
    requires |ttCpu| == |tt| && |cbsCpu| == |cbs|
  {
    && 0 <= i < |cbs| && cbsCpu[i] == -1
    && (forall k :: 0 <= k < |cbs| && cbsCpu[k] != -1 ==>
          TaskUtilization(cbs[k]) >= TaskUtilization(cbs[i]) && PlacedWell(avail, tt, cbs, ttCpu, cbsCpu, k))
    && forall c :: c in avail ==>
         Load(tt, ttCpu, c) + Load(cbs, cbsCpu, c) + TaskUtilization(cbs[i]) + U_OVERHEAD > U_BOUND
  }

  lemma RejectedFitsNowhere(avail: seq<int>, cpus: seq<int>, tt: seq<ClassifiedTask>, cbs: seq<ClassifiedTask>,
                            ttCpu: seq<int>, cbsCpu: seq<int>, uTt: map<int, real>, uCbs: map<int, real>, i: int)
    requires Tracks(uTt, cpus, tt, ttCpu) && Tracks(uCbs, cpus, cbs, cbsCpu) && GateOne(uTt, uCbs, cbsCpu)
    requires Rejected(cpus, cbs, cbsCpu, uTt, uCbs, i) && forall c :: c in cpus <==> c in avail
    ensures FitsNowhere(avail, tt, cbs, ttCpu, cbsCpu, i)
  {
    forall c | c in avail
      ensures Load(tt, ttCpu, c) + Load(cbs, cbsCpu, c) + TaskUtilization(cbs[i]) + U_OVERHEAD > U_BOUND
    {
      assert c in cpus;
    }
  }

  /** What each refusal means. */
  ghost predicate RefusalExplained(e: InfeasibleError, avail: seq<int>, tt: seq<ClassifiedTask>,
                                   cbs: seq<ClassifiedTask>, ttCpu: seq<int>, cbsCpu: seq<int>) {
    && |ttCpu| == |tt| && |cbsCpu| == |cbs|
    && e.reason != SafetyCbsExceeded
    && (e.reason == NonHarmonicPeriod || e.reason == TtSlotConflict ==> TtRefused(Collect(tt, ttCpu, e.cpu), e.cpu, e))
    && (e.reason == NoCbsBandwidth ==>
          && e.taskId == ""
          && Load(tt, ttCpu, e.cpu) + U_OVERHEAD == U_BOUND
          && exists i :: 0 <= i < |cbs| && cbsCpu[i] == e.cpu && TaskUtilization(cbs[i]) <= 0.0)
    && (e.reason == UtilizationExceeded ==> exists i :: FitsNowhere(avail, tt, cbs, ttCpu, cbsCpu, i))
  }

  /** Reference: steps 4 and 5 from the slots of step 3. */
  ghost function CbsReference(lib: Library, nodeId: string, ids: seq<int>, uTt: map<int, real>, hp: nat,
                              cbs: seq<ClassifiedTask>, cbsCpu: seq<int>,
                              slotsOf: map<int, seq<TtSlot>>): ScheduleResult
    requires Lawful(lib) && |cbs| == |cbsCpu| && forall c :: c in ids ==> c in uTt && c in slotsOf
  {
    match FirstCbsError(ids, uTt, cbs, cbsCpu, 0)
    case Some(error) => Infeasible(error)
    case None =>
      assert ids[..|ids|] == ids;
      var entriesOf := MapOf(ids, EntriesOn(lib, ids, cbs, cbsCpu), |ids|);
      Scheduled(ScheduleTable(nodeId, Wrap32(hp), Parts(ids, slotsOf, entriesOf, |ids|)))
  }

  /** Reference: steps 3 to 5 from the outcomes of step 3. */
  ghost function LayOutReference(lib: Library, nodeId: string, ids: seq<int>, outcomes: seq<Placement>, uTt: map<int,
                                 real>, hp: nat,
                                 cbs: seq<ClassifiedTask>, cbsCpu: seq<int>): ScheduleResult
    requires Lawful(lib) && |ids| == |outcomes| && |cbs| == |cbsCpu| && forall c :: c in ids ==> c in uTt
  {
    match FirstRefusal(outcomes, 0)
    case Some(error) => Infeasible(error)
    case None =>
      assert ids[..|ids|] == ids;
      CbsReference(lib, nodeId, ids, uTt, hp, cbs, cbsCpu, MapOf(ids, SlotsIn(outcomes), |ids|))
  }

  ghost predicate CpusKnown(configured: seq<int>) {
    forall c :: c in configured ==> 0 <= c < TWO_31
  }

  /** Reference: the whole planner as a function of its input and the library. */
  ghost function Generate(lib: Library, nodeId: string, configured: seq<int>,
                          tasks: seq<ClassifiedTask>): ScheduleResult
    requires Lawful(lib) && CpusKnown(configured)
  {
    if tasks == [] then Scheduled(ScheduleTable(nodeId, 10000, []))
    else
      var tt, cbs, cpus := OfMechanism(tasks, TT), OfMechanism(tasks, CBS), CpusReference(lib, configured);
      CpusReferenceKnown(lib, configured);
      var ttCpu := TtCpus(lib, cpus, tt);
      match CbsCpus(cpus, cbs, LoadMap(cpus, tt, ttCpu), lib.sort(UtilizationKeys(cbs)), |cbs|)
      case None => Infeasible(InfeasibleError(UtilizationExceeded, -1, ""))
      case Some(cbsCpu) =>
        KeysRise(cpus);
        var ids := Keys(cpus);
        LayOutReference(lib, nodeId, ids, TtOutcomes(lib, ids, tt, ttCpu), LoadMap(cpus, tt, ttCpu),
                        HyperperiodOf(tt), cbs, cbsCpu)
  }

  lemma CpusReferenceKnown(lib: Library, configured: seq<int>)
    requires Lawful(lib) && CpusKnown(configured)
    ensures CpusReference(lib, configured) != [] && forall c :: c in CpusReference(lib, configured) ==> c >= 0
  {
    PermuteElements(Configured(configured), lib.sort(CpuKeys(Configured(configured))));
  }

  method GenerateSchedule(lib: Library, nodeId: string, configured: seq<int>, tasks: seq<ClassifiedTask>)
    returns (r: ScheduleResult, ghost ttCpu: seq<int>, ghost cbsCpu: seq<int>)
    requires Lawful(lib)
    requires forall c :: c in configured ==> 0 <= c < TWO_31
    requires var tt := OfMechanism(tasks, TT); InRange(tt, LcmOf(Periods(tt)))
    ensures r == Generate(lib, nodeId, configured, tasks)
    ensures CpusReference(lib, configured) != []
    ensures tasks != [] ==> ttCpu == TtCpus(lib, CpusReference(lib, configured), OfMechanism(tasks, TT))
    ensures tasks == [] ==> r == Scheduled(ScheduleTable(nodeId, 10000, []))
    ensures r.Scheduled? ==> forall i :: 0 <= i < |cbsCpu| ==> cbsCpu[i] in Configured(configured)
    ensures r.Scheduled? ==> forall p :: p in r.table.partitions ==> p.cpu in Configured(configured)
    ensures tasks != [] && r.Scheduled? ==>
              r.table.nodeId == nodeId &&
              TableSound(r.table, OfMechanism(tasks, TT), OfMechanism(tasks, CBS), ttCpu, cbsCpu)
    ensures r.Infeasible? ==>
              RefusalExplained(r.error, Configured(configured),
                               OfMechanism(tasks, TT), OfMechanism(tasks, CBS), ttCpu, cbsCpu)
  {
    ttCpu, cbsCpu := [], [];
    if tasks == [] { return Scheduled(ScheduleTable(nodeId, 10000, [])), [], []; }
    var tt, cbs := OfMechanism(tasks, TT), OfMechanism(tasks, CBS);
    var cpus, cpuIds := AvailableCpus(lib, configured);
    ghost var ids, stuck;
    var ttOn, uTt, cbsOn, uCbs, ok;
    ttOn, uTt, ids := AssignTt(lib, cpus, tt);
    TracksIsLoadMap(uTt, cpus, tt, ttOn);
    ok, cbsOn, uCbs, stuck := AssignCbs(lib, cpus, cbs, uTt);
    ttCpu, cbsCpu := ttOn, cbsOn;
    if !ok {
      RejectedFitsNowhere(Configured(configured), cpus, tt, cbs, ttOn, cbsOn, uTt, uCbs, stuck);
      return Infeasible(InfeasibleError(UtilizationExceeded, -1, "")), ttCpu, cbsCpu;
    }
    SameWorkloadSameCpu(cpus, tt, ttOn, ids);
    OutcomesAre(lib, cpuIds, tt, ttOn, |cpuIds|);
    r := LayOut(lib, nodeId, cpuIds, tt, ttOn, uTt, cbs, cbsOn, uCbs, TtOutcomes(lib, cpuIds, tt, ttOn));
  }

  /** Steps 3 to 5, once every task has its CPU. */
  method LayOut(lib: Library, nodeId: string, cpuIds: seq<int>, tt: seq<ClassifiedTask>, ttCpu: seq<int>,
                uTt: map<int, real>,
                cbs: seq<ClassifiedTask>, cbsCpu: seq<int>, ghost uCbs: map<int, real>, ghost outcomes: seq<Placement>)
    returns (r: ScheduleResult)
    requires AreOutcomes(lib, cpuIds, tt, ttCpu, outcomes, |cpuIds|)
    requires Distinct(cpuIds) && -1 !in cpuIds && InRange(tt, LcmOf(Periods(tt)))
    requires Tracks(uTt, cpuIds, tt, ttCpu) && Tracks(uCbs, cpuIds, cbs, cbsCpu) && GateOne(uTt, uCbs, cbsCpu)
    requires forall i :: 0 <= i < |tt| ==> ttCpu[i] in cpuIds
    requires forall i :: 0 <= i < |cbs| ==> cbsCpu[i] in cpuIds
    requires forall i, j :: 0 <= i < |tt| && 0 <= j < |tt| && tt[i].workloadId == tt[j].workloadId ==>
               ttCpu[i] == ttCpu[j]
    ensures r == LayOutReference(lib, nodeId, cpuIds, outcomes, uTt, HyperperiodOf(tt), cbs, cbsCpu)
    ensures r.Scheduled? ==> r.table.nodeId == nodeId && TableSound(r.table, tt, cbs, ttCpu, cbsCpu)
    ensures r.Scheduled? ==> forall p :: p in r.table.partitions ==> p.cpu in cpuIds
    ensures r.Infeasible? ==>
              r.error.reason != UtilizationExceeded && RefusalExplained(r.error, [], tt, cbs, ttCpu, cbsCpu)
  {
    ghost var at;
    var error, slotsOf;
    error, slotsOf, at := PlaceAll(lib, cpuIds, tt, ttCpu, outcomes);
    if error.Some? {
      TtRefusalExplained(cpuIds[at], tt, cbs, ttCpu, cbsCpu, error.value);
      return Infeasible(error.value);
    }
    SlotsSound(cpuIds, outcomes, tt, ttCpu, slotsOf);
    r := LayOutCbs(lib, nodeId, cpuIds, tt, ttCpu, uTt, cbs, cbsCpu, uCbs, slotsOf);
  }

  lemma TtRefusalExplained(cpu: int, tt: seq<ClassifiedTask>, cbs: seq<ClassifiedTask>, ttCpu: seq<int>,
                           cbsCpu: seq<int>, e: InfeasibleError)
    requires |ttCpu| == |tt| && |cbsCpu| == |cbs| && OutcomeOk(cpu, Collect(tt, ttCpu, cpu), Failed(e))
    ensures e.reason != UtilizationExceeded && RefusalExplained(e, [], tt, cbs, ttCpu, cbsCpu)
  {
  }

  lemma CbsRefusalExplained(tt: seq<ClassifiedTask>, cbs: seq<ClassifiedTask>, ttCpu: seq<int>, cbsCpu: seq<int>,
                            e: InfeasibleError)
    requires |ttCpu| == |tt| && |cbsCpu| == |cbs| && BandwidthRefused(e, tt, ttCpu, cbs, cbsCpu)
    ensures e.reason != UtilizationExceeded && RefusalExplained(e, [], tt, cbs, ttCpu, cbsCpu)
  {
    NonEmptyCollect(cbs, cbsCpu, e.cpu);
  }

  lemma CpusAreSound(cpuIds: seq<int>, tt: seq<ClassifiedTask>, ttCpu: seq<int>, cbs: seq<ClassifiedTask>,
                     cbsCpu: seq<int>, slotsOf: map<int, seq<TtSlot>>, entriesOf: map<int, seq<CbsAllocation>>)
    requires |tt| == |ttCpu| && |cbs| == |cbsCpu|
    requires forall c :: c in cpuIds ==> c in slotsOf && TtSound(slotsOf[c], Collect(tt, ttCpu, c), c)
    requires EntriesUpTo(cpuIds, entriesOf, tt, ttCpu, cbs, cbsCpu, |cpuIds|)
    ensures CpusSound(cpuIds, tt, ttCpu, cbs, cbsCpu, slotsOf, entriesOf)
  {
    forall c | c in cpuIds ensures EntriesFor(entriesOf, tt, ttCpu, cbs, cbsCpu, c) {
      var i :| 0 <= i < |cpuIds| && cpuIds[i] == c;
    }
  }

  /** Behind a sound layout the gaps and the demand of the CPU's own tasks share the time out. */
  lemma FreeTime(cpuIds: seq<int>, slotsOf: map<int, seq<TtSlot>>, gapsOf: map<int, seq<GapInterval>>, hp: nat,
                 on: seq<ClassifiedTask>, c: int)
    requires GapsUpTo(cpuIds, slotsOf, gapsOf, hp, |cpuIds|) && PlacedWithin(cpuIds, slotsOf, hp)
    requires c in cpuIds && c in slotsOf && c in gapsOf && TtSound(slotsOf[c], on, c)
    ensures SumOf(GapLength, gapsOf[c]) + Demand(on, LcmOf(Periods(on))) == hp
  {
    var i :| 0 <= i < |cpuIds| && cpuIds[i] == c;
    assert GapsFor(slotsOf, gapsOf, hp, cpuIds[i]);
    if on != [] {
      var jobs :| LaidOut(slotsOf[c], jobs, on, c);
      LayoutDemand(slotsOf[c], jobs, on, LcmOf(Periods(on)), c);
    }
  }

  /** Steps 4 and 5, once every CPU has its slots. */
  method LayOutCbs(lib: Library, nodeId: string, cpuIds: seq<int>, tt: seq<ClassifiedTask>, ttCpu: seq<int>,
                   uTt: map<int, real>,
                   cbs: seq<ClassifiedTask>, cbsCpu: seq<int>, ghost uCbs: map<int, real>,
                   slotsOf: map<int, seq<TtSlot>>)
    returns (r: ScheduleResult)
    requires Lawful(lib) && Distinct(cpuIds) && -1 !in cpuIds && InRange(tt, LcmOf(Periods(tt)))
    requires Tracks(uTt, cpuIds, tt, ttCpu) && Tracks(uCbs, cpuIds, cbs, cbsCpu) && GateOne(uTt, uCbs, cbsCpu)
    requires forall i :: 0 <= i < |tt| ==> ttCpu[i] in cpuIds
    requires forall i :: 0 <= i < |cbs| ==> cbsCpu[i] in cpuIds
    requires forall i, j :: 0 <= i < |tt| && 0 <= j < |tt| && tt[i].workloadId == tt[j].workloadId ==>
               ttCpu[i] == ttCpu[j]
    requires forall c :: c in cpuIds ==> c in slotsOf && TtSound(slotsOf[c], Collect(tt, ttCpu, c), c)
    ensures r == CbsReference(lib, nodeId, cpuIds, uTt, HyperperiodOf(tt), cbs, cbsCpu, slotsOf)
    ensures r.Scheduled? ==> r.table.nodeId == nodeId && TableSound(r.table, tt, cbs, ttCpu, cbsCpu)
    ensures r.Scheduled? ==> forall p :: p in r.table.partitions ==> p.cpu in cpuIds
    ensures r.Infeasible? ==>
              r.error.reason != UtilizationExceeded && RefusalExplained(r.error, [], tt, cbs, ttCpu, cbsCpu)
  {
    var globalHp := GlobalHyperperiod(tt);
    var hp := if globalHp == 0 then 10000 else globalHp;
    SlotsWithin(cpuIds, tt, ttCpu, slotsOf, hp);
    var error, entriesOf, gapsOf := AllocateAll(lib, cpuIds, cbs, cbsCpu, uTt, uCbs, slotsOf, hp, tt, ttCpu);
    if error.Some? {
      CbsRefusalExplained(tt, cbs, ttCpu, cbsCpu, error.value);
      return Infeasible(error.value);
    }
    CpusAreSound(cpuIds, tt, ttCpu, cbs, cbsCpu, slotsOf, entriesOf);
    var table := BuildTable(nodeId, cpuIds, tt, ttCpu, cbs, cbsCpu, slotsOf, entriesOf, globalHp);
    r := Scheduled(table);
  }

  /** Step 5. */
  method BuildTable(nodeId: string, cpuIds: seq<int>, ghost tt: seq<ClassifiedTask>, ghost ttCpu: seq<int>,
                    ghost cbs: seq<ClassifiedTask>, ghost cbsCpu: seq<int>,
                    slotsOf: map<int, seq<TtSlot>>, entriesOf: map<int, seq<CbsAllocation>>, hp: u32)
    returns (table: ScheduleTable)
    requires |tt| == |ttCpu| && |cbs| == |cbsCpu| && hp == HyperperiodOf(tt) && Distinct(cpuIds)
    requires forall i :: 0 <= i < |tt| ==> ttCpu[i] in cpuIds
    requires forall i :: 0 <= i < |cbs| ==> cbsCpu[i] in cpuIds
    requires forall i, j :: 0 <= i < |tt| && 0 <= j < |tt| && tt[i].workloadId == tt[j].workloadId ==>
               ttCpu[i] == ttCpu[j]
    requires CpusSound(cpuIds, tt, ttCpu, cbs, cbsCpu, slotsOf, entriesOf)
    ensures table == ScheduleTable(nodeId, hp, Parts(cpuIds, slotsOf, entriesOf, |cpuIds|))
    ensures TableSound(table, tt, cbs, ttCpu, cbsCpu) && forall p :: p in table.partitions ==> p.cpu in cpuIds
  {
    var parts := BuildPartitions(cpuIds, slotsOf, entriesOf);
    TableIsSound(nodeId, cpuIds, tt, ttCpu, cbs, cbsCpu, slotsOf, entriesOf, parts, hp);
    table := ScheduleTable(nodeId, hp, parts);
  }

  lemma TableIsSound(nodeId: string, cpuIds: seq<int>, tt: seq<ClassifiedTask>, ttCpu: seq<int>,
                     cbs: seq<ClassifiedTask>, cbsCpu: seq<int>,
                     slotsOf: map<int, seq<TtSlot>>, entriesOf: map<int, seq<CbsAllocation>>,
                     parts: seq<Partition>, hp: u32)
    requires |tt| == |ttCpu| && |cbs| == |cbsCpu| && hp == HyperperiodOf(tt)
    requires forall i :: 0 <= i < |tt| ==> ttCpu[i] in cpuIds
    requires forall i :: 0 <= i < |cbs| ==> cbsCpu[i] in cpuIds
    requires forall i, j :: 0 <= i < |tt| && 0 <= j < |tt| && tt[i].workloadId == tt[j].workloadId ==>
               ttCpu[i] == ttCpu[j]
    requires CpusSound(cpuIds, tt, ttCpu, cbs, cbsCpu, slotsOf, entriesOf)
    requires forall i, j :: 0 <= i < j < |parts| ==> parts[i].cpu != parts[j].cpu
    requires forall p :: p in parts ==> p.cpu in cpuIds && p == Partition(p.cpu, slotsOf[p.cpu], entriesOf[p.cpu])
    requires forall c :: c in cpuIds && (slotsOf[c] != [] || entriesOf[c] != []) ==>
               Partition(c, slotsOf[c], entriesOf[c]) in parts
    ensures TableSound(ScheduleTable(nodeId, hp, parts), tt, cbs, ttCpu, cbsCpu)
  {
    EveryTaskHasPartition(cpuIds, tt, ttCpu, cbs, cbsCpu, slotsOf, entriesOf, parts);
  }

  method GlobalHyperperiod(tt: seq<ClassifiedTask>) returns (hp: u32)
    requires InRange(tt, LcmOf(Periods(tt)))
    ensures hp == if Periods(tt) == [] then 0 else LcmOf(Periods(tt))
    ensures hp < TWO_31
  {
    var all := CollectPeriods(tt);
    if all == [] { return 0; }
    var h := CalculateHyperperiod(all);
    LcmOfIsLeast(all);
    LcmUnique(h, LcmOf(all), all);
    hp := h;
  }

  lemma SlotsWithin(cpus: seq<int>, tt: seq<ClassifiedTask>, cpuOf: seq<int>, slotsOf: map<int, seq<TtSlot>>, hp: nat)
    requires |tt| == |cpuOf|
    requires hp == if Periods(tt) == [] then 10000 else LcmOf(Periods(tt))
    requires forall c :: c in cpus ==> c in slotsOf && TtSound(slotsOf[c], Collect(tt, cpuOf, c), c)
    ensures PlacedWithin(cpus, slotsOf, hp)
  {
    forall c | c in cpus
      ensures EndBy(slotsOf[c], hp)
    {
      var on := Collect(tt, cpuOf, c);
      if on != [] {
        CollectContents(tt, cpuOf, c);
        var jobs :| LaidOut(slotsOf[c], jobs, on, c);
        LayoutEndsBy(slotsOf[c], jobs, on, LcmOf(Periods(on)), c);
        SubsetLcm(on, tt);
        SomeElement(Periods(on));
        var p :| p in Periods(on);
        var t :| t in on && t.periodUs == p > 0;
        assert t in tt;
        assert p in Periods(tt);
      }
    }
  }

  lemma NonEmptyCollect(tasks: seq<ClassifiedTask>, cpuOf: seq<int>, cpu: int)
    requires |tasks| == |cpuOf| && Collect(tasks, cpuOf, cpu) != []
    ensures exists i :: 0 <= i < |tasks| && cpuOf[i] == cpu
  {
    CollectContents(tasks, cpuOf, cpu);
    assert Collect(tasks, cpuOf, cpu)[0] in Collect(tasks, cpuOf, cpu);
  }

  lemma SameWorkloadSameCpu(cpus: seq<int>, tt: seq<ClassifiedTask>, cpuOf: seq<int>, ids: seq<string>)
    requires cpus != [] && |tt| == |cpuOf| && forall i :: 0 <= i < |tt| ==> tt[i].workloadId in ids
    requires forall i, w :: 0 <= i < |tt| && 0 <= w < |ids| && tt[i].workloadId == ids[w] ==>
               cpuOf[i] == CpuFor(cpus, w)
    ensures forall i, j :: 0 <= i < |tt| && 0 <= j < |tt| && tt[i].workloadId == tt[j].workloadId ==>
              cpuOf[i] == cpuOf[j]
    ensures forall i :: 0 <= i < |tt| ==> cpuOf[i] in cpus
  {
    forall i, j | 0 <= i < |tt| && 0 <= j < |tt| && tt[i].workloadId == tt[j].workloadId
      ensures cpuOf[i] == cpuOf[j] && cpuOf[i] in cpus
    {
      assert tt[i].workloadId in ids;
      var w :| 0 <= w < |ids| && ids[w] == tt[i].workloadId;
    }
  }

  /** A CPU with TT work has at least one slot. */
  lemma TtWorkHasSlots(slots: seq<TtSlot>, tasks: seq<ClassifiedTask>, cpu: int)
    requires TtSound(slots, tasks, cpu) && tasks != []
    ensures slots != []
  {
    var hp := LcmOf(Periods(tasks));
    var jobs :| LaidOut(slots, jobs, tasks, cpu);
    SomeElement(Periods(tasks));
    var p :| p in Periods(tasks);
    var t :| t in tasks && t.periodUs == p > 0;
    var i :| 0 <= i < |tasks| && tasks[i] == t;
    PeriodDividesLcm(tasks, i);
    Quotient(t.periodUs, hp);
    assert ValidJob(tasks, hp, Job(i, 0));
  }

  lemma EveryTaskHasPartition(cpuIds: seq<int>, tt: seq<ClassifiedTask>, ttCpu: seq<int>, cbs: seq<ClassifiedTask>,
                              cbsCpu: seq<int>,
                              slotsOf: map<int, seq<TtSlot>>, entriesOf: map<int, seq<CbsAllocation>>,
                              parts: seq<Partition>)
    requires |tt| == |ttCpu| && |cbs| == |cbsCpu|
    requires forall i :: 0 <= i < |tt| ==> ttCpu[i] in cpuIds
    requires forall i :: 0 <= i < |cbs| ==> cbsCpu[i] in cpuIds
    requires CpusSound(cpuIds, tt, ttCpu, cbs, cbsCpu, slotsOf, entriesOf)
    requires forall c :: c in cpuIds && (slotsOf[c] != [] || entriesOf[c] != []) ==>
               Partition(c, slotsOf[c], entriesOf[c]) in parts
    ensures forall i :: 0 <= i < |tt| ==> HasPartition(parts, ttCpu[i])
    ensures forall i :: 0 <= i < |cbs| ==> HasPartition(parts, cbsCpu[i])
  {
    forall i | 0 <= i < |tt|
      ensures HasPartition(parts, ttCpu[i])
    {
      WorkedCpu(tt, ttCpu, i);
      TtWorkHasSlots(slotsOf[ttCpu[i]], Collect(tt, ttCpu, ttCpu[i]), ttCpu[i]);
      assert Partition(ttCpu[i], slotsOf[ttCpu[i]], entriesOf[ttCpu[i]]) in parts;
    }
    forall i | 0 <= i < |cbs|
      ensures HasPartition(parts, cbsCpu[i])
    {
      WorkedCpu(cbs, cbsCpu, i);
      assert Partition(cbsCpu[i], slotsOf[cbsCpu[i]], entriesOf[cbsCpu[i]]) in parts;
    }
  }

  lemma WorkedCpu(tasks: seq<ClassifiedTask>, cpuOf: seq<int>, i: nat)
    requires |tasks| == |cpuOf| && i < |tasks|
    ensures Collect(tasks, cpuOf, cpuOf[i]) != []
  {
    CollectContents(tasks, cpuOf, cpuOf[i]);
    assert tasks[i] in Collect(tasks, cpuOf, cpuOf[i]);
  }

  // ---- the tasks in an emitted table ----

  ghost predicate HasSlot(parts: seq<Partition>, t: ClassifiedTask) {
    exists p, k :: p in parts && 0 <= k < |p.ttSlots| && SlotOfTask(p.ttSlots[k], t, p.cpu)
  }

  ghost predicate HasEntry(parts: seq<Partition>, t: ClassifiedTask) {
    exists p, k :: p in parts && 0 <= k < |p.cbsEntries| && AllocationOf(p.cbsEntries[k], t, p.cpu)
  }

  /** The task got what the table has to give: a TT task with a period a slot, a CBS task an entry. */
  ghost predicate InTable(parts: seq<Partition>, t: ClassifiedTask) {
    match t.mechanism case TT => t.periodUs > 0 ==> HasSlot(parts, t) case CBS => HasEntry(parts, t)
  }

  ghost predicate SlotFrom(s: TtSlot, cpu: int, tasks: seq<ClassifiedTask>) {
    exists t :: t in tasks && t.mechanism == TT && SlotOfTask(s, t, cpu)
  }

  ghost predicate EntryFrom(a: CbsAllocation, cpu: int, tasks: seq<ClassifiedTask>) {
    exists t :: t in tasks && t.mechanism == CBS && AllocationOf(a, t, cpu)
  }

  /** Every slot and every entry is of one of the tasks. */
  ghost predicate OnlyFrom(parts: seq<Partition>, tasks: seq<ClassifiedTask>) {
    forall p :: p in parts ==>
      && (forall k :: 0 <= k < |p.ttSlots| ==> SlotFrom(p.ttSlots[k], p.cpu, tasks))
      && (forall k :: 0 <= k < |p.cbsEntries| ==> EntryFrom(p.cbsEntries[k], p.cpu, tasks))
  }

  lemma SoundHasSlot(table: ScheduleTable, tt: seq<ClassifiedTask>, cbs: seq<ClassifiedTask>, ttCpu: seq<int>,
                     cbsCpu: seq<int>, i: nat)
    requires TableSound(table, tt, cbs, ttCpu, cbsCpu) && i < |tt| && tt[i].periodUs > 0
    ensures HasSlot(table.partitions, tt[i])
  {
    var c := ttCpu[i];
    assert HasPartition(table.partitions, c);
    var p :| p in table.partitions && p.cpu == c;
    var on := Collect(tt, ttCpu, c);
    CollectContents(tt, ttCpu, c);
    assert tt[i] in on;
    var n :| 0 <= n < |on| && on[n] == tt[i];
    var jobs: seq<Job> :| LaidOut(p.ttSlots, jobs, on, c);
    assert Served(jobs, n);
    var k :| 0 <= k < |jobs| && jobs[k].task == n;
    assert ServesJob(p.ttSlots[k], on, LcmOf(Periods(on)), c, jobs[k]);
  }

  lemma SoundHasEntry(table: ScheduleTable, tt: seq<ClassifiedTask>, cbs: seq<ClassifiedTask>, ttCpu: seq<int>,
                      cbsCpu: seq<int>, i: nat)
    requires TableSound(table, tt, cbs, ttCpu, cbsCpu) && i < |cbs|
    ensures HasEntry(table.partitions, cbs[i])
  {
    var c := cbsCpu[i];
    assert HasPartition(table.partitions, c);
    var p :| p in table.partitions && p.cpu == c;
    var on := Collect(cbs, cbsCpu, c);
    CollectContents(cbs, cbsCpu, c);
    assert cbs[i] in on;
    var k := EntryOf(p.cbsEntries, on, c, cbs[i]);
  }

  lemma EntryOf(entries: seq<CbsAllocation>, on: seq<ClassifiedTask>, cpu: int, t: ClassifiedTask) returns (k: nat)
    requires AllocationsOf(entries, on, cpu) && t in on
    ensures k < |entries| && AllocationOf(entries[k], t, cpu)
  {
    var perm :| IsPermutation(perm, |on|) && ByUtilization(on, perm) &&
      forall i :: 0 <= i < |on| ==> AllocationOf(entries[i], on[perm[i]], cpu);
    var n :| 0 <= n < |on| && on[n] == t;
    assert n in perm;
    k :| 0 <= k < |perm| && perm[k] == n;
  }

  lemma SlotsFrom(slots: seq<TtSlot>, on: seq<ClassifiedTask>, cpu: int, k: nat) returns (t: ClassifiedTask)
    requires TtSound(slots, on, cpu) && k < |slots|
    ensures t in on && SlotOfTask(slots[k], t, cpu)
  {
    var jobs: seq<Job> :| LaidOut(slots, jobs, on, cpu);
    assert ServesJob(slots[k], on, LcmOf(Periods(on)), cpu, jobs[k]);
    t := on[jobs[k].task];
  }

  lemma EntriesFrom(entries: seq<CbsAllocation>, on: seq<ClassifiedTask>, cpu: int, k: nat) returns (t: ClassifiedTask)
    requires AllocationsOf(entries, on, cpu) && k < |entries|
    ensures t in on && AllocationOf(entries[k], t, cpu)
  {
    var perm :| IsPermutation(perm, |on|) && ByUtilization(on, perm) &&
      forall i :: 0 <= i < |on| ==> AllocationOf(entries[i], on[perm[i]], cpu);
    t := on[perm[k]];
  }

  /** A sound table holds every one of the tasks, and nothing else. */
  lemma SoundHoldsTasks(table: ScheduleTable, tasks: seq<ClassifiedTask>, ttCpu: seq<int>, cbsCpu: seq<int>)
    requires TableSound(table, OfMechanism(tasks, TT), OfMechanism(tasks, CBS), ttCpu, cbsCpu)
    ensures forall t :: t in tasks ==> InTable(table.partitions, t)
    ensures OnlyFrom(table.partitions, tasks)
  {
    var tt, cbs := OfMechanism(tasks, TT), OfMechanism(tasks, CBS);
    forall t | t in tasks ensures InTable(table.partitions, t) {
      if t.mechanism == TT {
        assert t in tt;
        var i :| 0 <= i < |tt| && tt[i] == t;
        if t.periodUs > 0 { SoundHasSlot(table, tt, cbs, ttCpu, cbsCpu, i); }
      } else {
        assert t in cbs;
        var i :| 0 <= i < |cbs| && cbs[i] == t;
        SoundHasEntry(table, tt, cbs, ttCpu, cbsCpu, i);
      }
    }
    forall p | p in table.partitions
      ensures forall k :: 0 <= k < |p.ttSlots| ==> SlotFrom(p.ttSlots[k], p.cpu, tasks)
      ensures forall k :: 0 <= k < |p.cbsEntries| ==> EntryFrom(p.cbsEntries[k], p.cpu, tasks)
    {
      PartitionFrom(p, tasks, tt, cbs, ttCpu, cbsCpu);
    }
  }

  lemma PartitionFrom(p: Partition, tasks: seq<ClassifiedTask>, tt: seq<ClassifiedTask>, cbs: seq<ClassifiedTask>,
                      ttCpu: seq<int>, cbsCpu: seq<int>)
    requires tt == OfMechanism(tasks, TT) && cbs == OfMechanism(tasks, CBS) && |ttCpu| == |tt| && |cbsCpu| == |cbs|
    requires TtSound(p.ttSlots, Collect(tt, ttCpu, p.cpu), p.cpu)
    requires CbsSound(p.cbsEntries, Collect(tt, ttCpu, p.cpu), Collect(cbs, cbsCpu, p.cpu), p.cpu)
    ensures forall k :: 0 <= k < |p.ttSlots| ==> SlotFrom(p.ttSlots[k], p.cpu, tasks)
    ensures forall k :: 0 <= k < |p.cbsEntries| ==> EntryFrom(p.cbsEntries[k], p.cpu, tasks)
  {
    CollectContents(tt, ttCpu, p.cpu);
    CollectContents(cbs, cbsCpu, p.cpu);
    forall k | 0 <= k < |p.ttSlots| ensures SlotFrom(p.ttSlots[k], p.cpu, tasks) {
      var t := SlotsFrom(p.ttSlots, Collect(tt, ttCpu, p.cpu), p.cpu, k);
      assert t in tt;
    }
    forall k | 0 <= k < |p.cbsEntries| ensures EntryFrom(p.cbsEntries[k], p.cpu, tasks) {
      var t := EntriesFrom(p.cbsEntries, Collect(cbs, cbsCpu, p.cpu), p.cpu, k);
      assert t in cbs;
    }
  }
}
