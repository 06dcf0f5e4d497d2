/** From placed slots to fired slots: every task starts once in every period, forever, without overlap. */
module EndToEnd {
  import opened Basics
  import opened Sequences
  import opened Divisibility
  import opened SlotPlacement
  import opened Gaps
  import opened TimerMaster
  import opened CpuAssignment
  import opened Planner
  import opened ShmIndex

  /** Instant of slot i in round r, in microseconds after the first hyperperiod start, with table hyperperiod `h`. */
  function SlotAt(slots: seq<TtSlot>, h: nat, r: nat, i: nat): nat
    requires i < |slots|
  {
    r * h + slots[i].offsetUs
  }

  /** Firing instant n. */
  function FireAt(slots: seq<TtSlot>, h: nat, n: nat): nat
    requires slots != []
  {
    SlotAt(slots, h, n / |slots|, n % |slots|)
  }

  /** The timer entry of a table slot. */
  function ToEntry(s: TtSlot, hashOf: string -> nat): SlotEntry
    requires s.cpu >= 0
  {
    SlotEntry(s.cpu, s.offsetUs * 1000, s.durationUs * 1000, hashOf(s.taskId), hashOf(s.workloadId), s.taskId)
  }

  ghost predicate EntriesOf(slots: seq<TtSlot>, entries: seq<SlotEntry>, hashOf: string -> nat) {
    |entries| == |slots| &&
    forall i :: 0 <= i < |slots| ==> slots[i].cpu >= 0 && entries[i] == ToEntry(slots[i], hashOf)
  }

  /** Removing a workload by its hash removes exactly its slots. */
  lemma RemovesWorkload(slots: seq<TtSlot>, entries: seq<SlotEntry>, hashOf: string -> nat, w: string, i: nat)
    requires EntriesOf(slots, entries, hashOf) && i < |slots|
    requires hashOf(slots[i].workloadId) == hashOf(w) ==> slots[i].workloadId == w
    ensures entries[i] in Without(entries, hashOf(w)) <==> slots[i].workloadId != w
  {
    assert entries[i] in entries;
  }

  /** The timer's nanosecond targets are the microsecond firing instants, scaled. */
  lemma TargetIsFireAt(slots: seq<TtSlot>, entries: seq<SlotEntry>, hashOf: string -> nat, h: nat, start: nat, n: nat)
    requires slots != [] && EntriesOf(slots, entries, hashOf)
    ensures Target(entries, h * 1000, start, n) == start + FireAt(slots, h, n) * 1000
    ensures entries[n % |slots|].taskName == slots[n % |slots|].taskId
  {
    var r := n / |slots|;
    assert r * (h * 1000) == r * h * 1000;
  }

  /** Positive execution times, constrained deadlines and periods that divide the hyperperiod. */
  ghost predicate Periodic(tasks: seq<ClassifiedTask>, hp: nat) {
    && hp > 0
    && forall i :: 0 <= i < |tasks| && tasks[i].periodUs > 0 ==>
         0 < tasks[i].wcetUs && tasks[i].deadlineUs <= tasks[i].periodUs && Divides(tasks[i].periodUs, hp)
  }

  /** A planned CPU: complete layout, ordered by offset, of a periodic task set. */
  ghost predicate Planned(slots: seq<TtSlot>, jobs: seq<Job>, tasks: seq<ClassifiedTask>, hp: nat, cpu: int) {
    slots != [] && Layout(slots, jobs, tasks, hp, cpu) && SortedByOffset(slots) && Periodic(tasks, hp)
  }

  /** Slot i of round r starts task t within [mT, mT + D - wcet]. */
  ghost predicate SlotInWindow(slots: seq<TtSlot>, jobs: seq<Job>, tasks: seq<ClassifiedTask>, h: nat, t: nat, m: nat,
                               r: nat, i: nat)
    requires i < |slots| == |jobs| && t < |tasks|
  {
    && jobs[i].task == t
    && m * tasks[t].periodUs <= SlotAt(slots, h, r, i)
    && SlotAt(slots, h, r, i) + tasks[t].wcetUs <= m * tasks[t].periodUs + tasks[t].deadlineUs
  }

  /** Firing n starts task t within [mT, mT + D - wcet]. */
  ghost predicate StartsInWindow(slots: seq<TtSlot>, jobs: seq<Job>, tasks: seq<ClassifiedTask>, h: nat, t: nat,
                                 m: nat, n: nat)
    requires slots != [] && |jobs| == |slots| && t < |tasks|
  {
    SlotInWindow(slots, jobs, tasks, h, t, m, n / |slots|, n % |slots|)
  }

  ghost predicate OncePerWindow(slots: seq<TtSlot>, jobs: seq<Job>, tasks: seq<ClassifiedTask>, h: nat, t: nat, m: nat)
    requires slots != [] && |jobs| == |slots| && t < |tasks|
  {
    exists n: nat :: StartsInWindow(slots, jobs, tasks, h, t, m, n) &&
      forall n': nat :: StartsInWindow(slots, jobs, tasks, h, t, m, n') ==> n' == n
  }

  // ---- arithmetic of rounds and windows ----

  lemma WindowStart(r: nat, reps: nat, k: nat, p: nat, hp: nat)
    requires hp == reps * p
    ensures (r * reps + k) * p == r * hp + k * p
  {
    assert r * (reps * p) == r * reps * p;
  }

  lemma SameWindow(m: nat, m': nat, p: nat, x: nat)
    requires m * p <= x < m * p + p && m' * p <= x < m' * p + p
    ensures m == m'
  {
    assert m < m' ==> (m + 1) * p <= m' * p;
    assert m' < m ==> (m' + 1) * p <= m * p;
  }

  /** Windows of different instances do not meet, so a start inside one tells round and instance. */
  lemma InstanceOf(r: nat, reps: nat, k: nat, p: nat, hp: nat, off: nat, m: nat)
    requires hp == reps * p && k < reps
    requires k * p <= off < k * p + p
    requires m * p <= r * hp + off < m * p + p
    ensures m == r * reps + k && m / reps == r && m % reps == k
  {
    WindowStart(r, reps, k, p, hp);
    SameWindow(m, r * reps + k, p, r * hp + off);
    DivUnique(m, r, k, reps);
  }

  lemma RoundOrder(n: nat, n': nat, K: nat)
    requires K > 0 && n < n'
    ensures n / K < n' / K || (n / K == n' / K && n % K < n' % K)
  {
    var r, r' := n / K, n' / K;
    assert n == r * K + n % K && n' == r' * K + n' % K;
    assert r' < r ==> (r' + 1) * K <= r * K;
  }

  lemma RoundAndIndex(n: nat, K: nat)
    requires K > 0
    ensures n == n / K * K + n % K
  {
  }

  lemma LaterRound(r: nat, r': nat, hp: nat)
    requires r < r'
    ensures r * hp + hp <= r' * hp
  {
    assert (r + 1) * hp <= r' * hp;
  }

  /** The table repeats with `h`, a positive multiple of the CPU's own hyperperiod. */
  predicate Cycle(hp: nat, h: nat) {
    Divides(hp, h) && h > 0
  }

  lemma CycleFacts(t: ClassifiedTask, hp: nat, h: nat)
    requires t.periodUs > 0 && Divides(t.periodUs, hp) && Cycle(hp, h)
    ensures h == Repeats(t, h) * t.periodUs && 0 < Repeats(t, hp) <= Repeats(t, h) && hp <= h
    ensures Repeats(t, hp) == Repeats(t, h) <==> hp == h
  {
    var p := t.periodUs;
    DividesTrans(p, hp, h);
    Quotient(p, hp);
    Quotient(p, h);
    Quotient(hp, h);
    assert Repeats(t, h) < Repeats(t, hp) ==> (Repeats(t, h) + 1) * p <= Repeats(t, hp) * p;
  }

  /** Window m of the task falls into the part of the cycle that the CPU's own plan fills. */
  predicate Slotted(t: ClassifiedTask, hp: nat, h: nat, m: nat) {
    Repeats(t, h) > 0 && m % Repeats(t, h) < Repeats(t, hp)
  }

  // ---- firings ----

  /** Slot i runs instance jobs[i].k of its task inside that instance's window. */
  lemma SlotFacts(slots: seq<TtSlot>, jobs: seq<Job>, tasks: seq<ClassifiedTask>, hp: nat, cpu: int, i: nat)
    requires Planned(slots, jobs, tasks, hp, cpu) && i < |slots|
    ensures jobs[i].task < |tasks|
    ensures var t, k, off := tasks[jobs[i].task], jobs[i].k, slots[i].offsetUs;
            && 0 < t.wcetUs == slots[i].durationUs && t.deadlineUs <= t.periodUs
            && k * t.periodUs <= off && off + t.wcetUs <= k * t.periodUs + t.deadlineUs
            && off + t.wcetUs <= hp
            && k < Repeats(t, hp) && hp == Repeats(t, hp) * t.periodUs
  {
    assert ValidJob(tasks, hp, jobs[i]) && ServesJob(slots[i], tasks, hp, cpu, jobs[i]);
    Quotient(tasks[jobs[i].task].periodUs, hp);
  }

  /** The instance of a task in window m has a slot. */
  lemma SlotOfInstance(slots: seq<TtSlot>, jobs: seq<Job>, tasks: seq<ClassifiedTask>, hp: nat, cpu: int, t: nat,
                       k: nat) returns (i: nat)
    requires Planned(slots, jobs, tasks, hp, cpu) && t < |tasks| && k < Repeats(tasks[t], hp)
    ensures i < |slots| && jobs[i] == Job(t, k)
    ensures forall j :: 0 <= j < |slots| && jobs[j] == Job(t, k) ==> j == i
  {
    assert ValidJob(tasks, hp, Job(t, k));
    i :| 0 <= i < |jobs| && jobs[i] == Job(t, k);
  }

  /** One pair of round and slot index is one firing number. */
  lemma OneFiring(slots: seq<TtSlot>, jobs: seq<Job>, tasks: seq<ClassifiedTask>, h: nat, t: nat, m: nat, r: nat,
                  i: nat)
    requires |slots| == |jobs| && t < |tasks|
    requires i < |slots| && SlotInWindow(slots, jobs, tasks, h, t, m, r, i)
    requires forall r': nat, i': nat :: i' < |slots| && SlotInWindow(slots, jobs, tasks, h, t, m, r', i') ==>
               r' == r && i' == i
    ensures OncePerWindow(slots, jobs, tasks, h, t, m)
  {
    var K := |slots|;
    var n := r * K + i;
    DivUnique(n, r, i, K);
    assert StartsInWindow(slots, jobs, tasks, h, t, m, n);
    forall n': nat | StartsInWindow(slots, jobs, tasks, h, t, m, n')
      ensures n' == n
    {
      var r', i' := n' / K, n' % K;
      RoundAndIndex(n', K);
      assert SlotInWindow(slots, jobs, tasks, h, t, m, r', i');
    }
  }

  lemma OneSlotInWindow(slots: seq<TtSlot>, jobs: seq<Job>, tasks: seq<ClassifiedTask>, hp: nat, cpu: int, h: nat,
                        t: nat, m: nat)
    returns (r: nat, i: nat)
    requires Planned(slots, jobs, tasks, hp, cpu) && Cycle(hp, h) && t < |tasks| && Slotted(tasks[t], hp, h, m)
    ensures i < |slots| && SlotInWindow(slots, jobs, tasks, h, t, m, r, i)
    ensures forall r': nat, i': nat :: i' < |slots| && SlotInWindow(slots, jobs, tasks, h, t, m, r', i') ==>
              r' == r && i' == i
  {
    var reps := Repeats(tasks[t], h);
    r := m / reps;
    RoundAndIndex(m, reps);
    i := SlotOfInstance(slots, jobs, tasks, hp, cpu, t, m % reps);
    StartsOnTime(slots, jobs, tasks, hp, cpu, h, r, i, m);
    forall r': nat, i': nat | i' < |slots| && SlotInWindow(slots, jobs, tasks, h, t, m, r', i')
      ensures r' == r && i' == i
    {
      StartDetermines(slots, jobs, tasks, hp, cpu, h, t, m, r', i');
    }
  }

  /** In round r, slot i starts its task in window r * (h/T) + k. */
  lemma StartsOnTime(slots: seq<TtSlot>, jobs: seq<Job>, tasks: seq<ClassifiedTask>, hp: nat, cpu: int, h: nat,
                     r: nat, i: nat, m: nat)
    requires Planned(slots, jobs, tasks, hp, cpu) && Cycle(hp, h) && i < |slots|
    requires jobs[i].task < |tasks| && m == r * Repeats(tasks[jobs[i].task], h) + jobs[i].k
    ensures SlotInWindow(slots, jobs, tasks, h, jobs[i].task, m, r, i)
  {
    SlotFacts(slots, jobs, tasks, hp, cpu, i);
    var t := tasks[jobs[i].task];
    CycleFacts(t, hp, h);
    WindowStart(r, Repeats(t, h), jobs[i].k, t.periodUs, h);
  }

  /** Conversely a start inside window m is that of the window's own instance, which then has one. */
  lemma StartDetermines(slots: seq<TtSlot>, jobs: seq<Job>, tasks: seq<ClassifiedTask>, hp: nat, cpu: int, h: nat,
                        t: nat, m: nat, r: nat, i: nat)
    requires Planned(slots, jobs, tasks, hp, cpu) && Cycle(hp, h) && t < |tasks| && i < |slots|
    requires SlotInWindow(slots, jobs, tasks, h, t, m, r, i)
    ensures Slotted(tasks[t], hp, h, m)
    ensures r == m / Repeats(tasks[t], h) && jobs[i] == Job(t, m % Repeats(tasks[t], h))
  {
    SlotFacts(slots, jobs, tasks, hp, cpu, i);
    CycleFacts(tasks[t], hp, h);
    InstanceOf(r, Repeats(tasks[t], h), jobs[i].k, tasks[t].periodUs, h, slots[i].offsetUs, m);
  }

  lemma StartIsSlotted(slots: seq<TtSlot>, jobs: seq<Job>, tasks: seq<ClassifiedTask>, hp: nat, cpu: int, h: nat,
                       t: nat, m: nat, n: nat)
    requires Planned(slots, jobs, tasks, hp, cpu) && Cycle(hp, h) && t < |tasks|
    ensures StartsInWindow(slots, jobs, tasks, h, t, m, n) ==> Slotted(tasks[t], hp, h, m)
  {
    var r, i := n / |slots|, n % |slots|;
    if SlotInWindow(slots, jobs, tasks, h, t, m, r, i) {
      StartDetermines(slots, jobs, tasks, hp, cpu, h, t, m, r, i);
    }
  }

  /**
   * The table is published with the node-wide hyperperiod `h`, a multiple of the CPU's own `hp`.
   * Window m of a task gets exactly one start if it falls into the first `hp` of its cycle, else none.
   */
  lemma WindowServedIff(slots: seq<TtSlot>, jobs: seq<Job>, tasks: seq<ClassifiedTask>, hp: nat, cpu: int, h: nat,
                        t: nat, m: nat)
    requires Planned(slots, jobs, tasks, hp, cpu) && Cycle(hp, h) && t < |tasks|
    ensures OncePerWindow(slots, jobs, tasks, h, t, m) <==> Slotted(tasks[t], hp, h, m)
    ensures (exists n: nat :: StartsInWindow(slots, jobs, tasks, h, t, m, n)) <==> Slotted(tasks[t], hp, h, m)
  {
    forall n: nat { StartIsSlotted(slots, jobs, tasks, hp, cpu, h, t, m, n); }
    if Slotted(tasks[t], hp, h, m) {
      var r, i := OneSlotInWindow(slots, jobs, tasks, hp, cpu, h, t, m);
      OneFiring(slots, jobs, tasks, h, t, m, r, i);
    }
  }

  /** With the CPU's own hyperperiod every period window of every task gets exactly one start. */
  lemma OncePerPeriod(slots: seq<TtSlot>, jobs: seq<Job>, tasks: seq<ClassifiedTask>, hp: nat, cpu: int, t: nat, m: nat)
    requires Planned(slots, jobs, tasks, hp, cpu) && t < |tasks| && tasks[t].periodUs > 0
    ensures OncePerWindow(slots, jobs, tasks, hp, t, m)
  {
    MultipleDivides(1, hp);
    CycleFacts(tasks[t], hp, hp);
    WindowServedIff(slots, jobs, tasks, hp, cpu, hp, t, m);
  }

  /** Execution windows never overlap, also across wraps of the cycle. */
  lemma NeverOverlap(slots: seq<TtSlot>, jobs: seq<Job>, tasks: seq<ClassifiedTask>, hp: nat, cpu: int, h: nat,
                     n: nat, n': nat)
    requires Planned(slots, jobs, tasks, hp, cpu) && Cycle(hp, h) && n < n'
    ensures FireAt(slots, h, n) + slots[n % |slots|].durationUs <= FireAt(slots, h, n')
  {
    RoundOrder(n, n', |slots|);
    SlotsApart(slots, jobs, tasks, hp, cpu, h, n / |slots|, n % |slots|, n' / |slots|, n' % |slots|);
  }

  lemma SlotsApart(slots: seq<TtSlot>, jobs: seq<Job>, tasks: seq<ClassifiedTask>, hp: nat, cpu: int, h: nat,
                   r: nat, i: nat, r': nat, i': nat)
    requires Planned(slots, jobs, tasks, hp, cpu) && Cycle(hp, h) && i < |slots| && i' < |slots|
    requires r < r' || (r == r' && i < i')
    ensures SlotAt(slots, h, r, i) + slots[i].durationUs <= SlotAt(slots, h, r', i')
  {
    SlotFacts(slots, jobs, tasks, hp, cpu, i);
    if r < r' {
      Quotient(hp, h);
      LaterRound(r, r', h);
    } else {
      SlotFacts(slots, jobs, tasks, hp, cpu, i');
      assert Separated(slots[i], slots[i']);
    }
  }

  /** Every period window is served exactly when the published hyperperiod is the CPU's own. */
  lemma OncePerPeriodIff(slots: seq<TtSlot>, jobs: seq<Job>, tasks: seq<ClassifiedTask>, hp: nat, cpu: int, h: nat,
                         t: nat)
    requires Planned(slots, jobs, tasks, hp, cpu) && Cycle(hp, h)
    requires t < |tasks| && tasks[t].periodUs > 0
    ensures (forall m: nat :: OncePerWindow(slots, jobs, tasks, h, t, m)) <==> h == hp
  {
    if h == hp {
      forall m: nat ensures OncePerWindow(slots, jobs, tasks, h, t, m) {
        OncePerPeriod(slots, jobs, tasks, hp, cpu, t, m);
      }
    } else {
      MissedWindow(slots, jobs, tasks, hp, cpu, h, t);
    }
  }

  /** With a longer table cycle the first window after the CPU's own hyperperiod stays empty. */
  lemma MissedWindow(slots: seq<TtSlot>, jobs: seq<Job>, tasks: seq<ClassifiedTask>, hp: nat, cpu: int, h: nat, t: nat)
    requires Planned(slots, jobs, tasks, hp, cpu) && Cycle(hp, h) && h != hp
    requires t < |tasks| && tasks[t].periodUs > 0
    ensures !OncePerWindow(slots, jobs, tasks, h, t, Repeats(tasks[t], hp))
  {
    CycleFacts(tasks[t], hp, h);
    DivUnique(Repeats(tasks[t], hp), 0, Repeats(tasks[t], hp), Repeats(tasks[t], h));
    WindowServedIff(slots, jobs, tasks, hp, cpu, h, t, Repeats(tasks[t], hp));
  }

  // ---- every table the planner emits ----

  ghost predicate Constrained(tasks: seq<ClassifiedTask>) {
    forall t :: t in tasks && t.periodUs > 0 ==> 0 < t.wcetUs && t.deadlineUs <= t.periodUs
  }

  /** The TT part of a partition with TT work is a plan over the CPU's own hyperperiod. */
  lemma TtSoundIsPlanned(slots: seq<TtSlot>, tasks: seq<ClassifiedTask>, cpu: int) returns (jobs: seq<Job>)
    requires TtSound(slots, tasks, cpu) && tasks != [] && Constrained(tasks)
    ensures Planned(slots, jobs, tasks, LcmOf(Periods(tasks)), cpu)
  {
    var hp := LcmOf(Periods(tasks));
    jobs :| LaidOut(slots, jobs, tasks, cpu);
    TtWorkHasSlots(slots, tasks, cpu);
    LcmOfIsLeast(Periods(tasks));
    forall i | 0 <= i < |tasks| && tasks[i].periodUs > 0
      ensures 0 < tasks[i].wcetUs && tasks[i].deadlineUs <= tasks[i].periodUs && Divides(tasks[i].periodUs, hp)
    {
      assert tasks[i] in tasks;
      PeriodDividesLcm(tasks, i);
    }
  }

  /**
   * For every table the planner emits and every CPU with TT work: the timer that repeats
   * the partition with the published hyperperiod serves every window of every task
   * exactly when the CPU's own hyperperiod is the node's.
   */
  lemma TableServedIff(table: ScheduleTable, tt: seq<ClassifiedTask>, cbs: seq<ClassifiedTask>, ttCpu: seq<int>,
                       cbsCpu: seq<int>,
                       p: Partition) returns (jobs: seq<Job>)
    requires TableSound(table, tt, cbs, ttCpu, cbsCpu) && Constrained(tt)
    requires p in table.partitions && Collect(tt, ttCpu, p.cpu) != []
    ensures var on := Collect(tt, ttCpu, p.cpu);
            && Planned(p.ttSlots, jobs, on, LcmOf(Periods(on)), p.cpu)
            && Cycle(LcmOf(Periods(on)), table.hyperperiodUs)
            && forall t: nat :: t < |on| && on[t].periodUs > 0 ==>
                 ((forall m: nat :: OncePerWindow(p.ttSlots, jobs, on, table.hyperperiodUs, t, m)) <==>
                  LcmOf(Periods(on)) == table.hyperperiodUs)
  {
    var on := Collect(tt, ttCpu, p.cpu);
    CollectContents(tt, ttCpu, p.cpu);
    assert forall t :: t in on ==> t in tt;
    jobs := TtSoundIsPlanned(p.ttSlots, on, p.cpu);
    PublishedHyperperiod(table.hyperperiodUs, on, tt);
    forall t: nat | t < |on| && on[t].periodUs > 0
      ensures (forall m: nat :: OncePerWindow(p.ttSlots, jobs, on, table.hyperperiodUs, t, m)) <==>
              LcmOf(Periods(on)) == table.hyperperiodUs
    {
      OncePerPeriodIff(p.ttSlots, jobs, on, LcmOf(Periods(on)), p.cpu, table.hyperperiodUs, t);
    }
  }

  /** The published hyperperiod is a positive multiple of every CPU's own. */
  lemma PublishedHyperperiod(h: nat, on: seq<ClassifiedTask>, tt: seq<ClassifiedTask>)
    requires h == if Periods(tt) == [] then 0 else LcmOf(Periods(tt))
    requires (forall x :: x in on ==> x in tt) && Periods(on) != []
    ensures Cycle(LcmOf(Periods(on)), h)
  {
    SubsetLcm(on, tt);
    LcmOfIsLeast(Periods(tt));
    assert Periods(on)[0] in Periods(on);
    var x :| x in on && x.periodUs == Periods(on)[0] > 0;
    assert x in tt && x.periodUs in Periods(tt);
  }

  // ---- the timer's own slot list and nanosecond targets ----

  /** Wake-up n of the timer starts task t within [mT, mT + D - wcet] after `start`, in nanoseconds. */
  ghost predicate WakesInWindow(entries: seq<SlotEntry>, jobs: seq<Job>, tasks: seq<ClassifiedTask>, h: nat,
                                start: nat, t: nat, m: nat, n: nat)
    requires entries != [] && |jobs| == |entries| && t < |tasks|
  {
    && jobs[n % |entries|].task == t
    && entries[n % |entries|].taskName == tasks[t].taskId
    && start + m * tasks[t].periodUs * 1000 <= Target(entries, h * 1000, start, n)
    && Target(entries, h * 1000, start, n) + tasks[t].wcetUs * 1000 <=
       start + (m * tasks[t].periodUs + tasks[t].deadlineUs) * 1000
  }

  ghost predicate WakesOnce(entries: seq<SlotEntry>, jobs: seq<Job>, tasks: seq<ClassifiedTask>, h: nat, start: nat,
                            t: nat, m: nat)
    requires entries != [] && |jobs| == |entries| && t < |tasks|
  {
    exists n: nat :: WakesInWindow(entries, jobs, tasks, h, start, t, m, n) &&
      forall n': nat :: WakesInWindow(entries, jobs, tasks, h, start, t, m, n') ==> n' == n
  }

  lemma WakeIsStart(slots: seq<TtSlot>, jobs: seq<Job>, tasks: seq<ClassifiedTask>, hp: nat, cpu: int,
                    entries: seq<SlotEntry>, hashOf: string -> nat, h: nat, start: nat, t: nat, m: nat, n: nat)
    requires Planned(slots, jobs, tasks, hp, cpu) && t < |tasks| && EntriesOf(slots, entries, hashOf)
    ensures WakesInWindow(entries, jobs, tasks, h, start, t, m, n) <==> StartsInWindow(slots, jobs, tasks, h, t, m, n)
  {
    TargetIsFireAt(slots, entries, hashOf, h, start, n);
    assert ServesJob(slots[n % |slots|], tasks, hp, cpu, jobs[n % |slots|]);
  }

  /** Sorting the entries once more inside the timer keeps the plan. */
  lemma TimerKeepsPlan(slots: seq<TtSlot>, jobs: seq<Job>, tasks: seq<ClassifiedTask>, hp: nat, cpu: int,
                       entries: seq<SlotEntry>, hashOf: string -> nat, order: seq<nat>)
    requires Planned(slots, jobs, tasks, hp, cpu) && IsPermutation(order, |slots|) && EntriesOf(slots, entries, hashOf)
    requires OffsetsAscending(Permute(entries, order))
    ensures Planned(Permute(slots, order), Permute(jobs, order), tasks, hp, cpu)
    ensures EntriesOf(Permute(slots, order), Permute(entries, order), hashOf)
  {
    LayoutPermute(slots, jobs, tasks, hp, cpu, order);
    var ss, es := Permute(slots, order), Permute(entries, order);
    forall i, j | 0 <= i < j < |ss|
      ensures ss[i].offsetUs <= ss[j].offsetUs
    {
      assert es[i].offsetNs <= es[j].offsetNs;
    }
  }

  /** The windows the timer serves: exactly one wake-up in each that has a slot, and none in the others. */
  ghost predicate ServesExactly(entries: seq<SlotEntry>, jobs: seq<Job>, tasks: seq<ClassifiedTask>, hp: nat, h: nat,
                                start: nat)
    requires entries != [] && |jobs| == |entries|
  {
    forall t: nat, m: nat :: t < |tasks| ==> WindowExact(entries, jobs, tasks, hp, h, start, t, m)
  }

  ghost predicate WindowExact(entries: seq<SlotEntry>, jobs: seq<Job>, tasks: seq<ClassifiedTask>, hp: nat, h: nat,
                              start: nat, t: nat, m: nat)
    requires entries != [] && |jobs| == |entries| && t < |tasks|
  {
    if Slotted(tasks[t], hp, h, m) then WakesOnce(entries, jobs, tasks, h, start, t, m)
    else forall n: nat :: !WakesInWindow(entries, jobs, tasks, h, start, t, m, n)
  }

  /** No wake-up comes before the execution times of the earlier ones have passed. */
  ghost predicate NeverEarly(entries: seq<SlotEntry>, h: nat, start: nat)
    requires entries != []
  {
    forall n: nat, n': nat :: n < n' ==>
      Target(entries, h * 1000, start, n) + entries[n % |entries|].durationNs <= Target(entries, h * 1000, start, n')
  }

  /**
   * The timer of a planned CPU whose table repeats with `h` wakes each task exactly once in every
   * period window that falls into the CPU's own part of the cycle, and in no other, for every m.
   */
  lemma TimerServesPlan(slots: seq<TtSlot>, jobs: seq<Job>, tasks: seq<ClassifiedTask>, hp: nat, cpu: int,
                        entries: seq<SlotEntry>, hashOf: string -> nat, order: seq<nat>, h: nat, start: nat)
    requires Planned(slots, jobs, tasks, hp, cpu) && Cycle(hp, h)
    requires IsPermutation(order, |slots|) && EntriesOf(slots, entries, hashOf)
    requires OffsetsAscending(Permute(entries, order))
    ensures var es, js := Permute(entries, order), Permute(jobs, order);
            ServesExactly(es, js, tasks, hp, h, start) && NeverEarly(es, h, start)
  {
    var ss, js, es := Permute(slots, order), Permute(jobs, order), Permute(entries, order);
    TimerKeepsPlan(slots, jobs, tasks, hp, cpu, entries, hashOf, order);
    forall t: nat, m: nat | t < |tasks| ensures WindowExact(es, js, tasks, hp, h, start, t, m) {
      ExactWindow(ss, js, tasks, hp, cpu, es, hashOf, h, start, t, m);
    }
    forall n: nat, n': nat | n < n'
      ensures Target(es, h * 1000, start, n) + es[n % |es|].durationNs <= Target(es, h * 1000, start, n')
    {
      NeverOverlap(ss, js, tasks, hp, cpu, h, n, n');
      TargetIsFireAt(ss, es, hashOf, h, start, n);
      TargetIsFireAt(ss, es, hashOf, h, start, n');
    }
  }

  lemma ExactWindow(slots: seq<TtSlot>, jobs: seq<Job>, tasks: seq<ClassifiedTask>, hp: nat, cpu: int,
                    entries: seq<SlotEntry>, hashOf: string -> nat, h: nat, start: nat, t: nat, m: nat)
    requires Planned(slots, jobs, tasks, hp, cpu) && Cycle(hp, h) && t < |tasks| && EntriesOf(slots, entries, hashOf)
    ensures WindowExact(entries, jobs, tasks, hp, h, start, t, m)
  {
    WindowServedIff(slots, jobs, tasks, hp, cpu, h, t, m);
    forall n: nat
      ensures WakesInWindow(entries, jobs, tasks, h, start, t, m, n) <==> StartsInWindow(slots, jobs, tasks, h, t, m, n)
    {
      WakeIsStart(slots, jobs, tasks, hp, cpu, entries, hashOf, h, start, t, m, n);
    }
  }

  // ---- from wake-ups to the counters the tasks wait on ----

  type Timers = map<nat, seq<SlotEntry>>

  /** How often CPU `c` appears in the log. */
  function Count(log: seq<nat>, c: nat): nat {
    if log == [] then 0 else Count(log[..|log| - 1], c) + if log[|log| - 1] == c then 1 else 0
  }

  /** Any interleaving of the CPUs' timers is a log of CPUs with slots: each occurrence is that CPU's next firing. */
  predicate IsLog(timers: Timers, log: seq<nat>) {
    forall c :: c in log ==> c in timers && timers[c] != []
  }

  /** The task woken by the firing that follows the log on CPU `c`. */
  function NextHash(timers: Timers, log: seq<nat>, c: nat): nat
    requires c in timers && timers[c] != []
  {
    timers[c][Count(log, c) % |timers[c]|].taskHash
  }

  /** The shared counters after the firings of the log. */
  function CountersAfter(mapping: map<nat, nat>, timers: Timers, ticks: seq<u32>, log: seq<nat>): (r: seq<u32>)
    requires IsLog(timers, log)
    ensures |r| == |ticks|
  {
    if log == [] then ticks
    else
      var init, c := log[..|log| - 1], log[|log| - 1];
      assert c in log && IsLog(timers, init);
      Woken(mapping, CountersAfter(mapping, timers, ticks, init), NextHash(timers, init, c))
  }

  /** How many of the first `n` firings of one timer are for the task. */
  function Firings(es: seq<SlotEntry>, taskHash: nat, n: nat): nat
    requires es != []
  {
    if n == 0 then 0 else Firings(es, taskHash, n - 1) + if es[(n - 1) % |es|].taskHash == taskHash then 1 else 0
  }

  /** Different tasks have different hashes. */
  ghost predicate HashesApart(tasks: seq<ClassifiedTask>, hashOf: string -> nat) {
    forall i, j :: 0 <= i < j < |tasks| ==> hashOf(tasks[i].taskId) != hashOf(tasks[j].taskId)
  }

  lemma {:induction false} FiringsInRound(es: seq<SlotEntry>, jobs: seq<Job>, x: nat, t: nat, n: nat)
    requires es != [] && |jobs| == |es| && n <= |es|
    requires forall i :: 0 <= i < |es| ==> (es[i].taskHash == x <==> jobs[i].task == t)
    ensures Firings(es, x, n) == |TaskJobs(jobs[..n], t)|
  {
    if n > 0 {
      FiringsInRound(es, jobs, x, t, n - 1);
      DivUnique(n - 1, 0, n - 1, |es|);
      assert jobs[..n][..n - 1] == jobs[..n - 1];
    }
  }

  lemma {:induction false} FiringsAcross(es: seq<SlotEntry>, x: nat, r: nat, i: nat)
    requires es != [] && i <= |es|
    ensures r * |es| >= 0 && Firings(es, x, r * |es| + i) == Firings(es, x, r * |es|) + Firings(es, x, i)
  {
    if i > 0 {
      FiringsAcross(es, x, r, i - 1);
      DivUnique(r * |es| + i - 1, r, i - 1, |es|);
      DivUnique(i - 1, 0, i - 1, |es|);
    }
  }

  lemma {:induction false} FiringsOfRounds(es: seq<SlotEntry>, x: nat, r: nat)
    requires es != []
    ensures r * |es| >= 0 && Firings(es, x, r * |es|) == r * Firings(es, x, |es|)
  {
    if r > 0 {
      FiringsOfRounds(es, x, r - 1);
      FiringsAcross(es, x, r - 1, |es|);
      RoundsStep(r, |es|);
      RoundsStep(r, Firings(es, x, |es|));
    }
  }

  lemma RoundsStep(r: nat, k: nat)
    requires r > 0
    ensures r * k == (r - 1) * k + k
  {
  }

  /** In k rounds of a planned CPU's table each task fires k * hp/T times. */
  lemma RoundsRepeat(slots: seq<TtSlot>, jobs: seq<Job>, tasks: seq<ClassifiedTask>, hp: nat, cpu: int,
                     es: seq<SlotEntry>, hashOf: string -> nat, t: nat, k: nat, n: nat)
    requires Planned(slots, jobs, tasks, hp, cpu) && EntriesOf(slots, es, hashOf) && HashesApart(tasks, hashOf)
    requires t < |tasks| && n == k * |es|
    ensures Firings(es, hashOf(tasks[t].taskId), n) == k * Repeats(tasks[t], hp)
  {
    var x := hashOf(tasks[t].taskId);
    forall i | 0 <= i < |es| ensures es[i].taskHash == x <==> jobs[i].task == t {
      assert ValidJob(tasks, hp, jobs[i]) && ServesJob(slots[i], tasks, hp, cpu, jobs[i]);
    }
    FiringsInRound(es, jobs, x, t, |es|);
    assert jobs[..|es|] == jobs;
    LayoutRepeats(slots, jobs, tasks, hp, cpu, t);
    FiringsOfRounds(es, x, k);
  }

  /** Slots of the task are on no other CPU. */
  ghost predicate OnlyOn(timers: Timers, taskHash: nat, cpu: nat) {
    forall c, e :: c in timers && e in timers[c] && e.taskHash == taskHash ==> c == cpu
  }

  /** One more firing, of whichever CPU, is one more for the task exactly if it wakes the task. */
  lemma FiringsNext(timers: Timers, log: seq<nat>, init: seq<nat>, c: nat, h: nat, cpu: nat)
    requires log != [] && init == log[..|log| - 1] && c == log[|log| - 1]
    requires c in timers && timers[c] != [] && cpu in timers && timers[cpu] != [] && OnlyOn(timers, h, cpu)
    ensures Firings(timers[cpu], h, Count(log, cpu)) ==
            Firings(timers[cpu], h, Count(init, cpu)) + if NextHash(timers, init, c) == h then 1 else 0
  {
    var e := timers[c][Count(init, c) % |timers[c]|];
    assert e in timers[c];
  }

  /** However the timers interleave, a mapped task's counter counts its own CPU's firings for it, modulo 2^32. */
  lemma {:induction false} CounterCountsFirings(mapping: map<nat, nat>, timers: Timers, ticks: seq<u32>,
                                                log: seq<nat>, h: nat, cpu: nat)
    requires IsLog(timers, log) && cpu in timers && timers[cpu] != [] && OnlyOn(timers, h, cpu)
    requires InjectiveMap(mapping) && h in mapping && mapping[h] < |ticks|
    ensures CountersAfter(mapping, timers, ticks, log)[mapping[h]] ==
            (ticks[mapping[h]] + Firings(timers[cpu], h, Count(log, cpu))) % TWO_32
  {
    var cell := mapping[h];
    if log == [] {
      DivUnique(ticks[cell], 0, ticks[cell], TWO_32);
    } else {
      var init, c := log[..|log| - 1], log[|log| - 1];
      assert c in log && IsLog(timers, init);
      var before, f := CountersAfter(mapping, timers, ticks, init), Firings(timers[cpu], h, Count(init, cpu));
      CounterCountsFirings(mapping, timers, ticks, init, h, cpu);
      FiringsNext(timers, log, init, c, h, cpu);
      Inc32Mod(ticks[cell] + f);
      WokenAt(mapping, before, NextHash(timers, init, c), h);
    }
  }

  lemma WokenAt(mapping: map<nat, nat>, ticks: seq<u32>, x: nat, h: nat)
    requires InjectiveMap(mapping) && h in mapping && mapping[h] < |ticks|
    ensures Woken(mapping, ticks, x)[mapping[h]] == if x == h then Inc32(ticks[mapping[h]]) else ticks[mapping[h]]
  {
  }

  lemma Inc32Mod(x: nat)
    ensures Inc32(x % TWO_32) == (x + 1) % TWO_32
  {
    var q, r := x / TWO_32, x % TWO_32;
    if r + 1 < TWO_32 {
      DivUnique(x + 1, q, r + 1, TWO_32);
    } else {
      DivUnique(x + 1, q + 1, 0, TWO_32);
    }
  }

  /** A task left without a cell is never woken. */
  lemma UnmappedNeverWoken(mapping: map<nat, nat>, timers: Timers, ticks: seq<u32>, log: seq<nat>, cpu: nat)
    requires IsLog(timers, log) && cpu in timers && timers[cpu] != [] && NextHash(timers, log, cpu) !in mapping
    ensures IsLog(timers, log + [cpu])
    ensures CountersAfter(mapping, timers, ticks, log + [cpu]) == CountersAfter(mapping, timers, ticks, log)
  {
    assert (log + [cpu])[..|log|] == log;
  }

  /** The cell of a mapped task. */
  function Cell(mapping: map<nat, nat>, h: nat): nat {
    if h in mapping then mapping[h] else MAX_TASKS
  }

  /**
   * With at most 32 tasks in the published table, the one firing in each served period window raises
   * the counter of the task's own cell and no other, whatever the other CPUs' timers did before.
   */
  lemma WindowRaisesCounter(slots: seq<TtSlot>, jobs: seq<Job>, tasks: seq<ClassifiedTask>, hp: nat, cpu: nat,
                            timers: Timers, hashOf: string -> nat, h: nat, start: nat, t: nat, m: nat,
                            table: seq<SlotEntry>, prev: map<nat, nat>, mapping: map<nat, nat>, ticks: seq<u32>)
    returns (n: nat)
    requires Planned(slots, jobs, tasks, hp, cpu) && Cycle(hp, h) && t < |tasks| && Slotted(tasks[t], hp, h, m)
    requires cpu in timers && EntriesOf(slots, timers[cpu], hashOf)
    requires forall e :: e in timers[cpu] ==> e.taskHash in Hashes(table)
    requires Stable(mapping, prev, Hashes(table)) && Filled(mapping, Hashes(table)) && |Hashes(table)| <= MAX_TASKS
    requires |ticks| == MAX_TASKS && forall x :: x in mapping ==> mapping[x] < MAX_TASKS
    ensures WakesInWindow(timers[cpu], jobs, tasks, h, start, t, m, n)
    ensures forall n': nat :: WakesInWindow(timers[cpu], jobs, tasks, h, start, t, m, n') ==> n' == n
    ensures var x := hashOf(tasks[t].taskId);
            x in mapping && forall log :: IsLog(timers, log) && Count(log, cpu) == n ==>
              RaisesCell(mapping, timers, ticks, log, cpu, Cell(mapping, x))
  {
    var entries := timers[cpu];
    ExactWindow(slots, jobs, tasks, hp, cpu, entries, hashOf, h, start, t, m);
    n :| WakesInWindow(entries, jobs, tasks, h, start, t, m, n) &&
      forall n': nat :: WakesInWindow(entries, jobs, tasks, h, start, t, m, n') ==> n' == n;
    AllMappedIff(mapping, prev, Hashes(table));
    var e := entries[n % |entries|];
    assert e in entries;
    assert e.taskHash == hashOf(e.taskName);
    forall log | IsLog(timers, log) && Count(log, cpu) == n
      ensures RaisesCell(mapping, timers, ticks, log, cpu, Cell(mapping, e.taskHash))
    {
      assert (log + [cpu])[..|log|] == log;
    }
  }

  /** The firing of `cpu` that follows the log raises the counter of the cell and no other. */
  ghost predicate RaisesCell(mapping: map<nat, nat>, timers: Timers, ticks: seq<u32>, log: seq<nat>, cpu: nat,
                             cell: nat)
    requires IsLog(timers, log)
  {
    && cell < |ticks| && IsLog(timers, log + [cpu])
    && var before := CountersAfter(mapping, timers, ticks, log);
       CountersAfter(mapping, timers, ticks, log + [cpu]) == before[cell := Inc32(before[cell])]
  }
}
