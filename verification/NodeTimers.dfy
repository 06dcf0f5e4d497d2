/** From an emitted table to all timers of a node: one list of entries, split by CPU, each part with its own timer. */
module NodeTimers {
  import opened Basics
  import opened Sequences
  import opened Divisibility
  import opened SlotPlacement
  import opened CpuAssignment
  import opened Planner
  import opened TimerMaster
  import opened ShmIndex
  import opened EndToEnd

  // ---- splitting by CPU ----

  /** The entries of one CPU, in order. */
  function OnCpu(entries: seq<SlotEntry>, c: nat): seq<SlotEntry> {
    if entries == [] then []
    else
      var n := |entries| - 1;
      OnCpu(entries[..n], c) + if entries[n].cpu == c then [entries[n]] else []
  }

  method SplitByCpu(entries: seq<SlotEntry>) returns (perCpu: Timers)
    ensures forall c :: c in perCpu <==> OnCpu(entries, c) != []
    ensures forall c :: c in perCpu ==> perCpu[c] == OnCpu(entries, c)
  {
    perCpu := map[];
    for i := 0 to |entries|
      invariant forall c :: c in perCpu <==> OnCpu(entries[..i], c) != []
      invariant forall c :: c in perCpu ==> perCpu[c] == OnCpu(entries[..i], c)
    {
      assert entries[..i + 1][..i] == entries[..i];
      var e := entries[i];
      perCpu := perCpu[e.cpu := (if e.cpu in perCpu then perCpu[e.cpu] else []) + [e]];
    }
    assert entries[..|entries|] == entries;
  }

  lemma {:induction false} OnCpuCounts(entries: seq<SlotEntry>, c: nat, e: SlotEntry)
    ensures multiset(OnCpu(entries, c))[e] == if e.cpu == c then multiset(entries)[e] else 0
  {
    if entries != [] {
      var n := |entries| - 1;
      OnCpuCounts(entries[..n], c, e);
      assert entries == entries[..n] + [entries[n]];
    }
  }

  /** Which entries a CPU gets does not depend on their order. */
  lemma OnCpuSame(a: seq<SlotEntry>, b: seq<SlotEntry>, c: nat)
    requires multiset(a) == multiset(b)
    ensures multiset(OnCpu(a, c)) == multiset(OnCpu(b, c))
    ensures OnCpu(a, c) == [] <==> OnCpu(b, c) == []
  {
    forall e ensures multiset(OnCpu(a, c))[e] == multiset(OnCpu(b, c))[e] {
      OnCpuCounts(a, c, e);
      OnCpuCounts(b, c, e);
    }
    assert |OnCpu(a, c)| == |multiset(OnCpu(a, c))| && |OnCpu(b, c)| == |multiset(OnCpu(b, c))|;
  }

  lemma {:induction false} OnCpuConcat(a: seq<SlotEntry>, b: seq<SlotEntry>, c: nat)
    ensures OnCpu(a + b, c) == OnCpu(a, c) + OnCpu(b, c)
  {
    if b == [] {
      assert a + b == a;
    } else {
      var n := |b| - 1;
      OnCpuConcat(a, b[..n], c);
      assert (a + b)[..|a + b| - 1] == a + b[..n];
    }
  }

  lemma {:induction false} OnCpuUniform(entries: seq<SlotEntry>, cpu: nat, c: nat)
    requires forall i :: 0 <= i < |entries| ==> entries[i].cpu == cpu
    ensures OnCpu(entries, c) == if cpu == c then entries else []
  {
    if entries != [] {
      var n := |entries| - 1;
      OnCpuUniform(entries[..n], cpu, c);
      assert entries == entries[..n] + [entries[n]];
    }
  }

  // ---- the entries of a table ----

  /** Every slot lies on its partition's CPU, and partitions are for different CPUs. */
  ghost predicate Assembled(parts: seq<Partition>) {
    && (forall i, k :: 0 <= i < |parts| && 0 <= k < |parts[i].ttSlots| ==> parts[i].ttSlots[k].cpu == parts[i].cpu)
    && (forall i :: 0 <= i < |parts| ==> parts[i].cpu >= 0)
    && (forall i, j :: 0 <= i < j < |parts| ==> parts[i].cpu != parts[j].cpu)
  }

  function SlotEntries(slots: seq<TtSlot>, hashOf: string -> nat): (r: seq<SlotEntry>)
    requires forall k :: 0 <= k < |slots| ==> slots[k].cpu >= 0
    ensures EntriesOf(slots, r, hashOf)
  {
    seq(|slots|, k requires 0 <= k < |slots| => ToEntry(slots[k], hashOf))
  }

  ghost function TableEntries(parts: seq<Partition>, hashOf: string -> nat): seq<SlotEntry>
    requires Assembled(parts)
  {
    if parts == [] then []
    else
      var n := |parts| - 1;
      TableEntries(parts[..n], hashOf) + SlotEntries(parts[n].ttSlots, hashOf)
  }

  method CollectEntries(parts: seq<Partition>, hashOf: string -> nat) returns (entries: seq<SlotEntry>)
    requires Assembled(parts)
    ensures entries == TableEntries(parts, hashOf)
  {
    entries := [];
    for i := 0 to |parts|
      invariant entries == TableEntries(parts[..i], hashOf)
    {
      assert parts[..i + 1][..i] == parts[..i];
      var slots, before := parts[i].ttSlots, entries;
      for k := 0 to |slots|
        invariant entries == before + SlotEntries(slots, hashOf)[..k]
      {
        entries := entries + [ToEntry(slots[k], hashOf)];
      }
      assert SlotEntries(slots, hashOf)[..|slots|] == SlotEntries(slots, hashOf);
    }
    assert parts[..|parts|] == parts;
  }

  lemma SplitLast(parts: seq<Partition>, hashOf: string -> nat, c: nat)
    requires Assembled(parts) && parts != []
    ensures var n := |parts| - 1;
            OnCpu(TableEntries(parts, hashOf), c) ==
            OnCpu(TableEntries(parts[..n], hashOf), c) +
            if parts[n].cpu == c then SlotEntries(parts[n].ttSlots, hashOf) else []
  {
    var n := |parts| - 1;
    OnCpuConcat(TableEntries(parts[..n], hashOf), SlotEntries(parts[n].ttSlots, hashOf), c);
    OnCpuUniform(SlotEntries(parts[n].ttSlots, hashOf), parts[n].cpu, c);
  }

  lemma {:induction false} SplitAbsent(parts: seq<Partition>, hashOf: string -> nat, c: nat)
    requires Assembled(parts) && forall i :: 0 <= i < |parts| ==> parts[i].cpu != c
    ensures OnCpu(TableEntries(parts, hashOf), c) == []
  {
    if parts != [] {
      SplitAbsent(parts[..|parts| - 1], hashOf, c);
      SplitLast(parts, hashOf, c);
    }
  }

  /** A CPU gets back exactly the slots of its partition. */
  lemma {:induction false} SplitUndoesCollect(parts: seq<Partition>, hashOf: string -> nat, i: nat)
    requires Assembled(parts) && i < |parts|
    ensures OnCpu(TableEntries(parts, hashOf), parts[i].cpu) == SlotEntries(parts[i].ttSlots, hashOf)
  {
    var n := |parts| - 1;
    SplitLast(parts, hashOf, parts[i].cpu);
    if i < n {
      SplitUndoesCollect(parts[..n], hashOf, i);
    } else {
      SplitAbsent(parts[..n], hashOf, parts[i].cpu);
    }
  }

  lemma SoundIsAssembled(table: ScheduleTable, tt: seq<ClassifiedTask>, cbs: seq<ClassifiedTask>, ttCpu: seq<int>,
                         cbsCpu: seq<int>)
    requires TableSound(table, tt, cbs, ttCpu, cbsCpu) && forall p :: p in table.partitions ==> p.cpu >= 0
    ensures Assembled(table.partitions)
  {
    var parts := table.partitions;
    forall i | 0 <= i < |parts|
      ensures forall k :: 0 <= k < |parts[i].ttSlots| ==> parts[i].ttSlots[k].cpu == parts[i].cpu {
      assert parts[i] in parts;
      SoundSlots(parts[i].ttSlots, Collect(tt, ttCpu, parts[i].cpu), parts[i].cpu);
    }
  }

  lemma SoundSlots(slots: seq<TtSlot>, tasks: seq<ClassifiedTask>, cpu: int)
    requires TtSound(slots, tasks, cpu)
    ensures forall k :: 0 <= k < |slots| ==> slots[k].cpu == cpu
  {
    forall k | 0 <= k < |slots| ensures slots[k].cpu == cpu {
      var t := SlotsFrom(slots, tasks, cpu, k);
    }
  }

  // ---- all timers of the node ----

  method Sorted(lib: Library, entries: seq<SlotEntry>) returns (r: seq<SlotEntry>)
    requires Lawful(lib)
    ensures OffsetsAscending(r) && multiset(r) == multiset(entries)
  {
    r := SortByOffset(lib, entries);
    ghost var order :| IsPermutation(order, |entries|) && r == Permute(entries, order);
    PermuteMultiset(entries, order);
  }

  /** Split the sorted table and let each CPU's thread sort its part again. */
  method Start(lib: Library, table: seq<SlotEntry>) returns (timers: Timers)
    requires Lawful(lib)
    ensures StartedFrom(timers, table)
  {
    var perCpu := SplitByCpu(table);
    timers := map[];
    var todo := perCpu.Keys;
    while todo != {}
      invariant todo <= perCpu.Keys && timers.Keys == perCpu.Keys - todo
      invariant forall c :: c in timers ==>
                  OffsetsAscending(timers[c]) && multiset(timers[c]) == multiset(OnCpu(table, c))
      decreases |todo|
    {
      var c :| c in todo;
      var sorted := Sorted(lib, perCpu[c]);
      timers := timers[c := sorted];
      todo := todo - {c};
    }
  }

  /** One timer for every CPU with entries, holding just these in ascending order. */
  ghost predicate StartedFrom(timers: Timers, table: seq<SlotEntry>) {
    && (forall c :: c in timers <==> OnCpu(table, c) != [])
    && (forall c :: c in timers ==> OffsetsAscending(timers[c]) && multiset(timers[c]) == multiset(OnCpu(table, c)))
  }

  /**
   * What one CPU's timer does for its TT tasks, from any start on. The entries are those of a plan for the
   * tasks, so each wake-up counts for the task whose slot it is.
   */
  ghost predicate CpuServed(es: seq<SlotEntry>, on: seq<ClassifiedTask>, hp: nat, h: nat, cpu: int,
                            hashOf: string -> nat)
  {
    es != [] && exists slots, jobs ::
                  && Planned(slots, jobs, on, hp, cpu) && EntriesOf(slots, es, hashOf)
                  && AlwaysServes(es, jobs, on, hp, h)
  }

  ghost predicate AlwaysServes(es: seq<SlotEntry>, jobs: seq<Job>, on: seq<ClassifiedTask>, hp: nat, h: nat)
    requires es != [] && |jobs| == |es|
  {
    forall start: nat :: ServesExactly(es, jobs, on, hp, h, start) && NeverEarly(es, h, start)
  }

  /** The timer serves the TT tasks of its CPU, planned over their own hyperperiod. */
  ghost predicate OwnServed(es: seq<SlotEntry>, tt: seq<ClassifiedTask>, ttCpu: seq<int>, h: nat, cpu: int,
                            hashOf: string -> nat)
    requires |tt| == |ttCpu|
  {
    var on := Collect(tt, ttCpu, cpu);
    CpuServed(es, on, LcmOf(Periods(on)), h, cpu, hashOf)
  }

  lemma TimerOfPartition(table: ScheduleTable, tt: seq<ClassifiedTask>, cbs: seq<ClassifiedTask>, ttCpu: seq<int>,
                         cbsCpu: seq<int>, p: Partition, hashOf: string -> nat, es: seq<SlotEntry>)
    requires TableSound(table, tt, cbs, ttCpu, cbsCpu) && Constrained(tt) && Assembled(table.partitions)
    requires p in table.partitions && Collect(tt, ttCpu, p.cpu) != []
    requires multiset(es) == multiset(OnCpu(TableEntries(table.partitions, hashOf), p.cpu)) && OffsetsAscending(es)
    ensures OwnServed(es, tt, ttCpu, table.hyperperiodUs, p.cpu, hashOf)
  {
    var on := Collect(tt, ttCpu, p.cpu);
    var hp, h := LcmOf(Periods(on)), table.hyperperiodUs;
    var jobs := TableServedIff(table, tt, cbs, ttCpu, cbsCpu, p);
    var i :| 0 <= i < |table.partitions| && table.partitions[i] == p;
    SplitUndoesCollect(table.partitions, hashOf, i);
    var entries := SlotEntries(p.ttSlots, hashOf);
    var order := SamePermutation(entries, es);
    var ss, js := Permute(p.ttSlots, order), Permute(jobs, order);
    TimerKeepsPlan(p.ttSlots, jobs, on, hp, p.cpu, entries, hashOf, order);
    forall start: nat ensures ServesExactly(es, js, on, hp, h, start) && NeverEarly(es, h, start) {
      TimerServesPlan(p.ttSlots, jobs, on, hp, p.cpu, entries, hashOf, order, h, start);
    }
    assert Planned(ss, js, on, hp, p.cpu) && EntriesOf(ss, es, hashOf) && AlwaysServes(es, js, on, hp, h);
  }

  /** A CPU has entries exactly if it has a partition with TT work. */
  lemma HasEntriesIff(table: ScheduleTable, tt: seq<ClassifiedTask>, cbs: seq<ClassifiedTask>, ttCpu: seq<int>,
                      cbsCpu: seq<int>, hashOf: string -> nat, c: nat)
    requires TableSound(table, tt, cbs, ttCpu, cbsCpu) && Constrained(tt) && Assembled(table.partitions)
    ensures OnCpu(TableEntries(table.partitions, hashOf), c) != [] <==>
            exists p :: p in table.partitions && p.cpu == c && Collect(tt, ttCpu, p.cpu) != []
  {
    var parts := table.partitions;
    if i: nat :| i < |parts| && parts[i].cpu == c {
      SplitUndoesCollect(parts, hashOf, i);
      assert parts[i] in parts;
      if Collect(tt, ttCpu, c) != [] { TtWorkHasSlots(parts[i].ttSlots, Collect(tt, ttCpu, c), c); }
    } else {
      SplitAbsent(parts, hashOf, c);
    }
  }

  // ---- all timers of an emitted table ----

  /** Every timer serves its CPU's TT tasks, and every TT task's CPU has one. */
  ghost predicate AllServed(timers: Timers, tt: seq<ClassifiedTask>, ttCpu: seq<int>, h: nat, hashOf: string -> nat) {
    && |tt| == |ttCpu|
    && (forall c :: c in timers ==> OwnServed(timers[c], tt, ttCpu, h, c, hashOf))
    && (forall i :: 0 <= i < |tt| ==> ttCpu[i] >= 0 && ttCpu[i] in timers)
  }

  lemma TableServed(table: ScheduleTable, tt: seq<ClassifiedTask>, cbs: seq<ClassifiedTask>, ttCpu: seq<int>,
                    cbsCpu: seq<int>, hashOf: string -> nat, sorted: seq<SlotEntry>, timers: Timers)
    requires TableSound(table, tt, cbs, ttCpu, cbsCpu) && Constrained(tt) && Assembled(table.partitions)
    requires multiset(sorted) == multiset(TableEntries(table.partitions, hashOf)) && StartedFrom(timers, sorted)
    ensures AllServed(timers, tt, ttCpu, table.hyperperiodUs, hashOf)
  {
    var entries := TableEntries(table.partitions, hashOf);
    forall c | c in timers ensures OwnServed(timers[c], tt, ttCpu, table.hyperperiodUs, c, hashOf) {
      OnCpuSame(sorted, entries, c);
      HasEntriesIff(table, tt, cbs, ttCpu, cbsCpu, hashOf, c);
      var p :| p in table.partitions && p.cpu == c && Collect(tt, ttCpu, p.cpu) != [];
      TimerOfPartition(table, tt, cbs, ttCpu, cbsCpu, p, hashOf, timers[c]);
    }
    forall i | 0 <= i < |tt| ensures ttCpu[i] >= 0 && ttCpu[i] in timers {
      assert HasPartition(table.partitions, ttCpu[i]);
      var p :| p in table.partitions && p.cpu == ttCpu[i];
      CollectContents(tt, ttCpu, p.cpu);
      assert tt[i] in Collect(tt, ttCpu, p.cpu);
      OnCpuSame(sorted, entries, p.cpu);
      HasEntriesIff(table, tt, cbs, ttCpu, cbsCpu, hashOf, p.cpu);
    }
  }

  // ---- and the counters of all its tasks ----

  lemma EntryTask(es: seq<SlotEntry>, on: seq<ClassifiedTask>, hp: nat, h: nat, cpu: int, hashOf: string -> nat,
                  e: SlotEntry) returns (t: nat)
    requires CpuServed(es, on, hp, h, cpu, hashOf) && e in es
    ensures t < |on| && e.taskHash == hashOf(on[t].taskId)
  {
    var slots: seq<TtSlot>, jobs: seq<Job> :| Planned(slots, jobs, on, hp, cpu) && EntriesOf(slots, es, hashOf);
    var i :| 0 <= i < |es| && es[i] == e;
    assert ValidJob(on, hp, jobs[i]) && ServesJob(slots[i], on, hp, cpu, jobs[i]);
    t := jobs[i].task;
  }

  lemma TaskEntry(es: seq<SlotEntry>, on: seq<ClassifiedTask>, hp: nat, h: nat, cpu: int, hashOf: string -> nat,
                  t: nat) returns (e: SlotEntry)
    requires CpuServed(es, on, hp, h, cpu, hashOf) && t < |on| && on[t].periodUs > 0
    ensures e in es && e.taskHash == hashOf(on[t].taskId)
  {
    var slots: seq<TtSlot>, jobs: seq<Job> :| Planned(slots, jobs, on, hp, cpu) && EntriesOf(slots, es, hashOf);
    Quotient(on[t].periodUs, hp);
    var i := SlotOfInstance(slots, jobs, on, hp, cpu, t, 0);
    assert ServesJob(slots[i], on, hp, cpu, jobs[i]);
    e := es[i];
  }

  lemma {:induction false} CollectApart(tt: seq<ClassifiedTask>, cpuOf: seq<int>, c: int, hashOf: string -> nat)
    requires |tt| == |cpuOf| && HashesApart(tt, hashOf)
    ensures HashesApart(Collect(tt, cpuOf, c), hashOf)
  {
    if tt != [] {
      var n := |tt| - 1;
      CollectApart(tt[..n], cpuOf[..n], c, hashOf);
      CollectContents(tt[..n], cpuOf[..n], c);
      var on := Collect(tt[..n], cpuOf[..n], c);
      forall i | 0 <= i < |on| ensures hashOf(on[i].taskId) != hashOf(tt[n].taskId) {
        assert on[i] in on;
        var k :| 0 <= k < n && tt[..n][k] == on[i];
      }
    }
  }

  lemma SameTask(timers: Timers, tt: seq<ClassifiedTask>, ttCpu: seq<int>, h: nat, hashOf: string -> nat, i: nat,
                 c: nat, e: SlotEntry)
    requires AllServed(timers, tt, ttCpu, h, hashOf) && HashesApart(tt, hashOf) && i < |tt|
    requires c in timers && e in timers[c] && e.taskHash == hashOf(tt[i].taskId)
    ensures c == ttCpu[i]
  {
    var on := Collect(tt, ttCpu, c);
    assert OwnServed(timers[c], tt, ttCpu, h, c, hashOf);
    var t := EntryTask(timers[c], on, LcmOf(Periods(on)), h, c, hashOf, e);
    var k := CollectedFrom(tt, ttCpu, c, t);
    ApartIndex(tt, hashOf, i, k);
  }

  lemma ApartIndex(tt: seq<ClassifiedTask>, hashOf: string -> nat, i: nat, k: nat)
    requires HashesApart(tt, hashOf) && i < |tt| && k < |tt| && hashOf(tt[i].taskId) == hashOf(tt[k].taskId)
    ensures i == k
  {
  }

  lemma CollectedFrom(tt: seq<ClassifiedTask>, ttCpu: seq<int>, c: int, t: nat) returns (k: nat)
    requires |tt| == |ttCpu| && t < |Collect(tt, ttCpu, c)|
    ensures k < |tt| && ttCpu[k] == c && tt[k] == Collect(tt, ttCpu, c)[t]
  {
    var on := Collect(tt, ttCpu, c);
    CollectContents(tt, ttCpu, c);
    assert on[t] in on;
    k :| 0 <= k < |tt| && ttCpu[k] == c && tt[k] == on[t];
  }

  /** Distinct hashes put all slots of a task on its CPU. */
  lemma OnItsCpu(timers: Timers, tt: seq<ClassifiedTask>, ttCpu: seq<int>, h: nat, hashOf: string -> nat, i: nat)
    requires AllServed(timers, tt, ttCpu, h, hashOf) && HashesApart(tt, hashOf) && i < |tt|
    ensures OnlyOn(timers, hashOf(tt[i].taskId), ttCpu[i])
  {
    forall c: nat, e: SlotEntry | c in timers && e in timers[c] && e.taskHash == hashOf(tt[i].taskId)
      ensures c == ttCpu[i]
    {
      SameTask(timers, tt, ttCpu, h, hashOf, i, c, e);
    }
  }

  /** After k whole rounds of the CPU's timer, however interleaved with others, the counter has risen by k * reps. */
  ghost predicate CountIs(mapping: map<nat, nat>, timers: Timers, ticks: seq<u32>, log: seq<nat>, c: nat, x: nat,
                          k: nat, reps: nat)
  {
    IsLog(timers, log) && c in timers && Count(log, c) == k * |timers[c]| && x in mapping && mapping[x] < |ticks| ==>
      CountersAfter(mapping, timers, ticks, log)[mapping[x]] == (ticks[mapping[x]] + k * reps) % TWO_32
  }

  /** The task has a cell, and the cell counts hp/T for every round of its CPU's timer. */
  ghost predicate Counted(mapping: map<nat, nat>, timers: Timers, c: nat, t: ClassifiedTask, hp: nat, x: nat) {
    x in mapping && forall ticks, log, k: nat :: CountIs(mapping, timers, ticks, log, c, x, k, Repeats(t, hp))
  }

  lemma TaskCounted(mapping: map<nat, nat>, timers: Timers, tt: seq<ClassifiedTask>, ttCpu: seq<int>, h: nat,
                    hashOf: string -> nat, i: nat)
    requires AllServed(timers, tt, ttCpu, h, hashOf) && HashesApart(tt, hashOf) && i < |tt| && tt[i].periodUs > 0
    requires InjectiveMap(mapping)
    requires forall c: nat, e: SlotEntry :: c in timers && e in timers[c] ==> e.taskHash in mapping
    ensures Counted(mapping, timers, ttCpu[i], tt[i], LcmOf(Periods(Collect(tt, ttCpu, ttCpu[i]))),
                    hashOf(tt[i].taskId))
  {
    var c, x := ttCpu[i], hashOf(tt[i].taskId);
    var on := Collect(tt, ttCpu, c);
    var hp := LcmOf(Periods(on));
    assert OwnServed(timers[c], tt, ttCpu, h, c, hashOf);
    CollectContents(tt, ttCpu, c);
    assert tt[i] in on;
    var t :| 0 <= t < |on| && on[t] == tt[i];
    var e := TaskEntry(timers[c], on, hp, h, c, hashOf, t);
    CollectApart(tt, ttCpu, c, hashOf);
    OnItsCpu(timers, tt, ttCpu, h, hashOf, i);
    forall ticks, log, k: nat ensures CountIs(mapping, timers, ticks, log, c, x, k, Repeats(tt[i], hp)) {
      RoundsCounted(mapping, timers, ticks, log, on, hp, h, c, hashOf, t, k);
    }
  }

  lemma RoundsFired(timers: Timers, log: seq<nat>, on: seq<ClassifiedTask>, hp: nat, h: nat, c: nat,
                    hashOf: string -> nat, t: nat, k: nat, reps: nat)
    requires c in timers && CpuServed(timers[c], on, hp, h, c, hashOf) && HashesApart(on, hashOf)
    requires t < |on| && reps == Repeats(on[t], hp) && Count(log, c) == k * |timers[c]|
    ensures Firings(timers[c], hashOf(on[t].taskId), Count(log, c)) == k * reps
  {
    var slots: seq<TtSlot>, jobs: seq<Job> :| Planned(slots, jobs, on, hp, c) && EntriesOf(slots, timers[c], hashOf);
    RoundsRepeat(slots, jobs, on, hp, c, timers[c], hashOf, t, k, Count(log, c));
  }

  lemma FiredIsCounted(mapping: map<nat, nat>, timers: Timers, ticks: seq<u32>, log: seq<nat>, c: nat, x: nat, k: nat,
                       reps: nat, fired: nat)
    requires c in timers && timers[c] != [] && InjectiveMap(mapping) && OnlyOn(timers, x, c)
    requires fired == Firings(timers[c], x, Count(log, c))
    requires Count(log, c) == k * |timers[c]| ==> fired == k * reps
    ensures CountIs(mapping, timers, ticks, log, c, x, k, reps)
  {
    if IsLog(timers, log) && x in mapping && mapping[x] < |ticks| {
      CounterCountsFirings(mapping, timers, ticks, log, x, c);
    }
  }

  lemma RoundsCounted(mapping: map<nat, nat>, timers: Timers, ticks: seq<u32>, log: seq<nat>, on: seq<ClassifiedTask>,
                      hp: nat, h: nat, c: nat, hashOf: string -> nat, t: nat, k: nat)
    requires c in timers && CpuServed(timers[c], on, hp, h, c, hashOf) && HashesApart(on, hashOf) && t < |on|
    requires InjectiveMap(mapping) && OnlyOn(timers, hashOf(on[t].taskId), c)
    ensures CountIs(mapping, timers, ticks, log, c, hashOf(on[t].taskId), k, Repeats(on[t], hp))
  {
    var x, reps := hashOf(on[t].taskId), Repeats(on[t], hp);
    if Count(log, c) == k * |timers[c]| {
      RoundsFired(timers, log, on, hp, h, c, hashOf, t, k, reps);
    }
    FiredIsCounted(mapping, timers, ticks, log, c, x, k, reps, Firings(timers[c], x, Count(log, c)));
  }

  /** Every TT task with a period is counted. */
  ghost predicate AllCounted(mapping: map<nat, nat>, timers: Timers, tt: seq<ClassifiedTask>, ttCpu: seq<int>,
                             hashOf: string -> nat)
  {
    |tt| == |ttCpu| && forall i :: 0 <= i < |tt| && tt[i].periodUs > 0 && ttCpu[i] >= 0 ==>
      Counted(mapping, timers, ttCpu[i], tt[i], LcmOf(Periods(Collect(tt, ttCpu, ttCpu[i]))), hashOf(tt[i].taskId))
  }

  lemma TableCounted(timers: Timers, tt: seq<ClassifiedTask>, ttCpu: seq<int>, h: nat, hashOf: string -> nat,
                     sorted: seq<SlotEntry>, prev: map<nat, nat>, mapping: map<nat, nat>)
    requires AllServed(timers, tt, ttCpu, h, hashOf) && HashesApart(tt, hashOf) && StartedFrom(timers, sorted)
    requires Stable(mapping, prev, Hashes(sorted)) && Filled(mapping, Hashes(sorted)) && InjectiveMap(mapping)
    requires |Hashes(sorted)| <= MAX_TASKS
    ensures AllCounted(mapping, timers, tt, ttCpu, hashOf)
  {
    AllMappedIff(mapping, prev, Hashes(sorted));
    forall c: nat, e: SlotEntry | c in timers && e in timers[c] ensures e.taskHash in mapping {
      assert e in multiset(timers[c]);
      assert multiset(OnCpu(sorted, c))[e] > 0;
      OnCpuCounts(sorted, c, e);
      assert e in multiset(sorted);
      var i :| 0 <= i < |sorted| && sorted[i] == e;
    }
    forall i | 0 <= i < |tt| && tt[i].periodUs > 0
      ensures Counted(mapping, timers, ttCpu[i], tt[i], LcmOf(Periods(Collect(tt, ttCpu, ttCpu[i]))),
                      hashOf(tt[i].taskId))
    {
      TaskCounted(mapping, timers, tt, ttCpu, h, hashOf, i);
    }
  }

  /**
   * A whole emitted table on a node: the index is updated and every CPU with TT work gets a timer. That timer wakes
   * each of its tasks exactly once in every period window the plan fills, in no other, and never early. With at
   * most 32 tasks of distinct hashes each task's counter rises by hp/T in every round of its CPU's timer.
   */
  method RunTable(lib: Library, index: TaskIndex, table: ScheduleTable, hashOf: string -> nat,
                  ghost tt: seq<ClassifiedTask>, ghost cbs: seq<ClassifiedTask>,
                  ghost ttCpu: seq<int>, ghost cbsCpu: seq<int>)
    returns (timers: Timers)
    requires Lawful(lib) && TableSound(table, tt, cbs, ttCpu, cbsCpu) && Constrained(tt)
    requires Assembled(table.partitions)
    requires index.Valid() && NamesAgree(TableEntries(table.partitions, hashOf), index.nameOf)
    modifies index
    ensures index.Valid() && AllServed(timers, tt, ttCpu, table.hyperperiodUs, hashOf)
    ensures |Hashes(index.slotTable)| <= MAX_TASKS && HashesApart(tt, hashOf) ==>
              AllCounted(index.mapping, timers, tt, ttCpu, hashOf)
  {
    var entries := CollectEntries(table.partitions, hashOf);
    ghost var prev := index.mapping;
    index.SetScheduleTable(lib, entries);
    ghost var order :| IsPermutation(order, |entries|) && index.slotTable == Permute(entries, order);
    PermuteMultiset(entries, order);
    SameHashes(entries, order, index.nameOf);
    timers := Start(lib, index.slotTable);
    TableServed(table, tt, cbs, ttCpu, cbsCpu, hashOf, index.slotTable, timers);
    if |Hashes(index.slotTable)| <= MAX_TASKS && HashesApart(tt, hashOf) {
      TableCounted(timers, tt, ttCpu, table.hyperperiodUs, hashOf, index.slotTable, prev, index.mapping);
    }
  }

  // ---- from the planner to the counters ----

  /** The hash of a task and its 15-character name determine each other. */
  ghost predicate TaskNames(tt: seq<ClassifiedTask>, nameOf: map<nat, string>, hashOf: string -> nat) {
    && Injective(nameOf)
    && forall t :: t in tt ==> hashOf(t.taskId) in nameOf && Name15(t.taskId) == nameOf[hashOf(t.taskId)]
  }

  lemma {:induction false} EntryOrigin(parts: seq<Partition>, hashOf: string -> nat, n: nat) returns (i: nat, k: nat)
    requires Assembled(parts) && n < |TableEntries(parts, hashOf)|
    ensures i < |parts| && k < |parts[i].ttSlots| && parts[i].ttSlots[k].cpu >= 0
    ensures TableEntries(parts, hashOf)[n] == ToEntry(parts[i].ttSlots[k], hashOf)
  {
    var last := |parts| - 1;
    var before := TableEntries(parts[..last], hashOf);
    if n < |before| {
      i, k := EntryOrigin(parts[..last], hashOf, n);
    } else {
      i, k := last, n - |before|;
    }
  }

  lemma TableNames(table: ScheduleTable, tt: seq<ClassifiedTask>, cbs: seq<ClassifiedTask>, ttCpu: seq<int>,
                   cbsCpu: seq<int>, nameOf: map<nat, string>, hashOf: string -> nat)
    requires TableSound(table, tt, cbs, ttCpu, cbsCpu) && Assembled(table.partitions) && TaskNames(tt, nameOf, hashOf)
    ensures NamesAgree(TableEntries(table.partitions, hashOf), nameOf)
  {
    var parts := table.partitions;
    var entries := TableEntries(parts, hashOf);
    forall n | 0 <= n < |entries|
      ensures entries[n].taskHash in nameOf && Name15(entries[n].taskName) == nameOf[entries[n].taskHash]
    {
      var i, k := EntryOrigin(parts, hashOf, n);
      assert parts[i] in parts;
      var t := SlotsFrom(parts[i].ttSlots, Collect(tt, ttCpu, parts[i].cpu), parts[i].cpu, k);
      CollectContents(tt, ttCpu, parts[i].cpu);
    }
  }

  /** The whole way: what the planner accepts, the node's timers serve and its counters count. */
  method PlanAndRun(lib: Library, index: TaskIndex, nodeId: string, configured: seq<int>, tasks: seq<ClassifiedTask>,
                    hashOf: string -> nat)
    returns (r: ScheduleResult, timers: Timers, ghost ttCpu: seq<int>)
    requires Lawful(lib) && forall c :: c in configured ==> 0 <= c < TWO_31
    requires var tt := OfMechanism(tasks, TT); InRange(tt, LcmOf(Periods(tt))) && Constrained(tt)
    requires index.Valid() && TaskNames(OfMechanism(tasks, TT), index.nameOf, hashOf)
    modifies index
    ensures r == Generate(lib, nodeId, configured, tasks) && index.Valid()
    ensures r.Scheduled? && tasks != [] ==>
              var tt := OfMechanism(tasks, TT);
              && AllServed(timers, tt, ttCpu, r.table.hyperperiodUs, hashOf)
              && (|Hashes(index.slotTable)| <= MAX_TASKS && HashesApart(tt, hashOf) ==>
                    AllCounted(index.mapping, timers, tt, ttCpu, hashOf))
  {
    ghost var cbsCpu;
    r, ttCpu, cbsCpu := GenerateSchedule(lib, nodeId, configured, tasks);
    timers := map[];
    if r.Scheduled? && tasks != [] {
      ghost var tt, cbs := OfMechanism(tasks, TT), OfMechanism(tasks, CBS);
      SoundIsAssembled(r.table, tt, cbs, ttCpu, cbsCpu);
      TableNames(r.table, tt, cbs, ttCpu, cbsCpu, index.nameOf, hashOf);
      timers := RunTable(lib, index, r.table, hashOf, tt, cbs, ttCpu, cbsCpu);
    }
  }
}
