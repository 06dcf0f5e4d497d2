/** The shared-memory task index: stable allocation by TimerMaster, lookup by name in the client library. */
module ShmIndex {
  import opened Basics
  import opened Sequences
  import opened TimerMaster

  const MAX_TASKS: nat := 32

  /** 32-bit increment with wrap-around. */
  function Inc32(x: u32): u32 {
    if x + 1 == TWO_32 then 0 else x + 1
  }

  /** strncpy and strncmp look at 15 characters. */
  function Name15(s: string): (r: string)
    ensures |r| <= 15
  {
    if |s| <= 15 then s else s[..15]
  }

  ghost predicate Injective(nameOf: map<nat, string>) {
    forall a, b :: a in nameOf && b in nameOf && nameOf[a] == nameOf[b] ==> a == b
  }

  /** Hypothesis: an entry's hash and its 15-character name determine each other; `nameOf` lists all tasks of a run. */
  ghost predicate NamesAgree(table: seq<SlotEntry>, nameOf: map<nat, string>) {
    && Injective(nameOf)
    && forall i :: 0 <= i < |table| ==>
         table[i].taskHash in nameOf && Name15(table[i].taskName) == nameOf[table[i].taskHash]
  }

  function Hashes(table: seq<SlotEntry>): set<nat> {
    set i | 0 <= i < |table| :: table[i].taskHash
  }

  // ---- the index invariant ----

  ghost predicate InjectiveMap(m: map<nat, nat>) {
    forall a, b :: a in m && b in m && m[a] == m[b] ==> a == b
  }

  /** Mapped tasks sit at distinct indices below 32 under their name, and no earlier cell holds that name. */
  ghost predicate Indexed(m: map<nat, nat>, names: seq<string>, nameOf: map<nat, string>) {
    && |names| == MAX_TASKS
    && InjectiveMap(m)
    && m.Keys <= nameOf.Keys
    && (forall h :: h in m ==> m[h] < MAX_TASKS && names[m[h]] == nameOf[h])
    && (forall h, i :: h in m && 0 <= i < m[h] ==> names[i] != nameOf[h])
  }

  /** `n` is one past the largest mapped index. */
  ghost predicate Bounds(m: map<nat, nat>, n: nat) {
    && (forall h :: h in m ==> m[h] < n)
    && (n > 0 ==> exists h :: h in m && m[h] == n - 1)
  }

  /** Some task sits at cell `i`. */
  ghost predicate Taken(m: map<nat, nat>, i: int) {
    exists h :: h in m && m[h] == i
  }

  /** The cells in use are exactly the mapped ones; the others still hold what they held before. */
  ghost predicate UsedCells(m: map<nat, nat>, used: seq<bool>, names: seq<string>, before: seq<string>) {
    && |used| == |names| == |before| == MAX_TASKS
    && (forall i :: 0 <= i < MAX_TASKS ==> (used[i] <==> Taken(m, i)))
    && (forall i :: 0 <= i < MAX_TASKS && !used[i] ==> names[i] == before[i])
  }

  /** Putting a new task at a free cell keeps the index, if no lower cell holds its name. */
  lemma AddTask(m: map<nat, nat>, names: seq<string>, nameOf: map<nat, string>, h: nat, idx: nat)
    requires Injective(nameOf) && Indexed(m, names, nameOf)
    requires h !in m && h in nameOf && idx < MAX_TASKS && !Taken(m, idx)
    requires forall i :: 0 <= i < idx ==> names[i] != nameOf[h]
    ensures Indexed(m[h := idx], names[idx := nameOf[h]], nameOf)
  {
    forall a | a in m ensures m[a] != idx { assert !Taken(m, idx); }
  }

  lemma TakenAdd(m: map<nat, nat>, h: nat, idx: nat, i: int)
    requires h !in m
    ensures Taken(m[h := idx], i) <==> i == idx || Taken(m, i)
  {
    var m' := m[h := idx];
    if i == idx {
      assert h in m' && m'[h] == idx;
    } else if Taken(m, i) {
      var g :| g in m && m[g] == i;
      assert m'[g] == i;
    }
  }

  lemma UseCell(m: map<nat, nat>, used: seq<bool>, names: seq<string>, before: seq<string>, h: nat, idx: nat,
                name: string)
    requires UsedCells(m, used, names, before) && h !in m && idx < MAX_TASKS
    ensures UsedCells(m[h := idx], used[idx := true], names[idx := name], before)
  {
    var used', m' := used[idx := true], m[h := idx];
    forall i | 0 <= i < MAX_TASKS ensures used'[i] <==> Taken(m', i) {
      TakenAdd(m, h, idx, i);
    }
  }

  /** A used cell holds the name of the task mapped to it. */
  lemma UsedName(m: map<nat, nat>, used: seq<bool>, names: seq<string>, before: seq<string>, nameOf: map<nat, string>,
                 h: nat, i: nat)
    requires Injective(nameOf) && Indexed(m, names, nameOf) && UsedCells(m, used, names, before)
    requires h !in m && h in nameOf && i < MAX_TASKS && used[i]
    ensures names[i] != nameOf[h]
  {
    var g :| g in m && m[g] == i;
  }

  /** The task at cell `i` was not mapped before. */
  ghost predicate NewAt(m: map<nat, nat>, prev: map<nat, nat>, i: int) {
    exists h :: h in m && h !in prev && m[h] == i
  }

  /** Cells of tasks that were not mapped before restart at zero; the others keep their count. */
  ghost predicate Reset(m: map<nat, nat>, prev: map<nat, nat>, ticks: seq<u32>, ticks0: seq<u32>) {
    && |ticks| == |ticks0| == MAX_TASKS
    && forall i :: 0 <= i < MAX_TASKS ==>
         ticks[i] == if NewAt(m, prev, i) then 0 else ticks0[i]
  }

  /** New tasks take the lowest cells: everything below a new task is in use. */
  ghost predicate LowestFirst(m: map<nat, nat>, prev: map<nat, nat>) {
    forall h, i :: h in m && h !in prev && 0 <= i < m[h] ==> Taken(m, i)
  }

  /** Tasks of the table that were mapped before keep their index. */
  ghost predicate Stable(m: map<nat, nat>, prev: map<nat, nat>, hashes: set<nat>) {
    && m.Keys <= hashes
    && forall h :: h in prev && h in hashes ==> h in m && m[h] == prev[h]
  }

  /** As many tasks as fit. */
  predicate Filled(m: map<nat, nat>, hashes: set<nat>) {
    |m| == if |hashes| < MAX_TASKS then |hashes| else MAX_TASKS
  }

  ghost predicate HolesKept(m: map<nat, nat>, names: seq<string>, before: seq<string>) {
    && |names| == |before| == MAX_TASKS
    && forall i :: 0 <= i < MAX_TASKS && !Taken(m, i) ==> names[i] == before[i]
  }

  // ---- cardinalities ----

  lemma {:induction false} ValuesSize(m: map<nat, nat>)
    requires InjectiveMap(m)
    ensures |m.Values| == |m|
    decreases |m|
  {
    if m.Keys == {} {
      assert m.Values == {};
    } else {
      var h :| h in m.Keys;
      var rest := m - {h};
      ValuesSize(rest);
      assert m.Values == rest.Values + {m[h]} by {
        forall v | v in m.Values ensures v in rest.Values + {m[h]} {
          var g :| g in m && m[g] == v;
          if g != h { assert g in rest && rest[g] == v; }
        }
        forall v | v in rest.Values ensures v in m.Values {
          var g :| g in rest && rest[g] == v;
          assert m[g] == v;
        }
      }
      assert m[h] !in rest.Values;
      assert m.Keys == rest.Keys + {h};
    }
  }

  ghost function Below(n: nat): (s: set<nat>)
    ensures |s| == n && forall i :: i in s <==> 0 <= i < n
  {
    if n == 0 then {} else Below(n - 1) + {n - 1}
  }

  lemma InjectiveSize(m: map<nat, nat>, n: nat)
    requires InjectiveMap(m) && forall h :: h in m ==> m[h] < n
    ensures |m| <= n
    ensures (forall i :: 0 <= i < n ==> Taken(m, i)) ==> |m| == n
  {
    ValuesSize(m);
    SubsetSize(m.Values, Below(n));
    if forall i :: 0 <= i < n ==> Taken(m, i) {
      forall v | v in Below(n) ensures v in m.Values { assert Taken(m, v); }
      assert m.Values == Below(n);
    }
  }

  /** An index uses at most 32 cells, and exactly 32 when none is free. */
  lemma IndexSize(m: map<nat, nat>, used: seq<bool>, names: seq<string>, before: seq<string>, nameOf: map<nat, string>)
    requires Indexed(m, names, nameOf) && UsedCells(m, used, names, before)
    ensures |m| <= MAX_TASKS
    ensures (forall i :: 0 <= i < MAX_TASKS ==> used[i]) ==> |m| == MAX_TASKS
  {
    InjectiveSize(m, |names|);
  }

  lemma {:induction false} SubsetSize<T>(a: set<T>, b: set<T>)
    requires a <= b
    ensures |a| <= |b|
  {
    assert b == a + (b - a);
  }

  // ---- the client's scan ----

  /** First cell below `n` with the 15-character name, -1 if there is none. */
  ghost predicate FirstMatch(names: seq<string>, n: nat, name: string, r: int) {
    if r == -1 then forall i :: 0 <= i < n && i < |names| ==> names[i] != Name15(name)
    else 0 <= r < n && r < |names| && names[r] == Name15(name) && forall i :: 0 <= i < r ==> names[i] != Name15(name)
  }

  /** A mapped task's client finds exactly its own cell, whatever stale names the holes hold. */
  lemma LookupFindsMapped(m: map<nat, nat>, names: seq<string>, n: nat, nameOf: map<nat, string>, h: nat,
                          name: string, r: int)
    requires Indexed(m, names, nameOf) && Bounds(m, n) && h in nameOf && Name15(name) == nameOf[h]
    requires FirstMatch(names, n, name, r) && h in m
    ensures r == m[h]
  {
  }

  /** An unmapped task's client never lands on a used cell; it gets -1 exactly when no hole below n has its old name. */
  lemma LookupAvoidsMapped(m: map<nat, nat>, names: seq<string>, n: nat, nameOf: map<nat, string>, h: nat,
                           name: string, r: int)
    requires Injective(nameOf) && Indexed(m, names, nameOf) && Bounds(m, n) && h in nameOf && Name15(name) == nameOf[h]
    requires FirstMatch(names, n, name, r) && h !in m
    ensures forall g :: g in m ==> m[g] != r
    ensures r == -1 <==> forall i :: 0 <= i < n && !Taken(m, i) ==> i >= MAX_TASKS || names[i] != nameOf[h]
  {
    forall i | 0 <= i < MAX_TASKS && Taken(m, i) ensures names[i] != nameOf[h] {
      var g :| g in m && m[g] == i;
    }
    if r != -1 {
      assert !Taken(m, r);
    }
  }

  // ---- wake-ups ----

  /** A wake-up raises the counter of the task's cell; a task without a cell is not woken. */
  function Woken(m: map<nat, nat>, ticks: seq<u32>, taskHash: nat): (r: seq<u32>)
    ensures |r| == |ticks|
  {
    if taskHash in m && m[taskHash] < |ticks| then ticks[m[taskHash] := Inc32(ticks[m[taskHash]])] else ticks
  }

  /** When the table has at most 32 tasks all of them are mapped; otherwise some are not. */
  lemma AllMappedIff(m: map<nat, nat>, prev: map<nat, nat>, hashes: set<nat>)
    requires Stable(m, prev, hashes) && Filled(m, hashes)
    ensures m.Keys == hashes <==> |hashes| <= MAX_TASKS
  {
    SubsetSize(m.Keys, hashes);
    if |hashes| <= MAX_TASKS && m.Keys != hashes {
      var h :| h in hashes && h !in m.Keys;
      SubsetSize(m.Keys, hashes - {h});
    }
  }

  // ---- TimerMaster's side ----

  class TaskIndex {
    ghost const nameOf: map<nat, string>
    var slotTable: seq<SlotEntry>
    var mapping: map<nat, nat>
    var names: seq<string>
    var counters: seq<u32>
    var nTasks: nat
    var generation: u32
    var ready: bool

    ghost predicate Valid()
      reads this
    {
      && Injective(nameOf)
      && Indexed(mapping, names, nameOf)
      && (ready ==> Bounds(mapping, nTasks))
      && |counters| == MAX_TASKS
    }

    /** Whatever the shared memory contains, the index starts empty and not ready. */
    constructor (cells: seq<string>, ticks: seq<u32>, ghost nameOf: map<nat, string>)
      requires |cells| == MAX_TASKS && |ticks| == MAX_TASKS && Injective(nameOf)
      ensures Valid() && mapping == map[] && !ready && nTasks == 0 && generation == 1
      ensures names == cells && counters == ticks && this.nameOf == nameOf
    {
      this.nameOf := nameOf;
      slotTable, mapping := [], map[];
      names, counters := cells, ticks;
      nTasks, generation, ready := 0, 1, false;
    }

    /**
     * One table update. Tasks present before and after keep their index, as many
     * tasks as fit are mapped, and new ones take the lowest free cells.
     */
    method SetScheduleTable(lib: Library, slots: seq<SlotEntry>)
      requires Lawful(lib) && Valid() && NamesAgree(slots, nameOf)
      modifies this
      ensures Valid() && ready && generation == Inc32(old(generation))
      ensures OffsetsAscending(slotTable) &&
              exists order :: IsPermutation(order, |slots|) && slotTable == Permute(slots, order)
      ensures Stable(mapping, old(mapping), Hashes(slots))
      ensures Filled(mapping, Hashes(slots))
      ensures LowestFirst(mapping, old(mapping))
      ensures HolesKept(mapping, names, old(names))
      ensures Reset(mapping, old(mapping), counters, Bumped(old(counters)))
    {
      var table := SortEntries(lib, slots, nameOf);
      var m, cells, ticks := Allocate(table, mapping, names, Bumped(counters), nameOf);
      var n := HighestPlusOne(m);
      slotTable, mapping, names, counters := table, m, cells, ticks;
      nTasks, generation, ready := n, Inc32(generation), true;
    }

    /** Slots of the workload leave the table, the others stay in order; index and shared memory stay as they are. */
    method RemoveWorkload(workloadHash: nat)
      requires Valid()
      modifies this`slotTable
      ensures Valid() && slotTable == Without(old(slotTable), workloadHash)
    {
      var kept := [];
      for i := 0 to |slotTable|
        invariant kept == Without(slotTable[..i], workloadHash)
      {
        assert slotTable[..i + 1][..i] == slotTable[..i];
        if slotTable[i].workloadHash != workloadHash { kept := kept + [slotTable[i]]; }
      }
      assert slotTable[..|slotTable|] == slotTable;
      slotTable := kept;
    }

    /** A wake-up touches the counter of the task's own cell and no other. */
    method WakeTask(taskHash: nat)
      requires Valid()
      modifies this`counters
      ensures Valid() && counters == Woken(mapping, old(counters), taskHash)
    {
      if taskHash in mapping {
        var idx := mapping[taskHash];
        counters := counters[idx := Inc32(counters[idx])];
      }
    }

    /** The client library's lookup. */
    method FindTaskSlot(name: string) returns (r: int)
      requires Valid()
      ensures !ready ==> r == -1
      ensures ready ==> FirstMatch(names, nTasks, name, r)
      ensures ready ==> forall h :: h in mapping && Name15(name) == nameOf[h] ==> r == mapping[h]
      ensures ready ==> forall h :: h !in mapping && h in nameOf && Name15(name) == nameOf[h] ==>
                forall g :: g in mapping ==> mapping[g] != r
    {
      if !ready { return -1; }
      r := -1;
      var i := 0;
      while i < nTasks && i < MAX_TASKS
        invariant 0 <= i
        invariant forall k :: 0 <= k < i && k < MAX_TASKS ==> names[k] != Name15(name)
      {
        if names[i] == Name15(name) {
          r := i;
          break;
        }
        i := i + 1;
      }
      assert FirstMatch(names, nTasks, name, r);
      forall h | h !in mapping && h in nameOf && Name15(name) == nameOf[h]
        ensures forall g :: g in mapping ==> mapping[g] != r
      {
        LookupAvoidsMapped(mapping, names, nTasks, nameOf, h, name, r);
      }
    }
  }

  /** The slots of other workloads, in order. */
  function Without(table: seq<SlotEntry>, workloadHash: nat): (r: seq<SlotEntry>)
    ensures forall e :: e in r <==> e in table && e.workloadHash != workloadHash
  {
    if table == [] then []
    else
      var n := |table| - 1;
      assert table == table[..n] + [table[n]];
      Without(table[..n], workloadHash) + if table[n].workloadHash != workloadHash then [table[n]] else []
  }

  lemma TwoCells(m: map<nat, nat>)
    requires InjectiveMap(m) && m.Keys == {1, 2} && LowestFirst(m, map[])
    ensures m[1] != m[2] && m[1] <= 1 && m[2] <= 1
  {
    assert 1 in m && 2 in m;
    assert forall h :: h in m && m[h] > 1 ==> Taken(m, 0) && Taken(m, 1);
  }

  /** A task at cell 0 that leaves while cell 1 stays in use is still found there. */
  lemma HoleFound(m1: map<nat, nat>, names1: seq<string>, m2: map<nat, nat>, names2: seq<string>, n: nat,
                  nameOf: map<nat, string>, gone: nat, r: int)
    requires Indexed(m1, names1, nameOf) && gone in m1 && m1[gone] == 0
    requires Bounds(m2, n) && n > 1 && !Taken(m2, 0) && HolesKept(m2, names2, names1)
    requires Name15(nameOf[gone]) == nameOf[gone] && FirstMatch(names2, n, nameOf[gone], r)
    ensures r == 0
  {
    assert names2[0] == names1[0] == nameOf[gone];
  }

  /** Publish two tasks on an index that has none. */
  method PublishTwo(lib: Library, index: TaskIndex, a: SlotEntry, b: SlotEntry)
    requires Lawful(lib) && index.Valid() && index.mapping == map[] && NamesAgree([a, b], index.nameOf)
    requires a.taskHash == 1 && b.taskHash == 2
    modifies index
    ensures index.Valid() && index.mapping.Keys == {1, 2}
    ensures index.mapping[1] != index.mapping[2] && index.mapping[1] <= 1 && index.mapping[2] <= 1
  {
    assert Hashes([a, b]) == {1, 2} by { assert [a, b][0] == a && [a, b][1] == b; }
    index.SetScheduleTable(lib, [a, b]);
    AllMappedIff(index.mapping, map[], {1, 2});
    TwoCells(index.mapping);
  }

  /** Then publish only the one at cell 1, and look up the other. */
  method DropFirst(lib: Library, index: TaskIndex, kept: SlotEntry, gone: nat) returns (r: int)
    requires Lawful(lib) && index.Valid() && NamesAgree([kept], index.nameOf)
    requires index.mapping.Keys == {gone, kept.taskHash} && gone != kept.taskHash
    requires index.mapping[gone] == 0 && index.mapping[kept.taskHash] == 1 && |index.nameOf[gone]| <= 15
    modifies index
    ensures index.Valid() && index.ready && gone !in index.mapping && r == 0
  {
    var m1, h := index.mapping, kept.taskHash;
    ghost var names1 := index.names;
    var name := index.names[0];
    assert Hashes([kept]) == {h} by { assert [kept][0] == kept; }
    index.SetScheduleTable(lib, [kept]);
    AllMappedIff(index.mapping, m1, {h});
    assert index.mapping.Keys == {h} && index.mapping[h] == 1;
    assert !Taken(index.mapping, 0);
    r := index.FindTaskSlot(name);
    HoleFound(m1, names1, index.mapping, index.names, index.nTasks, index.nameOf, gone, r);
  }

  const ALPHA: SlotEntry := SlotEntry(0, 0, 1, 1, 9, "alpha")
  const BETA: SlotEntry := SlotEntry(0, 1, 1, 2, 9, "beta")
  const NAMES: map<nat, string> := map[1 := "alpha", 2 := "beta"]

  lemma AlphaBeta()
    ensures NamesAgree([ALPHA, BETA], NAMES) && NamesAgree([ALPHA], NAMES) && NamesAgree([BETA], NAMES)
    ensures NAMES.Keys == {1, 2} && |NAMES[1]| <= 15 && |NAMES[2]| <= 15
  {
  }

  method EmptyIndex() returns (index: TaskIndex)
    ensures fresh(index) && index.Valid() && index.mapping == map[] && index.nameOf == NAMES
  {
    AlphaBeta();
    index := new TaskIndex(seq(MAX_TASKS, _ => ""), seq(MAX_TASKS, _ => 0), NAMES);
  }

  /** Two updates leave a hole: the removed task's client still resolves to its old cell. */
  method StaleHole(lib: Library) returns (index: TaskIndex, gone: nat, r: int)
    requires Lawful(lib)
    ensures fresh(index) && index.Valid() && index.ready
    ensures gone in index.nameOf && gone !in index.mapping && r == 0
  {
    AlphaBeta();
    index := EmptyIndex();
    PublishTwo(lib, index, ALPHA, BETA);
    gone := if index.mapping[1] == 0 then 1 else 2;
    r := DropFirst(lib, index, if gone == 1 then BETA else ALPHA, gone);
  }

  function Bumped(ticks: seq<u32>): (r: seq<u32>)
    ensures |r| == |ticks| && forall i :: 0 <= i < |r| ==> r[i] == Inc32(ticks[i])
  {
    seq(|ticks|, i requires 0 <= i < |ticks| => Inc32(ticks[i]))
  }

  method SortEntries(lib: Library, slots: seq<SlotEntry>, ghost nameOf: map<nat, string>)
    returns (table: seq<SlotEntry>)
    requires Lawful(lib) && NamesAgree(slots, nameOf)
    ensures NamesAgree(table, nameOf) && Hashes(table) == Hashes(slots) && OffsetsAscending(table)
    ensures exists order :: IsPermutation(order, |slots|) && table == Permute(slots, order)
  {
    table := SortByOffset(lib, slots);
    ghost var order :| IsPermutation(order, |slots|) && table == Permute(slots, order);
    SameHashes(slots, order, nameOf);
  }

  /** Both allocation passes. */
  method Allocate(table: seq<SlotEntry>, prev: map<nat, nat>, before: seq<string>, ticks0: seq<u32>,
                  ghost nameOf: map<nat, string>)
    returns (m: map<nat, nat>, names: seq<string>, ticks: seq<u32>)
    requires NamesAgree(table, nameOf) && Indexed(prev, before, nameOf) && |ticks0| == MAX_TASKS
    ensures Indexed(m, names, nameOf)
    ensures Stable(m, prev, Hashes(table)) && Filled(m, Hashes(table)) && LowestFirst(m, prev)
    ensures HolesKept(m, names, before) && Reset(m, prev, ticks, ticks0)
  {
    var used;
    m, used, names := KeepExisting(table, prev, before, nameOf);
    m, used, names, ticks := AllocateNew(table, m, used, names, ticks0, nameOf, before, prev);
  }

  lemma SameHashes(slots: seq<SlotEntry>, order: seq<nat>, nameOf: map<nat, string>)
    requires IsPermutation(order, |slots|) && NamesAgree(slots, nameOf)
    ensures Hashes(Permute(slots, order)) == Hashes(slots)
    ensures NamesAgree(Permute(slots, order), nameOf)
  {
    var p := Permute(slots, order);
    forall h | h in Hashes(slots) ensures h in Hashes(p) {
      var i :| 0 <= i < |slots| && slots[i].taskHash == h;
      assert i in order;
      var k :| 0 <= k < |order| && order[k] == i;
      assert p[k].taskHash == h;
    }
  }

  /** First pass: tasks of the previous mapping keep their cell. */
  method KeepExisting(table: seq<SlotEntry>, prev: map<nat, nat>, before: seq<string>, ghost nameOf: map<nat, string>)
    returns (m: map<nat, nat>, used: seq<bool>, names: seq<string>)
    requires NamesAgree(table, nameOf) && Indexed(prev, before, nameOf)
    ensures Indexed(m, names, nameOf) && UsedCells(m, used, names, before)
    ensures forall h :: h in m <==> h in prev && h in Hashes(table)
    ensures forall h :: h in m ==> m[h] == prev[h]
  {
    m, used, names := map[], seq(MAX_TASKS, i => false), before;
    for n := 0 to |table|
      invariant Indexed(m, names, nameOf) && UsedCells(m, used, names, before)
      invariant forall h :: h in m <==> h in prev && h in Hashes(table[..n])
      invariant forall h :: h in m ==> m[h] == prev[h]
    {
      var h := table[n].taskHash;
      HashesStep(table, n);
      if h in m { continue; }
      if h in prev { OwnCellFree(prev, m, used, names, before, h); }
      if h in prev && prev[h] < MAX_TASKS && !used[prev[h]] {
        var idx := prev[h];
        forall i | 0 <= i < idx ensures names[i] != nameOf[h] {
          if used[i] { UsedName(m, used, names, before, nameOf, h, i); }
        }
        AddTask(m, names, nameOf, h, idx);
        UseCell(m, used, names, before, h, idx, nameOf[h]);
        m := m[h := idx];
        used := used[idx := true];
        names := names[idx := Name15(table[n].taskName)];
      }
    }
    assert table[..|table|] == table;
  }

  /** The cell of a previously mapped task is not taken by another one during the first pass. */
  lemma OwnCellFree(prev: map<nat, nat>, m: map<nat, nat>, used: seq<bool>, names: seq<string>, before: seq<string>,
                    h: nat)
    requires InjectiveMap(prev) && UsedCells(m, used, names, before)
    requires forall g :: g in m ==> g in prev && m[g] == prev[g]
    requires h in prev && h !in m && prev[h] < MAX_TASKS
    ensures !used[prev[h]]
  {
  }

  lemma HashesStep(table: seq<SlotEntry>, n: nat)
    requires n < |table|
    ensures Hashes(table[..n + 1]) == Hashes(table[..n]) + {table[n].taskHash}
  {
    var a, b := table[..n], table[..n + 1];
    forall h | h in Hashes(b) ensures h in Hashes(a) + {table[n].taskHash} {
      var i :| 0 <= i < |b| && b[i].taskHash == h;
      if i < n { assert a[i].taskHash == h; }
    }
    forall h | h in Hashes(a) ensures h in Hashes(b) {
      var i :| 0 <= i < |a| && a[i].taskHash == h;
      assert b[i].taskHash == h;
    }
    assert b[n].taskHash == table[n].taskHash;
  }

  /** Lowest free cell, 32 if there is none. */
  method LowestFree(used: seq<bool>) returns (idx: nat)
    requires |used| == MAX_TASKS
    ensures idx <= MAX_TASKS && forall i :: 0 <= i < idx ==> used[i]
    ensures idx < MAX_TASKS ==> !used[idx]
  {
    idx := 0;
    while idx < MAX_TASKS && used[idx]
      invariant idx <= MAX_TASKS && forall i :: 0 <= i < idx ==> used[i]
    {
      idx := idx + 1;
    }
  }

  /** State of the second pass. */
  ghost predicate Passing(m: map<nat, nat>, used: seq<bool>, names: seq<string>, ticks: seq<u32>, hashes: set<nat>,
                          nameOf: map<nat, string>, before: seq<string>, prev: map<nat, nat>, ticks0: seq<u32>) {
    && Indexed(m, names, nameOf) && UsedCells(m, used, names, before)
    && Stable(m, prev, hashes) && LowestFirst(m, prev) && Reset(m, prev, ticks, ticks0)
  }

  /** Second pass: tasks without a cell take the lowest free ones until none is left. */
  method AllocateNew(table: seq<SlotEntry>, m0: map<nat, nat>, used0: seq<bool>, names0: seq<string>, ticks0: seq<u32>,
                     ghost nameOf: map<nat, string>, ghost before: seq<string>, ghost prev: map<nat, nat>)
    returns (m: map<nat, nat>, used: seq<bool>, names: seq<string>, ticks: seq<u32>)
    requires NamesAgree(table, nameOf)
    requires Passing(m0, used0, names0, ticks0, Hashes(table), nameOf, before, prev, ticks0)
    ensures Passing(m, used, names, ticks, Hashes(table), nameOf, before, prev, ticks0)
    ensures Filled(m, Hashes(table))
  {
    m, used, names, ticks := m0, used0, names0, ticks0;
    for n := 0 to |table|
      invariant Passing(m, used, names, ticks, Hashes(table), nameOf, before, prev, ticks0)
      invariant Hashes(table[..n]) <= m.Keys
    {
      HashesStep(table, n);
      assert table[n].taskHash in Hashes(table);
      var full;
      full, m, used, names, ticks := AllocateOne(table[n], m, used, names, ticks,
                                                 Hashes(table), nameOf, before, prev, ticks0);
      if full { return; }
    }
    assert table[..|table|] == table;
    assert m.Keys == Hashes(table);
    IndexSize(m, used, names, before, nameOf);
  }

  /** One entry of the second pass: already mapped, no cell left, or the lowest free cell. */
  method AllocateOne(e: SlotEntry, m0: map<nat, nat>, used0: seq<bool>, names0: seq<string>, ticks0: seq<u32>,
                     ghost hashes: set<nat>,
                     ghost nameOf: map<nat, string>, ghost before: seq<string>, ghost prev: map<nat, nat>,
                     ghost start: seq<u32>)
    returns (full: bool, m: map<nat, nat>, used: seq<bool>, names: seq<string>, ticks: seq<u32>)
    requires Passing(m0, used0, names0, ticks0, hashes, nameOf, before, prev, start) && Injective(nameOf)
    requires e.taskHash in hashes && e.taskHash in nameOf && Name15(e.taskName) == nameOf[e.taskHash]
    ensures Passing(m, used, names, ticks, hashes, nameOf, before, prev, start)
    ensures full ==> m == m0 && Filled(m, hashes)
    ensures !full ==> m.Keys == m0.Keys + {e.taskHash}
  {
    var h := e.taskHash;
    m, used, names, ticks := m0, used0, names0, ticks0;
    if h in m { return false, m, used, names, ticks; }
    var idx := LowestFree(used);
    if idx >= MAX_TASKS {
      IndexSize(m, used, names, before, nameOf);
      SubsetSize(m.Keys, hashes);
      return true, m, used, names, ticks;
    }
    full, m, used, names, ticks := false, m[h := idx], used[idx := true],
        names[idx := Name15(e.taskName)], ticks[idx := 0];
    PassingStep(m0, used0, names0, ticks0, hashes, nameOf, before, prev, start, h, idx, m, used, names, ticks);
  }

  lemma PassingStep(m: map<nat, nat>, used: seq<bool>, names: seq<string>, ticks: seq<u32>, hashes: set<nat>,
                    nameOf: map<nat, string>, before: seq<string>, prev: map<nat, nat>, ticks0: seq<u32>,
                    h: nat, idx: nat,
                    m': map<nat, nat>, used': seq<bool>, names': seq<string>, ticks': seq<u32>)
    requires Passing(m, used, names, ticks, hashes, nameOf, before, prev, ticks0) && Injective(nameOf)
    requires h !in m && h in hashes && h in nameOf && idx < MAX_TASKS && !used[idx] && forall i :: 0 <= i < idx ==>
               used[i]
    requires m' == m[h := idx] && used' == used[idx := true] && names' == names[idx := nameOf[h]]
    requires ticks' == ticks[idx := 0]
    ensures Passing(m', used', names', ticks', hashes, nameOf, before, prev, ticks0)
  {
    forall i | 0 <= i < idx ensures names[i] != nameOf[h] {
      UsedName(m, used, names, before, nameOf, h, i);
    }
    AddTask(m, names, nameOf, h, idx);
    UseCell(m, used, names, before, h, idx, nameOf[h]);
    ResetStep(m, prev, ticks, ticks0, h, idx);
    ValuesGrow(m, h, idx);
  }

  lemma ResetStep(m: map<nat, nat>, prev: map<nat, nat>, ticks: seq<u32>, ticks0: seq<u32>, h: nat, idx: nat)
    requires Reset(m, prev, ticks, ticks0) && h !in m && h !in prev && idx < MAX_TASKS
    ensures Reset(m[h := idx], prev, ticks[idx := 0], ticks0)
  {
    var m' := m[h := idx];
    forall i | 0 <= i < MAX_TASKS
      ensures ticks[idx := 0][i] == if NewAt(m', prev, i) then 0 else ticks0[i]
    {
      if i == idx {
        assert h in m' && m'[h] == i;
      } else if NewAt(m, prev, i) {
        var g :| g in m && g !in prev && m[g] == i;
        assert m'[g] == i;
      }
    }
  }

  lemma ValuesGrow(m: map<nat, nat>, h: nat, idx: nat)
    requires h !in m
    ensures forall v :: Taken(m, v) ==> Taken(m[h := idx], v)
  {
    forall v | Taken(m, v) ensures Taken(m[h := idx], v) {
      var g :| g in m && m[g] == v;
      assert m[h := idx][g] == v;
    }
  }

  /** One past the largest index in use. */
  method HighestPlusOne(m: map<nat, nat>) returns (n: nat)
    ensures Bounds(m, n)
  {
    n := 0;
    var todo := m.Keys;
    while todo != {}
      invariant todo <= m.Keys
      invariant forall h :: h in m && h !in todo ==> m[h] < n
      invariant n > 0 ==> exists h :: h in m && m[h] == n - 1
      decreases |todo|
    {
      var h :| h in todo;
      if m[h] + 1 > n { n := m[h] + 1; }
      todo := todo - {h};
    }
  }
}
