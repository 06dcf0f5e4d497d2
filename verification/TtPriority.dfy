/** Counting runnable TT tasks per CPU in the kernel scheduler, so that CBS work never runs ahead of TT work. */
module TtPriority {

  const MAX_CPUS: nat := 128
  const TT_ACTIVE_RUNNING: nat := 0xFFFF_FFFF_FFFF_FFFF

  datatype Kind = TT | CBS | BestEffort

  datatype TaskMeta = TaskMeta(kind: Kind, assignedCpu: nat, ttRunnable: bool)

  /** The task map and the two per-CPU arrays. */
  datatype Maps = Maps(metas: map<nat, TaskMeta>, count: seq<nat>, activeUntil: seq<nat>)

  datatype Queue = Global | LocalOn(cpu: nat) | CbsPath | BestEffortQueue

  /** Isolated CPUs are the set bits of a 64-bit mask. */
  predicate Isolated(isolated: set<nat>, cpu: nat) {
    cpu < 64 && cpu in isolated
  }

  function MarkRunnable(m: Maps, pid: nat, cpu: nat): Maps
    requires pid in m.metas && cpu < |m.count| == |m.activeUntil|
  {
    var meta := m.metas[pid];
    var m1 := if meta.ttRunnable then m
              else m.(count := m.count[cpu := m.count[cpu] + 1], metas := m.metas[pid := meta.(ttRunnable := true)]);
    m1.(activeUntil := m1.activeUntil[cpu := TT_ACTIVE_RUNNING])
  }

  function MarkNotRunnable(m: Maps, pid: nat, cpu: nat): Maps
    requires pid in m.metas && cpu < |m.count| == |m.activeUntil|
  {
    var meta := m.metas[pid];
    if !meta.ttRunnable then m
    else
      var left := if m.count[cpu] > 0 then m.count[cpu] - 1 else 0;
      var m1 := m.(count := m.count[cpu := left], metas := m.metas[pid := meta.(ttRunnable := false)]);
      if left == 0 then m1.(activeUntil := m1.activeUntil[cpu := 0]) else m1
  }

  datatype Event =
    | Enqueue(pid: nat)
    | Stopping(pid: nat, runnable: bool, cpu: nat)

  function Step(m: Maps, isolated: set<nat>, e: Event): (r: Maps)
    requires |m.count| == |m.activeUntil| == MAX_CPUS
    ensures |r.count| == |r.activeUntil| == MAX_CPUS
  {
    if e.pid !in m.metas || !m.metas[e.pid].kind.TT? then m
    else
      var meta := m.metas[e.pid];
      match e
      case Enqueue(pid) => if Isolated(isolated, meta.assignedCpu) then MarkRunnable(m, pid, meta.assignedCpu) else m
      case Stopping(pid, runnable, cpu) => if !runnable && cpu < MAX_CPUS then MarkNotRunnable(m, pid, cpu) else m
  }

  /** TT tasks of `cpu` marked as runnable. */
  ghost function Flagged(metas: map<nat, TaskMeta>, cpu: nat): set<nat> {
    set pid | pid in metas && metas[pid].kind.TT? && metas[pid].ttRunnable && metas[pid].assignedCpu == cpu
  }

  ghost predicate CountedAt(m: Maps, cpu: nat)
    requires cpu < |m.count| == |m.activeUntil|
  {
    && m.count[cpu] == |Flagged(m.metas, cpu)|
    && m.activeUntil[cpu] == if m.count[cpu] > 0 then TT_ACTIVE_RUNNING else 0
  }

  /** The counters and activity words agree with the flags on every CPU; flagged tasks sit on isolated CPUs. */
  ghost predicate Counted(m: Maps, isolated: set<nat>) {
    && |m.count| == |m.activeUntil| == MAX_CPUS
    && (forall cpu :: 0 <= cpu < MAX_CPUS ==> CountedAt(m, cpu))
    && (forall pid :: pid in m.metas && m.metas[pid].kind.TT? && m.metas[pid].ttRunnable ==>
          Isolated(isolated, m.metas[pid].assignedCpu))
  }

  lemma FlaggedUpdate(metas: map<nat, TaskMeta>, pid: nat, on: bool, cpu: nat)
    requires pid in metas && metas[pid].kind.TT?
    ensures var meta := metas[pid]; var metas' := metas[pid := meta.(ttRunnable := on)];
            Flagged(metas', cpu) == if cpu != meta.assignedCpu then Flagged(metas, cpu)
                                    else if on then Flagged(metas, cpu) + {pid} else Flagged(metas, cpu) - {pid}
  {
  }

  lemma MarkRunnableCounted(m: Maps, isolated: set<nat>, pid: nat)
    requires Counted(m, isolated) && pid in m.metas && m.metas[pid].kind.TT?
    requires Isolated(isolated, m.metas[pid].assignedCpu)
    ensures Counted(MarkRunnable(m, pid, m.metas[pid].assignedCpu), isolated)
  {
    var c := m.metas[pid].assignedCpu;
    var r := MarkRunnable(m, pid, c);
    assert CountedAt(m, c);
    if m.metas[pid].ttRunnable {
      assert pid in Flagged(m.metas, c);
    } else {
      forall cpu | 0 <= cpu < MAX_CPUS ensures CountedAt(r, cpu) {
        FlaggedUpdate(m.metas, pid, true, cpu);
        assert CountedAt(m, cpu);
      }
    }
    forall cpu | 0 <= cpu < MAX_CPUS ensures CountedAt(r, cpu) { assert CountedAt(m, cpu); }
  }

  lemma MarkNotRunnableCounted(m: Maps, isolated: set<nat>, pid: nat)
    requires Counted(m, isolated) && pid in m.metas && m.metas[pid].kind.TT? && m.metas[pid].ttRunnable
    ensures Counted(MarkNotRunnable(m, pid, m.metas[pid].assignedCpu), isolated)
  {
    var c := m.metas[pid].assignedCpu;
    var r := MarkNotRunnable(m, pid, c);
    assert CountedAt(m, c) && pid in Flagged(m.metas, c);
    forall cpu | 0 <= cpu < MAX_CPUS ensures CountedAt(r, cpu) {
      FlaggedUpdate(m.metas, pid, false, cpu);
      assert CountedAt(m, cpu);
    }
  }

  /** Stops of flagged TT tasks happen on the CPU they are assigned to. */
  predicate StopsAtHome(m: Maps, e: Event) {
    e.Stopping? && !e.runnable && e.pid in m.metas && m.metas[e.pid].kind.TT? && m.metas[e.pid].ttRunnable ==>
      e.cpu == m.metas[e.pid].assignedCpu
  }

  /** One operation keeps the counters exact if and only if a blocking TT task stops on its assigned CPU. */
  lemma StepCountedIff(m: Maps, isolated: set<nat>, e: Event)
    requires Counted(m, isolated) && (e.Stopping? ==> e.cpu < MAX_CPUS)
    ensures Counted(Step(m, isolated, e), isolated) <==> StopsAtHome(m, e)
  {
    if e.pid in m.metas && m.metas[e.pid].kind.TT? {
      var meta := m.metas[e.pid];
      match e
      case Enqueue(pid) =>
        if Isolated(isolated, meta.assignedCpu) { MarkRunnableCounted(m, isolated, pid); }
      case Stopping(pid, runnable, cpu) =>
        if !runnable && meta.ttRunnable {
          if cpu == meta.assignedCpu {
            MarkNotRunnableCounted(m, isolated, pid);
          } else {
            StrayStop(m, isolated, pid, cpu);
          }
        }
    }
  }

  /** A stop elsewhere leaves the home CPU's counter one too high. */
  lemma StrayStop(m: Maps, isolated: set<nat>, pid: nat, cpu: nat)
    requires Counted(m, isolated) && pid in m.metas && m.metas[pid].kind.TT? && m.metas[pid].ttRunnable
    requires cpu < MAX_CPUS && cpu != m.metas[pid].assignedCpu
    ensures var r, c := MarkNotRunnable(m, pid, cpu), m.metas[pid].assignedCpu;
            c < MAX_CPUS && r.count[c] == |Flagged(r.metas, c)| + 1 && !CountedAt(r, c)
  {
    var c := m.metas[pid].assignedCpu;
    assert CountedAt(m, c) && pid in Flagged(m.metas, c);
    FlaggedUpdate(m.metas, pid, false, c);
  }

  // ---- whole runs ----

  function Run(m: Maps, isolated: set<nat>, events: seq<Event>): (r: Maps)
    requires |m.count| == |m.activeUntil| == MAX_CPUS
    ensures |r.count| == |r.activeUntil| == MAX_CPUS
  {
    if events == [] then m else Step(Run(m, isolated, events[..|events| - 1]), isolated, events[|events| - 1])
  }

  ghost predicate AllStopAtHome(m: Maps, isolated: set<nat>, events: seq<Event>)
    requires |m.count| == |m.activeUntil| == MAX_CPUS
  {
    forall n :: 0 <= n < |events| ==>
      && (events[n].Stopping? ==> events[n].cpu < MAX_CPUS)
      && StopsAtHome(Run(m, isolated, events[..n]), events[n])
  }

  /** Freshly loaded maps: all tasks unflagged, all counters zero. */
  predicate Fresh(m: Maps) {
    && |m.count| == |m.activeUntil| == MAX_CPUS
    && (forall cpu :: 0 <= cpu < MAX_CPUS ==> m.count[cpu] == 0 && m.activeUntil[cpu] == 0)
    && (forall pid :: pid in m.metas ==> !m.metas[pid].ttRunnable)
  }

  lemma {:induction false} AlwaysCounted(m: Maps, isolated: set<nat>, events: seq<Event>)
    requires Fresh(m) && AllStopAtHome(m, isolated, events)
    ensures Counted(Run(m, isolated, events), isolated)
  {
    if events == [] {
      forall cpu | 0 <= cpu < MAX_CPUS ensures CountedAt(m, cpu) { assert Flagged(m.metas, cpu) == {}; }
    } else {
      var n := |events| - 1;
      var init := events[..n];
      forall i | 0 <= i < n
        ensures (init[i].Stopping? ==> init[i].cpu < MAX_CPUS) && StopsAtHome(Run(m, isolated, init[..i]), init[i])
      {
        assert init[..i] == events[..i];
      }
      AlwaysCounted(m, isolated, init);
      StepCountedIff(Run(m, isolated, init), isolated, events[n]);
    }
  }

  function TtActive(m: Maps, cpu: nat, now: nat): bool
    requires cpu < |m.count| == |m.activeUntil|
  {
    m.count[cpu] > 0 || m.activeUntil[cpu] > now
  }

  /** In every reachable state, dispatch lets CBS work onto a CPU exactly when no TT task of that CPU is runnable. */
  lemma TtAlwaysWins(m: Maps, isolated: set<nat>, events: seq<Event>, cpu: nat, now: nat)
    requires Fresh(m) && AllStopAtHome(m, isolated, events) && cpu < MAX_CPUS && now < TT_ACTIVE_RUNNING
    ensures var r := Run(m, isolated, events);
            && r.count[cpu] == |Flagged(r.metas, cpu)|
            && (r.activeUntil[cpu] == TT_ACTIVE_RUNNING <==> r.count[cpu] > 0)
            && (r.activeUntil[cpu] == 0 <==> r.count[cpu] == 0)
            && (TtActive(r, cpu, now) <==> exists pid :: pid in Flagged(r.metas, cpu))
  {
    AlwaysCounted(m, isolated, events);
    var r := Run(m, isolated, events);
    assert CountedAt(r, cpu);
    if |Flagged(r.metas, cpu)| > 0 {
      assert Flagged(r.metas, cpu) != {};
      var pid :| pid in Flagged(r.metas, cpu);
    }
  }

  /** By how much the counter exceeds the number of runnable TT tasks of the CPU. */
  ghost function Excess(m: Maps, cpu: nat): int
    requires cpu < |m.count|
  {
    m.count[cpu] - |Flagged(m.metas, cpu)|
  }

  /** The event is a marked TT task blocking on some CPU. */
  predicate Blocks(m: Maps, e: Event) {
    e.Stopping? && !e.runnable && e.cpu < MAX_CPUS
    && e.pid in m.metas && m.metas[e.pid].kind.TT? && m.metas[e.pid].ttRunnable
  }

  /** Blocking takes the task off its own CPU's flags and one off the counter of the CPU it blocks on. */
  function Drift(m: Maps, e: Event, c: nat): int
    requires c < |m.count|
  {
    if !Blocks(m, e) then 0
    else (if m.metas[e.pid].assignedCpu == c then 1 else 0) - if e.cpu == c && m.count[c] > 0 then 1 else 0
  }

  lemma DriftStep(m: Maps, isolated: set<nat>, e: Event, c: nat)
    requires |m.count| == |m.activeUntil| == MAX_CPUS && c < MAX_CPUS
    ensures Excess(Step(m, isolated, e), c) == Excess(m, c) + Drift(m, e, c)
  {
    if e.pid in m.metas && m.metas[e.pid].kind.TT? {
      match e
      case Enqueue(pid) =>
        if Isolated(isolated, m.metas[pid].assignedCpu) { ExcessMark(m, pid, c); }
      case Stopping(pid, runnable, cpu) =>
        if !runnable && cpu < MAX_CPUS && m.metas[pid].ttRunnable { ExcessUnmark(m, pid, cpu, c); }
    }
  }

  lemma ExcessMark(m: Maps, pid: nat, c: nat)
    requires pid in m.metas && m.metas[pid].kind.TT? && m.metas[pid].assignedCpu < |m.count| == |m.activeUntil|
    requires c < |m.count|
    ensures Excess(MarkRunnable(m, pid, m.metas[pid].assignedCpu), c) == Excess(m, c)
  {
    FlaggedUpdate(m.metas, pid, true, c);
  }

  lemma ExcessUnmark(m: Maps, pid: nat, cpu: nat, c: nat)
    requires |m.count| == |m.activeUntil| == MAX_CPUS && cpu < MAX_CPUS && c < MAX_CPUS
    requires pid in m.metas && m.metas[pid].kind.TT? && m.metas[pid].ttRunnable
    ensures Excess(MarkNotRunnable(m, pid, cpu), c) == Excess(m, c) + Drift(m, Stopping(pid, false, cpu), c)
  {
    FlaggedUpdate(m.metas, pid, false, c);
    assert c == m.metas[pid].assignedCpu ==> pid in Flagged(m.metas, c);
  }

  ghost function DriftOver(m: Maps, isolated: set<nat>, events: seq<Event>, c: nat): int
    requires |m.count| == |m.activeUntil| == MAX_CPUS && c < MAX_CPUS
  {
    if events == [] then 0
    else
      var n := |events| - 1;
      DriftOver(m, isolated, events[..n], c) + Drift(Run(m, isolated, events[..n]), events[n], c)
  }

  /** Over any run, from any maps: what the counter and the flags disagree by is the sum of the drifts. */
  lemma {:induction false} DriftRun(m: Maps, isolated: set<nat>, events: seq<Event>, c: nat)
    requires |m.count| == |m.activeUntil| == MAX_CPUS && c < MAX_CPUS
    ensures Excess(Run(m, isolated, events), c) == Excess(m, c) + DriftOver(m, isolated, events, c)
  {
    if events != [] {
      var n := |events| - 1;
      DriftRun(m, isolated, events[..n], c);
      DriftStep(Run(m, isolated, events[..n]), isolated, events[n], c);
    }
  }

  /** No TT task of another CPU blocks on `c`. */
  ghost predicate NoGuestBlocks(m: Maps, isolated: set<nat>, events: seq<Event>, c: nat)
    requires |m.count| == |m.activeUntil| == MAX_CPUS
  {
    events != [] ==>
      && NoGuestBlocks(m, isolated, events[..|events| - 1], c)
      && var before, e := Run(m, isolated, events[..|events| - 1]), events[|events| - 1];
         Blocks(before, e) && e.cpu == c ==> before.metas[e.pid].assignedCpu == c
  }

  lemma {:induction false} OnlyGuestsLower(m: Maps, isolated: set<nat>, events: seq<Event>, c: nat)
    requires |m.count| == |m.activeUntil| == MAX_CPUS && c < MAX_CPUS && NoGuestBlocks(m, isolated, events, c)
    ensures DriftOver(m, isolated, events, c) >= 0
  {
    if events != [] {
      OnlyGuestsLower(m, isolated, events[..|events| - 1], c);
    }
  }

  /**
   * After one stray stop the home counter stays above zero, and CBS work is kept off that CPU,
   * until a TT task of another CPU blocks there; further stops of its own tasks, stray or not, do not help.
   */
  lemma StrayLasts(m: Maps, isolated: set<nat>, pid: nat, cpu: nat, events: seq<Event>, now: nat)
    requires Counted(m, isolated) && pid in m.metas && m.metas[pid].kind.TT? && m.metas[pid].ttRunnable
    requires cpu < MAX_CPUS && cpu != m.metas[pid].assignedCpu
    requires NoGuestBlocks(MarkNotRunnable(m, pid, cpu), isolated, events, m.metas[pid].assignedCpu)
    ensures var r, c := Run(MarkNotRunnable(m, pid, cpu), isolated, events), m.metas[pid].assignedCpu;
            c < MAX_CPUS && r.count[c] > |Flagged(r.metas, c)| && TtActive(r, c, now)
  {
    var c := m.metas[pid].assignedCpu;
    StrayStop(m, isolated, pid, cpu);
    DriftRun(MarkNotRunnable(m, pid, cpu), isolated, events, c);
    OnlyGuestsLower(MarkNotRunnable(m, pid, cpu), isolated, events, c);
  }

  /** From fresh maps: a task of CPU 0 is enqueued and blocks on CPU 1, and CPU 0 counts it on. */
  lemma StrayReachable(isolated: set<nat>, now: nat) returns (m: Maps, events: seq<Event>)
    requires 0 in isolated
    ensures Fresh(m) && |events| == 2
    ensures var r := Run(m, isolated, events); r.count[0] == 1 && Flagged(r.metas, 0) == {} && TtActive(r, 0, now)
  {
    m := Maps(map[7 := TaskMeta(TT, 0, false)], seq(MAX_CPUS, _ => 0), seq(MAX_CPUS, _ => 0));
    events := [Enqueue(7), Stopping(7, false, 1)];
    assert events[..1] == [Enqueue(7)] && events[..1][..0] == [];
    assert Run(m, isolated, events[..1]) == MarkRunnable(m, 7, 0);
    assert Run(m, isolated, events) == MarkNotRunnable(MarkRunnable(m, 7, 0), 7, 1);
  }

  /** Re-enqueueing a preempted TT task does not count it twice. */
  lemma ReenqueueIdempotent(m: Maps, isolated: set<nat>, pid: nat)
    requires |m.count| == |m.activeUntil| == MAX_CPUS
    ensures var once := Step(m, isolated, Enqueue(pid));
            && Step(once, isolated, Enqueue(pid)) == once
            && forall cpu :: Step(Step(once, isolated, Stopping(pid, true, cpu)), isolated, Enqueue(pid)) == once
  {
  }

  // ---- the maps updated in place ----

  class SchedMaps {
    var metas: map<nat, TaskMeta>
    var count: array<nat>
    var activeUntil: array<nat>
    const isolated: set<nat>

    ghost predicate Valid()
      reads this
    {
      count.Length == activeUntil.Length == MAX_CPUS && count != activeUntil
    }

    ghost function State(): Maps
      reads this, count, activeUntil
    {
      Maps(metas, count[..], activeUntil[..])
    }

    constructor (metas: map<nat, TaskMeta>, isolated: set<nat>)
      requires forall pid :: pid in metas ==> !metas[pid].ttRunnable
      ensures Valid() && Fresh(State()) && this.metas == metas && this.isolated == isolated
      ensures fresh(count) && fresh(activeUntil)
    {
      this.metas, this.isolated := metas, isolated;
      count := new nat[MAX_CPUS](_ => 0);
      activeUntil := new nat[MAX_CPUS](_ => 0);
    }

    /** Enqueue: TT tasks go to their CPU's local queue and are marked, all others keep the counters. */
    method OnEnqueue(pid: nat) returns (q: Queue)
      requires Valid()
      modifies this`metas, count, activeUntil
      ensures State() == Step(old(State()), isolated, Enqueue(pid))
      ensures q == if pid !in metas then Global
                   else match metas[pid].kind
                        case TT => if Isolated(isolated, metas[pid].assignedCpu)
                                   then LocalOn(metas[pid].assignedCpu) else Global
                        case CBS => CbsPath
                        case BestEffort => BestEffortQueue
    {
      if pid !in metas { return Global; }
      var meta := metas[pid];
      match meta.kind
      case TT =>
        var cpu := meta.assignedCpu;
        if Isolated(isolated, cpu) {
          if !meta.ttRunnable {
            count[cpu] := count[cpu] + 1;
            metas := metas[pid := meta.(ttRunnable := true)];
          }
          activeUntil[cpu] := TT_ACTIVE_RUNNING;
          q := LocalOn(cpu);
        } else {
          q := Global;
        }
      case CBS => q := CbsPath;
      case BestEffort => q := BestEffortQueue;
    }

    method OnStopping(pid: nat, runnable: bool, cpu: nat)
      requires Valid() && cpu < MAX_CPUS
      modifies this`metas, count, activeUntil
      ensures State() == Step(old(State()), isolated, Stopping(pid, runnable, cpu))
    {
      if pid !in metas { return; }
      var meta := metas[pid];
      if meta.kind.TT? && !runnable && meta.ttRunnable {
        if count[cpu] > 0 { count[cpu] := count[cpu] - 1; }
        metas := metas[pid := meta.(ttRunnable := false)];
        if count[cpu] == 0 { activeUntil[cpu] := 0; }
      }
    }

    /** Dispatch on a CPU: may CBS work be consumed? */
    method OnDispatch(cpu: nat, now: nat) returns (consumeCbs: bool)
      requires Valid() && cpu < MAX_CPUS
      ensures consumeCbs <==> !TtActive(State(), cpu, now)
    {
      consumeCbs := !(count[cpu] > 0 || activeUntil[cpu] > now);
    }
  }
}
