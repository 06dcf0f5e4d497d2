/** Time-triggered slot placement on one CPU: the free-slot scan and the greedy layout. */
module SlotPlacement {
  import opened Basics
  import opened Sequences

  function Wrap32(x: nat): (r: u32)
    ensures x < TWO_32 ==> r == x
  {
    x % TWO_32
  }

  datatype Mechanism = TT | CBS

  datatype ClassifiedTask = ClassifiedTask(
    workloadId: string, taskId: string, mechanism: Mechanism,
    periodUs: u32, wcetUs: u32, deadlineUs: u32, maxDmiss: u32)

  datatype TtSlot = TtSlot(
    workloadId: string, taskId: string, offsetUs: u32, durationUs: u32,
    deadlineUs: u32, maxDmiss: u32, cpu: int)

  datatype Reason = NonHarmonicPeriod | TtSlotConflict | NoCbsBandwidth | SafetyCbsExceeded | UtilizationExceeded

  datatype InfeasibleError = InfeasibleError(reason: Reason, cpu: int, taskId: string)

  /** Half-open occupied interval. */
  datatype Interval = Interval(start: u32, end: u32)

  predicate Conflicts(x: int, d: int, o: Interval) {
    x < o.end && x + d > o.start
  }

  /** [x, x+d) clashes with none of the occupied intervals. */
  predicate Free(occ: seq<Interval>, x: int, d: int) {
    forall i :: 0 <= i < |occ| ==> !Conflicts(x, d, occ[i])
  }

  predicate Within(t: int, lo: int, hi: int) {
    lo <= t < hi
  }

  /** For non-empty intervals the code's test is exactly "some instant is shared". */
  lemma ConflictIsIntersection(x: nat, d: nat, o: Interval)
    requires d > 0 && o.start < o.end
    ensures Conflicts(x, d, o) <==> exists t :: Within(t, x, x + d) && Within(t, o.start, o.end)
  {
    var t := if x >= o.start then x else o.start;
    assert Conflicts(x, d, o) ==> Within(t, x, x + d) && Within(t, o.start, o.end);
  }

  /** A start inside the frame at which the job fits. */
  predicate Fits(occ: seq<Interval>, x: int, lo: int, d: int, hi: int) {
    lo <= x && x + d <= hi && Free(occ, x, d)
  }

  /** The earliest start inside the frame at which the job fits. */
  ghost predicate Earliest(occ: seq<Interval>, x: int, lo: int, d: int, hi: int) {
    Fits(occ, x, lo, d, hi) && forall y :: lo <= y < x ==> !Free(occ, y, d)
  }

  ghost predicate NoRoom(occ: seq<Interval>, lo: int, d: int, hi: int) {
    forall y :: !Fits(occ, y, lo, d, hi)
  }

  /** Reference: try every start of the frame in turn. */
  function EarliestFrom(occ: seq<Interval>, x: nat, d: nat, hi: nat): (r: int)
    ensures r == -1 || x <= r <= hi
    decreases hi - x
  {
    if x + d > hi then -1
    else if Free(occ, x, d) then x
    else EarliestFrom(occ, x + 1, d, hi)
  }

  lemma {:induction false} EarliestFromCorrect(occ: seq<Interval>, x: nat, d: nat, hi: nat)
    ensures var r := EarliestFrom(occ, x, d, hi); if r == -1 then NoRoom(occ, x, d, hi) else Earliest(occ, r, x, d, hi)
    decreases hi - x
  {
    if x + d <= hi && !Free(occ, x, d) {
      EarliestFromCorrect(occ, x + 1, d, hi);
      assert forall y :: Fits(occ, y, x, d, hi) ==> Fits(occ, y, x + 1, d, hi);
    }
  }

  /** An earliest start, or the absence of any, is what the reference finds. */
  lemma EarliestIsReference(occ: seq<Interval>, offset: int, x: nat, d: nat, hi: nat)
    requires if offset == -1 then NoRoom(occ, x, d, hi) else Earliest(occ, offset, x, d, hi)
    ensures offset == EarliestFrom(occ, x, d, hi)
  {
    EarliestFromCorrect(occ, x, d, hi);
    var r := EarliestFrom(occ, x, d, hi);
    assert offset != -1 ==> Fits(occ, offset, x, d, hi);
    assert r != -1 ==> Fits(occ, r, x, d, hi);
  }

  /**
   * The jump-forward scan, over intervals in any order. Range hypothesis: no
   * sum of a candidate and the duration leaves 31 bits.
   */
  method FindFreeSlot(occupied: seq<Interval>, start: u32, duration: u32, deadlineEnd: u32) returns (offset: int)
    requires start + duration < TWO_31 && deadlineEnd + duration < TWO_31
    requires forall i :: 0 <= i < |occupied| ==> occupied[i].end + duration < TWO_31
    ensures offset >= -1
    ensures offset >= 0 ==> Earliest(occupied, offset, start, duration, deadlineEnd)
    ensures offset == -1 <==> NoRoom(occupied, start, duration, deadlineEnd)
    ensures offset == EarliestFrom(occupied, start, duration, deadlineEnd)
  {
    var candidate := start;
    while Wrap32(candidate + duration) <= deadlineEnd
      invariant start <= candidate && candidate + duration < TWO_31
      invariant forall y :: start <= y < candidate ==> !Free(occupied, y, duration)
      decreases deadlineEnd - candidate
    {
      var conflict := false;
      for i := 0 to |occupied|
        invariant !conflict
        invariant forall j :: 0 <= j < i ==> !Conflicts(candidate, duration, occupied[j])
      {
        if candidate < occupied[i].end && Wrap32(candidate + duration) > occupied[i].start {
          forall y | candidate <= y < occupied[i].end
            ensures !Free(occupied, y, duration)
          {
            assert Conflicts(y, duration, occupied[i]);
          }
          candidate := occupied[i].end;
          conflict := true;
          break;
        }
      }
      if !conflict {
        assert Fits(occupied, candidate, start, duration, deadlineEnd);
        EarliestIsReference(occupied, candidate, start, duration, deadlineEnd);
        return candidate;
      }
    }
    offset := -1;
    EarliestIsReference(occupied, offset, start, duration, deadlineEnd);
  }

  // ---- the greedy layout ----

  /** The k-th instance of the task at an index. */
  datatype Job = Job(task: nat, k: nat)

  function Repeats(t: ClassifiedTask, hp: nat): nat {
    if t.periodUs == 0 then 0 else hp / t.periodUs
  }

  function FrameStart(t: ClassifiedTask, k: nat): nat {
    k * t.periodUs
  }

  function FrameEnd(t: ClassifiedTask, k: nat, hp: nat): nat {
    var e := FrameStart(t, k) + t.deadlineUs;
    if e > hp then hp else e
  }

  /** A start at which the k-th instance of the task keeps to its period, its deadline and the hyperperiod. */
  predicate InFrame(t: ClassifiedTask, k: nat, hp: nat, x: int) {
    k * t.periodUs <= x && x + t.wcetUs <= k * t.periodUs + t.deadlineUs && x + t.wcetUs <= hp
  }

  /** The earliest start in the frame that clashes with nothing. */
  ghost predicate TakesEarliest(occ: seq<Interval>, t: ClassifiedTask, k: nat, hp: nat, x: int) {
    InFrame(t, k, hp, x) && Free(occ, x, t.wcetUs) && forall y :: k * t.periodUs <= y < x ==> !Free(occ, y, t.wcetUs)
  }

  /** Every start in the frame clashes with an occupied interval. */
  ghost predicate NoStart(occ: seq<Interval>, t: ClassifiedTask, k: nat, hp: nat) {
    forall x :: InFrame(t, k, hp, x) ==> !Free(occ, x, t.wcetUs)
  }

  /** The bounds the scan is given are the frame's. */
  lemma FrameIs(occ: seq<Interval>, t: ClassifiedTask, k: nat, hp: nat)
    ensures forall x :: TakesEarliest(occ, t, k, hp, x) <==>
              Earliest(occ, x, FrameStart(t, k), t.wcetUs, FrameEnd(t, k, hp))
    ensures NoStart(occ, t, k, hp) <==> NoRoom(occ, FrameStart(t, k), t.wcetUs, FrameEnd(t, k, hp))
  {
    forall x
      ensures Fits(occ, x, FrameStart(t, k), t.wcetUs, FrameEnd(t, k, hp)) <==>
              InFrame(t, k, hp, x) && Free(occ, x, t.wcetUs)
    {
    }
  }

  /** Hyperperiod, deadlines and execution times stay clear of the 31-bit limit. */
  ghost predicate InRange(tasks: seq<ClassifiedTask>, hp: nat) {
    && hp < TWO_31
    && forall i :: 0 <= i < |tasks| ==> hp + tasks[i].deadlineUs + tasks[i].wcetUs < TWO_31
  }

  ghost function Instances(t: nat, k: nat): (r: seq<Job>)
    ensures |r| == k && forall i :: 0 <= i < k ==> r[i] == Job(t, i)
  {
    seq(k, i requires 0 <= i < k => Job(t, i))
  }

  /** Jobs in placement order: all instances of the tasks before `t`, then `k` instances of `t`. */
  ghost function JobsBefore(tasks: seq<ClassifiedTask>, hp: nat, t: nat, k: nat): seq<Job>
    requires t <= |tasks|
    decreases t
  {
    (if t == 0 then [] else JobsBefore(tasks, hp, t - 1, Repeats(tasks[t - 1], hp))) + Instances(t, k)
  }

  ghost function AllJobs(tasks: seq<ClassifiedTask>, hp: nat): seq<Job> {
    JobsBefore(tasks, hp, |tasks|, 0)
  }

  ghost predicate ValidJob(tasks: seq<ClassifiedTask>, hp: nat, j: Job) {
    j.task < |tasks| && j.k < Repeats(tasks[j.task], hp)
  }

  lemma JobsBeforeExtends(tasks: seq<ClassifiedTask>, hp: nat, t: nat, k: nat)
    requires t < |tasks|
    ensures JobsBefore(tasks, hp, t, k + 1) == JobsBefore(tasks, hp, t, k) + [Job(t, k)]
  {
    assert Instances(t, k + 1) == Instances(t, k) + [Job(t, k)];
  }

  lemma JobsBeforeNext(tasks: seq<ClassifiedTask>, hp: nat, t: nat)
    requires t < |tasks|
    ensures JobsBefore(tasks, hp, t + 1, 0) == JobsBefore(tasks, hp, t, Repeats(tasks[t], hp))
  {
  }

  lemma {:induction false} JobsBeforePrefix(tasks: seq<ClassifiedTask>, hp: nat, t: nat, k: nat)
    requires t < |tasks| && k <= Repeats(tasks[t], hp)
    ensures JobsBefore(tasks, hp, t, k) <= AllJobs(tasks, hp)
    decreases |tasks| - t, Repeats(tasks[t], hp) - k
  {
    if k < Repeats(tasks[t], hp) {
      JobsBeforeExtends(tasks, hp, t, k);
      JobsBeforePrefix(tasks, hp, t, k + 1);
    } else if t + 1 < |tasks| {
      JobsBeforePrefix(tasks, hp, t + 1, 0);
    }
  }

  lemma NextJob(tasks: seq<ClassifiedTask>, hp: nat, t: nat, k: nat)
    requires t < |tasks| && k < Repeats(tasks[t], hp)
    ensures var js := JobsBefore(tasks, hp, t, k);
            && JobsBefore(tasks, hp, t, k + 1) == js + [Job(t, k)] <= AllJobs(tasks, hp)
            && AllJobs(tasks, hp)[|js|] == Job(t, k)
  {
    JobsBeforeExtends(tasks, hp, t, k);
    JobsBeforePrefix(tasks, hp, t, k + 1);
  }

  /** An instance of a task before `t`, or one of the first `k` of `t`. */
  predicate IsBefore(tasks: seq<ClassifiedTask>, hp: nat, t: nat, k: nat, j: Job)
    requires t <= |tasks|
  {
    (j.task < t && j.k < Repeats(tasks[j.task], hp)) || (j.task == t && j.k < k)
  }

  lemma IsBeforeStep(tasks: seq<ClassifiedTask>, hp: nat, t: nat, k: nat, j: Job)
    requires 0 < t <= |tasks|
    ensures IsBefore(tasks, hp, t, k, j) <==>
              IsBefore(tasks, hp, t - 1, Repeats(tasks[t - 1], hp), j) || (j.task == t && j.k < k)
  {
  }

  /** The placement order holds every instance of every task ... */
  lemma {:induction false} JobBefore(tasks: seq<ClassifiedTask>, hp: nat, t: nat, k: nat, j: Job)
    requires t <= |tasks|
    ensures j in JobsBefore(tasks, hp, t, k) <==> IsBefore(tasks, hp, t, k, j)
    decreases t
  {
    InInstances(t, k, j);
    if t > 0 {
      var r := Repeats(tasks[t - 1], hp);
      JobBefore(tasks, hp, t - 1, r, j);
      IsBeforeStep(tasks, hp, t, k, j);
      InConcat(JobsBefore(tasks, hp, t - 1, r), Instances(t, k), JobsBefore(tasks, hp, t, k), j);
    } else {
      InConcat([], Instances(t, k), JobsBefore(tasks, hp, t, k), j);
    }
  }

  lemma InConcat(head: seq<Job>, tail: seq<Job>, all: seq<Job>, j: Job)
    requires all == head + tail
    ensures j in all <==> j in head || j in tail
  {
  }

  lemma InInstances(t: nat, k: nat, j: Job)
    ensures j in Instances(t, k) <==> j.task == t && j.k < k
  {
    if j.task == t && j.k < k {
      assert Instances(t, k)[j.k] == j;
    }
  }

  lemma JobsBeforeContents(tasks: seq<ClassifiedTask>, hp: nat, t: nat, k: nat)
    requires t <= |tasks|
    ensures forall j :: j in JobsBefore(tasks, hp, t, k) <==> IsBefore(tasks, hp, t, k, j)
  {
    forall j: Job { JobBefore(tasks, hp, t, k, j); }
  }

  /** ... task by task, and instance by instance within a task ... */
  predicate Earlier(a: Job, b: Job) {
    a.task < b.task || (a.task == b.task && a.k < b.k)
  }

  ghost predicate InJobOrder(js: seq<Job>) {
    forall a, b :: 0 <= a < b < |js| ==> Earlier(js[a], js[b])
  }

  lemma JobOrderConcat(head: seq<Job>, tail: seq<Job>, all: seq<Job>, t: nat)
    requires InJobOrder(head) && InJobOrder(tail) && all == head + tail
    requires (forall j :: j in head ==> j.task < t) && forall b :: 0 <= b < |tail| ==> tail[b].task == t
    ensures InJobOrder(all)
  {
    forall a | 0 <= a < |head| ensures head[a].task < t { assert head[a] in head; }
  }

  lemma HeadBelow(tasks: seq<ClassifiedTask>, hp: nat, t: nat, r: nat, head: seq<Job>)
    requires 0 < t <= |tasks| && head == JobsBefore(tasks, hp, t - 1, r)
    ensures forall j :: j in head ==> j.task < t
  {
    forall j | j in head { JobBefore(tasks, hp, t - 1, r, j); }
  }

  lemma {:induction false} JobsInOrder(tasks: seq<ClassifiedTask>, hp: nat, t: nat, k: nat)
    requires t <= |tasks|
    ensures InJobOrder(JobsBefore(tasks, hp, t, k))
    decreases t
  {
    var tail, all := Instances(t, k), JobsBefore(tasks, hp, t, k);
    if t > 0 {
      var r := Repeats(tasks[t - 1], hp);
      var head := JobsBefore(tasks, hp, t - 1, r);
      JobsInOrder(tasks, hp, t - 1, r);
      HeadBelow(tasks, hp, t, r, head);
      JobOrderConcat(head, tail, all, t);
    } else {
      JobOrderConcat([], tail, all, t);
    }
  }

  /** ... exactly once. */
  lemma JobsBeforeDistinct(tasks: seq<ClassifiedTask>, hp: nat, t: nat, k: nat)
    requires t <= |tasks|
    ensures Distinct(JobsBefore(tasks, hp, t, k))
  {
    var js := JobsBefore(tasks, hp, t, k);
    JobsInOrder(tasks, hp, t, k);
    forall a, b | 0 <= a < b < |js| ensures js[a] != js[b] {
      assert Earlier(js[a], js[b]);
    }
  }

  ghost predicate PlacedEarliest(tasks: seq<ClassifiedTask>, hp: nat, j: Job, before: seq<Interval>, iv: Interval)
    requires j.task < |tasks|
  {
    var t := tasks[j.task];
    iv.end == iv.start + t.wcetUs && TakesEarliest(before, t, j.k, hp, iv.start)
  }

  /** `occ` is what the greedy strategy yields for the first |occ| jobs: each takes the earliest free start. */
  ghost predicate Greedy(tasks: seq<ClassifiedTask>, hp: nat, jobs: seq<Job>, occ: seq<Interval>) {
    && |occ| <= |jobs|
    && (forall i :: 0 <= i < |jobs| ==> jobs[i].task < |tasks|)
    && forall i :: 0 <= i < |occ| ==> PlacedEarliest(tasks, hp, jobs[i], occ[..i], occ[i])
  }

  lemma GreedyPrefix(tasks: seq<ClassifiedTask>, hp: nat, jobs: seq<Job>, occ: seq<Interval>, n: nat)
    requires Greedy(tasks, hp, jobs, occ) && n < |occ|
    ensures Greedy(tasks, hp, jobs, occ[..n])
    ensures PlacedEarliest(tasks, hp, jobs[n], occ[..n], occ[n])
  {
    forall i | 0 <= i < n
      ensures PlacedEarliest(tasks, hp, jobs[i], occ[..n][..i], occ[..n][i])
    {
      assert occ[..n][..i] == occ[..i];
      assert PlacedEarliest(tasks, hp, jobs[i], occ[..i], occ[i]);
    }
  }

  lemma EarliestUnique(tasks: seq<ClassifiedTask>, hp: nat, j: Job, before: seq<Interval>, a: Interval, b: Interval)
    requires j.task < |tasks| && PlacedEarliest(tasks, hp, j, before, a) && PlacedEarliest(tasks, hp, j, before, b)
    ensures a == b
  {
  }

  /** The greedy layout is determined by the job order, so success or failure is too. */
  lemma {:induction false} GreedyUnique(tasks: seq<ClassifiedTask>, hp: nat, jobs: seq<Job>,
                                        a: seq<Interval>, b: seq<Interval>)
    requires Greedy(tasks, hp, jobs, a) && Greedy(tasks, hp, jobs, b) && |a| <= |b|
    ensures a == b[..|a|]
    decreases |a|
  {
    if a != [] {
      var n := |a| - 1;
      GreedyPrefix(tasks, hp, jobs, a, n);
      GreedyPrefix(tasks, hp, jobs, b, n);
      GreedyUnique(tasks, hp, jobs, a[..n], b);
      EarliestUnique(tasks, hp, jobs[n], a[..n], a[n], b[n]);
      assert a == a[..n] + [a[n]];
      assert b[..n + 1] == b[..n] + [b[n]];
    }
  }

  /** Reference: place the jobs in order until one has no free start. */
  function GreedyLayout(tasks: seq<ClassifiedTask>, hp: nat, jobs: seq<Job>): (r: seq<Interval>)
    ensures |r| <= |jobs|
    decreases |jobs|
  {
    if jobs == [] then []
    else
      var n := |jobs| - 1;
      var occ, j := GreedyLayout(tasks, hp, jobs[..n]), jobs[n];
      if |occ| < n || j.task >= |tasks| then occ
      else
        var t := tasks[j.task];
        var x := EarliestFrom(occ, FrameStart(t, j.k), t.wcetUs, FrameEnd(t, j.k, hp));
        if x < 0 || x + t.wcetUs >= TWO_32 then occ else occ + [Interval(x, x + t.wcetUs)]
  }

  lemma {:induction false} GreedyIsLayout(tasks: seq<ClassifiedTask>, hp: nat, jobs: seq<Job>, occ: seq<Interval>,
                                          n: nat)
    requires Greedy(tasks, hp, jobs, occ) && n <= |occ|
    ensures GreedyLayout(tasks, hp, jobs[..n]) == occ[..n]
  {
    if n > 0 {
      GreedyIsLayout(tasks, hp, jobs, occ, n - 1);
      assert PlacedEarliest(tasks, hp, jobs[n - 1], occ[..n - 1], occ[n - 1]);
      LayoutNext(tasks, hp, jobs, n - 1, occ[..n - 1], occ[n - 1]);
      assert occ[..n] == occ[..n - 1] + [occ[n - 1]];
    }
  }

  lemma LayoutNext(tasks: seq<ClassifiedTask>, hp: nat, jobs: seq<Job>, n: nat, before: seq<Interval>, iv: Interval)
    requires n < |jobs| && jobs[n].task < |tasks| && |before| == n && GreedyLayout(tasks, hp, jobs[..n]) == before
    requires PlacedEarliest(tasks, hp, jobs[n], before, iv)
    ensures GreedyLayout(tasks, hp, jobs[..n + 1]) == before + [iv]
  {
    assert jobs[..n + 1][..n] == jobs[..n];
    var t, k := tasks[jobs[n].task], jobs[n].k;
    FrameIs(before, t, k, hp);
    EarliestIsReference(before, iv.start, FrameStart(t, k), t.wcetUs, FrameEnd(t, k, hp));
  }

  /** A greedy layout that is complete or stuck is the one the reference computes. */
  lemma {:induction false} StuckIsLayout(tasks: seq<ClassifiedTask>, hp: nat, jobs: seq<Job>, occ: seq<Interval>,
                                         n: nat)
    requires Greedy(tasks, hp, jobs, occ) && |occ| <= n <= |jobs|
    requires |occ| < |jobs| ==> NoStart(occ, tasks[jobs[|occ|].task], jobs[|occ|].k, hp)
    ensures GreedyLayout(tasks, hp, jobs[..n]) == occ
    decreases n
  {
    if n == |occ| {
      GreedyIsLayout(tasks, hp, jobs, occ, n);
      assert occ[..n] == occ;
    } else {
      StuckIsLayout(tasks, hp, jobs, occ, n - 1);
      LayoutStays(tasks, hp, jobs, occ, n - 1);
    }
  }

  lemma LayoutStays(tasks: seq<ClassifiedTask>, hp: nat, jobs: seq<Job>, occ: seq<Interval>, n: nat)
    requires n < |jobs| && jobs[n].task < |tasks| && GreedyLayout(tasks, hp, jobs[..n]) == occ
    requires |occ| == n ==> NoStart(occ, tasks[jobs[n].task], jobs[n].k, hp)
    ensures GreedyLayout(tasks, hp, jobs[..n + 1]) == occ
  {
    assert jobs[..n + 1][..n] == jobs[..n];
    if n == |occ| { StuckAt(occ, tasks[jobs[n].task], jobs[n].k, hp); }
  }

  lemma StuckAt(occ: seq<Interval>, t: ClassifiedTask, k: nat, hp: nat)
    requires NoStart(occ, t, k, hp)
    ensures EarliestFrom(occ, FrameStart(t, k), t.wcetUs, FrameEnd(t, k, hp)) == -1
  {
    FrameIs(occ, t, k, hp);
    EarliestIsReference(occ, -1, FrameStart(t, k), t.wcetUs, FrameEnd(t, k, hp));
  }

  predicate Separated(a: TtSlot, b: TtSlot) {
    a.offsetUs + a.durationUs <= b.offsetUs || b.offsetUs + b.durationUs <= a.offsetUs
  }

  predicate SlotOfTask(s: TtSlot, t: ClassifiedTask, cpu: int) {
    && s.workloadId == t.workloadId && s.taskId == t.taskId
    && s.durationUs == t.wcetUs && s.deadlineUs == t.deadlineUs
    && s.maxDmiss == t.maxDmiss && s.cpu == cpu
  }

  /** The slot runs `j`'s task inside `j`'s frame. */
  predicate ServesJob(s: TtSlot, tasks: seq<ClassifiedTask>, hp: nat, cpu: int, j: Job)
    requires j.task < |tasks|
  {
    var t := tasks[j.task];
    SlotOfTask(s, t, cpu) && InFrame(t, j.k, hp, s.offsetUs)
  }

  /** `jobs[i]` is the job served by `slots[i]`: every job once, in its frame, slots pairwise disjoint. */
  ghost predicate Layout(slots: seq<TtSlot>, jobs: seq<Job>, tasks: seq<ClassifiedTask>, hp: nat, cpu: int) {
    && |slots| == |jobs|
    && (forall i :: 0 <= i < |jobs| ==> ValidJob(tasks, hp, jobs[i]) && ServesJob(slots[i], tasks, hp, cpu, jobs[i]))
    && Distinct(jobs)
    && (forall j: Job :: ValidJob(tasks, hp, j) ==> j in jobs)
    && (forall i, j :: 0 <= i < j < |slots| ==> Separated(slots[i], slots[j]))
  }

  ghost predicate SortedByOffset(slots: seq<TtSlot>) {
    forall i, j :: 0 <= i < j < |slots| ==> slots[i].offsetUs <= slots[j].offsetUs
  }

  lemma LayoutPermute(slots: seq<TtSlot>, jobs: seq<Job>, tasks: seq<ClassifiedTask>, hp: nat, cpu: int, perm: seq<nat>)
    requires Layout(slots, jobs, tasks, hp, cpu) && IsPermutation(perm, |slots|)
    ensures Layout(Permute(slots, perm), Permute(jobs, perm), tasks, hp, cpu)
  {
    var ss, js := Permute(slots, perm), Permute(jobs, perm);
    forall i, j | 0 <= i < j < |ss|
      ensures Separated(ss[i], ss[j]) && js[i] != js[j]
    {
      assert perm[i] != perm[j];
      assert perm[i] < perm[j] || perm[j] < perm[i];
    }
    forall j: Job | ValidJob(tasks, hp, j)
      ensures j in js
    {
      var a :| 0 <= a < |jobs| && jobs[a] == j;
      assert a in perm;
      var b :| 0 <= b < |perm| && perm[b] == a;
      assert js[b] == j;
    }
  }

  datatype Placement = Placed(slots: seq<TtSlot>) | Failed(error: InfeasibleError)

  /** The greedy strategy got stuck after `occ`: the next job has no free start in its frame. */
  ghost predicate Stuck(tasks: seq<ClassifiedTask>, hp: nat, cpu: int, occ: seq<Interval>, e: InfeasibleError) {
    var all := AllJobs(tasks, hp);
    && |occ| < |all| && all[|occ|].task < |tasks|
    && var t := tasks[all[|occ|].task];
    && NoStart(occ, t, all[|occ|].k, hp)
    && e == InfeasibleError(TtSlotConflict, cpu, t.taskId)
  }

  ghost predicate DeadlineOrder(order: seq<nat>, tasks: seq<ClassifiedTask>) {
    && IsPermutation(order, |tasks|)
    && forall a, b :: 0 <= a < b < |order| ==> tasks[order[a]].deadlineUs <= tasks[order[b]].deadlineUs
  }

  ghost predicate GreedyIn(order: seq<nat>, tasks: seq<ClassifiedTask>, hp: nat, occ: seq<Interval>) {
    DeadlineOrder(order, tasks) && Greedy(Permute(tasks, order), hp, AllJobs(Permute(tasks, order), hp), occ)
  }

  /** Some deadline-monotonic order of the tasks leaves the greedy strategy stuck at the task the error names. */
  ghost predicate GreedyStuck(tasks: seq<ClassifiedTask>, hp: nat, cpu: int, e: InfeasibleError) {
    exists order, occ :: GreedyIn(order, tasks, hp, occ) && Stuck(Permute(tasks, order), hp, cpu, occ, e)
  }

  function MakeSlot(t: ClassifiedTask, offset: u32, cpu: int): (s: TtSlot)
    ensures SlotOfTask(s, t, cpu)
  {
    TtSlot(t.workloadId, t.taskId, offset, t.wcetUs, t.deadlineUs, t.maxDmiss, cpu)
  }

  function SlotsOf(tasks: seq<ClassifiedTask>, jobs: seq<Job>, occ: seq<Interval>, cpu: int): (r: seq<TtSlot>)
    requires |occ| == |jobs| && forall i :: 0 <= i < |jobs| ==> jobs[i].task < |tasks|
    ensures |r| == |jobs|
  {
    seq(|jobs|, i requires 0 <= i < |jobs| => MakeSlot(tasks[jobs[i].task], occ[i].start, cpu))
  }

  function DeadlineKeys(tasks: seq<ClassifiedTask>): (r: seq<real>)
    ensures |r| == |tasks|
  {
    seq(|tasks|, i requires 0 <= i < |tasks| => tasks[i].deadlineUs as real)
  }

  function OffsetKeys(slots: seq<TtSlot>): (r: seq<real>)
    ensures |r| == |slots|
  {
    seq(|slots|, i requires 0 <= i < |slots| => slots[i].offsetUs as real)
  }

  /** Reference: the whole placement as a function of the tasks and the library's sort. */
  ghost function PlaceReference(lib: Library, cpu: int, tasks: seq<ClassifiedTask>, hp: nat): Placement
    requires Lawful(lib)
  {
    if hp == 0 then Failed(InfeasibleError(TtSlotConflict, cpu, ""))
    else
      var sorted := Permute(tasks, lib.sort(DeadlineKeys(tasks)));
      var jobs := AllJobs(sorted, hp);
      var occ := GreedyLayout(sorted, hp, jobs);
      AllJobsValid(sorted, hp);
      if |occ| < |jobs| then Failed(InfeasibleError(TtSlotConflict, cpu, sorted[jobs[|occ|].task].taskId))
      else
        var slots := SlotsOf(sorted, jobs, occ, cpu);
        Placed(Permute(slots, lib.sort(OffsetKeys(slots))))
  }

  /** The outer placement loop over an already ordered task list. */
  method PlaceInOrder(cpu: int, tasks: seq<ClassifiedTask>, hp: nat)
    returns (r: Placement, occ: seq<Interval>)
    requires InRange(tasks, hp) && hp > 0
    ensures Greedy(tasks, hp, AllJobs(tasks, hp), occ)
    ensures r.Placed? ==> Layout(r.slots, AllJobs(tasks, hp), tasks, hp, cpu) && |occ| == |AllJobs(tasks, hp)|
    ensures r.Placed? ==> r.slots == SlotsOf(tasks, AllJobs(tasks, hp), occ, cpu)
    ensures r.Failed? ==> Stuck(tasks, hp, cpu, occ, r.error)
  {
    var slots: seq<TtSlot> := [];
    var occupied: seq<Interval> := [];
    ProgressStart(tasks, hp, cpu);
    for t := 0 to |tasks|
      invariant Progress(slots, occupied, tasks, hp, cpu, JobsBefore(tasks, hp, t, 0))
    {
      var ok;
      ok, slots, occupied := PlaceTask(cpu, tasks, t, hp, slots, occupied);
      if !ok { return Failed(InfeasibleError(TtSlotConflict, cpu, tasks[t].taskId)), occupied; }
    }
    ProgressDone(slots, occupied, tasks, hp, cpu);
    return Placed(slots), occupied;
  }

  /** The inner loop: all instances of one task; a task without a period is skipped. */
  method PlaceTask(cpu: int, tasks: seq<ClassifiedTask>, t: nat, hp: nat, slots0: seq<TtSlot>, occupied0: seq<Interval>)
    returns (ok: bool, slots: seq<TtSlot>, occupied: seq<Interval>)
    requires InRange(tasks, hp) && t < |tasks|
    requires Progress(slots0, occupied0, tasks, hp, cpu, JobsBefore(tasks, hp, t, 0))
    ensures ok ==> Progress(slots, occupied, tasks, hp, cpu, JobsBefore(tasks, hp, t + 1, 0))
    ensures Greedy(tasks, hp, AllJobs(tasks, hp), occupied)
    ensures !ok ==> Stuck(tasks, hp, cpu, occupied, InfeasibleError(TtSlotConflict, cpu, tasks[t].taskId))
  {
    slots, occupied := slots0, occupied0;
    var task := tasks[t];
    JobsBeforeNext(tasks, hp, t);
    if task.periodUs == 0 { return true, slots, occupied; }
    for k := 0 to hp / task.periodUs
      invariant Progress(slots, occupied, tasks, hp, cpu, JobsBefore(tasks, hp, t, k))
    {
      FrameBounds(task, k, hp);
      var offset := PlaceJob(task, k, hp, occupied);
      NextJob(tasks, hp, t, k);
      if offset < 0 { return false, slots, occupied; }
      var slot := TtSlot(task.workloadId, task.taskId, offset, task.wcetUs, task.deadlineUs, task.maxDmiss, cpu);
      var interval := Interval(offset, Wrap32(offset + task.wcetUs));
      ProgressStep(slots, occupied, tasks, hp, cpu, JobsBefore(tasks, hp, t, k), Job(t, k), slot, interval,
                   JobsBefore(tasks, hp, t, k + 1));
      slots := slots + [slot];
      occupied := occupied + [interval];
    }
    ok := true;
  }

  lemma ProgressStart(tasks: seq<ClassifiedTask>, hp: nat, cpu: int)
    ensures Progress([], [], tasks, hp, cpu, JobsBefore(tasks, hp, 0, 0))
  {
    JobsBeforeContents(tasks, hp, |tasks|, 0);
    forall i | 0 <= i < |AllJobs(tasks, hp)|
      ensures AllJobs(tasks, hp)[i].task < |tasks|
    {
      assert AllJobs(tasks, hp)[i] in AllJobs(tasks, hp);
    }
  }

  lemma ProgressDone(slots: seq<TtSlot>, occ: seq<Interval>, tasks: seq<ClassifiedTask>, hp: nat, cpu: int)
    requires Progress(slots, occ, tasks, hp, cpu, AllJobs(tasks, hp))
    ensures Layout(slots, AllJobs(tasks, hp), tasks, hp, cpu)
    ensures slots == SlotsOf(tasks, AllJobs(tasks, hp), occ, cpu)
  {
    AllJobsValid(tasks, hp);
    var jobs := AllJobs(tasks, hp);
    forall i | 0 <= i < |slots| ensures slots[i] == MakeSlot(tasks[jobs[i].task], occ[i].start, cpu) {
      assert ServesJob(slots[i], tasks, hp, cpu, jobs[i]);
    }
  }

  lemma AllJobsValid(tasks: seq<ClassifiedTask>, hp: nat)
    ensures var all := AllJobs(tasks, hp);
            && Distinct(all)
            && (forall i :: 0 <= i < |all| ==> ValidJob(tasks, hp, all[i]))
            && (forall j: Job :: ValidJob(tasks, hp, j) ==> j in all)
  {
    var all := AllJobs(tasks, hp);
    JobsBeforeDistinct(tasks, hp, |tasks|, 0);
    JobsBeforeContents(tasks, hp, |tasks|, 0);
    forall i | 0 <= i < |all| ensures ValidJob(tasks, hp, all[i]) { assert all[i] in all; }
  }

  /** One frame of the inner loop, in the source's 32-bit arithmetic. */
  method PlaceJob(task: ClassifiedTask, k: nat, hp: nat, occupied: seq<Interval>) returns (offset: int)
    requires FrameStart(task, k) <= hp
    requires hp + task.deadlineUs + task.wcetUs < TWO_31
    requires forall i :: 0 <= i < |occupied| ==> occupied[i].end <= hp
    ensures offset >= 0 ==> TakesEarliest(occupied, task, k, hp, offset)
    ensures offset < 0 ==> NoStart(occupied, task, k, hp)
    // placed exactly if some start keeps to period, deadline and hyperperiod and clashes with nothing
    ensures offset >= 0 <==>
              exists x :: k * task.periodUs <= x && x + task.wcetUs <= k * task.periodUs + task.deadlineUs &&
                          x + task.wcetUs <= hp && Free(occupied, x, task.wcetUs)
    ensures offset < TWO_31
  {
    FrameIs(occupied, task, k, hp);
    var frameStart := Wrap32(k * task.periodUs);
    var frameEnd := Wrap32(frameStart + task.deadlineUs);
    if frameEnd > hp { frameEnd := Wrap32(hp); }
    offset := FindFreeSlot(occupied, frameStart, task.wcetUs, frameEnd);
  }

  lemma FrameBounds(t: ClassifiedTask, k: nat, hp: nat)
    requires t.periodUs > 0 && k < hp / t.periodUs
    ensures FrameStart(t, k) + t.periodUs <= hp
  {
    assert (k + 1) * t.periodUs <= hp / t.periodUs * t.periodUs;
  }

  /** Loop invariant of the placement: the first |js| jobs are laid out greedily and separately. */
  ghost predicate Progress(slots: seq<TtSlot>, occ: seq<Interval>, tasks: seq<ClassifiedTask>, hp: nat, cpu: int,
                           js: seq<Job>) {
    && js <= AllJobs(tasks, hp)
    && |slots| == |occ| == |js|
    && (forall i :: 0 <= i < |js| ==> js[i].task < |tasks| && ServesJob(slots[i], tasks, hp, cpu, js[i]))
    && (forall i :: 0 <= i < |js| ==>
          occ[i].start == slots[i].offsetUs && occ[i].end == slots[i].offsetUs + slots[i].durationUs <= hp)
    && (forall i, j :: 0 <= i < j < |slots| ==> Separated(slots[i], slots[j]))
    && Greedy(tasks, hp, AllJobs(tasks, hp), occ)
  }

  lemma ProgressStep(slots: seq<TtSlot>, occ: seq<Interval>, tasks: seq<ClassifiedTask>, hp: nat, cpu: int,
                     js: seq<Job>, j: Job, s: TtSlot, iv: Interval, js': seq<Job>)
    requires Progress(slots, occ, tasks, hp, cpu, js) && js' == js + [j] <= AllJobs(tasks, hp)
    requires j.task < |tasks| && InRange(tasks, hp)
    requires SlotOfTask(s, tasks[j.task], cpu)
    requires iv.start == s.offsetUs && iv.end == s.offsetUs + s.durationUs
    requires TakesEarliest(occ, tasks[j.task], j.k, hp, s.offsetUs)
    ensures Progress(slots + [s], occ + [iv], tasks, hp, cpu, js')
  {
    var occ', slots' := occ + [iv], slots + [s];
    var all := AllJobs(tasks, hp);
    assert all[|occ|] == j;
    assert occ'[..|occ|] == occ;
    forall i | 0 <= i < |occ'|
      ensures PlacedEarliest(tasks, hp, all[i], occ'[..i], occ'[i])
    {
      if i < |occ| {
        assert occ'[..i] == occ[..i];
        assert PlacedEarliest(tasks, hp, all[i], occ[..i], occ[i]);
      }
    }
    forall i | 0 <= i < |slots|
      ensures Separated(slots[i], s)
    {
      assert !Conflicts(s.offsetUs, s.durationUs, occ[i]);
    }
  }

  /** Order by deadline, place greedily, then order the slots by offset. */
  method PlaceTtSlots(lib: Library, cpu: int, tasks: seq<ClassifiedTask>, hp: nat)
    returns (r: Placement, ghost jobs: seq<Job>, ghost order: seq<nat>, ghost occ: seq<Interval>)
    requires Lawful(lib) && InRange(tasks, hp)
    ensures r == PlaceReference(lib, cpu, tasks, hp)
    ensures hp == 0 ==> r == Failed(InfeasibleError(TtSlotConflict, cpu, ""))
    ensures r.Placed? ==> Layout(r.slots, jobs, tasks, hp, cpu) && SortedByOffset(r.slots)
    // success or failure is that of the greedy strategy in a deadline-monotonic order
    ensures hp > 0 ==>
              && GreedyIn(order, tasks, hp, occ)
              && (r.Placed? <==> |occ| == |AllJobs(Permute(tasks, order), hp)|)
              && (r.Failed? ==> Stuck(Permute(tasks, order), hp, cpu, occ, r.error))
  {
    jobs, order, occ := [], [], [];
    if hp == 0 {
      return Failed(InfeasibleError(TtSlotConflict, cpu, "")), [], [], [];
    }
    var perm := OrderByDeadline(lib, tasks);
    order := perm;
    var sorted := Permute(tasks, perm);
    var placed;
    placed, occ := PlaceInOrder(cpu, sorted, hp);
    LayoutFound(sorted, hp, cpu, occ, placed);
    if placed.Failed? { return placed, jobs, order, occ; }
    ghost var sortedJobs := AllJobs(sorted, hp);
    ghost var named := seq(|sortedJobs|, i requires 0 <= i < |sortedJobs| =>
                                 Job(perm[sortedJobs[i].task], sortedJobs[i].k));
    LayoutRename(placed.slots, sortedJobs, named, tasks, hp, cpu, perm);
    var slots;
    slots, jobs := OrderByOffset(lib, placed.slots, named, tasks, hp, cpu);
    r := Placed(slots);
  }

  /** What the loops leave is what the reference computes. */
  lemma LayoutFound(sorted: seq<ClassifiedTask>, hp: nat, cpu: int, occ: seq<Interval>, placed: Placement)
    requires Greedy(sorted, hp, AllJobs(sorted, hp), occ)
    requires placed.Placed? ==> |occ| == |AllJobs(sorted, hp)|
    requires placed.Failed? ==> Stuck(sorted, hp, cpu, occ, placed.error)
    ensures GreedyLayout(sorted, hp, AllJobs(sorted, hp)) == occ
  {
    var jobs := AllJobs(sorted, hp);
    StuckIsLayout(sorted, hp, jobs, occ, |jobs|);
    assert jobs[..|jobs|] == jobs;
  }

  method OrderByDeadline(lib: Library, tasks: seq<ClassifiedTask>) returns (order: seq<nat>)
    requires Lawful(lib)
    ensures DeadlineOrder(order, tasks) && order == lib.sort(DeadlineKeys(tasks))
  {
    order := lib.sort(DeadlineKeys(tasks));
  }

  method OrderByOffset(lib: Library, slots: seq<TtSlot>, ghost jobs: seq<Job>, ghost tasks: seq<ClassifiedTask>,
                       ghost hp: nat, ghost cpu: int)
    returns (sorted: seq<TtSlot>, ghost sortedJobs: seq<Job>)
    requires Lawful(lib) && Layout(slots, jobs, tasks, hp, cpu)
    ensures Layout(sorted, sortedJobs, tasks, hp, cpu) && SortedByOffset(sorted)
    ensures sorted == Permute(slots, lib.sort(OffsetKeys(slots)))
  {
    var order := lib.sort(OffsetKeys(slots));
    LayoutPermute(slots, jobs, tasks, hp, cpu, order);
    sorted, sortedJobs := Permute(slots, order), Permute(jobs, order);
  }

  /** A layout for the sorted task list is a layout for the original one, with task indices renamed. */
  lemma LayoutRename(slots: seq<TtSlot>, jobs: seq<Job>, named: seq<Job>, tasks: seq<ClassifiedTask>, hp: nat,
                     cpu: int, perm: seq<nat>)
    requires IsPermutation(perm, |tasks|) && Layout(slots, jobs, Permute(tasks, perm), hp, cpu)
    requires |named| == |jobs| && forall i :: 0 <= i < |jobs| ==> named[i] == Job(perm[jobs[i].task], jobs[i].k)
    ensures Layout(slots, named, tasks, hp, cpu)
  {
    forall i, j | 0 <= i < j < |named|
      ensures named[i] != named[j]
    {
      assert jobs[i] != jobs[j];
    }
    forall j: Job | ValidJob(tasks, hp, j)
      ensures j in named
    {
      assert j.task in perm;
      var a :| 0 <= a < |perm| && perm[a] == j.task;
      assert ValidJob(Permute(tasks, perm), hp, Job(a, j.k));
      var b :| 0 <= b < |jobs| && jobs[b] == Job(a, j.k);
      assert named[b] == j;
    }
  }
}
