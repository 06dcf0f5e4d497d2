/** Gap extraction between time-triggered slots, and the utilisation bound it yields. */
module Gaps {
  import opened Basics
  import opened Sequences
  import opened SlotPlacement
  import opened Divisibility

  datatype GapInterval = GapInterval(startUs: u32, endUs: u32, lengthUs: u32)

  function GapLength(g: GapInterval): int { g.lengthUs }

  function Duration(s: TtSlot): int { s.durationUs }

  predicate SlotCovers(s: TtSlot, x: int) {
    Within(x, s.offsetUs, s.offsetUs + s.durationUs)
  }

  predicate GapCovers(g: GapInterval, x: int) {
    Within(x, g.startUs, g.endUs)
  }

  predicate InSlot(slots: seq<TtSlot>, x: int) {
    exists i :: 0 <= i < |slots| && SlotCovers(slots[i], x)
  }

  predicate InGap(gaps: seq<GapInterval>, x: int) {
    exists i :: 0 <= i < |gaps| && GapCovers(gaps[i], x)
  }

  ghost predicate AllSeparated(slots: seq<TtSlot>) {
    forall i, j :: 0 <= i < j < |slots| ==> Separated(slots[i], slots[j])
  }

  ghost predicate EndBy(slots: seq<TtSlot>, hp: int) {
    forall i :: 0 <= i < |slots| ==> slots[i].offsetUs + slots[i].durationUs <= hp
  }

  /** Maximal, ordered, non-empty gaps. */
  ghost predicate WellFormed(gaps: seq<GapInterval>) {
    && (forall i :: 0 <= i < |gaps| ==>
          gaps[i].startUs < gaps[i].endUs && gaps[i].lengthUs == gaps[i].endUs - gaps[i].startUs)
    && (forall i, j :: 0 <= i < j < |gaps| ==> gaps[i].endUs <= gaps[j].startUs)
  }

  /** The cursor stands at zero or at the end of some slot. */
  ghost predicate Reached(slots: seq<TtSlot>, cursor: int) {
    cursor == 0 || exists i :: 0 <= i < |slots| && slots[i].offsetUs + slots[i].durationUs == cursor
  }

  /** The gaps are the instants of [0, hp) outside the slots; on separated slots lengths add up to hp. */
  ghost predicate ExactComplement(slots: seq<TtSlot>, gaps: seq<GapInterval>, hp: int) {
    && WellFormed(gaps)
    && (forall x :: 0 <= x < hp ==> (InGap(gaps, x) <==> !InSlot(slots, x)))
    && (EndBy(slots, hp) ==> forall i :: 0 <= i < |gaps| ==> gaps[i].endUs <= hp)
    && (EndBy(slots, hp) && AllSeparated(slots) ==> SumOf(GapLength, gaps) + SumOf(Duration, slots) == hp)
  }

  /** What the sweep knows with its cursor at `cursor` after the slots `done`. */
  ghost predicate Swept(done: seq<TtSlot>, gaps: seq<GapInterval>, cursor: int) {
    && WellFormed(gaps)
    && EndBy(done, cursor)
    && Reached(done, cursor)
    && (forall i :: 0 <= i < |gaps| ==> gaps[i].endUs <= cursor)
    && (forall x :: 0 <= x < cursor ==> (InGap(gaps, x) <==> !InSlot(done, x)))
    && (AllSeparated(done) ==> SumOf(GapLength, gaps) + SumOf(Duration, done) == cursor)
  }

  /** The n-th slot closes the gap in front of it and moves the cursor to its end. */
  method SweepSlot(slots: seq<TtSlot>, n: nat, before: seq<GapInterval>, swept: u32)
    returns (gaps: seq<GapInterval>, cursor: u32)
    requires n < |slots| && SortedByOffset(slots) && EndBy(slots, TWO_32 - 1) && Swept(slots[..n], before, swept)
    ensures Swept(slots[..n + 1], gaps, cursor)
  {
    var slot := slots[n];
    var slotEnd := Wrap32(slot.offsetUs + slot.durationUs);
    gaps, cursor := before, swept;
    if cursor < slot.offsetUs {
      gaps := gaps + [GapInterval(cursor, slot.offsetUs, slot.offsetUs - cursor)];
    }
    if slotEnd > cursor { cursor := slotEnd; }
    SweepStep(slots[..n], slot, slots[..n + 1], before, gaps, swept, cursor);
  }

  /**
   * For slots sorted by offset, even overlapping ones, the gaps are exactly the
   * uncovered instants; for separated slots nothing is lost or counted twice.
   */
  method ComputeGaps(slots: seq<TtSlot>, hp: nat) returns (gaps: seq<GapInterval>)
    requires SortedByOffset(slots) && EndBy(slots, TWO_32 - 1) && hp < TWO_32
    ensures ExactComplement(slots, gaps, hp)
  {
    gaps := [];
    var cursor: u32 := 0;
    for n := 0 to |slots|
      invariant Swept(slots[..n], gaps, cursor)
    {
      gaps, cursor := SweepSlot(slots, n, gaps, cursor);
    }
    assert slots[..|slots|] == slots;
    var before := gaps;
    if cursor < Wrap32(hp) {
      gaps := gaps + [GapInterval(cursor, Wrap32(hp), Wrap32(hp) - cursor)];
    }
    SweepEnd(slots, before, gaps, cursor, hp);
  }

  lemma SweepStep(done: seq<TtSlot>, s: TtSlot, done': seq<TtSlot>, before: seq<GapInterval>, gaps: seq<GapInterval>,
                  cursor: nat, cursor': nat)
    requires cursor < TWO_32 && Swept(done, before, cursor) && done' == done + [s]
    requires gaps == if cursor < s.offsetUs
                     then before + [GapInterval(cursor, s.offsetUs, s.offsetUs - cursor)] else before
    requires forall i :: 0 <= i < |done| ==> done[i].offsetUs <= s.offsetUs
    requires var end := s.offsetUs + s.durationUs; cursor' == if end > cursor then end else cursor
    ensures Swept(done', gaps, cursor')
  {
    ReachedStep(done, s, cursor);
    WellFormedStep(before, gaps, cursor, s.offsetUs);
    forall x | 0 <= x < cursor'
      ensures InGap(gaps, x) <==> !InSlot(done + [s], x)
    {
      InstantStep(done, s, before, gaps, cursor, x);
    }
    assert AllSeparated(done + [s]) ==> SumOf(GapLength, gaps) + SumOf(Duration, done + [s]) == cursor' by {
      if AllSeparated(done + [s]) { SumStep(done, s, before, gaps, cursor); }
    }
  }

  lemma WellFormedStep(before: seq<GapInterval>, gaps: seq<GapInterval>, cursor: nat, stop: u32)
    requires cursor < TWO_32 && WellFormed(before) && forall i :: 0 <= i < |before| ==> before[i].endUs <= cursor
    requires gaps == if cursor < stop then before + [GapInterval(cursor, stop, stop - cursor)] else before
    ensures WellFormed(gaps)
    ensures forall i :: 0 <= i < |gaps| ==> gaps[i].endUs <= if cursor < stop then stop else cursor
  {
  }

  lemma ReachedStep(done: seq<TtSlot>, s: TtSlot, cursor: int)
    requires Reached(done, cursor) && EndBy(done, cursor)
    ensures var end := s.offsetUs + s.durationUs; var cursor' := if end > cursor then end else cursor;
            Reached(done + [s], cursor') && EndBy(done + [s], cursor')
  {
    var all := done + [s];
    assert all[|done|] == s;
    if cursor > 0 {
      var i :| 0 <= i < |done| && done[i].offsetUs + done[i].durationUs == cursor;
      assert all[i] == done[i];
    }
  }

  lemma InstantStep(done: seq<TtSlot>, s: TtSlot, before: seq<GapInterval>, gaps: seq<GapInterval>, cursor: nat, x: nat)
    requires cursor < TWO_32 && Swept(done, before, cursor)
    requires gaps == if cursor < s.offsetUs
                     then before + [GapInterval(cursor, s.offsetUs, s.offsetUs - cursor)] else before
    requires forall i :: 0 <= i < |done| ==> done[i].offsetUs <= s.offsetUs
    requires x < cursor || x < s.offsetUs + s.durationUs
    ensures InGap(gaps, x) <==> !InSlot(done + [s], x)
  {
    InSlotAppend(done, s, x);
    if cursor < s.offsetUs {
      InGapAppend(before, gaps[|before|], x);
    }
    if x < cursor && SlotCovers(s, x) {
      // the slot overlaps an earlier one, which already covers x
      var i :| 0 <= i < |done| && done[i].offsetUs + done[i].durationUs == cursor;
      assert SlotCovers(done[i], x);
    }
    if x >= cursor {
      assert !InSlot(done, x);
      assert !InGap(before, x);
    }
  }

  lemma InSlotAppend(slots: seq<TtSlot>, s: TtSlot, x: int)
    ensures InSlot(slots + [s], x) <==> InSlot(slots, x) || SlotCovers(s, x)
  {
    var all := slots + [s];
    assert all[|slots|] == s;
    assert forall i :: 0 <= i < |slots| ==> all[i] == slots[i];
    if InSlot(slots, x) {
      var i :| 0 <= i < |slots| && SlotCovers(slots[i], x);
      assert SlotCovers(all[i], x);
    }
  }

  lemma InGapAppend(gaps: seq<GapInterval>, g: GapInterval, x: int)
    ensures InGap(gaps + [g], x) <==> InGap(gaps, x) || GapCovers(g, x)
  {
    var all := gaps + [g];
    assert all[|gaps|] == g;
    assert forall i :: 0 <= i < |gaps| ==> all[i] == gaps[i];
    if InGap(gaps, x) {
      var i :| 0 <= i < |gaps| && GapCovers(gaps[i], x);
      assert GapCovers(all[i], x);
    }
  }

  lemma SumStep(done: seq<TtSlot>, s: TtSlot, before: seq<GapInterval>, gaps: seq<GapInterval>, cursor: nat)
    requires cursor < TWO_32 && Swept(done, before, cursor) && AllSeparated(done + [s])
    requires gaps == if cursor < s.offsetUs
                     then before + [GapInterval(cursor, s.offsetUs, s.offsetUs - cursor)] else before
    requires forall i :: 0 <= i < |done| ==> done[i].offsetUs <= s.offsetUs
    ensures var end := s.offsetUs + s.durationUs;
            SumOf(GapLength, gaps) + SumOf(Duration, done + [s]) == if end > cursor then end else cursor
  {
    var all := done + [s];
    forall i, j | 0 <= i < j < |done| ensures Separated(done[i], done[j]) {
      assert Separated(all[i], all[j]);
    }
    SumOfAppend(Duration, done, [s]);
    SumOfOne(Duration, s);
    if cursor < s.offsetUs {
      SumOfAppend(GapLength, before, [gaps[|before|]]);
      SumOfOne(GapLength, gaps[|before|]);
    } else if cursor > 0 {
      var i :| 0 <= i < |done| && done[i].offsetUs + done[i].durationUs == cursor;
      assert Separated(all[i], all[|done|]);
    }
  }

  lemma SweepEnd(slots: seq<TtSlot>, before: seq<GapInterval>, gaps: seq<GapInterval>, cursor: nat, hp: nat)
    requires cursor < TWO_32 && hp < TWO_32 && Swept(slots, before, cursor)
    requires gaps == if cursor < hp then before + [GapInterval(cursor, hp, hp - cursor)] else before
    ensures ExactComplement(slots, gaps, hp)
  {
    if cursor < hp {
      var g := GapInterval(cursor, hp, hp - cursor);
      forall x | 0 <= x < hp
        ensures InGap(gaps, x) <==> !InSlot(slots, x)
      {
        InGapAppend(before, g, x);
        if x >= cursor {
          assert !InSlot(slots, x);
        }
      }
      SumOfAppend(GapLength, before, [g]);
      SumOfOne(GapLength, g);
    }
  }

  /** No instant is in two gaps, nor in two slots of a separated table. */
  lemma CoveredOnce(slots: seq<TtSlot>, gaps: seq<GapInterval>, x: int, i: nat, j: nat)
    requires WellFormed(gaps) && AllSeparated(slots) && i < j
    ensures j < |gaps| ==> !(GapCovers(gaps[i], x) && GapCovers(gaps[j], x))
    ensures j < |slots| ==> !(SlotCovers(slots[i], x) && SlotCovers(slots[j], x))
  {
  }

  // ---- utilisation ----

  function WcetOf(tasks: seq<ClassifiedTask>, j: Job): nat {
    if j.task < |tasks| then tasks[j.task].wcetUs else 0
  }

  function JobWcet(tasks: seq<ClassifiedTask>): Job -> int {
    j => WcetOf(tasks, j)
  }

  /** Time demanded by all instances in one hyperperiod. */
  function Demand(tasks: seq<ClassifiedTask>, hp: nat): nat {
    if tasks == [] then 0
    else Demand(tasks[..|tasks| - 1], hp) + Repeats(tasks[|tasks| - 1], hp) * tasks[|tasks| - 1].wcetUs
  }

  function TaskUtilization(t: ClassifiedTask): real {
    if t.periodUs > 0 then t.wcetUs as real / t.periodUs as real else 0.0
  }

  function Utilization(tasks: seq<ClassifiedTask>): real {
    if tasks == [] then 0.0
    else Utilization(tasks[..|tasks| - 1]) + TaskUtilization(tasks[|tasks| - 1])
  }

  lemma {:induction false} InstancesDemand(tasks: seq<ClassifiedTask>, t: nat, k: nat)
    requires t < |tasks|
    ensures SumOf(JobWcet(tasks), Instances(t, k)) == k * tasks[t].wcetUs
  {
    if k > 0 {
      InstancesDemand(tasks, t, k - 1);
      assert Instances(t, k)[..k - 1] == Instances(t, k - 1);
    }
  }

  lemma {:induction false} JobsDemand(tasks: seq<ClassifiedTask>, hp: nat, t: nat, k: nat)
    requires t <= |tasks|
    ensures SumOf(JobWcet(tasks), JobsBefore(tasks, hp, t, k)) ==
            Demand(tasks[..t], hp) + SumOf(JobWcet(tasks), Instances(t, k))
    decreases t
  {
    var f := JobWcet(tasks);
    if t == 0 {
      assert tasks[..0] == [];
      assert JobsBefore(tasks, hp, t, k) == Instances(t, k);
    } else {
      var r := Repeats(tasks[t - 1], hp);
      JobsDemand(tasks, hp, t - 1, r);
      InstancesDemand(tasks, t - 1, r);
      DemandStep(tasks, hp, t);
      SumOfAppend(f, JobsBefore(tasks, hp, t - 1, r), Instances(t, k));
    }
  }

  lemma DemandStep(tasks: seq<ClassifiedTask>, hp: nat, t: nat)
    requires 0 < t <= |tasks|
    ensures Demand(tasks[..t], hp) == Demand(tasks[..t - 1], hp) + Repeats(tasks[t - 1], hp) * tasks[t - 1].wcetUs
  {
    assert tasks[..t][..t - 1] == tasks[..t - 1];
  }

  /** The time taken by a layout's slots is the tasks' demand. */
  lemma LayoutDemand(slots: seq<TtSlot>, jobs: seq<Job>, tasks: seq<ClassifiedTask>, hp: nat, cpu: int)
    requires Layout(slots, jobs, tasks, hp, cpu)
    ensures SumOf(Duration, slots) == Demand(tasks, hp)
  {
    var f := JobWcet(tasks);
    SumOfPointwise(Duration, slots, f, jobs);
    AllJobsValid(tasks, hp);
    forall j
      ensures j in jobs <==> j in AllJobs(tasks, hp)
    {
      if j in jobs { var i :| 0 <= i < |jobs| && jobs[i] == j; assert ValidJob(tasks, hp, j); }
      if j in AllJobs(tasks, hp) { var i :| 0 <= i < |AllJobs(tasks, hp)| && AllJobs(tasks, hp)[i] == j; }
    }
    SumOfSame(f, jobs, AllJobs(tasks, hp));
    JobsDemand(tasks, hp, |tasks|, 0);
    assert tasks[..|tasks|] == tasks;
  }

  /** The instances of task `t`. */
  function TaskJobs(jobs: seq<Job>, t: nat): seq<Job> {
    if jobs == [] then []
    else
      var n := |jobs| - 1;
      TaskJobs(jobs[..n], t) + if jobs[n].task == t then [jobs[n]] else []
  }

  lemma {:induction false} TaskJobsDistinct(jobs: seq<Job>, t: nat)
    requires Distinct(jobs)
    ensures Distinct(TaskJobs(jobs, t)) && forall j :: j in TaskJobs(jobs, t) <==> j in jobs && j.task == t
  {
    if jobs != [] {
      var n := |jobs| - 1;
      TaskJobsDistinct(jobs[..n], t);
      assert jobs == jobs[..n] + [jobs[n]];
    }
  }

  /** A layout serves each task hp/T times. */
  lemma LayoutRepeats(slots: seq<TtSlot>, jobs: seq<Job>, tasks: seq<ClassifiedTask>, hp: nat, cpu: int, t: nat)
    requires Layout(slots, jobs, tasks, hp, cpu) && t < |tasks|
    ensures |TaskJobs(jobs, t)| == Repeats(tasks[t], hp)
  {
    var own, all := TaskJobs(jobs, t), Instances(t, Repeats(tasks[t], hp));
    TaskJobsDistinct(jobs, t);
    forall j | j in own ensures j in all {
      var i :| 0 <= i < |jobs| && jobs[i] == j;
      assert ValidJob(tasks, hp, jobs[i]);
      assert all[j.k] == j;
    }
    forall j | j in all ensures j in own {
      assert ValidJob(tasks, hp, j);
    }
    DistinctSubset(own, all);
    DistinctSubset(all, own);
  }

  lemma {:induction false} DemandIsUtilization(tasks: seq<ClassifiedTask>, hp: nat)
    requires hp > 0 && forall i :: 0 <= i < |tasks| && tasks[i].periodUs > 0 ==> Divides(tasks[i].periodUs, hp)
    ensures Demand(tasks, hp) as real == Utilization(tasks) * hp as real
  {
    if tasks != [] {
      var init, t := tasks[..|tasks| - 1], tasks[|tasks| - 1];
      DemandIsUtilization(init, hp);
      TaskShare(t, hp);
      AddShares(Utilization(init), TaskUtilization(t), hp as real);
    }
  }

  lemma TaskShare(t: ClassifiedTask, hp: nat)
    requires t.periodUs > 0 ==> Divides(t.periodUs, hp)
    ensures (Repeats(t, hp) * t.wcetUs) as real == TaskUtilization(t) * hp as real
  {
    if t.periodUs > 0 {
      Quotient(t.periodUs, hp);
      ShareOfHyperperiod(t.wcetUs, t.periodUs, hp / t.periodUs, hp);
    }
  }

  lemma AddShares(u: real, v: real, h: real)
    ensures (u + v) * h == u * h + v * h
  {
  }

  lemma ShareOfHyperperiod(w: nat, p: nat, n: nat, hp: nat)
    requires p > 0 && hp == n * p
    ensures (n * w) as real == w as real / p as real * hp as real
  {
    assert hp as real == n as real * p as real;
    var u := w as real / p as real;
    assert u * p as real == w as real;
    assert u * hp as real == u * (n as real * p as real) == u * p as real * n as real;
  }

  lemma DemandFits(tasks: seq<ClassifiedTask>, hp: nat)
    requires hp > 0 && Demand(tasks, hp) <= hp
    requires forall i :: 0 <= i < |tasks| && tasks[i].periodUs > 0 ==> Divides(tasks[i].periodUs, hp)
    ensures Utilization(tasks) <= 1.0
  {
    DemandIsUtilization(tasks, hp);
    AtMostOne(Demand(tasks, hp), Utilization(tasks), hp);
  }

  lemma AtMostOne(d: nat, u: real, hp: nat)
    requires 0 < hp && d <= hp && d as real == u * hp as real
    ensures u <= 1.0
  {
    var h := hp as real;
    assert (u - 1.0) * h <= 0.0;
  }

  lemma LayoutEndsBy(slots: seq<TtSlot>, jobs: seq<Job>, tasks: seq<ClassifiedTask>, hp: nat, cpu: int)
    requires Layout(slots, jobs, tasks, hp, cpu)
    ensures EndBy(slots, hp)
  {
    forall i | 0 <= i < |slots|
      ensures slots[i].offsetUs + slots[i].durationUs <= hp
    {
      assert ServesJob(slots[i], tasks, hp, cpu, jobs[i]);
    }
  }

  /** The latest end among the first `n` slots. */
  function LastEnd(slots: seq<TtSlot>, n: nat): nat
    requires n <= |slots|
  {
    if n == 0 then 0
    else
      var before, end := LastEnd(slots, n - 1), slots[n - 1].offsetUs + slots[n - 1].durationUs;
      if end > before then end else before
  }

  lemma {:induction false} LastEndAt(slots: seq<TtSlot>, n: nat) returns (i: nat)
    requires n <= |slots| && LastEnd(slots, n) > 0
    ensures i < n && LastEnd(slots, n) == slots[i].offsetUs + slots[i].durationUs
  {
    if LastEnd(slots, n) == LastEnd(slots, n - 1) { i := LastEndAt(slots, n - 1); } else { i := n - 1; }
  }

  /** Separated slots in order take no more time than passes until the last of them ends. */
  lemma {:induction false} SumWithinEnd(slots: seq<TtSlot>, n: nat)
    requires n <= |slots| && SortedByOffset(slots) && AllSeparated(slots)
    ensures SumOf(Duration, slots[..n]) <= LastEnd(slots, n)
  {
    if n > 0 {
      SumWithinEnd(slots, n - 1);
      assert slots[..n][..n - 1] == slots[..n - 1];
      var s := slots[n - 1];
      if s.offsetUs < LastEnd(slots, n - 1) {
        var i := LastEndAt(slots, n - 1);
        assert Separated(slots[i], s);
      }
    }
  }

  lemma {:induction false} LastEndBound(slots: seq<TtSlot>, n: nat, hp: nat)
    requires n <= |slots| && EndBy(slots, hp)
    ensures LastEnd(slots, n) <= hp
  {
    if n > 0 { LastEndBound(slots, n - 1, hp); }
  }

  /** A complete layout demands no more than its hyperperiod. */
  lemma DemandWithin(slots: seq<TtSlot>, jobs: seq<Job>, tasks: seq<ClassifiedTask>, hp: nat, cpu: int)
    requires Layout(slots, jobs, tasks, hp, cpu) && SortedByOffset(slots)
    ensures Demand(tasks, hp) <= hp
  {
    LayoutDemand(slots, jobs, tasks, hp, cpu);
    LayoutEndsBy(slots, jobs, tasks, hp, cpu);
    SumWithinEnd(slots, |slots|);
    LastEndBound(slots, |slots|, hp);
    assert slots[..|slots|] == slots;
  }
}
