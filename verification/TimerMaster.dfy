/** The per-CPU timer loop: epoch catch-up, the firing sequence and its closed form. */
module TimerMaster {
  import opened Basics
  import opened Sequences
  import opened Divisibility

  datatype SlotEntry = SlotEntry(
    cpu: nat, offsetNs: nat, durationNs: nat, taskHash: nat, workloadHash: nat, taskName: string)

  lemma DivStep(n: nat, k: nat)
    requires k > 0
    ensures n % k + 1 < k ==> (n + 1) / k == n / k && (n + 1) % k == n % k + 1
    ensures n % k + 1 == k ==> (n + 1) / k == n / k + 1 && (n + 1) % k == 0
  {
    var q, r := n / k, n % k;
    assert n == q * k + r;
    if r + 1 < k {
      DivUnique(n + 1, q, r + 1, k);
    } else {
      assert n + 1 == (q + 1) * k;
      DivUnique(n + 1, q + 1, 0, k);
    }
  }

  /** The n-th wake-up instant. */
  function Target(slots: seq<SlotEntry>, hp: nat, start: nat, n: nat): nat
    requires slots != []
  {
    start + n / |slots| * hp + slots[n % |slots|].offsetNs
  }

  /** First hyperperiod start for a clock reading `now`. */
  function FirstStart(epoch: nat, hp: nat, now: nat): nat
    requires hp > 0
  {
    if epoch == 0 then now
    else if epoch < now then epoch + ((now - epoch) / hp + 1) * hp
    else epoch
  }

  /**
   * Where a timer has to start: at once without an epoch, at the epoch while that is still ahead or due,
   * and otherwise at the first boundary of the epoch's grid that lies strictly ahead.
   */
  ghost predicate RightStart(epoch: nat, hp: nat, now: nat, start: nat) {
    if epoch == 0 then start == now
    else if epoch >= now then start == epoch
    else
      && start > now && OnGrid(epoch, hp, start)
      && forall x: nat :: OnGrid(epoch, hp, x) && x > now ==> x >= start
  }

  ghost predicate OnGrid(epoch: nat, hp: nat, x: nat) {
    exists m: nat :: x == epoch + m * hp
  }

  /** The catch-up is right, and nothing else is. */
  lemma RightStartIff(epoch: nat, hp: nat, now: nat, start: nat)
    requires hp > 0
    ensures RightStart(epoch, hp, now, start) <==> start == FirstStart(epoch, hp, now)
  {
    if 0 < epoch < now {
      CatchUpIsLeast(epoch, hp, now);
      var first := FirstStart(epoch, hp, now);
      assert OnGrid(epoch, hp, first);
      forall x: nat | OnGrid(epoch, hp, x) && x > now ensures x >= first {
        var m: nat :| x == epoch + m * hp;
      }
    }
  }

  /** Catch-up lands on the first hyperperiod boundary strictly after the current time. */
  lemma CatchUpIsLeast(epoch: nat, hp: nat, now: nat)
    requires hp > 0 && 0 < epoch < now
    ensures FirstStart(epoch, hp, now) > now
    ensures exists m: nat :: FirstStart(epoch, hp, now) == epoch + m * hp
    ensures forall m: nat :: epoch + m * hp > now ==> epoch + m * hp >= FirstStart(epoch, hp, now)
  {
    var q := (now - epoch) / hp;
    NextMultiple(now - epoch, q, hp);
    assert FirstStart(epoch, hp, now) == epoch + (q + 1) * hp;
    forall m: nat | epoch + m * hp > now
      ensures epoch + m * hp >= FirstStart(epoch, hp, now)
    {
      MultipleOrder(m, q, hp);
    }
  }

  lemma NextMultiple(e: nat, q: nat, hp: nat)
    requires hp > 0 && q == e / hp
    ensures q * hp <= e < (q + 1) * hp
  {
    assert e == q * hp + e % hp;
    assert (q + 1) * hp == q * hp + hp;
  }

  lemma MultipleOrder(m: nat, q: nat, hp: nat)
    ensures m <= q ==> m * hp <= q * hp
    ensures m > q ==> m * hp >= (q + 1) * hp
  {
  }

  /** Any two CPUs or nodes that share a non-zero epoch and hyperperiod start in phase, whenever they start. */
  lemma PhaseCongruent(epoch: nat, hp: nat, now1: nat, now2: nat)
    requires hp > 0 && epoch > 0
    ensures (FirstStart(epoch, hp, now1) - FirstStart(epoch, hp, now2)) % hp == 0
  {
    var m1 := if epoch < now1 then (now1 - epoch) / hp + 1 else 0;
    var m2 := if epoch < now2 then (now2 - epoch) / hp + 1 else 0;
    assert FirstStart(epoch, hp, now1) == epoch + m1 * hp;
    assert FirstStart(epoch, hp, now2) == epoch + m2 * hp;
    assert m1 * hp - m2 * hp == (m1 - m2) * hp;
    MulMod(m1 - m2, hp);
  }

  /** ... and stay in phase: equal slots of any two rounds are a whole number of hyperperiods apart. */
  lemma PhaseForever(slots: seq<SlotEntry>, hp: nat, start1: nat, start2: nat, n1: nat, n2: nat)
    requires slots != [] && hp > 0 && (start1 - start2) % hp == 0
    requires slots[n1 % |slots|].offsetNs == slots[n2 % |slots|].offsetNs
    ensures (Target(slots, hp, start1, n1) - Target(slots, hp, start2, n2)) % hp == 0
  {
    var k := |slots|;
    var d := (start1 - start2) / hp;
    var r1, r2 := n1 / k, n2 / k;
    assert start1 - start2 == d * hp;
    assert Target(slots, hp, start1, n1) - Target(slots, hp, start2, n2)
           == d * hp + r1 * hp - r2 * hp == (d + r1 - r2) * hp;
    MulMod(d + r1 - r2, hp);
  }

  function ComputeNextTtStart(slots: seq<SlotEntry>, idx: nat, hyperperiodStart: nat, hp: nat): nat {
    if slots == [] || hp == 0 then 0
    else
      var next := (idx + 1) % |slots|;
      (if next <= idx then hyperperiodStart + hp else hyperperiodStart) + slots[next].offsetNs
  }

  /** What is published as the next TT start at step n is the target of step n + 1. */
  lemma NextStartIsNextTarget(slots: seq<SlotEntry>, hp: nat, start: nat, n: nat)
    requires slots != [] && hp > 0
    ensures ComputeNextTtStart(slots, n % |slots|, start + n / |slots| * hp, hp) == Target(slots, hp, start, n + 1)
  {
    var k := |slots|;
    var i, r := n % k, n / k;
    DivStep(n, k);
    if i + 1 < k {
      DivUnique(i + 1, 0, i + 1, k);
    } else {
      DivUnique(k, 1, 0, k);
      assert (r + 1) * hp == r * hp + hp;
    }
  }

  ghost predicate OffsetsAscending(slots: seq<SlotEntry>) {
    forall i, j :: 0 <= i < j < |slots| ==> slots[i].offsetNs <= slots[j].offsetNs
  }

  /** With offsets inside the hyperperiod the targets never go back in time. */
  lemma {:induction false} TargetsMonotone(slots: seq<SlotEntry>, hp: nat, start: nat, n: nat, m: nat)
    requires slots != [] && OffsetsAscending(slots) && n <= m
    requires forall i :: 0 <= i < |slots| ==> slots[i].offsetNs < hp
    ensures Target(slots, hp, start, n) <= Target(slots, hp, start, m)
    decreases m - n
  {
    if n < m {
      TargetStep(slots, hp, start, n);
      TargetsMonotone(slots, hp, start, n + 1, m);
    }
  }

  lemma TargetStep(slots: seq<SlotEntry>, hp: nat, start: nat, n: nat)
    requires slots != [] && OffsetsAscending(slots)
    requires forall i :: 0 <= i < |slots| ==> slots[i].offsetNs < hp
    ensures Target(slots, hp, start, n) <= Target(slots, hp, start, n + 1)
  {
    var k := |slots|;
    DivStep(n, k);
    if n % k + 1 == k {
      assert (n / k + 1) * hp == n / k * hp + hp;
    }
  }

  method SortByOffset(lib: Library, table: seq<SlotEntry>) returns (sorted: seq<SlotEntry>)
    requires Lawful(lib)
    ensures OffsetsAscending(sorted) && exists order :: IsPermutation(order, |table|) && sorted == Permute(table, order)
  {
    var order := lib.sort(seq(|table|, i requires 0 <= i < |table| => table[i].offsetNs as real));
    sorted := Permute(table, order);
  }

  method CatchUp(epoch: nat, hp: nat, now: nat) returns (first: nat)
    ensures hp > 0 ==> RightStart(epoch, hp, now, first)
  {
    if hp > 0 { RightStartIff(epoch, hp, now, FirstStart(epoch, hp, now)); }
    first := epoch;
    if epoch == 0 {
      first := now;
    } else if epoch < now && hp > 0 {
      var elapsed := now - epoch;
      var periods := elapsed / hp + 1;
      first := epoch + periods * hp;
    }
  }

  datatype Firing = Firing(target: nat, slot: SlotEntry, published: bool, lead: nat)

  /** One CPU's worker loop over its slot list. */
  class CpuTimer {
    const slots: seq<SlotEntry>
    const hp: nat
    ghost const start: nat
    var nextSlotIdx: nat
    var hyperperiodStart: nat
    ghost var fired: nat

    /** Without slots or hyperperiod the worker only sleeps until the next table. */
    predicate Idle() {
      slots == [] || hp == 0
    }

    ghost predicate Valid()
      reads this
    {
      && OffsetsAscending(slots)
      && if Idle() then fired == 0
         else nextSlotIdx == fired % |slots| && hyperperiodStart == start + fired / |slots| * hp
    }

    constructor (lib: Library, table: seq<SlotEntry>, hp: nat, epoch: nat, now: nat)
      requires Lawful(lib)
      ensures Valid() && this.hp == hp && fired == 0
      ensures hp > 0 ==> RightStart(epoch, hp, now, start)
      ensures exists order :: IsPermutation(order, |table|) && slots == Permute(table, order)
    {
      var sorted := SortByOffset(lib, table);
      var first := CatchUp(epoch, hp, now);
      slots, this.hp := sorted, hp;
      nextSlotIdx, hyperperiodStart := 0, first;
      start, fired := first, 0;
      if sorted != [] { DivUnique(0, 0, 0, |sorted|); }
    }

    /** One iteration: the instant slept until, the slot woken, and the lead to the next TT start if published. */
    method Fire() returns (r: Option<Firing>)
      requires Valid()
      modifies this
      ensures Valid() && (r.None? <==> Idle())
      ensures fired == old(fired) + if r.None? then 0 else 1
      ensures r.Some? ==>
                && r.value.target == Target(slots, hp, start, old(fired))
                && r.value.slot == slots[old(fired) % |slots|]
                && (r.value.published <==> Target(slots, hp, start, fired) > r.value.target)
                && (r.value.published ==> r.value.target + r.value.lead == Target(slots, hp, start, fired))
    {
      if slots == [] || hp == 0 { return None; }
      var slot := slots[nextSlotIdx];
      var target := hyperperiodStart + slot.offsetNs;
      NextStartIsNextTarget(slots, hp, start, fired);
      var next := ComputeNextTtStart(slots, nextSlotIdx, hyperperiodStart, hp);
      r := Some(Firing(target, slot, next > target, if next > target then next - target else 0));
      DivStep(fired, |slots|);
      nextSlotIdx := nextSlotIdx + 1;
      if nextSlotIdx >= |slots| {
        assert (fired / |slots| + 1) * hp == fired / |slots| * hp + hp;
        nextSlotIdx := 0;
        hyperperiodStart := hyperperiodStart + hp;
      }
      fired := fired + 1;
    }
  }
}
