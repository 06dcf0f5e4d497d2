/** Hyperperiods: the C++ planner's arithmetic and the checked Rust one. */
module Hyperperiod {
  import opened Divisibility

  const U64_MAX: nat := 0xFFFF_FFFF_FFFF_FFFF

  type u64 = x: nat | x <= U64_MAX

  function Wrap64(x: nat): u64 {
    x % (U64_MAX + 1)
  }

  /** The Euclidean loop of both implementations. */
  method ComputeGcd(a0: u64, b0: u64) returns (g: u64)
    ensures IsGcd(g, a0, b0)
    ensures g == Gcd(a0, b0)
  {
    var a, b := a0, b0;
    while b != 0
      invariant Gcd(a, b) == Gcd(a0, b0)
      decreases b
    {
      a, b := b, a % b;
    }
    GcdIsGreatest(a0, b0);
    g := a;
  }

  // ---- C++ planner: silent wrap-around ----

  method ComputeLcm(a: u64, b: u64) returns (r: u64)
    ensures a == 0 || b == 0 ==> r == 0
    ensures a > 0 && b > 0 ==> r == Wrap64(Lcm(a, b))
  {
    if a == 0 || b == 0 { return 0; }
    var g := ComputeGcd(a, b);
    LcmIsLeast(a, b);
    r := Wrap64(a / g * b);
  }

  /**
   * The fold returns the least common multiple exactly when that number fits in
   * 64 bits; a wrapped result is never the least common multiple.
   */
  method CalculateHyperperiod(periods: seq<u64>) returns (r: u64)
    ensures periods == [] || 0 in periods ==> r == 0
    ensures periods != [] && AllPositive(periods) ==>
              (IsLcmOf(r, periods) <==> LcmOf(periods) <= U64_MAX)
  {
    if periods == [] { return 0; }
    r := periods[0];
    SingletonLcm(periods[0]);
    assert periods[..1] == [periods[0]];
    for i := 1 to |periods|
      invariant 0 in periods[..i] ==> r == 0
      invariant AllPositive(periods) && LcmOf(periods[..i]) <= U64_MAX ==> r == LcmOf(periods[..i])
    {
      ghost var before := r;
      r := ComputeLcm(r, periods[i]);
      assert periods[..i + 1][..i] == periods[..i];
      if AllPositive(periods) && LcmOf(periods[..i + 1]) <= U64_MAX {
        LcmOfPrefix(periods[..i + 1], i);
        assert before == LcmOf(periods[..i]);
      }
    }
    assert periods[..|periods|] == periods;
    if AllPositive(periods) {
      LcmOfIsLeast(periods);
      if IsLcmOf(r, periods) { LcmUnique(r, LcmOf(periods), periods); }
    }
  }

  lemma SingletonLcm(p: nat)
    ensures p > 0 ==> LcmOf([p]) == p
  {
    if p > 0 {
      assert [p][..0] == [];
      LcmIsLeast(1, p);
      Quotient(p, Lcm(1, p));
      LcmDividesMultiple(1, p, p) by { MulMod(1, p); MulMod(p, 1); }
      Quotient(Lcm(1, p), p);
    }
  }

  ghost predicate Harmonic(periods: seq<nat>) {
    forall i, j :: 0 <= i < |periods| && 0 <= j < |periods| && periods[i] <= periods[j] ==>
      Divides(periods[i], periods[j])
  }

  /** Strictly ascending duplicate-free copy: std::set in C++, sort_unstable and dedup in Rust. */
  method SortedUnique(s: seq<u64>) returns (r: seq<u64>)
    ensures Rising(r) && forall x :: x in r <==> x in s
  {
    r := [];
    for n := 0 to |s|
      invariant Rising(r) && forall x :: x in r <==> x in s[..n]
    {
      r := InsertUnique(r, s[n]);
      assert s[..n + 1] == s[..n] + [s[n]];
    }
    assert s[..|s|] == s;
  }

  ghost predicate Rising(s: seq<int>) {
    forall i, j :: 0 <= i < j < |s| ==> s[i] < s[j]
  }

  method InsertUnique(s: seq<u64>, x: u64) returns (r: seq<u64>)
    requires Rising(s)
    ensures Rising(r) && forall y :: y in r <==> y in s || y == x
  {
    var at := 0;
    while at < |s| && s[at] < x
      invariant at <= |s|
      invariant forall i :: 0 <= i < at ==> s[i] < x
    {
      at := at + 1;
    }
    if at < |s| && s[at] == x { return s; }
    r := s[..at] + [x] + s[at..];
    InsertedAt(s, x, at, r);
  }

  lemma InsertedAt(s: seq<int>, x: int, at: nat, r: seq<int>)
    requires Rising(s) && at <= |s| && r == s[..at] + [x] + s[at..]
    requires (forall i :: 0 <= i < at ==> s[i] < x) && (at < |s| ==> x < s[at])
    ensures Rising(r) && forall y :: y in r <==> y in s || y == x
  {
    assert s == s[..at] + s[at..];
    forall i, j | 0 <= i < j < |r| ensures r[i] < r[j] {
      assert j > at && i != at ==> s[if i < at then i else i - 1] < s[j - 1];
    }
  }

  /** Accepts exactly the sets in which the larger of any two periods is a multiple of the smaller. */
  method ValidateHarmonic(periods: seq<u64>) returns (ok: bool)
    requires AllPositive(periods)
    ensures ok <==> Harmonic(periods)
  {
    if |periods| <= 1 {
      if |periods| == 1 { MulMod(1, periods[0]); }
      return true;
    }
    var sorted := SortedUnique(periods);
    forall k | 0 <= k < |sorted|
      ensures sorted[k] > 0
    {
      assert sorted[k] in sorted;
      assert sorted[k] in periods;
    }
    for i := 0 to |sorted|
      invariant forall a, b :: 0 <= a < i && a < b < |sorted| ==> sorted[b] % sorted[a] == 0
    {
      for j := i + 1 to |sorted|
        invariant forall a, b :: 0 <= a < i && a < b < |sorted| ==> sorted[b] % sorted[a] == 0
        invariant forall b :: i < b < j ==> sorted[b] % sorted[i] == 0
      {
        if sorted[j] % sorted[i] != 0 {
          assert sorted[i] in sorted && sorted[j] in sorted;
          assert sorted[i] in periods && sorted[j] in periods;
          return false;
        }
      }
    }
    forall i, j | 0 <= i < |periods| && 0 <= j < |periods| && periods[i] <= periods[j]
      ensures Divides(periods[i], periods[j])
    {
      assert periods[i] in sorted && periods[j] in sorted;
      var a :| 0 <= a < |sorted| && sorted[a] == periods[i];
      var b :| 0 <= b < |sorted| && sorted[b] == periods[j];
      if a == b { MulMod(1, periods[i]); }
    }
    ok := true;
  }

  /** On a harmonic set the hyperperiod is simply the largest period. */
  lemma HarmonicHyperperiod(periods: seq<nat>, max: nat)
    requires AllPositive(periods) && Harmonic(periods)
    requires max < |periods| && forall i :: 0 <= i < |periods| ==> periods[i] <= periods[max]
    ensures LcmOf(periods) == periods[max]
  {
    LcmOfIsLeast(periods);
    assert CommonMultiple(periods[max], periods);
    Quotient(LcmOf(periods), periods[max]);
    Quotient(periods[max], LcmOf(periods));
  }

  // ---- Rust: checked arithmetic ----

  datatype HyperperiodError =
    | NoValidPeriods
    | Overflow(a: u64, b: u64)
    | TooLarge(valueUs: u64, limitUs: u64)

  datatype LcmResult = Ok(value: u64) | Err(error: HyperperiodError)

  /** checked_mul: overflow is reported exactly when the true result does not fit. */
  method CheckedLcm(a: u64, b: u64) returns (r: LcmResult)
    ensures a == 0 || b == 0 ==> r == Ok(0)
    ensures a > 0 && b > 0 && Lcm(a, b) <= U64_MAX ==> r == Ok(Lcm(a, b))
    ensures a > 0 && b > 0 && Lcm(a, b) > U64_MAX ==> r == Err(Overflow(a, b))
  {
    if a == 0 || b == 0 { return Ok(0); }
    var g := ComputeGcd(a, b);
    LcmIsLeast(a, b);
    var reduced := a / g;
    r := if reduced * b <= U64_MAX then Ok(reduced * b) else Err(Overflow(a, b));
  }

  /**
   * The fold stops at the first partial overflow, yet it fails exactly when the
   * least common multiple of the whole slice exceeds u64::MAX.
   */
  method LcmOfSlice(periods: seq<u64>) returns (r: LcmResult)
    ensures periods == [] ==> r == Ok(0)
    ensures periods != [] && AllPositive(periods) && r.Ok? ==> IsLcmOf(r.value, periods)
    ensures AllPositive(periods) && r.Err? ==>
              r.error.Overflow? && forall m: nat :: m > 0 && CommonMultiple(m, periods) ==> m > U64_MAX
    ensures AllPositive(periods) ==> (r.Err? <==> LcmOf(periods) > U64_MAX)
  {
    var acc := if periods == [] then 0 else periods[0];
    for i := 0 to |periods|
      invariant periods == [] ==> acc == 0
      invariant AllPositive(periods) && periods != [] ==>
                  acc == if i == 0 then periods[0] else LcmOf(periods[..i])
    {
      var step := CheckedLcm(acc, periods[i]);
      if AllPositive(periods) { FoldStep(periods, i, acc); }
      if step.Err? {
        if AllPositive(periods) {
          LcmOfPrefix(periods, i + 1);
          LcmOfIsLeast(periods);
          forall m: nat | m > 0 && CommonMultiple(m, periods)
            ensures m > U64_MAX
          {
            Quotient(LcmOf(periods), m);
          }
        }
        return step;
      }
      acc := step.value;
    }
    assert periods[..|periods|] == periods;
    if AllPositive(periods) { LcmOfIsLeast(periods); }
    r := Ok(acc);
  }

  lemma FoldStep(periods: seq<nat>, i: nat, acc: nat)
    requires AllPositive(periods) && i < |periods|
    requires acc == if i == 0 then periods[0] else LcmOf(periods[..i])
    ensures LcmOf(periods[..i + 1]) == Lcm(acc, periods[i])
  {
    assert periods[..i + 1][..i] == periods[..i];
    if i == 0 {
      SingletonLcm(periods[0]);
      assert periods[..1] == [periods[0]];
      var p := periods[0];
      LcmIsLeast(p, p);
      LcmDividesMultiple(p, p, p) by { MulMod(1, p); }
      DividesAntisymmetric(p, Lcm(p, p));
    }
  }

  datatype PeriodicTask = PeriodicTask(workloadId: string, periodUs: u64)

  datatype HyperperiodInfo = HyperperiodInfo(
    workloadId: string, hyperperiodUs: u64, uniquePeriods: seq<u64>, taskCount: nat)

  datatype InfoResult = InfoOk(info: HyperperiodInfo) | InfoErr(error: HyperperiodError)

  /** Non-zero periods of one workload, in task order. */
  function MatchingPeriods(workloadId: string, tasks: seq<PeriodicTask>): (r: seq<u64>)
    ensures AllPositive(r)
    ensures forall p :: p in r <==> exists t :: t in tasks && t.workloadId == workloadId && t.periodUs == p > 0
  {
    if tasks == [] then []
    else
      assert tasks == tasks[..|tasks| - 1] + [tasks[|tasks| - 1]];
      var init, t := MatchingPeriods(workloadId, tasks[..|tasks| - 1]), tasks[|tasks| - 1];
      if t.workloadId == workloadId && t.periodUs > 0 then init + [t.periodUs] else init
  }

  /** The places of the workload's tasks with a period. */
  function MatchingTasks(workloadId: string, tasks: seq<PeriodicTask>): set<nat> {
    set i: nat | i < |tasks| && tasks[i].workloadId == workloadId && tasks[i].periodUs > 0
  }

  /** One period for each of them. */
  lemma {:induction false} MatchingCount(workloadId: string, tasks: seq<PeriodicTask>)
    ensures |MatchingPeriods(workloadId, tasks)| == |MatchingTasks(workloadId, tasks)|
  {
    if tasks != [] {
      var n: nat := |tasks| - 1;
      var init, t := tasks[..n], tasks[n];
      MatchingCount(workloadId, init);
      assert MatchingTasks(workloadId, tasks) == MatchingTasks(workloadId, init) +
        if t.workloadId == workloadId && t.periodUs > 0 then {n} else {};
    }
  }

  class HyperperiodManager {
    var infos: map<string, HyperperiodInfo>
    const limitUs: u64

    constructor (limitUs: u64)
      ensures infos == map[] && this.limitUs == limitUs
    {
      infos := map[];
      this.limitUs := limitUs;
    }

    /** Each of the four outcomes is tied to the condition under which it occurs. */
    method Calculate(workloadId: string, tasks: seq<PeriodicTask>) returns (r: InfoResult)
      modifies this`infos
      ensures var ps := MatchingPeriods(workloadId, tasks);
              && (r == InfoErr(NoValidPeriods) <==> ps == [])
              && (ps != [] ==> (r.InfoErr? && r.error.Overflow? <==> LcmOf(ps) > U64_MAX))
              && (ps != [] && limitUs < LcmOf(ps) <= U64_MAX ==> r == InfoErr(TooLarge(LcmOf(ps), limitUs)))
              && (r.InfoOk? <==> ps != [] && LcmOf(ps) <= limitUs)
              && (r.InfoOk? ==>
                    && r.info.workloadId == workloadId
                    && r.info.hyperperiodUs == LcmOf(ps)
                    && r.info.taskCount == |MatchingTasks(workloadId, tasks)|
                    && (forall p :: p in r.info.uniquePeriods <==> p in ps)
                    && (forall i, j :: 0 <= i < j < |r.info.uniquePeriods| ==>
                          r.info.uniquePeriods[i] < r.info.uniquePeriods[j]))
      ensures infos == if r.InfoOk? then old(infos)[workloadId := r.info] else old(infos)
    {
      var matching := CollectMatching(workloadId, tasks);
      MatchingCount(workloadId, tasks);
      if matching == [] { return InfoErr(NoValidPeriods); }
      var unique := SortedUnique(matching);
      SameElementsSameLcm(unique, matching);
      var fold := LcmOfSlice(unique);
      assert matching[0] in unique;
      if fold.Err? { return InfoErr(fold.error); }
      LcmOfIsLeast(unique);
      LcmUnique(fold.value, LcmOf(unique), unique);
      if fold.value > limitUs { return InfoErr(TooLarge(fold.value, limitUs)); }
      var info := HyperperiodInfo(workloadId, fold.value, unique, |matching|);
      infos := infos[workloadId := info];
      r := InfoOk(info);
    }
  }

  method CollectMatching(workloadId: string, tasks: seq<PeriodicTask>) returns (r: seq<u64>)
    ensures r == MatchingPeriods(workloadId, tasks)
  {
    r := [];
    for i := 0 to |tasks|
      invariant r == MatchingPeriods(workloadId, tasks[..i])
    {
      assert tasks[..i + 1][..i] == tasks[..i];
      if tasks[i].workloadId == workloadId && tasks[i].periodUs > 0 {
        r := r + [tasks[i].periodUs];
      }
    }
    assert tasks[..|tasks|] == tasks;
  }

  /** Sorting and deduplicating before the fold does not change the result. */
  lemma SameElementsSameLcm(a: seq<nat>, b: seq<nat>)
    requires AllPositive(b) && forall x :: x in a <==> x in b
    ensures AllPositive(a) && LcmOf(a) == LcmOf(b)
  {
    forall i | 0 <= i < |a| ensures a[i] > 0 { assert a[i] in b; }
    LcmOfIsLeast(a);
    LcmOfIsLeast(b);
    SameCommonMultiples(LcmOf(a), a, b);
    SameCommonMultiples(LcmOf(b), b, a);
    DividesAntisymmetric(LcmOf(a), LcmOf(b));
  }

  lemma SameCommonMultiples(m: nat, a: seq<nat>, b: seq<nat>)
    requires CommonMultiple(m, a) && forall x :: x in b ==> x in a
    ensures CommonMultiple(m, b)
  {
    forall i | 0 <= i < |b| ensures Divides(b[i], m) { assert b[i] in a; }
  }

  lemma ConsecutiveCoprime(n: nat)
    requires n > 1
    ensures Gcd(n, n + 1) == 1
  {
    assert n % (n + 1) == n;
    assert (n + 1) % n == 1;
    assert Gcd(n, 1) == Gcd(1, 0);
  }

  lemma ConsecutiveLcm(n: nat)
    requires n > 1
    ensures Lcm(n, n + 1) == n * (n + 1) && LcmOf([n, n + 1]) == n * (n + 1)
  {
    ConsecutiveCoprime(n);
    SingletonLcm(n);
    assert [n, n + 1][..1] == [n];
  }

  lemma ThreeCoprime(n: nat)
    requires n > 1 && n % 2 == 1
    ensures Gcd(n * (n + 1), n + 2) == 1
  {
    var c := n + 2;
    assert n * (n + 1) == (n - 1) * c + 2;
    DivUnique(n * (n + 1), n - 1, 2, c);
    assert Gcd(c, 2) == Gcd(2, 1) == Gcd(1, 0);
  }

  /** Three consecutive periods, the first odd: their hyperperiod is the product. */
  lemma ThreeLcm(n: nat)
    requires n > 1 && n % 2 == 1
    ensures LcmOf([n, n + 1, n + 2]) == n * (n + 1) * (n + 2)
  {
    ConsecutiveLcm(n);
    ThreeCoprime(n);
    var three := [n, n + 1, n + 2];
    assert three[..2] == [n, n + 1];
    assert LcmOf(three) == Lcm(LcmOf(three[..2]), n + 2);
    assert n * (n + 1) / 1 == n * (n + 1);
  }

  lemma ProductMonotone(a: nat, b: nat, x: nat, y: nat)
    requires a <= x && b <= y
    ensures a * b <= x * y
  {
    assert a * b <= x * b <= x * y;
  }

  lemma MulAtLeast(q: nat, g: nat)
    requires g >= 1
    ensures q <= q * g
  {
    ProductMonotone(q, 1, q, g);
  }

  lemma LcmAtMostProduct(a: nat, b: nat)
    requires a > 0 && b > 0
    ensures Lcm(a, b) <= a * b
  {
    var g := Gcd(a, b);
    GcdDividesBoth(a, b);
    Quotient(g, a);
    MulAtLeast(a / g, g);
    ProductMonotone(a / g, b, a, b);
  }

  /** Periods are 32-bit fields: one or two of them never wrap ... */
  lemma TwoNeverWrap(a: nat, b: nat)
    requires 0 < a < 0x1_0000_0000 && 0 < b < 0x1_0000_0000
    ensures LcmOf([a]) <= U64_MAX && LcmOf([a, b]) <= U64_MAX
  {
    SingletonLcm(a);
    assert [a, b][..1] == [a];
    LcmAtMostProduct(a, b);
    ProductMonotone(a, b, 0xFFFF_FFFF, 0xFFFF_FFFF);
  }

  /** ... nor do the periods of one CPU, which have passed the harmonic check ... */
  lemma HarmonicNeverWraps(periods: seq<nat>, max: nat)
    requires AllPositive(periods) && Harmonic(periods)
    requires max < |periods| && forall i :: 0 <= i < |periods| ==> periods[i] <= periods[max] < 0x1_0000_0000
    ensures LcmOf(periods) < 0x1_0000_0000
  {
    HarmonicHyperperiod(periods, max);
  }

  /** ... but three periods of a node can: the result is then no common multiple. */
  method HyperperiodWraps() returns (r: u64)
    ensures LcmOf([0x7FFF_FFFD, 0x7FFF_FFFE, 0x7FFF_FFFF]) > U64_MAX
    ensures !IsLcmOf(r, [0x7FFF_FFFD, 0x7FFF_FFFE, 0x7FFF_FFFF])
  {
    var n := 0x7FFF_FFFD;
    ThreeLcm(n);
    r := CalculateHyperperiod([n, n + 1, n + 2]);
  }
}
