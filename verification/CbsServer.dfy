/** Constant-bandwidth servers in the kernel scheduler: lazy replenishment, slices and charging. */
module CbsServer {
  import opened Basics
  import opened Divisibility

  datatype CbsState = CbsState(budgetUs: u32, periodUs: u32, remainingUs: u32, execStartNs: nat, replenishAtNs: nat)

  /** State written by user space when the server is registered at `t0`. */
  function Register(budgetUs: u32, periodUs: u32, t0: nat): CbsState {
    CbsState(budgetUs, periodUs, budgetUs, 0, if periodUs > 0 then t0 + periodUs * 1000 else 0)
  }

  /** The first point of the grid `at`, `at + p`, ... after `now`. */
  function NextOnGrid(at: nat, p: nat, now: nat): nat
    requires p > 0 && at <= now
  {
    at + ((now - at) / p + 1) * p
  }

  function Replenish(s: CbsState, now: nat): CbsState {
    if s.periodUs == 0 || now < s.replenishAtNs then s
    else s.(remainingUs := s.budgetUs, replenishAtNs := NextOnGrid(s.replenishAtNs, s.periodUs * 1000, now))
  }

  /** Microseconds until the next TT start, at least 1, saturated to 32 bits; 0 means unknown start. */
  function UsUntilNextTt(nextTtStart: nat, now: nat): (r: u32)
    ensures r >= 1
  {
    if nextTtStart == 0 then TWO_32 - 1
    else if nextTtStart <= now then 1
    else
      var d := (nextTtStart - now) / 1000;
      if d == 0 then 1 else if d > TWO_32 - 1 then TWO_32 - 1 else d
  }

  function EffectiveUs(remainingUs: u32, nextTtUs: u32): (r: u32)
    ensures r >= 1
  {
    var e := if nextTtUs < remainingUs then nextTtUs else remainingUs;
    if e == 0 then 1 else e
  }

  /** Slice granted when the task starts running. */
  function SliceNs(s: CbsState, now: nat, nextTtStart: nat): nat {
    EffectiveUs(Replenish(s, now).remainingUs, UsUntilNextTt(nextTtStart, now)) * 1000
  }

  function Run(s: CbsState, now: nat): CbsState {
    Replenish(s, now).(execStartNs := now)
  }

  /** Whole microseconds since `since`, truncated to 32 bits. */
  function ElapsedUs(since: nat, now: nat): (r: u32)
    requires since <= now
    ensures (now - since) / 1000 < TWO_32 ==> r == (now - since) / 1000
  {
    (now - since) / 1000 % TWO_32
  }

  /** Microseconds deducted when the task stops. */
  function Charge(s: CbsState, now: nat): u32
    requires s.execStartNs <= now
  {
    if s.execStartNs == 0 then 0
    else
      var elapsedUs := ElapsedUs(s.execStartNs, now);
      if elapsedUs >= s.remainingUs then s.remainingUs else elapsedUs
  }

  function Stop(s: CbsState, now: nat): CbsState
    requires s.execStartNs <= now
  {
    if s.execStartNs == 0 then s
    else
      var s1 := s.(remainingUs := s.remainingUs - Charge(s, now), execStartNs := 0);
      if s1.remainingUs > 0 || s.periodUs == 0 then s1
      else if s.replenishAtNs == 0 then s1.(replenishAtNs := now + s.periodUs * 1000)
      else if now >= s.replenishAtNs then s1.(replenishAtNs := NextOnGrid(s.replenishAtNs, s.periodUs * 1000, now))
      else s1
  }

  /** The slice does not reach past the next TT start, except for the minimal slice of one microsecond. */
  lemma SliceEndsBeforeTt(s: CbsState, now: nat, nextTtStart: nat)
    requires nextTtStart > 0
    ensures now + SliceNs(s, now, nextTtStart) <= if nextTtStart >= now + 1000 then nextTtStart else now + 1000
  {
  }

  /**
   * Slices are whole microseconds, and a slice of `u` or more is granted exactly when that much budget is left
   * and it ends by the next TT start, or when `u` is the minimal one.
   */
  lemma SliceIsLargest(s: CbsState, now: nat, nextTtStart: nat, u: nat)
    requires u > 0
    ensures SliceNs(s, now, nextTtStart) % 1000 == 0
    ensures u * 1000 <= SliceNs(s, now, nextTtStart) <==>
              u == 1 || (u <= Replenish(s, now).remainingUs && (nextTtStart == 0 || now + u * 1000 <= nextTtStart))
  {
    var left := Replenish(s, now).remainingUs;
    var e := EffectiveUs(left, UsUntilNextTt(nextTtStart, now));
    MulMod(e, 1000);
    if nextTtStart > now { WholeFit(nextTtStart - now, u); }
  }

  lemma WholeFit(d: nat, u: nat)
    ensures u <= d / 1000 <==> u * 1000 <= d
  {
  }

  lemma GridAhead(at: nat, p: nat, now: nat)
    requires p > 0 && at <= now
    ensures now < NextOnGrid(at, p, now) <= now + p
  {
    var q := (now - at) / p;
    assert now - at == q * p + (now - at) % p;
  }

  /**
   * A run that exhausts the budget loses a refill if and only if it stops at or
   * after the replenishment instant: the instant is moved on without refilling, so
   * the server stays empty up to the next one, which is at most a period away.
   */
  lemma LostRefillIff(s: CbsState, now: nat, later: nat)
    requires s.periodUs > 0 && s.budgetUs > 0 && s.replenishAtNs > 0
    requires 0 < s.execStartNs <= now <= later && Stop(s, now).remainingUs == 0
    ensures s.replenishAtNs <= later && Replenish(Stop(s, now), later).remainingUs == 0 <==>
              s.replenishAtNs <= now && later < NextOnGrid(s.replenishAtNs, s.periodUs * 1000, now)
    ensures later >= now + s.periodUs * 1000 && later >= s.replenishAtNs ==>
              Replenish(Stop(s, now), later).remainingUs == s.budgetUs
  {
    if s.replenishAtNs <= now {
      GridAhead(s.replenishAtNs, s.periodUs * 1000, now);
    }
  }

  // ---- runs of one server under any interleaving of operations ----

  datatype Event = Enqueue(now: nat) | Promote(now: nat) | Running(now: nat) | Stopping(now: nat)

  /** A server with the total charged so far and the time of the last operation. */
  datatype Account = Account(s: CbsState, charged: nat, clock: nat)

  /** Operations happen on a clock that does not go back. */
  predicate InOrder(events: seq<Event>, t0: nat) {
    forall i :: 0 <= i < |events| ==> t0 <= events[i].now && (i > 0 ==> events[i - 1].now <= events[i].now)
  }

  function Step(a: Account, e: Event): Account
    requires a.s.execStartNs <= e.now
  {
    match e
    case Enqueue(now) => Account(Replenish(a.s, now), a.charged, now)
    case Promote(now) => Account(Replenish(a.s, now), a.charged, now)
    case Running(now) => Account(Run(a.s, now), a.charged, now)
    case Stopping(now) => Account(Stop(a.s, now), a.charged + Charge(a.s, now), now)
  }

  function After(budgetUs: u32, periodUs: u32, t0: nat, events: seq<Event>): (a: Account)
    requires InOrder(events, t0)
    ensures a.s.execStartNs <= a.clock && a.clock == if events == [] then t0 else events[|events| - 1].now
    ensures a.s.budgetUs == budgetUs && a.s.periodUs == periodUs
  {
    if events == [] then Account(Register(budgetUs, periodUs, t0), 0, t0)
    else Step(After(budgetUs, periodUs, t0, events[..|events| - 1]), events[|events| - 1])
  }

  /** `k` replenishment instants have been passed and every charged or remaining microsecond belongs to one budget. */
  ghost predicate Metered(a: Account, t0: nat, k: nat) {
    var p := a.s.periodUs * 1000;
    && p > 0 && t0 <= a.clock
    && a.s.remainingUs <= a.s.budgetUs
    && a.s.replenishAtNs == t0 + (k + 1) * p
    && k * p <= a.clock - t0
    && a.charged + a.s.remainingUs <= a.s.budgetUs * (1 + k)
  }

  /** Jumping to the next grid point passes at least one replenishment instant and none that lies ahead. */
  lemma GridStep(t0: nat, p: nat, k: nat, now: nat) returns (k': nat)
    requires p > 0 && t0 + (k + 1) * p <= now
    ensures NextOnGrid(t0 + (k + 1) * p, p, now) == t0 + (k' + 1) * p
    ensures k' >= k + 1 && k' * p <= now - t0
  {
    var at := t0 + (k + 1) * p;
    var q := (now - at) / p;
    k' := k + 1 + q;
    assert q * p <= now - at;
    assert (k' + 1) * p == (k + 1) * p + (q + 1) * p;
    assert k' * p == (k + 1) * p + q * p;
  }

  lemma MoreBudget(b: nat, k: nat, k': nat)
    requires k < k'
    ensures b * (1 + k) + b <= b * (1 + k')
  {
    var d := k' - k;
    assert b * (1 + k + d) == b * (1 + k) + b * d;
    assert b * d == b + b * (d - 1);
    assert b * (d - 1) >= 0;
  }

  lemma ReplenishMetered(a: Account, t0: nat, k: nat, now: nat) returns (k': nat)
    requires Metered(a, t0, k) && a.clock <= now
    ensures k' >= k && Metered(a.(s := Replenish(a.s, now), clock := now), t0, k')
  {
    if now < a.s.replenishAtNs {
      k' := k;
    } else {
      k' := GridStep(t0, a.s.periodUs * 1000, k, now);
      MoreBudget(a.s.budgetUs, k, k');
    }
  }

  lemma StopMetered(a: Account, t0: nat, k: nat, now: nat) returns (k': nat)
    requires Metered(a, t0, k) && a.clock <= now && a.s.execStartNs <= now
    ensures Metered(Account(Stop(a.s, now), a.charged + Charge(a.s, now), now), t0, k')
  {
    k' := k;
    if a.s.execStartNs > 0 && Charge(a.s, now) == a.s.remainingUs && now >= a.s.replenishAtNs {
      k' := GridStep(t0, a.s.periodUs * 1000, k, now);
      MoreBudget(a.s.budgetUs, k, k');
    }
  }

  lemma {:induction false} AlwaysMetered(budgetUs: u32, periodUs: u32, t0: nat, events: seq<Event>) returns (k: nat)
    requires periodUs > 0 && InOrder(events, t0)
    ensures Metered(After(budgetUs, periodUs, t0, events), t0, k)
  {
    if events == [] {
      k := 0;
    } else {
      var n := |events| - 1;
      var k0 := AlwaysMetered(budgetUs, periodUs, t0, events[..n]);
      var a := After(budgetUs, periodUs, t0, events[..n]);
      var now := events[n].now;
      match events[n] {
        case Stopping(_) => k := StopMetered(a, t0, k0, now);
        case _ => k := ReplenishMetered(a, t0, k0, now);
      }
    }
  }

  lemma QuotientBound(k: nat, p: nat, x: nat)
    requires p > 0 && k * p <= x
    ensures k <= x / p
  {
    var q := x / p;
    assert x < (q + 1) * p;
    assert k >= q + 1 ==> k * p >= (q + 1) * p;
  }

  lemma MeteredBound(a: Account, t0: nat, k: nat)
    requires Metered(a, t0, k)
    ensures a.charged <= a.s.budgetUs * (1 + (a.clock - t0) / (a.s.periodUs * 1000))
  {
    var p := a.s.periodUs * 1000;
    QuotientBound(k, p, a.clock - t0);
    BudgetMonotone(a.s.budgetUs, k, (a.clock - t0) / p);
  }

  lemma MeteredGrid(a: Account, t0: nat, k: nat)
    requires Metered(a, t0, k)
    ensures a.s.replenishAtNs > t0 && (a.s.replenishAtNs - t0) % (a.s.periodUs * 1000) == 0
  {
    var p := a.s.periodUs * 1000;
    MulMod(k + 1, p);
    assert (k + 1) * p >= p;
  }

  /**
   * The bandwidth bound: after any interleaving of operations, the time charged
   * to the server is at most one budget plus one per elapsed period, the
   * remaining budget never exceeds the budget, and the next replenishment is on
   * the grid t0 + kP.
   */
  lemma BandwidthBound(budgetUs: u32, periodUs: u32, t0: nat, events: seq<Event>)
    requires periodUs > 0 && InOrder(events, t0)
    ensures var a := After(budgetUs, periodUs, t0, events); var p := periodUs * 1000;
            && a.charged <= budgetUs * (1 + (a.clock - t0) / p)
            && a.s.remainingUs <= budgetUs
            && (a.s.replenishAtNs - t0) % p == 0 && a.s.replenishAtNs > t0
  {
    var k := AlwaysMetered(budgetUs, periodUs, t0, events);
    MeteredBound(After(budgetUs, periodUs, t0, events), t0, k);
    MeteredGrid(After(budgetUs, periodUs, t0, events), t0, k);
  }

  lemma BudgetMonotone(b: nat, k: nat, q: nat)
    requires k <= q
    ensures b * (1 + k) <= b * (1 + q)
  {
  }

  // ---- the budgets a run is granted ----

  /** The period of the grid t0 + kP in which an instant lies. */
  function PeriodOf(t0: nat, periodUs: u32, now: nat): nat
    requires periodUs > 0 && t0 <= now
  {
    WholePeriods(now - t0, periodUs * 1000)
  }

  function WholePeriods(x: nat, p: nat): nat
    requires p > 0
  {
    x / p
  }

  /** The stop uses up all that is left. */
  predicate Empties(a: Account, e: Event)
    requires a.s.execStartNs <= e.now
  {
    e.Stopping? && a.s.execStartNs > 0 && ElapsedUs(a.s.execStartNs, e.now) >= a.s.remainingUs
  }

  /** The period of the last operation that looked at the replenishment instant: all but stops with budget left. */
  ghost function Settled(budgetUs: u32, periodUs: u32, t0: nat, events: seq<Event>): nat
    requires periodUs > 0 && InOrder(events, t0)
  {
    if events == [] then 0
    else
      var init, e := events[..|events| - 1], events[|events| - 1];
      if e.Stopping? && !Empties(After(budgetUs, periodUs, t0, init), e) then Settled(budgetUs, periodUs, t0, init)
      else PeriodOf(t0, periodUs, e.now)
  }

  /** The operation is the first of its kind in a new period, and no stop. */
  ghost predicate Refills(budgetUs: u32, periodUs: u32, t0: nat, events: seq<Event>, e: Event)
    requires periodUs > 0 && InOrder(events, t0) && t0 <= e.now
  {
    !e.Stopping? && PeriodOf(t0, periodUs, e.now) > Settled(budgetUs, periodUs, t0, events)
  }

  ghost function RefillCount(budgetUs: u32, periodUs: u32, t0: nat, events: seq<Event>): nat
    requires periodUs > 0 && InOrder(events, t0)
  {
    if events == [] then 0
    else
      var init, e := events[..|events| - 1], events[|events| - 1];
      RefillCount(budgetUs, periodUs, t0, init) + if Refills(budgetUs, periodUs, t0, init, e) then 1 else 0
  }

  /** What was left of the budgets that a refill replaced. */
  ghost function Forfeited(budgetUs: u32, periodUs: u32, t0: nat, events: seq<Event>): nat
    requires periodUs > 0 && InOrder(events, t0)
  {
    if events == [] then 0
    else
      var init, e := events[..|events| - 1], events[|events| - 1];
      Forfeited(budgetUs, periodUs, t0, init) +
      if Refills(budgetUs, periodUs, t0, init, e) then After(budgetUs, periodUs, t0, init).s.remainingUs else 0
  }

  lemma PeriodBelow(x: nat, p: nat, k: nat)
    requires p > 0
    ensures x < (k + 1) * p <==> x / p <= k
  {
    var q := x / p;
    RemainderBelow(x, p, q);
    if q <= k { MulOrder(q + 1, k + 1, p); } else { MulOrder(k + 1, q, p); }
  }

  lemma RemainderBelow(x: nat, p: nat, q: nat)
    requires p > 0 && q == x / p
    ensures q * p <= x < (q + 1) * p
  {
    assert x == q * p + x % p;
    assert (q + 1) * p == q * p + p;
  }

  lemma MulOrder(a: nat, b: nat, p: nat)
    requires a <= b
    ensures a * p <= b * p
  {
  }

  lemma NextIsOwnPeriod(t0: nat, p: nat, k: nat, now: nat)
    requires p > 0 && t0 <= now && (now - t0) / p > k
    ensures t0 + (k + 1) * p <= now && NextOnGrid(t0 + (k + 1) * p, p, now) == t0 + ((now - t0) / p + 1) * p
  {
    PeriodBelow(now - t0, p, k);
    var at, q := t0 + (k + 1) * p, (now - t0) / p;
    var d := q - (k + 1);
    assert now - at == d * p + (now - t0) % p by {
      assert now - t0 == q * p + (now - t0) % p;
      assert q * p == (k + 1) * p + d * p;
    }
    DivUnique(now - at, d, (now - t0) % p, p);
    assert (k + 1) * p + (d + 1) * p == (q + 1) * p;
  }

  /** The replenishment instant is the end of the settled period. */
  ghost predicate SettledIn(a: Account, t0: nat, k: nat) {
    && a.s.periodUs > 0 && t0 <= a.clock
    && a.s.replenishAtNs == t0 + (k + 1) * (a.s.periodUs * 1000)
  }

  /** Looking at the instant refills the server exactly in a new period, wholly, and settles that period. */
  lemma ReplenishSettles(a: Account, t0: nat, k: nat, now: nat)
    requires SettledIn(a, t0, k) && a.clock <= now && k <= PeriodOf(t0, a.s.periodUs, a.clock)
    ensures var q := PeriodOf(t0, a.s.periodUs, now); var r := Replenish(a.s, now);
            && q >= k
            && SettledIn(a.(s := r, clock := now), t0, q)
            && r.remainingUs == if q > k then a.s.budgetUs else a.s.remainingUs
  {
    var p := a.s.periodUs * 1000;
    PeriodBelow(now - t0, p, k);
    PeriodMonotone(a.clock - t0, now - t0, p);
    if PeriodOf(t0, a.s.periodUs, now) > k { NextIsOwnPeriod(t0, p, k, now); }
  }

  lemma PeriodMonotone(x: nat, y: nat, p: nat)
    requires p > 0 && x <= y
    ensures x / p <= y / p
  {
    PeriodBelow(x, p, y / p);
    PeriodBelow(y, p, y / p);
  }

  lemma StopSettles(a: Account, t0: nat, k: nat, e: Event)
    requires SettledIn(a, t0, k) && a.clock <= e.now && k <= PeriodOf(t0, a.s.periodUs, a.clock)
    requires e.Stopping? && a.s.execStartNs <= e.now
    ensures var q := PeriodOf(t0, a.s.periodUs, e.now);
            && q >= k && SettledIn(Step(a, e), t0, if Empties(a, e) then q else k)
            && Step(a, e).charged + Step(a, e).s.remainingUs == a.charged + a.s.remainingUs
  {
    var p := a.s.periodUs * 1000;
    PeriodBelow(e.now - t0, p, k);
    PeriodMonotone(a.clock - t0, e.now - t0, p);
    if PeriodOf(t0, a.s.periodUs, e.now) > k { NextIsOwnPeriod(t0, p, k, e.now); }
  }

  /** What a run has settled and been granted so far. */
  ghost predicate Granted(budgetUs: u32, periodUs: u32, t0: nat, events: seq<Event>)
    requires periodUs > 0 && InOrder(events, t0)
  {
    var a, k := After(budgetUs, periodUs, t0, events), Settled(budgetUs, periodUs, t0, events);
    && SettledIn(a, t0, k) && k <= PeriodOf(t0, periodUs, a.clock)
    && a.charged + a.s.remainingUs + Forfeited(budgetUs, periodUs, t0, events) ==
       budgetUs * (1 + RefillCount(budgetUs, periodUs, t0, events))
  }

  lemma OneBudgetMore(b: nat, n: nat)
    ensures b * (1 + (n + 1)) == b * (1 + n) + b
  {
  }

  lemma GrantedRefresh(budgetUs: u32, periodUs: u32, t0: nat, events: seq<Event>, init: seq<Event>, e: Event)
    requires periodUs > 0 && InOrder(events, t0) && events != []
    requires init == events[..|events| - 1] && e == events[|events| - 1] && Granted(budgetUs, periodUs, t0, init)
    requires !e.Stopping?
    ensures Granted(budgetUs, periodUs, t0, events)
    ensures Refills(budgetUs, periodUs, t0, init, e) ==> After(budgetUs, periodUs, t0, events).s.remainingUs == budgetUs
  {
    var a, k := After(budgetUs, periodUs, t0, init), Settled(budgetUs, periodUs, t0, init);
    ReplenishSettles(a, t0, k, e.now);
    assert After(budgetUs, periodUs, t0, events) == Step(a, e);
    OneBudgetMore(budgetUs, RefillCount(budgetUs, periodUs, t0, init));
  }

  lemma GrantedStop(budgetUs: u32, periodUs: u32, t0: nat, events: seq<Event>, init: seq<Event>, e: Event)
    requires periodUs > 0 && InOrder(events, t0) && events != []
    requires init == events[..|events| - 1] && e == events[|events| - 1] && Granted(budgetUs, periodUs, t0, init)
    requires e.Stopping?
    ensures Granted(budgetUs, periodUs, t0, events)
  {
    var a, k := After(budgetUs, periodUs, t0, init), Settled(budgetUs, periodUs, t0, init);
    StopSettles(a, t0, k, e);
    assert After(budgetUs, periodUs, t0, events) == Step(a, e);
  }

  /**
   * Over any interleaving of operations: the server was granted one budget at the start and one more for
   * every refill; all of that was charged, is left, or was left when a refill replaced it. The next
   * replenishment is at the end of the settled period.
   */
  lemma {:induction false} BudgetsGranted(budgetUs: u32, periodUs: u32, t0: nat, events: seq<Event>)
    requires periodUs > 0 && InOrder(events, t0)
    ensures Granted(budgetUs, periodUs, t0, events)
  {
    if events == [] {
      assert PeriodOf(t0, periodUs, t0) == 0;
    } else {
      var init := events[..|events| - 1];
      BudgetsGranted(budgetUs, periodUs, t0, init);
      var e := events[|events| - 1];
      if e.Stopping? {
        GrantedStop(budgetUs, periodUs, t0, events, init, e);
      } else {
        GrantedRefresh(budgetUs, periodUs, t0, events, init, e);
      }
    }
  }

  lemma {:induction false} SettledBelow(budgetUs: u32, periodUs: u32, t0: nat, events: seq<Event>, q: nat)
    requires periodUs > 0 && InOrder(events, t0) && q > 0
    requires forall i :: 0 <= i < |events| ==> PeriodOf(t0, periodUs, events[i].now) < q
    ensures Settled(budgetUs, periodUs, t0, events) < q
  {
    if events != [] { SettledBelow(budgetUs, periodUs, t0, events[..|events| - 1], q); }
  }

  /** The first operation in a period finds the whole budget, whatever happened before, unless it is a stop. */
  lemma FirstOfPeriodRefills(budgetUs: u32, periodUs: u32, t0: nat, events: seq<Event>)
    requires periodUs > 0 && events != [] && InOrder(events, t0) && !events[|events| - 1].Stopping?
    requires var q := PeriodOf(t0, periodUs, events[|events| - 1].now);
             q > 0 && forall i :: 0 <= i < |events| - 1 ==> PeriodOf(t0, periodUs, events[i].now) < q
    ensures After(budgetUs, periodUs, t0, events).s.remainingUs == budgetUs
  {
    var init, e := events[..|events| - 1], events[|events| - 1];
    SettledBelow(budgetUs, periodUs, t0, init, PeriodOf(t0, periodUs, e.now));
    BudgetsGranted(budgetUs, periodUs, t0, init);
    GrantedRefresh(budgetUs, periodUs, t0, events, init, e);
  }

  /** Other than a stop, an operation from the replenishment instant on leaves the whole budget; before, no change. */
  lemma RefillIsWhole(a: Account, e: Event)
    requires a.s.periodUs > 0 && a.s.execStartNs <= e.now && !e.Stopping?
    ensures Step(a, e).s.remainingUs == if a.s.replenishAtNs <= e.now then a.s.budgetUs else a.s.remainingUs
    ensures a.s.replenishAtNs > e.now ==> Step(a, e).s.replenishAtNs == a.s.replenishAtNs
  {
  }

  /** Without a period the server is never replenished, so one budget is all it ever gets. */
  lemma {:induction false} NoPeriodBound(budgetUs: u32, t0: nat, events: seq<Event>)
    requires InOrder(events, t0)
    ensures var a := After(budgetUs, 0, t0, events); a.charged + a.s.remainingUs == budgetUs
  {
    if events != [] { NoPeriodBound(budgetUs, t0, events[..|events| - 1]); }
  }

  lemma AfterAppend(budgetUs: u32, periodUs: u32, t0: nat, es: seq<Event>, e: Event)
    requires InOrder(es, t0) && t0 <= e.now && (es != [] ==> es[|es| - 1].now <= e.now)
    ensures InOrder(es + [e], t0) && After(budgetUs, periodUs, t0, es).s.execStartNs <= e.now
    ensures After(budgetUs, periodUs, t0, es + [e]) == Step(After(budgetUs, periodUs, t0, es), e)
  {
    assert (es + [e])[..|es|] == es;
  }

  /** The stop of that run, on its own. */
  lemma LosingStop(s: CbsState)
    requires s == CbsState(5000, 10000, 5000, 8_000_000, 10_000_001)
    ensures Charge(s, 13_000_001) == 5000
    ensures Stop(s, 13_000_001) == CbsState(5000, 10000, 0, 0, 20_000_001)
  {
    var now := 13_000_001;
    assert (now - s.execStartNs) / 1000 == 5000;
    assert (now - s.replenishAtNs) / 10_000_000 == 0;
    assert NextOnGrid(s.replenishAtNs, 10_000_000, now) == 20_000_001;
  }

  /** A refill is lost: a run over the instant 10 ms, and at 15 ms the server is still empty. */
  lemma RefillLost()
    ensures var events := [Running(8_000_000)] + [Stopping(13_000_001)] + [Enqueue(15_000_000)];
            && InOrder(events, 1)
            && After(5000, 10000, 1, events) == Account(CbsState(5000, 10000, 0, 0, 20_000_001), 5000, 15_000_000)
  {
    var es := [Running(8_000_000)];
    AfterAppend(5000, 10000, 1, [], Running(8_000_000));
    assert [] + es == es;
    AfterAppend(5000, 10000, 1, es, Stopping(13_000_001));
    AfterAppend(5000, 10000, 1, es + [Stopping(13_000_001)], Enqueue(15_000_000));
    LosingStop(CbsState(5000, 10000, 5000, 8_000_000, 10_000_001));
  }

  // ---- processor time of a server with a single task ----

  /** Where the server's only task is; a running task stops within its slice. */
  datatype Place = Off | InCbsQueue | InThrottled | OnCpu(sinceNs: nat, sliceNs: nat)

  datatype TaskEvent = Wake(now: nat) | Rescan(now: nat) | Dispatch(now: nat, nextTtStart: nat) | Leave(now: nat)

  /** Account plus the processor time really used and the number of stops. */
  datatype Life = Life(a: Account, place: Place, ranNs: nat, stops: nat)

  predicate Allowed(l: Life, e: TaskEvent) {
    && l.a.clock <= e.now && l.a.s.execStartNs <= l.a.clock
    && match e
       case Wake(_) => l.place.Off?
       case Rescan(_) => l.place.InThrottled?
       case Dispatch(_, _) => l.place.InCbsQueue?
       case Leave(now) => l.place.OnCpu? && l.place.sinceNs <= now <= l.place.sinceNs + l.place.sliceNs
  }

  /** One operation; operations that the current place rules out do not happen. */
  function LifeStep(l: Life, e: TaskEvent): Life {
    if !Allowed(l, e) then l
    else
      match e
      case Wake(now) =>
        var a := Step(l.a, Enqueue(now));
        l.(a := a, place := if a.s.remainingUs == 0 then InThrottled else InCbsQueue)
      case Rescan(now) =>
        var a := Step(l.a, Promote(now));
        l.(a := a, place := if a.s.remainingUs > 0 then InCbsQueue else InThrottled)
      case Dispatch(now, nextTt) =>
        l.(a := Step(l.a, Running(now)), place := OnCpu(now, SliceNs(l.a.s, now, nextTt)))
      case Leave(now) =>
        Life(Step(l.a, Stopping(now)), Off, l.ranNs + (now - l.place.sinceNs), l.stops + 1)
  }

  function LifeAfter(budgetUs: u32, periodUs: u32, t0: nat, events: seq<TaskEvent>): Life {
    if events == [] then Life(Account(Register(budgetUs, periodUs, t0), 0, t0), Off, 0, 0)
    else LifeStep(LifeAfter(budgetUs, periodUs, t0, events[..|events| - 1]), events[|events| - 1])
  }

  /** Queued tasks have budget left, slices fit into it, and every run loses less than a microsecond to rounding. */
  ghost predicate Honest(l: Life) {
    && (l.place.InCbsQueue? ==> l.a.s.remainingUs > 0)
    && (l.place.InThrottled? ==> l.a.s.remainingUs == 0)
    && (l.place.OnCpu? ==>
          && l.a.s.execStartNs == l.place.sinceNs > 0
          && l.place.sliceNs <= l.a.s.remainingUs * 1000)
    && l.ranNs <= l.a.charged * 1000 + l.stops * 999
  }

  lemma LeaveHonest(l: Life, now: nat)
    requires Honest(l) && Allowed(l, Leave(now))
    ensures Honest(LifeStep(l, Leave(now)))
  {
    var elapsed := now - l.place.sinceNs;
    assert elapsed <= l.a.s.remainingUs * 1000;
    assert elapsed / 1000 <= l.a.s.remainingUs < TWO_32;
    assert Charge(l.a.s, now) == elapsed / 1000;
  }

  lemma DispatchHonest(l: Life, now: nat, nextTt: nat)
    requires Honest(l) && Allowed(l, Dispatch(now, nextTt)) && now > 0 && l.a.s.remainingUs <= l.a.s.budgetUs
    ensures Honest(LifeStep(l, Dispatch(now, nextTt)))
  {
  }

  lemma LifeStepMetered(l: Life, t0: nat, k: nat, e: TaskEvent) returns (k': nat)
    requires Metered(l.a, t0, k) && Honest(l) && t0 > 0
    ensures Metered(LifeStep(l, e).a, t0, k') && Honest(LifeStep(l, e))
  {
    k' := k;
    if Allowed(l, e) {
      match e {
        case Leave(now) => k' := StopMetered(l.a, t0, k, now); LeaveHonest(l, now);
        case Dispatch(now, nextTt) => k' := ReplenishMetered(l.a, t0, k, now); DispatchHonest(l, now, nextTt);
        case Wake(now) => k' := ReplenishMetered(l.a, t0, k, now);
        case Rescan(now) => k' := ReplenishMetered(l.a, t0, k, now);
      }
    }
  }

  lemma {:induction false} LifeIsMetered(budgetUs: u32, periodUs: u32, t0: nat, events: seq<TaskEvent>) returns (k: nat)
    requires periodUs > 0 && t0 > 0
    ensures var l := LifeAfter(budgetUs, periodUs, t0, events);
            Metered(l.a, t0, k) && Honest(l) && l.a.s.budgetUs == budgetUs && l.a.s.periodUs == periodUs
  {
    if events == [] {
      k := 0;
    } else {
      var n := |events| - 1;
      var k0 := LifeIsMetered(budgetUs, periodUs, t0, events[..n]);
      k := LifeStepMetered(LifeAfter(budgetUs, periodUs, t0, events[..n]), t0, k0, events[n]);
    }
  }

  /**
   * Processor time of a single-task server whose task leaves the CPU within its
   * slice: the bandwidth bound, plus under one microsecond for every stop,
   * because charging rounds down.
   */
  lemma ProcessorTimeBound(budgetUs: u32, periodUs: u32, t0: nat, events: seq<TaskEvent>)
    requires periodUs > 0 && t0 > 0
    ensures var l := LifeAfter(budgetUs, periodUs, t0, events);
            && l.a.clock >= t0
            && l.ranNs <= 1000 * (budgetUs * (1 + (l.a.clock - t0) / (periodUs * 1000))) + 999 * l.stops
  {
    var k := LifeIsMetered(budgetUs, periodUs, t0, events);
    MeteredBound(LifeAfter(budgetUs, periodUs, t0, events).a, t0, k);
  }

  /** A throttled task is let in exactly when the replenishment instant has come, and then with the whole budget. */
  lemma ReleasedIff(budgetUs: u32, periodUs: u32, t0: nat, events: seq<TaskEvent>, now: nat)
    requires budgetUs > 0 && periodUs > 0 && t0 > 0
    requires var l := LifeAfter(budgetUs, periodUs, t0, events); l.place.InThrottled? && Allowed(l, Rescan(now))
    ensures var l := LifeAfter(budgetUs, periodUs, t0, events); var r := LifeStep(l, Rescan(now));
            if l.a.s.replenishAtNs <= now then r.place.InCbsQueue? && r.a.s.remainingUs == budgetUs
            else r.place.InThrottled? && r.a.s == l.a.s
  {
    var _ := LifeIsMetered(budgetUs, periodUs, t0, events);
  }

  /** A stop, if it happens, ends a run of whole microseconds. */
  predicate WholeRun(l: Life, e: TaskEvent) {
    e.Leave? && Allowed(l, e) ==> (e.now - l.place.sinceNs) % 1000 == 0
  }

  predicate WholeRuns(budgetUs: u32, periodUs: u32, t0: nat, events: seq<TaskEvent>) {
    events != [] ==>
      var n := |events| - 1;
      WholeRuns(budgetUs, periodUs, t0, events[..n])
      && WholeRun(LifeAfter(budgetUs, periodUs, t0, events[..n]), events[n])
  }

  /** Processor time that was used and not charged. */
  function Leak(l: Life): int {
    l.ranNs - 1000 * l.a.charged
  }

  lemma LeakStep(l: Life, e: TaskEvent)
    requires Honest(l)
    ensures Leak(LifeStep(l, e)) >= Leak(l)
    ensures Leak(LifeStep(l, e)) == Leak(l) <==> WholeRun(l, e)
  {
    if e.Leave? && Allowed(l, e) {
      var elapsed := e.now - l.place.sinceNs;
      assert elapsed / 1000 <= l.a.s.remainingUs < TWO_32;
      assert Charge(l.a.s, e.now) == elapsed / 1000;
      assert elapsed == 1000 * (elapsed / 1000) + elapsed % 1000;
    }
  }

  lemma {:induction false} LeakIff(budgetUs: u32, periodUs: u32, t0: nat, events: seq<TaskEvent>)
    requires periodUs > 0 && t0 > 0
    ensures var leak := Leak(LifeAfter(budgetUs, periodUs, t0, events));
            leak >= 0 && (leak == 0 <==> WholeRuns(budgetUs, periodUs, t0, events))
  {
    if events != [] {
      var n := |events| - 1;
      LeakIff(budgetUs, periodUs, t0, events[..n]);
      var _ := LifeIsMetered(budgetUs, periodUs, t0, events[..n]);
      LeakStep(LifeAfter(budgetUs, periodUs, t0, events[..n]), events[n]);
    }
  }

  /**
   * Processor time equals the time charged if and only if every run has a length in
   * whole microseconds; such lives stay within the plain bandwidth bound.
   */
  lemma NothingLeaksIff(budgetUs: u32, periodUs: u32, t0: nat, events: seq<TaskEvent>)
    requires periodUs > 0 && t0 > 0
    ensures var l := LifeAfter(budgetUs, periodUs, t0, events);
            && l.a.clock >= t0
            && (l.ranNs == 1000 * l.a.charged <==> WholeRuns(budgetUs, periodUs, t0, events))
            && (WholeRuns(budgetUs, periodUs, t0, events) ==>
                  l.ranNs <= 1000 * (budgetUs * (1 + (l.a.clock - t0) / (periodUs * 1000))))
  {
    LeakIff(budgetUs, periodUs, t0, events);
    var k := LifeIsMetered(budgetUs, periodUs, t0, events);
    MeteredBound(LifeAfter(budgetUs, periodUs, t0, events).a, t0, k);
  }

  /** Every server with twice its budget below its period can exceed its bound within the first period. */
  lemma LeakBreaksBound(budgetUs: u32, periodUs: u32, t0: nat)
    requires 0 < budgetUs && 2 * budgetUs + 1 < periodUs && t0 > 0
    ensures var l := LifeAfter(budgetUs, periodUs, t0, Bursts(t0, 2 * budgetUs));
            && t0 <= l.a.clock < t0 + periodUs * 1000
            && (l.a.clock - t0) / (periodUs * 1000) == 0
            && l.ranNs > 1000 * (budgetUs * (1 + (l.a.clock - t0) / (periodUs * 1000)))
  {
    RoundingLeak(budgetUs, periodUs, t0, 2 * budgetUs);
    ProcessorTimeBound(budgetUs, periodUs, t0, Bursts(t0, 2 * budgetUs));
    var l := LifeAfter(budgetUs, periodUs, t0, Bursts(t0, 2 * budgetUs));
    WithinOne(l.a.clock - t0, periodUs * 1000);
  }

  lemma WithinOne(x: nat, p: nat)
    requires x < p
    ensures x / p == 0
  {
  }

  /** `n` bursts of 999 ns, one every microsecond. */
  function Bursts(t0: nat, n: nat): seq<TaskEvent> {
    if n == 0 then []
    else Bursts(t0, n - 1) + [Wake(t0 + n * 1000)] + [Dispatch(t0 + n * 1000, 0)] + [Leave(t0 + n * 1000 + 999)]
  }

  /** The rounding term is real: within the first period any number of sub-microsecond bursts is charged nothing. */
  lemma {:induction false} RoundingLeak(budgetUs: u32, periodUs: u32, t0: nat, n: nat)
    requires budgetUs > 0 && t0 > 0 && n + 1 < periodUs
    ensures var l := LifeAfter(budgetUs, periodUs, t0, Bursts(t0, n));
            && l.ranNs == 999 * n && l.stops == n && l.a.charged == 0 && l.place.Off?
            && l.a.s == Register(budgetUs, periodUs, t0) && l.a.clock <= t0 + n * 1000 + 999
  {
    if n > 0 {
      RoundingLeak(budgetUs, periodUs, t0, n - 1);
      OneMoreBurst(budgetUs, periodUs, t0, n, LifeAfter(budgetUs, periodUs, t0, Bursts(t0, n - 1)));
    }
  }

  lemma OneMoreBurst(budgetUs: u32, periodUs: u32, t0: nat, n: nat, l: Life)
    requires n > 0 && l == LifeAfter(budgetUs, periodUs, t0, Bursts(t0, n - 1))
    requires l.place.Off? && l.a.s == Register(budgetUs, periodUs, t0) && budgetUs > 0
    requires l.a.clock <= t0 + n * 1000 && n + 1 < periodUs
    ensures LifeAfter(budgetUs, periodUs, t0, Bursts(t0, n)) ==
            Life(l.a.(clock := t0 + n * 1000 + 999), Off, l.ranNs + 999, l.stops + 1)
  {
    BurstLife(budgetUs, periodUs, t0, Bursts(t0, n - 1), t0 + n * 1000, l);
  }

  lemma BurstLife(budgetUs: u32, periodUs: u32, t0: nat, es: seq<TaskEvent>, now: nat, l: Life)
    requires l == LifeAfter(budgetUs, periodUs, t0, es)
    requires l.place.Off? && l.a.s.remainingUs > 0 && l.a.s.execStartNs == 0
    requires 0 < now && l.a.clock <= now && now + 999 < l.a.s.replenishAtNs
    ensures LifeAfter(budgetUs, periodUs, t0, es + [Wake(now)] + [Dispatch(now, 0)] + [Leave(now + 999)]) ==
            Life(l.a.(clock := now + 999), Off, l.ranNs + 999, l.stops + 1)
  {
    BurstAppend(budgetUs, periodUs, t0, es, now, l);
    var l1 := LifeStep(l, Wake(now));
    var l2 := LifeStep(l1, Dispatch(now, 0));
    Burst(l, now, l1, l2, LifeStep(l2, Leave(now + 999)));
  }

  lemma BurstAppend(budgetUs: u32, periodUs: u32, t0: nat, es: seq<TaskEvent>, now: nat, l: Life)
    requires l == LifeAfter(budgetUs, periodUs, t0, es)
    ensures LifeAfter(budgetUs, periodUs, t0, es + [Wake(now)] + [Dispatch(now, 0)] + [Leave(now + 999)]) ==
            LifeStep(LifeStep(LifeStep(l, Wake(now)), Dispatch(now, 0)), Leave(now + 999))
  {
    LifeAppend(budgetUs, periodUs, t0, es, Wake(now));
    LifeAppend(budgetUs, periodUs, t0, es + [Wake(now)], Dispatch(now, 0));
    LifeAppend(budgetUs, periodUs, t0, es + [Wake(now)] + [Dispatch(now, 0)], Leave(now + 999));
  }

  /** A burst of 999 ns between replenishments leaves the account as it was. */
  lemma Burst(l: Life, now: nat, l1: Life, l2: Life, l3: Life)
    requires l.place.Off? && l.a.s.remainingUs > 0 && l.a.s.execStartNs == 0
    requires 0 < now && l.a.clock <= now && now + 999 < l.a.s.replenishAtNs
    requires l1 == LifeStep(l, Wake(now)) && l2 == LifeStep(l1, Dispatch(now, 0))
    requires l3 == LifeStep(l2, Leave(now + 999))
    ensures l3 == Life(l.a.(clock := now + 999), Off, l.ranNs + 999, l.stops + 1)
  {
    assert l1 == l.(a := l.a.(clock := now), place := InCbsQueue);
    assert l2.a == Account(l.a.s.(execStartNs := now), l.a.charged, now) && l2.place.OnCpu? && l2.place.sliceNs >= 1000;
  }

  lemma LifeAppend(budgetUs: u32, periodUs: u32, t0: nat, es: seq<TaskEvent>, e: TaskEvent)
    ensures LifeAfter(budgetUs, periodUs, t0, es + [e]) == LifeStep(LifeAfter(budgetUs, periodUs, t0, es), e)
  {
    assert (es + [e])[..|es|] == es;
  }

  // ---- the map cell updated in place ----

  class CbsCell {
    var budgetUs: u32
    var periodUs: u32
    var remainingUs: u32
    var execStartNs: nat
    var replenishAtNs: nat

    function State(): CbsState
      reads this
    {
      CbsState(budgetUs, periodUs, remainingUs, execStartNs, replenishAtNs)
    }

    constructor (budget: u32, period: u32, now: nat)
      ensures State() == Register(budget, period, now)
    {
      budgetUs, periodUs, remainingUs, execStartNs := budget, period, budget, 0;
      replenishAtNs := if period > 0 then now + period * 1000 else 0;
    }

    method LazyReplenish(now: nat)
      modifies this
      ensures State() == Replenish(old(State()), now)
      ensures periodUs > 0 && old(replenishAtNs) <= now ==> remainingUs == budgetUs && replenishAtNs > now
      ensures periodUs == 0 || old(replenishAtNs) > now ==> State() == old(State())
    {
      if periodUs > 0 && replenishAtNs <= now { GridAhead(replenishAtNs, periodUs * 1000, now); }
      if periodUs == 0 || now < replenishAtNs { return; }
      var periodNs := periodUs * 1000;
      var elapsed := now - replenishAtNs;
      var periods := elapsed / periodNs + 1;
      remainingUs := budgetUs;
      replenishAtNs := replenishAtNs + periods * periodNs;
    }

    /** Enqueue: the task is throttled exactly when no budget is left after replenishing. */
    method OnEnqueue(now: nat) returns (throttled: bool)
      modifies this
      ensures State() == Replenish(old(State()), now)
      ensures throttled <==> remainingUs == 0
    {
      LazyReplenish(now);
      throttled := remainingUs == 0;
    }

    method OnRunning(now: nat, nextTtStart: nat) returns (slice: nat)
      modifies this
      ensures State() == Run(old(State()), now)
      ensures slice == SliceNs(old(State()), now, nextTtStart)
    {
      LazyReplenish(now);
      var effective: nat := remainingUs;
      var nextTt := UsUntilNextTt(nextTtStart, now);
      if nextTt < effective { effective := nextTt; }
      if effective == 0 { effective := 1; }
      execStartNs := now;
      slice := effective * 1000;
    }

    /** Stopping: deduct, and report when the budget ran out. */
    method OnStopping(now: nat) returns (exceeded: bool)
      requires execStartNs <= now
      modifies this
      ensures State() == Stop(old(State()), now)
      ensures exceeded <==> old(execStartNs) > 0 && remainingUs == 0
      ensures old(execStartNs) == 0 ==> State() == old(State())
      ensures old(execStartNs) > 0 ==>
                && execStartNs == 0
                && var used := (now - old(execStartNs)) / 1000 % TWO_32;
                   remainingUs == if used < old(remainingUs) then old(remainingUs) - used else 0
      ensures exceeded && periodUs > 0 && old(replenishAtNs) == 0 ==> replenishAtNs == now + periodUs * 1000
      ensures exceeded && periodUs > 0 ==> replenishAtNs > now
      ensures !exceeded || periodUs == 0 || old(replenishAtNs) > now ==> replenishAtNs == old(replenishAtNs)
    {
      if periodUs > 0 && 0 < replenishAtNs <= now { GridAhead(replenishAtNs, periodUs * 1000, now); }
      exceeded := false;
      if execStartNs > 0 {
        var elapsedUs := ElapsedUs(execStartNs, now);
        if elapsedUs >= remainingUs { remainingUs := 0; } else { remainingUs := remainingUs - elapsedUs; }
        execStartNs := 0;
        if remainingUs == 0 {
          if periodUs > 0 {
            var periodNs := periodUs * 1000;
            if replenishAtNs == 0 {
              replenishAtNs := now + periodNs;
            } else if now >= replenishAtNs {
              var elapsed := now - replenishAtNs;
              var periods := elapsed / periodNs + 1;
              replenishAtNs := replenishAtNs + periods * periodNs;
            }
          }
          exceeded := true;
        }
      }
    }
  }
}
