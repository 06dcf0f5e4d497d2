/** The orchestrator's replay loop: pushing schedule tables to connected nodes, with retry back-off. */
module ReplayLoop {
  import opened WorkloadStore
  import opened Planner

  const RETRY_BASE_MS: nat := 500
  const RETRY_MAX_MS: nat := 8000
  const MAX_SHIFT: nat := 4

  /** A schedule table with its epoch; every table has the id "table_v1". */
  type Table = Stamped<ScheduleTable>

  type NodeTables = Tables<ScheduleTable>

  /** Equal apart from the epoch. */
  predicate SameTable(a: Table, b: Table) {
    a.content == b.content
  }

  function EmptyTable(node: string, epochNs: nat): Table {
    Stamped(ScheduleTable(node, 10000, []), epochNs)
  }

  /** The node's table, or the synthesized empty one. */
  function Wanted(tables: NodeTables, node: string, epochNs: nat): Table {
    if node in tables then tables[node] else EmptyTable(node, epochNs)
  }

  /** No node's wanted table differs by more than its epoch. */
  ghost predicate Agree(a: NodeTables, b: NodeTables) {
    forall n :: SameTable(Wanted(a, n, 0), Wanted(b, n, 0))
  }

  function Pow2(n: nat): nat {
    if n == 0 then 1 else 2 * Pow2(n - 1)
  }

  function Min(a: nat, b: nat): nat {
    if a < b then a else b
  }

  /** Delay before retrying after the f-th failure in a row. */
  function Backoff(f: nat): (ms: nat)
    requires f >= 1
    ensures RETRY_BASE_MS <= ms <= RETRY_MAX_MS
  {
    var shift := Min(f - 1, MAX_SHIFT);
    assert shift in {0, 1, 2, 3, 4};
    var delay := RETRY_BASE_MS * Pow2(shift);
    if delay > RETRY_MAX_MS then RETRY_MAX_MS else delay
  }

  /** The cap never bites: delays double from 500 ms and stay at 8 s from the fifth failure on. */
  lemma BackoffDoubles(f: nat)
    requires f >= 1
    ensures Backoff(f) == RETRY_BASE_MS * Pow2(Min(f - 1, MAX_SHIFT))
    ensures f < 5 ==> Backoff(f + 1) == 2 * Backoff(f)
    ensures f >= 5 ==> Backoff(f) == RETRY_MAX_MS
  {
    assert Pow2(0) == 1 && Pow2(1) == 2 && Pow2(2) == 4 && Pow2(3) == 8 && Pow2(4) == 16;
  }

  type Counts = map<string, nat>

  /** The variables the loop carries, the tables it saw last and the time of its last pass. */
  datatype Loop = Loop(
    pending: bool, known: set<string>, synced: set<string>, failures: Counts, nextRetry: Counts,
    lastPushed: NodeTables, tables: NodeTables, clock: nat)

  const INITIAL: Loop := Loop(false, {}, {}, map[], map[], map[], map[], 0)

  /** What was last pushed to the node is not its current table. */
  predicate Differs(l: Loop, n: string) {
    !(n in l.lastPushed && SameTable(l.lastPushed[n], Wanted(l.tables, n, 0)))
  }

  /** Nodes taken for synced that do not hold their current table. */
  ghost function Stale(l: Loop): set<string> {
    set n | n in l.synced && Differs(l, n)
  }

  /** Only unsynced nodes with at least one failure wait, and for at most eight seconds. */
  ghost predicate RetriesOk(l: Loop) {
    && l.failures.Keys == l.nextRetry.Keys
    && (forall n :: n in l.failures ==> l.failures[n] >= 1 && n !in l.synced)
    && (forall n :: n in l.nextRetry ==> l.nextRetry[n] <= l.clock + RETRY_MAX_MS)
  }

  /** Synced nodes are connected and were pushed to. */
  ghost predicate MarksOk(l: Loop) {
    l.synced <= l.known && l.synced <= l.lastPushed.Keys && RetriesOk(l)
  }

  /** A completed replay leaves no connected node unsynced. */
  ghost predicate Valid(l: Loop) {
    MarksOk(l) && (!l.pending ==> l.known <= l.synced)
  }

  // ---- connections ----

  /** `l` and `l0` agree on everything recorded for the node. */
  ghost predicate Untouched(l0: Loop, l: Loop, n: string) {
    && (n in l.synced <==> n in l0.synced)
    && (n in l.nextRetry <==> n in l0.nextRetry) && (n in l.nextRetry ==> l.nextRetry[n] == l0.nextRetry[n])
    && (n in l.failures <==> n in l0.failures) && (n in l.failures ==> l.failures[n] == l0.failures[n])
    && (n in l.lastPushed <==> n in l0.lastPushed) && (n in l.lastPushed ==> l.lastPushed[n] == l0.lastPushed[n])
  }

  /** Nothing is recorded for the node. */
  ghost predicate Forgotten(l: Loop, n: string) {
    n !in l.synced && n !in l.failures && n !in l.nextRetry && n !in l.lastPushed
  }

  /** Nodes that went away or are new lose all marks; new ones queue a replay. */
  function Observe(l: Loop, connected: set<string>): Loop {
    var reset := (l.known - connected) + (connected - l.known);
    l.(pending := l.pending || connected - l.known != {}, known := connected, synced := l.synced - reset,
       failures := l.failures - reset, nextRetry := l.nextRetry - reset, lastPushed := l.lastPushed - reset)
  }

  lemma ObserveValid(l: Loop, connected: set<string>)
    requires Valid(l)
    ensures Valid(Observe(l, connected)) && Observe(l, connected).synced == l.synced * connected
    ensures forall n :: n in l.synced * connected ==> Observe(l, connected).lastPushed[n] == l.lastPushed[n]
  {
  }

  /** Nodes that came or went are forgotten, the others untouched; a replay is queued exactly if one came. */
  lemma ObserveMarks(l: Loop, connected: set<string>, r: Loop)
    requires r == Observe(l, connected)
    ensures forall n :: if n in l.known <==> n in connected then Untouched(l, r, n) else Forgotten(r, n)
    ensures r.known == connected && r.tables == l.tables && r.clock == l.clock
    ensures r.pending <==> l.pending || exists n :: n in connected && n !in l.known
  {
    if n :| n in connected && n !in l.known { assert n in connected - l.known; }
  }

  // ---- changed tables ----

  function Unsync(l: Loop, ns: set<string>): Loop {
    l.(synced := l.synced - ns, failures := l.failures - ns, nextRetry := l.nextRetry - ns)
  }

  lemma UnsyncTwice(l: Loop, ns: set<string>, n: string)
    ensures Unsync(Unsync(l, ns), {n}) == Unsync(l, ns + {n})
  {
    var a, b := Unsync(Unsync(l, ns), {n}), Unsync(l, ns + {n});
    assert a.synced == b.synced;
    assert a.failures == b.failures;
    assert a.nextRetry == b.nextRetry;
  }

  /** Connected nodes whose table differs from what was last pushed to them. */
  function Outdated(l: Loop): set<string> {
    set n | n in l.known && Differs(l, n)
  }

  /** Reference: what a raised flag does to the marks, given the tables read with it. */
  function Changed(l: Loop, current: NodeTables): Loop {
    var seen := l.(tables := current);
    if current == map[] then
      seen.(pending := true, synced := {}, failures := map[], nextRetry := map[], lastPushed := map[])
    else
      Unsync(seen, Outdated(seen)).(pending := l.pending || Outdated(seen) != {})
  }

  /** A raised flag unsyncs exactly the nodes whose table really changed. */
  lemma ChangedValid(l0: Loop, current: NodeTables)
    requires Valid(l0)
    ensures var l := Changed(l0, current);
            && Valid(l) && Stale(l) == {}
            && (current == map[] ==> l.pending && l.synced == {})
            && (current != map[] ==>
                  && l.pending == (l0.pending || exists n :: n in l0.known && Differs(l0.(tables := current), n))
                  && l.synced == set n | n in l0.synced && !Differs(l0.(tables := current), n))
            && (forall n :: n in l.nextRetry ==> n in l0.nextRetry && l.nextRetry[n] == l0.nextRetry[n])
  {
    var seen := l0.(tables := current);
    if n :| n in l0.known && Differs(seen, n) {
      assert n in Outdated(seen);
    }
  }

  /** An outdated node is due at once and keeps only what was last pushed; the others are untouched. */
  lemma ChangedMarks(l0: Loop, current: NodeTables, l: Loop, n: string)
    requires l == Changed(l0, current)
    ensures current == map[] ==> Forgotten(l, n)
    ensures current != map[] && n in l0.known && Differs(l0.(tables := current), n) ==>
              n !in l.synced && n !in l.failures && n !in l.nextRetry && l.lastPushed == l0.lastPushed
    ensures current != map[] && !(n in l0.known && Differs(l0.(tables := current), n)) ==> Untouched(l0, l, n)
  {
  }

  method ApplyChange(l0: Loop, current: NodeTables) returns (l: Loop)
    ensures l == Changed(l0, current)
  {
    l := l0.(tables := current);
    if current == map[] {
      return l.(pending := true, synced := {}, failures := map[], nextRetry := map[], lastPushed := map[]);
    }
    ghost var start, gone: set<string> := l, {};
    UnsyncNone(l);
    var todo, count := l.known, 0;
    while todo != {}
      invariant todo <= start.known && l == Unsync(start, gone)
      invariant gone !! todo && gone <= start.known && (count > 0 <==> gone != {})
      invariant forall n :: n in start.known && n !in todo ==> (n in gone <==> Differs(start, n))
      decreases |todo|
    {
      var n :| n in todo;
      todo := todo - {n};
      if Differs(l, n) {
        UnsyncTwice(start, gone, n);
        gone := gone + {n};
        l := Unsync(l, {n});
        count := count + 1;
      }
    }
    assert gone == Outdated(start);
    if count > 0 { l := l.(pending := true); }
  }

  lemma UnsyncNone(l: Loop)
    ensures Unsync(l, {}) == l
  {
    assert l.failures - {} == l.failures && l.nextRetry - {} == l.nextRetry && l.synced - {} == l.synced;
  }

  // ---- pushing ----

  function FailureCount(l: Loop, n: string): nat {
    if n in l.failures then l.failures[n] else 0
  }

  /** Unsynced and not waiting for a later retry. */
  predicate Due(l: Loop, n: string, now: nat) {
    n !in l.synced && (n in l.nextRetry ==> l.nextRetry[n] <= now)
  }

  function Succeeded(l: Loop, n: string, epochNs: nat): Loop {
    l.(synced := l.synced + {n}, failures := l.failures - {n}, nextRetry := l.nextRetry - {n},
       lastPushed := l.lastPushed[n := Wanted(l.tables, n, epochNs)])
  }

  function Failed(l: Loop, n: string): Loop {
    var f := FailureCount(l, n) + 1;
    l.(synced := l.synced - {n}, failures := l.failures[n := f], nextRetry := l.nextRetry[n := l.clock + Backoff(f)])
  }

  function Attempt(l: Loop, n: string, accepted: bool, epochNs: nat): Loop {
    if accepted then Succeeded(l, n, epochNs) else Failed(l, n)
  }

  lemma AttemptOk(l: Loop, n: string, accepted: bool, epochNs: nat)
    requires MarksOk(l) && n in l.known && n !in l.synced
    ensures MarksOk(Attempt(l, n, accepted, epochNs)) && Stale(Attempt(l, n, accepted, epochNs)) == Stale(l)
  {
    var r := Attempt(l, n, accepted, epochNs);
    forall m | m in l.synced ensures m in r.synced && (Differs(r, m) <==> Differs(l, m)) {
    }
  }

  /** Each due node was attempted once; what happened to it depends only on its own state before. */
  ghost predicate Pushed(l0: Loop, l: Loop, n: string, accepts: set<string>, epochNs: nat) {
    if !Due(l0, n, l0.clock) then Untouched(l0, l, n)
    else if n in accepts then
      && n in l.synced && n !in l.failures && n !in l.nextRetry
      && n in l.lastPushed && l.lastPushed[n] == Wanted(l0.tables, n, epochNs)
    else
      && n !in l.synced && n in l.failures && l.failures[n] == FailureCount(l0, n) + 1
      && n in l.nextRetry && l.nextRetry[n] == l0.clock + Backoff(FailureCount(l0, n) + 1)
      && (n in l.lastPushed <==> n in l0.lastPushed) && (n in l.lastPushed ==> l.lastPushed[n] == l0.lastPushed[n])
  }

  lemma AttemptFrame(l: Loop, n: string, accepted: bool, epochNs: nat, m: string)
    requires m != n
    ensures Untouched(l, Attempt(l, n, accepted, epochNs), m)
  {
  }

  lemma UntouchedTwice(l0: Loop, l: Loop, l': Loop, m: string, accepts: set<string>, epochNs: nat)
    requires Untouched(l, l', m)
    ensures Untouched(l0, l, m) ==> Untouched(l0, l', m)
    ensures Pushed(l0, l, m, accepts, epochNs) ==> Pushed(l0, l', m, accepts, epochNs)
  {
  }

  lemma AttemptPushed(l0: Loop, l: Loop, n: string, accepts: set<string>, epochNs: nat)
    requires Untouched(l0, l, n) && Due(l0, n, l0.clock) && l.tables == l0.tables && l.clock == l0.clock
    ensures Pushed(l0, Attempt(l, n, n in accepts, epochNs), n, accepts, epochNs)
  {
  }

  method PushAll(l0: Loop, accepts: set<string>, epochNs: nat) returns (l: Loop, allPushOk: bool)
    requires MarksOk(l0)
    ensures MarksOk(l) && Stale(l) == Stale(l0)
    ensures l.pending == l0.pending && l.known == l0.known && l.tables == l0.tables && l.clock == l0.clock
    ensures forall n :: n in l0.known ==> Pushed(l0, l, n, accepts, epochNs)
    ensures allPushOk <==> forall n :: n in l0.known && Due(l0, n, l0.clock) ==> n in accepts
  {
    l, allPushOk := l0, true;
    var todo := l0.known;
    while todo != {}
      invariant todo <= l0.known && MarksOk(l) && Stale(l) == Stale(l0)
      invariant l.pending == l0.pending && l.known == l0.known && l.tables == l0.tables && l.clock == l0.clock
      invariant forall n :: n in todo ==> Untouched(l0, l, n)
      invariant forall n :: n in l0.known - todo ==> Pushed(l0, l, n, accepts, epochNs)
      invariant allPushOk <==> forall n :: n in l0.known - todo && Due(l0, n, l0.clock) ==> n in accepts
      decreases |todo|
    {
      var n :| n in todo;
      assert Untouched(l0, l, n);
      todo := todo - {n};
      if n in l.synced { continue; }
      if n in l.nextRetry && l.clock < l.nextRetry[n] { continue; }
      var ok := n in accepts;
      assert Due(l0, n, l0.clock);
      AttemptOk(l, n, ok, epochNs);
      AttemptPushed(l0, l, n, accepts, epochNs);
      forall m | m != n
        ensures Untouched(l0, l, m) ==> Untouched(l0, Attempt(l, n, ok, epochNs), m)
        ensures Pushed(l0, l, m, accepts, epochNs) ==> Pushed(l0, Attempt(l, n, ok, epochNs), m, accepts, epochNs)
      {
        AttemptFrame(l, n, ok, epochNs, m);
        UntouchedTwice(l0, l, Attempt(l, n, ok, epochNs), m, accepts, epochNs);
      }
      l := Attempt(l, n, ok, epochNs);
      if !ok { allPushOk := false; }
    }
  }

  // ---- one pass ----

  /** What one pass observes. */
  datatype Pass =
    Pass(current: NodeTables, changed: bool, connected: set<string>, accepts: set<string>, now: nat, epochNs: nat)

  /** Marks that survive a pass without the flag, seen against the tables it read. */
  ghost function StaleAfter(l0: Loop, p: Pass): set<string> {
    if p.changed then {} else set n | n in l0.synced && n in p.connected && Differs(l0.(tables := p.current), n)
  }

  /** The loop's variables when a pass comes to pushing. */
  function Ready(l0: Loop, p: Pass): Loop {
    var l := Observe(l0, p.connected);
    (if p.changed then Changed(l, p.current) else l.(tables := p.current)).(clock := p.now)
  }

  predicate Pushes(l: Loop, p: Pass) {
    l.pending && p.current != map[] && p.connected != {}
  }

  /** If a replay is pending with tables and nodes present every due node is attempted once; nothing else happens. */
  ghost predicate Delivered(ready: Loop, l: Loop, p: Pass) {
    if Pushes(ready, p) then forall n :: n in p.connected ==> Pushed(ready, l, n, p.accepts, p.epochNs) else l == ready
  }

  /**
   * What a pass does. Afterwards synced nodes are connected; those that do not hold their
   * current table are exactly the still connected ones whose table was replaced without
   * the flag; with tables and nodes present a replay stays pending exactly while some
   * connected node is unsynced; and each node was attempted as its own marks say.
   */
  ghost predicate Passed(l0: Loop, l: Loop, p: Pass) {
    && Valid(l) && l.tables == p.current && l.known == p.connected && l.clock == p.now
    && Stale(l) == StaleAfter(l0, p)
    && (p.current != map[] && p.connected != {} ==> (l.pending <==> !(p.connected <= l.synced)))
    && Delivered(Ready(l0, p), l, p)
  }

  method Iterate(l0: Loop, p: Pass) returns (l: Loop)
    requires Valid(l0) && p.now >= l0.clock
    ensures Passed(l0, l, p)
  {
    ReadyValid(l0, p);
    l := Observe(l0, p.connected);
    if p.changed {
      l := ApplyChange(l, p.current);
    } else {
      l := l.(tables := p.current);
    }
    l := l.(clock := p.now);
    if l.pending && p.current != map[] && p.connected != {} {
      var before, allPushOk := l, true;
      l, allPushOk := PushAll(before, p.accepts, p.epochNs);
      if allPushOk && p.connected <= l.synced {
        StaleFrame(l, l.(pending := false));
        PushedFrame(before, l, p);
        l := l.(pending := false);
      }
    }
  }

  lemma ReadyValid(l0: Loop, p: Pass)
    requires Valid(l0) && p.now >= l0.clock
    ensures Valid(Ready(l0, p)) && Stale(Ready(l0, p)) == StaleAfter(l0, p)
    ensures forall n :: n in Ready(l0, p).nextRetry ==>
              n in l0.nextRetry && Ready(l0, p).nextRetry[n] == l0.nextRetry[n]
  {
    var l := Observe(l0, p.connected);
    ObserveValid(l0, p.connected);
    if p.changed {
      ChangedValid(l, p.current);
      StaleFrame(Changed(l, p.current), Ready(l0, p));
    } else {
      StaleObserved(l0, p, l.(tables := p.current));
      StaleFrame(l.(tables := p.current), Ready(l0, p));
    }
  }

  lemma PushedFrame(ready: Loop, l: Loop, p: Pass)
    requires forall n :: n in p.connected ==> Pushed(ready, l, n, p.accepts, p.epochNs)
    ensures forall n :: n in p.connected ==> Pushed(ready, l.(pending := false), n, p.accepts, p.epochNs)
  {
    forall n | n in p.connected ensures Pushed(ready, l.(pending := false), n, p.accepts, p.epochNs) {
      assert Pushed(ready, l, n, p.accepts, p.epochNs);
    }
  }

  /** Nodes that accept are synced once their retry time has come. */
  lemma AcceptingAreSynced(l0: Loop, l: Loop, p: Pass)
    requires Valid(l0) && p.now >= l0.clock && Passed(l0, l, p) && p.current != map[] && p.connected <= p.accepts
    requires forall n :: n in l0.nextRetry ==> l0.nextRetry[n] <= p.now
    ensures p.connected <= l.synced
  {
    ReadyValid(l0, p);
    if Pushes(Ready(l0, p), p) {
      forall n | n in p.connected ensures n in l.synced {
        assert Pushed(Ready(l0, p), l, n, p.accepts, p.epochNs);
      }
    }
  }

  lemma StaleFrame(a: Loop, b: Loop)
    requires a.synced == b.synced && a.lastPushed == b.lastPushed && a.tables == b.tables
    ensures Stale(a) == Stale(b)
  {
    assert forall n :: Differs(a, n) <==> Differs(b, n);
  }

  lemma StaleObserved(l0: Loop, p: Pass, l: Loop)
    requires Valid(l0) && !p.changed && l == Observe(l0, p.connected).(tables := p.current)
    ensures Valid(l) && Stale(l) == StaleAfter(l0, p)
  {
    ObserveValid(l0, p.connected);
    forall n | n in l.synced ensures Differs(l, n) <==> Differs(l0.(tables := p.current), n) {
      assert n in l0.synced * p.connected;
    }
  }

  // ---- every run ----

  function TablesBefore(passes: seq<Pass>, i: nat): NodeTables
    requires i <= |passes|
  {
    if i == 0 then map[] else passes[i - 1].current
  }

  function LoopBefore(history: seq<Loop>, i: nat): Loop
    requires i <= |history|
  {
    if i == 0 then INITIAL else history[i - 1]
  }

  predicate TimeGoesOn(passes: seq<Pass>) {
    forall i, j :: 0 <= i < j < |passes| ==> passes[i].now <= passes[j].now
  }

  /** The first `k` passes made the history. */
  ghost predicate PassedUpTo(passes: seq<Pass>, history: seq<Loop>, k: nat)
    requires k <= |passes| && k <= |history|
  {
    k > 0 ==> PassedUpTo(passes, history, k - 1) && Passed(LoopBefore(history, k - 1), history[k - 1], passes[k - 1])
  }

  ghost predicate AllPassed(passes: seq<Pass>, history: seq<Loop>) {
    |history| == |passes| && PassedUpTo(passes, history, |passes|)
  }

  lemma {:induction false} PassAt(passes: seq<Pass>, history: seq<Loop>, k: nat, i: nat)
    requires k <= |passes| && k <= |history| && PassedUpTo(passes, history, k) && i < k
    ensures Passed(LoopBefore(history, i), history[i], passes[i])
  {
    if i < k - 1 { PassAt(passes, history, k - 1, i); }
  }

  lemma {:induction false} LongerHistory(passes: seq<Pass>, history: seq<Loop>, next: Loop, k: nat)
    requires k <= |passes| && k <= |history| && PassedUpTo(passes, history, k)
    ensures PassedUpTo(passes, history + [next], k)
  {
    if k > 0 {
      LongerHistory(passes, history, next, k - 1);
      assert LoopBefore(history + [next], k - 1) == LoopBefore(history, k - 1);
    }
  }

  /** The endless loop, for any number of passes from its initial variables. */
  method Replay(passes: seq<Pass>) returns (history: seq<Loop>)
    requires TimeGoesOn(passes)
    ensures AllPassed(passes, history)
  {
    var l := INITIAL;
    history := [];
    for i := 0 to |passes|
      invariant Valid(l) && l == LoopBefore(history, |history|) && (i < |passes| ==> l.clock <= passes[i].now)
      invariant |history| == i && PassedUpTo(passes, history, i)
    {
      l := Iterate(l, passes[i]);
      LongerHistory(passes, history, l, i);
      history := history + [l];
    }
  }

  /** No still connected, synced node's table changed by more than its epoch in a pass without the flag. */
  ghost predicate NoSilentChange(passes: seq<Pass>, history: seq<Loop>, i: nat)
    requires i < |passes| == |history|
  {
    passes[i].changed ||
    forall n :: n in LoopBefore(history, i).synced && n in passes[i].connected ==>
      SameTable(Wanted(TablesBefore(passes, i), n, 0), Wanted(passes[i].current, n, 0))
  }

  ghost predicate CurrentAt(history: seq<Loop>, i: nat)
    requires i < |history|
  {
    Stale(history[i]) == {}
  }

  /** One pass after a pass that left nothing stale. */
  lemma CurrentStep(passes: seq<Pass>, history: seq<Loop>, i: nat)
    requires AllPassed(passes, history) && i < |passes|
    requires i > 0 ==> CurrentAt(history, i - 1)
    ensures CurrentAt(history, i) <==> NoSilentChange(passes, history, i)
  {
    var l0, p := LoopBefore(history, i), passes[i];
    PassAt(passes, history, |passes|, i);
    if i > 0 { PassAt(passes, history, |passes|, i - 1); }
    assert l0.tables == TablesBefore(passes, i) && Stale(l0) == {};
    if !p.changed {
      forall n | n in l0.synced && n in p.connected
        ensures n in StaleAfter(l0, p) <==> !SameTable(Wanted(TablesBefore(passes, i), n, 0), Wanted(p.current, n, 0))
      {
        assert n !in Stale(l0);
      }
      if CurrentAt(history, i) {
        assert StaleAfter(l0, p) == {};
      }
    }
  }

  ghost predicate CurrentUpTo(history: seq<Loop>, k: nat)
    requires k <= |history|
  {
    k > 0 ==> CurrentUpTo(history, k - 1) && CurrentAt(history, k - 1)
  }

  ghost predicate QuietUpTo(passes: seq<Pass>, history: seq<Loop>, k: nat)
    requires k <= |passes| == |history|
  {
    k > 0 ==> QuietUpTo(passes, history, k - 1) && NoSilentChange(passes, history, k - 1)
  }

  /**
   * Over any run, synced nodes hold their current table after each of the first k passes
   * if and only if none of those passes met a silent change of a synced node's table.
   */
  lemma {:induction false} AlwaysCurrentIff(passes: seq<Pass>, history: seq<Loop>, k: nat)
    requires AllPassed(passes, history) && k <= |passes|
    ensures CurrentUpTo(history, k) <==> QuietUpTo(passes, history, k)
  {
    if k > 0 {
      AlwaysCurrentIff(passes, history, k - 1);
      if CurrentUpTo(history, k - 1) {
        CurrentStep(passes, history, k - 1);
      }
    }
  }

  /** Tables only change together with the flag. */
  ghost predicate Flagged(passes: seq<Pass>) {
    forall i :: 0 <= i < |passes| && !passes[i].changed ==> Agree(TablesBefore(passes, i), passes[i].current)
  }

  lemma FlaggedIsQuiet(passes: seq<Pass>, history: seq<Loop>, i: nat)
    requires Flagged(passes) && i < |passes| == |history|
    ensures NoSilentChange(passes, history, i)
  {
    assert passes[i].changed || Agree(TablesBefore(passes, i), passes[i].current);
  }

  /** A flagged pass repairs whatever went wrong before. */
  lemma FlaggedPassRepairs(passes: seq<Pass>, history: seq<Loop>, i: nat)
    requires AllPassed(passes, history) && i < |passes| && passes[i].changed
    ensures CurrentAt(history, i)
  {
    PassAt(passes, history, |passes|, i);
  }

  lemma {:induction false} FlaggedQuietUpTo(passes: seq<Pass>, history: seq<Loop>, k: nat)
    requires Flagged(passes) && k <= |passes| == |history|
    ensures QuietUpTo(passes, history, k)
  {
    if k > 0 {
      FlaggedQuietUpTo(passes, history, k - 1);
      FlaggedIsQuiet(passes, history, k - 1);
    }
  }

  /** When tables only change together with the flag, synced nodes are always up to date. */
  lemma FlaggedRunsCurrent(passes: seq<Pass>, history: seq<Loop>)
    requires AllPassed(passes, history) && Flagged(passes)
    ensures CurrentUpTo(history, |passes|)
  {
    FlaggedQuietUpTo(passes, history, |passes|);
    AlwaysCurrentIff(passes, history, |passes|);
  }

  // ---- a node that is left with the wrong table ----

  /** A stale node stays so while it is connected and no flag comes. */
  lemma StaleStep(passes: seq<Pass>, history: seq<Loop>, i: nat, n: string)
    requires AllPassed(passes, history) && 0 < i < |passes| && n in Stale(history[i - 1])
    requires !passes[i].changed && n in passes[i].connected && passes[i].current == passes[i - 1].current
    ensures n in Stale(history[i])
  {
    PassAt(passes, history, |passes|, i);
    PassAt(passes, history, |passes|, i - 1);
    assert n in StaleAfter(history[i - 1], passes[i]);
  }

  lemma {:induction false} StaleStays(passes: seq<Pass>, history: seq<Loop>, i: nat, j: nat, n: string)
    requires AllPassed(passes, history) && i <= j < |passes| && n in Stale(history[i])
    requires forall k :: i < k <= j ==>
               !passes[k].changed && n in passes[k].connected && passes[k].current == passes[i].current
    ensures n in Stale(history[j])
  {
    if i < j {
      StaleStays(passes, history, i, j - 1, n);
      StaleStep(passes, history, j, n);
    }
  }

  /** The first pass that sees a node and its flagged table delivers the table if the node accepts. */
  lemma FirstDelivery(p: Pass, l: Loop, n: string)
    requires Passed(INITIAL, l, p) && p.changed && p.current != map[] && p.connected == {n} && n in p.accepts
    ensures n in l.synced && !l.pending && n in l.lastPushed && l.lastPushed[n] == Wanted(p.current, n, p.epochNs)
  {
    var ready := Ready(INITIAL, p);
    assert n in p.connected - INITIAL.known;
    assert Pushed(ready, l, n, p.accepts, p.epochNs);
  }

  /** If its table is then replaced without the flag, the node is taken for synced and no replay is pending. */
  lemma LeftStale(passes: seq<Pass>, history: seq<Loop>, n: string)
    requires AllPassed(passes, history) && |passes| == 2 && passes[0].changed && !passes[1].changed
    requires passes[0].connected == passes[1].connected == {n} && n in passes[0].accepts && passes[0].current != map[]
    requires !SameTable(Wanted(passes[0].current, n, 0), Wanted(passes[1].current, n, 0))
    ensures Stale(history[1]) == {n} && !history[1].pending
  {
    PassAt(passes, history, 2, 0);
    PassAt(passes, history, 2, 1);
    FirstDelivery(passes[0], history[0], n);
    assert n in StaleAfter(history[0], passes[1]);
  }
}
