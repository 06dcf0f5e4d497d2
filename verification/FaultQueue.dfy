/** The fault client of the orchestrator: notify, retry queue, drop of the oldest. */
module FaultQueue {

  const MAX_RETRY_QUEUE: nat := 1024

  datatype Fault = Fault(workload: string, node: string, task: string, kind: int, cumulativeDmiss: nat)

  /** Where the faults handed to the client have gone. */
  datatype Log<T> = Log(queue: seq<T>, delivered: seq<T>, dropped: seq<T>)

  /** One notification: the first `flushed` queued faults go out, then the new one goes out or is queued. */
  function Notify<T>(s: Log<T>, f: T, flushed: nat, sent: bool): Log<T>
    requires flushed <= |s.queue|
  {
    var left, out := s.queue[flushed..], s.delivered + s.queue[..flushed];
    if sent then Log(left, out + [f], s.dropped)
    else if |left| >= MAX_RETRY_QUEUE then Log(left[1..] + [f], out, s.dropped + [left[0]])
    else Log(left + [f], out, s.dropped)
  }

  function Everything<T>(s: Log<T>): multiset<T> {
    multiset(s.delivered) + multiset(s.queue) + multiset(s.dropped)
  }

  lemma NotifyConserves<T>(s: Log<T>, f: T, flushed: nat, sent: bool)
    requires flushed <= |s.queue| <= MAX_RETRY_QUEUE
    ensures Everything(Notify(s, f, flushed, sent)) == Everything(s) + multiset{f}
    ensures |Notify(s, f, flushed, sent).queue| <= MAX_RETRY_QUEUE
  {
    var left := s.queue[flushed..];
    assert s.queue == s.queue[..flushed] + left;
    if left != [] {
      assert left == [left[0]] + left[1..];
    }
  }

  class FaultClient {
    var initialized: bool
    var queue: seq<Fault>
    /** Faults accepted by the peer and faults thrown away, in order. */
    ghost var delivered: seq<Fault>
    ghost var dropped: seq<Fault>

    ghost predicate Valid()
      reads this
    {
      |queue| <= MAX_RETRY_QUEUE
    }

    ghost function State(): Log<Fault>
      reads this
    {
      Log(queue, delivered, dropped)
    }

    constructor ()
      ensures Valid() && !initialized && State() == Log([], [], [])
    {
      initialized, queue, delivered, dropped := false, [], [], [];
    }

    /** `channel` is whether the gRPC channel can be created. */
    method Initialize(address: string, channel: bool) returns (r: bool)
      modifies this`initialized
      ensures r == initialized == (old(initialized) || (address != "" && channel))
    {
      if !initialized && address != "" && channel {
        initialized := true;
      }
      r := initialized;
    }

    /** Sends from the front until the queue is empty or a send fails; `rpc(k)` is the outcome of the k-th send. */
    method Flush(rpc: nat -> bool) returns (r: bool, flushed: nat)
      requires Valid()
      modifies this`queue, this`delivered
      ensures flushed <= |old(queue)| && (forall k :: 0 <= k < flushed ==> rpc(k))
      ensures r == (flushed == |old(queue)|) && (!r ==> !rpc(flushed))
      ensures queue == old(queue)[flushed..] && delivered == old(delivered) + old(queue)[..flushed]
    {
      flushed := 0;
      while queue != []
        invariant flushed <= |old(queue)| && (forall k :: 0 <= k < flushed ==> rpc(k))
        invariant queue == old(queue)[flushed..] && delivered == old(delivered) + old(queue)[..flushed]
        decreases |queue|
      {
        if !rpc(flushed) {
          return false, flushed;
        }
        delivered := delivered + [queue[0]];
        queue := queue[1..];
        flushed := flushed + 1;
      }
      r := true;
    }

    method Enqueue(f: Fault)
      requires Valid()
      modifies this`queue, this`dropped
      ensures Valid()
      ensures State() == Notify(old(State()), f, 0, false)
    {
      if |queue| >= MAX_RETRY_QUEUE {
        dropped := dropped + [queue[0]];
        queue := queue[1..];
      }
      queue := queue + [f];
    }

    /** Flush, then send the new fault whatever the flush gave; true exactly when the new fault itself went out. */
    method NotifyFault(f: Fault, rpc: nat -> bool) returns (r: bool, flushed: nat)
      requires Valid()
      modifies this
      ensures Valid() && initialized == old(initialized)
      ensures !initialized ==> !r && State() == old(State())
      ensures initialized ==>
                && flushed <= |old(queue)| && (forall k :: 0 <= k < flushed ==> rpc(k))
                && (flushed < |old(queue)| ==> !rpc(flushed))
                && r == rpc(if flushed < |old(queue)| then flushed + 1 else flushed)
                && State() == Notify(old(State()), f, flushed, r)
                && Everything(State()) == Everything(old(State())) + multiset{f}
    {
      if !initialized {
        return false, 0;
      }
      ghost var before := State();
      var emptied;
      emptied, flushed := Flush(rpc);
      r := rpc(if emptied then flushed else flushed + 1);
      if r {
        delivered := delivered + [f];
      } else {
        Enqueue(f);
      }
      assert before.queue[flushed..][0..] == before.queue[flushed..];
      NotifyConserves(before, f, flushed, r);
    }
  }

  // ---- every run: faults numbered by arrival ----

  /** The outcome of one call: how many sends of the flush can succeed, and whether the fault's own send does. */
  datatype Call = Call(flushable: nat, sent: bool)

  function Flushed(s: Log<nat>, c: Call): nat {
    if c.flushable < |s.queue| then c.flushable else |s.queue|
  }

  function Run(calls: seq<Call>): Log<nat> {
    if calls == [] then Log([], [], [])
    else
      var s, c := Run(calls[..|calls| - 1]), calls[|calls| - 1];
      Notify(s, |calls| - 1, Flushed(s, c), c.sent)
  }

  ghost predicate Ascending(s: seq<nat>) {
    forall i, j :: 0 <= i < j < |s| ==> s[i] < s[j]
  }

  ghost predicate Below(s: seq<nat>, n: nat) {
    forall i :: 0 <= i < |s| ==> s[i] < n
  }

  function Arrivals(n: nat): multiset<nat> {
    if n == 0 then multiset{} else Arrivals(n - 1) + multiset{n - 1}
  }

  lemma {:induction false} ArrivalsOnce(n: nat, i: nat)
    ensures Arrivals(n)[i] == if i < n then 1 else 0
  {
    if n > 0 {
      ArrivalsOnce(n - 1, i);
    }
  }

  lemma {:induction false} RunConserves(calls: seq<Call>)
    ensures Everything(Run(calls)) == Arrivals(|calls|)
    ensures |Run(calls).queue| <= MAX_RETRY_QUEUE
  {
    if calls != [] {
      var before, c := calls[..|calls| - 1], calls[|calls| - 1];
      RunConserves(before);
      NotifyConserves(Run(before), |before|, Flushed(Run(before), c), c.sent);
    }
  }

  /** In every run each notified fault is in exactly one place, exactly once, and the queue keeps its bound. */
  lemma EveryFaultInOnePlace(calls: seq<Call>, i: nat)
    requires i < |calls|
    ensures var s := Run(calls);
            multiset(s.delivered)[i] + multiset(s.queue)[i] + multiset(s.dropped)[i] == 1
            && |s.queue| <= MAX_RETRY_QUEUE
  {
    RunConserves(calls);
    ArrivalsOnce(|calls|, i);
    var s := Run(calls);
    assert Everything(s)[i] == 1;
  }

  lemma CutKeepsAscending(a: seq<nat>, from: nat, to: nat, n: nat)
    requires from <= to <= |a| && Ascending(a) && Below(a, n)
    ensures Ascending(a[..from] + a[to..]) && Below(a[..from] + a[to..], n)
    ensures Ascending(a[..from] + a[to..] + [n]) && Below(a[..from] + a[to..] + [n], n + 1)
  {
  }

  /** What a notification does to the dropped-then-queued order. */
  lemma NotifyKeepsAge(s: Log<nat>, n: nat, flushed: nat, sent: bool)
    requires flushed <= |s.queue| && Ascending(s.dropped + s.queue) && Below(s.dropped + s.queue, n)
    ensures var t := Notify(s, n, flushed, sent); Ascending(t.dropped + t.queue) && Below(t.dropped + t.queue, n + 1)
  {
    var t, a, d := Notify(s, n, flushed, sent), s.dropped + s.queue, |s.dropped|;
    CutKeepsAscending(a, d, d + flushed, n);
    assert s.queue[flushed..] == a[d + flushed..] && s.dropped == a[..d];
    assert t.dropped + t.queue == a[..d] + a[d + flushed..] + if sent then [] else [n];
  }

  /** In every run the queue is in arrival order, and whatever was dropped is older than all of it. */
  lemma {:induction false} OldestDroppedFirst(calls: seq<Call>)
    ensures Ascending(Run(calls).dropped + Run(calls).queue) && Below(Run(calls).dropped + Run(calls).queue, |calls|)
  {
    if calls != [] {
      var before, c := calls[..|calls| - 1], calls[|calls| - 1];
      OldestDroppedFirst(before);
      NotifyKeepsAge(Run(before), |before|, Flushed(Run(before), c), c.sent);
    }
  }

  /** Everything delivered is in arrival order and older than everything still queued. */
  ghost predicate InOrder(s: Log<nat>) {
    Ascending(s.delivered + s.queue)
  }

  /** The new fault goes out although an older one is still queued. */
  predicate Overtakes(s: Log<nat>, c: Call) {
    c.sent && c.flushable < |s.queue|
  }

  lemma InsertBreaksAscending(a: seq<nat>, at: nat, n: nat)
    requires at < |a| && Below(a, n)
    ensures !Ascending(a[..at] + [n] + a[at..]) && Below(a[..at] + [n] + a[at..], n + 1)
  {
    var b := a[..at] + [n] + a[at..];
    assert b[at] == n && b[at + 1] == a[at];
  }

  /** Delivered then queued, after a notification: the new fault cuts in, pushes the oldest left out, or goes last. */
  lemma NotifyShape(s: Log<nat>, n: nat, k: nat, sent: bool, a: seq<nat>, m: nat)
    requires k <= |s.queue| && a == s.delivered + s.queue && m == |s.delivered| + k
    ensures var t := Notify(s, n, k, sent);
            t.delivered + t.queue == if sent then a[..m] + [n] + a[m..]
                                     else if |s.queue| - k >= MAX_RETRY_QUEUE then a[..m] + a[m + 1..] + [n]
                                     else a[..m] + a[m..] + [n]
  {
    assert s.delivered + s.queue[..k] == a[..m];
    assert s.queue[k..] == a[m..];
    if !sent && |s.queue| - k >= MAX_RETRY_QUEUE {
      assert s.queue[k..][1..] == a[m + 1..];
    }
  }

  /** A call keeps the delivery order exactly when its fault does not overtake the queue. */
  lemma InOrderKeptIff(s: Log<nat>, n: nat, c: Call)
    requires InOrder(s) && Below(s.delivered + s.queue, n)
    ensures InOrder(Notify(s, n, Flushed(s, c), c.sent)) <==> !Overtakes(s, c)
    ensures Below(Notify(s, n, Flushed(s, c), c.sent).delivered + Notify(s, n, Flushed(s, c), c.sent).queue, n + 1)
  {
    var k := Flushed(s, c);
    var a := s.delivered + s.queue;
    var m := |s.delivered| + k;
    NotifyShape(s, n, k, c.sent, a, m);
    if Overtakes(s, c) {
      InsertBreaksAscending(a, m, n);
    } else if c.sent {
      CutKeepsAscending(a, m, m, n);
      assert a[m..] == [] && a[..m] + [n] + [] == a[..m] + [] + [n];
    } else {
      CutKeepsAscending(a, m, if |s.queue| - k >= MAX_RETRY_QUEUE then m + 1 else m, n);
    }
  }

  predicate NoOvertaking(calls: seq<Call>) {
    forall i :: 0 <= i < |calls| ==> !Overtakes(Run(calls[..i]), calls[i])
  }

  /** A run in which no fault overtakes the queue delivers in arrival order. */
  lemma {:induction false} DeliveredInOrder(calls: seq<Call>)
    requires NoOvertaking(calls)
    ensures InOrder(Run(calls)) && Below(Run(calls).delivered + Run(calls).queue, |calls|)
  {
    if calls != [] {
      var n := |calls| - 1;
      var before := calls[..n];
      assert forall i :: 0 <= i < n ==> before[..i] == calls[..i];
      DeliveredInOrder(before);
      assert !Overtakes(Run(calls[..n]), calls[n]);
      InOrderKeptIff(Run(before), n, calls[n]);
    }
  }

  /** A failed send, then a failed flush before a send that succeeds: the older fault is delivered second. */
  lemma OvertakingHappens()
    ensures exists calls :: |calls| == 3 && Run(calls).delivered == [1, 0, 2]
  {
    var calls := [Call(0, false), Call(0, true), Call(1, true)];
    assert calls[..2][..1] == calls[..1] && calls[..1][..0] == [];
    assert Run(calls[..1]).queue == [0];
    assert Run(calls[..2]).queue == [0] && Run(calls[..2]).delivered == [1];
  }
}
