/** The SyncTimer barrier: check-in, release, replacement, timeout and the waiting handlers. */
module SyncBarrier {
  import opened Basics

  const NANOS_PER_SEC: nat := 1_000_000_000
  const SYNC_START_OFFSET_NS: nat := 1_000_000_000

  datatype StartTime = StartTime(sec: nat, nsec: nat)

  /** One second from now, split like a timespec. */
  function ComputeStartTime(nowNs: nat): (t: StartTime)
    ensures t.sec * NANOS_PER_SEC + t.nsec == nowNs + SYNC_START_OFFSET_NS && t.nsec < NANOS_PER_SEC
  {
    var start := nowNs + SYNC_START_OFFSET_NS;
    StartTime(start / NANOS_PER_SEC, start % NANOS_PER_SEC)
  }

  datatype Status = Waiting | Released(start: StartTime) | Cancelled | TimedOut

  /** A watch channel: last value and version counter. */
  datatype Channel = Channel(value: Status, version: nat)

  datatype Reply = Ack(start: StartTime) | Aborted | DeadlineExceeded | Dropped

  /** Reading the channel, waiting in select with the version last seen, or finished. */
  datatype Phase = Reading | Sleeping(seen: nat) | Done(reply: Reply)

  datatype Handler = Handler(node: string, workload: nat, phase: Phase)

  /** `calls` and `released` record the accepted check-ins and the broadcast start times. */
  datatype Workload = Workload(
    active: set<string>, synced: set<string>, channel: Channel,
    calls: seq<string>, released: seq<StartTime>)

  /** All workloads ever stored, the last one being current, and all handlers ever started. */
  datatype State = State(workloads: seq<Workload>, handlers: seq<Handler>)

  datatype Event =
    | AddSchedInfo(nodes: set<string>)
    | SyncTimer(node: string, nowNs: nat)
    | Read(h: nat)
    | Wake(h: nat)
    | Timeout(h: nat)
    | Disconnect(h: nat)

  const EMPTY: State := State([], [])

  predicate Live(h: Handler) {
    !h.phase.Done?
  }

  predicate HasReceiver(s: State, w: nat) {
    exists i :: 0 <= i < |s.handlers| && Live(s.handlers[i]) && s.handlers[i].workload == w
  }

  /** Sending on a watch channel without receivers fails and leaves the value as it is. */
  function Send(s: State, w: nat, v: Status): State
    requires w < |s.workloads|
  {
    if HasReceiver(s, w) then
      var wl := s.workloads[w];
      s.(workloads := s.workloads[w := wl.(channel := Channel(v, wl.channel.version + 1))])
    else s
  }

  function NewWorkload(nodes: set<string>): Workload {
    Workload(nodes, {}, Channel(Waiting, 0), [], [])
  }

  /** Replace the workload: cancel the old barrier, store a fresh one. */
  function Replace(s: State, nodes: set<string>): State {
    var s1 := if s.workloads == [] then s else Send(s, |s.workloads| - 1, Cancelled);
    s1.(workloads := s1.workloads + [NewWorkload(nodes)])
  }

  /** Phase 1, under the lock: subscribe, check in, and broadcast if the set is complete. */
  function CheckIn(s: State, node: string, nowNs: nat): State {
    if s.workloads == [] then s
    else
      var w := |s.workloads| - 1;
      var wl := s.workloads[w];
      if node !in wl.active then s
      else
        var wl1 := wl.(synced := wl.synced + {node}, calls := wl.calls + [node]);
        var start := ComputeStartTime(nowNs);
        var complete := wl.active <= wl1.synced;
        var wl2 := if complete then wl1.(released := wl1.released + [start]) else wl1;
        var s1 := State(s.workloads[w := wl2], s.handlers + [Handler(node, w, Reading)]);
        if complete then Send(s1, w, Released(start)) else s1
  }

  function SetPhase(s: State, h: nat, p: Phase): State
    requires h < |s.handlers|
  {
    s.(handlers := s.handlers[h := s.handlers[h].(phase := p)])
  }

  /** The top of the wait loop. */
  function ReadStatus(s: State, h: nat): State {
    if h < |s.handlers| && s.handlers[h].phase.Reading? && s.handlers[h].workload < |s.workloads| then
      var c := s.workloads[s.handlers[h].workload].channel;
      match c.value
      case Released(start) => SetPhase(s, h, Done(Ack(start)))
      case Cancelled => SetPhase(s, h, Done(Aborted))
      case TimedOut => SetPhase(s, h, Done(DeadlineExceeded))
      case Waiting => SetPhase(s, h, Sleeping(c.version))
    else s
  }

  /** changed() completes: a new version, or the sender of a replaced workload is gone. */
  function WakeUp(s: State, h: nat): State {
    if h < |s.handlers| && s.handlers[h].phase.Sleeping? && s.handlers[h].workload < |s.workloads| then
      var w := s.handlers[h].workload;
      if s.workloads[w].channel.version != s.handlers[h].phase.seen then SetPhase(s, h, Reading)
      else if w < |s.workloads| - 1 then SetPhase(s, h, Done(Aborted))
      else s
    else s
  }

  /** The sleep ends first: TimedOut is broadcast on whichever workload is current. */
  function TimeOut(s: State, h: nat): State {
    if h < |s.handlers| && s.handlers[h].phase.Sleeping? then
      var s1 := if s.workloads == [] then s else Send(s, |s.workloads| - 1, TimedOut);
      SetPhase(s1, h, Done(DeadlineExceeded))
    else s
  }

  function Step(s: State, e: Event): State {
    match e
    case AddSchedInfo(nodes) => Replace(s, nodes)
    case SyncTimer(node, nowNs) => CheckIn(s, node, nowNs)
    case Read(h) => ReadStatus(s, h)
    case Wake(h) => WakeUp(s, h)
    case Timeout(h) => TimeOut(s, h)
    case Disconnect(h) => if h < |s.handlers| && Live(s.handlers[h]) then SetPhase(s, h, Done(Dropped)) else s
  }

  function Run(events: seq<Event>): State {
    if events == [] then EMPTY else Step(Run(events[..|events| - 1]), events[|events| - 1])
  }

  // ---- invariants of every run ----

  function Members(calls: seq<string>): set<string> {
    set i | 0 <= i < |calls| :: calls[i]
  }

  /** Number of check-ins that found the set complete. */
  function Completions(active: set<string>, calls: seq<string>): nat {
    if calls == [] then 0
    else Completions(active, calls[..|calls| - 1]) + if active <= Members(calls) then 1 else 0
  }

  /** Check-ins are active nodes, each completing one broadcasts once, and a released value was broadcast. */
  ghost predicate WorkloadOk(wl: Workload) {
    && wl.synced == Members(wl.calls) && wl.synced <= wl.active
    && |wl.released| == Completions(wl.active, wl.calls)
    && (wl.channel.value.Released? ==> wl.channel.value.start in wl.released)
  }

  /** Acks carry a start time of the handler's own workload; a sleeping handler has missed nothing. */
  ghost predicate HandlerOk(s: State, h: Handler) {
    && h.workload < |s.workloads|
    && var wl := s.workloads[h.workload];
    && (h.phase.Done? && h.phase.reply.Ack? ==> h.phase.reply.start in wl.released)
    && (h.phase.Done? && h.phase.reply.Aborted? ==> h.workload < |s.workloads| - 1)
    && (h.phase.Sleeping? ==> h.phase.seen <= wl.channel.version)
    && (h.phase.Sleeping? && h.phase.seen == wl.channel.version ==> wl.channel.value.Waiting?)
    && (Live(h) && h.workload < |s.workloads| - 1 ==> !wl.channel.value.Waiting?)
  }

  ghost predicate Inv(s: State) {
    && (forall w :: 0 <= w < |s.workloads| ==> WorkloadOk(s.workloads[w]))
    && (s.workloads != [] ==> !s.workloads[|s.workloads| - 1].channel.value.Cancelled?)
    && (forall i :: 0 <= i < |s.handlers| ==> HandlerOk(s, s.handlers[i]))
  }

  lemma MembersAppend(calls: seq<string>, node: string)
    ensures Members(calls + [node]) == Members(calls) + {node}
  {
    var all := calls + [node];
    assert all[|calls|] == node;
    forall x | x in Members(calls) ensures x in Members(all) {
      var i :| 0 <= i < |calls| && calls[i] == x;
      assert all[i] == x;
    }
  }

  /** A send keeps the invariant: values other than Waiting, and released values only if broadcast. */
  lemma SendInv(s: State, w: nat, v: Status)
    requires Inv(s) && w < |s.workloads| && !v.Waiting?
    requires v.Released? ==> v.start in s.workloads[w].released
    requires !v.Cancelled?
    ensures Inv(Send(s, w, v))
  {
    var r := Send(s, w, v);
    forall i | 0 <= i < |r.handlers| ensures HandlerOk(r, r.handlers[i]) {
      assert HandlerOk(s, s.handlers[i]);
    }
  }

  lemma ReplaceInv(s: State, nodes: set<string>)
    requires Inv(s)
    ensures Inv(Replace(s, nodes))
  {
    var s1 := if s.workloads == [] then s else Send(s, |s.workloads| - 1, Cancelled);
    var r := Replace(s, nodes);
    assert WorkloadOk(NewWorkload(nodes));
    forall w | 0 <= w < |r.workloads| ensures WorkloadOk(r.workloads[w]) {
      assert w < |s1.workloads| ==> r.workloads[w] == s1.workloads[w] && WorkloadOk(s.workloads[w]);
    }
    forall i | 0 <= i < |r.handlers| ensures HandlerOk(r, r.handlers[i]) {
      assert HandlerOk(s, s.handlers[i]);
    }
  }

  lemma CheckInInv(s: State, node: string, nowNs: nat)
    requires Inv(s)
    ensures Inv(CheckIn(s, node, nowNs))
  {
    if s.workloads != [] && node in s.workloads[|s.workloads| - 1].active {
      var w := |s.workloads| - 1;
      var wl := s.workloads[w];
      var wl1 := wl.(synced := wl.synced + {node}, calls := wl.calls + [node]);
      var start := ComputeStartTime(nowNs);
      var wl2 := if wl.active <= wl1.synced then wl1.(released := wl1.released + [start]) else wl1;
      var s1 := State(s.workloads[w := wl2], s.handlers + [Handler(node, w, Reading)]);
      MembersAppend(wl.calls, node);
      assert (wl.calls + [node])[..|wl.calls|] == wl.calls;
      assert WorkloadOk(wl);
      assert WorkloadOk(wl2);
      forall i | 0 <= i < |s1.handlers| ensures HandlerOk(s1, s1.handlers[i]) {
        assert i < |s.handlers| ==> HandlerOk(s, s.handlers[i]);
      }
      assert Inv(s1);
      if wl.active <= wl1.synced { SendInv(s1, w, Released(start)); }
    }
  }

  /** A handler's own move keeps the invariant if its new phase is consistent. */
  lemma SetPhaseInv(s: State, h: nat, p: Phase)
    requires Inv(s) && h < |s.handlers| && HandlerOk(s, s.handlers[h].(phase := p))
    ensures Inv(SetPhase(s, h, p))
  {
    var r := SetPhase(s, h, p);
    forall i | 0 <= i < |r.handlers| ensures HandlerOk(r, r.handlers[i]) {
      assert HandlerOk(s, s.handlers[i]);
    }
  }

  lemma ReadInv(s: State, h: nat)
    requires Inv(s)
    ensures Inv(ReadStatus(s, h))
  {
    if h < |s.handlers| && s.handlers[h].phase.Reading? {
      assert HandlerOk(s, s.handlers[h]);
      var wl := s.workloads[s.handlers[h].workload];
      assert WorkloadOk(wl);
      match wl.channel.value
      case Released(start) => SetPhaseInv(s, h, Done(Ack(start)));
      case Cancelled => SetPhaseInv(s, h, Done(Aborted));
      case TimedOut => SetPhaseInv(s, h, Done(DeadlineExceeded));
      case Waiting => SetPhaseInv(s, h, Sleeping(wl.channel.version));
    }
  }

  lemma WakeInv(s: State, h: nat)
    requires Inv(s)
    ensures Inv(WakeUp(s, h))
  {
    if h < |s.handlers| && s.handlers[h].phase.Sleeping? {
      assert HandlerOk(s, s.handlers[h]);
      SetPhaseInv(s, h, Reading);
      if s.handlers[h].workload < |s.workloads| - 1 { SetPhaseInv(s, h, Done(Aborted)); }
    }
  }

  lemma TimeOutInv(s: State, h: nat)
    requires Inv(s)
    ensures Inv(TimeOut(s, h))
  {
    if h < |s.handlers| && s.handlers[h].phase.Sleeping? {
      assert HandlerOk(s, s.handlers[h]);
      SendInv(s, |s.workloads| - 1, TimedOut);
      var s1 := Send(s, |s.workloads| - 1, TimedOut);
      assert HandlerOk(s1, s1.handlers[h]);
      SetPhaseInv(s1, h, Done(DeadlineExceeded));
    }
  }

  lemma StepInv(s: State, e: Event)
    requires Inv(s)
    ensures Inv(Step(s, e))
  {
    match e
    case AddSchedInfo(nodes) => ReplaceInv(s, nodes);
    case SyncTimer(node, nowNs) => CheckInInv(s, node, nowNs);
    case Read(h) => ReadInv(s, h);
    case Wake(h) => WakeInv(s, h);
    case Timeout(h) => TimeOutInv(s, h);
    case Disconnect(h) =>
      if h < |s.handlers| && Live(s.handlers[h]) {
        assert HandlerOk(s, s.handlers[h]);
        SetPhaseInv(s, h, Done(Dropped));
      }
  }

  lemma {:induction false} RunInv(events: seq<Event>)
    ensures Inv(Run(events))
  {
    if events != [] {
      RunInv(events[..|events| - 1]);
      StepInv(Run(events[..|events| - 1]), events[|events| - 1]);
    }
  }

  /** States that some run leads to. */
  ghost predicate Reachable(s: State) {
    exists events :: Run(events) == s
  }

  lemma ReachableInv(s: State)
    requires Reachable(s)
    ensures Inv(s)
  {
    var events :| Run(events) == s;
    RunInv(events);
  }

  lemma ReachableStep(s: State, e: Event)
    requires Reachable(s)
    ensures Reachable(Step(s, e))
  {
    var events :| Run(events) == s;
    assert (events + [e])[..|events|] == events;
    assert Run(events + [e]) == Step(s, e);
  }

  // ---- agreement ----

  ghost predicate CalledOnce(calls: seq<string>) {
    forall i, j :: 0 <= i < j < |calls| ==> calls[i] != calls[j]
  }

  /** Only the last check-in found the set complete. */
  predicate NoCallAfterComplete(active: set<string>, calls: seq<string>) {
    forall n :: 0 < n < |calls| ==> !(active <= Members(calls[..n]))
  }

  lemma MembersPrefix(calls: seq<string>, m: nat, n: nat)
    requires m <= n <= |calls|
    ensures Members(calls[..m]) <= Members(calls[..n])
  {
    forall x | x in Members(calls[..m]) ensures x in Members(calls[..n]) {
      var i :| 0 <= i < m && calls[..m][i] == x;
      assert calls[..n][i] == x;
    }
  }

  lemma {:induction false} CompletionsZero(active: set<string>, calls: seq<string>, n: nat)
    requires n <= |calls| && forall k :: 0 < k <= n ==> !(active <= Members(calls[..k]))
    ensures Completions(active, calls[..n]) == 0
  {
    if n > 0 {
      CompletionsZero(active, calls, n - 1);
      assert calls[..n][..n - 1] == calls[..n - 1];
    }
  }

  lemma {:induction false} CompletionsGrow(active: set<string>, calls: seq<string>, n: nat)
    requires 0 < n <= |calls| && active <= Members(calls[..n])
    ensures Completions(active, calls) >= |calls| - n + 1
  {
    if n == |calls| {
      assert calls[..n] == calls;
    } else {
      var init := calls[..|calls| - 1];
      assert init[..n] == calls[..n];
      CompletionsGrow(active, init, n);
      MembersPrefix(calls, n, |calls|);
      assert calls[..|calls|] == calls;
    }
  }

  /** At most one broadcast, if and only if nobody checks in again once the set is complete. */
  lemma AtMostOneBroadcastIff(active: set<string>, calls: seq<string>)
    ensures Completions(active, calls) <= 1 <==> NoCallAfterComplete(active, calls)
  {
    if NoCallAfterComplete(active, calls) {
      if calls != [] { CompletionsZero(active, calls, |calls| - 1); }
    } else {
      var n :| 0 < n < |calls| && active <= Members(calls[..n]);
      CompletionsGrow(active, calls, n);
    }
  }

  /** When every node calls at most once, nobody can check in after completion. */
  lemma OnceMeansNoLateCall(active: set<string>, calls: seq<string>)
    requires CalledOnce(calls) && Members(calls) <= active
    ensures NoCallAfterComplete(active, calls)
  {
    forall n | 0 < n < |calls|
      ensures !(active <= Members(calls[..n]))
    {
      assert calls[n] in Members(calls);
      assert forall i :: 0 <= i < n ==> calls[..n][i] != calls[n];
      assert calls[n] !in Members(calls[..n]);
    }
  }

  /**
   * Agreement over every run with any mix of replacements, timeouts and
   * disconnects: start times come from the handler's own workload, are broadcast
   * only once every active node has checked in, and if each node calls at most
   * once per workload, all acks for the workload carry the same one.
   */
  lemma BarrierAgreement(s: State, i: nat, j: nat)
    requires Reachable(s) && i < |s.handlers| && j < |s.handlers|
    requires s.handlers[i].phase.Done? && s.handlers[i].phase.reply.Ack?
    requires s.handlers[j].phase.Done? && s.handlers[j].phase.reply.Ack?
    ensures var w := s.handlers[i].workload;
            && w < |s.workloads|
            && s.handlers[i].phase.reply.start in s.workloads[w].released
            && s.workloads[w].active <= s.workloads[w].synced == Members(s.workloads[w].calls)
            && (CalledOnce(s.workloads[w].calls) && s.handlers[j].workload == w ==>
                  s.handlers[j].phase.reply == s.handlers[i].phase.reply)
  {
    ReachableInv(s);
    assert HandlerOk(s, s.handlers[i]) && HandlerOk(s, s.handlers[j]);
    WorkloadAgrees(s.workloads[s.handlers[i].workload]);
  }

  /** Per workload: a broadcast means everyone had checked in, and single calls mean a single broadcast. */
  lemma WorkloadAgrees(wl: Workload)
    requires WorkloadOk(wl) && wl.released != []
    ensures wl.active <= wl.synced
    ensures CalledOnce(wl.calls) ==> |wl.released| == 1
  {
    ReleasedMeansComplete(wl.active, wl.calls);
    if CalledOnce(wl.calls) {
      OnceMeansNoLateCall(wl.active, wl.calls);
      AtMostOneBroadcastIff(wl.active, wl.calls);
    }
  }

  lemma {:induction false} ReleasedMeansComplete(active: set<string>, calls: seq<string>)
    requires Completions(active, calls) > 0
    ensures active <= Members(calls)
  {
    MembersPrefix(calls, |calls| - 1, |calls|);
    assert calls[..|calls|] == calls;
    if Completions(active, calls[..|calls| - 1]) > 0 {
      ReleasedMeansComplete(active, calls[..|calls| - 1]);
    }
  }

  /** A node that calls again after the release re-arms the barrier: two acks with different start times. */
  lemma SecondCallDisagrees() returns (s: State)
    ensures Reachable(s) && |s.handlers| == 2 && s.handlers[0].workload == s.handlers[1].workload
    ensures s.handlers[0].phase == Done(Ack(ComputeStartTime(0)))
    ensures s.handlers[1].phase == Done(Ack(ComputeStartTime(5_000_000_000)))
    ensures ComputeStartTime(0) != ComputeStartTime(5_000_000_000)
  {
    s := OneNodeWorkload();
    s := CallAndRead(s, 0);
    s := CallAndRead(s, 5_000_000_000);
  }

  lemma OneNodeWorkload() returns (s: State)
    ensures Reachable(s) && |s.workloads| == 1 && s.workloads[0].active == {"n1"} && s.handlers == []
  {
    assert Run([]) == EMPTY;
    ReachableStep(EMPTY, AddSchedInfo({"n1"}));
    s := Step(EMPTY, AddSchedInfo({"n1"}));
  }

  lemma CallAndRead(s: State, nowNs: nat) returns (r: State)
    requires Reachable(s) && |s.workloads| == 1 && s.workloads[0].active == {"n1"}
    ensures Reachable(r) && |r.workloads| == 1 && r.workloads[0].active == {"n1"}
    ensures r.handlers == s.handlers + [Handler("n1", 0, Done(Ack(ComputeStartTime(nowNs))))]
  {
    var s1 := Step(s, SyncTimer("n1", nowNs));
    ReachableStep(s, SyncTimer("n1", nowNs));
    ReleasedAt(s, nowNs);
    ReachableStep(s1, Read(|s.handlers|));
    r := Step(s1, Read(|s.handlers|));
  }

  /** On a workload with the single active node "n1", every check-in broadcasts a start one second ahead. */
  lemma ReleasedAt(s: State, nowNs: nat)
    requires |s.workloads| == 1 && s.workloads[0].active == {"n1"}
    ensures var r := CheckIn(s, "n1", nowNs);
            && |r.workloads| == 1 && r.workloads[0].active == {"n1"}
            && r.workloads[0].channel.value == Released(ComputeStartTime(nowNs))
            && r.handlers == s.handlers + [Handler("n1", 0, Reading)]
  {
    var r := CheckIn(s, "n1", nowNs);
    var me := Handler("n1", 0, Reading);
    assert {"n1"} <= s.workloads[0].synced + {"n1"};
    assert (s.handlers + [me])[|s.handlers|] == me && Live(me);
  }

  // ---- no handler gets stuck ----

  /** By its own moves alone, without its timeout, the handler returns. */
  predicate CanReturn(s: State, h: nat)
    requires h < |s.handlers|
  {
    || s.handlers[h].phase.Done?
    || (var s1 := ReadStatus(s, h); h < |s1.handlers| && s1.handlers[h].phase.Done?)
    || (var s1 := WakeUp(s, h); h < |s1.handlers| && s1.handlers[h].phase.Done?)
    || (var s1 := ReadStatus(WakeUp(s, h), h); h < |s1.handlers| && s1.handlers[h].phase.Done?)
  }

  /**
   * In every reachable state, a handler can return as soon as its barrier is no
   * longer Waiting, and always once its workload has been replaced.
   */
  lemma NoStuckHandler(s: State, h: nat)
    requires Reachable(s) && h < |s.handlers|
    ensures var w := s.handlers[h].workload;
            && w < |s.workloads|
            && (!s.workloads[w].channel.value.Waiting? ==> CanReturn(s, h))
            && (w < |s.workloads| - 1 ==> CanReturn(s, h))
  {
    ReachableInv(s);
    assert HandlerOk(s, s.handlers[h]);
  }

  /** A barrier that left Waiting never goes back. */
  lemma NeverWaitingAgain(s: State, e: Event, w: nat)
    requires w < |s.workloads| && !s.workloads[w].channel.value.Waiting?
    ensures w < |Step(s, e).workloads| && !Step(s, e).workloads[w].channel.value.Waiting?
  {
  }

  // ---- what the handlers are told ----

  /** The event ends the sleep of a waiting handler. */
  ghost predicate SleepEnds(s: State, e: Event) {
    e.Timeout? && e.h < |s.handlers| && s.handlers[e.h].phase.Sleeping?
  }

  /** The handlers whose own sleep ended. */
  ghost function SleptOut(events: seq<Event>): set<nat> {
    if events == [] then {}
    else
      var init, e := events[..|events| - 1], events[|events| - 1];
      SleptOut(init) + if SleepEnds(Run(init), e) then {e.h} else {}
  }

  /** The event ends a sleep while some handler, of whichever node, listens on the current workload. */
  ghost predicate Broadcasts(s: State, e: Event) {
    SleepEnds(s, e) && s.workloads != [] && HasReceiver(s, |s.workloads| - 1)
  }

  /** The workloads that were current, with handlers waiting, when some handler's sleep ended. */
  ghost function TimedOutOn(events: seq<Event>): set<nat> {
    if events == [] then {}
    else
      var init, e := events[..|events| - 1], events[|events| - 1];
      var s := Run(init);
      TimedOutOn(init) + if Broadcasts(s, e) then {|s.workloads| - 1} else {}
  }

  /** The handlers whose caller hung up. */
  ghost function HungUp(events: seq<Event>): set<nat> {
    if events == [] then {}
    else
      var init, e := events[..|events| - 1], events[|events| - 1];
      HungUp(init) + if e.Disconnect? then {e.h} else {}
  }

  /** The replies and the TimedOut values have their cause. */
  ghost predicate Explained(s: State, slept: set<nat>, timed: set<nat>, hungUp: set<nat>) {
    && (forall w :: 0 <= w < |s.workloads| && s.workloads[w].channel.value.TimedOut? ==> w in timed)
    && (forall i :: 0 <= i < |s.handlers| ==> ReplyExplained(s.handlers[i], i, slept, timed, hungUp))
  }

  ghost predicate ReplyExplained(h: Handler, i: nat, slept: set<nat>, timed: set<nat>, hungUp: set<nat>) {
    && (h.phase == Done(DeadlineExceeded) ==> i in slept || h.workload in timed)
    && (h.phase == Done(Dropped) ==> i in hungUp)
  }

  lemma TimedStep(s: State, e: Event, w: nat)
    requires w < |Step(s, e).workloads| && Step(s, e).workloads[w].channel.value.TimedOut?
    ensures || (w < |s.workloads| && s.workloads[w].channel.value.TimedOut?)
            || (Broadcasts(s, e) && w == |s.workloads| - 1)
  {
  }

  lemma ReplyStep(s: State, e: Event, i: nat)
    requires i < |Step(s, e).handlers| && Step(s, e).handlers[i].phase.Done?
    requires i < |s.handlers| ==> s.handlers[i] != Step(s, e).handlers[i]
    ensures var r := Step(s, e).handlers[i];
            && (r.phase == Done(DeadlineExceeded) ==>
                  || (SleepEnds(s, e) && e.h == i)
                  || (r.workload < |s.workloads| && s.workloads[r.workload].channel.value.TimedOut?))
            && (r.phase == Done(Dropped) ==> e == Disconnect(i))
  {
  }

  /** What one event adds to the causes. */
  lemma ExplainedStep(s: State, e: Event, r: State, slept: set<nat>, timed: set<nat>, hungUp: set<nat>)
    requires Explained(s, slept, timed, hungUp) && r == Step(s, e)
    ensures Explained(r, slept + (if SleepEnds(s, e) then {e.h} else {}),
                      timed + (if Broadcasts(s, e) then {|s.workloads| - 1} else {}),
                      hungUp + if e.Disconnect? then {e.h} else {})
  {
    var slept', timed', hungUp' :=
      slept + (if SleepEnds(s, e) then {e.h} else {}),
      timed + (if Broadcasts(s, e) then {|s.workloads| - 1} else {}),
      hungUp + if e.Disconnect? then {e.h} else {};
    forall w | 0 <= w < |r.workloads| && r.workloads[w].channel.value.TimedOut? ensures w in timed' {
      TimedStep(s, e, w);
    }
    forall i | 0 <= i < |r.handlers| ensures ReplyExplained(r.handlers[i], i, slept', timed', hungUp') {
      if i < |s.handlers| && s.handlers[i] == r.handlers[i] {
        assert ReplyExplained(s.handlers[i], i, slept, timed, hungUp);
      } else if r.handlers[i].phase.Done? {
        ReplyStep(s, e, i);
      }
    }
  }

  lemma {:induction false} RunExplained(events: seq<Event>)
    ensures Explained(Run(events), SleptOut(events), TimedOutOn(events), HungUp(events))
  {
    if events != [] {
      var init, e := events[..|events| - 1], events[|events| - 1];
      RunExplained(init);
      ExplainedStep(Run(init), e, Run(events), SleptOut(init), TimedOutOn(init), HungUp(init));
    }
  }

  /** Why the handler got its reply. */
  ghost predicate HasCause(s: State, h: nat, slept: set<nat>, timed: set<nat>, hungUp: set<nat>)
    requires h < |s.handlers| && s.handlers[h].phase.Done?
  {
    var w := s.handlers[h].workload;
    match s.handlers[h].phase.reply
    case Ack(start) => w < |s.workloads| && start in s.workloads[w].released
    case Aborted => w < |s.workloads| - 1
    case DeadlineExceeded => h in slept || w in timed
    case Dropped => h in hungUp
  }

  lemma CauseOf(s: State, h: nat, slept: set<nat>, timed: set<nat>, hungUp: set<nat>)
    requires Inv(s) && Explained(s, slept, timed, hungUp) && h < |s.handlers| && s.handlers[h].phase.Done?
    ensures HasCause(s, h, slept, timed, hungUp)
  {
    assert HandlerOk(s, s.handlers[h]) && ReplyExplained(s.handlers[h], h, slept, timed, hungUp);
  }

  /**
   * In every run a handler is told Aborted only if its workload was replaced, and DeadlineExceeded only if its
   * own sleep ended or some handler's did while its workload was current and waited for.
   */
  lemma RepliesExplained(events: seq<Event>, h: nat)
    requires h < |Run(events).handlers| && Run(events).handlers[h].phase.Done?
    ensures HasCause(Run(events), h, SleptOut(events), TimedOutOn(events), HungUp(events))
  {
    RunExplained(events);
    RunInv(events);
    CauseOf(Run(events), h, SleptOut(events), TimedOutOn(events), HungUp(events));
  }

  function RunFrom(s: State, events: seq<Event>): State {
    if events == [] then s else Step(RunFrom(s, events[..|events| - 1]), events[|events| - 1])
  }

  /** The channel of workload `w` holds `v` throughout. */
  ghost predicate Keeps(s: State, events: seq<Event>, w: nat, v: Status) {
    && (events != [] ==> Keeps(s, events[..|events| - 1], w, v))
    && var r := RunFrom(s, events); w < |r.workloads| && r.workloads[w].channel.value == v
  }

  function ReplyFor(v: Status): Reply
    requires !v.Waiting?
  {
    match v case Released(start) => Ack(start) case Cancelled => Aborted case TimedOut => DeadlineExceeded
  }

  /** Whatever it is doing, by its own next moves the handler returns this reply. */
  ghost predicate Returns(s: State, h: nat, reply: Reply) {
    var r := ReadStatus(WakeUp(s, h), h);
    h < |r.handlers| && r.handlers[h].phase == Done(reply)
  }

  /** The handler has returned the reply, or will by its own moves; only its own timeout or hang-up prevent that. */
  ghost predicate Destined(s: State, events: seq<Event>, h: nat, reply: Reply) {
    && h < |s.handlers|
    && match s.handlers[h].phase
       case Done(r) =>
         || r == reply
         || (r == DeadlineExceeded && Timeout(h) in events)
         || (r == Dropped && Disconnect(h) in events)
       case _ => Returns(s, h, reply)
  }

  /** A live handler whose channel left Waiting returns what the channel holds. */
  lemma LiveReturns(s: State, h: nat, v: Status)
    requires Inv(s) && h < |s.handlers| && Live(s.handlers[h]) && !v.Waiting?
    requires s.handlers[h].workload < |s.workloads| && s.workloads[s.handlers[h].workload].channel.value == v
    ensures Returns(s, h, ReplyFor(v))
  {
    assert HandlerOk(s, s.handlers[h]);
  }

  /** One event, as long as the channel holds the value. */
  lemma OwnStep(s: State, h: nat, v: Status, e: Event)
    requires Inv(s) && h < |s.handlers| && Live(s.handlers[h]) && !v.Waiting?
    requires s.handlers[h].workload < |s.workloads| && s.workloads[s.handlers[h].workload].channel.value == v
    ensures var r := Step(s, e);
            && h < |r.handlers| && r.handlers[h].workload == s.handlers[h].workload
            && (r.handlers[h].phase.Done? ==>
                  || r.handlers[h].phase.reply == ReplyFor(v)
                  || (r.handlers[h].phase.reply == DeadlineExceeded && e == Timeout(h))
                  || (r.handlers[h].phase.reply == Dropped && e == Disconnect(h)))
  {
    assert HandlerOk(s, s.handlers[h]);
  }

  lemma DoneStays(s: State, h: nat, e: Event)
    requires h < |s.handlers|
    ensures h < |Step(s, e).handlers| && Step(s, e).handlers[h].workload == s.handlers[h].workload
    ensures s.handlers[h].phase.Done? ==> Step(s, e).handlers[h] == s.handlers[h]
  {
  }

  lemma {:induction false} RunFromInv(s: State, events: seq<Event>)
    requires Inv(s)
    ensures Inv(RunFrom(s, events))
  {
    if events != [] {
      RunFromInv(s, events[..|events| - 1]);
      StepInv(RunFrom(s, events[..|events| - 1]), events[|events| - 1]);
    }
  }

  lemma {:induction false} SentIsReturned(s: State, events: seq<Event>, h: nat, v: Status)
    requires Inv(s) && h < |s.handlers| && Live(s.handlers[h]) && !v.Waiting?
    requires Keeps(s, events, s.handlers[h].workload, v)
    ensures var r := RunFrom(s, events);
            h < |r.handlers| && r.handlers[h].workload == s.handlers[h].workload && Destined(r, events, h, ReplyFor(v))
  {
    RunFromInv(s, events);
    if events == [] {
      LiveReturns(s, h, v);
    } else {
      var init, e := events[..|events| - 1], events[|events| - 1];
      assert events == init + [e];
      SentIsReturned(s, init, h, v);
      var m, r := RunFrom(s, init), RunFrom(s, events);
      RunFromInv(s, init);
      DoneStays(m, h, e);
      if Live(m.handlers[h]) { OwnStep(m, h, v, e); }
      if Live(r.handlers[h]) { LiveReturns(r, h, v); }
    }
  }

  /** Nothing is sent any more on the channel of a replaced workload. */
  lemma {:induction false} ReplacedKeeps(s: State, events: seq<Event>, w: nat)
    requires w < |s.workloads| - 1
    ensures w < |RunFrom(s, events).workloads| - 1 && Keeps(s, events, w, s.workloads[w].channel.value)
  {
    if events != [] { ReplacedKeeps(s, events[..|events| - 1], w); }
  }

  /** A handler that is still waiting or has not read when its workload is replaced returns Aborted. */
  lemma ReplacedIsAborted(s: State, nodes: set<string>, s1: State, events: seq<Event>, h: nat)
    requires Reachable(s) && s1 == Step(s, AddSchedInfo(nodes))
    requires h < |s.handlers| && Live(s.handlers[h]) && s.handlers[h].workload == |s.workloads| - 1
    ensures Destined(RunFrom(s1, events), events, h, Aborted)
  {
    ReachableInv(s);
    StepInv(s, AddSchedInfo(nodes));
    assert HasReceiver(s, s.handlers[h].workload);
    ReplacedKeeps(s1, events, s.handlers[h].workload);
    SentIsReturned(s1, events, h, Cancelled);
  }

  /** Without new workloads and check-ins, the current channel keeps a TimedOut, and without timeouts any value. */
  lemma {:induction false} CurrentKeeps(s: State, events: seq<Event>, v: Status)
    requires s.workloads != [] && s.workloads[|s.workloads| - 1].channel.value == v
    requires forall e :: e in events ==> !e.AddSchedInfo? && !e.SyncTimer? && (e.Timeout? ==> v.TimedOut?)
    ensures |RunFrom(s, events).workloads| == |s.workloads| && Keeps(s, events, |s.workloads| - 1, v)
  {
    if events != [] {
      assert events[|events| - 1] in events;
      CurrentKeeps(s, events[..|events| - 1], v);
    }
  }

  /** When a sleep ends, every other handler of the current workload returns DeadlineExceeded. */
  lemma TimeoutIsExceeded(s: State, g: nat, s1: State, events: seq<Event>, h: nat)
    requires Reachable(s) && s1 == Step(s, Timeout(g)) && g < |s.handlers| && s.handlers[g].phase.Sleeping?
    requires h < |s.handlers| && h != g && Live(s.handlers[h]) && s.handlers[h].workload == |s.workloads| - 1
    requires forall e :: e in events ==> !e.AddSchedInfo? && !e.SyncTimer?
    ensures g < |s1.handlers| && s1.handlers[g].phase == Done(DeadlineExceeded)
    ensures Destined(RunFrom(s1, events), events, h, DeadlineExceeded)
  {
    ReachableInv(s);
    StepInv(s, Timeout(g));
    TimeoutSends(s, g, h, s1);
    CurrentReplies(s1, events, h, TimedOut);
  }

  lemma CurrentReplies(s: State, events: seq<Event>, h: nat, v: Status)
    requires Inv(s) && h < |s.handlers| && Live(s.handlers[h]) && !v.Waiting?
    requires 0 <= s.handlers[h].workload == |s.workloads| - 1 && s.workloads[|s.workloads| - 1].channel.value == v
    requires forall e :: e in events ==> !e.AddSchedInfo? && !e.SyncTimer? && (e.Timeout? ==> v.TimedOut?)
    ensures Destined(RunFrom(s, events), events, h, ReplyFor(v))
  {
    CurrentKeeps(s, events, v);
    SentIsReturned(s, events, h, v);
  }

  lemma TimeoutSends(s: State, g: nat, h: nat, s1: State)
    requires g < |s.handlers| && s.handlers[g].phase.Sleeping? && s1 == Step(s, Timeout(g))
    requires h < |s.handlers| && h != g && Live(s.handlers[h]) && 0 <= s.handlers[h].workload == |s.workloads| - 1
    ensures |s1.workloads| == |s.workloads| && s1.workloads[|s.workloads| - 1].channel.value == TimedOut
    ensures |s1.handlers| == |s.handlers| && s1.handlers[h] == s.handlers[h]
    ensures s1.handlers[g].phase == Done(DeadlineExceeded)
  {
    assert HasReceiver(s, s.handlers[h].workload);
  }

  /** When a check-in completes the set, every handler of the workload returns its start time. */
  lemma CompletionIsAcked(s: State, node: string, nowNs: nat, s1: State, events: seq<Event>, h: nat)
    requires Reachable(s) && s1 == Step(s, SyncTimer(node, nowNs)) && s.workloads != []
    requires var wl := s.workloads[|s.workloads| - 1]; node in wl.active && wl.active <= wl.synced + {node}
    requires h < |s1.handlers| && Live(s1.handlers[h]) && s1.handlers[h].workload == |s.workloads| - 1
    requires forall e :: e in events ==> !e.AddSchedInfo? && !e.SyncTimer? && !e.Timeout?
    ensures Destined(RunFrom(s1, events), events, h, Ack(ComputeStartTime(nowNs)))
  {
    ReachableInv(s);
    StepInv(s, SyncTimer(node, nowNs));
    var me := Handler(node, |s.workloads| - 1, Reading);
    assert (s.handlers + [me])[|s.handlers|] == me && Live(me);
    CurrentReplies(s1, events, h, Released(ComputeStartTime(nowNs)));
  }

  // ---- the shared store, updated in place under its lock ----

  datatype CheckInResult = Registered(handler: nat) | NoWorkload | NoActiveNodes | NotActive

  class WorkloadStore {
    var workloads: seq<Workload>
    var handlers: seq<Handler>

    function Now(): State
      reads this
    {
      State(workloads, handlers)
    }

    constructor ()
      ensures Now() == EMPTY
    {
      workloads, handlers := [], [];
    }

    method SendStatus(w: nat, v: Status)
      requires w < |workloads|
      modifies this
      ensures Now() == Send(old(Now()), w, v)
    {
      if exists i :: 0 <= i < |handlers| && Live(handlers[i]) && handlers[i].workload == w {
        var wl := workloads[w];
        workloads := workloads[w := wl.(channel := Channel(v, wl.channel.version + 1))];
      }
    }

    /** Storing a workload cancels the barrier of the one it replaces. */
    method Store(nodes: set<string>)
      modifies this
      ensures Now() == Step(old(Now()), AddSchedInfo(nodes))
    {
      if workloads != [] { SendStatus(|workloads| - 1, Cancelled); }
      workloads := workloads + [NewWorkload(nodes)];
    }

    /** Phase 1 of SyncTimer with its three refusals. */
    method CheckInNode(node: string, nowNs: nat) returns (r: CheckInResult)
      modifies this
      ensures Now() == Step(old(Now()), SyncTimer(node, nowNs))
      ensures r == NoWorkload <==> old(workloads) == []
      ensures r == NoActiveNodes <==> old(workloads) != [] && old(workloads)[|old(workloads)| - 1].active == {}
      ensures r.Registered? <==> old(workloads) != [] && node in old(workloads)[|old(workloads)| - 1].active
      ensures r.Registered? ==> r.handler == |old(handlers)| < |handlers| && handlers[r.handler].node == node
    {
      if workloads == [] { return NoWorkload; }
      var w := |workloads| - 1;
      var wl := workloads[w];
      if wl.active == {} { return NoActiveNodes; }
      if node !in wl.active { return NotActive; }
      r := Registered(|handlers|);
      handlers := handlers + [Handler(node, w, Reading)];
      wl := wl.(synced := wl.synced + {node}, calls := wl.calls + [node]);
      var complete := forall n :: n in wl.active ==> n in wl.synced;
      if complete {
        var start := ComputeStartTime(nowNs);
        workloads := workloads[w := wl.(released := wl.released + [start])];
        SendStatus(w, Released(start));
      } else {
        workloads := workloads[w := wl];
      }
    }

    /** Phase 2, the top of the wait loop: the reply, or none while the barrier is Waiting. */
    method ReadHandler(h: nat) returns (reply: Option<Reply>)
      requires h < |handlers| && handlers[h].phase.Reading? && handlers[h].workload < |workloads|
      modifies this`handlers
      ensures Now() == Step(old(Now()), Read(h))
      ensures reply.None? <==> workloads[old(handlers)[h].workload].channel.value.Waiting?
      ensures h < |handlers| && (reply.Some? ==> handlers[h].phase == Done(reply.value))
    {
      var c := workloads[handlers[h].workload].channel;
      match c.value {
        case Released(start) => reply := Some(Ack(start));
        case Cancelled => reply := Some(Aborted);
        case TimedOut => reply := Some(DeadlineExceeded);
        case Waiting => reply := None;
      }
      handlers := handlers[h := handlers[h].(phase := if reply.Some? then Done(reply.value) else Sleeping(c.version))];
    }

    /** changed(): read again after a new version; without one, Aborted if the workload is gone, else sleep on. */
    method WakeHandler(h: nat) returns (reply: Option<Reply>)
      requires h < |handlers| && handlers[h].phase.Sleeping? && handlers[h].workload < |workloads|
      modifies this`handlers
      ensures Now() == Step(old(Now()), Wake(h))
      ensures h < |handlers| && (reply.Some? ==> handlers[h].phase == Done(reply.value))
      ensures reply == if workloads[old(handlers)[h].workload].channel.version == old(handlers)[h].phase.seen &&
                          old(handlers)[h].workload < |workloads| - 1 then Some(Aborted) else None
    {
      reply := None;
      var w := handlers[h].workload;
      if workloads[w].channel.version != handlers[h].phase.seen {
        handlers := handlers[h := handlers[h].(phase := Reading)];
      } else if w < |workloads| - 1 {
        reply := Some(Aborted);
        handlers := handlers[h := handlers[h].(phase := Done(Aborted))];
      }
    }

    /** A handler whose sleep ended broadcasts on the current workload, not necessarily its own. */
    method TimeOutHandler(h: nat)
      requires h < |handlers| && handlers[h].phase.Sleeping?
      modifies this
      ensures Now() == Step(old(Now()), Timeout(h))
    {
      if workloads != [] { SendStatus(|workloads| - 1, TimedOut); }
      handlers := handlers[h := handlers[h].(phase := Done(DeadlineExceeded))];
    }
  }
}
