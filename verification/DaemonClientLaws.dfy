/** What holds after every run of the daemon client, in any order of calls, callbacks, frames and timers. */
module DaemonClientLaws {
  import opened Options
  import opened Ledger
  import opened DaemonClientModel
  import opened DaemonClientWaiters

  // ---------------------------------------------------------------------------------------------
  // The reference reading of the liveness log

  /** Failed heartbeat pings at the end of a log, since the last valid frame or teardown. */
  function Streak(log: seq<LivenessEvent>): nat {
    if log == [] then 0
    else
      match log[|log| - 1]
      case FrameSeen => 0
      case Teardown => 0
      case Failed(probe) => Streak(log[..|log| - 1]) + if probe.drives then 1 else 0
      case Started(_) => Streak(log[..|log| - 1])
  }

  /** A teardown stands exactly where a second failure has just completed a streak. */
  ghost predicate TeardownsExact(log: seq<LivenessEvent>) {
    forall i | 0 <= i < |log| :: log[i] == Teardown <==> Streak(log[..i]) == LIVENESS_FAILURE_RECONNECT_THRESHOLD
  }

  ghost predicate LivenessOk(failures: nat, log: seq<LivenessEvent>) {
    && failures == Streak(log) < LIVENESS_FAILURE_RECONNECT_THRESHOLD
    && TeardownsExact(log)
  }

  ghost predicate DelaysOk(delays: seq<nat>, baseDelay: nat, maxDelay: nat, attempt: nat) {
    && |delays| == attempt
    && forall i | 0 <= i < attempt :: delays[i] == Delay(baseDelay, maxDelay, i)
  }

  ghost predicate ConnectionOk(k: Connection) {
    && (k.status == Connecting ==> k.transport.Some?)
    && (k.status == Disposed ==> k.transport.None? && k.reconnectTimer.None?)
    && DelaysOk(k.delays, k.baseDelay, k.maxDelay, k.attempt)
  }

  /** Messages wait only while a connection is being made, and for that connection. */
  ghost predicate QueueOk(c: Client) {
    && SendsOk(c.sends)
    && (c.sends.queue != [] ==> c.conn.status == Connecting)
    && AwaitsOnly(c.sends.queue, c.conn.transport)
  }

  ghost predicate Inv(c: Client) {
    ConnectionOk(c.conn) && WaitersOk(c.waiters) && QueueOk(c) && LivenessOk(c.live.failures, c.live.log)
  }

  lemma InitialInv(baseDelay: nat, maxDelay: nat, enabled: bool)
    ensures Inv(NewClient(baseDelay, maxDelay, enabled))
  {
    var c := NewClient(baseDelay, maxDelay, enabled);
    assert Ids(c.waiters.waiters) == [] && SettledIds(c.waiters.settlements) == [];
    assert SendIds(c.sends.queue) == [] && OutcomeIds(c.sends.outcomes) == [];
  }

  /** A new client is idle and wants to reconnect; nothing waits, nothing is armed, no number has been used. */
  lemma {:induction false} NewClientIsIdle(baseDelay: nat, maxDelay: nat, enabled: bool)
    ensures var c := NewClient(baseDelay, maxDelay, enabled);
            var k := c.conn;
            && k.status == Idle && k.transport.None? && k.shouldReconnect && k.reconnectEnabled == enabled
            && k.reconnectTimer.None? && !k.connectTimer && !k.errorTimer && k.attempt == |k.delays| == 0
            && k.baseDelay == baseDelay && k.maxDelay == maxDelay
            && k.connectPromise.None? && k.connectCallbacks.None? && k.nextPromise == k.nextTransport == 0
            && c.waiters.waiters == [] && c.waiters.timers == {} && c.waiters.settlements == [] && c.waiters.next == 0
            && c.sends.queue == [] && c.sends.timers == {} && c.sends.outcomes == [] && c.sends.next == 0
            && c.live.probe.None? && !c.live.heartbeat && c.live.failures == c.live.next == |c.live.log| == 0
  {
  }

  // ---------------------------------------------------------------------------------------------
  // The building blocks keep the invariant

  lemma LogGrows(l: Liveness, e: LivenessEvent)
    requires LivenessOk(l.failures, l.log) && e != Teardown
    ensures TeardownsExact(l.log + [e])
    ensures Streak(l.log + [e]) == match e case FrameSeen => 0
                                           case Failed(p) => l.failures + if p.drives then 1 else 0
                                           case _ => l.failures
  {
    var log := l.log + [e];
    assert log[..|l.log|] == l.log;
    forall i | 0 <= i < |l.log| ensures log[..i] == l.log[..i] && log[i] == l.log[i] {
    }
  }

  lemma LoseConnectionOk(k: Connection)
    requires ConnectionOk(k)
    ensures ConnectionOk(LoseConnection(k)) && LoseConnection(k).status != Connecting
  {
  }

  lemma RejectQueueOk(s: SendQueue)
    requires SendsOk(s)
    ensures SendsOk(RejectQueue(s)) && RejectQueue(s).queue == []
  {
    FlushKeeps(s, None, _ => false);
  }

  lemma ClearOk(t: WaiterTable)
    requires WaitersOk(t)
    ensures WaitersOk(ClearWaiters(t)) && ClearWaiters(t).waiters == []
  {
    var sel := (w: Waiter) => true;
    assert ClearWaiters(t) == Settle(t, sel, Rejection());
    SettleKeeps(t, sel, Rejection());
    ClearLeavesNone(t.waiters, sel);
  }

  /** What every reconnect needs of the state it starts from; the queue need not match the transport any more. */
  ghost predicate Reconnectable(c: Client) {
    ConnectionOk(c.conn) && WaitersOk(c.waiters) && SendsOk(c.sends) && LivenessOk(c.live.failures, c.live.log)
  }

  lemma ScheduleReconnectOk(c: Client)
    requires Reconnectable(c)
    ensures Inv(ScheduleReconnect(c)) && ScheduleReconnect(c).waiters.waiters == []
  {
    LoseConnectionOk(c.conn);
    ClearOk(c.waiters);
    RejectQueueOk(c.sends);
  }

  /** Disposing of a transport is the start of a reconnect or of a new attempt, never the end of a step. */
  lemma ReconnectWithout(c: Client)
    requires Inv(c)
    ensures Inv(ScheduleReconnect(DisposeTransport(c)))
  {
    var k := DisposeTransport(c).conn;
    LoseConnectionOk(c.conn);
    var l := LoseConnection(k);
    assert l == LoseConnection(c.conn).(transport := None, connectTimer := false, errorTimer := false);
    ClearOk(c.waiters);
    RejectQueueOk(c.sends);
  }

  lemma AttemptConnectOk(c: Client, opening: Opening)
    requires Inv(c)
    ensures Inv(AttemptConnect(c, opening))
  {
    hide WaitersOk, SendsOk, LivenessOk, DelaysOk, ScheduleReconnect;
    if c.conn.status != Connecting {
      assert c.sends.queue == [];
      match opening
      case Opens =>
      case FactoryThrows => ReconnectWithout(c);
      case HandlersThrow =>
        var d := DisposeTransport(c);
        var opened' := d.(conn := d.conn.(status := Connecting, transport := Some(d.conn.nextTransport),
                                          nextTransport := d.conn.nextTransport + 1, connectTimer := false));
        if c.conn.status != Disposed {
          ScheduleReconnectOk(opened');
        }
    }
  }

  lemma ConnectOk(c: Client, opening: Opening)
    requires Inv(c)
    ensures Inv(Connect(c, opening))
  {
    hide AttemptConnect, WaitersOk, SendsOk, LivenessOk, DelaysOk;
    var promise := c.conn.nextPromise;
    AttemptConnectOk(c.(conn := c.conn.(shouldReconnect := true, connectCallbacks := Some(promise),
                                        nextPromise := promise + 1)), opening);
  }

  lemma EnsureConnectedOk(c: Client, opening: Opening)
    requires Inv(c)
    ensures Inv(EnsureConnected(c, opening))
  {
    hide AttemptConnect, Connect, WaitersOk, SendsOk, LivenessOk, DelaysOk;
    var c' := c.(conn := c.conn.(shouldReconnect := true, reconnectTimer := None));
    AttemptConnectOk(c', opening);
    ConnectOk(c', opening);
  }

  lemma CloseOk(c: Client)
    requires Inv(c)
    ensures Inv(Close(c))
  {
    ClearOk(c.waiters);
    RejectQueueOk(c.sends);
  }

  lemma HandleSessionMessageOk(c: Client, m: Message, accepted: SendResult)
    requires Inv(c)
    ensures Inv(HandleSessionMessage(c, m, accepted))
  {
    FlushKeeps(c.sends, c.conn.transport, accepted);
    var sel := (w: Waiter) => w.accepts(m);
    assert ResolveWaiters(c.waiters, m) == Settle(c.waiters, sel, Resolution(m));
    SettleKeeps(c.waiters, sel, Resolution(m));
  }

  lemma FrameOk(c: Client, frame: Frame, accepted: SendResult)
    requires Inv(c)
    ensures Inv(FrameArrives(c, frame, accepted))
  {
    LogGrows(c.live, FrameSeen);
    var seen := c.(live := SawFrame(c.live));
    match frame
    case Session(m) => HandleSessionMessageOk(seen, m, accepted);
    case Binary(Some(requestId)) => HandleSessionMessageOk(seen, FileReply(requestId), accepted);
    case Invalid(Some(requestId)) =>
      var sel := (w: Waiter) => w.requestId == Some(requestId);
      assert RejectWaitersFor(c.waiters, requestId) == Settle(c.waiters, sel, Rejection());
      SettleKeeps(c.waiters, sel, Rejection());
    case _ =>
  }

  lemma CorrelatedDiscerns(id: nat, requestId: string, kind: string, select: Message -> bool, timed: bool)
    ensures Discerning(Waiter(id, Some(requestId), Correlated(requestId, kind, select), timed))
  {
  }

  lemma RequestOk(c: Client, requestId: string, kind: string, select: Message -> bool, timed: bool, message: string,
                  sent: bool)
    requires Inv(c)
    ensures Inv(SendRequest(c, requestId, kind, select, timed, message, sent))
  {
    hide WaitersOk, LivenessOk, SendsOk, CancelWaiter, DelaysOk;
    CorrelatedDiscerns(c.waiters.next, requestId, kind, select, timed);
    AddKeeps(c.waiters, Some(requestId), Correlated(requestId, kind, select), timed);
    CancelKeeps(AddWaiter(c.waiters, Some(requestId), Correlated(requestId, kind, select), timed), c.waiters.next);
    if c.conn.status == Connecting {
      EnqueueKeeps(c.sends, message, c.conn.transport.value);
    }
  }

  lemma ProbeFailsOk(c: Client, probe: Probe)
    requires Inv(c)
    ensures Inv(ProbeFails(c, probe))
  {
    LogGrows(c.live, Failed(probe));
    var log := c.live.log + [Failed(probe)];
    if probe.drives && c.live.failures + 1 == LIVENESS_FAILURE_RECONNECT_THRESHOLD {
      var torn := c.(live := c.live.(probe := None, failures := 0, log := log + [Teardown]));
      assert LivenessOk(torn.live.failures, torn.live.log) by {
        assert torn.live.log[..|log|] == log;
        forall i | 0 <= i < |log| ensures torn.live.log[..i] == log[..i] && torn.live.log[i] == log[i] {
        }
      }
      ReconnectWithout(torn);
    }
  }

  lemma SendPingOk(c: Client, drives: bool, sent: bool)
    requires Inv(c)
    ensures Inv(SendPing(c, drives, sent))
  {
    hide WaitersOk, SendsOk, ConnectionOk, ProbeFails;
    if c.conn.status == Connected && c.conn.transport.Some? && c.live.probe.None? {
      var probe := Probe(c.live.next, drives, c.conn.transport.value);
      LogGrows(c.live, Started(probe));
      var c' := c.(live := c.live.(probe := Some(probe), next := c.live.next + 1,
                                  log := c.live.log + [Started(probe)]));
      ProbeFailsOk(c', probe);
    }
  }

  /** The caller's side of the events, as opposed to what transport and timers do. */
  predicate ByCaller(e: Event) {
    e.CallConnect? || e.CallEnsureConnected? || e.CallClose? || e.CallSetReconnectEnabled? || e.CallRequest?
    || e.CallWaitFor? || e.CallMeasureLatency? || e.Cancel?
  }

  lemma CallKeepsInv(c: Client, e: Event)
    requires Inv(c) && Enabled(c, e) && ByCaller(e)
    ensures Inv(Step(c, e))
  {
    hide WaitersOk, SendsOk, LivenessOk, DelaysOk, Connect, EnsureConnected, Close, SendRequest, SendPing;
    hide AddWaiter, CancelWaiter;
    match e
    case CallConnect(opening) => ConnectOk(c, opening);
    case CallEnsureConnected(opening) => EnsureConnectedOk(c, opening);
    case CallClose => CloseOk(c);
    case CallSetReconnectEnabled(_) =>
    case CallRequest(r, kind, select, timed, message, sent) => RequestOk(c, r, kind, select, timed, message, sent);
    case CallWaitFor(accepts, timed) => AddKeeps(c.waiters, None, accepts, timed);
    case CallMeasureLatency(sent) => SendPingOk(c, false, sent);
    case Cancel(id) => CancelKeeps(c.waiters, id);
  }

  lemma CallbackKeepsInv(c: Client, e: Event)
    requires Inv(c) && Enabled(c, e) && !ByCaller(e)
    ensures Inv(Step(c, e))
  {
    hide WaitersOk, SendsOk, LivenessOk, DelaysOk, ScheduleReconnect, AttemptConnect;
    hide SendPing, ProbeFails, FrameArrives, TimeoutWaiter, DisposeTransport;
    match e
    case OnOpen(_) => ScheduleReconnectOk(c.(conn := c.conn.(errorTimer := false)));
    case OnClose => ScheduleReconnectOk(c.(conn := c.conn.(connectTimer := false, errorTimer := false)));
    case OnError(_) => ScheduleReconnectOk(c.(conn := c.conn.(connectTimer := false, errorTimer := false)));
    case OnFrame(frame, accepted) => FrameOk(c, frame, accepted);
    case ReconnectTimer(opening) => AttemptConnectOk(c.(conn := c.conn.(reconnectTimer := None)), opening);
    case ConnectTimer => ReconnectWithout(c);
    case ErrorTimer => ScheduleReconnectOk(c.(conn := c.conn.(errorTimer := false)));
    case WaiterTimer(id) => TimeoutKeeps(c.waiters, id);
    case SendTimer(id) => TimeoutSendKeeps(c.sends, id);
    case PingTimer => ProbeFailsOk(c, c.live.probe.value);
    case HeartbeatTimer(sent) => SendPingOk(c.(live := c.live.(heartbeat := false)), true, sent);
    case HeartbeatSettled =>
  }

  /** Every step keeps the invariant. */
  lemma {:induction false} StepKeepsInv(c: Client, e: Event)
    requires Inv(c) && Enabled(c, e)
    ensures Inv(Step(c, e))
  {
    hide Inv, Enabled, Step;
    if ByCaller(e) {
      CallKeepsInv(c, e);
    } else {
      CallbackKeepsInv(c, e);
    }
  }

  lemma {:induction false} RunKeepsInv(c: Client, events: seq<Event>)
    requires Inv(c)
    ensures Inv(Run(c, events))
    decreases |events|
  {
    if events != [] {
      if Enabled(c, events[0]) {
        StepKeepsInv(c, events[0]);
        RunKeepsInv(Step(c, events[0]), events[1..]);
      } else {
        RunKeepsInv(c, events[1..]);
      }
    }
  }

  /** The client after the first `n` events of a run. */
  function After(c: Client, events: seq<Event>, n: nat): Client
    requires n <= |events|
  {
    Run(c, events[..n])
  }

  lemma {:induction false} RunNext(c: Client, events: seq<Event>, e: Event)
    ensures var before := Run(c, events);
            Run(c, events + [e]) == if Enabled(before, e) then Step(before, e) else before
    decreases |events|
  {
    hide Enabled, Step;
    if events == [] {
      assert [] + [e] == [e] && [e][1..] == [];
    } else {
      assert (events + [e])[1..] == events[1..] + [e];
      RunNext(if Enabled(c, events[0]) then Step(c, events[0]) else c, events[1..], e);
    }
  }

  lemma {:induction false} AfterNext(c: Client, events: seq<Event>, n: nat)
    requires n < |events|
    ensures var before, e := After(c, events, n), events[n];
            After(c, events, n + 1) == if Enabled(before, e) then Step(before, e) else before
  {
    assert events[..n + 1] == events[..n] + [events[n]];
    RunNext(c, events[..n], events[n]);
  }

  lemma {:induction false} AfterEnds(c: Client, events: seq<Event>)
    ensures After(c, events, 0) == c && After(c, events, |events|) == Run(c, events)
  {
    assert events[..0] == [] && events[..|events|] == events;
  }

  // ---------------------------------------------------------------------------------------------
  // Requests and queued messages end exactly once

  /** Over every run, each waiter ever made is either in the set, unsettled, with its timer armed iff it is timed, or
      out of the set, settled by exactly one call, with no timer armed. */
  lemma WaitersSettleExactlyOnce(baseDelay: nat, maxDelay: nat, enabled: bool, events: seq<Event>, id: nat)
    requires id < Run(NewClient(baseDelay, maxDelay, enabled), events).waiters.next
    ensures var t := Run(NewClient(baseDelay, maxDelay, enabled), events).waiters;
            var calls := multiset(SettledIds(t.settlements))[id];
            if id in Ids(t.waiters) then
              calls == 0 && forall i | 0 <= i < |t.waiters| && t.waiters[i].id == id ::
                            id in t.timers <==> t.waiters[i].timed
            else calls == 1 && id !in t.timers
  {
    var c := NewClient(baseDelay, maxDelay, enabled);
    InitialInv(baseDelay, maxDelay, enabled);
    RunKeepsInv(c, events);
    var t := Run(c, events).waiters;
    ExactlyOnce(Ids(t.waiters), SettledIds(t.settlements), t.next, id);
    assert multiset(Ids(t.waiters))[id] + multiset(SettledIds(t.settlements))[id] == 1;
  }

  /** Over every run, each queued message is still waiting, was sent once or was refused once; it waits only while a
      connection is being made; and what was sent went out in queue order, on the connection it waited for. */
  lemma SendsEndExactlyOnce(baseDelay: nat, maxDelay: nat, enabled: bool, events: seq<Event>)
    ensures var c := Run(NewClient(baseDelay, maxDelay, enabled), events);
            var s := c.sends;
            && (forall id: nat | id < s.next ::
                  multiset(SendIds(s.queue))[id] + multiset(OutcomeIds(s.outcomes))[id] == 1)
            && (s.queue != [] ==> c.conn.status == Connecting)
            && (forall i | 0 <= i < |s.queue| :: c.conn.transport == Some(s.queue[i].connection))
            && (forall id: nat :: id in s.timers <==> id in SendIds(s.queue))
            && SentInOrder(s.outcomes, s.next)
  {
    InitialInv(baseDelay, maxDelay, enabled);
    RunKeepsInv(NewClient(baseDelay, maxDelay, enabled), events);
    var s := Run(NewClient(baseDelay, maxDelay, enabled), events).sends;
    if s.queue != [] {
      assert SendIds(s.queue)[0] < s.next;
    }
  }

  // ---------------------------------------------------------------------------------------------
  // Disposal

  /** After `close` the client stays disposed: no transport, no timer and no attempt ever again. */
  lemma {:induction false} DisposedIsAbsorbing(c: Client, events: seq<Event>)
    requires c.conn.status == Disposed && c.conn.transport.None? && c.conn.reconnectTimer.None?
    ensures var k := Run(c, events).conn;
            k.status == Disposed && k.transport.None? && k.reconnectTimer.None?
            && k.nextTransport == c.conn.nextTransport
    decreases |events|
  {
    if events != [] {
      if Enabled(c, events[0]) {
        DisposedStep(c, events[0]);
        DisposedIsAbsorbing(Step(c, events[0]), events[1..]);
      } else {
        DisposedIsAbsorbing(c, events[1..]);
      }
    }
  }

  lemma DisposedStep(c: Client, e: Event)
    requires c.conn.status == Disposed && c.conn.transport.None? && c.conn.reconnectTimer.None? && Enabled(c, e)
    ensures var k := Step(c, e).conn;
            k.status == Disposed && k.transport.None? && k.reconnectTimer.None?
            && k.nextTransport == c.conn.nextTransport
  {
    hide ResolveWaiters, RejectWaitersFor, ClearWaiters, AddWaiter, TimeoutWaiter, CancelWaiter;
    hide Flush, RejectQueue, Enqueue, TimeoutSend, Delay, SawFrame;
    match e
    case OnFrame(_, _) =>
    case PingTimer =>
    case _ =>
  }

  /** Closing, from any reachable state, ends everything that was waiting. */
  lemma CloseEndsEverything(c: Client)
    requires Inv(c) && c.conn.status != Disposed
    ensures var d := Close(c);
            && d.conn.status == Disposed && d.conn.transport.None?
            && d.conn.reconnectTimer.None? && !d.conn.connectTimer && !d.conn.errorTimer
            && d.waiters.waiters == [] && d.waiters.timers == {}
            && d.sends.queue == [] && d.sends.timers == {}
            && d.live.probe.None? && !d.live.heartbeat
  {
    CloseOk(c);
    ClearOk(c.waiters);
    assert IdSet([]) == {};
    assert SendIds([]) == [];
  }
}
