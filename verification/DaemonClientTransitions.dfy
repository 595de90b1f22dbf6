/** Where each event takes the connection, its timers, the queued messages and the ping in flight. */
module DaemonClientTransitions {
  import opened Options
  import opened Ledger
  import opened DaemonClientModel
  import opened DaemonClientWaiters
  import opened DaemonClientLaws
  import opened DaemonClientEffects

  // ---------------------------------------------------------------------------------------------
  // Queued messages

  function RefusedAll(q: seq<PendingSend>): seq<SendOutcome> {
    seq(|q|, k requires 0 <= k < |q| => Refused(q[k].id))
  }

  /** Each message goes out on the transport if the transport takes it, and is refused if not. */
  function Delivery(q: seq<PendingSend>, transport: nat, accepted: SendResult): seq<SendOutcome> {
    seq(|q|, k requires 0 <= k < |q| => if accepted(q[k].id) then Sent(q[k], transport) else Refused(q[k].id))
  }

  /** Only a request made while connecting queues a message; only server info sends them, all in order; losing the
      connection refuses them all, a timeout refuses its own, and no other event touches them. */
  lemma {:induction false} SendsFollow(c: Client, e: Event)
    requires Inv(c) && Enabled(c, e)
    ensures var s, s' := c.sends, Step(c, e).sends;
            if Completes(c, e) then
              && s'.queue == [] && s'.timers == {} && s'.next == s.next
              && s'.outcomes == s.outcomes + Delivery(s.queue, c.conn.transport.value, e.accepted)
            else if Loses(c, e) then
              s'.queue == [] && s'.timers == {} && s'.next == s.next && s'.outcomes == s.outcomes + RefusedAll(s.queue)
            else if e.SendTimer? then
              && Ascending(SendIds(s'.queue)) && (forall p :: p in s'.queue <==> p in s.queue && p.id != e.id)
              && s'.timers == s.timers - {e.id} && s'.next == s.next && s'.outcomes == s.outcomes + [Refused(e.id)]
            else if e.CallRequest? && c.conn.status == Connecting then
              && s'.queue == s.queue + [PendingSend(s.next, e.message, c.conn.transport.value)]
              && s'.timers == s.timers + {s.next} && s'.next == s.next + 1 && s'.outcomes == s.outcomes
            else s' == s
  {
    hide Step, Inv, Loses, Completes;
    if Completes(c, e) {
      InfoSends(c, e);
    } else if Loses(c, e) {
      LosesClears(c, e);
      RejectsQueue(c);
    } else {
      OthersKeepSends(c, e);
      if e.SendTimer? {
        TimeoutTakesOne(c, e.id);
      }
    }
  }

  lemma {:induction false} InfoSends(c: Client, e: Event)
    requires Inv(c) && Completes(c, e)
    ensures var s, s' := c.sends, Step(c, e).sends;
            && s'.queue == [] && s'.timers == {} && s'.next == s.next
            && s'.outcomes == s.outcomes + Delivery(s.queue, c.conn.transport.value, e.accepted)
  {
    hide ResolveWaiters;
    QueueTimers(c);
    var s := c.sends;
    assert Step(c, e).sends == Flush(s, c.conn.transport, e.accepted);
  }

  lemma {:induction false} QueueTimers(c: Client)
    requires Inv(c)
    ensures c.sends.timers - (set id | id in SendIds(c.sends.queue)) == {}
  {
  }

  lemma {:induction false} RejectsQueue(c: Client)
    requires Inv(c)
    ensures var s' := RejectQueue(c.sends);
            && s'.queue == [] && s'.timers == {} && s'.next == c.sends.next
            && s'.outcomes == c.sends.outcomes + RefusedAll(c.sends.queue)
  {
    QueueTimers(c);
  }

  lemma {:induction false} OthersKeepSends(c: Client, e: Event)
    requires Inv(c) && Enabled(c, e) && !Completes(c, e) && !Loses(c, e)
    ensures var s, s' := c.sends, Step(c, e).sends;
            if e.SendTimer? then s' == TimeoutSend(s, e.id)
            else if e.CallRequest? && c.conn.status == Connecting then
              && s'.queue == s.queue + [PendingSend(s.next, e.message, c.conn.transport.value)]
              && s'.timers == s.timers + {s.next} && s'.next == s.next + 1 && s'.outcomes == s.outcomes
            else s' == s
  {
    hide WaitersOk, SendsOk, DelaysOk, TeardownsExact, AwaitsOnly;
    hide ClearWaiters, RejectQueue, LoseConnection, ResolveWaiters, RejectWaitersFor, CancelWaiter, TimeoutWaiter;
    hide TimeoutSend;
    match e
    case CallConnect(opening) =>
    case CallEnsureConnected(opening) =>
    case ReconnectTimer(opening) =>
    case PingTimer =>
    case HeartbeatTimer(_) =>
    case OnFrame(_, _) =>
    case CallRequest(_, _, _, _, _, _) =>
    case _ =>
  }

  lemma {:induction false} TimeoutTakesOne(c: Client, id: nat)
    requires Inv(c) && id in c.sends.timers
    ensures var s, s' := c.sends, TimeoutSend(c.sends, id);
            && Ascending(SendIds(s'.queue)) && (forall p :: p in s'.queue <==> p in s.queue && p.id != id)
            && s'.timers == s.timers - {id} && s'.next == s.next && s'.outcomes == s.outcomes + [Refused(id)]
  {
    var q := c.sends.queue;
    RemovedAscends(q, id);
    forall p ensures p in WithoutSend(q, id) <==> p in q && p.id != id {
      TakenOut(q, id, p);
    }
  }

  lemma {:induction false} TakenOut(q: seq<PendingSend>, id: nat, p: PendingSend)
    requires Ascending(SendIds(q))
    ensures p in WithoutSend(q, id) <==> p in q && p.id != id
  {
    if q != [] {
      assert SendIds(q)[1..] == SendIds(q[1..]);
      assert Ascending(SendIds(q[1..])) by {
        assert forall k | 0 <= k < |q| - 1 :: SendIds(q[1..])[k] == SendIds(q)[k + 1];
      }
      assert p in q <==> p == q[0] || p in q[1..];
      if q[0].id == id {
        if p in q[1..] {
          var k :| 0 <= k < |q[1..]| && q[1..][k] == p;
          assert SendIds(q)[0] < SendIds(q)[k + 1] == p.id;
        }
      } else {
        TakenOut(q[1..], id, p);
      }
    }
  }

  // ---------------------------------------------------------------------------------------------
  // The connection

  predicate MayAttempt(e: Event) {
    e.CallConnect? || e.CallEnsureConnected? || e.ReconnectTimer?
  }

  predicate MayPing(e: Event) {
    e.PingTimer? || e.HeartbeatTimer? || e.CallMeasureLatency?
  }

  /** What one attempt to open a transport does to all but the promise. */
  predicate Attempted(c: Client, opening: Opening, d: Client) {
    var k, k' := c.conn, d.conn;
    && k'.shouldReconnect == k.shouldReconnect && k'.reconnectEnabled == k.reconnectEnabled
    && d.live.failures == c.live.failures && d.live.log == c.live.log && d.live.next == c.live.next
    && if k.status in {Disposed, Connecting} || !k.shouldReconnect then
         && k'.status == k.status && k'.transport == k.transport && k'.nextTransport == k.nextTransport
         && k'.connectTimer == k.connectTimer && k'.errorTimer == k.errorTimer && k'.reconnectTimer == k.reconnectTimer
         && d.live == c.live
       else
         && !d.live.heartbeat && !k'.errorTimer && (k'.connectTimer <==> opening == Opens)
         && k'.nextTransport == k.nextTransport + (if opening == FactoryThrows then 0 else 1)
         && k'.transport == (if opening == FactoryThrows then None else Some(k.nextTransport))
         && k'.status == (if opening == Opens then Connecting else Disconnected)
         && d.live.probe == (if opening == Opens then c.live.probe else None)
         && (if opening == Opens then k'.reconnectTimer == k.reconnectTimer
             else (k'.reconnectTimer.Some? <==> k.reconnectEnabled))
  }

  lemma {:induction false} AttemptMoves(c: Client, opening: Opening)
    ensures Attempted(c, opening, AttemptConnect(c, opening))
  {
    hide ClearWaiters, RejectQueue, Delay;
  }

  /** The clients on which the calls and the timer make their attempts. */
  lemma {:induction false} AttemptedBy(c: Client, e: Event)
    requires MayAttempt(e)
    ensures var k, o := c.conn, OpeningOf(e);
            var asked := c.(conn := k.(shouldReconnect := true, reconnectTimer := None));
            var promised := k.(shouldReconnect := true, connectCallbacks := Some(k.nextPromise),
                               nextPromise := k.nextPromise + 1);
            var cleared := c.(conn := k.(reconnectTimer := None));
            var fresh_, renewed := c.(conn := promised), c.(conn := promised.(reconnectTimer := None));
            && Attempted(asked, o, AttemptConnect(asked, o)) && Attempted(cleared, o, AttemptConnect(cleared, o))
            && Attempted(fresh_, o, AttemptConnect(fresh_, o)) && Attempted(renewed, o, AttemptConnect(renewed, o))
  {
    hide AttemptConnect, Attempted;
    forall d: Client ensures Attempted(d, OpeningOf(e), AttemptConnect(d, OpeningOf(e))) {
      AttemptMoves(d, OpeningOf(e));
    }
  }

  /** The connection moves in three ways only, each with its own events. */
  predicate StatusMoves(c: Client, e: Event, d: Client)
    requires Enabled(c, e)
  {
    && (var k, k' := c.conn, d.conn;
        if Dials(c, e) then
          k'.status == Connecting && k'.transport == Some(k.nextTransport) && k'.connectTimer && !k'.errorTimer
        else if Completes(c, e) then
          k'.status == Connected && k'.transport == k.transport && !k'.connectTimer && k'.errorTimer == k.errorTimer
        else if Loses(c, e) then
          k'.status == if e.CallClose? || k.status == Disposed then Disposed else Disconnected
        else k'.status == k.status && k'.transport == k.transport)
    && (d.conn.nextTransport
        == c.conn.nextTransport + if Attempts(c, e) && OpeningOf(e) != FactoryThrows then 1 else 0)
  }

  lemma {:induction false} StatusFollowsAttempts(c: Client, e: Event)
    requires Inv(c) && Enabled(c, e) && MayAttempt(e)
    ensures StatusMoves(c, e, Step(c, e))
  {
    hide AttemptConnect, WaitersOk, SendsOk, DelaysOk, TeardownsExact, AwaitsOnly;
    AttemptedBy(c, e);
    match e
    case CallConnect(_) =>
    case CallEnsureConnected(_) =>
    case ReconnectTimer(_) =>
  }

  lemma {:induction false} StatusFollowsPings(c: Client, e: Event)
    requires Inv(c) && Enabled(c, e) && MayPing(e)
    ensures StatusMoves(c, e, Step(c, e))
  {
    hide WaitersOk, SendsOk, DelaysOk, TeardownsExact, AwaitsOnly, Delay, AttemptConnect, Connect, EnsureConnected;
    hide ClearWaiters, RejectQueue, ResolveWaiters, RejectWaitersFor, CancelWaiter, TimeoutWaiter, TimeoutSend;
    hide Flush, Enqueue, AddWaiter, Streak;
  }

  lemma {:induction false} StatusFollowsOthers(c: Client, e: Event)
    requires Inv(c) && Enabled(c, e) && !MayAttempt(e) && !MayPing(e)
    ensures StatusMoves(c, e, Step(c, e))
  {
    hide WaitersOk, SendsOk, DelaysOk, TeardownsExact, AwaitsOnly, Delay, AttemptConnect, Connect, EnsureConnected;
    hide ClearWaiters, RejectQueue, ResolveWaiters, RejectWaitersFor, CancelWaiter, TimeoutWaiter, TimeoutSend;
    hide Flush, Enqueue, AddWaiter, Streak;
    hide ProbeFails, SendPing;
    match e
    case OnFrame(_, _) =>
    case CallRequest(_, _, _, _, _, _) =>
    case _ =>
  }

  lemma {:induction false} StatusFollows(c: Client, e: Event)
    requires Inv(c) && Enabled(c, e)
    ensures StatusMoves(c, e, Step(c, e))
  {
    if MayAttempt(e) {
      StatusFollowsAttempts(c, e);
    } else if MayPing(e) {
      StatusFollowsPings(c, e);
    } else {
      StatusFollowsOthers(c, e);
    }
  }

  /** Events that tear the old transport down first, as opposed to those that report its end. */
  predicate Disposes(c: Client, e: Event) {
    || Attempts(c, e) || LastStraw(c, e)
    || (e.CallClose? && c.conn.status != Disposed) || (e.ConnectTimer? && c.conn.status == Connecting)
  }

  /** A lost transport is forgotten if it was torn down and stays where it is if its end was reported; a torn down one
      takes the heartbeat and both of its timers along. */
  predicate TransportMoves(c: Client, e: Event, d: Client)
    requires Enabled(c, e)
  {
    var k := c.conn;
    && (Loses(c, e) ==>
          d.conn.transport == if Attempts(c, e) && OpeningOf(e) == HandlersThrow then Some(k.nextTransport)
                              else if Disposes(c, e) then None else k.transport)
    && (Disposes(c, e) ==>
          !d.live.heartbeat && !d.conn.errorTimer && (d.conn.connectTimer <==> Dials(c, e)))
  }

  lemma {:induction false} LostTransportAttempts(c: Client, e: Event)
    requires Inv(c) && Enabled(c, e) && MayAttempt(e)
    ensures TransportMoves(c, e, Step(c, e))
  {
    hide AttemptConnect, WaitersOk, SendsOk, DelaysOk, TeardownsExact, AwaitsOnly;
    AttemptedBy(c, e);
    match e
    case CallConnect(_) =>
    case CallEnsureConnected(_) =>
    case ReconnectTimer(_) =>
  }

  lemma {:induction false} LostTransportPings(c: Client, e: Event)
    requires Inv(c) && Enabled(c, e) && MayPing(e)
    ensures TransportMoves(c, e, Step(c, e))
  {
    hide WaitersOk, SendsOk, DelaysOk, TeardownsExact, AwaitsOnly, Delay, AttemptConnect, Connect, EnsureConnected;
    hide ClearWaiters, RejectQueue, ResolveWaiters, RejectWaitersFor, CancelWaiter, TimeoutWaiter, TimeoutSend;
    hide Flush, Enqueue, AddWaiter, Streak;
  }

  lemma {:induction false} LostTransportOthers(c: Client, e: Event)
    requires Inv(c) && Enabled(c, e) && !MayAttempt(e) && !MayPing(e)
    ensures TransportMoves(c, e, Step(c, e))
  {
    hide WaitersOk, SendsOk, DelaysOk, TeardownsExact, AwaitsOnly, Delay, AttemptConnect, Connect, EnsureConnected;
    hide ClearWaiters, RejectQueue, ResolveWaiters, RejectWaitersFor, CancelWaiter, TimeoutWaiter, TimeoutSend;
    hide Flush, Enqueue, AddWaiter, Streak;
    hide ProbeFails, SendPing;
    match e
    case OnFrame(_, _) =>
    case CallRequest(_, _, _, _, _, _) =>
    case _ =>
  }

  lemma {:induction false} LostTransport(c: Client, e: Event)
    requires Inv(c) && Enabled(c, e)
    ensures TransportMoves(c, e, Step(c, e))
  {
    if MayAttempt(e) {
      LostTransportAttempts(c, e);
    } else if MayPing(e) {
      LostTransportPings(c, e);
    } else {
      LostTransportOthers(c, e);
    }
  }

  /** The timers of a transport that is not torn down: an open, a close or an error ends the grace period, an error
      without details starts it, and a close or any error ends the connect timeout. */
  predicate TimersMove(c: Client, e: Event, d: Client)
    requires Enabled(c, e)
  {
    var k, k' := c.conn, d.conn;
    && (k'.connectTimer <==> k.connectTimer && !(e.OnClose? || e.OnError? || e.ConnectTimer? || Completes(c, e)))
    && (k'.errorTimer <==>
        e == OnError(false)
        || (k.errorTimer && !(e.OnOpen? || e.OnClose? || e.OnError? || e.ErrorTimer?)))
    && (d.live.heartbeat <==>
        Completes(c, e) || (e.HeartbeatSettled? && k.status == Connected)
        || (c.live.heartbeat && !e.HeartbeatTimer?))
  }

  lemma {:induction false} TransportTimersAttempts(c: Client, e: Event)
    requires Inv(c) && Enabled(c, e) && !Disposes(c, e) && MayAttempt(e)
    ensures TimersMove(c, e, Step(c, e))
  {
    hide AttemptConnect, WaitersOk, SendsOk, DelaysOk, TeardownsExact, AwaitsOnly;
    AttemptedBy(c, e);
    match e
    case CallConnect(_) =>
    case CallEnsureConnected(_) =>
    case ReconnectTimer(_) =>
  }

  lemma {:induction false} TransportTimersPings(c: Client, e: Event)
    requires Inv(c) && Enabled(c, e) && !Disposes(c, e) && MayPing(e)
    ensures TimersMove(c, e, Step(c, e))
  {
    hide WaitersOk, SendsOk, DelaysOk, TeardownsExact, AwaitsOnly, Delay, AttemptConnect, Connect, EnsureConnected;
    hide ClearWaiters, RejectQueue, ResolveWaiters, RejectWaitersFor, CancelWaiter, TimeoutWaiter, TimeoutSend;
    hide Flush, Enqueue, AddWaiter, Streak;
  }

  lemma {:induction false} TransportTimersOthers(c: Client, e: Event)
    requires Inv(c) && Enabled(c, e) && !Disposes(c, e) && !MayAttempt(e) && !MayPing(e)
    ensures TimersMove(c, e, Step(c, e))
  {
    hide WaitersOk, SendsOk, DelaysOk, TeardownsExact, AwaitsOnly, Delay, AttemptConnect, Connect, EnsureConnected;
    hide ClearWaiters, RejectQueue, ResolveWaiters, RejectWaitersFor, CancelWaiter, TimeoutWaiter, TimeoutSend;
    hide Flush, Enqueue, AddWaiter, Streak;
    hide ProbeFails, SendPing;
    match e
    case OnFrame(_, _) =>
    case CallRequest(_, _, _, _, _, _) =>
    case _ =>
  }

  lemma {:induction false} TransportTimers(c: Client, e: Event)
    requires Inv(c) && Enabled(c, e) && !Disposes(c, e)
    ensures TimersMove(c, e, Step(c, e))
  {
    if MayAttempt(e) {
      TransportTimersAttempts(c, e);
    } else if MayPing(e) {
      TransportTimersPings(c, e);
    } else {
      TransportTimersOthers(c, e);
    }
  }

  /** A call that asks for a connection. */
  predicate Asks(c: Client, e: Event) {
    || (e.CallConnect? && c.conn.status !in {Disposed, Connected} && c.conn.connectPromise.None?)
    || (e.CallEnsureConnected? && c.conn.status != Disposed)
  }

  /** Reconnecting is wanted from a call that asks for a connection until the client is closed, and enabled as last set;
      a lost connection arms the timer iff both hold; a call of `ensureConnected`, the timer itself, switching off and
      closing clear it. */
  predicate ReconnectMoves(c: Client, e: Event, d: Client)
    requires Enabled(c, e)
  {
    var k, k' := c.conn, d.conn;
    && (k'.shouldReconnect <==> Asks(c, e) || (k.shouldReconnect && !(e.CallClose? && k.status != Disposed)))
    && k'.reconnectEnabled == (if e.CallSetReconnectEnabled? then e.enabled else k.reconnectEnabled)
    && (Loses(c, e) ==>
          (k'.reconnectTimer.Some? <==> k'.status == Disconnected && k'.shouldReconnect && k'.reconnectEnabled))
    && (!Loses(c, e) ==>
          k'.reconnectTimer
          == if || e.ReconnectTimer? || e == CallSetReconnectEnabled(false)
                || (e.CallEnsureConnected? && k.status in {Idle, Disconnected})
             then None else k.reconnectTimer)
  }

  lemma {:induction false} ReconnectFollowsAttempts(c: Client, e: Event)
    requires Inv(c) && Enabled(c, e) && MayAttempt(e)
    ensures ReconnectMoves(c, e, Step(c, e))
  {
    hide AttemptConnect, WaitersOk, SendsOk, DelaysOk, TeardownsExact, AwaitsOnly;
    AttemptedBy(c, e);
    match e
    case CallConnect(_) =>
    case CallEnsureConnected(_) =>
    case ReconnectTimer(_) =>
  }

  lemma {:induction false} ReconnectFollowsPings(c: Client, e: Event)
    requires Inv(c) && Enabled(c, e) && MayPing(e)
    ensures ReconnectMoves(c, e, Step(c, e))
  {
    hide WaitersOk, SendsOk, DelaysOk, TeardownsExact, AwaitsOnly, Delay, AttemptConnect, Connect, EnsureConnected;
    hide ClearWaiters, RejectQueue, ResolveWaiters, RejectWaitersFor, CancelWaiter, TimeoutWaiter, TimeoutSend;
    hide Flush, Enqueue, AddWaiter, Streak;
  }

  lemma {:induction false} ReconnectFollowsOthers(c: Client, e: Event)
    requires Inv(c) && Enabled(c, e) && !MayAttempt(e) && !MayPing(e)
    ensures ReconnectMoves(c, e, Step(c, e))
  {
    hide WaitersOk, SendsOk, DelaysOk, TeardownsExact, AwaitsOnly, Delay, AttemptConnect, Connect, EnsureConnected;
    hide ClearWaiters, RejectQueue, ResolveWaiters, RejectWaitersFor, CancelWaiter, TimeoutWaiter, TimeoutSend;
    hide Flush, Enqueue, AddWaiter, Streak;
    hide ProbeFails, SendPing;
    match e
    case OnFrame(_, _) =>
    case CallRequest(_, _, _, _, _, _) =>
    case _ =>
  }

  lemma {:induction false} ReconnectFollows(c: Client, e: Event)
    requires Inv(c) && Enabled(c, e)
    ensures ReconnectMoves(c, e, Step(c, e))
  {
    if MayAttempt(e) {
      ReconnectFollowsAttempts(c, e);
    } else if MayPing(e) {
      ReconnectFollowsPings(c, e);
    } else {
      ReconnectFollowsOthers(c, e);
    }
  }

  // ---------------------------------------------------------------------------------------------
  // The ping in flight

  predicate IsValidFrame(e: Event) {
    e.OnFrame? && !e.frame.Invalid?
  }

  predicate StartsPing(c: Client, e: Event) {
    && (e.CallMeasureLatency? || e.HeartbeatTimer?)
    && c.conn.status == Connected && c.conn.transport.Some? && c.live.probe.None?
  }

  /** What becomes of a ping that fails: a heartbeat ping counts, and the second one in a row ends the connection. */
  function Failing(l: Liveness, p: Probe, log: seq<LivenessEvent>): Liveness {
    if !p.drives then l.(probe := None, log := log + [Failed(p)])
    else if l.failures == 0 then l.(probe := None, failures := 1, log := log + [Failed(p)])
    else l.(probe := None, failures := 0, heartbeat := false, log := log + [Failed(p)] + [Teardown])
  }

  /** One ping is in flight at a time; a pong answers it, its timer and a refused send fail it, losing the connection
      drops it, and only a valid frame forgives the failures before. */
  predicate PingMoves(c: Client, e: Event, d: Client)
    requires Enabled(c, e)
  {
    var l, l' := c.live, d.live;
        var p := Probe(l.next, e.HeartbeatTimer?, if c.conn.transport.Some? then c.conn.transport.value else 0);
        if StartsPing(c, e) then
          l' == if e.sent then l.(probe := Some(p), next := l.next + 1, log := l.log + [Started(p)],
                                  heartbeat := l.heartbeat && !p.drives)
                else Failing(l.(next := l.next + 1, heartbeat := l.heartbeat && !p.drives), p, l.log + [Started(p)])
        else if e.PingTimer? then l' == Failing(l, l.probe.value, l.log)
        else if IsValidFrame(e) then
          && l'.failures == 0 && l'.log == l.log + [FrameSeen] && l'.next == l.next
          && l'.probe == if e.frame.Pong? then None else l.probe
        else
          && l'.failures == l.failures && l'.log == l.log && l'.next == l.next
          && l'.probe == if Loses(c, e) then None else l.probe
  }

  lemma {:induction false} PingsFollowAttempts(c: Client, e: Event)
    requires Inv(c) && Enabled(c, e) && MayAttempt(e)
    ensures PingMoves(c, e, Step(c, e))
  {
    hide AttemptConnect, WaitersOk, SendsOk, DelaysOk, TeardownsExact, AwaitsOnly;
    AttemptedBy(c, e);
    match e
    case CallConnect(_) =>
    case CallEnsureConnected(_) =>
    case ReconnectTimer(_) =>
  }

  lemma {:induction false} PingsFollowPings(c: Client, e: Event)
    requires Inv(c) && Enabled(c, e) && MayPing(e)
    ensures PingMoves(c, e, Step(c, e))
  {
    hide WaitersOk, SendsOk, DelaysOk, TeardownsExact, AwaitsOnly, Delay, LoseConnection;
    hide ClearWaiters, RejectQueue, ResolveWaiters, RejectWaitersFor, CancelWaiter, TimeoutWaiter, TimeoutSend;
    hide Flush, Enqueue, AddWaiter;
  }

  lemma {:induction false} PingsFollowOthers(c: Client, e: Event)
    requires Inv(c) && Enabled(c, e) && !MayAttempt(e) && !MayPing(e)
    ensures PingMoves(c, e, Step(c, e))
  {
    hide WaitersOk, SendsOk, DelaysOk, TeardownsExact, AwaitsOnly, Delay, LoseConnection;
    hide ClearWaiters, RejectQueue, ResolveWaiters, RejectWaitersFor, CancelWaiter, TimeoutWaiter, TimeoutSend;
    hide Flush, Enqueue, AddWaiter;
    hide ProbeFails, SendPing;
    match e
    case OnFrame(_, _) =>
    case CallRequest(_, _, _, _, _, _) =>
    case _ =>
  }

  lemma {:induction false} PingsFollow(c: Client, e: Event)
    requires Inv(c) && Enabled(c, e)
    ensures PingMoves(c, e, Step(c, e))
  {
    if MayAttempt(e) {
      PingsFollowAttempts(c, e);
    } else if MayPing(e) {
      PingsFollowPings(c, e);
    } else {
      PingsFollowOthers(c, e);
    }
  }

  // ---------------------------------------------------------------------------------------------
  // The connect promise

  /** The call makes a new promise. */
  predicate Promises(c: Client, e: Event) {
    && c.conn.connectPromise.None?
    && ((e.CallConnect? && c.conn.status !in {Disposed, Connected})
        || (e.CallEnsureConnected? && c.conn.status in {Idle, Disconnected}))
  }

  /** A promise is stored by the call that makes it, even if the attempt has failed by then and its callbacks are gone;
      coming up, a failed attempt, closing, and a loss that is not to be followed by a reconnect end both. */
  predicate PromiseMoves(c: Client, e: Event, d: Client) {
    var k, k' := c.conn, d.conn;
    var failed := Attempts(c, e) && OpeningOf(e) != Opens;
    && k'.nextPromise == k.nextPromise + (if Promises(c, e) then 1 else 0)
    && (if Promises(c, e) then
          && k'.connectPromise == Some(k.nextPromise)
          && k'.connectCallbacks == if failed then None else Some(k.nextPromise)
        else if || failed || Completes(c, e) || (e.CallClose? && k.status != Disposed)
                || (Loses(c, e) && k'.reconnectTimer.None?) then
          k'.connectPromise.None? && k'.connectCallbacks.None?
        else k'.connectPromise == k.connectPromise && k'.connectCallbacks == k.connectCallbacks)
  }

  lemma {:induction false} AttemptEndsPromise(c: Client, opening: Opening)
    ensures var k, k' := c.conn, AttemptConnect(c, opening).conn;
            && k'.nextPromise == k.nextPromise
            && if || k.status == Disposed || !k.shouldReconnect || (k.status != Connecting && opening != Opens)
               then k'.connectPromise.None? && k'.connectCallbacks.None?
               else k'.connectPromise == k.connectPromise && k'.connectCallbacks == k.connectCallbacks
  {
    hide ClearWaiters, RejectQueue, Delay;
  }

  lemma {:induction false} PromiseFollowsAttempts(c: Client, e: Event)
    requires Inv(c) && Enabled(c, e) && MayAttempt(e)
    ensures PromiseMoves(c, e, Step(c, e))
  {
    hide AttemptConnect, WaitersOk, SendsOk, DelaysOk, TeardownsExact, AwaitsOnly;
    forall d: Client, opening: Opening
      ensures var k, k' := d.conn, AttemptConnect(d, opening).conn;
              && k'.nextPromise == k.nextPromise
              && if || k.status == Disposed || !k.shouldReconnect || (k.status != Connecting && opening != Opens)
                 then k'.connectPromise.None? && k'.connectCallbacks.None?
                 else k'.connectPromise == k.connectPromise && k'.connectCallbacks == k.connectCallbacks
    {
      AttemptEndsPromise(d, opening);
    }
    match e
    case CallConnect(_) =>
    case CallEnsureConnected(_) =>
    case ReconnectTimer(_) =>
  }

  lemma {:induction false} PromiseFollowsPings(c: Client, e: Event)
    requires Inv(c) && Enabled(c, e) && MayPing(e)
    ensures PromiseMoves(c, e, Step(c, e))
  {
    hide WaitersOk, SendsOk, DelaysOk, TeardownsExact, AwaitsOnly, Delay, ClearWaiters, RejectQueue, Streak;
  }

  lemma {:induction false} PromiseFollowsOthers(c: Client, e: Event)
    requires Inv(c) && Enabled(c, e) && !MayAttempt(e) && !MayPing(e)
    ensures PromiseMoves(c, e, Step(c, e))
  {
    hide WaitersOk, SendsOk, DelaysOk, TeardownsExact, AwaitsOnly, Delay, AttemptConnect, Connect, EnsureConnected;
    hide ClearWaiters, RejectQueue, ResolveWaiters, RejectWaitersFor, CancelWaiter, TimeoutWaiter, TimeoutSend;
    hide Flush, Enqueue, AddWaiter, Streak, ProbeFails, SendPing;
    match e
    case OnFrame(_, _) =>
    case CallRequest(_, _, _, _, _, _) =>
    case _ =>
  }

  lemma {:induction false} PromiseFollows(c: Client, e: Event)
    requires Inv(c) && Enabled(c, e)
    ensures PromiseMoves(c, e, Step(c, e))
  {
    if MayAttempt(e) {
      PromiseFollowsAttempts(c, e);
    } else if MayPing(e) {
      PromiseFollowsPings(c, e);
    } else {
      PromiseFollowsOthers(c, e);
    }
  }

  /** `connect()` does nothing iff the client is disposed, connected, or has a promise stored; and after a `connect()`
      whose attempt failed at once there is one, whose callbacks are gone, so that calling again does nothing. */
  lemma {:induction false} FailedConnectBlocksConnect(c: Client, opening: Opening, again: Opening)
    requires Inv(c)
    ensures Step(c, CallConnect(opening)) == c
            <==> c.conn.status in {Disposed, Connected} || c.conn.connectPromise.Some?
    ensures Attempts(c, CallConnect(opening)) && opening != Opens ==>
              var d := Step(c, CallConnect(opening));
              && d.conn.connectPromise.Some? && d.conn.connectCallbacks.None?
              && Step(d, CallConnect(again)) == d
  {
    hide AttemptConnect, Inv;
    PromiseFollows(c, CallConnect(opening));
  }

  // ---------------------------------------------------------------------------------------------
  // From a call to its answer

  lemma {:induction false} NothingQueued(c: Client)
    requires Inv(c) && c.conn.status != Connecting
    ensures c.sends.queue == []
  {
  }

  /** A client that is down connects, says hello, queues a request meanwhile, comes up with server info, sends the
      request on the transport it opened, and hands the answer to the one who asked. */
  lemma {:induction false} AskedAndAnswered(
    c: Client, requestId: string, kind: string, select: Message -> bool, timed: bool, message: string,
    accepted: SendResult, answer: Message, later: SendResult)
    requires Inv(c) && Attempts(c, CallConnect(Opens))
    requires accepted(c.sends.next) && Answers(answer, requestId, kind, select)
    ensures var c1 := Step(c, CallConnect(Opens));
            var c2 := Step(c1, OnOpen(true));
            var c3 := Step(c2, CallRequest(requestId, kind, select, timed, message, false));
            var c4 := Step(c3, OnFrame(Session(ServerInfo), accepted));
            var c5 := Step(c4, OnFrame(Session(answer), later));
            && c1.conn.status == Connecting && c2.conn.status == Connecting
            && c5.conn.status == Connected && c5.conn.transport == Some(c.conn.nextTransport) && c5.live.heartbeat
            && c5.sends.outcomes
               == c.sends.outcomes
                  + [Sent(PendingSend(c.sends.next, message, c.conn.nextTransport), c.conn.nextTransport)]
            && c5.sends.queue == []
            && Resolved(c.waiters.next, answer) in c5.waiters.settlements
            && c.waiters.next !in c5.waiters.timers
  {
    var e1, e2 := CallConnect(Opens), OnOpen(true);
    var e3 := CallRequest(requestId, kind, select, timed, message, false);
    var e4, e5 := OnFrame(Session(ServerInfo), accepted), OnFrame(Session(answer), later);
    var c1 := Step(c, e1);
    var c2 := Step(c1, e2);
    var c3 := Step(c2, e3);
    var c4 := Step(c3, e4);
    var c5 := Step(c4, e5);
    ComesUp(c);
    hide Step, Inv, WaitersMove, PingMoves, StatusMoves;
    SendsOnceUp(c2, e3, e4, e5);
    AnsweredAtOnce(c2, requestId, kind, select, timed, message, accepted, answer, later);
  }

  lemma {:induction false} ComesUp(c: Client)
    requires Inv(c) && Attempts(c, CallConnect(Opens))
    ensures var c1 := Step(c, CallConnect(Opens));
            var c2 := Step(c1, OnOpen(true));
            && c1.conn.status == Connecting && c2.conn.status == Connecting
            && c2.conn.transport == Some(c.conn.nextTransport)
            && Inv(c2) && c2.sends.queue == [] && c2.sends.outcomes == c.sends.outcomes && c2.sends.next == c.sends.next
            && c2.waiters == c.waiters
  {
    var e1, e2 := CallConnect(Opens), OnOpen(true);
    var c1 := Step(c, e1);
    NothingQueued(c);
    hide Step, Inv, WaitersMove, PingMoves;
    Follows(c, e1);
    Follows(c1, e2);
    WaitersKeep(c, e1);
    WaitersKeep(c1, e2);
  }

  lemma {:induction false} RequestQueues(c: Client, e: Event)
    requires Inv(c) && c.conn.status == Connecting && c.sends.queue == [] && e.CallRequest?
    ensures var d, t := Step(c, e), c.conn.transport.value;
            && Inv(d) && d.conn.status == Connecting && d.conn.transport == c.conn.transport
            && d.sends.queue == [PendingSend(c.sends.next, e.message, t)] && d.sends.outcomes == c.sends.outcomes
  {
    assert c.conn.transport.Some?;
    hide Step, Inv, PingMoves;
    Follows(c, e);
    assert [] + [PendingSend(c.sends.next, e.message, c.conn.transport.value)]
        == [PendingSend(c.sends.next, e.message, c.conn.transport.value)];
  }

  lemma {:induction false} InfoBringsUp(c: Client, e: Event)
    requires Inv(c) && Completes(c, e)
    ensures var d, t := Step(c, e), c.conn.transport.value;
            && Inv(d) && d.conn.status == Connected && d.conn.transport == c.conn.transport && d.live.heartbeat
            && d.sends.queue == [] && d.sends.outcomes == c.sends.outcomes + Delivery(c.sends.queue, t, e.accepted)
  {
    hide Step, Inv, PingMoves, Delivery;
    Follows(c, e);
  }

  lemma {:induction false} MessageKeepsUp(c: Client, e: Event)
    requires Inv(c) && c.conn.status == Connected && e.OnFrame?
    ensures var d := Step(c, e);
            && d.conn.status == Connected && d.conn.transport == c.conn.transport
            && d.live.heartbeat == c.live.heartbeat
            && d.sends.queue == c.sends.queue && d.sends.outcomes == c.sends.outcomes
  {
    hide Step, Inv, PingMoves;
    Follows(c, e);
    assert c.sends.queue + [] == c.sends.queue;
  }

  lemma {:induction false} SendsOnceUp(c: Client, request: Event, info: Event, last: Event)
    requires Inv(c) && c.conn.status == Connecting && c.conn.transport.Some? && c.sends.queue == []
    requires request.CallRequest? && Completes(c, info) && info.accepted(c.sends.next)
    requires last.OnFrame? && last.frame.Session?
    ensures var c5 := Step(Step(Step(c, request), info), last);
            var t := c.conn.transport.value;
            && c5.conn.status == Connected && c5.conn.transport == c.conn.transport && c5.live.heartbeat
            && c5.sends.outcomes == c.sends.outcomes + [Sent(PendingSend(c.sends.next, request.message, t), t)]
            && c5.sends.queue == []
  {
    var t := c.conn.transport.value;
    var c3 := Step(c, request);
    var c4 := Step(c3, info);
    hide Step, Inv;
    RequestQueues(c, request);
    InfoBringsUp(c3, info);
    MessageKeepsUp(c4, last);
    assert Delivery(c3.sends.queue, t, info.accepted) == [Sent(PendingSend(c.sends.next, request.message, t), t)];
  }

  /** The laws above at one step. */
  lemma {:induction false} Follows(c: Client, e: Event)
    requires Inv(c) && Enabled(c, e)
    ensures Inv(Step(c, e)) && StatusMoves(c, e, Step(c, e)) && PingMoves(c, e, Step(c, e))
    ensures Completes(c, e) ==> Step(c, e).live.heartbeat
    ensures var s, s' := c.sends, Step(c, e).sends;
            && (Completes(c, e) ==>
                  s'.queue == [] && s'.outcomes == s.outcomes + Delivery(s.queue, c.conn.transport.value, e.accepted))
            && (!Completes(c, e) && !Loses(c, e) && !e.SendTimer? ==>
                  && s'.outcomes == s.outcomes
                  && s'.queue == s.queue + (if e.CallRequest? && c.conn.status == Connecting
                                            then [PendingSend(s.next, e.message, c.conn.transport.value)] else [])
                  && s'.next == s.next + if e.CallRequest? && c.conn.status == Connecting then 1 else 0)
    ensures e.OnFrame? && !Completes(c, e) ==> Step(c, e).live.heartbeat == c.live.heartbeat
  {
    StepKeepsInv(c, e);
    StatusFollows(c, e);
    PingsFollow(c, e);
    SendsFollow(c, e);
    if !Disposes(c, e) {
      TransportTimers(c, e);
    }
    assert c.sends.queue + [] == c.sends.queue;
  }

  lemma {:induction false} WaitersKeep(c: Client, e: Event)
    requires Inv(c) && Enabled(c, e) && !Loses(c, e) && (e.CallConnect? || e.OnOpen?)
    ensures Step(c, e).waiters == c.waiters
  {
    OthersLeaveWaiters(c, e);
  }

  lemma {:induction false} AnsweredAtOnce(
    c: Client, requestId: string, kind: string, select: Message -> bool, timed: bool, message: string,
    accepted: SendResult, answer: Message, later: SendResult)
    requires Inv(c) && c.conn.status == Connecting && Answers(answer, requestId, kind, select)
    ensures var c3 := Step(c, CallRequest(requestId, kind, select, timed, message, false));
            var c5 := Step(Step(c3, OnFrame(Session(ServerInfo), accepted)), OnFrame(Session(answer), later));
            Resolved(c.waiters.next, answer) in c5.waiters.settlements && c.waiters.next !in c5.waiters.timers
  {
    var info, last := OnFrame(Session(ServerInfo), accepted), OnFrame(Session(answer), later);
    var c3 := Step(c, CallRequest(requestId, kind, select, timed, message, false));
    RequestJoins(c, requestId, kind, select, timed, message, false);
    assert Ids(c3.waiters.waiters)[|c.waiters.waiters|] == c.waiters.next;
    hide Inv, SettlesExactly;
    assert Run(c3, []) == c3 && Run(c3, [info]) == Step(c3, info) by {
      hide Step;
      assert [info][1..] == [];
    }
    hide Step;
    RequestIsAnswered(c, requestId, kind, select, timed, message, false, [], info, ServerInfo);
    RequestIsAnswered(c, requestId, kind, select, timed, message, false, [info], last, answer);
  }
}
