/** The daemon client as the object it is: fields updated by its methods, each proved to take one step of the model. */
module DaemonClient {
  import opened Options
  import opened Ledger
  import opened DaemonClientModel
  import opened DaemonClientWaiters
  import opened DaemonClientLaws

  // ---------------------------------------------------------------------------------------------
  // One round of a loop over a snapshot of the waiter set

  lemma {:induction false} ShareNext(ws: seq<Waiter>, w: Waiter, sel: Waiter -> bool)
    ensures Chosen(ws + [w], sel) == Chosen(ws, sel) + if sel(w) then [w] else []
    ensures Kept(ws + [w], sel) == Kept(ws, sel) + if sel(w) then [] else [w]
  {
    if ws == [] {
      assert [] + [w] == [w] && [w][1..] == [];
    } else {
      assert (ws + [w])[1..] == ws[1..] + [w];
      ShareNext(ws[1..], w, sel);
      Regroup(if sel(ws[0]) then [ws[0]] else [], Chosen(ws[1..], sel), if sel(w) then [w] else []);
      Regroup(if sel(ws[0]) then [] else [ws[0]], Kept(ws[1..], sel), if sel(w) then [] else [w]);
    }
  }

  lemma Regroup(a: seq<Waiter>, b: seq<Waiter>, c: seq<Waiter>)
    ensures a + (b + c) == a + b + c
  {
  }

  lemma {:induction false} KeepsOthers(ws: seq<Waiter>, id: nat)
    requires forall w | w in ws :: w.id != id
    ensures Kept(ws, WithId(id)) == ws
  {
    if ws != [] {
      assert forall w | w in ws[1..] :: w in ws;
      assert ws[0] in ws;
      KeepsOthers(ws[1..], id);
    }
  }

  lemma {:induction false} KeptConcat(a: seq<Waiter>, b: seq<Waiter>, sel: Waiter -> bool)
    ensures Kept(a + b, sel) == Kept(a, sel) + Kept(b, sel)
  {
    if a == [] {
      assert a + b == b;
    } else {
      assert (a + b)[1..] == a[1..] + b;
      KeptConcat(a[1..], b, sel);
    }
  }

  /** Deleting waiter `i` from what a loop has left so far. */
  lemma DeleteCurrent(all: seq<Waiter>, sel: Waiter -> bool, i: nat)
    requires Ascending(Ids(all)) && i < |all|
    ensures Kept(Kept(all[..i], sel) + all[i..], WithId(all[i].id)) == Kept(all[..i], sel) + all[i + 1..]
  {
    var id, done := all[i].id, Kept(all[..i], sel);
    forall w | w in done ensures w.id != id {
      Members(all[..i], sel, w);
      var j :| 0 <= j < i && all[j] == w;
      assert Ids(all)[j] < Ids(all)[i];
    }
    forall w | w in all[i + 1..] ensures w.id != id {
      var j :| i < j < |all| && all[j] == w;
      assert Ids(all)[i] < Ids(all)[j];
    }
    KeepsOthers(done, id);
    KeepsOthers(all[i + 1..], id);
    KeptConcat(done, all[i..], WithId(id));
    assert all[i..][1..] == all[i + 1..];
    assert [] + all[i + 1..] == all[i + 1..];
  }

  lemma SettledNext(out: seq<Waiter>, w: Waiter, how: nat -> Settlement)
    ensures Settlements(out + [w], how) == Settlements(out, how) + [how(w.id)]
    ensures IdSet(out + [w]) == IdSet(out) + {w.id}
  {
    assert Ids(out + [w]) == Ids(out) + [w.id];
  }

  /** The waiter table after the first `i` rounds of a settling loop. */
  function Partway(t: WaiterTable, sel: Waiter -> bool, how: nat -> Settlement, i: nat): WaiterTable
    requires i <= |t.waiters|
  {
    Settle(t.(waiters := t.waiters[..i]), sel, how).(waiters := Kept(t.waiters[..i], sel) + t.waiters[i..])
  }

  lemma PartwayEnds(t: WaiterTable, sel: Waiter -> bool, how: nat -> Settlement)
    ensures Partway(t, sel, how, 0) == t
    ensures Partway(t, sel, how, |t.waiters|) == Settle(t, sel, how)
  {
    assert t.waiters[..|t.waiters|] == t.waiters && t.waiters[|t.waiters|..] == [];
    assert Kept(t.waiters, sel) + [] == Kept(t.waiters, sel);
    assert t.waiters[..0] == [] && Ids([]) == [];
  }

  lemma PartwayNext(t: WaiterTable, sel: Waiter -> bool, how: nat -> Settlement, i: nat)
    requires Ascending(Ids(t.waiters)) && i < |t.waiters|
    ensures var w, p := t.waiters[i], Partway(t, sel, how, i);
            Partway(t, sel, how, i + 1)
            == if sel(w) then p.(waiters := Kept(p.waiters, WithId(w.id)), timers := p.timers - {w.id},
                                 settlements := p.settlements + [how(w.id)])
               else p
  {
    hide Kept, Chosen, Settlements, IdSet;
    var w := t.waiters[i];
    assert t.waiters[..i + 1] == t.waiters[..i] + [w];
    ShareNext(t.waiters[..i], w, sel);
    DeleteCurrent(t.waiters, sel, i);
    SettledNext(Chosen(t.waiters[..i], sel), w, how);
    assert t.waiters[i..] == [w] + t.waiters[i + 1..];
    var kept, out := Kept(t.waiters[..i], sel), Chosen(t.waiters[..i], sel);
    if sel(w) {
      assert Kept(t.waiters[..i + 1], sel) == kept && Chosen(t.waiters[..i + 1], sel) == out + [w];
      assert t.timers - (IdSet(out) + {w.id}) == t.timers - IdSet(out) - {w.id};
    } else {
      assert Kept(t.waiters[..i + 1], sel) == kept + [w] && Chosen(t.waiters[..i + 1], sel) == out;
      assert kept + [w] + t.waiters[i + 1..] == kept + t.waiters[i..];
    }
  }

  /** One more queued message flushed. */
  lemma FlushNext(s: SendQueue, transport: Option<nat>, accepted: SendResult, i: nat)
    requires i < |s.queue|
    ensures var part := Flush(s.(queue := s.queue[..i]), transport, accepted);
            Flush(s.(queue := s.queue[..i + 1]), transport, accepted)
            == part.(timers := part.timers - {s.queue[i].id},
                     outcomes := part.outcomes + [FlushOutcome(s.queue[i], transport, accepted)])
  {
    assert SendIds(s.queue[..i + 1]) == SendIds(s.queue[..i]) + [s.queue[i].id];
  }

  class DaemonClient {
    var status: Status
    var transport: Option<nat>
    var nextTransport: nat
    var reconnectTimeout: Option<nat>
    var connectTimeout: bool
    var pendingGenericTransportErrorTimeout: bool
    var reconnectAttempt: nat
    var delays: seq<nat>
    const baseDelayMs: nat
    const maxDelayMs: nat
    var shouldReconnect: bool
    var reconnectEnabled: bool
    var connectPromise: Option<nat>
    var connectCallbacks: Option<nat>
    var nextPromise: nat

    var waiters: seq<Waiter>
    var waiterTimers: set<nat>
    var nextWaiter: nat
    var settlements: seq<Settlement>

    var pendingSendQueue: seq<PendingSend>
    var sendTimers: set<nat>
    var nextSend: nat
    var sendOutcomes: seq<SendOutcome>

    var pingProbe: Option<Probe>
    var livenessHeartbeatTimer: bool
    var consecutiveLivenessFailures: nat
    var nextProbe: nat
    var livenessLog: seq<LivenessEvent>

    ghost function Conn(): Connection
      reads this
    {
      Connection(status, transport, nextTransport, reconnectTimeout, connectTimeout,
                 pendingGenericTransportErrorTimeout, reconnectAttempt, delays, baseDelayMs, maxDelayMs,
                 shouldReconnect, reconnectEnabled, connectPromise, connectCallbacks, nextPromise)
    }

    ghost function Waiting(): WaiterTable
      reads this
    {
      WaiterTable(waiters, waiterTimers, nextWaiter, settlements)
    }

    ghost function Sends(): SendQueue
      reads this
    {
      SendQueue(pendingSendQueue, sendTimers, nextSend, sendOutcomes)
    }

    ghost function Live(): Liveness
      reads this
    {
      Liveness(pingProbe, livenessHeartbeatTimer, consecutiveLivenessFailures, nextProbe, livenessLog)
    }

    ghost function View(): Client
      reads this
    {
      Client(Conn(), Waiting(), Sends(), Live())
    }

    ghost predicate Valid()
      reads this
    {
      Inv(View())
    }

    lemma ValidAscends()
      requires Valid()
      ensures Ascending(Ids(Waiting().waiters))
    {
    }

    constructor (baseDelayMs: nat, maxDelayMs: nat, reconnectEnabled: bool)
      ensures Valid() && View() == NewClient(baseDelayMs, maxDelayMs, reconnectEnabled)
    {
      status, transport, nextTransport := Idle, None, 0;
      reconnectTimeout, connectTimeout, pendingGenericTransportErrorTimeout := None, false, false;
      reconnectAttempt, delays, shouldReconnect := 0, [], true;
      this.baseDelayMs, this.maxDelayMs, this.reconnectEnabled := baseDelayMs, maxDelayMs, reconnectEnabled;
      connectPromise, connectCallbacks, nextPromise := None, None, 0;
      waiters, waiterTimers, nextWaiter, settlements := [], {}, 0, [];
      pendingSendQueue, sendTimers, nextSend, sendOutcomes := [], {}, 0, [];
      pingProbe, livenessHeartbeatTimer, consecutiveLivenessFailures := None, false, 0;
      nextProbe, livenessLog := 0, [];
      new;
      InitialInv(baseDelayMs, maxDelayMs, reconnectEnabled);
    }

    // -------------------------------------------------------------------------------------------
    // Waiters

    method ResolveWaiters(msg: Message)
      requires Ascending(Ids(Waiting().waiters))
      modifies this`waiters, this`waiterTimers, this`settlements
      ensures View() == old(View()).(waiters := DaemonClientModel.ResolveWaiters(old(Waiting()), msg))
    {
      hide Settle, Partway;
      var all := waiters;
      ghost var sel, how := (w: Waiter) => w.accepts(msg), Resolution(msg);
      PartwayEnds(Waiting(), sel, how);
      for i := 0 to |all|
        invariant Waiting() == Partway(old(Waiting()), sel, how, i)
      {
        var waiter := all[i];
        PartwayNext(old(Waiting()), sel, how, i);
        if waiter.accepts(msg) {
          waiters := Kept(waiters, WithId(waiter.id));
          waiterTimers := waiterTimers - {waiter.id};
          settlements := settlements + [Resolved(waiter.id, msg)];
        }
      }
    }

    method RejectWaitersForRequestId(requestId: string)
      requires Ascending(Ids(Waiting().waiters))
      modifies this`waiters, this`waiterTimers, this`settlements
      ensures View() == old(View()).(waiters := RejectWaitersFor(old(Waiting()), requestId))
    {
      hide Settle, Partway;
      var all := waiters;
      ghost var sel := (w: Waiter) => w.requestId == Some(requestId);
      PartwayEnds(Waiting(), sel, Rejection());
      for i := 0 to |all|
        invariant Waiting() == Partway(old(Waiting()), sel, Rejection(), i)
      {
        var waiter := all[i];
        PartwayNext(old(Waiting()), sel, Rejection(), i);
        if waiter.requestId != Some(requestId) {
          continue;
        }
        waiters := Kept(waiters, WithId(waiter.id));
        waiterTimers := waiterTimers - {waiter.id};
        settlements := settlements + [Rejected(waiter.id)];
      }
    }

    method ClearWaiters()
      modifies this`waiters, this`waiterTimers, this`settlements
      ensures Waiting() == DaemonClientModel.ClearWaiters(old(Waiting()))
    {
      var all := waiters;
      ghost var sel := (w: Waiter) => true;
      for i := 0 to |all|
        invariant Waiting() == Settle(old(Waiting()).(waiters := all[..i]), sel, Rejection()).(waiters := all)
      {
        var waiter := all[i];
        assert all[..i + 1] == all[..i] + [waiter];
        ShareNext(all[..i], waiter, sel);
        SettledNext(Chosen(all[..i], sel), waiter, Rejection());
        waiterTimers := waiterTimers - {waiter.id};
        settlements := settlements + [Rejected(waiter.id)];
      }
      assert all[..|all|] == all;
      ClearLeavesNone(all, sel);
      waiters := [];
    }

    method AddWaiter(requestId: Option<string>, accepts: Message -> bool, timed: bool) returns (id: nat)
      modifies this`waiters, this`waiterTimers, this`nextWaiter
      ensures View() == old(View()).(waiters := DaemonClientModel.AddWaiter(old(Waiting()), requestId, accepts, timed))
      ensures id == old(nextWaiter)
    {
      id := nextWaiter;
      nextWaiter := nextWaiter + 1;
      if timed {
        waiterTimers := waiterTimers + {id};
      }
      waiters := waiters + [Waiter(id, requestId, accepts, timed)];
    }

    method CancelWaiter(id: nat)
      modifies this`waiters, this`waiterTimers, this`settlements
      ensures View() == old(View()).(waiters := DaemonClientModel.CancelWaiter(old(Waiting()), id))
    {
      if id in SettledIds(settlements) {
        return;
      }
      waiters := Kept(waiters, WithId(id));
      waiterTimers := waiterTimers - {id};
      settlements := settlements + [Rejected(id)];
    }

    /** Waiting for any message, as the dictation calls do. */
    method WaitFor(accepts: Message -> bool, timed: bool) returns (id: nat)
      requires Valid()
      modifies this
      ensures Valid() && View() == Step(old(View()), CallWaitFor(accepts, timed))
    {
      hide Inv, DaemonClientModel.AddWaiter;
      StepKeepsInv(View(), CallWaitFor(accepts, timed));
      id := AddWaiter(None, accepts, timed);
    }

    method Cancel(id: nat)
      requires Valid() && id < nextWaiter
      modifies this
      ensures Valid() && View() == Step(old(View()), DaemonClientModel.Cancel(id))
    {
      hide Inv, DaemonClientModel.CancelWaiter;
      StepKeepsInv(View(), DaemonClientModel.Cancel(id));
      CancelWaiter(id);
    }

    method OnWaiterTimer(id: nat)
      requires Valid() && id in waiterTimers
      modifies this
      ensures Valid() && View() == Step(old(View()), WaiterTimer(id))
    {
      hide Inv, Kept;
      StepKeepsInv(View(), WaiterTimer(id));
      waiterTimers := waiterTimers - {id};
      waiters := Kept(waiters, WithId(id));
      settlements := settlements + [Rejected(id)];
    }

    // -------------------------------------------------------------------------------------------
    // The send queue

    method FlushPendingSendQueue(accepted: SendResult)
      modifies this`pendingSendQueue, this`sendTimers, this`sendOutcomes
      ensures View() == old(View()).(sends := Flush(old(Sends()), old(if status == Connected then transport else None),
                                                    accepted))
    {
      var queue := pendingSendQueue;
      pendingSendQueue := [];
      ghost var open := if status == Connected then transport else None;
      for i := 0 to |queue|
        invariant Sends() == Flush(old(Sends()).(queue := queue[..i]), open, accepted)
      {
        var pending := queue[i];
        FlushNext(old(Sends()), open, accepted, i);
        sendTimers := sendTimers - {pending.id};
        if transport.Some? && status == Connected {
          if accepted(pending.id) {
            sendOutcomes := sendOutcomes + [Sent(pending, transport.value)];
          } else {
            sendOutcomes := sendOutcomes + [Refused(pending.id)];
          }
        } else {
          sendOutcomes := sendOutcomes + [Refused(pending.id)];
        }
      }
      assert queue[..|queue|] == queue;
    }

    method RejectPendingSendQueue()
      modifies this`pendingSendQueue, this`sendTimers, this`sendOutcomes
      ensures Sends() == RejectQueue(old(Sends()))
    {
      var queue := pendingSendQueue;
      pendingSendQueue := [];
      ghost var never: SendResult := _ => false;
      for i := 0 to |queue|
        invariant Sends() == Flush(old(Sends()).(queue := queue[..i]), None, never)
      {
        FlushNext(old(Sends()), None, never, i);
        sendTimers := sendTimers - {queue[i].id};
        sendOutcomes := sendOutcomes + [Refused(queue[i].id)];
      }
      assert queue[..|queue|] == queue;
    }

    method OnSendTimer(id: nat)
      requires Valid() && id in sendTimers
      modifies this
      ensures Valid() && View() == Step(old(View()), SendTimer(id))
    {
      hide Inv, WithoutSend;
      StepKeepsInv(View(), SendTimer(id));
      sendTimers := sendTimers - {id};
      pendingSendQueue := WithoutSend(pendingSendQueue, id);
      sendOutcomes := sendOutcomes + [Refused(id)];
    }

    /** The correlated request: waiter first, then send, queue or fail. */
    method SendRequest(requestId: string, kind: string, select: Message -> bool, timed: bool, message: string,
                       sent: bool)
      returns (id: nat)
      requires Valid()
      modifies this
      ensures Valid() && View() == Step(old(View()), CallRequest(requestId, kind, select, timed, message, sent))
    {
      hide Inv, DaemonClientModel.CancelWaiter, DaemonClientModel.AddWaiter, Correlated, Enqueue, Sends, Live;
      StepKeepsInv(View(), CallRequest(requestId, kind, select, timed, message, sent));
      id := AddWaiter(Some(requestId), Correlated(requestId, kind, select), timed);
      if transport.Some? && status == Connected {
        if !sent {
          CancelWaiter(id);
        }
      } else if status == Connecting {
        QueueSend(message, if transport.Some? then transport.value else 0);
      }
    }

    method QueueSend(message: string, connection: nat)
      modifies this`pendingSendQueue, this`sendTimers, this`nextSend
      ensures View() == old(View()).(sends := Enqueue(old(Sends()), message, connection))
    {
      sendTimers := sendTimers + {nextSend};
      pendingSendQueue := pendingSendQueue + [PendingSend(nextSend, message, connection)];
      nextSend := nextSend + 1;
    }

    // -------------------------------------------------------------------------------------------
    // Connecting, reconnecting, closing

    method CleanupTransport()
      modifies this`connectTimeout, this`pendingGenericTransportErrorTimeout
      ensures View() == old(View()).(conn := old(Conn()).(connectTimer := false, errorTimer := false))
    {
      connectTimeout := false;
      pendingGenericTransportErrorTimeout := false;
    }

    method DisposeTransport()
      modifies this`transport, this`connectTimeout, this`pendingGenericTransportErrorTimeout,
               this`livenessHeartbeatTimer
      ensures View() == DaemonClientModel.DisposeTransport(old(View()))
    {
      CleanupTransport();
      livenessHeartbeatTimer := false;
      transport := None;
    }

    method UpdateConnectionState(next: Status)
      modifies this`status
      ensures View() == old(View()).(conn := old(Conn()).(status := next))
    {
      status := next;
    }

    method DropConnectPromise()
      modifies this`connectPromise, this`connectCallbacks
      ensures View() == old(View()).(conn := EndConnectPromise(old(Conn())))
    {
      connectPromise := None;
      connectCallbacks := None;
    }

    method ArmReconnectTimer()
      modifies this`reconnectAttempt, this`reconnectTimeout, this`delays
      ensures View() == old(View()).(conn := DaemonClientModel.ArmReconnectTimer(old(Conn())))
    {
      var delay := Delay(baseDelayMs, maxDelayMs, reconnectAttempt);
      reconnectAttempt := reconnectAttempt + 1;
      reconnectTimeout := Some(delay);
      delays := delays + [delay];
    }

    /** Nothing that waits for the present connection survives it. */
    method RejectPending()
      modifies this`waiters, this`waiterTimers, this`settlements
      modifies this`pendingSendQueue, this`sendTimers, this`sendOutcomes, this`pingProbe
      ensures View() == Client(old(Conn()), DaemonClientModel.ClearWaiters(old(Waiting())), RejectQueue(old(Sends())),
                               old(Live()).(probe := None))
    {
      hide DaemonClientModel.ClearWaiters, RejectQueue;
      ClearWaiters();
      RejectPendingSendQueue();
      pingProbe := None;
    }

    method ScheduleReconnect()
      modifies this
      ensures View() == DaemonClientModel.ScheduleReconnect(old(View()))
    {
      hide DaemonClientModel.ClearWaiters, RejectQueue;
      reconnectTimeout := None;
      RejectPending();
      assert View() == DaemonClientModel.ScheduleReconnect(old(View())).(conn := old(Conn()).(reconnectTimer := None));
      GoDown();
    }

    method GoDown()
      requires reconnectTimeout == None
      modifies this
      ensures View() == old(View()).(conn := LoseConnection(old(Conn())))
    {
      if status == Disposed {
        DropConnectPromise();
        return;
      }
      status := Disconnected;
      if !shouldReconnect || !reconnectEnabled {
        DropConnectPromise();
        return;
      }
      ArmReconnectTimer();
    }

    method AttemptConnect(opening: Opening)
      modifies this
      ensures View() == DaemonClientModel.AttemptConnect(old(View()), opening)
    {
      hide FailAttempt, Waiting, Sends, Live;
      if status == Disposed {
        DropConnectPromise();
        return;
      }
      if !shouldReconnect {
        DropConnectPromise();
        return;
      }
      if status == Connecting {
        return;
      }
      DisposeTransport();
      if opening == FactoryThrows {
        FailConnectAttempt();
        return;
      }
      OpenTransport();
      if opening == HandlersThrow {
        ResetConnectTimeout();
        FailConnectAttempt();
      }
    }

    method OpenTransport()
      modifies this`transport, this`nextTransport, this`status, this`connectTimeout
      ensures View() == old(View()).(conn := old(Conn()).(
                status := Connecting, transport := Some(old(nextTransport)), nextTransport := old(nextTransport) + 1,
                connectTimer := true))
    {
      transport := Some(nextTransport);
      nextTransport := nextTransport + 1;
      connectTimeout := true;
      UpdateConnectionState(Connecting);
    }

    method ResetConnectTimeout()
      modifies this`connectTimeout
      ensures View() == old(View()).(conn := old(Conn()).(connectTimer := false))
    {
      connectTimeout := false;
    }

    method FailConnectAttempt()
      modifies this
      ensures View() == FailAttempt(old(View()))
    {
      hide DaemonClientModel.ScheduleReconnect;
      ScheduleReconnect();
      DropConnectPromise();
    }

    method ConnectNow(opening: Opening)
      modifies this
      ensures View() == DaemonClientModel.Connect(old(View()), opening)
    {
      hide DaemonClientModel.AttemptConnect, Waiting, Sends, Live;
      if status == Disposed || status == Connected || connectPromise.Some? {
        return;
      }
      var promise := NewConnectPromise();
      AttemptConnect(opening);
      StoreConnectPromise(promise);
    }

    method NewConnectPromise() returns (promise: nat)
      modifies this`shouldReconnect, this`connectCallbacks, this`nextPromise
      ensures promise == old(nextPromise)
      ensures View() == old(View()).(conn := old(Conn()).(shouldReconnect := true, connectCallbacks := Some(promise),
                                                          nextPromise := promise + 1))
    {
      promise := nextPromise;
      shouldReconnect := true;
      connectCallbacks := Some(promise);
      nextPromise := promise + 1;
    }

    method StoreConnectPromise(promise: nat)
      modifies this`connectPromise
      ensures View() == old(View()).(conn := old(Conn()).(connectPromise := Some(promise)))
    {
      connectPromise := Some(promise);
    }

    method Connect(opening: Opening)
      requires Valid()
      modifies this
      ensures Valid() && View() == Step(old(View()), CallConnect(opening))
    {
      hide Inv, DaemonClientModel.Connect;
      StepKeepsInv(View(), CallConnect(opening));
      ConnectNow(opening);
    }

    method EnsureConnected(opening: Opening)
      requires Valid()
      modifies this
      ensures Valid() && View() == Step(old(View()), CallEnsureConnected(opening))
    {
      hide Inv, DaemonClientModel.Connect, DaemonClientModel.AttemptConnect;
      StepKeepsInv(View(), CallEnsureConnected(opening));
      if status == Disposed {
        return;
      }
      if !shouldReconnect {
        shouldReconnect := true;
      }
      if status == Connected || status == Connecting {
        return;
      }
      reconnectTimeout := None;
      if connectPromise.Some? {
        AttemptConnect(opening);
      } else {
        ConnectNow(opening);
      }
    }

    method Close()
      requires Valid()
      modifies this
      ensures Valid() && View() == Step(old(View()), CallClose)
    {
      hide Inv, DaemonClientModel.ClearWaiters, RejectQueue;
      StepKeepsInv(View(), CallClose);
      if status == Disposed {
        return;
      }
      shouldReconnect := false;
      reconnectTimeout := None;
      DropConnectPromise();
      DisposeTransport();
      RejectPending();
      UpdateConnectionState(Disposed);
    }

    method SetReconnectEnabled(enabled: bool)
      requires Valid()
      modifies this
      ensures Valid() && View() == Step(old(View()), CallSetReconnectEnabled(enabled))
    {
      hide Inv;
      StepKeepsInv(View(), CallSetReconnectEnabled(enabled));
      reconnectEnabled := enabled;
      if !enabled {
        reconnectTimeout := None;
      }
    }

    method OnReconnectTimer(opening: Opening)
      requires Valid() && reconnectTimeout.Some?
      modifies this
      ensures Valid() && View() == Step(old(View()), ReconnectTimer(opening))
    {
      hide Inv, DaemonClientModel.AttemptConnect;
      StepKeepsInv(View(), ReconnectTimer(opening));
      reconnectTimeout := None;
      if shouldReconnect {
        AttemptConnect(opening);
      }
    }

    method OnConnectTimer()
      requires Valid() && connectTimeout
      modifies this
      ensures Valid() && View() == Step(old(View()), ConnectTimer)
    {
      hide Inv, DaemonClientModel.ScheduleReconnect;
      StepKeepsInv(View(), ConnectTimer);
      connectTimeout := false;
      if status == Connecting {
        DisposeTransport();
        ScheduleReconnect();
      }
    }

    method OnTransportOpen(helloSent: bool)
      requires Valid()
      modifies this
      ensures Valid() && View() == Step(old(View()), OnOpen(helloSent))
    {
      hide Inv, DaemonClientModel.ScheduleReconnect;
      StepKeepsInv(View(), OnOpen(helloSent));
      pendingGenericTransportErrorTimeout := false;
      if transport.None? || !helloSent {
        ScheduleReconnect();
      }
    }

    method OnTransportClose()
      requires Valid()
      modifies this
      ensures Valid() && View() == Step(old(View()), OnClose)
    {
      hide Inv, DaemonClientModel.ScheduleReconnect;
      StepKeepsInv(View(), OnClose);
      connectTimeout := false;
      pendingGenericTransportErrorTimeout := false;
      ScheduleReconnect();
    }

    method OnTransportError(detailed: bool)
      requires Valid()
      modifies this
      ensures Valid() && View() == Step(old(View()), OnError(detailed))
    {
      hide Inv, DaemonClientModel.ScheduleReconnect;
      StepKeepsInv(View(), OnError(detailed));
      connectTimeout := false;
      if !detailed {
        pendingGenericTransportErrorTimeout := true;
        return;
      }
      pendingGenericTransportErrorTimeout := false;
      ScheduleReconnect();
    }

    method OnErrorTimer()
      requires Valid() && pendingGenericTransportErrorTimeout
      modifies this
      ensures Valid() && View() == Step(old(View()), ErrorTimer)
    {
      hide Inv, DaemonClientModel.ScheduleReconnect;
      StepKeepsInv(View(), ErrorTimer);
      pendingGenericTransportErrorTimeout := false;
      if status == Connected || status == Connecting {
        ScheduleReconnect();
      }
    }

    // -------------------------------------------------------------------------------------------
    // Inbound frames

    method HandleSessionMessage(msg: Message, accepted: SendResult)
      requires Ascending(Ids(Waiting().waiters))
      modifies this
      ensures View() == DaemonClientModel.HandleSessionMessage(old(View()), msg, accepted)
    {
      hide DaemonClientModel.ResolveWaiters, Flush;
      hide BecomeConnected, Sends, Live;
      if msg == ServerInfo && status == Connecting {
        CompleteConnection(accepted);
      }
      ResolveWaiters(msg);
    }

    method CompleteConnection(accepted: SendResult)
      modifies this
      ensures View() == BecomeConnected(old(View()), accepted)
      ensures Waiting() == old(Waiting())
    {
      hide Flush;
      connectTimeout, reconnectAttempt, delays := false, 0, [];
      ghost var restarted := old(Conn()).(connectTimer := false, attempt := 0, delays := []);
      assert View() == old(View()).(conn := restarted);
      UpdateConnectionState(Connected);
      StartLivenessHeartbeat();
      FlushPendingSendQueue(accepted);
      DropConnectPromise();
    }

    method SeeFrame()
      modifies this`consecutiveLivenessFailures, this`livenessLog
      ensures View() == old(View()).(live := SawFrame(old(Live())))
    {
      consecutiveLivenessFailures := 0;
      livenessLog := livenessLog + [FrameSeen];
    }

    method StartLivenessHeartbeat()
      modifies this`livenessHeartbeatTimer
      ensures View() == old(View()).(live := old(Live()).(heartbeat := true))
    {
      livenessHeartbeatTimer := true;
    }

    method ResolvePingProbe()
      modifies this`pingProbe
      ensures View() == old(View()).(live := old(Live()).(probe := None))
    {
      pingProbe := None;
    }

    method HandleFrame(frame: Frame, accepted: SendResult)
      requires Valid()
      modifies this
      ensures Valid() && View() == Step(old(View()), OnFrame(frame, accepted))
    {
      hide Inv, Ids, Ascending;
      StepKeepsInv(View(), OnFrame(frame, accepted));
      ValidAscends();
      hide DaemonClientModel.HandleSessionMessage, RejectWaitersFor, Conn, Waiting, Sends, Live, SawFrame;
      match frame {
        case Invalid(None) =>
        case Invalid(Some(requestId)) =>
          RejectWaitersForRequestId(requestId);
        case Pong =>
          SeeFrame();
          ResolvePingProbe();
        case Session(msg) =>
          SeeFrame();
          HandleSessionMessage(msg, accepted);
        case Binary(None) =>
          SeeFrame();
        case Binary(Some(requestId)) =>
          SeeFrame();
          HandleSessionMessage(FileReply(requestId), accepted);
      }
    }

    // -------------------------------------------------------------------------------------------
    // Liveness

    method RecordLivenessFailure(probe: Probe)
      modifies this
      ensures View() == DaemonClientModel.RecordLivenessFailure(old(View()), probe)
    {
      hide DaemonClientModel.ScheduleReconnect;
      consecutiveLivenessFailures := consecutiveLivenessFailures + 1;
      livenessLog := livenessLog + [Failed(probe)];
      if consecutiveLivenessFailures < LIVENESS_FAILURE_RECONNECT_THRESHOLD {
        return;
      }
      consecutiveLivenessFailures := 0;
      livenessLog := livenessLog + [Teardown];
      DisposeTransport();
      ScheduleReconnect();
    }

    method FailProbe(probe: Probe)
      modifies this
      ensures View() == ProbeFails(old(View()), probe)
    {
      hide DaemonClientModel.RecordLivenessFailure;
      pingProbe := None;
      if probe.drives {
        RecordLivenessFailure(probe);
      } else {
        livenessLog := livenessLog + [Failed(probe)];
      }
    }

    method SendPingAwaitRtt(drives: bool, sent: bool)
      modifies this
      ensures View() == SendPing(old(View()), drives, sent)
    {
      hide ProbeFails;
      if status != Connected || transport.None? {
        return;
      }
      if pingProbe.Some? {
        return;
      }
      var probe := Probe(nextProbe, drives, transport.value);
      nextProbe := nextProbe + 1;
      pingProbe := Some(probe);
      livenessLog := livenessLog + [Started(probe)];
      if !sent {
        FailProbe(probe);
      }
    }

    method MeasureLatency(sent: bool)
      requires Valid()
      modifies this
      ensures Valid() && View() == Step(old(View()), CallMeasureLatency(sent))
    {
      hide Inv, SendPing;
      StepKeepsInv(View(), CallMeasureLatency(sent));
      SendPingAwaitRtt(false, sent);
    }

    method OnPingTimer()
      requires Valid() && pingProbe.Some?
      modifies this
      ensures Valid() && View() == Step(old(View()), PingTimer)
    {
      hide Inv, ProbeFails;
      StepKeepsInv(View(), PingTimer);
      FailProbe(pingProbe.value);
    }

    method OnHeartbeatTimer(sent: bool)
      requires Valid() && livenessHeartbeatTimer
      modifies this
      ensures Valid() && View() == Step(old(View()), HeartbeatTimer(sent))
    {
      hide Inv, SendPing;
      StepKeepsInv(View(), HeartbeatTimer(sent));
      livenessHeartbeatTimer := false;
      SendPingAwaitRtt(true, sent);
    }

    method ScheduleNextLivenessHeartbeat()
      requires Valid()
      modifies this
      ensures Valid() && View() == Step(old(View()), HeartbeatSettled)
    {
      hide Inv;
      StepKeepsInv(View(), HeartbeatSettled);
      if status != Connected || livenessHeartbeatTimer {
        return;
      }
      livenessHeartbeatTimer := true;
    }
  }
}
