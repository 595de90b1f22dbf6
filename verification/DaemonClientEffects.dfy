/** What the caller and the daemon see of each event: who is answered, what is sent, and when the connection moves. */
module DaemonClientEffects {
  import opened Options
  import opened Ledger
  import opened DaemonClientModel
  import opened DaemonClientWaiters
  import opened DaemonClientLaws

  // ---------------------------------------------------------------------------------------------
  // The three ways a connection moves

  /** The event tries to open a transport. */
  predicate Attempts(c: Client, e: Event) {
    match e
    case CallConnect(_) => c.conn.status in {Idle, Disconnected} && c.conn.connectPromise.None?
    case CallEnsureConnected(_) => c.conn.status in {Idle, Disconnected}
    case ReconnectTimer(_) => c.conn.status in {Idle, Disconnected, Connected} && c.conn.shouldReconnect
    case _ => false
  }

  function OpeningOf(e: Event): Opening {
    match e
    case CallConnect(opening) => opening
    case CallEnsureConnected(opening) => opening
    case ReconnectTimer(opening) => opening
    case _ => Opens
  }

  predicate Dials(c: Client, e: Event) {
    Attempts(c, e) && OpeningOf(e) == Opens
  }

  /** Server info on a connection in the making. */
  predicate Completes(c: Client, e: Event) {
    c.conn.status == Connecting && e.OnFrame? && e.frame == Session(ServerInfo)
  }

  /** The ping that just failed is the second of the heartbeat in a row. */
  predicate LastStraw(c: Client, e: Event) {
    match e
    case PingTimer => c.live.probe.Some? && c.live.probe.value.drives && c.live.failures == 1
    case HeartbeatTimer(sent) =>
      !sent && c.conn.status == Connected && c.conn.transport.Some? && c.live.probe.None? && c.live.failures == 1
    case _ => false
  }

  /** What waits for the connection has nothing left to wait for. */
  predicate Loses(c: Client, e: Event) {
    match e
    case CallConnect(opening) => Attempts(c, e) && opening != Opens
    case CallEnsureConnected(opening) => Attempts(c, e) && opening != Opens
    case ReconnectTimer(opening) => Attempts(c, e) && opening != Opens
    case CallClose => c.conn.status != Disposed
    case OnOpen(helloSent) => c.conn.transport.None? || !helloSent
    case OnClose => true
    case OnError(detailed) => detailed
    case ErrorTimer => c.conn.status in {Connected, Connecting}
    case ConnectTimer => c.conn.status == Connecting
    case _ => LastStraw(c, e)
  }

  // ---------------------------------------------------------------------------------------------
  // Waiters

  /** From `t` to `t'` exactly the selected waiters left, each settled once, oldest first, its timer cleared. */
  ghost predicate SettlesExactly(t: WaiterTable, t': WaiterTable, sel: Waiter -> bool, how: nat -> Settlement) {
    && |t.settlements| <= |t'.settlements| && t'.settlements[..|t.settlements|] == t.settlements
    && (var more := t'.settlements[|t.settlements|..];
        && Ascending(SettledIds(more))
        && (forall s | s in more :: exists w | w in t.waiters :: sel(w) && s == how(w.id))
        && (forall w | w in t.waiters && sel(w) :: how(w.id) in more))
    && Ascending(Ids(t'.waiters)) && (forall w :: w in t'.waiters <==> w in t.waiters && !sel(w))
    && (forall w | w in t.waiters :: w.id in t'.timers <==> w.id in t.timers && !sel(w))
    && t'.next == t.next
  }

  lemma {:induction false} ChosenAscends(ws: seq<Waiter>, sel: Waiter -> bool)
    requires Ascending(Ids(ws))
    ensures Ascending(Ids(Chosen(ws, sel)))
  {
    KeptAscends(ws, w => !sel(w));
    KeptOthers(ws, sel);
  }

  lemma {:induction false} KeptOthers(ws: seq<Waiter>, sel: Waiter -> bool)
    ensures Kept(ws, w => !sel(w)) == Chosen(ws, sel)
  {
    if ws != [] {
      KeptOthers(ws[1..], sel);
    }
  }

  lemma {:induction false} SettleIsExact(t: WaiterTable, sel: Waiter -> bool, how: nat -> Settlement)
    requires WaitersOk(t) && forall id :: how(id).id == id
    ensures SettlesExactly(t, Settle(t, sel, how), sel, how)
  {
    var t', out := Settle(t, sel, how), Chosen(t.waiters, sel);
    var more := Settlements(out, how);
    KeptAscends(t.waiters, sel);
    ChosenAscends(t.waiters, sel);
    assert t'.settlements[|t.settlements|..] == more && SettledIds(more) == Ids(out);
    forall w ensures w in t'.waiters <==> w in t.waiters && !sel(w) {
      Members(t.waiters, sel, w);
    }
    forall s | s in more ensures exists w | w in t.waiters :: sel(w) && s == how(w.id) {
      var k :| 0 <= k < |out| && more[k] == s;
      Members(t.waiters, sel, out[k]);
    }
    forall w | w in t.waiters && sel(w) ensures how(w.id) in more {
      Members(t.waiters, sel, w);
      var k :| 0 <= k < |out| && out[k] == w;
      assert more[k] == how(w.id);
    }
    forall w | w in t.waiters ensures w.id in t'.timers <==> w.id in t.timers && !sel(w) {
      var i :| 0 <= i < |t.waiters| && t.waiters[i] == w;
      Apart(t.waiters, sel, i);
    }
  }

  /** A message that reaches the waiters. */
  function Delivered(e: Event): Option<Message> {
    match e
    case OnFrame(Session(m), _) => Some(m)
    case OnFrame(Binary(Some(requestId)), _) => Some(Response("file_explorer_response", requestId, ""))
    case _ => None
  }

  /** The waiters an event rejects. */
  predicate Rejects(c: Client, e: Event, w: Waiter) {
    match e
    case OnFrame(Invalid(Some(requestId)), _) => w.requestId == Some(requestId)
    case WaiterTimer(id) => w.id == id
    case Cancel(id) => w.id == id
    case _ => Loses(c, e)
  }

  predicate IsRequest(e: Event) {
    e.CallRequest? || e.CallWaitFor?
  }

  /** Apart from new requests, an event answers exactly the waiters that accept the message it delivers and rejects
      exactly those it rejects. */
  ghost predicate WaitersMove(c: Client, e: Event, d: Client) {
    match Delivered(e)
    case Some(m) => SettlesExactly(c.waiters, d.waiters, (w: Waiter) => w.accepts(m), (id: nat) => Resolved(id, m))
    case None => SettlesExactly(c.waiters, d.waiters, (w: Waiter) => Rejects(c, e, w), (id: nat) => Rejected(id))
  }

  lemma {:induction false} SameSelection(
    t: WaiterTable, t': WaiterTable, sel: Waiter -> bool, how: nat -> Settlement, sel': Waiter -> bool,
    how': nat -> Settlement)
    requires SettlesExactly(t, t', sel, how)
    requires (forall w | w in t.waiters :: sel(w) == sel'(w)) && forall id :: how(id) == how'(id)
    ensures SettlesExactly(t, t', sel', how')
  {
  }

  lemma {:induction false} NoneSelected(t: WaiterTable, sel: Waiter -> bool, how: nat -> Settlement)
    requires WaitersOk(t) && forall w | w in t.waiters :: !sel(w)
    ensures SettlesExactly(t, t, sel, how)
  {
    assert t.settlements[|t.settlements|..] == [];
  }

  lemma {:induction false} AllRejected(c: Client, e: Event, d: Client)
    requires WaitersOk(c.waiters) && Delivered(e).None? && d.waiters == ClearWaiters(c.waiters)
    requires forall w | w in c.waiters.waiters :: Rejects(c, e, w)
    ensures WaitersMove(c, e, d)
  {
    var all := (w: Waiter) => true;
    assert ClearWaiters(c.waiters) == Settle(c.waiters, all, Rejection());
    SettleIsExact(c.waiters, all, Rejection());
    SameSelection(c.waiters, d.waiters, all, Rejection(), (w: Waiter) => Rejects(c, e, w), (id: nat) => Rejected(id));
  }

  lemma {:induction false} NoneRejected(c: Client, e: Event, d: Client)
    requires WaitersOk(c.waiters) && Delivered(e).None? && d.waiters == c.waiters
    requires forall w | w in c.waiters.waiters :: !Rejects(c, e, w)
    ensures WaitersMove(c, e, d)
  {
    NoneSelected(c.waiters, (w: Waiter) => Rejects(c, e, w), (id: nat) => Rejected(id));
  }

  lemma {:induction false} FrameMovesWaiters(c: Client, frame: Frame, accepted: SendResult)
    requires WaitersOk(c.waiters)
    ensures WaitersMove(c, OnFrame(frame, accepted), FrameArrives(c, frame, accepted))
  {
    hide SettlesExactly, Settle, WaitersOk, Flush;
    var e, d := OnFrame(frame, accepted), FrameArrives(c, frame, accepted);
    match frame
    case Invalid(Some(requestId)) =>
      var sel := (w: Waiter) => w.requestId == Some(requestId);
      assert d.waiters == Settle(c.waiters, sel, Rejection());
      SettleIsExact(c.waiters, sel, Rejection());
      SameSelection(c.waiters, d.waiters, sel, Rejection(), (w: Waiter) => Rejects(c, e, w), (id: nat) => Rejected(id));
    case Session(m) => MessageMovesWaiters(c, d, m);
    case Binary(Some(requestId)) => MessageMovesWaiters(c, d, Response("file_explorer_response", requestId, ""));
    case _ => NoneRejected(c, e, d);
  }

  lemma {:induction false} MessageMovesWaiters(c: Client, d: Client, m: Message)
    requires WaitersOk(c.waiters) && d.waiters == ResolveWaiters(c.waiters, m)
    ensures SettlesExactly(c.waiters, d.waiters, (w: Waiter) => w.accepts(m), (id: nat) => Resolved(id, m))
  {
    var sel := (w: Waiter) => w.accepts(m);
    assert d.waiters == Settle(c.waiters, sel, Resolution(m));
    SettleIsExact(c.waiters, sel, Resolution(m));
    SameSelection(c.waiters, d.waiters, sel, Resolution(m), (w: Waiter) => w.accepts(m), (id: nat) => Resolved(id, m));
  }

  /** Losing the connection rejects all that waits for it, in every event that does so. */
  lemma {:induction false} LosesClears(c: Client, e: Event)
    requires Enabled(c, e) && Loses(c, e)
    ensures var d := Step(c, e);
            d.waiters == ClearWaiters(c.waiters) && d.sends == RejectQueue(c.sends) && d.live.probe.None?
  {
    hide ClearWaiters, RejectQueue, LoseConnection;
    match e
    case CallConnect(opening) =>
    case CallEnsureConnected(opening) =>
    case ReconnectTimer(opening) =>
    case PingTimer =>
    case HeartbeatTimer(_) =>
    case _ =>
  }

  /** No other event touches the waiters, apart from requests, frames, timeouts and cancels. */
  lemma {:induction false} OthersLeaveWaiters(c: Client, e: Event)
    requires Enabled(c, e) && !Loses(c, e) && c.live.failures < 2
    requires !IsRequest(e) && !e.OnFrame? && !e.WaiterTimer? && !e.Cancel?
    ensures Step(c, e).waiters == c.waiters
  {
    hide ClearWaiters, RejectQueue, LoseConnection;
    match e
    case CallConnect(opening) =>
    case CallEnsureConnected(opening) =>
    case ReconnectTimer(opening) =>
    case PingTimer =>
    case HeartbeatTimer(_) =>
    case _ =>
  }

  lemma {:induction false} SingleRejected(c: Client, e: Event, id: nat)
    requires WaitersOk(c.waiters) && Enabled(c, e) && (e == WaiterTimer(id) || e == DaemonClientModel.Cancel(id))
    ensures WaitersMove(c, e, Step(c, e))
  {
    var t, d := c.waiters, Step(c, e);
    hide SettlesExactly, Settle;
    ExactlyOnce(Ids(t.waiters), SettledIds(t.settlements), t.next, id) by {
      if e.WaiterTimer? {
        assert id in Ids(t.waiters);
        var i :| 0 <= i < |t.waiters| && Ids(t.waiters)[i] == id;
      }
    }
    if id in Ids(t.waiters) {
      SingleOut(t, id);
      SettleIsExact(t, WithId(id), Rejection());
      SameSelection(t, d.waiters, WithId(id), Rejection(), (w: Waiter) => Rejects(c, e, w), (n: nat) => Rejected(n));
    } else {
      forall w | w in t.waiters ensures !Rejects(c, e, w) {
        var i :| 0 <= i < |t.waiters| && t.waiters[i] == w;
        assert Ids(t.waiters)[i] == w.id;
      }
      NoneRejected(c, e, d);
    }
  }

  /** Every event but a new request: exactly the waiters that accept the message it delivers are resolved with it, or
      exactly those the event rejects are rejected; each is settled once, oldest first, with its timer cleared, and all
      others stay as they are. */
  lemma {:induction false} WaitersFollow(c: Client, e: Event)
    requires Inv(c) && Enabled(c, e) && !IsRequest(e)
    ensures WaitersMove(c, e, Step(c, e))
  {
    var d := Step(c, e);
    hide Step, WaitersMove, WaitersOk, SendsOk, DelaysOk, ClearWaiters;
    match e {
      case OnFrame(frame, accepted) =>
        assert d == FrameArrives(c, frame, accepted) by { StepIsFrame(c, frame, accepted); }
        FrameMovesWaiters(c, frame, accepted);
      case WaiterTimer(id) => SingleRejected(c, e, id);
      case Cancel(id) => SingleRejected(c, e, id);
      case _ =>
        if Loses(c, e) {
          LosesClears(c, e);
          AllRejected(c, e, d);
        } else {
          OthersLeaveWaiters(c, e);
          NoneRejected(c, e, d);
        }
    }
  }

  lemma {:induction false} StepIsFrame(c: Client, frame: Frame, accepted: SendResult)
    ensures Step(c, OnFrame(frame, accepted)) == FrameArrives(c, frame, accepted)
  {
  }

  // ---------------------------------------------------------------------------------------------
  // Requests and their answers

  /** An error for the request, or a response of its type with its id that it can use. */
  predicate Answers(m: Message, requestId: string, kind: string, select: Message -> bool) {
    match m
    case RpcError(id) => id == requestId
    case Response(type_, id, _) => type_ == kind && id == requestId && select(m)
    case _ => false
  }

  /** A request makes one waiter with the next number, which accepts its answers and nothing else; it stays, with a
      timer iff it is timed, unless the client is up and the transport refuses the request, which rejects it at once. */
  lemma {:induction false} RequestJoins(
    c: Client, requestId: string, kind: string, select: Message -> bool, timed: bool, message: string, sent: bool)
    requires Inv(c)
    ensures var t, t' := c.waiters, Step(c, CallRequest(requestId, kind, select, timed, message, sent)).waiters;
            && t'.next == t.next + 1
            && (if c.conn.status == Connected && c.conn.transport.Some? && !sent
                then t'.waiters == t.waiters && t'.timers == t.timers
                     && t'.settlements == t.settlements + [Rejected(t.next)]
                else
                  && |t'.waiters| == |t.waiters| + 1 && t'.waiters[..|t.waiters|] == t.waiters
                  && t'.settlements == t.settlements && t'.timers == t.timers + (if timed then {t.next} else {})
                  && var w := t'.waiters[|t.waiters|];
                     && w.id == t.next && w.requestId == Some(requestId) && w.timed == timed
                     && forall m :: w.accepts(m) <==> Answers(m, requestId, kind, select))
  {
    var t := c.waiters;
    var joined := AddWaiter(t, Some(requestId), Correlated(requestId, kind, select), timed);
    hide Enqueue;
    assert forall m :: Correlated(requestId, kind, select)(m) <==> Answers(m, requestId, kind, select);
    if c.conn.status == Connected && c.conn.transport.Some? && !sent {
      NotYetKnown(t);
      KeptConcat(t.waiters, [joined.waiters[|t.waiters|]], t.next);
    }
  }

  lemma {:induction false} NotYetKnown(t: WaiterTable)
    requires WaitersOk(t)
    ensures t.next !in SettledIds(t.settlements) && t.next !in t.timers
    ensures forall w | w in t.waiters :: w.id != t.next
  {
    assert multiset(SettledIds(t.settlements))[t.next] == 0;
    forall w | w in t.waiters ensures w.id < t.next {
      var i :| 0 <= i < |t.waiters| && t.waiters[i] == w;
      assert Ids(t.waiters)[i] == w.id;
    }
  }

  lemma {:induction false} KeptConcat(ws: seq<Waiter>, last: seq<Waiter>, id: nat)
    requires |last| == 1 && last[0].id == id && forall w | w in ws :: w.id != id
    ensures Kept(ws + last, WithId(id)) == ws
  {
    if ws == [] {
      assert [] + last == last && last[1..] == [];
    } else {
      assert (ws + last)[1..] == ws[1..] + last && ws[0] in ws;
      KeptConcat(ws[1..], last, id);
      assert [ws[0]] + ws[1..] == ws;
    }
  }

  /** Waiters do not change while they wait, and new ones get new numbers. */
  ghost predicate Grown(t: WaiterTable, t': WaiterTable) {
    t.next <= t'.next && forall w | w in t'.waiters :: w in t.waiters || w.id >= t.next
  }

  lemma {:induction false} StepGrows(c: Client, e: Event)
    requires Inv(c) && Enabled(c, e)
    ensures Grown(c.waiters, Step(c, e).waiters)
  {
    match e
    case CallRequest(requestId, kind, select, timed, message, sent) =>
      hide Step, Inv;
      RequestJoins(c, requestId, kind, select, timed, message, sent);
      var t, t' := c.waiters, Step(c, e).waiters;
      forall w | w in t'.waiters ensures w in t.waiters || w.id >= t.next {
        var i :| 0 <= i < |t'.waiters| && t'.waiters[i] == w;
        assert i < |t.waiters| ==> t.waiters[i] == w;
      }
    case CallWaitFor(_, _) =>
    case _ =>
      hide Step, Inv, Settle;
      WaitersFollow(c, e);
  }

  lemma {:induction false} RunGrows(c: Client, events: seq<Event>)
    requires Inv(c)
    ensures Grown(c.waiters, Run(c, events).waiters)
    decreases |events|
  {
    if events != [] {
      hide Inv, Enabled, Step;
      if Enabled(c, events[0]) {
        StepKeepsInv(c, events[0]);
        StepGrows(c, events[0]);
        RunGrows(Step(c, events[0]), events[1..]);
      } else {
        RunGrows(c, events[1..]);
      }
    }
  }

  /** However long a request waits, and whatever happens meanwhile: a message that reaches the waiters ends it iff it
      answers it; then it is resolved with that message, once, and its timer is gone, and otherwise it waits on. */
  lemma {:induction false} RequestIsAnswered(
    c: Client, requestId: string, kind: string, select: Message -> bool, timed: bool, message: string, sent: bool,
    events: seq<Event>, e: Event, m: Message)
    requires Inv(c) && Delivered(e) == Some(m)
    requires c.waiters.next
             in Ids(Run(Step(c, CallRequest(requestId, kind, select, timed, message, sent)), events).waiters.waiters)
    ensures var id := c.waiters.next;
            var b := Run(Step(c, CallRequest(requestId, kind, select, timed, message, sent)), events);
            var t, t' := b.waiters, Step(b, e).waiters;
            && (id !in Ids(t'.waiters) <==> Answers(m, requestId, kind, select))
            && (id in Ids(t'.waiters) ==> id !in SettledIds(t'.settlements) && (id in t'.timers <==> timed))
            && (id !in Ids(t'.waiters) ==>
                  && Resolved(id, m) in t'.settlements[|t.settlements|..]
                  && multiset(SettledIds(t'.settlements))[id] == 1 && id !in t'.timers)
  {
    var id, call := c.waiters.next, CallRequest(requestId, kind, select, timed, message, sent);
    var a := Step(c, call);
    var b := Run(a, events);
    var d := Step(b, e);
    StepKeepsInv(c, call);
    RunKeepsInv(a, events);
    StepKeepsInv(b, e);
    RequestJoins(c, requestId, kind, select, timed, message, sent);
    RunGrows(a, events);
    WaitersFollow(b, e);
    var i :| 0 <= i < |b.waiters.waiters| && Ids(b.waiters.waiters)[i] == id;
    var w := b.waiters.waiters[i];
    assert Ids(b.waiters.waiters)[i] == w.id;
    TheWaiter(c, a, b, requestId, kind, select, timed, w);
    Tracked(b, d, w, m);
  }

  lemma {:induction false} TheWaiter(
    c: Client, a: Client, b: Client, requestId: string, kind: string, select: Message -> bool, timed: bool, w: Waiter)
    requires WaitersOk(c.waiters) && Grown(a.waiters, b.waiters) && w in b.waiters.waiters && w.id == c.waiters.next
    requires a.waiters.next == c.waiters.next + 1
    requires a.waiters.waiters == c.waiters.waiters
             || (&& |a.waiters.waiters| == |c.waiters.waiters| + 1
                 && a.waiters.waiters[..|c.waiters.waiters|] == c.waiters.waiters
                 && var n := a.waiters.waiters[|c.waiters.waiters|];
                    n.timed == timed && forall m :: n.accepts(m) <==> Answers(m, requestId, kind, select))
    ensures w.timed == timed && forall m :: w.accepts(m) <==> Answers(m, requestId, kind, select)
  {
    NotYetKnown(c.waiters);
    assert w !in c.waiters.waiters && w in a.waiters.waiters;
    var n := |c.waiters.waiters|;
    if |a.waiters.waiters| == n + 1 {
      assert a.waiters.waiters == a.waiters.waiters[..n] + [a.waiters.waiters[n]];
    }
  }

  /** A delivered message settles a waiter iff the waiter accepts it. */
  lemma {:induction false} Tracked(b: Client, d: Client, w: Waiter, m: Message)
    requires Inv(b) && Inv(d) && w in b.waiters.waiters
    requires SettlesExactly(b.waiters, d.waiters, (w: Waiter) => w.accepts(m), (id: nat) => Resolved(id, m))
    ensures var t, t' := b.waiters, d.waiters;
            && (w.id !in Ids(t'.waiters) <==> w.accepts(m))
            && (w.id in Ids(t'.waiters) ==> w.id !in SettledIds(t'.settlements) && (w.id in t'.timers <==> w.timed))
            && (w.id !in Ids(t'.waiters) ==>
                  && Resolved(w.id, m) in t'.settlements[|t.settlements|..]
                  && multiset(SettledIds(t'.settlements))[w.id] == 1 && w.id !in t'.timers)
  {
    var t, t' := b.waiters, d.waiters;
    var i :| 0 <= i < |t.waiters| && t.waiters[i] == w;
    assert Ids(t.waiters)[i] == w.id < t.next;
    ExactlyOnce(Ids(t'.waiters), SettledIds(t'.settlements), t'.next, w.id);
    assert multiset(Ids(t'.waiters))[w.id] + multiset(SettledIds(t'.settlements))[w.id] == 1;
    if w.accepts(m) {
      forall k | 0 <= k < |t'.waiters| ensures Ids(t'.waiters)[k] != w.id {
        var other := t'.waiters[k];
        assert other in t'.waiters;
        if other.id == w.id {
          Owner(t.waiters, i, other);
        }
      }
    } else {
      assert w in t'.waiters;
      var k :| 0 <= k < |t'.waiters| && t'.waiters[k] == w;
      assert Ids(t'.waiters)[k] == w.id;
    }
  }
}
