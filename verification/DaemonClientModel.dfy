/**
 * The daemon client as atomic steps on a value. Every callback the runtime may deliver is an event: calls of the
 * public methods, transport callbacks, inbound frames and timer firings.
 */
module DaemonClientModel {
  import opened Options

  const LIVENESS_FAILURE_RECONNECT_THRESHOLD := 2

  datatype Status = Idle | Connecting | Connected | Disconnected | Disposed

  /** A session message; `body` stands for the rest of its payload. */
  datatype Message =
    | ServerInfo
    | RpcError(requestId: string)
    | Response(kind: string, requestId: string, body: string)
    | Notice(body: string)

  function RequestIdOf(m: Message): Option<string> {
    match m
    case RpcError(r) => Some(r)
    case Response(_, r, _) => Some(r)
    case _ => None
  }

  /** What arrives on a transport. A frame that fails validation may still name the request it answers. */
  datatype Frame =
    | Pong
    | Session(message: Message)
    | Invalid(answers: Option<string>)
    | Binary(fileReply: Option<string>)

  // ---------------------------------------------------------------------------------------------
  // Waiters

  datatype Waiter = Waiter(id: nat, requestId: Option<string>, accepts: Message -> bool, timed: bool)

  datatype Settlement = Resolved(id: nat, answer: Message) | Rejected(id: nat)

  /** `settlements` lists the calls of a waiter's resolve or reject function, in order. */
  datatype WaiterTable = WaiterTable(waiters: seq<Waiter>, timers: set<nat>, next: nat, settlements: seq<Settlement>)

  function Ids(ws: seq<Waiter>): seq<nat> {
    seq(|ws|, i requires 0 <= i < |ws| => ws[i].id)
  }

  function SettledIds(log: seq<Settlement>): seq<nat> {
    seq(|log|, i requires 0 <= i < |log| => log[i].id)
  }

  function Chosen(ws: seq<Waiter>, sel: Waiter -> bool): seq<Waiter> {
    if ws == [] then [] else (if sel(ws[0]) then [ws[0]] else []) + Chosen(ws[1..], sel)
  }

  function Kept(ws: seq<Waiter>, sel: Waiter -> bool): seq<Waiter> {
    if ws == [] then [] else (if sel(ws[0]) then [] else [ws[0]]) + Kept(ws[1..], sel)
  }

  function IdSet(ws: seq<Waiter>): set<nat> {
    set id | id in Ids(ws)
  }

  function Settlements(ws: seq<Waiter>, how: nat -> Settlement): seq<Settlement> {
    seq(|ws|, i requires 0 <= i < |ws| => how(ws[i].id))
  }

  /** Takes the selected waiters out, clears their timers and settles them, oldest first. */
  function Settle(t: WaiterTable, sel: Waiter -> bool, how: nat -> Settlement): WaiterTable {
    var out := Chosen(t.waiters, sel);
    t.(waiters := Kept(t.waiters, sel), timers := t.timers - IdSet(out),
       settlements := t.settlements + Settlements(out, how))
  }

  function Rejection(): nat -> Settlement {
    (id: nat) => Rejected(id)
  }

  function Resolution(m: Message): nat -> Settlement {
    (id: nat) => Resolved(id, m)
  }

  function ResolveWaiters(t: WaiterTable, m: Message): WaiterTable {
    Settle(t, (w: Waiter) => w.accepts(m), Resolution(m))
  }

  function RejectWaitersFor(t: WaiterTable, requestId: string): WaiterTable {
    Settle(t, (w: Waiter) => w.requestId == Some(requestId), Rejection())
  }

  function ClearWaiters(t: WaiterTable): WaiterTable {
    Settle(t, w => true, Rejection())
  }

  function WithId(id: nat): Waiter -> bool {
    (w: Waiter) => w.id == id
  }

  function AddWaiter(t: WaiterTable, requestId: Option<string>, accepts: Message -> bool, timed: bool): WaiterTable {
    t.(waiters := t.waiters + [Waiter(t.next, requestId, accepts, timed)],
       timers := if timed then t.timers + {t.next} else t.timers, next := t.next + 1)
  }

  /** The timer callback: drops the waiter from the set and rejects its promise. */
  function TimeoutWaiter(t: WaiterTable, id: nat): WaiterTable {
    t.(waiters := Kept(t.waiters, WithId(id)), timers := t.timers - {id}, settlements := t.settlements + [Rejected(id)])
  }

  /** `cancel`, a no-op once the promise is settled. */
  function CancelWaiter(t: WaiterTable, id: nat): WaiterTable {
    if id in SettledIds(t.settlements) then t else TimeoutWaiter(t, id)
  }

  /** What a request waits for: an error or a response of its own type, either one carrying its own id. */
  function Correlated(requestId: string, kind: string, select: Message -> bool): Message -> bool {
    (m: Message) => (m.RpcError? && m.requestId == requestId)
         || (m.Response? && m.kind == kind && m.requestId == requestId && select(m))
  }

  // ---------------------------------------------------------------------------------------------
  // Sends that wait for a connection

  /** `connection` is the transport that was being connected when the message was queued. */
  datatype PendingSend = PendingSend(id: nat, message: string, connection: nat)

  /** A queued message ends on a transport (`on`) or with an error. */
  datatype SendOutcome = Sent(send: PendingSend, on: nat) | Refused(refused: nat)

  datatype SendQueue = SendQueue(queue: seq<PendingSend>, timers: set<nat>, next: nat, outcomes: seq<SendOutcome>)

  function SendIds(q: seq<PendingSend>): seq<nat> {
    seq(|q|, i requires 0 <= i < |q| => q[i].id)
  }

  function OutcomeId(o: SendOutcome): nat {
    if o.Sent? then o.send.id else o.refused
  }

  function OutcomeIds(log: seq<SendOutcome>): seq<nat> {
    seq(|log|, i requires 0 <= i < |log| => OutcomeId(log[i]))
  }

  function Enqueue(s: SendQueue, message: string, connection: nat): SendQueue {
    s.(queue := s.queue + [PendingSend(s.next, message, connection)], timers := s.timers + {s.next}, next := s.next + 1)
  }

  /** Whether `transport.send` accepts a queued message. */
  type SendResult = nat -> bool

  function FlushOutcome(p: PendingSend, transport: Option<nat>, accepted: SendResult): SendOutcome {
    if transport.Some? && accepted(p.id) then Sent(p, transport.value) else Refused(p.id)
  }

  function Flush(s: SendQueue, transport: Option<nat>, accepted: SendResult): SendQueue {
    s.(queue := [], timers := s.timers - (set id | id in SendIds(s.queue)),
       outcomes := s.outcomes
                   + seq(|s.queue|, i requires 0 <= i < |s.queue| => FlushOutcome(s.queue[i], transport, accepted)))
  }

  function RejectQueue(s: SendQueue): SendQueue {
    Flush(s, None, _ => false)
  }

  function WithoutSend(q: seq<PendingSend>, id: nat): seq<PendingSend> {
    if q == [] then [] else if q[0].id == id then q[1..] else [q[0]] + WithoutSend(q[1..], id)
  }

  function TimeoutSend(s: SendQueue, id: nat): SendQueue {
    s.(queue := WithoutSend(s.queue, id), timers := s.timers - {id}, outcomes := s.outcomes + [Refused(id)])
  }

  // ---------------------------------------------------------------------------------------------
  // Liveness

  /** A ping in flight; `drives` says that the heartbeat started it. */
  datatype Probe = Probe(id: nat, drives: bool, connection: nat)

  datatype LivenessEvent = Started(probe: Probe) | Failed(probe: Probe) | FrameSeen | Teardown

  datatype Liveness = Liveness(probe: Option<Probe>, heartbeat: bool, failures: nat, next: nat, log: seq<LivenessEvent>)

  function SawFrame(l: Liveness): Liveness {
    l.(failures := 0, log := l.log + [FrameSeen])
  }

  // ---------------------------------------------------------------------------------------------
  // The connection

  /** `reconnectTimer` holds the delay of an armed timer; `delays` lists the delays armed since the last server info.
      The callbacks of a connect promise are set before the promise itself is stored. */
  datatype Connection = Connection(
    status: Status, transport: Option<nat>, nextTransport: nat,
    reconnectTimer: Option<nat>, connectTimer: bool, errorTimer: bool,
    attempt: nat, delays: seq<nat>, baseDelay: nat, maxDelay: nat,
    shouldReconnect: bool, reconnectEnabled: bool,
    connectPromise: Option<nat>, connectCallbacks: Option<nat>, nextPromise: nat)

  datatype Client = Client(conn: Connection, waiters: WaiterTable, sends: SendQueue, live: Liveness)

  function NewClient(baseDelay: nat, maxDelay: nat, reconnectEnabled: bool): Client {
    Client(Connection(Idle, None, 0, None, false, false, 0, [], baseDelay, maxDelay, true, reconnectEnabled,
                      None, None, 0),
           WaiterTable([], {}, 0, []), SendQueue([], {}, 0, []), Liveness(None, false, 0, 0, []))
  }

  function Pow2(n: nat): nat {
    if n == 0 then 1 else 2 * Pow2(n - 1)
  }

  function Delay(base: nat, max: nat, attempt: nat): nat {
    if base * Pow2(attempt) < max then base * Pow2(attempt) else max
  }

  function EndConnectPromise(k: Connection): Connection {
    k.(connectPromise := None, connectCallbacks := None)
  }

  function ArmReconnectTimer(k: Connection): Connection {
    var delay := Delay(k.baseDelay, k.maxDelay, k.attempt);
    k.(attempt := k.attempt + 1, reconnectTimer := Some(delay), delays := k.delays + [delay])
  }

  function DisposeTransport(c: Client): Client {
    c.(conn := c.conn.(transport := None, connectTimer := false, errorTimer := false),
       live := c.live.(heartbeat := false))
  }

  /** The part of a reconnect that changes the connection's own fields. */
  function LoseConnection(k: Connection): Connection {
    var k := k.(reconnectTimer := None);
    if k.status == Disposed then EndConnectPromise(k)
    else
      var k := k.(status := Disconnected);
      if !k.shouldReconnect || !k.reconnectEnabled then EndConnectPromise(k) else ArmReconnectTimer(k)
  }

  /** Everything that waited for the lost connection is rejected before the state changes. */
  function ScheduleReconnect(c: Client): Client {
    Client(LoseConnection(c.conn), ClearWaiters(c.waiters), RejectQueue(c.sends), c.live.(probe := None))
  }

  /** How the construction of a transport can go. */
  datatype Opening = Opens | FactoryThrows | HandlersThrow

  function AttemptConnect(c: Client, opening: Opening): Client {
    if c.conn.status == Disposed || !c.conn.shouldReconnect then c.(conn := EndConnectPromise(c.conn))
    else if c.conn.status == Connecting then c
    else
      var c := DisposeTransport(c);
      var dialling := c.(conn := c.conn.(status := Connecting, transport := Some(c.conn.nextTransport),
                                       nextTransport := c.conn.nextTransport + 1, connectTimer := true));
      match opening
      case Opens => dialling
      case FactoryThrows => FailAttempt(c)
      case HandlersThrow => FailAttempt(dialling.(conn := dialling.conn.(connectTimer := false)))
  }

  function FailAttempt(c: Client): Client {
    var c := ScheduleReconnect(c);
    c.(conn := EndConnectPromise(c.conn))
  }

  function Connect(c: Client, opening: Opening): Client {
    if c.conn.status == Disposed || c.conn.status == Connected || c.conn.connectPromise.Some? then c
    else
      var promise := c.conn.nextPromise;
      var c := c.(conn := c.conn.(shouldReconnect := true, connectCallbacks := Some(promise),
                                  nextPromise := promise + 1));
      var c := AttemptConnect(c, opening);
      c.(conn := c.conn.(connectPromise := Some(promise)))
  }

  function EnsureConnected(c: Client, opening: Opening): Client {
    if c.conn.status == Disposed then c
    else
      var c := c.(conn := c.conn.(shouldReconnect := true));
      if c.conn.status == Connected || c.conn.status == Connecting then c
      else
        var c := c.(conn := c.conn.(reconnectTimer := None));
        if c.conn.connectPromise.Some? then AttemptConnect(c, opening) else Connect(c, opening)
  }

  function Close(c: Client): Client {
    if c.conn.status == Disposed then c
    else
      var c := DisposeTransport(c);
      Client(EndConnectPromise(c.conn).(shouldReconnect := false, reconnectTimer := None, status := Disposed),
             ClearWaiters(c.waiters), RejectQueue(c.sends), c.live.(probe := None))
  }

  function SetReconnectEnabled(c: Client, enabled: bool): Client {
    c.(conn := c.conn.(reconnectEnabled := enabled, reconnectTimer := if enabled then c.conn.reconnectTimer else None))
  }

  function ReconnectTimerFires(c: Client, opening: Opening): Client {
    var c := c.(conn := c.conn.(reconnectTimer := None));
    if c.conn.shouldReconnect then AttemptConnect(c, opening) else c
  }

  function ConnectTimerFires(c: Client): Client {
    if c.conn.status == Connecting then ScheduleReconnect(DisposeTransport(c))
    else c.(conn := c.conn.(connectTimer := false))
  }

  function TransportOpens(c: Client, helloSent: bool): Client {
    var c := c.(conn := c.conn.(errorTimer := false));
    if c.conn.transport.Some? && helloSent then c else ScheduleReconnect(c)
  }

  function TransportCloses(c: Client): Client {
    ScheduleReconnect(c.(conn := c.conn.(connectTimer := false, errorTimer := false)))
  }

  /** An error without details only starts a grace period in which a close event may explain it. */
  function TransportErrors(c: Client, detailed: bool): Client {
    if detailed then TransportCloses(c) else c.(conn := c.conn.(connectTimer := false, errorTimer := true))
  }

  function ErrorTimerFires(c: Client): Client {
    var c := c.(conn := c.conn.(errorTimer := false));
    if c.conn.status == Connected || c.conn.status == Connecting then ScheduleReconnect(c) else c
  }

  /** Server info on a connection in the making completes it. */
  function BecomeConnected(c: Client, accepted: SendResult): Client {
    c.(conn := EndConnectPromise(c.conn).(connectTimer := false, attempt := 0, delays := [], status := Connected),
       sends := Flush(c.sends, c.conn.transport, accepted),
       live := c.live.(heartbeat := true))
  }

  function HandleSessionMessage(c: Client, m: Message, accepted: SendResult): Client {
    var c := if m == ServerInfo && c.conn.status == Connecting then BecomeConnected(c, accepted) else c;
    c.(waiters := ResolveWaiters(c.waiters, m))
  }

  function FileReply(requestId: string): Message {
    Response("file_explorer_response", requestId, "")
  }

  function FrameArrives(c: Client, frame: Frame, accepted: SendResult): Client {
    match frame
    case Invalid(None) => c
    case Invalid(Some(requestId)) => c.(waiters := RejectWaitersFor(c.waiters, requestId))
    case Pong => c.(live := SawFrame(c.live).(probe := None))
    case Session(m) => HandleSessionMessage(c.(live := SawFrame(c.live)), m, accepted)
    case Binary(None) => c.(live := SawFrame(c.live))
    case Binary(Some(requestId)) => HandleSessionMessage(c.(live := SawFrame(c.live)), FileReply(requestId), accepted)
  }

  /** Registers the waiter first, then sends, queues or fails. A failed send cancels the waiter; a send that is refused
      for want of a connection is reported by a later `Cancel`. */
  function SendRequest(c: Client, requestId: string, kind: string, select: Message -> bool, timed: bool,
                       message: string, sent: bool): Client {
    var id := c.waiters.next;
    var c := c.(waiters := AddWaiter(c.waiters, Some(requestId), Correlated(requestId, kind, select), timed));
    if c.conn.transport.Some? && c.conn.status == Connected then
      if sent then c else c.(waiters := CancelWaiter(c.waiters, id))
    else if c.conn.status == Connecting then
      c.(sends := Enqueue(c.sends, message, if c.conn.transport.Some? then c.conn.transport.value else 0))
    else c
  }

  function RecordLivenessFailure(c: Client, probe: Probe): Client {
    var failures := c.live.failures + 1;
    var c := c.(live := c.live.(failures := failures, log := c.live.log + [Failed(probe)]));
    if failures < LIVENESS_FAILURE_RECONNECT_THRESHOLD then c
    else
      var c := c.(live := c.live.(failures := 0, log := c.live.log + [Teardown]));
      ScheduleReconnect(DisposeTransport(c))
  }

  /** A failed ping counts only if the heartbeat started it. */
  function ProbeFails(c: Client, probe: Probe): Client {
    var c := c.(live := c.live.(probe := None));
    if probe.drives then RecordLivenessFailure(c, probe)
    else c.(live := c.live.(log := c.live.log + [Failed(probe)]))
  }

  function SendPing(c: Client, drives: bool, sent: bool): Client {
    if c.conn.status != Connected || c.conn.transport.None? || c.live.probe.Some? then c
    else
      var probe := Probe(c.live.next, drives, c.conn.transport.value);
      var c := c.(live := c.live.(probe := Some(probe), next := c.live.next + 1, log := c.live.log + [Started(probe)]));
      if sent then c else ProbeFails(c, probe)
  }

  function HeartbeatFires(c: Client, sent: bool): Client {
    SendPing(c.(live := c.live.(heartbeat := false)), true, sent)
  }

  /** After a heartbeat ping has ended, the next one is scheduled. */
  function HeartbeatSettles(c: Client): Client {
    if c.conn.status == Connected then c.(live := c.live.(heartbeat := true)) else c
  }

  // ---------------------------------------------------------------------------------------------
  // Runs

  datatype Event =
    | CallConnect(opening: Opening)
    | CallEnsureConnected(opening: Opening)
    | CallClose
    | CallSetReconnectEnabled(enabled: bool)
    | CallRequest(requestId: string, kind: string, select: Message -> bool, timed: bool, message: string, sent: bool)
    | CallWaitFor(accepts: Message -> bool, timed: bool)
    | CallMeasureLatency(sent: bool)
    | Cancel(id: nat)
    | OnOpen(helloSent: bool)
    | OnClose
    | OnError(detailed: bool)
    | OnFrame(frame: Frame, accepted: SendResult)
    | ReconnectTimer(opening: Opening)
    | ConnectTimer
    | ErrorTimer
    | WaiterTimer(id: nat)
    | SendTimer(id: nat)
    | PingTimer
    | HeartbeatTimer(sent: bool)
    | HeartbeatSettled

  /** A timer fires only while it is armed, and only a waiter that exists can be cancelled; everything else may happen
      at any time. */
  predicate Enabled(c: Client, e: Event) {
    match e
    case Cancel(id) => id < c.waiters.next
    case ReconnectTimer(_) => c.conn.reconnectTimer.Some?
    case ConnectTimer => c.conn.connectTimer
    case ErrorTimer => c.conn.errorTimer
    case WaiterTimer(id) => id in c.waiters.timers
    case SendTimer(id) => id in c.sends.timers
    case PingTimer => c.live.probe.Some?
    case HeartbeatTimer(_) => c.live.heartbeat
    case _ => true
  }

  function Step(c: Client, e: Event): Client
    requires Enabled(c, e)
  {
    match e
    case CallConnect(opening) => Connect(c, opening)
    case CallEnsureConnected(opening) => EnsureConnected(c, opening)
    case CallClose => Close(c)
    case CallSetReconnectEnabled(enabled) => SetReconnectEnabled(c, enabled)
    case CallRequest(r, kind, select, timed, message, sent) => SendRequest(c, r, kind, select, timed, message, sent)
    case CallWaitFor(accepts, timed) => c.(waiters := AddWaiter(c.waiters, None, accepts, timed))
    case CallMeasureLatency(sent) => SendPing(c, false, sent)
    case Cancel(id) => c.(waiters := CancelWaiter(c.waiters, id))
    case OnOpen(helloSent) => TransportOpens(c, helloSent)
    case OnClose => TransportCloses(c)
    case OnError(detailed) => TransportErrors(c, detailed)
    case OnFrame(frame, accepted) => FrameArrives(c, frame, accepted)
    case ReconnectTimer(opening) => ReconnectTimerFires(c, opening)
    case ConnectTimer => ConnectTimerFires(c)
    case ErrorTimer => ErrorTimerFires(c)
    case WaiterTimer(id) => c.(waiters := TimeoutWaiter(c.waiters, id))
    case SendTimer(id) => c.(sends := TimeoutSend(c.sends, id))
    case PingTimer => ProbeFails(c, c.live.probe.value)
    case HeartbeatTimer(sent) => HeartbeatFires(c, sent)
    case HeartbeatSettled => HeartbeatSettles(c)
  }

  /** Events that are not enabled when their turn comes do not happen. */
  function Run(c: Client, events: seq<Event>): Client
    decreases |events|
  {
    if events == [] then c
    else if Enabled(c, events[0]) then Run(Step(c, events[0]), events[1..])
    else Run(c, events[1..])
  }
}
