/** The reconnect timer: what it may fire on, and the delays it is armed with. */
module DaemonClientReconnect {
  import opened Options
  import opened DaemonClientModel
  import opened DaemonClientWaiters
  import opened DaemonClientLaws

  // ---------------------------------------------------------------------------------------------
  // The reconnect timer

  ghost predicate TimerIsIdle(c: Client) {
    c.conn.reconnectTimer.Some? ==> c.conn.status == Disconnected
  }

  /** A `connect()` that starts a transport although a reconnect timer is armed. */
  predicate OvertakesTimer(c: Client, e: Event) {
    e.CallConnect? && e.opening == Opens && c.conn.reconnectTimer.Some? && c.conn.connectPromise.None?
  }

  lemma AttemptStaysIdle(c: Client, opening: Opening)
    ensures TimerIsIdle(FailAttempt(c)) && TimerIsIdle(ScheduleReconnect(c))
    ensures c.conn.reconnectTimer.None? ==> TimerIsIdle(AttemptConnect(c, opening))
    ensures c.conn.reconnectTimer.None? ==> TimerIsIdle(Connect(c, opening))
    ensures TimerIsIdle(c) ==>
              (TimerIsIdle(Connect(c, opening)) <==> !OvertakesTimer(c, CallConnect(opening)))
  {
    hide ClearWaiters, RejectQueue, Delay;
  }

  lemma ProbeStaysIdle(c: Client, probe: Probe, drives: bool, sent: bool)
    requires TimerIsIdle(c)
    ensures TimerIsIdle(ProbeFails(c, probe)) && TimerIsIdle(SendPing(c, drives, sent))
  {
    hide ScheduleReconnect;
    AttemptStaysIdle(DisposeTransport(c), Opens);
    var failing := c.(live := c.live.(probe := None));
    forall d: Client ensures TimerIsIdle(ScheduleReconnect(d)) {
      AttemptStaysIdle(d, Opens);
    }
  }

  /** One step leaves an armed timer behind on a connection that is not down iff it is such a `connect()`. */
  lemma TimerStaysIdle(c: Client, e: Event)
    requires TimerIsIdle(c) && Enabled(c, e)
    ensures TimerIsIdle(Step(c, e)) <==> !OvertakesTimer(c, e)
  {
    hide ScheduleReconnect, AttemptConnect, Connect, ProbeFails, SendPing, CancelWaiter, AddWaiter, ResolveWaiters;
    hide Flush, Enqueue, TimeoutSend, TimeoutWaiter, RejectWaitersFor;
    forall d: Client ensures TimerIsIdle(ScheduleReconnect(d)) {
      AttemptStaysIdle(d, Opens);
    }
    forall d: Client, opening: Opening
      ensures d.conn.reconnectTimer.None? ==> TimerIsIdle(AttemptConnect(d, opening))
      ensures d.conn.reconnectTimer.None? ==> TimerIsIdle(Connect(d, opening))
    {
      AttemptStaysIdle(d, opening);
    }
    match e
    case CallConnect(opening) => AttemptStaysIdle(c, opening);
    case CallMeasureLatency(sent) => ProbeStaysIdle(c, Probe(0, false, 0), false, sent);
    case PingTimer => ProbeStaysIdle(c, c.live.probe.value, false, true);
    case HeartbeatTimer(sent) =>
      ProbeStaysIdle(c.(live := c.live.(heartbeat := false)), Probe(0, false, 0), true, sent);
    case CallEnsureConnected(_) =>
    case OnFrame(_, _) =>
    case CallRequest(_, _, _, _, _, _) =>
    case _ =>
  }

  lemma {:induction false} IdleSoFar(c: Client, events: seq<Event>, n: nat)
    requires n <= |events| && TimerIsIdle(c)
    requires forall k | 0 <= k < n :: !OvertakesTimer(After(c, events, k), events[k])
    ensures TimerIsIdle(After(c, events, n))
  {
    hide TimerIsIdle, OvertakesTimer, After;
    if n == 0 {
      AfterEnds(c, events);
    } else {
      IdleSoFar(c, events, n - 1);
      AfterNext(c, events, n - 1);
      if Enabled(After(c, events, n - 1), events[n - 1]) {
        TimerStaysIdle(After(c, events, n - 1), events[n - 1]);
      }
    }
  }

  /** An armed reconnect timer means "disconnected" all through a run, so that none ever fires on a live connection, iff
      no `connect()` of the run opens a transport over an armed timer. */
  lemma {:induction false} TimerNeverHitsLiveConnection(c: Client, events: seq<Event>)
    requires TimerIsIdle(c)
    ensures (forall n | 0 <= n <= |events| :: TimerIsIdle(After(c, events, n)))
            <==> forall n | 0 <= n < |events| :: !OvertakesTimer(After(c, events, n), events[n])
  {
    hide TimerIsIdle, After;
    if forall n | 0 <= n <= |events| :: TimerIsIdle(After(c, events, n)) {
      forall n | 0 <= n < |events| ensures !OvertakesTimer(After(c, events, n), events[n]) {
        assert TimerIsIdle(After(c, events, n)) && TimerIsIdle(After(c, events, n + 1));
        AfterNext(c, events, n);
        if OvertakesTimer(After(c, events, n), events[n]) {
          TimerStaysIdle(After(c, events, n), events[n]);
        }
      }
    }
    if forall n | 0 <= n < |events| :: !OvertakesTimer(After(c, events, n), events[n]) {
      forall n | 0 <= n <= |events| ensures TimerIsIdle(After(c, events, n)) {
        IdleSoFar(c, events, n);
      }
    }
  }

  function Always(answer: bool): SendResult {
    _ => answer
  }

  /** Without that condition it happens: connect, server info, the transport closes, the caller connects again before
      the timer, server info, and now the old timer replaces the live connection and leaves its waiter behind. */
  lemma StaleTimerReplacesLiveConnection(baseDelay: nat, maxDelay: nat, accepts: Message -> bool)
    ensures var c := Run(NewClient(baseDelay, maxDelay, true),
                         [CallConnect(Opens), OnFrame(Session(ServerInfo), Always(true)), OnClose, CallConnect(Opens),
                          OnFrame(Session(ServerInfo), Always(true)), CallWaitFor(accepts, true)]);
            && c.conn.status == Connected && c.conn.transport == Some(1)
            && Enabled(c, ReconnectTimer(Opens))
            && var d := Step(c, ReconnectTimer(Opens));
               d.conn.status == Connecting && d.conn.transport == Some(2) && |d.waiters.waiters| == 1
  {
    hide Run, Step;
    var info := OnFrame(Session(ServerInfo), Always(true));
    var last := CallWaitFor(accepts, true);
    var c1, c2, c3 := FirstConnection(baseDelay, maxDelay);
    var c4, c5, c6 := SecondConnection(c3, accepts);
    var up := CallConnect(Opens);
    var r5 := [last];
    var r4, r3 := [info] + r5, [up] + ([info] + r5);
    var r1 := [info] + ([OnClose] + r3);
    RunNone(c6);
    RunCons(c5, last, []);
    RunCons(c4, info, r5);
    RunCons(c3, up, r4);
    RunCons(c2, OnClose, r3);
    RunCons(c1, info, [OnClose] + r3);
    RunCons(NewClient(baseDelay, maxDelay, true), up, r1);
    assert [up, info, OnClose, up, info, last] == [up] + r1;
    assert [last] + [] == r5;
    StaleTimerStep(c6);
  }

  lemma FirstConnection(baseDelay: nat, maxDelay: nat) returns (c1: Client, c2: Client, c3: Client)
    ensures c1 == Step(NewClient(baseDelay, maxDelay, true), CallConnect(Opens))
    ensures c2 == Step(c1, OnFrame(Session(ServerInfo), Always(true))) && c3 == Step(c2, OnClose)
    ensures c3.conn.status == Disconnected && c3.conn.reconnectTimer.Some? && c3.conn.connectPromise.None?
    ensures c3.conn.nextTransport == 1 && c3.waiters.waiters == []
  {
    hide Flush, Delay;
    c1 := Step(NewClient(baseDelay, maxDelay, true), CallConnect(Opens));
    c2 := Step(c1, OnFrame(Session(ServerInfo), Always(true)));
    c3 := Step(c2, OnClose);
  }

  lemma SecondConnection(c3: Client, accepts: Message -> bool) returns (c4: Client, c5: Client, c6: Client)
    requires c3.conn.status == Disconnected && c3.conn.reconnectTimer.Some? && c3.conn.connectPromise.None?
    requires c3.waiters.waiters == []
    ensures c4 == Step(c3, CallConnect(Opens)) && c5 == Step(c4, OnFrame(Session(ServerInfo), Always(true)))
    ensures c6 == Step(c5, CallWaitFor(accepts, true))
    ensures c6.conn.status == Connected && c6.conn.reconnectTimer.Some? && c6.conn.shouldReconnect
    ensures c6.conn.transport == Some(c3.conn.nextTransport) && c6.conn.nextTransport == c3.conn.nextTransport + 1
    ensures |c6.waiters.waiters| == 1
  {
    hide Flush, Delay;
    c4 := Step(c3, CallConnect(Opens));
    c5 := Step(c4, OnFrame(Session(ServerInfo), Always(true)));
    c6 := Step(c5, CallWaitFor(accepts, true));
  }

  lemma RunNone(c: Client)
    ensures Run(c, []) == c
  {
  }

  lemma StaleTimerStep(c: Client)
    requires c.conn.status == Connected && c.conn.shouldReconnect && c.conn.reconnectTimer.Some?
    ensures var d := Step(c, ReconnectTimer(Opens));
            && d.conn.status == Connecting && d.conn.transport == Some(c.conn.nextTransport)
            && d.waiters == c.waiters
  {
  }

  lemma RunCons(c: Client, e: Event, rest: seq<Event>)
    requires Enabled(c, e)
    ensures Run(c, [e] + rest) == Run(Step(c, e), rest)
  {
    assert ([e] + rest)[1..] == rest;
  }

  // ---------------------------------------------------------------------------------------------
  // Reconnect delays

  lemma Doubled(base: nat, p: nat)
    ensures base * p <= base * (2 * p)
  {
    assert base * (2 * p) == 2 * (base * p);
  }

  lemma {:induction false} PowersGrow(base: nat, max: nat, i: nat, j: nat)
    requires i <= j
    ensures Pow2(i) <= Pow2(j) && Delay(base, max, i) <= Delay(base, max, j)
    decreases j - i
  {
    if i < j {
      PowersGrow(base, max, i, j - 1);
      Doubled(base, Pow2(j - 1));
    }
  }

  lemma {:induction false} ConfigKept(c: Client, events: seq<Event>)
    ensures Run(c, events).conn.baseDelay == c.conn.baseDelay && Run(c, events).conn.maxDelay == c.conn.maxDelay
    decreases |events|
  {
    if events != [] {
      if Enabled(c, events[0]) {
        StepKeepsConfig(c, events[0]);
        ConfigKept(Step(c, events[0]), events[1..]);
      } else {
        ConfigKept(c, events[1..]);
      }
    }
  }

  predicate SameConfig(c: Client, d: Client) {
    c.conn.baseDelay == d.conn.baseDelay && c.conn.maxDelay == d.conn.maxDelay
  }

  lemma AttemptKeepsConfig(c: Client, opening: Opening)
    ensures SameConfig(c, ScheduleReconnect(c)) && SameConfig(c, AttemptConnect(c, opening))
    ensures SameConfig(c, Connect(c, opening))
  {
    hide ClearWaiters, RejectQueue, Delay;
  }

  lemma StepKeepsConfig(c: Client, e: Event)
    requires Enabled(c, e)
    ensures SameConfig(c, Step(c, e))
  {
    hide ResolveWaiters, RejectWaitersFor, AddWaiter, TimeoutWaiter, CancelWaiter, Flush, Enqueue, TimeoutSend;
    hide SawFrame;
    hide ScheduleReconnect, AttemptConnect, Connect;
    forall d: Client ensures SameConfig(d, ScheduleReconnect(d)) {
      AttemptKeepsConfig(d, Opens);
    }
    forall d: Client, opening: Opening
      ensures SameConfig(d, AttemptConnect(d, opening)) && SameConfig(d, Connect(d, opening))
    {
      AttemptKeepsConfig(d, opening);
    }
    match e
    case OnFrame(_, _) =>
    case PingTimer =>
    case CallMeasureLatency(_) =>
    case HeartbeatTimer(_) =>
    case CallRequest(_, _, _, _, _, _) =>
    case _ =>
  }

  /** Over every run, the delays armed since the client was last connected double from the base up to the
      maximum, and stay there. */
  lemma DelaySchedule(baseDelay: nat, maxDelay: nat, enabled: bool, events: seq<Event>)
    ensures var delays := Run(NewClient(baseDelay, maxDelay, enabled), events).conn.delays;
            && (forall i | 0 <= i < |delays| :: delays[i] <= maxDelay)
            && (forall i | 0 <= i < |delays| ::
                  delays[i] == if baseDelay * Pow2(i) < maxDelay then baseDelay * Pow2(i) else maxDelay)
            && (forall i, j | 0 <= i <= j < |delays| :: delays[i] <= delays[j])
            && (delays != [] ==> delays[0] == Least(baseDelay, maxDelay))
            && (forall i | 0 < i < |delays| :: delays[i] == Least(2 * delays[i - 1], maxDelay))
  {
    var c := NewClient(baseDelay, maxDelay, enabled);
    InitialInv(baseDelay, maxDelay, enabled);
    RunKeepsInv(c, events);
    ConfigKept(c, events);
    var delays := Run(c, events).conn.delays;
    forall i, j | 0 <= i <= j < |delays| ensures delays[i] <= delays[j] {
      PowersGrow(baseDelay, maxDelay, i, j);
    }
    forall i | 0 < i < |delays| ensures delays[i] == Least(2 * delays[i - 1], maxDelay) {
      DoublesUpTo(baseDelay, maxDelay, i - 1);
    }
  }

  function Least(a: nat, b: nat): nat {
    if a < b then a else b
  }

  lemma {:induction false} DoublesUpTo(base: nat, max: nat, i: nat)
    ensures Delay(base, max, i + 1) == Least(2 * Delay(base, max, i), max)
  {
    assert base * Pow2(i + 1) == 2 * (base * Pow2(i)) by {
      assert Pow2(i + 1) == 2 * Pow2(i);
    }
  }

  /** No timer is armed from `c` to `d`, or the one delay armed is the next of the schedule. */
  predicate Advances(c: Client, d: Client) {
    || (d.conn.delays == c.conn.delays && d.conn.reconnectTimer in {None, c.conn.reconnectTimer})
    || (d.conn.delays == c.conn.delays + [NextDelay(c.conn)] && d.conn.reconnectTimer == Some(NextDelay(c.conn)))
  }

  function NextDelay(k: Connection): nat {
    Delay(k.baseDelay, k.maxDelay, k.attempt)
  }

  /** A client that comes up has nothing left of the time before. */
  predicate StartsAfresh(d: Client) {
    && d.live.failures == 0 && d.live.heartbeat && d.conn.delays == [] && d.conn.attempt == 0
    && !d.conn.connectTimer && d.sends.queue == [] && d.conn.connectPromise.None?
  }

  lemma ScheduleAdvances(c: Client)
    ensures Advances(c, ScheduleReconnect(c)) && ScheduleReconnect(c).conn.status != Connected
    ensures Advances(c, FailAttempt(c)) && FailAttempt(c).conn.status != Connected
  {
    hide ClearWaiters, RejectQueue, Delay;
  }

  lemma AttemptAdvances(c: Client, opening: Opening)
    ensures Advances(c, AttemptConnect(c, opening)) && Advances(c, Connect(c, opening))
    ensures c.conn.status != Connected ==>
              AttemptConnect(c, opening).conn.status != Connected && Connect(c, opening).conn.status != Connected
  {
    hide FailAttempt;
    forall d: Client ensures Advances(d, FailAttempt(d)) && FailAttempt(d).conn.status != Connected {
      ScheduleAdvances(d);
    }
  }

  lemma PingAdvances(c: Client, probe: Probe, drives: bool, sent: bool)
    ensures Advances(c, ProbeFails(c, probe)) && Advances(c, SendPing(c, drives, sent))
    ensures c.conn.status != Connected ==>
              ProbeFails(c, probe).conn.status != Connected && SendPing(c, drives, sent) == c
  {
    hide ScheduleReconnect;
    forall d: Client ensures Advances(d, ScheduleReconnect(d)) && ScheduleReconnect(d).conn.status != Connected {
      ScheduleAdvances(d);
    }
  }

  /** Each step arms at most the next delay. Only server info on a connection in the making brings the client up, and
      then the delays start again, the failure count is zero and no message waits. */
  lemma DelaysAdvanceOrRestart(c: Client, e: Event)
    requires Enabled(c, e)
    ensures var d := Step(c, e);
            if c.conn.status != Connected && d.conn.status == Connected
            then c.conn.status == Connecting && e.OnFrame? && e.frame == Session(ServerInfo) && StartsAfresh(d)
                 && d.conn.reconnectTimer == c.conn.reconnectTimer
            else Advances(c, d)
  {
    hide ResolveWaiters, RejectWaitersFor, AddWaiter, TimeoutWaiter, CancelWaiter, ClearWaiters, Enqueue, TimeoutSend;
    hide ScheduleReconnect, AttemptConnect, Connect, SendPing, ProbeFails, RejectQueue;
    forall d: Client ensures Advances(d, ScheduleReconnect(d)) && ScheduleReconnect(d).conn.status != Connected {
      ScheduleAdvances(d);
    }
    forall d: Client, opening: Opening
      ensures Advances(d, AttemptConnect(d, opening)) && Advances(d, Connect(d, opening))
      ensures d.conn.status != Connected ==>
                AttemptConnect(d, opening).conn.status != Connected && Connect(d, opening).conn.status != Connected
    {
      AttemptAdvances(d, opening);
    }
    match e
    case PingTimer => PingAdvances(c, c.live.probe.value, true, true);
    case CallMeasureLatency(sent) => PingAdvances(c, Probe(0, false, 0), false, sent);
    case HeartbeatTimer(sent) => PingAdvances(c.(live := c.live.(heartbeat := false)), Probe(0, false, 0), true, sent);
    case OnFrame(_, _) =>
    case CallRequest(_, _, _, _, _, _) =>
    case _ =>
  }

  /** Over every run: between one event and the next the reconnect timer is cleared, kept, or armed with the base times
      two to the number of delays armed since the client last came up, cut at the maximum; and that number grows by one
      with each arming and goes back to zero only when the client comes up. */
  lemma {:induction false} TimersFollowSchedule(
    baseDelay: nat, maxDelay: nat, enabled: bool, events: seq<Event>, n: nat)
    requires n < |events|
    ensures var new_ := NewClient(baseDelay, maxDelay, enabled);
            var c, d := After(new_, events, n).conn, After(new_, events, n + 1).conn;
            var power := baseDelay * Pow2(|c.delays|);
            var next := if power < maxDelay then power else maxDelay;
            || (d.reconnectTimer in {None, c.reconnectTimer} && d.delays == c.delays)
            || (d.reconnectTimer == Some(next) && d.delays == c.delays + [next])
            || (c.status == Connecting && d.status == Connected && d.reconnectTimer == c.reconnectTimer
                && d.delays == [])
  {
    var new_ := NewClient(baseDelay, maxDelay, enabled);
    InitialInv(baseDelay, maxDelay, enabled);
    RunKeepsInv(new_, events[..n]);
    ConfigKept(new_, events[..n]);
    AfterNext(new_, events, n);
    var c := After(new_, events, n);
    assert |c.conn.delays| == c.conn.attempt;
    if Enabled(c, events[n]) {
      hide Step, Run, Enabled;
      DelaysAdvanceOrRestart(c, events[n]);
    }
  }
}
