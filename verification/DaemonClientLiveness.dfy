/** Liveness: when pings that fail take a connection down, and whose connection it is. */
module DaemonClientLiveness {
  import opened Options
  import opened DaemonClientModel
  import opened DaemonClientWaiters
  import opened DaemonClientLaws
  import opened DaemonClientReconnect

  // ---------------------------------------------------------------------------------------------
  // Teardowns

  predicate HeartbeatFailure(e: LivenessEvent) {
    e.Failed? && e.probe.drives
  }

  predicate Quiet(log: seq<LivenessEvent>, from: nat, end: nat) {
    forall i | from <= i < end && i < |log| :: log[i] != FrameSeen && log[i] != Teardown
  }

  /** Position `i` follows a failed heartbeat ping, and another one failed at `j` with no valid frame and no teardown
      in between. */
  predicate TwoFailures(log: seq<LivenessEvent>, j: nat, i: nat) {
    && j + 1 < i <= |log|
    && HeartbeatFailure(log[j]) && HeartbeatFailure(log[i - 1])
    && Quiet(log, j, i)
  }

  lemma {:induction false} LastFailure(log: seq<LivenessEvent>) returns (j: nat)
    requires Streak(log) > 0
    ensures j < |log| && HeartbeatFailure(log[j]) && Quiet(log, j, |log|)
    ensures LastFailedOn(log) == Some(log[j].probe.connection)
  {
    var n := |log| - 1;
    if HeartbeatFailure(log[n]) {
      j := n;
    } else {
      j := LastFailure(log[..n]);
      assert forall i | 0 <= i < n :: log[..n][i] == log[i];
    }
  }

  lemma {:induction false} StreakCounts(log: seq<LivenessEvent>, j: nat, end: nat)
    requires j < end <= |log| && HeartbeatFailure(log[j]) && Quiet(log, j, end)
    ensures Streak(log[..end]) >= 1
    decreases end
  {
    assert log[..end][..end - 1] == log[..end - 1];
    if j < end - 1 {
      StreakCounts(log, j, end - 1);
    }
  }

  lemma {:induction false} StreakBound(log: seq<LivenessEvent>, i: nat)
    requires TeardownsExact(log) && i <= |log|
    ensures Streak(log[..i]) <= LIVENESS_FAILURE_RECONNECT_THRESHOLD
  {
    if i > 0 {
      StreakBound(log, i - 1);
      assert log[..i][..i - 1] == log[..i - 1];
      assert log[i - 1] == Teardown <==> Streak(log[..i - 1]) == LIVENESS_FAILURE_RECONNECT_THRESHOLD;
    }
  }

  lemma TeardownHasTwoFailures(log: seq<LivenessEvent>, i: nat) returns (j: nat)
    requires TeardownsExact(log) && i < |log| && log[i] == Teardown
    ensures TwoFailures(log, j, i) && LastFailedOn(log[..i - 1]) == Some(log[j].probe.connection)
  {
    var before := log[..i - 1];
    assert log[..i][..i - 1] == before;
    assert log[i - 1] == Teardown <==> Streak(before) == LIVENESS_FAILURE_RECONNECT_THRESHOLD;
    j := LastFailure(before);
    assert forall m | 0 <= m < i - 1 :: before[m] == log[m];
  }

  lemma TeardownIffTwoFailures(log: seq<LivenessEvent>, i: nat)
    requires TeardownsExact(log) && Streak(log) < LIVENESS_FAILURE_RECONNECT_THRESHOLD && i <= |log|
    ensures (i < |log| && log[i] == Teardown) <==> exists j: nat :: TwoFailures(log, j, i)
  {
    hide TwoFailures, Streak, TeardownsExact;
    if i < |log| && log[i] == Teardown {
      var j := TeardownHasTwoFailures(log, i);
    } else if j: nat :| TwoFailures(log, j, i) {
      TwoFailuresTearDown(log, j, i);
    }
  }

  lemma TwoFailuresTearDown(log: seq<LivenessEvent>, j: nat, i: nat)
    requires TeardownsExact(log) && Streak(log) < LIVENESS_FAILURE_RECONNECT_THRESHOLD && TwoFailures(log, j, i)
    ensures i < |log| && log[i] == Teardown
  {
    hide Streak, TeardownsExact;
    QuietPrefix(log, j, i);
    StreakCounts(log, j, i - 1);
    StreakStep(log, i);
    StreakBound(log, i);
    assert log[..|log|] == log;
    if i < |log| {
      TeardownAt(log, i);
    }
  }

  lemma QuietPrefix(log: seq<LivenessEvent>, j: nat, i: nat)
    requires Quiet(log, j, i) && 0 < i
    ensures Quiet(log, j, i - 1)
  {
  }

  lemma TeardownAt(log: seq<LivenessEvent>, i: nat)
    requires TeardownsExact(log) && i < |log|
    ensures log[i] == Teardown <==> Streak(log[..i]) == LIVENESS_FAILURE_RECONNECT_THRESHOLD
  {
  }

  lemma StreakStep(log: seq<LivenessEvent>, i: nat)
    requires 0 < i <= |log| && HeartbeatFailure(log[i - 1])
    ensures Streak(log[..i]) == Streak(log[..i - 1]) + 1
  {
    assert log[..i][..i - 1] == log[..i - 1];
  }

  /** Over every run, a liveness teardown happens exactly when two pings of the heartbeat have failed with no valid
      inbound frame between them; pings of latency measurements do not appear in the condition. */
  lemma LivenessTeardowns(baseDelay: nat, maxDelay: nat, enabled: bool, events: seq<Event>, i: nat)
    requires i <= |Run(NewClient(baseDelay, maxDelay, enabled), events).live.log|
    ensures var l := Run(NewClient(baseDelay, maxDelay, enabled), events).live;
            && l.failures < LIVENESS_FAILURE_RECONNECT_THRESHOLD
            && ((i < |l.log| && l.log[i] == Teardown) <==> exists j: nat :: TwoFailures(l.log, j, i))
  {
    InitialInv(baseDelay, maxDelay, enabled);
    RunKeepsInv(NewClient(baseDelay, maxDelay, enabled), events);
    TeardownIffTwoFailures(Run(NewClient(baseDelay, maxDelay, enabled), events).live.log, i);
  }

  /** The connection of the last heartbeat ping that failed since the last valid frame or teardown. */
  function LastFailedOn(log: seq<LivenessEvent>): Option<nat> {
    if log == [] then None
    else
      match log[|log| - 1]
      case FrameSeen => None
      case Teardown => None
      case Failed(probe) => if probe.drives then Some(probe.connection) else LastFailedOn(log[..|log| - 1])
      case Started(_) => LastFailedOn(log[..|log| - 1])
  }

  ghost predicate SameConnection(log: seq<LivenessEvent>) {
    forall i | 0 < i < |log| && log[i] == Teardown ::
      log[i - 1].Failed? && LastFailedOn(log[..i - 1]) == Some(log[i - 1].probe.connection)
  }

  // ---------------------------------------------------------------------------------------------
  // Whose pings fail

  /** A ping in flight belongs to the connection that is up. */
  predicate PingFits(c: Client) {
    c.live.probe.Some? ==> c.conn.status == Connected && c.conn.transport == Some(c.live.probe.value.connection)
  }

  /** A reconnect timer that replaces a live connection under a ping in flight. */
  predicate StrandsPing(c: Client, e: Event) {
    && e.ReconnectTimer? && e.opening == Opens && c.conn.reconnectTimer.Some?
    && c.conn.shouldReconnect && c.conn.status == Connected && c.live.probe.Some?
  }

  /** Pings and failures belong to the connection that is up. */
  ghost predicate PingsBelong(c: Client) {
    && PingFits(c)
    && (c.conn.status == Connected ==> c.conn.transport.Some?)
    && (c.conn.status == Connected && c.live.failures > 0 ==> LastFailedOn(c.live.log) == c.conn.transport)
    && SameConnection(c.live.log)
  }

  lemma SameGrows(log: seq<LivenessEvent>, e: LivenessEvent)
    requires SameConnection(log)
    requires e == Teardown && log != [] ==>
               log[|log| - 1].Failed? && LastFailedOn(log[..|log| - 1]) == Some(log[|log| - 1].probe.connection)
    ensures SameConnection(log + [e])
  {
    var log' := log + [e];
    forall i | 0 < i < |log'| && log'[i] == Teardown
      ensures log'[i - 1].Failed? && LastFailedOn(log'[..i - 1]) == Some(log'[i - 1].probe.connection)
    {
      assert log'[..i - 1] == log[..i - 1] && log'[i - 1] == log[i - 1];
    }
  }

  lemma LastFailedGrows(log: seq<LivenessEvent>, e: LivenessEvent)
    ensures LastFailedOn(log + [e]) == match e case FrameSeen => None
                                               case Teardown => None
                                               case Failed(p) =>
                                                 if p.drives then Some(p.connection) else LastFailedOn(log)
                                               case Started(_) => LastFailedOn(log)
  {
    assert (log + [e])[..|log|] == log;
  }

  lemma ProbeFailsBelongs(c: Client, probe: Probe)
    requires Inv(c) && PingsBelong(c) && c.conn.status == Connected && c.conn.transport == Some(probe.connection)
    ensures PingsBelong(ProbeFails(c, probe))
  {
    hide ClearWaiters, RejectQueue, Delay, WaitersOk, QueueOk, DelaysOk;
    var log := c.live.log;
    SameGrows(log, Failed(probe));
    LastFailedGrows(log, Failed(probe));
    if probe.drives && c.live.failures == 1 {
      var log' := log + [Failed(probe)];
      assert log'[..|log|] == log;
      SameGrows(log', Teardown);
    }
  }

  lemma SendPingBelongs(c: Client, drives: bool, sent: bool)
    requires Inv(c) && PingsBelong(c)
    ensures PingsBelong(SendPing(c, drives, sent))
  {
    hide ProbeFails, WaitersOk, SendsOk, DelaysOk, TeardownsExact, SameConnection;
    if c.conn.status == Connected && c.live.probe.None? {
      var probe := Probe(c.live.next, drives, c.conn.transport.value);
      var c' := c.(live := c.live.(probe := Some(probe), next := c.live.next + 1,
                                  log := c.live.log + [Started(probe)]));
      LogGrows(c.live, Started(probe));
      SameGrows(c.live.log, Started(probe));
      LastFailedGrows(c.live.log, Started(probe));
      ProbeFailsBelongs(c', probe);
    }
  }

  lemma FrameBelongs(c: Client, frame: Frame, accepted: SendResult)
    requires Inv(c) && PingsBelong(c)
    ensures PingsBelong(FrameArrives(c, frame, accepted))
  {
    hide ResolveWaiters, RejectWaitersFor, Flush, WaitersOk, SendsOk, DelaysOk, TeardownsExact, SameConnection;
    SameGrows(c.live.log, FrameSeen);
  }

  /** A connection that goes down or is being made has no ping and needs no failure. */
  lemma {:induction false} DownBelongs(c: Client, d: Client)
    requires PingsBelong(c) && d.conn.status != Connected && d.live.probe.None?
    requires d.live.log == c.live.log
    ensures PingsBelong(d)
  {
  }

  lemma {:induction false} AttemptBelongs(c: Client, opening: Opening)
    requires PingsBelong(c)
    requires !(opening == Opens && c.conn.shouldReconnect && c.conn.status == Connected && c.live.probe.Some?)
    ensures PingsBelong(AttemptConnect(c, opening))
  {
    hide ClearWaiters, RejectQueue, Delay, LastFailedOn, SameConnection;
  }

  lemma {:induction false} ConnectBelongs(c: Client, opening: Opening)
    requires PingsBelong(c)
    ensures PingsBelong(Connect(c, opening))
  {
    hide AttemptConnect, LastFailedOn, SameConnection;
    var promise := c.conn.nextPromise;
    if c.conn.status != Connected {
      AttemptBelongs(c.(conn := c.conn.(shouldReconnect := true, connectCallbacks := Some(promise),
                                        nextPromise := promise + 1)), opening);
    }
  }

  lemma {:induction false} EnsureConnectedBelongs(c: Client, opening: Opening)
    requires PingsBelong(c)
    ensures PingsBelong(EnsureConnected(c, opening))
  {
    hide AttemptConnect, Connect, LastFailedOn, SameConnection;
    var c' := c.(conn := c.conn.(shouldReconnect := true, reconnectTimer := None));
    if c.conn.status != Connected {
      AttemptBelongs(c', opening);
    }
    ConnectBelongs(c', opening);
  }

  lemma {:induction false} ScheduleBelongs(c: Client)
    requires PingsBelong(c)
    ensures PingsBelong(ScheduleReconnect(c)) && PingsBelong(ScheduleReconnect(DisposeTransport(c)))
  {
    hide ClearWaiters, RejectQueue, Delay, LastFailedOn, SameConnection;
  }

  lemma {:induction false} StepKeepsBelonging(c: Client, e: Event)
    requires Inv(c) && PingsBelong(c) && Enabled(c, e) && !StrandsPing(c, e)
    ensures PingsBelong(Step(c, e))
  {
    hide ProbeFails, SendPing, FrameArrives, Inv, SameConnection, LastFailedOn, ScheduleReconnect, AttemptConnect;
    hide Connect, EnsureConnected;
    hide ClearWaiters, AddWaiter, CancelWaiter, TimeoutWaiter, TimeoutSend, Enqueue, RejectQueue;
    match e
    case CallMeasureLatency(sent) => SendPingBelongs(c, false, sent);
    case HeartbeatTimer(sent) =>
      StopHeartbeatInv(c);
      SendPingBelongs(c.(live := c.live.(heartbeat := false)), true, sent);
    case PingTimer => ProbeFailsBelongs(c, c.live.probe.value);
    case OnFrame(frame, accepted) => FrameBelongs(c, frame, accepted);
    case CallConnect(opening) => ConnectBelongs(c, opening);
    case CallEnsureConnected(opening) => EnsureConnectedBelongs(c, opening);
    case ReconnectTimer(opening) => AttemptBelongs(c.(conn := c.conn.(reconnectTimer := None)), opening);
    case CallClose => DownBelongs(c, Close(c));
    case OnOpen(_) => ScheduleBelongs(c.(conn := c.conn.(errorTimer := false)));
    case OnClose => ScheduleBelongs(c.(conn := c.conn.(connectTimer := false, errorTimer := false)));
    case OnError(_) => ScheduleBelongs(c.(conn := c.conn.(connectTimer := false, errorTimer := false)));
    case ConnectTimer => ScheduleBelongs(c);
    case ErrorTimer => ScheduleBelongs(c.(conn := c.conn.(errorTimer := false)));
    case _ =>
  }

  lemma {:induction false} StopHeartbeatInv(c: Client)
    requires Inv(c)
    ensures Inv(c.(live := c.live.(heartbeat := false)))
  {
  }

  /** Fitting, without what it takes to follow the failures. */
  lemma {:induction false} FitsAfterPing(c: Client, probe: Probe, drives: bool, sent: bool)
    requires PingFits(c)
    ensures PingFits(ProbeFails(c, probe)) && PingFits(SendPing(c, drives, sent))
  {
    hide ClearWaiters, RejectQueue, LoseConnection;
  }

  lemma {:induction false} FitsAfterAttempt(c: Client, opening: Opening)
    requires PingFits(c)
    ensures PingFits(AttemptConnect(c, opening))
            <==> !(opening == Opens && c.conn.shouldReconnect && c.conn.status == Connected && c.live.probe.Some?)
  {
    hide ClearWaiters, RejectQueue, LoseConnection;
  }

  lemma {:induction false} FitsAfterConnect(c: Client, opening: Opening)
    requires PingFits(c)
    ensures PingFits(Connect(c, opening)) && PingFits(EnsureConnected(c, opening))
  {
    hide AttemptConnect;
    forall d: Client | PingFits(d) && d.conn.status != Connected ensures PingFits(AttemptConnect(d, opening)) {
      FitsAfterAttempt(d, opening);
    }
  }

  /** One step leaves a ping in flight behind iff a reconnect timer replaces the live connection under it; the ping then
      outlives its connection, with its timer armed, while the next one is made. */
  lemma {:induction false} PingStaysOnItsConnection(c: Client, e: Event)
    requires PingFits(c) && Enabled(c, e)
    ensures PingFits(Step(c, e)) <==> !StrandsPing(c, e)
    ensures StrandsPing(c, e) ==>
              var d := Step(c, e);
              d.conn.status == Connecting && d.conn.transport == Some(c.conn.nextTransport)
              && d.live.probe == c.live.probe
  {
    hide ResolveWaiters, RejectWaitersFor, AddWaiter, TimeoutWaiter, CancelWaiter, ClearWaiters, Enqueue, TimeoutSend;
    hide AttemptConnect, Connect, EnsureConnected, SendPing, ProbeFails, RejectQueue, Flush, LoseConnection;
    match e
    case PingTimer => FitsAfterPing(c, c.live.probe.value, true, true);
    case CallMeasureLatency(sent) => FitsAfterPing(c, Probe(0, false, 0), false, sent);
    case HeartbeatTimer(sent) => FitsAfterPing(c.(live := c.live.(heartbeat := false)), Probe(0, false, 0), true, sent);
    case CallConnect(opening) => FitsAfterConnect(c, opening);
    case CallEnsureConnected(opening) => FitsAfterConnect(c, opening);
    case ReconnectTimer(opening) =>
      FitsAfterAttempt(c.(conn := c.conn.(reconnectTimer := None)), opening);
      if StrandsPing(c, e) {
        StrandedPing(c);
      }
    case OnFrame(_, _) =>
    case CallRequest(_, _, _, _, _, _) =>
    case _ =>
  }

  lemma {:induction false} StrandedPing(c: Client)
    requires StrandsPing(c, ReconnectTimer(Opens))
    ensures var d := ReconnectTimerFires(c, Opens);
            d.conn.status == Connecting && d.conn.transport == Some(c.conn.nextTransport)
            && d.live.probe == c.live.probe
  {
  }

  /** No event of the run strands a ping. */
  ghost predicate StrandsNoPing(c: Client, events: seq<Event>) {
    forall n | 0 <= n < |events| :: !StrandsPing(After(c, events, n), events[n])
  }

  lemma {:induction false} FitsSoFar(c: Client, events: seq<Event>, n: nat)
    requires n <= |events| && PingFits(c) && forall k | 0 <= k < n :: !StrandsPing(After(c, events, k), events[k])
    ensures PingFits(After(c, events, n))
  {
    hide PingFits, After, StrandsPing;
    if n == 0 {
      AfterEnds(c, events);
    } else {
      FitsSoFar(c, events, n - 1);
      AfterNext(c, events, n - 1);
      if Enabled(After(c, events, n - 1), events[n - 1]) {
        PingStaysOnItsConnection(After(c, events, n - 1), events[n - 1]);
      }
    }
  }

  /** All through a run a ping in flight is on the connection that is up iff no event of the run strands one. */
  lemma {:induction false} PingsStayOnTheirConnections(c: Client, events: seq<Event>)
    requires PingFits(c)
    ensures (forall n | 0 <= n <= |events| :: PingFits(After(c, events, n))) <==> StrandsNoPing(c, events)
  {
    hide PingFits, After;
    if forall n | 0 <= n <= |events| :: PingFits(After(c, events, n)) {
      forall n | 0 <= n < |events| ensures !StrandsPing(After(c, events, n), events[n]) {
        assert PingFits(After(c, events, n)) && PingFits(After(c, events, n + 1));
        AfterNext(c, events, n);
        if StrandsPing(After(c, events, n), events[n]) {
          PingStaysOnItsConnection(After(c, events, n), events[n]);
        }
      }
    }
    if StrandsNoPing(c, events) {
      forall n | 0 <= n <= |events| ensures PingFits(After(c, events, n)) {
        FitsSoFar(c, events, n);
      }
    }
  }

  lemma {:induction false} RunKeepsBelonging(c: Client, events: seq<Event>, n: nat)
    requires n <= |events| && Inv(c) && PingsBelong(c) && StrandsNoPing(c, events)
    ensures Inv(After(c, events, n)) && PingsBelong(After(c, events, n))
  {
    hide Inv, PingsBelong, After, StrandsPing;
    if n == 0 {
      AfterEnds(c, events);
    } else {
      RunKeepsBelonging(c, events, n - 1);
      AfterNext(c, events, n - 1);
      var before, e := After(c, events, n - 1), events[n - 1];
      if Enabled(before, e) {
        StepKeepsInv(before, e);
        StepKeepsBelonging(before, e);
      }
    }
  }

  /** If no reconnect timer replaces a live connection under a ping, the two failures behind a teardown belong to one
      connection. */
  lemma {:induction false} TeardownWithinOneConnection(
    baseDelay: nat, maxDelay: nat, enabled: bool, events: seq<Event>, i: nat)
    requires StrandsNoPing(NewClient(baseDelay, maxDelay, enabled), events)
    requires var log := Run(NewClient(baseDelay, maxDelay, enabled), events).live.log; i < |log| && log[i] == Teardown
    ensures var log := Run(NewClient(baseDelay, maxDelay, enabled), events).live.log;
            exists j: nat :: TwoFailures(log, j, i) && log[j].probe.connection == log[i - 1].probe.connection
  {
    var c := NewClient(baseDelay, maxDelay, enabled);
    InitialInv(baseDelay, maxDelay, enabled);
    RunKeepsBelonging(c, events, |events|);
    AfterEnds(c, events);
    var j := TeardownHasTwoFailures(Run(c, events).live.log, i);
  }

  // ---------------------------------------------------------------------------------------------
  // A live connection that falls after one failure of its own

  const INFO := OnFrame(Session(ServerInfo), Always(true))
  const OLD_PING := Probe(0, true, 1)
  const NEW_PING := Probe(1, true, 2)

  /** Up on transport 1, with the timer of the first loss still armed and the heartbeat due. */
  predicate UpOverTimer(c: Client) {
    && c.conn.status == Connected && c.conn.transport == Some(1) && c.conn.nextTransport == 2
    && c.conn.reconnectTimer.Some? && c.conn.shouldReconnect
    && c.live == Liveness(None, true, 0, 0, [FrameSeen, FrameSeen])
  }

  lemma {:induction false} FiveEvents(c: Client) returns (c5: Client)
    requires c == NewClient(c.conn.baseDelay, c.conn.maxDelay, true)
    ensures var c1 := Step(c, CallConnect(Opens));
            var c2 := Step(c1, INFO);
            var c3 := Step(c2, OnClose);
            var c4 := Step(c3, CallConnect(Opens));
            c5 == Step(c4, INFO) && UpOverTimer(c5)
  {
    hide Flush, Delay, ResolveWaiters, ClearWaiters, RejectQueue;
    c5 := Step(Step(Step(Step(Step(c, CallConnect(Opens)), INFO), OnClose), CallConnect(Opens)), INFO);
    assert [] + [FrameSeen] == [FrameSeen] && [FrameSeen] + [FrameSeen] == [FrameSeen, FrameSeen];
  }

  lemma {:induction false} FourMoreEvents(c5: Client) returns (c6: Client, c9: Client)
    requires UpOverTimer(c5)
    ensures c6 == Step(c5, HeartbeatTimer(true)) && StrandsPing(c6, ReconnectTimer(Opens))
    ensures var c7 := Step(c6, ReconnectTimer(Opens));
            var c8 := Step(c7, INFO);
            Enabled(c8, PingTimer) && c9 == Step(c8, PingTimer)
    ensures c9.conn.status == Connected && c9.conn.transport == Some(2)
    ensures c9.live == Liveness(None, true, 1, 1,
                                [FrameSeen, FrameSeen, Started(OLD_PING), FrameSeen, Failed(OLD_PING)])
  {
    hide Flush, Delay, ResolveWaiters, ClearWaiters, RejectQueue, LoseConnection;
    var log := c5.live.log + [Started(OLD_PING)] + [FrameSeen] + [Failed(OLD_PING)];
    c6 := Step(c5, HeartbeatTimer(true));
    c9 := Step(Step(Step(c6, ReconnectTimer(Opens)), INFO), PingTimer);
    assert c9.live.log == log;
  }

  lemma {:induction false} OneFailureMore(c9: Client)
    requires c9.conn.status == Connected && c9.conn.transport == Some(2)
    requires c9.live.probe.None? && c9.live.heartbeat && c9.live.failures == 1 && c9.live.next == 1
    ensures var d := Step(c9, HeartbeatTimer(false));
            d.conn.status == Disconnected
            && d.live.log == c9.live.log + [Started(NEW_PING), Failed(NEW_PING), Teardown]
  {
    hide Delay, ClearWaiters, RejectQueue;
    var log := c9.live.log;
    assert log + [Started(NEW_PING)] + [Failed(NEW_PING)] + [Teardown]
        == log + [Started(NEW_PING), Failed(NEW_PING), Teardown];
  }

  /** With a stranded ping it happens: a connection that is up falls after one failed ping of its own, the other failure
      being that of a ping on the connection before. */
  lemma {:induction false} StrandedPingTearsDown(baseDelay: nat, maxDelay: nat)
    ensures var new_ := NewClient(baseDelay, maxDelay, true);
            var events := [CallConnect(Opens), INFO, OnClose, CallConnect(Opens), INFO, HeartbeatTimer(true),
                           ReconnectTimer(Opens), INFO, PingTimer, HeartbeatTimer(false)];
            var c, d := After(new_, events, 9), Run(new_, events);
            && StrandsPing(After(new_, events, 6), events[6])
            && c.conn.status == Connected && c.conn.transport == Some(2) && d.conn.status == Disconnected
            && d.live.log == [FrameSeen, FrameSeen, Started(OLD_PING), FrameSeen, Failed(OLD_PING),
                              Started(NEW_PING), Failed(NEW_PING), Teardown]
            && OLD_PING.connection != NEW_PING.connection
  {
    var new_ := NewClient(baseDelay, maxDelay, true);
    var events := [CallConnect(Opens), INFO, OnClose, CallConnect(Opens), INFO, HeartbeatTimer(true),
                   ReconnectTimer(Opens), INFO, PingTimer, HeartbeatTimer(false)];
    AfterEnds(new_, events);
    hide Step, Run, After;
    var c5 := FiveEvents(new_);
    var c6, c9 := FourMoreEvents(c5);
    OneFailureMore(c9);
    AfterNext(new_, events, 0);
    AfterNext(new_, events, 1);
    AfterNext(new_, events, 2);
    AfterNext(new_, events, 3);
    AfterNext(new_, events, 4);
    AfterNext(new_, events, 5);
    AfterNext(new_, events, 6);
    AfterNext(new_, events, 7);
    AfterNext(new_, events, 8);
    AfterNext(new_, events, 9);
    assert [FrameSeen, FrameSeen, Started(OLD_PING), FrameSeen, Failed(OLD_PING)]
           + [Started(NEW_PING), Failed(NEW_PING), Teardown]
        == [FrameSeen, FrameSeen, Started(OLD_PING), FrameSeen, Failed(OLD_PING), Started(NEW_PING), Failed(NEW_PING),
            Teardown];
  }
}
