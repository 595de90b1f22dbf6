/** Every operation on the waiter set and on the send queue keeps their books balanced. */
module DaemonClientWaiters {
  import opened Options
  import opened Ledger
  import opened DaemonClientModel

  // ---------------------------------------------------------------------------------------------
  // Waiters

  /** A waiter that belongs to a request accepts only messages that carry the request's id. */
  ghost predicate Discerning(w: Waiter) {
    w.requestId.Some? ==> forall m: Message :: w.accepts(m) ==> RequestIdOf(m) == w.requestId
  }

  /** Timers are armed for exactly the timed waiters of the set. */
  ghost predicate TimersMatch(ws: seq<Waiter>, timers: set<nat>) {
    && (forall i | 0 <= i < |ws| :: ws[i].id in timers <==> ws[i].timed)
    && timers <= IdSet(ws)
  }

  /** Each waiter number below `next` is in the set and unsettled, or out of the set and settled once. */
  ghost predicate WaitersOk(t: WaiterTable) {
    && Ascending(Ids(t.waiters)) && Below(Ids(t.waiters), t.next)
    && Balanced(Ids(t.waiters), SettledIds(t.settlements), t.next)
    && TimersMatch(t.waiters, t.timers)
    && forall i | 0 <= i < |t.waiters| :: Discerning(t.waiters[i])
  }

  /** Kept and chosen waiters share out the set. */
  lemma {:induction false} Shares(ws: seq<Waiter>, sel: Waiter -> bool)
    ensures multiset(Ids(ws)) == multiset(Ids(Kept(ws, sel))) + multiset(Ids(Chosen(ws, sel)))
  {
    if ws != [] {
      var w, rest := ws[0], ws[1..];
      var kept, chosen := Kept(rest, sel), Chosen(rest, sel);
      Shares(rest, sel);
      IdsCons(w, rest);
      IdsCons(w, kept);
      IdsCons(w, chosen);
      assert ws == [w] + rest;
      if sel(w) {
        assert Chosen(ws, sel) == [w] + chosen && Kept(ws, sel) == [] + kept == kept;
      } else {
        assert Kept(ws, sel) == [w] + kept && Chosen(ws, sel) == [] + chosen == chosen;
      }
    }
  }

  lemma IdsCons(w: Waiter, ws: seq<Waiter>)
    ensures Ids([w] + ws) == [w.id] + Ids(ws)
  {
  }

  lemma {:induction false} Members(ws: seq<Waiter>, sel: Waiter -> bool, w: Waiter)
    ensures w in Kept(ws, sel) <==> w in ws && !sel(w)
    ensures w in Chosen(ws, sel) <==> w in ws && sel(w)
  {
    if ws != [] {
      Members(ws[1..], sel, w);
      assert w in ws <==> w == ws[0] || w in ws[1..];
    }
  }

  lemma {:induction false} KeptAscends(ws: seq<Waiter>, sel: Waiter -> bool)
    requires Ascending(Ids(ws))
    ensures Ascending(Ids(Kept(ws, sel)))
  {
    if ws != [] {
      var rest := ws[1..];
      assert Ids(rest) == Ids(ws)[1..];
      KeptAscends(rest, sel);
      var kept := Kept(rest, sel);
      forall k | 0 <= k < |kept| ensures ws[0].id < Ids(kept)[k] {
        Members(rest, sel, kept[k]);
        var i :| 0 <= i < |rest| && kept[k] == rest[i];
        assert Ids(ws)[0] < Ids(ws)[i + 1];
      }
      IdsCons(ws[0], kept);
      assert [] + kept == kept;
    }
  }

  lemma Owner(ws: seq<Waiter>, i: nat, w: Waiter)
    requires Ascending(Ids(ws)) && i < |ws| && w in ws && w.id == ws[i].id
    ensures w == ws[i]
  {
    var j :| 0 <= j < |ws| && ws[j] == w;
    assert Ids(ws)[i] == Ids(ws)[j];
  }

  lemma HasId(ws: seq<Waiter>, w: Waiter)
    requires w in ws
    ensures w.id in Ids(ws)
  {
    var j :| 0 <= j < |ws| && ws[j] == w;
    assert Ids(ws)[j] == w.id;
  }

  /** Ids of chosen and kept waiters never meet. */
  lemma Apart(ws: seq<Waiter>, sel: Waiter -> bool, i: nat)
    requires Ascending(Ids(ws)) && i < |ws|
    ensures ws[i].id in IdSet(Chosen(ws, sel)) <==> sel(ws[i])
    ensures ws[i].id in IdSet(Kept(ws, sel)) <==> !sel(ws[i])
  {
    hide Ascending;
    var id, kept, out := ws[i].id, Kept(ws, sel), Chosen(ws, sel);
    Members(ws, sel, ws[i]);
    if sel(ws[i]) { HasId(out, ws[i]); } else { HasId(kept, ws[i]); }
    if id in Ids(kept) {
      var k :| 0 <= k < |kept| && Ids(kept)[k] == id;
      Members(ws, sel, kept[k]);
      Owner(ws, i, kept[k]);
    }
    if id in Ids(out) {
      var k :| 0 <= k < |out| && Ids(out)[k] == id;
      Members(ws, sel, out[k]);
      Owner(ws, i, out[k]);
    }
  }

  lemma SettleKeeps(t: WaiterTable, sel: Waiter -> bool, how: nat -> Settlement)
    requires WaitersOk(t) && forall id :: how(id).id == id
    ensures WaitersOk(Settle(t, sel, how))
  {
    var kept, out := Kept(t.waiters, sel), Chosen(t.waiters, sel);
    Shares(t.waiters, sel);
    KeptAscends(t.waiters, sel);
    var t' := Settle(t, sel, how);
    Finish(Ids(t.waiters), SettledIds(t.settlements), t.next, Ids(kept), Ids(out));
    assert SettledIds(t'.settlements) == SettledIds(t.settlements) + Ids(out);
    forall k | 0 <= k < |kept|
      ensures kept[k].id < t.next && Discerning(kept[k]) && (kept[k].id in t'.timers <==> kept[k].timed)
    {
      Members(t.waiters, sel, kept[k]);
      var i :| 0 <= i < |t.waiters| && kept[k] == t.waiters[i];
      Apart(t.waiters, sel, i);
      assert Ids(t.waiters)[i] < t.next;
    }
    forall id | id in t'.timers ensures id in IdSet(kept) {
      var i :| 0 <= i < |t.waiters| && Ids(t.waiters)[i] == id;
      Apart(t.waiters, sel, i);
    }
  }

  lemma {:induction false} ClearLeavesNone(ws: seq<Waiter>, sel: Waiter -> bool)
    requires forall w :: sel(w)
    ensures Kept(ws, sel) == []
  {
    if ws != [] {
      ClearLeavesNone(ws[1..], sel);
    }
  }

  lemma AddKeeps(t: WaiterTable, requestId: Option<string>, accepts: Message -> bool, timed: bool)
    requires WaitersOk(t) && Discerning(Waiter(t.next, requestId, accepts, timed))
    ensures WaitersOk(AddWaiter(t, requestId, accepts, timed))
  {
    var t' := AddWaiter(t, requestId, accepts, timed);
    Issue(Ids(t.waiters), SettledIds(t.settlements), t.next);
    assert Ids(t'.waiters) == Ids(t.waiters) + [t.next];
    assert forall i | 0 <= i < |t.waiters| :: t.waiters[i].id == Ids(t.waiters)[i] < t.next;
    assert t'.waiters[|t.waiters|].id == t.next;
    assert forall id | id in t.timers :: id in Ids(t.waiters);
  }

  /** Settling by number settles exactly one waiter. */
  lemma SingleOut(t: WaiterTable, id: nat)
    requires WaitersOk(t) && id in Ids(t.waiters)
    ensures TimeoutWaiter(t, id) == Settle(t, WithId(id), Rejection())
  {
    var out := Chosen(t.waiters, WithId(id));
    Shares(t.waiters, WithId(id));
    var i :| 0 <= i < |t.waiters| && Ids(t.waiters)[i] == id;
    Apart(t.waiters, WithId(id), i);
    forall k | 0 <= k < |out| ensures Ids(out)[k] == id {
      Members(t.waiters, WithId(id), out[k]);
    }
    ExactlyOnce(Ids(t.waiters), SettledIds(t.settlements), t.next, id);
    AllEqual(Ids(out), id);
    assert Ids(out) == [id];
    assert IdSet(out) == {id};
    assert Settlements(out, Rejection()) == [Rejected(id)];
  }

  lemma {:induction false} AllEqual(ids: seq<nat>, id: nat)
    requires forall k | 0 <= k < |ids| :: ids[k] == id
    ensures multiset(ids)[id] == |ids|
  {
    if ids != [] {
      AllEqual(ids[1..], id);
      assert ids == [ids[0]] + ids[1..];
    }
  }

  lemma TimeoutKeeps(t: WaiterTable, id: nat)
    requires WaitersOk(t) && id in t.timers
    ensures WaitersOk(TimeoutWaiter(t, id))
  {
    SingleOut(t, id);
    SettleKeeps(t, WithId(id), Rejection());
  }

  lemma CancelKeeps(t: WaiterTable, id: nat)
    requires WaitersOk(t) && id < t.next
    ensures WaitersOk(CancelWaiter(t, id))
  {
    ExactlyOnce(Ids(t.waiters), SettledIds(t.settlements), t.next, id);
    if id !in SettledIds(t.settlements) {
      SingleOut(t, id);
      SettleKeeps(t, WithId(id), Rejection());
    }
  }

  /** A response or error that names one request leaves every waiter of another request in the set. */
  lemma OthersKeepWaiting(t: WaiterTable, m: Message, i: nat)
    requires WaitersOk(t) && i < |t.waiters|
    requires t.waiters[i].requestId.Some? && t.waiters[i].requestId != RequestIdOf(m)
    ensures t.waiters[i].id in Ids(ResolveWaiters(t, m).waiters)
    ensures t.waiters[i].id !in SettledIds(ResolveWaiters(t, m).settlements)
  {
    var sel := (w: Waiter) => w.accepts(m);
    var t' := ResolveWaiters(t, m);
    assert Discerning(t.waiters[i]);
    assert t' == Settle(t, sel, Resolution(m));
    SettleKeeps(t, sel, Resolution(m));
    Apart(t.waiters, sel, i);
    assert Ids(t.waiters)[i] < t.next;
    ExactlyOnce(Ids(t'.waiters), SettledIds(t'.settlements), t'.next, t.waiters[i].id);
  }

  /** A frame that fails validation rejects exactly the waiters of the request it names. */
  lemma InvalidFrameRejectsItsOwn(t: WaiterTable, requestId: string, i: nat)
    requires WaitersOk(t) && i < |t.waiters|
    ensures t.waiters[i].id in SettledIds(RejectWaitersFor(t, requestId).settlements)
            <==> t.waiters[i].requestId == Some(requestId)
  {
    var sel := (w: Waiter) => w.requestId == Some(requestId);
    var t' := RejectWaitersFor(t, requestId);
    assert t' == Settle(t, sel, Rejection());
    SettleKeeps(t, sel, Rejection());
    Apart(t.waiters, sel, i);
    assert Ids(t.waiters)[i] < t.next;
    ExactlyOnce(Ids(t'.waiters), SettledIds(t'.settlements), t'.next, t.waiters[i].id);
  }

  // ---------------------------------------------------------------------------------------------
  // The send queue

  /** Messages that were sent went out in the order in which they were queued, each on the connection it waited for. */
  ghost predicate SentInOrder(outcomes: seq<SendOutcome>, bound: nat) {
    && (forall i, j | 0 <= i < j < |outcomes| && outcomes[i].Sent? && outcomes[j].Sent? ::
          outcomes[i].send.id < outcomes[j].send.id)
    && (forall i | 0 <= i < |outcomes| && outcomes[i].Sent? ::
          outcomes[i].send.id < bound && outcomes[i].send.connection == outcomes[i].on)
  }

  ghost predicate SendsOk(s: SendQueue) {
    && Ascending(SendIds(s.queue)) && Below(SendIds(s.queue), s.next)
    && Balanced(SendIds(s.queue), OutcomeIds(s.outcomes), s.next)
    && s.timers == (set id | id in SendIds(s.queue))
    && SentInOrder(s.outcomes, if s.queue == [] then s.next else s.queue[0].id)
  }

  ghost predicate AwaitsOnly(q: seq<PendingSend>, transport: Option<nat>) {
    forall i | 0 <= i < |q| :: transport == Some(q[i].connection)
  }

  lemma EnqueueKeeps(s: SendQueue, message: string, connection: nat)
    requires SendsOk(s)
    ensures SendsOk(Enqueue(s, message, connection))
  {
    var s' := Enqueue(s, message, connection);
    Issue(SendIds(s.queue), OutcomeIds(s.outcomes), s.next);
    assert SendIds(s'.queue) == SendIds(s.queue) + [s.next];
  }

  lemma FlushKeeps(s: SendQueue, transport: Option<nat>, accepted: SendResult)
    requires SendsOk(s) && (transport.Some? ==> AwaitsOnly(s.queue, transport))
    ensures SendsOk(Flush(s, transport, accepted))
  {
    hide Balanced;
    var s' := Flush(s, transport, accepted);
    var ids := SendIds(s.queue);
    Finish(ids, OutcomeIds(s.outcomes), s.next, [], ids);
    assert OutcomeIds(s'.outcomes) == OutcomeIds(s.outcomes) + ids;
    assert SendIds([]) == [];
    FlushInOrder(s, transport, accepted);
  }

  lemma FlushInOrder(s: SendQueue, transport: Option<nat>, accepted: SendResult)
    requires SendsOk(s) && (transport.Some? ==> AwaitsOnly(s.queue, transport))
    ensures SentInOrder(Flush(s, transport, accepted).outcomes, s.next)
  {
    hide Balanced, OutcomeIds;
    var log, n := Flush(s, transport, accepted).outcomes, |s.outcomes|;
    forall i | 0 <= i < |log| && log[i].Sent?
      ensures log[i].send.id < s.next && log[i].send.connection == log[i].on
    {
      if i >= n {
        assert SendIds(s.queue)[i - n] == log[i].send.id;
      }
    }
    forall i, j | 0 <= i < j < |log| && log[i].Sent? && log[j].Sent? ensures log[i].send.id < log[j].send.id {
      if i >= n {
        assert SendIds(s.queue)[i - n] < SendIds(s.queue)[j - n];
      } else if j >= n {
        assert SendIds(s.queue)[0] <= SendIds(s.queue)[j - n];
      }
    }
  }

  lemma SendIdsCons(p: PendingSend, q: seq<PendingSend>)
    ensures SendIds([p] + q) == [p.id] + SendIds(q)
  {
  }

  /** Taking a message out of the queue removes its number once. */
  lemma {:induction false} RemovedSend(q: seq<PendingSend>, id: nat)
    requires id in SendIds(q)
    ensures multiset(SendIds(q)) == multiset(SendIds(WithoutSend(q, id))) + multiset{id}
  {
    var rest := q[1..];
    assert q == [q[0]] + rest;
    SendIdsCons(q[0], rest);
    if q[0].id != id {
      RemovedSend(rest, id);
      SendIdsCons(q[0], WithoutSend(rest, id));
    }
  }

  lemma {:induction false} RemainingSend(q: seq<PendingSend>, id: nat, p: PendingSend)
    requires p in WithoutSend(q, id)
    ensures p in q
  {
    if q[0].id != id && p != q[0] {
      RemainingSend(q[1..], id, p);
    }
  }

  lemma {:induction false} RemovedAscends(q: seq<PendingSend>, id: nat)
    requires q != [] && Ascending(SendIds(q))
    ensures var r := WithoutSend(q, id);
            Ascending(SendIds(r)) && (r != [] ==> q[0].id <= r[0].id)
  {
    var rest := q[1..];
    assert SendIds(rest) == SendIds(q)[1..];
    if q[0].id == id {
      assert rest != [] ==> SendIds(q)[0] < SendIds(q)[1];
    } else if rest != [] {
      RemovedAscends(rest, id);
      var r := WithoutSend(rest, id);
      SendIdsCons(q[0], r);
      assert SendIds(q)[0] < SendIds(q)[1];
      assert forall i | 0 <= i < |r| :: SendIds(r)[0] <= SendIds(r)[i];
    }
  }

  lemma {:induction false} TimeoutSendKeeps(s: SendQueue, id: nat)
    requires SendsOk(s) && id in s.timers
    ensures SendsOk(TimeoutSend(s, id))
    ensures forall i | 0 <= i < |TimeoutSend(s, id).queue| :: TimeoutSend(s, id).queue[i] in s.queue
  {
    var s' := TimeoutSend(s, id);
    var ids, ids' := SendIds(s.queue), SendIds(s'.queue);
    hide WithoutSend;
    RemovedSend(s.queue, id);
    RemovedAscends(s.queue, id);
    ExactlyOnce(ids, OutcomeIds(s.outcomes), s.next, id);
    Finish(ids, OutcomeIds(s.outcomes), s.next, ids', [id]);
    assert OutcomeIds(s'.outcomes) == OutcomeIds(s.outcomes) + [id];
    forall i | 0 <= i < |s'.queue| ensures s'.queue[i] in s.queue && ids'[i] < s.next {
      RemainingSend(s.queue, id, s'.queue[i]);
      var j :| 0 <= j < |s.queue| && s.queue[j] == s'.queue[i];
      assert ids[j] < s.next;
    }
    assert ids[0] < s.next;
    forall x: nat ensures x in ids' <==> x in ids && x != id {
      assert x in ids <==> x in multiset(ids);
      assert x in ids' <==> x in multiset(ids');
    }
  }
}
