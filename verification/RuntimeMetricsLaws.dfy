/** What the rolling metrics keep, lose and report, over every history of records and flushes. */
module RuntimeMetricsLaws {
  import opened Options
  import opened RuntimeMetrics

  // ---------------------------------------------------------------------------------------------
  // Reference: all batches ever closed, none dropped

  function Unpruned(events: seq<Event>): Metrics {
    if events == [] then NO_METRICS
    else
      var before := Unpruned(events[..|events| - 1]);
      match events[|events| - 1]
      case Recording(r) => before.(recorded := before.recorded + [r])
      case Flushing(now) => Consume(before, now)
  }

  function Recorded(events: seq<Event>): seq<Record> {
    if events == [] then []
    else Recorded(events[..|events| - 1]) + match events[|events| - 1] case Recording(r) => [r] case Flushing(_) => []
  }

  /** Batches closed at or after `cutoff`. */
  function Since(batches: seq<Batch>, cutoff: int): seq<Batch> {
    if batches == [] then []
    else if batches[0].endedAt >= cutoff then [batches[0]] + Since(batches[1..], cutoff)
    else Since(batches[1..], cutoff)
  }

  /** The clock does not run backwards between flushes. */
  predicate ClockAdvances(events: seq<Event>) {
    forall i, j | 0 <= i < j < |events| && events[i].Flushing? && events[j].Flushing? :: events[i].now <= events[j].now
  }

  /** No flush reads a clock later than `t`. */
  predicate FlushedBy(events: seq<Event>, t: int) {
    forall i | 0 <= i < |events| && events[i].Flushing? :: events[i].now <= t
  }

  // ---------------------------------------------------------------------------------------------
  // Nothing is lost or counted twice

  lemma {:induction false} EveryRecordOnce(events: seq<Event>)
    ensures RecordsIn(Unpruned(events).batches) + Unpruned(events).recorded == Recorded(events)
  {
    if events != [] {
      EveryRecordOnce(events[..|events| - 1]);
      var m, e := Unpruned(events[..|events| - 1]), events[|events| - 1];
      if e.Flushing? && Active(m.recorded) {
        assert (m.batches + [Batch(m.recorded, e.now)])[..|m.batches|] == m.batches;
      }
    }
  }

  lemma {:induction false} OneMore(windowMs: int, before: seq<Event>, e: Event)
    ensures Run(windowMs, before + [e]) == Step(Run(windowMs, before), windowMs, e)
    ensures Unpruned(before + [e])
            == match e
               case Recording(r) => Unpruned(before).(recorded := Unpruned(before).recorded + [r])
               case Flushing(now) => Consume(Unpruned(before), now)
  {
    assert (before + [e])[..|before|] == before;
  }

  predicate IsSuffix(part: seq<Batch>, whole: seq<Batch>) {
    |part| <= |whole| && part == whole[|whole| - |part|..]
  }

  lemma {:induction false} PruneDropsFront(batches: seq<Batch>, cutoff: int)
    ensures IsSuffix(Prune(batches, cutoff), batches)
  {
    if batches != [] && batches[0].endedAt < cutoff {
      PruneDropsFront(batches[1..], cutoff);
    }
  }

  lemma SuffixNext(part: seq<Batch>, whole: seq<Batch>, more: seq<Batch>, kept: seq<Batch>)
    requires IsSuffix(part, whole) && IsSuffix(kept, part + more)
    ensures IsSuffix(kept, whole + more)
  {
    var n := |part + more| - |kept|;
    assert kept == (part + more)[n..];
    assert part + more == (whole + more)[|whole| - |part|..];
    assert (whole + more)[|whole| - |part|..][n..] == (whole + more)[|whole| - |part| + n..];
  }

  lemma {:induction false} KeptIsSuffix(windowMs: int, events: seq<Event>)
    ensures Run(windowMs, events).recorded == Unpruned(events).recorded
    ensures IsSuffix(Run(windowMs, events).batches, Unpruned(events).batches)
  {
    if events != [] {
      var before, e := events[..|events| - 1], events[|events| - 1];
      assert events == before + [e];
      OneMore(windowMs, before, e);
      KeptIsSuffix(windowMs, before);
      if e.Flushing? {
        hide IsSuffix, Prune, Run, Unpruned, Active;
        var m, all := Run(windowMs, before), Unpruned(before);
        var more := if Active(m.recorded) then [Batch(m.recorded, e.now)] else [];
        assert Consume(m, e.now).batches == m.batches + more && Consume(all, e.now).batches == all.batches + more;
        PruneDropsFront(m.batches + more, e.now - windowMs);
        SuffixNext(m.batches, all.batches, more, Prune(m.batches + more, e.now - windowMs));
      }
    }
  }

  /** Whatever the clock does: dropped batches, kept batches and open records are all that was recorded, in order. */
  lemma Conservation(windowMs: int, events: seq<Event>) returns (dropped: seq<Batch>)
    ensures var m := Run(windowMs, events);
            && RecordsIn(dropped + m.batches) + m.recorded == Recorded(events)
            && dropped + m.batches == Unpruned(events).batches
  {
    EveryRecordOnce(events);
    KeptIsSuffix(windowMs, events);
    hide Run, RecordsIn, Unpruned, Recorded;
    var all, kept := Unpruned(events).batches, Run(windowMs, events).batches;
    dropped := all[..|all| - |kept|];
    assert dropped + kept == all;
  }

  // ---------------------------------------------------------------------------------------------
  // The window

  /** No stale batch behind a fresh one. */
  predicate StaleFirst(batches: seq<Batch>, cutoff: int) {
    forall i, j | 0 <= i < j < |batches| :: batches[i].endedAt >= cutoff ==> batches[j].endedAt >= cutoff
  }

  lemma {:induction false} SinceAll(batches: seq<Batch>, cutoff: int)
    ensures Since(batches, cutoff) == batches <==> forall i | 0 <= i < |batches| :: batches[i].endedAt >= cutoff
    ensures |Since(batches, cutoff)| <= |batches|
  {
    if batches != [] {
      SinceAll(batches[1..], cutoff);
      assert forall i | 1 <= i < |batches| :: batches[i] == batches[1..][i - 1];
      assert batches == [batches[0]] + batches[1..];
    }
  }

  lemma StaleFirstRest(batches: seq<Batch>, cutoff: int)
    requires batches != [] && batches[0].endedAt < cutoff
    ensures StaleFirst(batches, cutoff) <==> StaleFirst(batches[1..], cutoff)
  {
    assert forall i | 0 <= i < |batches| - 1 :: batches[1..][i] == batches[i + 1];
    if StaleFirst(batches[1..], cutoff) {
      forall i, j | 0 <= i < j < |batches| && batches[i].endedAt >= cutoff ensures batches[j].endedAt >= cutoff {
        assert batches[1..][i - 1] == batches[i] && batches[1..][j - 1] == batches[j];
      }
    }
  }

  /** Dropping stale batches from the front leaves exactly the fresh ones just when the stale ones come first. */
  lemma {:induction false} PruneKeepsFresh(batches: seq<Batch>, cutoff: int)
    ensures Prune(batches, cutoff) == Since(batches, cutoff) <==> StaleFirst(batches, cutoff)
  {
    if batches != [] {
      if batches[0].endedAt < cutoff {
        PruneKeepsFresh(batches[1..], cutoff);
        StaleFirstRest(batches, cutoff);
      } else {
        SinceAll(batches, cutoff);
        assert StaleFirst(batches, cutoff) <==> forall i | 0 <= i < |batches| :: batches[i].endedAt >= cutoff;
      }
    }
  }

  lemma {:induction false} SinceConcat(a: seq<Batch>, b: seq<Batch>, cutoff: int)
    ensures Since(a + b, cutoff) == Since(a, cutoff) + Since(b, cutoff)
  {
    if a == [] {
      assert a + b == b;
    } else {
      assert (a + b)[1..] == a[1..] + b;
      SinceConcat(a[1..], b, cutoff);
    }
  }

  /** What a flush at `now` adds to the batches. */
  function Closing(m: Metrics, now: int): seq<Batch> {
    if Active(m.recorded) then [Batch(m.recorded, now)] else []
  }

  lemma {:induction false} FlushPrunes(windowMs: int, before: seq<Event>, t: int)
    ensures var m, all := Run(windowMs, before), Unpruned(before);
            && IsSuffix(m.batches, all.batches)
            && Run(windowMs, before + [Flushing(t)]).batches == Prune(m.batches + Closing(m, t), t - windowMs)
            && Unpruned(before + [Flushing(t)]).batches == all.batches + Closing(m, t)
  {
    OneMore(windowMs, before, Flushing(t));
    KeptIsSuffix(windowMs, before);
    var m, all := Run(windowMs, before), Unpruned(before);
    hide Run, Unpruned, Prune, IsSuffix, Active;
    assert Consume(m, t).batches == m.batches + Closing(m, t) && Consume(all, t).batches == all.batches + Closing(m, t);
  }

  predicate AllStale(batches: seq<Batch>, cutoff: int) {
    forall i | 0 <= i < |batches| :: batches[i].endedAt < cutoff
  }

  lemma {:induction false} SinceNone(batches: seq<Batch>, cutoff: int)
    ensures Since(batches, cutoff) == [] <==> AllStale(batches, cutoff)
  {
    if batches != [] {
      SinceNone(batches[1..], cutoff);
      assert forall i | 1 <= i < |batches| :: batches[i] == batches[1..][i - 1];
    }
  }

  lemma {:induction false} SinceFresh(batches: seq<Batch>, cutoff: int)
    ensures forall i | 0 <= i < |Since(batches, cutoff)| :: Since(batches, cutoff)[i].endedAt >= cutoff
  {
    if batches != [] {
      SinceFresh(batches[1..], cutoff);
    }
  }

  lemma {:induction false} SincePrune(batches: seq<Batch>, cutoff: int)
    ensures Since(Prune(batches, cutoff), cutoff) == Since(batches, cutoff)
  {
    if batches != [] && batches[0].endedAt < cutoff {
      SincePrune(batches[1..], cutoff);
    }
  }

  lemma {:induction false} StaleFirstBehind(front: seq<Batch>, rest: seq<Batch>, cutoff: int)
    requires AllStale(front, cutoff)
    ensures StaleFirst(front + rest, cutoff) <==> StaleFirst(rest, cutoff)
  {
    var all := front + rest;
    if StaleFirst(all, cutoff) {
      forall i, j | 0 <= i < j < |rest| && rest[i].endedAt >= cutoff ensures rest[j].endedAt >= cutoff {
        assert all[|front| + i] == rest[i] && all[|front| + j] == rest[j];
      }
    }
  }

  /** Pruning the batches behind `front` leaves the fresh ones of all iff no fresh one is in front and the stale ones
      come first. */
  lemma {:induction false} PruneBehind(front: seq<Batch>, rest: seq<Batch>, cutoff: int)
    ensures Prune(rest, cutoff) == Since(front + rest, cutoff)
            <==> AllStale(front, cutoff) && StaleFirst(front + rest, cutoff)
  {
    hide StaleFirst, AllStale;
    SinceConcat(front, rest, cutoff);
    SinceNone(front, cutoff);
    if Prune(rest, cutoff) == Since(front + rest, cutoff) {
      SinceFresh(front + rest, cutoff);
      SinceAll(Prune(rest, cutoff), cutoff);
      SincePrune(rest, cutoff);
      assert |Since(front, cutoff)| == 0;
    }
    if AllStale(front, cutoff) {
      PruneKeepsFresh(rest, cutoff);
      StaleFirstBehind(front, rest, cutoff);
      assert [] + Since(rest, cutoff) == Since(rest, cutoff);
    }
  }

  /** For every history and every clock: a flush at `t` keeps exactly the batches closed at or after `t - windowMs` iff
      no such batch was dropped before and none older stands behind one. */
  lemma {:induction false} WindowExactlyWhen(windowMs: int, before: seq<Event>, t: int)
    ensures var all, cutoff := Unpruned(before + [Flushing(t)]).batches, t - windowMs;
            var dropped := |Unpruned(before).batches| - |Run(windowMs, before).batches|;
            && 0 <= dropped <= |all|
            && (Run(windowMs, before + [Flushing(t)]).batches == Since(all, cutoff)
                <==> AllStale(all[..dropped], cutoff) && StaleFirst(all, cutoff))
  {
    FlushPrunes(windowMs, before, t);
    var m, earlier := Run(windowMs, before), Unpruned(before).batches;
    var n := |earlier| - |m.batches|;
    hide Run, Unpruned, Closing, Prune, Since, AllStale, StaleFirst;
    var rest := m.batches + Closing(m, t);
    assert earlier + Closing(m, t) == earlier[..n] + rest;
    assert (earlier + Closing(m, t))[..n] == earlier[..n];
    PruneBehind(earlier[..n], rest, t - windowMs);
  }

  /** What flushes up to `t` have dropped is stale at `t`. */
  lemma {:induction false} DroppedIsStale(windowMs: int, events: seq<Event>, t: int)
    requires FlushedBy(events, t)
    ensures var dropped := |Unpruned(events).batches| - |Run(windowMs, events).batches|;
            0 <= dropped && AllStale(Unpruned(events).batches[..dropped], t - windowMs)
  {
    KeptIsSuffix(windowMs, events);
    if events != [] {
      var before, e := events[..|events| - 1], events[|events| - 1];
      assert events == before + [e];
      DroppedIsStale(windowMs, before, t);
      OneMore(windowMs, before, e);
      if e.Flushing? {
        FlushPrunes(windowMs, before, e.now);
        FlushDropsStale(windowMs, Unpruned(before).batches, Run(windowMs, before).batches,
                        Closing(Run(windowMs, before), e.now), e.now - windowMs, t - windowMs);
      }
    }
  }

  lemma {:induction false} FlushDropsStale(
    windowMs: int, all: seq<Batch>, kept: seq<Batch>, more: seq<Batch>, now: int, cutoff: int)
    requires IsSuffix(kept, all) && AllStale(all[..|all| - |kept|], cutoff) && now <= cutoff
    ensures var left := |Prune(kept + more, now)|;
            left <= |all + more| && AllStale((all + more)[..|all + more| - left], cutoff)
  {
    var n := |all| - |kept|;
    assert all + more == all[..n] + (kept + more);
    PrunedIsStale(kept + more, now);
    var m := |kept + more| - |Prune(kept + more, now)|;
    assert (all + more)[..n + m] == all[..n] + (kept + more)[..m];
  }

  lemma {:induction false} PrunedIsStale(batches: seq<Batch>, cutoff: int)
    ensures |Prune(batches, cutoff)| <= |batches|
    ensures AllStale(batches[..|batches| - |Prune(batches, cutoff)|], cutoff)
  {
    if batches != [] && batches[0].endedAt < cutoff {
      PrunedIsStale(batches[1..], cutoff);
      var n := |batches| - |Prune(batches, cutoff)|;
      assert batches[..n] == [batches[0]] + batches[1..][..n - 1];
    }
  }

  predicate Sorted(batches: seq<Batch>) {
    forall i, j | 0 <= i < j < |batches| :: batches[i].endedAt <= batches[j].endedAt
  }

  /** Batches are closed in clock order, none after the last flush. */
  lemma {:induction false} ClosedInOrder(events: seq<Event>, t: int)
    requires ClockAdvances(events) && FlushedBy(events, t)
    ensures Sorted(Unpruned(events).batches) && forall b | b in Unpruned(events).batches :: b.endedAt <= t
  {
    if events != [] {
      var before, e := events[..|events| - 1], events[|events| - 1];
      ClosedInOrder(before, if e.Flushing? then e.now else t);
      var closed := Unpruned(before).batches;
      assert forall i | 0 <= i < |closed| :: closed[i] in closed;
    }
  }

  lemma {:induction false} OnesCount(rs: seq<Record>, f: Record -> seq<Entry<int>>, k: string)
    requires forall r | r in rs :: |f(r)| <= 1 && forall e | e in f(r) :: e.amount == 1
    ensures Sum(Under(Pick(rs, f), k)) == |Under(Pick(rs, f), k)|
  {
    if rs != [] {
      var before, last := rs[..|rs| - 1], rs[|rs| - 1];
      OnesCount(before, f, k);
      assert last in rs;
      if f(last) == [] {
        assert Pick(before, f) + [] == Pick(before, f);
      } else {
        assert f(last) == [f(last)[0]] && f(last)[0] in f(last);
        UnderNext(Pick(before, f), f(last)[0], k);
        SumNext(Under(Pick(before, f), k), 1);
      }
    }
  }

  /** Table by table and key by key, `t` counts, adds up and maximises over `rs`. */
  ghost predicate Describes(t: Tables, rs: seq<Record>, k: string) {
    && CountsUnder(t.messageCounts, rs, MESSAGE_ENTRIES, k)
    && (k in t.messageBytes <==> Under(Pick(rs, BYTE_ENTRIES), k) != [])
    && (k in t.messageBytes ==> t.messageBytes[k] == Sum(Under(Pick(rs, BYTE_ENTRIES), k)))
    && (k in t.messageHandlerMs <==> Under(Pick(rs, TIMING_ENTRIES), k) != [])
    && (k in t.messageHandlerMs ==> SumsUp(t.messageHandlerMs[k], Under(Pick(rs, TIMING_ENTRIES), k)))
    && CountsUnder(t.agentStreamCounts, rs, STREAM_ENTRIES, k)
    && CountsUnder(t.agentStreamByAgentCounts, rs, AGENT_ENTRIES, k)
    && CountsUnder(t.binaryFrameCounts, rs, BINARY_ENTRIES, k)
  }

  ghost predicate CountsUnder(m: Counts, rs: seq<Record>, f: Record -> seq<Entry<int>>, k: string) {
    var n := |Under(Pick(rs, f), k)|;
    (k in m <==> n > 0) && (k in m ==> m[k] == n)
  }

  lemma {:induction false} TallyCounts(rs: seq<Record>, f: Record -> seq<Entry<int>>, k: string)
    requires forall r | r in rs :: |f(r)| <= 1 && forall e | e in f(r) :: e.amount == 1
    ensures CountsUnder(Tally(Pick(rs, f)), rs, f, k)
  {
    TallySums(Pick(rs, f), k);
    OnesCount(rs, f, k);
  }

  lemma {:induction false} TablesDescribe(rs: seq<Record>, k: string)
    ensures Describes(TablesOf(rs), rs, k)
  {
    hide CountsUnder, Tally, TallyTimings, Pick, Under, Sum, SumsUp;
    TallyCounts(rs, MESSAGE_ENTRIES, k);
    TallyCounts(rs, STREAM_ENTRIES, k);
    TallyCounts(rs, AGENT_ENTRIES, k);
    TallyCounts(rs, BINARY_ENTRIES, k);
    TallySums(Pick(rs, BYTE_ENTRIES), k);
    TallyTimingsSums(Pick(rs, TIMING_ENTRIES), k);
  }

  // ---------------------------------------------------------------------------------------------
  // What a flush reports

  lemma {:induction false} RecordsInConcat(a: seq<Batch>, b: seq<Batch>)
    ensures RecordsIn(a + b) == RecordsIn(a) + RecordsIn(b)
  {
    if b == [] {
      assert a + b == a;
    } else {
      assert (a + b)[..|a + b| - 1] == a + b[..|b| - 1];
      RecordsInConcat(a, b[..|b| - 1]);
    }
  }

  lemma {:induction false} UnderConcat<A>(a: seq<Entry<A>>, b: seq<Entry<A>>, k: string)
    ensures Under(a + b, k) == Under(a, k) + Under(b, k)
  {
    if b == [] {
      assert a + b == a;
    } else {
      assert (a + b)[..|a + b| - 1] == a + b[..|b| - 1];
      UnderConcat(a, b[..|b| - 1], k);
    }
  }

  /** How often the key occurs in the batches. */
  function Occurrences(batches: seq<Batch>, f: Record -> seq<Entry<int>>, k: string): nat {
    |Under(Pick(RecordsIn(batches), f), k)|
  }

  lemma {:induction false} OccurrencesCons(b: Batch, rest: seq<Batch>, f: Record -> seq<Entry<int>>, k: string)
    ensures Occurrences([b] + rest, f, k) == |Under(Pick(b.records, f), k)| + Occurrences(rest, f, k)
  {
    RecordsInConcat([b], rest);
    assert [b][..0] == [] && RecordsIn([b]) == RecordsIn([]) + b.records == b.records;
    PickConcat(b.records, RecordsIn(rest), f);
    UnderConcat(Pick(b.records, f), Pick(RecordsIn(rest), f), k);
  }

  /** Leaving out stale batches lowers the count of every key, and of a key in a stale batch strictly. */
  lemma {:induction false} SinceCountsLess(batches: seq<Batch>, cutoff: int, f: Record -> seq<Entry<int>>, k: string)
    ensures Occurrences(Since(batches, cutoff), f, k) <= Occurrences(batches, f, k)
    ensures forall b | b in batches && b.endedAt < cutoff && Under(Pick(b.records, f), k) != [] ::
              Occurrences(Since(batches, cutoff), f, k) < Occurrences(batches, f, k)
  {
    if batches != [] {
      hide Occurrences;
      var rest := batches[1..];
      assert batches == [batches[0]] + rest;
      SinceCountsLess(rest, cutoff, f, k);
      OccurrencesCons(batches[0], rest, f, k);
      if batches[0].endedAt >= cutoff {
        OccurrencesCons(batches[0], Since(rest, cutoff), f, k);
      }
    }
  }

  lemma {:induction false} PickHas(rs: seq<Record>, r: Record, f: Record -> seq<Entry<int>>, k: string)
    requires r in rs && f(r) == [Entry(k, 1)]
    ensures Under(Pick(rs, f), k) != []
  {
    var before, last := rs[..|rs| - 1], rs[|rs| - 1];
    assert rs == before + [last];
    if last == r {
      UnderNext(Pick(before, f), Entry(k, 1), k);
    } else {
      PickHas(before, r, f, k);
      UnderConcat(Pick(before, f), f(last), k);
    }
  }

  predicate AllActive(batches: seq<Batch>) {
    forall b | b in batches :: Active(b.records)
  }

  lemma {:induction false} RunIsActive(windowMs: int, events: seq<Event>)
    ensures AllActive(Run(windowMs, events).batches)
  {
    if events != [] {
      var before, e := events[..|events| - 1], events[|events| - 1];
      assert events == before + [e];
      OneMore(windowMs, before, e);
      RunIsActive(windowMs, before);
      if e.Flushing? {
        PruneDropsFront(Consume(Run(windowMs, before), e.now).batches, e.now - windowMs);
      }
    }
  }

  lemma {:induction false} StaleShowsUnder(
    batches: seq<Batch>, cutoff: int, b: Batch, r: Record, f: Record -> seq<Entry<int>>, k: string)
    requires b in batches && b.endedAt < cutoff && r in b.records && f(r) == [Entry(k, 1)]
    requires forall q :: |f(q)| <= 1 && forall e | e in f(q) :: e.amount == 1
    ensures Tally(Pick(RecordsIn(batches), f)) != Tally(Pick(RecordsIn(Since(batches, cutoff)), f))
  {
    hide Tally, Pick, Under, RecordsIn, Since;
    PickHas(b.records, r, f, k);
    SinceCountsLess(batches, cutoff, f, k);
    TallyCounts(RecordsIn(batches), f, k);
    TallyCounts(RecordsIn(Since(batches, cutoff)), f, k);
  }

  /** A stale batch shows in the report. */
  lemma {:induction false} StaleShows(batches: seq<Batch>, cutoff: int, b: Batch)
    requires b in batches && b.endedAt < cutoff && Active(b.records)
    ensures TablesOf(RecordsIn(batches)) != TablesOf(RecordsIn(Since(batches, cutoff)))
  {
    hide Tally, TallyTimings, Pick, RecordsIn, Since;
    var r :| r in b.records && !r.StreamRecord?;
    if r.MessageRecord? {
      StaleShowsUnder(batches, cutoff, b, r, MESSAGE_ENTRIES, r.kind);
    } else {
      StaleShowsUnder(batches, cutoff, b, r, BINARY_ENTRIES, r.kind);
    }
  }

  lemma {:induction false} KeptAndSince(windowMs: int, before: seq<Event>, t: int)
    requires FlushedBy(before, t)
    ensures var events, cutoff := before + [Flushing(t)], t - windowMs;
            Since(Run(windowMs, events).batches, cutoff) == Since(Unpruned(events).batches, cutoff)
  {
    var m, earlier, cutoff := Run(windowMs, before), Unpruned(before).batches, t - windowMs;
    FlushPrunes(windowMs, before, t);
    DroppedIsStale(windowMs, before, t);
    var n := |earlier| - |m.batches|;
    var rest := m.batches + Closing(m, t);
    assert earlier == earlier[..n] + m.batches;
    hide Run, Unpruned, Closing, Prune, Since, AllStale, IsSuffix, FlushedBy;
    assert earlier[..n] + m.batches + Closing(m, t) == earlier[..n] + rest;
    SincePrune(rest, cutoff);
    SinceConcat(earlier[..n], rest, cutoff);
    SinceNone(earlier[..n], cutoff);
    assert [] + Since(rest, cutoff) == Since(rest, cutoff);
  }

  lemma {:induction false} ExactIffStaleFirst(windowMs: int, before: seq<Event>, t: int)
    requires FlushedBy(before, t)
    ensures var all, cutoff := Unpruned(before + [Flushing(t)]).batches, t - windowMs;
            Run(windowMs, before + [Flushing(t)]).batches == Since(all, cutoff) <==> StaleFirst(all, cutoff)
  {
    hide Run, Unpruned, Since, StaleFirst, AllStale, FlushedBy, Closing, Prune;
    WindowExactlyWhen(windowMs, before, t);
    DroppedIsStale(windowMs, before, t);
    FlushPrunes(windowMs, before, t);
    var n := |Unpruned(before).batches| - |Run(windowMs, before).batches|;
    assert Unpruned(before + [Flushing(t)]).batches[..n] == Unpruned(before).batches[..n];
  }

  lemma {:induction false} StaleShowsAmong(batches: seq<Batch>, cutoff: int)
    requires AllActive(batches)
    ensures TablesOf(RecordsIn(batches)) == TablesOf(RecordsIn(Since(batches, cutoff)))
            <==> batches == Since(batches, cutoff)
  {
    hide TablesOf, RecordsIn, Since, Active;
    if batches != Since(batches, cutoff) {
      SinceAll(batches, cutoff);
      var i :| 0 <= i < |batches| && batches[i].endedAt < cutoff;
      StaleShows(batches, cutoff, batches[i]);
    }
  }

  /** If no earlier flush read a later clock: the report of a flush at `t` is that of exactly the batches closed at or
      after `t - windowMs` iff no older batch was closed after one of them. */
  lemma {:induction false} ReportIsExact(windowMs: int, before: seq<Event>, t: int)
    requires FlushedBy(before, t)
    ensures var all, cutoff := Unpruned(before + [Flushing(t)]).batches, t - windowMs;
            TablesOf(RecordsIn(Run(windowMs, before + [Flushing(t)]).batches))
            == TablesOf(RecordsIn(Since(all, cutoff)))
            <==> StaleFirst(all, cutoff)
  {
    hide FlushedBy, Run, Unpruned, Since, StaleFirst, TablesOf, RecordsIn, AllActive;
    ExactIffStaleFirst(windowMs, before, t);
    KeptAndSince(windowMs, before, t);
    RunIsActive(windowMs, before + [Flushing(t)]);
    StaleShowsAmong(Run(windowMs, before + [Flushing(t)]).batches, t - windowMs);
  }

  /** With a clock that does not run back, a flush at `t` reports, per key, the counts, sums and maxima over exactly the
      records whose batch closed at or after `t - windowMs`. */
  lemma {:induction false} WindowIsExact(windowMs: int, before: seq<Event>, t: int, k: string)
    requires ClockAdvances(before + [Flushing(t)])
    ensures var events := before + [Flushing(t)];
            var window := Since(Unpruned(events).batches, t - windowMs);
            && Run(windowMs, events).batches == window
            && Describes(TablesOf(RecordsIn(Run(windowMs, events).batches)), RecordsIn(window), k)
  {
    var events := before + [Flushing(t)];
    assert FlushedBy(before, t) && FlushedBy(events, t) by {
      assert forall i | 0 <= i < |before| :: events[i] == before[i];
      assert events[|before|] == Flushing(t);
    }
    hide Describes, TablesOf, Run, Unpruned;
    ClosedInOrder(events, t);
    ExactIffStaleFirst(windowMs, before, t);
    TablesDescribe(RecordsIn(Run(windowMs, events).batches), k);
  }

  // ---------------------------------------------------------------------------------------------
  // Clocks that step back

  lemma {:induction false} StaleSteps(r: Record, one: Batch, other: Batch)
    requires !r.StreamRecord? && one == Batch([r], 100) && other == Batch([r], 50)
    ensures Step(NO_METRICS, 10, Recording(r)) == Metrics([r], [])
    ensures Step(Metrics([r], []), 10, Flushing(100)) == Metrics([], [one])
    ensures Step(Metrics([], [one]), 10, Recording(r)) == Metrics([r], [one])
    ensures Step(Metrics([r], [one]), 10, Flushing(50)) == Metrics([], [one, other])
    ensures Step(Metrics([], [one, other]), 10, Flushing(70)) == Metrics([], [one, other])
    ensures Since([one, other], 70 - 10) == [one]
  {
    assert r in [r] && Active([r]) && !Active([]);
    assert [] + [r] == [r] && [] + [one] == [one] && [one] + [other] == [one, other];
    assert [one, other][1..] == [other] && [other][1..] == [];
    assert Since([other], 60) == Since([other][1..], 60) == [];
    assert Since([one, other], 60) == [one] + Since([one, other][1..], 60);
  }

  /** When the clock steps back a flush can still report a batch that closed before its window. */
  lemma {:induction false} ClockStepsBack(r: Record)
    requires !r.StreamRecord?
    ensures var events := [Recording(r), Flushing(100), Recording(r), Flushing(50), Flushing(70)];
            && Run(10, events).batches == [Batch([r], 100), Batch([r], 50)]
            && Since(Run(10, events).batches, 70 - 10) == [Batch([r], 100)]
  {
    assert Run(10, []) == NO_METRICS;
    hide Run, Unpruned, Step, Since;
    StaleSteps(r, Batch([r], 100), Batch([r], 50));
    var e1 := [] + [Recording(r)];
    var e2 := e1 + [Flushing(100)];
    var e3 := e2 + [Recording(r)];
    var e4 := e3 + [Flushing(50)];
    assert e4 + [Flushing(70)] == [Recording(r), Flushing(100), Recording(r), Flushing(50), Flushing(70)];
    OneMore(10, [], Recording(r));
    OneMore(10, e1, Flushing(100));
    OneMore(10, e2, Recording(r));
    OneMore(10, e3, Flushing(50));
    OneMore(10, e4, Flushing(70));
  }

  lemma {:induction false} LostSteps(r: Record, one: Batch)
    requires !r.StreamRecord? && one == Batch([r], 50)
    ensures Step(NO_METRICS, 10, Recording(r)) == Metrics([r], [])
    ensures Step(Metrics([r], []), 10, Flushing(50)) == Metrics([], [one]) == Consume(Metrics([r], []), 50)
    ensures Step(Metrics([], [one]), 10, Flushing(100)) == NO_METRICS
    ensures forall now :: Consume(Metrics([], [one]), now) == Metrics([], [one])
    ensures Step(NO_METRICS, 10, Flushing(55)) == NO_METRICS
    ensures Since([one], 55 - 10) == [one]
  {
    assert r in [r] && Active([r]) && !Active([]);
    assert [] + [r] == [r] && [] + [one] == [one] && [one][1..] == [];
    assert Since([one], 45) == [one] + Since([one][1..], 45) && Since([], 45) == [];
    assert Prune([one], 90) == Prune([one][1..], 90) && Prune([], 90) == [];
  }

  /** And a batch a later reading has dropped can be back in the window, though not in the report. */
  lemma {:induction false} ClockStepsFarBack(r: Record)
    requires !r.StreamRecord?
    ensures var events := [Recording(r), Flushing(50), Flushing(100), Flushing(55)];
            && Run(10, events).batches == []
            && Since(Unpruned(events).batches, 55 - 10) == [Batch([r], 50)]
  {
    assert Run(10, []) == NO_METRICS && Unpruned([]) == NO_METRICS;
    hide Run, Unpruned, Step, Since, Consume;
    LostSteps(r, Batch([r], 50));
    assert [] + [r] == [r];
    var e1 := [] + [Recording(r)];
    var e2 := e1 + [Flushing(50)];
    var e3 := e2 + [Flushing(100)];
    assert e3 + [Flushing(55)] == [Recording(r), Flushing(50), Flushing(100), Flushing(55)];
    OneMore(10, [], Recording(r));
    OneMore(10, e1, Flushing(50));
    OneMore(10, e2, Flushing(100));
    OneMore(10, e3, Flushing(55));
  }
}
