/** Rolling runtime metrics of the daemon client: counters, buckets of counters and the window over them. */
module RuntimeMetrics {
  import opened Options

  datatype Record =
    | MessageRecord(kind: string, bytes: int, handlerMs: real)
    | StreamRecord(eventType: string, agentId: string)
    | BinaryRecord(kind: string, bytes: int, handlerMs: real)

  datatype Timing = Timing(count: int, totalMs: real, maxMs: real)
  type Counts = map<string, int>
  type Timings = map<string, Timing>

  datatype Tables = Tables(
    messageCounts: Counts, messageBytes: Counts, messageHandlerMs: Timings,
    agentStreamCounts: Counts, agentStreamByAgentCounts: Counts, binaryFrameCounts: Counts)

  datatype Bucket = Bucket(tables: Tables, endedAt: int)

  const NO_TABLES := Tables(map[], map[], map[], map[], map[], map[])

  // ---------------------------------------------------------------------------------------------
  // Counters as tallies of entries

  datatype Entry<A> = Entry(key: string, amount: A)

  function Get(m: Counts, k: string): int {
    if k in m then m[k] else 0
  }

  function IncrementCount(m: Counts, k: string, amount: int): Counts {
    m[k := Get(m, k) + amount]
  }

  function Max(a: real, b: real): real {
    if a >= b then a else b
  }

  function Join(a: Timing, b: Timing): Timing {
    Timing(a.count + b.count, a.totalMs + b.totalMs, Max(a.maxMs, b.maxMs))
  }

  function IncrementTiming(m: Timings, k: string, t: Timing): Timings {
    m[k := if k in m then Join(m[k], t) else t]
  }

  function Tally(es: seq<Entry<int>>): Counts {
    if es == [] then map[] else IncrementCount(Tally(es[..|es| - 1]), es[|es| - 1].key, es[|es| - 1].amount)
  }

  function TallyTimings(es: seq<Entry<real>>): Timings {
    if es == [] then map[]
    else
      var ms := es[|es| - 1].amount;
      IncrementTiming(TallyTimings(es[..|es| - 1]), es[|es| - 1].key, Timing(1, ms, ms))
  }

  /** The amounts entered under one key, in order. */
  function Under<A>(es: seq<Entry<A>>, k: string): seq<A> {
    if es == [] then []
    else Under(es[..|es| - 1], k) + if es[|es| - 1].key == k then [es[|es| - 1].amount] else []
  }

  function Sum(xs: seq<int>): int {
    if xs == [] then 0 else Sum(xs[..|xs| - 1]) + xs[|xs| - 1]
  }

  function RealSum(xs: seq<real>): real {
    if xs == [] then 0.0 else RealSum(xs[..|xs| - 1]) + xs[|xs| - 1]
  }

  predicate IsMaximum(x: real, xs: seq<real>) {
    x in xs && forall y | y in xs :: y <= x
  }

  lemma SumNext(xs: seq<int>, x: int)
    ensures Sum(xs + [x]) == Sum(xs) + x
  {
    assert (xs + [x])[..|xs|] == xs;
  }

  lemma RealSumNext(xs: seq<real>, x: real)
    ensures RealSum(xs + [x]) == RealSum(xs) + x
  {
    assert (xs + [x])[..|xs|] == xs;
  }

  lemma MaximumNext(m: real, xs: seq<real>, x: real)
    requires IsMaximum(m, xs)
    ensures IsMaximum(Max(m, x), xs + [x])
  {
  }

  lemma UnderNext<A>(before: seq<Entry<A>>, last: Entry<A>, k: string)
    ensures Under(before + [last], k) == if last.key == k then Under(before, k) + [last.amount] else Under(before, k)
  {
    assert (before + [last])[..|before|] == before;
  }

  /** A counter holds the keys that occur, each with the sum of its amounts. */
  lemma {:induction false} TallySums(es: seq<Entry<int>>, k: string)
    ensures k in Tally(es) <==> Under(es, k) != []
    ensures k in Tally(es) ==> Tally(es)[k] == Sum(Under(es, k))
  {
    if es != [] {
      var before, last := es[..|es| - 1], es[|es| - 1];
      TallySums(before, k);
      assert before + [last] == es;
      UnderNext(before, last, k);
      SumNext(Under(before, k), last.amount);
    }
  }

  /** `t` sums up durations: how many, their sum and the longest. */
  predicate SumsUp(t: Timing, xs: seq<real>) {
    t.count == |xs| && t.totalMs == RealSum(xs) && IsMaximum(t.maxMs, xs)
  }

  lemma OneDuration(ms: real)
    ensures SumsUp(Timing(1, ms, ms), [ms])
  {
    RealSumNext([], ms);
    assert [] + [ms] == [ms];
  }

  lemma AnotherDuration(t: Timing, xs: seq<real>, ms: real)
    requires SumsUp(t, xs)
    ensures SumsUp(Join(t, Timing(1, ms, ms)), xs + [ms])
  {
    RealSumNext(xs, ms);
    MaximumNext(t.maxMs, xs, ms);
  }

  /** A timing table sums up the durations of every key that occurs. */
  lemma {:induction false} TallyTimingsSums(es: seq<Entry<real>>, k: string)
    ensures k in TallyTimings(es) <==> Under(es, k) != []
    ensures k in TallyTimings(es) ==> SumsUp(TallyTimings(es)[k], Under(es, k))
  {
    if es != [] {
      hide SumsUp;
      var before, last := es[..|es| - 1], es[|es| - 1];
      TallyTimingsSums(before, k);
      assert before + [last] == es;
      UnderNext(before, last, k);
      if last.key == k && k in TallyTimings(before) {
        AnotherDuration(TallyTimings(before)[k], Under(before, k), last.amount);
      } else if last.key == k {
        OneDuration(last.amount);
        assert [] + [last.amount] == [last.amount];
      }
    }
  }

  // ---------------------------------------------------------------------------------------------
  // What a record adds

  function Pick<A>(rs: seq<Record>, f: Record -> seq<Entry<A>>): seq<Entry<A>> {
    if rs == [] then [] else Pick(rs[..|rs| - 1], f) + f(rs[|rs| - 1])
  }

  const MESSAGE_ENTRIES := (r: Record) => if r.MessageRecord? then [Entry(r.kind, 1)] else []
  const STREAM_ENTRIES := (r: Record) => if r.StreamRecord? then [Entry(r.eventType, 1)] else []
  const AGENT_ENTRIES := (r: Record) => if r.StreamRecord? then [Entry(r.agentId, 1)] else []
  const BINARY_ENTRIES := (r: Record) => if r.BinaryRecord? then [Entry(r.kind, 1)] else []
  const BYTE_ENTRIES := (r: Record) =>
    match r
    case MessageRecord(kind, bytes, _) => [Entry(kind, bytes)]
    case BinaryRecord(kind, bytes, _) => [Entry("binary:" + kind, bytes)]
    case StreamRecord(_, _) => []
  const TIMING_ENTRIES := (r: Record) =>
    match r
    case MessageRecord(kind, _, handlerMs) => [Entry(kind, handlerMs)]
    case BinaryRecord(kind, _, handlerMs) => [Entry("binary:" + kind, handlerMs)]
    case StreamRecord(_, _) => []

  /** The six tables of a list of records. */
  function TablesOf(rs: seq<Record>): Tables {
    Tables(Tally(Pick(rs, MESSAGE_ENTRIES)), Tally(Pick(rs, BYTE_ENTRIES)), TallyTimings(Pick(rs, TIMING_ENTRIES)),
           Tally(Pick(rs, STREAM_ENTRIES)), Tally(Pick(rs, AGENT_ENTRIES)), Tally(Pick(rs, BINARY_ENTRIES)))
  }

  // ---------------------------------------------------------------------------------------------
  // Merging tables is recording both lists

  function MergeCounts(a: Counts, b: Counts): Counts {
    map k | k in a.Keys + b.Keys :: Get(a, k) + Get(b, k)
  }

  function MergeTimings(a: Timings, b: Timings): Timings {
    map k | k in a.Keys + b.Keys ::
      if k in a && k in b then Join(a[k], b[k]) else if k in a then a[k] else b[k]
  }

  function Merge(a: Tables, b: Tables): Tables {
    Tables(MergeCounts(a.messageCounts, b.messageCounts), MergeCounts(a.messageBytes, b.messageBytes),
           MergeTimings(a.messageHandlerMs, b.messageHandlerMs),
           MergeCounts(a.agentStreamCounts, b.agentStreamCounts),
           MergeCounts(a.agentStreamByAgentCounts, b.agentStreamByAgentCounts),
           MergeCounts(a.binaryFrameCounts, b.binaryFrameCounts))
  }

  lemma {:induction false} PickConcat<A>(a: seq<Record>, b: seq<Record>, f: Record -> seq<Entry<A>>)
    ensures Pick(a + b, f) == Pick(a, f) + Pick(b, f)
  {
    if b == [] {
      assert a + b == a;
    } else {
      assert (a + b)[..|a + b| - 1] == a + b[..|b| - 1];
      PickConcat(a, b[..|b| - 1], f);
    }
  }

  lemma CountAfterMerge(a: Counts, b: Counts, k: string, amount: int)
    ensures IncrementCount(MergeCounts(a, b), k, amount) == MergeCounts(a, IncrementCount(b, k, amount))
  {
  }

  lemma TimingAfterMerge(a: Timings, b: Timings, k: string, t: Timing)
    ensures IncrementTiming(MergeTimings(a, b), k, t) == MergeTimings(a, IncrementTiming(b, k, t))
  {
  }

  lemma {:induction false} TallyConcat(a: seq<Entry<int>>, b: seq<Entry<int>>)
    ensures Tally(a + b) == MergeCounts(Tally(a), Tally(b))
  {
    if b == [] {
      assert a + b == a;
    } else {
      hide MergeCounts, IncrementCount;
      assert (a + b)[..|a + b| - 1] == a + b[..|b| - 1];
      TallyConcat(a, b[..|b| - 1]);
      CountAfterMerge(Tally(a), Tally(b[..|b| - 1]), b[|b| - 1].key, b[|b| - 1].amount);
    }
  }

  lemma {:induction false} TallyTimingsConcat(a: seq<Entry<real>>, b: seq<Entry<real>>)
    ensures TallyTimings(a + b) == MergeTimings(TallyTimings(a), TallyTimings(b))
  {
    if b == [] {
      assert a + b == a;
    } else {
      hide MergeTimings, IncrementTiming;
      assert (a + b)[..|a + b| - 1] == a + b[..|b| - 1];
      TallyTimingsConcat(a, b[..|b| - 1]);
      var ms := b[|b| - 1].amount;
      TimingAfterMerge(TallyTimings(a), TallyTimings(b[..|b| - 1]), b[|b| - 1].key, Timing(1, ms, ms));
    }
  }

  /** Merging the tables of two lists gives the tables of the two lists together. */
  lemma MergeIsConcat(a: seq<Record>, b: seq<Record>)
    ensures TablesOf(a + b) == Merge(TablesOf(a), TablesOf(b))
  {
    hide Tally, TallyTimings, Pick, MergeCounts, MergeTimings;
    PickConcat(a, b, MESSAGE_ENTRIES);
    PickConcat(a, b, BYTE_ENTRIES);
    PickConcat(a, b, TIMING_ENTRIES);
    PickConcat(a, b, STREAM_ENTRIES);
    PickConcat(a, b, AGENT_ENTRIES);
    PickConcat(a, b, BINARY_ENTRIES);
    TallyConcat(Pick(a, MESSAGE_ENTRIES), Pick(b, MESSAGE_ENTRIES));
    TallyConcat(Pick(a, BYTE_ENTRIES), Pick(b, BYTE_ENTRIES));
    TallyTimingsConcat(Pick(a, TIMING_ENTRIES), Pick(b, TIMING_ENTRIES));
    TallyConcat(Pick(a, STREAM_ENTRIES), Pick(b, STREAM_ENTRIES));
    TallyConcat(Pick(a, AGENT_ENTRIES), Pick(b, AGENT_ENTRIES));
    TallyConcat(Pick(a, BINARY_ENTRIES), Pick(b, BINARY_ENTRIES));
  }

  // ---------------------------------------------------------------------------------------------
  // Recording and flushing, on the records themselves

  datatype Batch = Batch(records: seq<Record>, endedAt: int)
  datatype Metrics = Metrics(recorded: seq<Record>, batches: seq<Batch>)
  datatype Event = Recording(record: Record) | Flushing(now: int)

  const NO_METRICS := Metrics([], [])

  /** Agent stream records alone do not make a batch; they wait for the next one. */
  predicate Active(rs: seq<Record>) {
    exists r | r in rs :: !r.StreamRecord?
  }

  function Consume(m: Metrics, now: int): Metrics {
    if Active(m.recorded) then Metrics([], m.batches + [Batch(m.recorded, now)]) else m
  }

  function Prune(batches: seq<Batch>, cutoff: int): seq<Batch> {
    if batches != [] && batches[0].endedAt < cutoff then Prune(batches[1..], cutoff) else batches
  }

  function Step(m: Metrics, windowMs: int, e: Event): Metrics {
    match e
    case Recording(r) => m.(recorded := m.recorded + [r])
    case Flushing(now) =>
      var consumed := Consume(m, now);
      consumed.(batches := Prune(consumed.batches, now - windowMs))
  }

  function Run(windowMs: int, events: seq<Event>): Metrics {
    if events == [] then NO_METRICS else Step(Run(windowMs, events[..|events| - 1]), windowMs, events[|events| - 1])
  }

  function RecordsIn(batches: seq<Batch>): seq<Record> {
    if batches == [] then [] else RecordsIn(batches[..|batches| - 1]) + batches[|batches| - 1].records
  }

  // ---------------------------------------------------------------------------------------------
  // The tables kept up to date in place

  lemma {:induction false} PickNext<A>(rs: seq<Record>, r: Record, f: Record -> seq<Entry<A>>)
    ensures Pick(rs + [r], f) == Pick(rs, f) + f(r)
  {
    assert (rs + [r])[..|rs|] == rs;
  }

  lemma {:induction false} TallyNext(rs: seq<Record>, r: Record, f: Record -> seq<Entry<int>>)
    requires |f(r)| <= 1
    ensures Tally(Pick(rs + [r], f))
            == if f(r) == [] then Tally(Pick(rs, f))
               else IncrementCount(Tally(Pick(rs, f)), f(r)[0].key, f(r)[0].amount)
  {
    PickNext(rs, r, f);
    if f(r) == [] {
      assert Pick(rs, f) + [] == Pick(rs, f);
    } else {
      assert (Pick(rs, f) + f(r))[..|Pick(rs, f)|] == Pick(rs, f);
    }
  }

  lemma {:induction false} TallyTimingsSnoc(es: seq<Entry<real>>, e: Entry<real>)
    ensures TallyTimings(es + [e]) == IncrementTiming(TallyTimings(es), e.key, Timing(1, e.amount, e.amount))
  {
    assert (es + [e])[..|es|] == es;
  }

  lemma {:induction false} TallyTimingsNext(rs: seq<Record>, r: Record)
    ensures var before := TallyTimings(Pick(rs, TIMING_ENTRIES));
            var after, added := TallyTimings(Pick(rs + [r], TIMING_ENTRIES)), TIMING_ENTRIES(r);
            after == if added == [] then before
                     else IncrementTiming(before, added[0].key, Timing(1, added[0].amount, added[0].amount))
  {
    hide TallyTimings, IncrementTiming, Pick;
    PickNext(rs, r, TIMING_ENTRIES);
    if TIMING_ENTRIES(r) == [] {
      assert Pick(rs, TIMING_ENTRIES) + [] == Pick(rs, TIMING_ENTRIES);
    } else {
      assert TIMING_ENTRIES(r) == [TIMING_ENTRIES(r)[0]];
      TallyTimingsSnoc(Pick(rs, TIMING_ENTRIES), TIMING_ENTRIES(r)[0]);
    }
  }

  /** What recording `r` does to the six tables. */
  lemma {:induction false} TablesNext(rs: seq<Record>, r: Record)
    ensures var t := TablesOf(rs);
            TablesOf(rs + [r]) ==
            match r
            case MessageRecord(kind, bytes, ms) =>
              t.(messageCounts := IncrementCount(t.messageCounts, kind, 1),
                 messageBytes := IncrementCount(t.messageBytes, kind, bytes),
                 messageHandlerMs := IncrementTiming(t.messageHandlerMs, kind, Timing(1, ms, ms)))
            case StreamRecord(eventType, agentId) =>
              t.(agentStreamCounts := IncrementCount(t.agentStreamCounts, eventType, 1),
                 agentStreamByAgentCounts := IncrementCount(t.agentStreamByAgentCounts, agentId, 1))
            case BinaryRecord(kind, bytes, ms) =>
              t.(binaryFrameCounts := IncrementCount(t.binaryFrameCounts, kind, 1),
                 messageBytes := IncrementCount(t.messageBytes, "binary:" + kind, bytes),
                 messageHandlerMs := IncrementTiming(t.messageHandlerMs, "binary:" + kind, Timing(1, ms, ms)))
  {
    hide Tally, TallyTimings, Pick, IncrementCount, IncrementTiming;
    TallyNext(rs, r, MESSAGE_ENTRIES);
    TallyNext(rs, r, BYTE_ENTRIES);
    TallyTimingsNext(rs, r);
    TallyNext(rs, r, STREAM_ENTRIES);
    TallyNext(rs, r, AGENT_ENTRIES);
    TallyNext(rs, r, BINARY_ENTRIES);
  }

  /** The size test of the code is the activity test of the model. */
  lemma {:induction false} ActiveIffCounted(rs: seq<Record>)
    ensures Active(rs) <==> TablesOf(rs).messageCounts != map[] || TablesOf(rs).binaryFrameCounts != map[]
  {
    if rs != [] {
      var before, last := rs[..|rs| - 1], rs[|rs| - 1];
      assert rs == before + [last];
      ActiveIffCounted(before);
      TablesNext(before, last);
      hide TablesOf;
      assert Active(rs) <==> Active(before) || !last.StreamRecord?;
      if last.MessageRecord? {
        assert last.kind in TablesOf(rs).messageCounts;
      } else if last.BinaryRecord? {
        assert last.kind in TablesOf(rs).binaryFrameCounts;
      }
    }
  }

  function Only<A>(m: map<string, A>, keys: set<string>): map<string, A> {
    map k | k in m && k in keys :: m[k]
  }

  lemma {:induction false} MergeOneCount(target: Counts, source: Counts, done: set<string>, k: string)
    requires k in source && k !in done
    ensures IncrementCount(MergeCounts(target, Only(source, done)), k, source[k])
            == MergeCounts(target, Only(source, done + {k}))
  {
    CountAfterMerge(target, Only(source, done), k, source[k]);
    assert Only(source, done + {k}) == IncrementCount(Only(source, done), k, source[k]);
  }

  lemma {:induction false} MergeOneTiming(target: Timings, source: Timings, done: set<string>, k: string)
    requires k in source && k !in done
    ensures IncrementTiming(MergeTimings(target, Only(source, done)), k, source[k])
            == MergeTimings(target, Only(source, done + {k}))
  {
    TimingAfterMerge(target, Only(source, done), k, source[k]);
    assert Only(source, done + {k}) == IncrementTiming(Only(source, done), k, source[k]);
  }

  method MergeCountMap(target: Counts, source: Counts) returns (merged: Counts)
    ensures merged == MergeCounts(target, source)
  {
    merged := target;
    var done: set<string> := {};
    assert Only(source, {}) == map[] && MergeCounts(target, map[]) == target;
    while done != source.Keys
      invariant done <= source.Keys && merged == MergeCounts(target, Only(source, done))
      decreases |source.Keys - done|
    {
      hide MergeCounts, IncrementCount, Only;
      var k :| k in source.Keys - done;
      MergeOneCount(target, source, done, k);
      assert source.Keys - (done + {k}) < source.Keys - done;
      merged := IncrementCount(merged, k, source[k]);
      done := done + {k};
    }
    assert Only(source, source.Keys) == source;
  }

  method MergeHandlerTimingMap(target: Timings, source: Timings) returns (merged: Timings)
    ensures merged == MergeTimings(target, source)
  {
    merged := target;
    var done: set<string> := {};
    assert Only(source, {}) == map[] && MergeTimings(target, map[]) == target;
    while done != source.Keys
      invariant done <= source.Keys && merged == MergeTimings(target, Only(source, done))
      decreases |source.Keys - done|
    {
      hide MergeTimings, Only;
      var k :| k in source.Keys - done;
      MergeOneTiming(target, source, done, k);
      hide IncrementTiming;
      assert source.Keys - (done + {k}) < source.Keys - done;
      merged := IncrementTiming(merged, k, source[k]);
      done := done + {k};
    }
    assert Only(source, source.Keys) == source;
  }

  datatype Report = Report(windowMs: int, bucketCount: nat, final: bool, aggregate: Tables)

  const DEFAULT_ROLLING_WINDOW_MS := 60000

  class DaemonClientRuntimeMetrics {
    const startedAt: int
    const windowMs: int
    var buckets: seq<Bucket>
    var messageCounts: Counts
    var messageBytes: Counts
    var messageHandlerMs: Timings
    var agentStreamCounts: Counts
    var agentStreamByAgentCounts: Counts
    var binaryFrameCounts: Counts
    var logged: seq<Report>
    ghost var recorded: seq<Record>
    ghost var batches: seq<Batch>

    ghost function Current(): Tables
      reads this
    {
      Tables(messageCounts, messageBytes, messageHandlerMs, agentStreamCounts, agentStreamByAgentCounts,
             binaryFrameCounts)
    }

    ghost function View(): Metrics
      reads this
    {
      Metrics(recorded, batches)
    }

    /** The counters are the tables of what was recorded, bucket by bucket. */
    ghost predicate Valid()
      reads this
    {
      Current() == TablesOf(recorded) && windowMs > 0 && BucketsHold(buckets, batches)
    }

    constructor (now: int, window: Option<int>)
      ensures Valid() && View() == NO_METRICS && logged == []
      ensures windowMs == if window.Some? && window.value > 0 then window.value else 60_000
    {
      startedAt := now;
      windowMs := if window.Some? && window.value > 0 then window.value else DEFAULT_ROLLING_WINDOW_MS;
      buckets, logged, recorded, batches := [], [], [], [];
      messageCounts, messageBytes, messageHandlerMs := map[], map[], map[];
      agentStreamCounts, agentStreamByAgentCounts, binaryFrameCounts := map[], map[], map[];
    }

    method RecordMessage(kind: string, bytes: int, handlerMs: real)
      requires Valid()
      modifies this
      ensures Valid() && logged == old(logged)
      ensures View() == Step(old(View()), windowMs, Recording(MessageRecord(kind, bytes, handlerMs)))
    {
      hide TablesOf, BucketsHold;
      TablesNext(recorded, MessageRecord(kind, bytes, handlerMs));
      messageCounts := IncrementCount(messageCounts, kind, 1);
      messageBytes := IncrementCount(messageBytes, kind, bytes);
      messageHandlerMs := IncrementTiming(messageHandlerMs, kind, Timing(1, handlerMs, handlerMs));
      recorded := recorded + [MessageRecord(kind, bytes, handlerMs)];
    }

    method RecordAgentStream(eventType: string, agentId: string)
      requires Valid()
      modifies this
      ensures Valid() && logged == old(logged)
      ensures View() == Step(old(View()), windowMs, Recording(StreamRecord(eventType, agentId)))
    {
      hide TablesOf, BucketsHold;
      TablesNext(recorded, StreamRecord(eventType, agentId));
      agentStreamCounts := IncrementCount(agentStreamCounts, eventType, 1);
      agentStreamByAgentCounts := IncrementCount(agentStreamByAgentCounts, agentId, 1);
      recorded := recorded + [StreamRecord(eventType, agentId)];
    }

    method RecordBinaryFrame(kind: string, bytes: int, handlerMs: real)
      requires Valid()
      modifies this
      ensures Valid() && logged == old(logged)
      ensures View() == Step(old(View()), windowMs, Recording(BinaryRecord(kind, bytes, handlerMs)))
    {
      hide TablesOf, BucketsHold;
      TablesNext(recorded, BinaryRecord(kind, bytes, handlerMs));
      binaryFrameCounts := IncrementCount(binaryFrameCounts, kind, 1);
      messageBytes := IncrementCount(messageBytes, "binary:" + kind, bytes);
      messageHandlerMs := IncrementTiming(messageHandlerMs, "binary:" + kind, Timing(1, handlerMs, handlerMs));
      recorded := recorded + [BinaryRecord(kind, bytes, handlerMs)];
    }

    method ConsumeCurrentBucket(now: int)
      requires Valid()
      modifies this
      ensures Valid() && logged == old(logged) && View() == Consume(old(View()), now)
    {
      hide TablesOf, BucketsHold, Active;
      ActiveIffCounted(recorded);
      if messageCounts == map[] && binaryFrameCounts == map[] {
        return;
      }
      BucketsNext(buckets, batches, recorded, now);
      buckets := buckets + [Bucket(Tables(messageCounts, messageBytes, messageHandlerMs, agentStreamCounts,
                                          agentStreamByAgentCounts, binaryFrameCounts), now)];
      batches := batches + [Batch(recorded, now)];
      messageCounts, messageBytes, messageHandlerMs := map[], map[], map[];
      agentStreamCounts, agentStreamByAgentCounts, binaryFrameCounts := map[], map[], map[];
      recorded := [];
      NoTablesOf();
    }

    method PruneBuckets(now: int)
      requires Valid()
      modifies this
      ensures Valid() && logged == old(logged) && View() == old(View()).(batches := Prune(old(batches), now - windowMs))
    {
      hide TablesOf, BucketsHold;
      var cutoff := now - windowMs;
      while |buckets| > 0 && buckets[0].endedAt < cutoff
        invariant Valid() && recorded == old(recorded) && logged == old(logged)
        invariant Prune(batches, cutoff) == Prune(old(batches), cutoff)
        decreases |buckets|
      {
        BucketsRest(buckets, batches);
        buckets := buckets[1..];
        batches := batches[1..];
      }
      BucketsAlign(buckets, batches);
    }

    method AggregateBuckets() returns (aggregate: Tables)
      requires Valid()
      ensures aggregate == TablesOf(RecordsIn(batches))
    {
      hide TablesOf;
      aggregate := NO_TABLES;
      NoTablesOf();
      for i := 0 to |buckets|
        invariant aggregate == TablesOf(RecordsIn(batches[..i]))
      {
        var bucket := buckets[i].tables;
        assert batches[..i + 1][..i] == batches[..i];
        MergeIsConcat(RecordsIn(batches[..i]), batches[i].records);
        var messageCounts := MergeCountMap(aggregate.messageCounts, bucket.messageCounts);
        var messageBytes := MergeCountMap(aggregate.messageBytes, bucket.messageBytes);
        var messageHandlerMs := MergeHandlerTimingMap(aggregate.messageHandlerMs, bucket.messageHandlerMs);
        var agentStreamCounts := MergeCountMap(aggregate.agentStreamCounts, bucket.agentStreamCounts);
        var byAgent := MergeCountMap(aggregate.agentStreamByAgentCounts, bucket.agentStreamByAgentCounts);
        var binaryFrameCounts := MergeCountMap(aggregate.binaryFrameCounts, bucket.binaryFrameCounts);
        aggregate := Tables(messageCounts, messageBytes, messageHandlerMs, agentStreamCounts, byAgent,
                            binaryFrameCounts);
      }
      assert batches[..|buckets|] == batches;
    }

    /** Reports what the window holds, unless it holds no batch and the flush is not the last one. */
    method Flush(now: int, final: bool)
      requires Valid()
      modifies this
      ensures Valid() && View() == Step(old(View()), windowMs, Flushing(now))
      ensures logged == old(logged)
                + if batches == [] && !final then []
                  else [Report(ShownWindow(now), |batches|, final, TablesOf(RecordsIn(batches)))]
    {
      hide TablesOf, Consume, Prune, Active, RecordsIn, BucketsHold;
      ConsumeCurrentBucket(now);
      PruneBuckets(now);
      var aggregate := AggregateBuckets();
      BatchesAreActive(buckets, batches);
      ActiveIffCounted(RecordsIn(batches));
      if aggregate.messageCounts == map[] && aggregate.binaryFrameCounts == map[] && !final {
        return;
      }
      logged := logged + [Report(ShownWindow(now), |buckets|, final, aggregate)];
    }

    /** The time since the start, but no more than the window and not below zero. */
    function ShownWindow(now: int): (shown: int)
      ensures shown == windowMs || shown == now - startedAt || shown == 0
      ensures windowMs > 0 ==> 0 <= shown <= windowMs && (shown < now - startedAt ==> shown == windowMs)
    {
      var elapsed := if now - startedAt > 0 then now - startedAt else 0;
      if windowMs < elapsed then windowMs else elapsed
    }
  }

  predicate BucketsHold(buckets: seq<Bucket>, batches: seq<Batch>) {
    && |buckets| == |batches|
    && forall i | 0 <= i < |buckets| ::
         buckets[i] == Bucket(TablesOf(batches[i].records), batches[i].endedAt) && Active(batches[i].records)
  }

  lemma BucketsNext(buckets: seq<Bucket>, batches: seq<Batch>, rs: seq<Record>, now: int)
    requires BucketsHold(buckets, batches) && Active(rs)
    ensures BucketsHold(buckets + [Bucket(TablesOf(rs), now)], batches + [Batch(rs, now)])
  {
    hide Active, TablesOf;
  }

  lemma BucketsAlign(buckets: seq<Bucket>, batches: seq<Batch>)
    requires BucketsHold(buckets, batches)
    ensures |buckets| == |batches| && (buckets != [] ==> buckets[0].endedAt == batches[0].endedAt)
  {
  }

  lemma BucketsRest(buckets: seq<Bucket>, batches: seq<Batch>)
    requires BucketsHold(buckets, batches) && buckets != []
    ensures batches != [] && batches[0].endedAt == buckets[0].endedAt && BucketsHold(buckets[1..], batches[1..])
  {
  }

  lemma NoTablesOf()
    ensures TablesOf([]) == NO_TABLES && RecordsIn([]) == []
  {
  }

  /** Something was counted in the window exactly if a batch is left in it. */
  lemma BatchesAreActive(buckets: seq<Bucket>, batches: seq<Batch>)
    requires BucketsHold(buckets, batches)
    ensures Active(RecordsIn(batches)) <==> batches != []
    ensures |buckets| == |batches|
  {
    if batches != [] {
      var last := batches[|batches| - 1];
      var r :| r in last.records && !r.StreamRecord?;
      assert r in RecordsIn(batches);
    }
  }
}
