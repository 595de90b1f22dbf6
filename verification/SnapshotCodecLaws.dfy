/** Round trips between provider snapshots and their compact form, and what the compact form looks like. */
module SnapshotCodecLaws {
  import opened Options
  import opened SnapshotCodec

  // ---------------------------------------------------------------------------------------------
  // Expanding what was compacted

  /** Models name their entry's provider, and equal keys mean equal sets among those that occur. */
  predicate Faithful(key: Key, entries: seq<Entry>) {
    && ProvidersAgree(entries)
    && forall a, b | a in SetsOf(entries) && b in SetsOf(entries) :: key(a) == key(b) ==> a == b
  }

  /** The compact model stands for `m`. */
  predicate Stands(key: Key, table: seq<ThinkingSet>, provider: string, m: Model) {
    ExpandModel(provider, CompactOne(key, table, m), table) == Ok(m)
  }

  /** Every model's own set is one of the snapshot's sets, and each of those belongs to a model. */
  lemma SetOfModel(entries: seq<Entry>, i: nat, j: nat)
    requires i < |entries| && entries[i].models.Some? && j < |entries[i].models.value|
    requires entries[i].models.value[j].thinkingOptions.Some?
    ensures SetOf(entries[i].models.value[j]) in SetsOf(entries)
  {
    SetsHas(entries[i].models.value, SetOf(entries[i].models.value[j]));
    SetsOfHas(entries, SetOf(entries[i].models.value[j]));
  }

  lemma ModelOfSet(entries: seq<Entry>, s: ThinkingSet) returns (i: nat, j: nat)
    requires s in SetsOf(entries)
    ensures i < |entries| && entries[i].models.Some? && j < |entries[i].models.value|
    ensures entries[i].models.value[j].thinkingOptions.Some? && SetOf(entries[i].models.value[j]) == s
  {
    SetsOfHas(entries, s);
    i :| 0 <= i < |entries| && entries[i].models.Some? && s in Sets(entries[i].models.value);
    SetsHas(entries[i].models.value, s);
    j :| 0 <= j < |entries[i].models.value| && entries[i].models.value[j].thinkingOptions.Some?
        && SetOf(entries[i].models.value[j]) == s;
  }

  predicate AllStand(key: Key, table: seq<ThinkingSet>, entries: seq<Entry>) {
    forall i | 0 <= i < |entries| && entries[i].models.Some? ::
      forall j | 0 <= j < |entries[i].models.value| ::
        Stands(key, table, entries[i].fields.provider, entries[i].models.value[j])
  }

  lemma EntryStands(key: Key, table: seq<ThinkingSet>, e: Entry)
    ensures ExpandEntry(CompactOneEntry(key, table, e), table) == Ok(e)
            <==> e.models.Some? ==>
                   forall j | 0 <= j < |e.models.value| :: Stands(key, table, e.fields.provider, e.models.value[j])
  {
    if e.models.Some? {
      hide ExpandModel, CompactOne;
      ExpandModelsPointwise(e.fields.provider, CompactModels(key, table, e.models.value), table, e.models.value);
    }
  }

  lemma AllStandIff(key: Key, table: seq<ThinkingSet>, entries: seq<Entry>)
    ensures ExpandEntries(CompactEntries(key, table, entries), table) == Ok(entries) <==> AllStand(key, table, entries)
  {
    hide ExpandEntry, CompactOneEntry, Stands;
    ExpandEntriesPointwise(CompactEntries(key, table, entries), table, entries);
    forall i | 0 <= i < |entries|
      ensures ExpandEntry(CompactEntries(key, table, entries)[i], table) == Ok(entries[i])
              <==> entries[i].models.Some? ==>
                     forall j | 0 <= j < |entries[i].models.value| ::
                       Stands(key, table, entries[i].fields.provider, entries[i].models.value[j])
    {
      EntryStands(key, table, entries[i]);
    }
  }

  lemma StandsIff(key: Key, table: seq<ThinkingSet>, provider: string, m: Model)
    ensures Stands(key, table, provider, m)
            <==> m.provider == provider && (m.thinkingOptions.Some? ==> Represented(key, table, SetOf(m)))
  {
  }

  predicate Represented(key: Key, table: seq<ThinkingSet>, s: ThinkingSet) {
    var p := Position(key, table, key(s));
    p < |table| && table[p] == s
  }

  lemma RepresentedIff(key: Key, sets: seq<ThinkingSet>)
    ensures (forall s | s in sets :: Represented(key, Table(key, sets), s))
            <==> forall a, b | a in sets && b in sets :: key(a) == key(b) ==> a == b
  {
    var table := Table(key, sets);
    TableOk(key, sets);
    if forall s | s in sets :: Represented(key, table, s) {
      forall a, b | a in sets && b in sets && key(a) == key(b) ensures a == b {
        assert Represented(key, table, a) && Represented(key, table, b);
      }
    }
    if forall a, b | a in sets && b in sets :: key(a) == key(b) ==> a == b {
      forall s | s in sets ensures Represented(key, table, s) {
        assert table[Position(key, table, key(s))] in sets;
      }
    }
  }

  predicate ProvidersAgree(entries: seq<Entry>) {
    forall i | 0 <= i < |entries| && entries[i].models.Some? ::
      forall j | 0 <= j < |entries[i].models.value| ::
        entries[i].models.value[j].provider == entries[i].fields.provider
  }

  lemma AllStandExactly(key: Key, table: seq<ThinkingSet>, entries: seq<Entry>)
    ensures AllStand(key, table, entries)
            <==> ProvidersAgree(entries) && forall s | s in SetsOf(entries) :: Represented(key, table, s)
  {
    hide Stands, Represented, SetsOf, SetOf;
    if AllStand(key, table, entries) {
      forall s | s in SetsOf(entries) ensures Represented(key, table, s) {
        var i, j := ModelOfSet(entries, s);
        StandsIff(key, table, entries[i].fields.provider, entries[i].models.value[j]);
      }
      forall i, j | 0 <= i < |entries| && entries[i].models.Some? && 0 <= j < |entries[i].models.value|
        ensures entries[i].models.value[j].provider == entries[i].fields.provider
      {
        StandsIff(key, table, entries[i].fields.provider, entries[i].models.value[j]);
      }
    }
    if ProvidersAgree(entries) && forall s | s in SetsOf(entries) :: Represented(key, table, s) {
      forall i, j | 0 <= i < |entries| && entries[i].models.Some? && 0 <= j < |entries[i].models.value|
        ensures Stands(key, table, entries[i].fields.provider, entries[i].models.value[j])
      {
        StandsIff(key, table, entries[i].fields.provider, entries[i].models.value[j]);
        if entries[i].models.value[j].thinkingOptions.Some? {
          SetOfModel(entries, i, j);
        }
      }
    }
  }

  /** Compacting loses nothing exactly on the faithful snapshots. */
  lemma ExpandCompact(key: Key, entries: seq<Entry>)
    ensures Expand(Compact(key, entries)) == Ok(entries) <==> Faithful(key, entries)
  {
    hide AllStand, Represented;
    AllStandIff(key, Table(key, SetsOf(entries)), entries);
    AllStandExactly(key, Table(key, SetsOf(entries)), entries);
    RepresentedIff(key, SetsOf(entries));
  }

  // ---------------------------------------------------------------------------------------------
  // When expanding raises

  predicate IndexOk(m: CompactModel, sets: seq<ThinkingSet>) {
    m.thinkingSet.Some? ==> 0 <= m.thinkingSet.value < |sets|
  }

  predicate EntryOk(e: CompactEntry, sets: seq<ThinkingSet>) {
    e.models.Some? ==> forall j | 0 <= j < |e.models.value| :: IndexOk(e.models.value[j], sets)
  }

  predicate InRange(c: Snapshot) {
    forall i | 0 <= i < |c.entries| :: EntryOk(c.entries[i], c.thinkingSets)
  }

  lemma {:induction false} ExpandModelsRaises(provider: string, models: seq<CompactModel>, sets: seq<ThinkingSet>)
    ensures ExpandModels(provider, models, sets).Ok? <==> forall j | 0 <= j < |models| :: IndexOk(models[j], sets)
  {
    if models != [] {
      ExpandModelsRaises(provider, models[1..], sets);
      assert models == [models[0]] + models[1..];
      assert forall j | 1 <= j < |models| :: models[j] == models[1..][j - 1];
    }
  }

  lemma {:induction false} ExpandEntriesRaises(entries: seq<CompactEntry>, sets: seq<ThinkingSet>)
    ensures ExpandEntries(entries, sets).Ok? <==> forall i | 0 <= i < |entries| :: EntryOk(entries[i], sets)
  {
    if entries != [] {
      ExpandEntriesRaises(entries[1..], sets);
      if entries[0].models.Some? {
        ExpandModelsRaises(entries[0].fields.provider, entries[0].models.value, sets);
      }
      hide EntryOk;
      assert entries == [entries[0]] + entries[1..];
      assert forall i | 1 <= i < |entries| :: entries[i] == entries[1..][i - 1];
    }
  }

  /** Expanding raises exactly on an index outside the table, so never on what was compacted. */
  lemma ExpandRaises(key: Key, c: Snapshot, entries: seq<Entry>)
    ensures Expand(c).Ok? <==> InRange(c)
    ensures Expand(Compact(key, entries)).Ok?
  {
    ExpandEntriesRaises(c.entries, c.thinkingSets);
    var compact := Compact(key, entries);
    ExpandEntriesRaises(compact.entries, compact.thinkingSets);
    forall i | 0 <= i < |compact.entries| ensures EntryOk(compact.entries[i], compact.thinkingSets) {
      CompactEntryOk(key, entries, i);
    }
  }

  lemma CompactEntryOk(key: Key, entries: seq<Entry>, i: nat)
    requires i < |entries|
    ensures EntryOk(CompactOneEntry(key, Table(key, SetsOf(entries)), entries[i]), Table(key, SetsOf(entries)))
  {
    var table := Table(key, SetsOf(entries));
    TableOk(key, SetsOf(entries));
    if entries[i].models.Some? {
      forall j | 0 <= j < |entries[i].models.value|
        ensures IndexOk(CompactOne(key, table, entries[i].models.value[j]), table)
      {
        if entries[i].models.value[j].thinkingOptions.Some? {
          SetOfModel(entries, i, j);
        }
      }
    }
  }

  /** What an expanded model says: its entry's provider, its own fields, the options of its set, and the default of the
      set, or its own if the set has none. */
  lemma {:induction false} ExpandedModel(c: Snapshot, i: nat, j: nat)
    requires InRange(c) && i < |c.entries| && c.entries[i].models.Some? && j < |c.entries[i].models.value|
    ensures Expand(c).Ok? && |Expand(c).value| == |c.entries| && Expand(c).value[i].fields == c.entries[i].fields
    ensures var models := Expand(c).value[i].models;
            models.Some? && |models.value| == |c.entries[i].models.value|
            && var m, out := c.entries[i].models.value[j], models.value[j];
               && out.provider == c.entries[i].fields.provider && out.fields == m.fields
               && (m.thinkingSet.None? ==>
                     out.thinkingOptions.None? && out.defaultThinkingOptionId == m.defaultThinkingOptionId)
               && (m.thinkingSet.Some? ==>
                     && 0 <= m.thinkingSet.value < |c.thinkingSets|
                     && var shared := c.thinkingSets[m.thinkingSet.value];
                        && out.thinkingOptions == Some(shared.options)
                        && out.defaultThinkingOptionId
                           == if shared.defaultOptionId.None? then m.defaultThinkingOptionId
                              else shared.defaultOptionId)
  {
    ExpandEntriesRaises(c.entries, c.thinkingSets);
    var out := Expand(c).value;
    ExpandEntriesPointwise(c.entries, c.thinkingSets, out);
    assert ExpandEntry(c.entries[i], c.thinkingSets) == Ok(out[i]);
    var provider, models := c.entries[i].fields.provider, c.entries[i].models.value;
    ExpandModelsPointwise(provider, models, c.thinkingSets, out[i].models.value);
    assert ExpandModel(provider, models[j], c.thinkingSets) == Ok(out[i].models.value[j]);
    assert EntryOk(c.entries[i], c.thinkingSets) && IndexOk(models[j], c.thinkingSets);
  }

  // ---------------------------------------------------------------------------------------------
  // The shape of the compact form

  function Uses(models: seq<CompactModel>): seq<int> {
    if models == [] then []
    else (if models[0].thinkingSet.Some? then [models[0].thinkingSet.value] else []) + Uses(models[1..])
  }

  /** The indices of a compact snapshot in reading order. */
  function UsesOf(entries: seq<CompactEntry>): seq<int> {
    if entries == [] then []
    else (if entries[0].models.Some? then Uses(entries[0].models.value) else []) + UsesOf(entries[1..])
  }

  /** The first index not yet used. */
  function Reach(uses: seq<int>): (r: nat)
    ensures forall u | u in uses :: u < r
  {
    if uses == [] then 0
    else
      var last := |uses| - 1;
      assert uses == uses[..last] + [uses[last]];
      var r := Reach(uses[..last]);
      if uses[last] < r then r else uses[last] + 1
  }

  /** Every index is either used before or the next fresh one. */
  predicate InFirstUseOrder(uses: seq<int>) {
    forall n | 0 <= n < |uses| :: 0 <= uses[n] <= Reach(uses[..n])
  }

  predicate NoDefaultBesideSet(entries: seq<CompactEntry>) {
    forall i | 0 <= i < |entries| && entries[i].models.Some? :: forall j | 0 <= j < |entries[i].models.value| ::
      var m := entries[i].models.value[j]; m.thinkingSet.Some? ==> m.defaultThinkingOptionId.None?
  }

  predicate Canonical(key: Key, c: Snapshot) {
    && DistinctKeys(key, c.thinkingSets)
    && InFirstUseOrder(UsesOf(c.entries)) && Reach(UsesOf(c.entries)) == |c.thinkingSets|
    && NoDefaultBesideSet(c.entries)
  }

  function Positions(key: Key, table: seq<ThinkingSet>, sets: seq<ThinkingSet>): seq<int> {
    seq(|sets|, i requires 0 <= i < |sets| => Position(key, table, key(sets[i])))
  }

  lemma {:induction false} UsesAreSets(key: Key, table: seq<ThinkingSet>, models: seq<Model>)
    ensures Uses(CompactModels(key, table, models)) == Positions(key, table, Sets(models))
  {
    if models != [] {
      assert CompactModels(key, table, models)[1..] == CompactModels(key, table, models[1..]);
      UsesAreSets(key, table, models[1..]);
    }
  }

  lemma {:induction false} UsesOfAreSets(key: Key, table: seq<ThinkingSet>, entries: seq<Entry>)
    ensures UsesOf(CompactEntries(key, table, entries)) == Positions(key, table, SetsOf(entries))
  {
    if entries != [] {
      assert CompactEntries(key, table, entries)[1..] == CompactEntries(key, table, entries[1..]);
      UsesOfAreSets(key, table, entries[1..]);
      if entries[0].models.Some? {
        UsesAreSets(key, table, entries[0].models.value);
      }
    }
  }

  lemma {:induction false} PositionsInOrder(key: Key, sets: seq<ThinkingSet>)
    ensures var uses := Positions(key, Table(key, sets), sets);
            InFirstUseOrder(uses) && Reach(uses) == |Table(key, sets)|
  {
    if sets != [] {
      var before, last := sets[..|sets| - 1], sets[|sets| - 1];
      PositionsInOrder(key, before);
      TableOk(key, before);
      var table, uses := Table(key, sets), Positions(key, Table(key, sets), sets);
      forall i | 0 <= i < |before| ensures uses[i] == Position(key, Table(key, before), key(before[i])) {
        assert before[i] in before;
        PositionGrows(key, Table(key, before), [last], key(before[i]));
      }
      assert uses[..|before|] == Positions(key, Table(key, before), before);
      NewOrOld(key, before, last);
      OrderNext(uses);
    }
  }

  lemma NewOrOld(key: Key, before: seq<ThinkingSet>, last: ThinkingSet)
    ensures var old_, table := Table(key, before), Table(key, before + [last]);
            var p := Position(key, table, key(last));
            p < |table| && if table == old_ then p < |old_| else p == |old_| && table == old_ + [last]
  {
    assert (before + [last])[..|before|] == before;
    var old_ := Table(key, before);
    var p := Position(key, old_ + [last], key(last));
    assert (old_ + [last])[|old_|] == last;
    assert p < |old_| ==> (old_ + [last])[p] == old_[p];
    assert forall i | 0 <= i < |old_| :: (old_ + [last])[i] == old_[i];
  }

  lemma OrderNext(uses: seq<int>)
    requires uses != [] && InFirstUseOrder(uses[..|uses| - 1])
    requires 0 <= uses[|uses| - 1] <= Reach(uses[..|uses| - 1])
    ensures InFirstUseOrder(uses)
  {
    forall n | 0 <= n < |uses| ensures 0 <= uses[n] <= Reach(uses[..n]) {
      if n < |uses| - 1 {
        assert uses[..|uses| - 1][..n] == uses[..n] && uses[..|uses| - 1][n] == uses[n];
      }
    }
  }

  /** Compacting makes a table of distinct keys, numbered in first-use order, none unused, none out of range. */
  lemma CompactIsCanonical(key: Key, entries: seq<Entry>)
    ensures Canonical(key, Compact(key, entries))
  {
    var table := Table(key, SetsOf(entries));
    assert NoDefaultBesideSet(CompactEntries(key, table, entries));
    hide NoDefaultBesideSet, CompactEntries, Table, SetsOf, UsesOf, Positions, Reach, InFirstUseOrder, DistinctKeys;
    TableOk(key, SetsOf(entries));
    UsesOfAreSets(key, table, entries);
    PositionsInOrder(key, SetsOf(entries));
  }

  function Picks(table: seq<ThinkingSet>, uses: seq<int>): seq<ThinkingSet>
    requires forall u | u in uses :: 0 <= u < |table|
  {
    seq(|uses|, i requires 0 <= i < |uses| => assert uses[i] in uses; table[uses[i]])
  }

  lemma ReachSnoc(uses: seq<int>, u: int)
    ensures Reach(uses + [u]) == if u < Reach(uses) then Reach(uses) else u + 1
  {
    assert (uses + [u])[..|uses|] == uses;
  }

  lemma PicksSnoc(table: seq<ThinkingSet>, uses: seq<int>, u: int)
    requires forall v | v in uses + [u] :: 0 <= v < |table|
    ensures 0 <= u < |table| && forall v | v in uses :: 0 <= v < |table|
    ensures Picks(table, uses + [u]) == Picks(table, uses) + [table[u]]
  {
    assert u in uses + [u];
    assert forall v | v in uses :: v in uses + [u];
  }

  lemma {:induction false} PicksMakeTable(key: Key, table: seq<ThinkingSet>, uses: seq<int>)
    requires DistinctKeys(key, table) && InFirstUseOrder(uses) && forall u | u in uses :: 0 <= u < |table|
    ensures Reach(uses) <= |table| && Table(key, Picks(table, uses)) == table[..Reach(uses)]
  {
    if uses == [] {
      assert Picks(table, uses) == [];
    } else {
      hide *;
      var before, u := uses[..|uses| - 1], uses[|uses| - 1];
      OrderPrefix(uses);
      assert uses == before + [u];
      PicksSnoc(table, before, u);
      PicksMakeTable(key, table, before);
      PickNext(key, table, Reach(before), u);
      TableSnoc(key, Picks(table, before), table[u]);
      ReachSnoc(before, u);
    }
  }

  lemma OrderPrefix(uses: seq<int>)
    requires uses != [] && InFirstUseOrder(uses)
    ensures InFirstUseOrder(uses[..|uses| - 1]) && 0 <= uses[|uses| - 1] <= Reach(uses[..|uses| - 1])
  {
    var before := uses[..|uses| - 1];
    assert forall n | 0 <= n < |before| :: before[n] == uses[n] && before[..n] == uses[..n];
  }

  lemma PickNext(key: Key, table: seq<ThinkingSet>, r: nat, u: nat)
    requires DistinctKeys(key, table) && u <= r <= |table| && u < |table|
    ensures u < r ==> Position(key, table[..r], key(table[u])) == u
    ensures u == r ==> Position(key, table[..r], key(table[u])) == r && table[..r] + [table[u]] == table[..r + 1]
  {
    if u < r {
      PositionOf(key, table[..r], u);
    } else {
      var p := Position(key, table[..r], key(table[u]));
      assert forall i | 0 <= i < r :: table[..r][i] == table[i];
    }
  }

  /** What a canonical model expands to has the shared set as its own. */
  lemma ModelReads(key: Key, provider: string, m: CompactModel, sets: seq<ThinkingSet>)
    requires IndexOk(m, sets) && (m.thinkingSet.Some? ==> m.defaultThinkingOptionId.None?)
    ensures ExpandModel(provider, m, sets).Ok?
    ensures var out := ExpandModel(provider, m, sets).value;
            && out.fields == m.fields && (out.thinkingOptions.Some? <==> m.thinkingSet.Some?)
            && (m.thinkingSet.Some? ==> SetOf(out) == sets[m.thinkingSet.value])
            && (DistinctKeys(key, sets) ==> CompactOne(key, sets, out) == m)
  {
    if m.thinkingSet.Some? && DistinctKeys(key, sets) {
      PositionOf(key, sets, m.thinkingSet.value);
    }
  }

  predicate ModelsCanonical(models: seq<CompactModel>, sets: seq<ThinkingSet>) {
    forall j | 0 <= j < |models| ::
      IndexOk(models[j], sets) && (models[j].thinkingSet.Some? ==> models[j].defaultThinkingOptionId.None?)
  }

  predicate EntriesCanonical(entries: seq<CompactEntry>, sets: seq<ThinkingSet>) {
    forall i | 0 <= i < |entries| && entries[i].models.Some? :: ModelsCanonical(entries[i].models.value, sets)
  }

  lemma {:induction false} ModelsRead(key: Key, provider: string, models: seq<CompactModel>, sets: seq<ThinkingSet>)
    requires ModelsCanonical(models, sets) && DistinctKeys(key, sets)
    ensures forall u | u in Uses(models) :: 0 <= u < |sets|
    ensures var out := ExpandModels(provider, models, sets);
            out.Ok? && Sets(out.value) == Picks(sets, Uses(models)) && CompactModels(key, sets, out.value) == models
  {
    if models != [] {
      hide ExpandModel, CompactOne, DistinctKeys, ModelsCanonical, SetOf, CompactModels;
      FirstCanonical(models, sets);
      ModelReads(key, provider, models[0], sets);
      ModelsRead(key, provider, models[1..], sets);
      var first, rest := ExpandModel(provider, models[0], sets).value, ExpandModels(provider, models[1..], sets).value;
      assert ([first] + rest)[1..] == rest;
      CompactModelsCons(key, sets, first, rest);
      assert models == [models[0]] + models[1..];
    }
  }

  lemma FirstCanonical(models: seq<CompactModel>, sets: seq<ThinkingSet>)
    requires models != [] && ModelsCanonical(models, sets)
    ensures IndexOk(models[0], sets) && (models[0].thinkingSet.Some? ==> models[0].defaultThinkingOptionId.None?)
    ensures ModelsCanonical(models[1..], sets)
  {
    assert forall j | 0 <= j < |models[1..]| :: models[1..][j] == models[j + 1];
  }

  lemma CompactModelsCons(key: Key, table: seq<ThinkingSet>, first: Model, rest: seq<Model>)
    ensures CompactModels(key, table, [first] + rest)
            == [CompactOne(key, table, first)] + CompactModels(key, table, rest)
  {
  }

  lemma {:induction false} EntriesRead(key: Key, entries: seq<CompactEntry>, sets: seq<ThinkingSet>)
    requires EntriesCanonical(entries, sets) && DistinctKeys(key, sets)
    ensures forall u | u in UsesOf(entries) :: 0 <= u < |sets|
    ensures var out := ExpandEntries(entries, sets);
            out.Ok? && SetsOf(out.value) == Picks(sets, UsesOf(entries))
            && CompactEntries(key, sets, out.value) == entries
  {
    if entries != [] {
      hide ModelsCanonical, DistinctKeys;
      assert EntriesCanonical(entries[1..], sets) by {
        assert forall i | 0 <= i < |entries[1..]| :: entries[1..][i] == entries[i + 1];
      }
      EntriesRead(key, entries[1..], sets);
      if entries[0].models.Some? {
        ModelsRead(key, entries[0].fields.provider, entries[0].models.value, sets);
      }
      var out := ExpandEntries(entries, sets).value;
      assert out[1..] == ExpandEntries(entries[1..], sets).value;
      assert CompactOneEntry(key, sets, out[0]) == entries[0];
      assert CompactEntries(key, sets, out) == [entries[0]] + CompactEntries(key, sets, out[1..]);
      assert entries == [entries[0]] + entries[1..];
    }
  }

  lemma {:induction false} UsesHas(models: seq<CompactModel>, j: nat)
    requires j < |models| && models[j].thinkingSet.Some?
    ensures models[j].thinkingSet.value in Uses(models)
  {
    if j > 0 {
      UsesHas(models[1..], j - 1);
    }
  }

  lemma {:induction false} UsesOfHas(entries: seq<CompactEntry>, i: nat, j: nat)
    requires i < |entries| && entries[i].models.Some?
    requires j < |entries[i].models.value| && entries[i].models.value[j].thinkingSet.Some?
    ensures entries[i].models.value[j].thinkingSet.value in UsesOf(entries)
  {
    if i > 0 {
      UsesOfHas(entries[1..], i - 1, j);
    } else {
      UsesHas(entries[0].models.value, j);
    }
  }

  lemma CanonicalEntries(key: Key, c: Snapshot)
    requires Canonical(key, c)
    ensures EntriesCanonical(c.entries, c.thinkingSets)
  {
    var uses := UsesOf(c.entries);
    forall i, j | 0 <= i < |c.entries| && c.entries[i].models.Some? && 0 <= j < |c.entries[i].models.value|
      ensures IndexOk(c.entries[i].models.value[j], c.thinkingSets)
    {
      if c.entries[i].models.value[j].thinkingSet.Some? {
        UsesOfHas(c.entries, i, j);
        var n :| 0 <= n < |uses| && uses[n] == c.entries[i].models.value[j].thinkingSet.value;
      }
    }
  }

  /** Compacting again gives the same compact form exactly on the canonical ones. */
  lemma CompactExpand(key: Key, c: Snapshot)
    ensures Expand(c).Ok? && Compact(key, Expand(c).value) == c <==> Canonical(key, c)
  {
    if Canonical(key, c) {
      CanonicalEntries(key, c);
      EntriesRead(key, c.entries, c.thinkingSets);
      PicksMakeTable(key, c.thinkingSets, UsesOf(c.entries));
      assert c.thinkingSets[..|c.thinkingSets|] == c.thinkingSets;
    } else if Expand(c).Ok? {
      CompactIsCanonical(key, Expand(c).value);
    }
  }
}
