/** The provider snapshot's compact form, in which models share one table of thinking sets. */
module SnapshotCodec {
  import opened Options

  datatype SelectOption = SelectOption(id: string, name: string, details: string)
  datatype ThinkingSet = ThinkingSet(options: seq<SelectOption>, defaultOptionId: Option<string>)

  datatype ModelFields = ModelFields(id: string, name: string, details: string)
  datatype Model = Model(
    provider: string, fields: ModelFields, thinkingOptions: Option<seq<SelectOption>>,
    defaultThinkingOptionId: Option<string>)
  datatype CompactModel = CompactModel(
    fields: ModelFields, defaultThinkingOptionId: Option<string>, thinkingSet: Option<int>)

  datatype EntryFields = EntryFields(provider: string, status: string, enabled: bool, details: string)
  datatype Entry = Entry(fields: EntryFields, models: Option<seq<Model>>)
  datatype CompactEntry = CompactEntry(fields: EntryFields, models: Option<seq<CompactModel>>)
  datatype Snapshot = Snapshot(entries: seq<CompactEntry>, thinkingSets: seq<ThinkingSet>)

  /** The serialisation two sets are compared by. */
  type Key = ThinkingSet -> string

  // ---------------------------------------------------------------------------------------------
  // Reference: first collect the table, then look every set up in it

  function SetOf(m: Model): ThinkingSet
    requires m.thinkingOptions.Some?
  {
    ThinkingSet(m.thinkingOptions.value, m.defaultThinkingOptionId)
  }

  function Sets(models: seq<Model>): seq<ThinkingSet> {
    if models == [] then []
    else (if models[0].thinkingOptions.Some? then [SetOf(models[0])] else []) + Sets(models[1..])
  }

  /** The thinking sets of a snapshot in reading order. */
  function SetsOf(entries: seq<Entry>): seq<ThinkingSet> {
    if entries == [] then []
    else (if entries[0].models.Some? then Sets(entries[0].models.value) else []) + SetsOf(entries[1..])
  }

  /** Where `k` first occurs, or the length when it does not. */
  function Position(key: Key, table: seq<ThinkingSet>, k: string): (p: nat)
    ensures p <= |table| && (p < |table| ==> key(table[p]) == k)
    ensures forall i :: 0 <= i < p ==> key(table[i]) != k
  {
    if table == [] || key(table[0]) == k then 0 else 1 + Position(key, table[1..], k)
  }

  /** Each set that does not share its key with an earlier one. */
  function Table(key: Key, sets: seq<ThinkingSet>): seq<ThinkingSet> {
    if sets == [] then []
    else
      var last := |sets| - 1;
      var table := Table(key, sets[..last]);
      if Position(key, table, key(sets[last])) < |table| then table else table + [sets[last]]
  }

  function CompactOne(key: Key, table: seq<ThinkingSet>, m: Model): CompactModel {
    if m.thinkingOptions.None? then CompactModel(m.fields, m.defaultThinkingOptionId, None)
    else CompactModel(m.fields, None, Some(Position(key, table, key(SetOf(m)))))
  }

  function CompactModels(key: Key, table: seq<ThinkingSet>, models: seq<Model>): seq<CompactModel> {
    seq(|models|, i requires 0 <= i < |models| => CompactOne(key, table, models[i]))
  }

  function CompactOneEntry(key: Key, table: seq<ThinkingSet>, e: Entry): CompactEntry {
    CompactEntry(e.fields, if e.models.None? then None else Some(CompactModels(key, table, e.models.value)))
  }

  function CompactEntries(key: Key, table: seq<ThinkingSet>, entries: seq<Entry>): seq<CompactEntry> {
    seq(|entries|, i requires 0 <= i < |entries| => CompactOneEntry(key, table, entries[i]))
  }

  function Compact(key: Key, entries: seq<Entry>): Snapshot {
    var table := Table(key, SetsOf(entries));
    Snapshot(CompactEntries(key, table, entries), table)
  }

  // ---------------------------------------------------------------------------------------------
  // Expanding; an index without a set is the source's RangeError

  function ExpandModel(provider: string, m: CompactModel, sets: seq<ThinkingSet>): Result<Model, int> {
    if m.thinkingSet.None? then Ok(Model(provider, m.fields, None, m.defaultThinkingOptionId))
    else
      var index := m.thinkingSet.value;
      if !(0 <= index < |sets|) then Err(index)
      else
        var shared := sets[index];
        Ok(Model(provider, m.fields, Some(shared.options),
                 if shared.defaultOptionId.Some? then shared.defaultOptionId else m.defaultThinkingOptionId))
  }

  function ExpandModels(provider: string, models: seq<CompactModel>, sets: seq<ThinkingSet>): Result<seq<Model>, int> {
    if models == [] then Ok([])
    else
      match ExpandModel(provider, models[0], sets)
      case Err(index) => Err(index)
      case Ok(first) =>
        match ExpandModels(provider, models[1..], sets)
        case Err(index) => Err(index)
        case Ok(rest) => Ok([first] + rest)
  }

  function ExpandEntry(e: CompactEntry, sets: seq<ThinkingSet>): Result<Entry, int> {
    if e.models.None? then Ok(Entry(e.fields, None))
    else
      match ExpandModels(e.fields.provider, e.models.value, sets)
      case Err(index) => Err(index)
      case Ok(models) => Ok(Entry(e.fields, Some(models)))
  }

  function ExpandEntries(entries: seq<CompactEntry>, sets: seq<ThinkingSet>): Result<seq<Entry>, int> {
    if entries == [] then Ok([])
    else
      match ExpandEntry(entries[0], sets)
      case Err(index) => Err(index)
      case Ok(first) =>
        match ExpandEntries(entries[1..], sets)
        case Err(index) => Err(index)
        case Ok(rest) => Ok([first] + rest)
  }

  function Expand(c: Snapshot): Result<seq<Entry>, int> {
    ExpandEntries(c.entries, c.thinkingSets)
  }

  lemma {:induction false} ExpandModelsPointwise(
    provider: string, models: seq<CompactModel>, sets: seq<ThinkingSet>, out: seq<Model>)
    ensures ExpandModels(provider, models, sets) == Ok(out)
            <==> (&& |out| == |models|
                  && forall i :: 0 <= i < |models| ==> ExpandModel(provider, models[i], sets) == Ok(out[i]))
  {
    if models != [] && out != [] {
      hide ExpandModel;
      ExpandModelsPointwise(provider, models[1..], sets, out[1..]);
      assert out == [out[0]] + out[1..];
      if && |out| == |models|
         && forall i :: 0 <= i < |models| - 1 ==> ExpandModel(provider, models[1..][i], sets) == Ok(out[1..][i])
      {
        assert forall i :: 1 <= i < |models| ==> models[i] == models[1..][i - 1] && out[i] == out[1..][i - 1];
      }
    }
  }

  lemma {:induction false} ExpandEntriesPointwise(entries: seq<CompactEntry>, sets: seq<ThinkingSet>, out: seq<Entry>)
    ensures ExpandEntries(entries, sets) == Ok(out)
            <==> |out| == |entries| && forall i :: 0 <= i < |entries| ==> ExpandEntry(entries[i], sets) == Ok(out[i])
  {
    if entries != [] && out != [] {
      hide ExpandEntry;
      ExpandEntriesPointwise(entries[1..], sets, out[1..]);
      assert out == [out[0]] + out[1..];
      if && |out| == |entries|
         && forall i :: 0 <= i < |entries| - 1 ==> ExpandEntry(entries[1..][i], sets) == Ok(out[1..][i])
      {
        assert forall i :: 1 <= i < |entries| ==> entries[i] == entries[1..][i - 1] && out[i] == out[1..][i - 1];
      }
    }
  }

  // ---------------------------------------------------------------------------------------------
  // The table

  predicate DistinctKeys(key: Key, table: seq<ThinkingSet>) {
    forall i, j :: 0 <= i < j < |table| ==> key(table[i]) != key(table[j])
  }

  /** The table holds every key that occurs, once, each represented by a set that occurs. */
  lemma {:induction false} TableOk(key: Key, sets: seq<ThinkingSet>)
    ensures DistinctKeys(key, Table(key, sets))
    ensures forall s | s in Table(key, sets) :: s in sets
    ensures forall s | s in sets :: Position(key, Table(key, sets), key(s)) < |Table(key, sets)|
  {
    if sets != [] {
      var before, last := sets[..|sets| - 1], sets[|sets| - 1];
      TableOk(key, before);
      var table, table' := Table(key, before), Table(key, sets);
      assert sets == before + [last];
      forall s | s in sets ensures Position(key, table', key(s)) < |table'| {
        if s in before {
          PositionGrows(key, table, [last], key(s));
        } else {
          PositionGrows(key, table, [last], key(last));
          assert table' != table ==> table'[|table|] == last;
        }
      }
    }
  }

  lemma PositionGrows(key: Key, table: seq<ThinkingSet>, more: seq<ThinkingSet>, k: string)
    ensures Position(key, table, k) < |table| ==> Position(key, table + more, k) == Position(key, table, k)
  {
    var p, q := Position(key, table, k), Position(key, table + more, k);
    if p < |table| {
      assert (table + more)[p] == table[p] && q <= p;
      assert q < |table| && (table + more)[q] == table[q];
    }
  }

  lemma PositionOf(key: Key, table: seq<ThinkingSet>, i: nat)
    requires DistinctKeys(key, table) && i < |table|
    ensures Position(key, table, key(table[i])) == i
  {
  }

  lemma {:induction false} SetsHas(models: seq<Model>, s: ThinkingSet)
    ensures s in Sets(models)
            <==> exists j :: 0 <= j < |models| && models[j].thinkingOptions.Some? && SetOf(models[j]) == s
  {
    if models != [] {
      SetsHas(models[1..], s);
      if s in Sets(models[1..]) {
        var j :| 0 <= j < |models[1..]| && models[1..][j].thinkingOptions.Some? && SetOf(models[1..][j]) == s;
        assert models[j + 1] == models[1..][j];
      }
      if j :| 0 <= j < |models| && models[j].thinkingOptions.Some? && SetOf(models[j]) == s {
        assert j > 0 ==> models[1..][j - 1] == models[j];
      }
    }
  }

  lemma {:induction false} SetsOfHas(entries: seq<Entry>, s: ThinkingSet)
    ensures s in SetsOf(entries)
            <==> exists i :: 0 <= i < |entries| && entries[i].models.Some? && s in Sets(entries[i].models.value)
  {
    if entries != [] {
      SetsOfHas(entries[1..], s);
      if s in SetsOf(entries[1..]) {
        var i :| 0 <= i < |entries[1..]| && entries[1..][i].models.Some? && s in Sets(entries[1..][i].models.value);
        assert entries[i + 1] == entries[1..][i];
      }
      if i :| 0 <= i < |entries| && entries[i].models.Some? && s in Sets(entries[i].models.value) {
        assert i > 0 ==> entries[1..][i - 1] == entries[i];
      }
    }
  }

  lemma TableSnoc(key: Key, sets: seq<ThinkingSet>, last: ThinkingSet)
    ensures var table := Table(key, sets);
            Table(key, sets + [last]) == if Position(key, table, key(last)) < |table| then table else table + [last]
  {
    assert (sets + [last])[..|sets|] == sets;
  }

  // ---------------------------------------------------------------------------------------------
  // The one-pass compactor

  lemma Regroup(a: seq<ThinkingSet>, b: seq<ThinkingSet>, c: seq<ThinkingSet>)
    ensures a + (b + c) == a + b + c
  {
  }

  lemma {:induction false} SetsConcat(a: seq<Model>, b: seq<Model>)
    ensures Sets(a + b) == Sets(a) + Sets(b)
  {
    if a == [] {
      assert a + b == b;
    } else {
      assert (a + b)[1..] == a[1..] + b;
      SetsConcat(a[1..], b);
      Regroup(if a[0].thinkingOptions.Some? then [SetOf(a[0])] else [], Sets(a[1..]), Sets(b));
    }
  }

  lemma {:induction false} SetsOfConcat(a: seq<Entry>, b: seq<Entry>)
    ensures SetsOf(a + b) == SetsOf(a) + SetsOf(b)
  {
    if a == [] {
      assert a + b == b;
    } else {
      assert (a + b)[1..] == a[1..] + b;
      SetsOfConcat(a[1..], b);
      Regroup(if a[0].models.Some? then Sets(a[0].models.value) else [], SetsOf(a[1..]), SetsOf(b));
    }
  }

  lemma SetsOfNext(entries: seq<Entry>, i: nat)
    requires i < |entries|
    ensures SetsOf(entries[..i + 1])
            == SetsOf(entries[..i]) + if entries[i].models.Some? then Sets(entries[i].models.value) else []
  {
    assert entries[..i + 1] == entries[..i] + [entries[i]];
    SetsOfConcat(entries[..i], [entries[i]]);
    assert [entries[i]][1..] == [];
  }

  lemma SetsOne(m: Model)
    ensures Sets([m]) == if m.thinkingOptions.Some? then [SetOf(m)] else []
  {
    assert [m][1..] == [];
  }

  lemma CompactModelsNext(key: Key, table: seq<ThinkingSet>, models: seq<Model>, j: nat)
    requires j < |models|
    ensures CompactModels(key, table, models[..j + 1])
            == CompactModels(key, table, models[..j]) + [CompactOne(key, table, models[j])]
  {
  }

  lemma CompactEntriesNext(key: Key, table: seq<ThinkingSet>, entries: seq<Entry>, i: nat)
    requires i < |entries|
    ensures CompactEntries(key, table, entries[..i + 1])
            == CompactEntries(key, table, entries[..i]) + [CompactOneEntry(key, table, entries[i])]
  {
  }

  lemma SetsNext(models: seq<Model>, j: nat)
    requires j < |models|
    ensures Sets(models[..j + 1]) == Sets(models[..j]) + Sets([models[j]])
  {
    assert models[..j + 1] == models[..j] + [models[j]];
    SetsConcat(models[..j], [models[j]]);
  }

  /** Positions found once stay as the table grows. */
  lemma {:induction false} TableGrows(key: Key, a: seq<ThinkingSet>, b: seq<ThinkingSet>)
    ensures forall s | s in a :: Position(key, Table(key, a + b), key(s)) == Position(key, Table(key, a), key(s))
  {
    if b == [] {
      assert a + b == a;
    } else {
      var before, last := b[..|b| - 1], b[|b| - 1];
      TableGrows(key, a, before);
      assert a + b == a + before + [last];
      TableSnoc(key, a + before, last);
      TableOk(key, a + before);
      forall s | s in a
        ensures Position(key, Table(key, a + b), key(s)) == Position(key, Table(key, a + before), key(s))
      {
        assert s in a + before;
        PositionGrows(key, Table(key, a + before), [last], key(s));
      }
    }
  }

  lemma ModelsStable(key: Key, a: seq<ThinkingSet>, b: seq<ThinkingSet>, models: seq<Model>)
    requires forall s | s in Sets(models) :: s in a
    ensures CompactModels(key, Table(key, a + b), models) == CompactModels(key, Table(key, a), models)
  {
    TableGrows(key, a, b);
    forall j | 0 <= j < |models|
      ensures CompactOne(key, Table(key, a + b), models[j]) == CompactOne(key, Table(key, a), models[j])
    {
      if models[j].thinkingOptions.Some? {
        SetsHas(models, SetOf(models[j]));
      }
    }
  }

  lemma EarlierModelsStable(key: Key, before: seq<ThinkingSet>, models: seq<Model>, j: nat)
    requires j < |models|
    ensures var a := before + Sets(models[..j]);
            CompactModels(key, Table(key, a + Sets([models[j]])), models[..j])
            == CompactModels(key, Table(key, a), models[..j])
  {
    var a := before + Sets(models[..j]);
    assert forall s | s in Sets(models[..j]) :: s in a;
    ModelsStable(key, a, Sets([models[j]]), models[..j]);
  }

  lemma EntriesStable(key: Key, entries: seq<Entry>, b: seq<ThinkingSet>)
    ensures var a := SetsOf(entries);
            CompactEntries(key, Table(key, a + b), entries) == CompactEntries(key, Table(key, a), entries)
  {
    var a := SetsOf(entries);
    forall i | 0 <= i < |entries|
      ensures CompactOneEntry(key, Table(key, a + b), entries[i]) == CompactOneEntry(key, Table(key, a), entries[i])
    {
      if entries[i].models.Some? {
        forall s | s in Sets(entries[i].models.value) ensures s in a {
          SetsOfHas(entries, s);
        }
        ModelsStable(key, a, b, entries[i].models.value);
      }
    }
  }

  /** The map finds every key of the table at its position, and no other key. */
  ghost predicate Indexed(key: Key, table: seq<ThinkingSet>, indexes: map<string, nat>) {
    && (forall k :: k in indexes <==> Position(key, table, k) < |table|)
    && (forall k :: k in indexes ==> indexes[k] == Position(key, table, k))
  }

  lemma Lookup(key: Key, table: seq<ThinkingSet>, indexes: map<string, nat>, k: string)
    requires Indexed(key, table, indexes)
    ensures k in indexes <==> Position(key, table, k) < |table|
    ensures k in indexes ==> indexes[k] == Position(key, table, k)
  {
  }

  lemma PositionAfterPush(key: Key, table: seq<ThinkingSet>, s: ThinkingSet, k: string)
    ensures var p := Position(key, table, k);
            Position(key, table + [s], k) == if key(s) == k || p < |table| then p else |table| + 1
  {
    PositionGrows(key, table, [s], k);
    assert (table + [s])[|table|] == s;
    assert forall i | 0 <= i < |table| :: (table + [s])[i] == table[i];
  }

  lemma IndexedAfterPush(key: Key, table: seq<ThinkingSet>, indexes: map<string, nat>, s: ThinkingSet)
    requires Indexed(key, table, indexes) && key(s) !in indexes
    ensures Indexed(key, table + [s], indexes[key(s) := |table|])
    ensures Position(key, table + [s], key(s)) == |table|
  {
    hide Position;
    var indexes' := indexes[key(s) := |table|];
    Lookup(key, table, indexes, key(s));
    PositionAfterPush(key, table, s, key(s));
    forall k
      ensures k in indexes' <==> Position(key, table + [s], k) < |table + [s]|
      ensures k in indexes' ==> indexes'[k] == Position(key, table + [s], k)
    {
      PositionAfterPush(key, table, s, k);
      Lookup(key, table, indexes, k);
    }
  }

  /** The shared table under construction: the sets, and the map that finds a set by its key. */
  class ThinkingSetTable {
    const key: Key
    var thinkingSets: seq<ThinkingSet>
    var thinkingSetIndexes: map<string, nat>
    ghost var seen: seq<ThinkingSet>

    ghost predicate Valid()
      reads this
    {
      thinkingSets == Table(key, seen) && Indexed(key, thinkingSets, thinkingSetIndexes)
    }

    constructor (key: Key)
      ensures Valid() && seen == [] && this.key == key
    {
      this.key := key;
      thinkingSets, thinkingSetIndexes, seen := [], map[], [];
    }

    method AddModel(m: Model) returns (compact: CompactModel)
      requires Valid()
      modifies this
      ensures Valid() && seen == old(seen) + Sets([m])
      ensures compact == CompactOne(key, thinkingSets, m)
    {
      hide Sets, Table, Position, Indexed;
      SetsOne(m);
      if m.thinkingOptions.None? {
        return CompactModel(m.fields, m.defaultThinkingOptionId, None);
      }
      var thinkingSet := ThinkingSet(m.thinkingOptions.value, m.defaultThinkingOptionId);
      TableSnoc(key, seen, thinkingSet);
      seen := seen + [thinkingSet];
      var k := key(thinkingSet);
      Lookup(key, thinkingSets, thinkingSetIndexes, k);
      if k in thinkingSetIndexes {
        return CompactModel(m.fields, None, Some(thinkingSetIndexes[k]));
      }
      var index := |thinkingSets|;
      IndexedAfterPush(key, thinkingSets, thinkingSetIndexes, thinkingSet);
      thinkingSets := thinkingSets + [thinkingSet];
      thinkingSetIndexes := thinkingSetIndexes[k := index];
      return CompactModel(m.fields, None, Some(index));
    }

    method AddModels(models: seq<Model>) returns (compactModels: seq<CompactModel>)
      requires Valid()
      modifies this
      ensures Valid() && seen == old(seen) + Sets(models)
      ensures compactModels == CompactModels(key, thinkingSets, models)
    {
      compactModels := [];
      assert Sets(models[..0]) == [] && CompactModels(key, thinkingSets, models[..0]) == [];
      hide Indexed, Sets, Table, Position, CompactOne, CompactModels;
      for j := 0 to |models|
        invariant Valid() && seen == old(seen) + Sets(models[..j])
        invariant compactModels == CompactModels(key, thinkingSets, models[..j])
      {
        SetsNext(models, j);
        EarlierModelsStable(key, old(seen), models, j);
        assert old(seen) + Sets(models[..j]) + Sets([models[j]]) == old(seen) + (Sets(models[..j]) + Sets([models[j]]));
        var compact := AddModel(models[j]);
        CompactModelsNext(key, thinkingSets, models, j);
        compactModels := compactModels + [compact];
      }
      assert models[..|models|] == models;
    }
  }

  method CompactProviderSnapshot(key: Key, entries: seq<Entry>) returns (snapshot: Snapshot)
    ensures snapshot == Compact(key, entries)
  {
    var table := new ThinkingSetTable(key);
    var compactEntries: seq<CompactEntry> := [];
    assert SetsOf(entries[..0]) == [] && CompactEntries(key, table.thinkingSets, entries[..0]) == [];
    hide Indexed, Sets, SetsOf, Table, CompactModels, CompactEntries;
    for i := 0 to |entries|
      invariant fresh(table) && table.key == key && table.Valid() && table.seen == SetsOf(entries[..i])
      invariant compactEntries == CompactEntries(key, table.thinkingSets, entries[..i])
    {
      SetsOfNext(entries, i);
      if entries[i].models.None? {
        compactEntries := compactEntries + [CompactEntry(entries[i].fields, None)];
      } else {
        EntriesStable(key, entries[..i], Sets(entries[i].models.value));
        var compactModels := table.AddModels(entries[i].models.value);
        compactEntries := compactEntries + [CompactEntry(entries[i].fields, Some(compactModels))];
      }
      CompactEntriesNext(key, table.thinkingSets, entries, i);
    }
    assert entries[..|entries|] == entries;
    return Snapshot(compactEntries, table.thinkingSets);
  }
}
