/** The in-memory repositories of the server. Each one holds a reference to the
    shared Storage; the filterer and the saver are the ones the update service
    uses, the get and list repositories serve the read paths. */
module Repositories {
  import opened MetricTypes
  import opened MemoryStorage

  /** The stored entries whose identities are among `ids`; missing ids are simply absent. */
  function FilterMap(data: map<MetricID, Metric>, ids: seq<MetricID>): (r: map<MetricID, Metric>)
    ensures forall k :: k in r <==> k in ids && k in data
    ensures forall k :: k in r ==> r[k] == data[k]
  {
    map k | k in ids && k in data :: data[k]
  }

  /** Asking for an id twice does not change what is found. */
  lemma FilterIgnoresDuplicates(data: map<MetricID, Metric>, ids: seq<MetricID>, i: nat)
    requires i < |ids|
    ensures FilterMap(data, ids + [ids[i]]) == FilterMap(data, ids)
  {
    var a, b := FilterMap(data, ids + [ids[i]]), FilterMap(data, ids);
    assert forall k :: k in ids + [ids[i]] <==> k in ids;
    assert a.Keys == b.Keys;
  }

  /** An empty request, or one whose ids are all missing, finds nothing. */
  lemma FilterOfMissingIsEmpty(data: map<MetricID, Metric>, ids: seq<MetricID>)
    requires forall k :: k in ids ==> k !in data
    ensures FilterMap(data, ids) == map[]
  {
  }

  /** MetricMemoryFiltererRepository: a read-only view of the shared map. */
  class MetricMemoryFiltererRepository {
    const storage: Storage

    constructor (storage: Storage)
      ensures this.storage == storage
    {
      this.storage := storage;
    }

    /** Looks up every requested id and collects those that are stored.
        It never fails and never writes. */
    method Filter(ids: seq<MetricID>) returns (result: map<MetricID, Metric>, err: Option<Error>)
      ensures err == None
      ensures result == FilterMap(storage.data, ids)
    {
      result := map[];
      var i := 0;
      while i < |ids|
        invariant 0 <= i <= |ids|
        invariant forall k :: k in result <==> k in ids[..i] && k in storage.data
        invariant forall k :: k in result ==> result[k] == storage.data[k]
      {
        var id := ids[i];
        if id in storage.data {
          result := result[id := storage.data[id]];
        }
        assert ids[..i + 1] == ids[..i] + [id];
        i := i + 1;
      }
      assert ids[..i] == ids;
      err := None;
    }
  }

  /** MetricMemorySaverRepository: writes one metric at a time into the map it was given. */
  class MetricMemorySaverRepository {
    const storage: Storage

    constructor (storage: Storage)
      ensures this.storage == storage
    {
      this.storage := storage;
    }

    /** Stores `m` exactly as given under its identity; always succeeds. */
    method Send(m: Metric) returns (err: Option<Error>)
      modifies storage
      ensures storage.data == Upsert(old(storage.data), m)
      ensures err == None
    {
      storage.data := storage.data[Key(m) := m];
      err := None;
    }

    /** Finalising the batch is a no-op in memory: it always succeeds and writes nothing. */
    method Save() returns (err: Option<Error>)
      ensures err == None
    {
      err := None;
    }
  }

  /** MetricMemorySaveRepository: the single-metric upsert over the shared storage. */
  class MetricMemorySaveRepository {
    const storage: Storage

    constructor (storage: Storage)
      ensures this.storage == storage
    {
      this.storage := storage;
    }

    /** Writes `m` under its identity, overwriting what was there; always succeeds. */
    method Save(m: Metric) returns (err: Option<Error>)
      modifies storage
      ensures storage.data == Upsert(old(storage.data), m)
      ensures err == None
    {
      storage.data := storage.data[Key(m) := m];
      err := None;
    }
  }

  /** What a getter hands back: a metric or nothing, and an error or nothing. */
  datatype GetReply = GetReply(metric: Option<Metric>, err: Option<Error>)

  /** MetricMemoryGetRepository.Get over the storage's map: a point lookup on
      the whole identity; an absent identity is "no metric, no error". */
  function MemoryGet(data: map<MetricID, Metric>, id: MetricID): (r: GetReply)
    ensures r.err == None
    ensures r.metric.Some? <==> id in data
    ensures id in data ==> r.metric.value == data[id]
  {
    if id in data then GetReply(Some(data[id]), None) else GetReply(None, None)
  }

  /** MetricMemoryGetRepository: a point lookup in the shared storage. */
  class MetricMemoryGetRepository {
    const storage: Storage

    constructor (storage: Storage)
      ensures this.storage == storage
    {
      this.storage := storage;
    }

    /** Returns the stored metric for the whole identity, or no metric and no
        error when the identity is absent. */
    method Get(id: MetricID) returns (metric: Option<Metric>, err: Option<Error>)
      ensures err == None
      ensures metric.Some? <==> id in storage.data
      ensures id in storage.data ==> metric.value == storage.data[id]
      ensures GetReply(metric, err) == MemoryGet(storage.data, id)
    {
      if id in storage.data {
        metric := Some(storage.data[id]);
      } else {
        metric := None;
      }
      err := None;
    }
  }

  /** Two identities that differ in name or in type never see each other's entry. */
  lemma GetMatchesWholeIdentity(data: map<MetricID, Metric>, m: Metric, id: MetricID)
    requires id.id != m.id || id.mtype != m.mtype
    ensures MemoryGet(Upsert(data, m), id) == MemoryGet(data, id)
  {
  }

  // ---------------------------------------------------------------------
  // Ordering by name, as Go's `<` on strings (byte-wise, here code point
  // by code point, which orders UTF-8 the same way).

  /** `a` sorts no later than `b`. */
  predicate StrLe(a: string, b: string)
  {
    |a| == 0 || (|b| > 0 && (a[0] < b[0] || (a[0] == b[0] && StrLe(a[1..], b[1..]))))
  }

  lemma {:induction false} StrLeTotal(a: string, b: string)
    ensures StrLe(a, b) || StrLe(b, a)
  {
    if |a| > 0 && |b| > 0 && a[0] == b[0] {
      StrLeTotal(a[1..], b[1..]);
    }
  }

  lemma {:induction false} StrLeTransitive(a: string, b: string, c: string)
    requires StrLe(a, b) && StrLe(b, c)
    ensures StrLe(a, c)
  {
    if |a| > 0 && a[0] == b[0] && b[0] == c[0] {
      StrLeTransitive(a[1..], b[1..], c[1..]);
    }
  }

  /** Non-decreasing by name; the order among equal names is left open. */
  ghost predicate SortedByID(ms: seq<Metric>)
  {
    forall i, j :: 0 <= i < j < |ms| ==> StrLe(ms[i].id, ms[j].id)
  }

  /** The stored values, listed along an enumeration of the keys. */
  ghost function ValuesAlong(data: map<MetricID, Metric>, order: seq<MetricID>): (vs: seq<Metric>)
    requires forall i :: 0 <= i < |order| ==> order[i] in data
    ensures |vs| == |order|
  {
    seq(|order|, i requires 0 <= i < |order| => data[order[i]])
  }

  /** `order` names every key of `data` exactly once. */
  ghost predicate Enumerates(order: seq<MetricID>, data: map<MetricID, Metric>)
  {
    && (forall i, j :: 0 <= i < j < |order| ==> order[i] != order[j])
    && (forall k :: k in order <==> k in data)
  }

  lemma {:induction false} EnumerationLength(order: seq<MetricID>, keys: set<MetricID>)
    requires forall i, j :: 0 <= i < j < |order| ==> order[i] != order[j]
    requires forall k :: k in order <==> k in keys
    ensures |order| == |keys|
    decreases |order|
  {
    if order != [] {
      var init := order[..|order| - 1];
      var last := order[|order| - 1];
      forall k ensures k in init <==> k in keys - {last} {
        if k in init {
          var j :| 0 <= j < |init| && init[j] == k;
          assert order[j] == k;
        }
        if k in keys - {last} {
          var j :| 0 <= j < |order| && order[j] == k;
          assert j != |order| - 1;
          assert init[j] == k;
        }
      }
      EnumerationLength(init, keys - {last});
    }
  }

  /** MetricMemoryListRepository: a snapshot of the shared storage sorted by name. */
  class MetricMemoryListRepository {
    const storage: Storage

    constructor (storage: Storage)
      ensures this.storage == storage
    {
      this.storage := storage;
    }

    /** Copies every stored value into a fresh slice in map-iteration order
        (here: any order), then sorts the slice by name in place. The result
        has one element per stored entry, is a permutation of the stored
        values, is sorted by name, and the call never fails.
        `order` is the enumeration of the keys the copy followed. */
    method List() returns (metrics: seq<Metric>, err: Option<Error>, ghost order: seq<MetricID>)
      ensures err == None
      ensures |metrics| == |storage.data|
      ensures Enumerates(order, storage.data)
      ensures multiset(metrics) == multiset(ValuesAlong(storage.data, order))
      ensures SortedByID(metrics)
    {
      var data := storage.data;
      var collected: seq<Metric> := [];
      var keys := data.Keys;
      order := [];
      while keys != {}
        invariant keys <= data.Keys
        invariant forall i, j :: 0 <= i < j < |order| ==> order[i] != order[j]
        invariant forall k :: k in order <==> k in data && k !in keys
        invariant |collected| == |order|
        invariant forall i :: 0 <= i < |order| ==> collected[i] == data[order[i]]
        decreases keys
      {
        var k :| k in keys;
        collected := collected + [data[k]];
        order := order + [k];
        keys := keys - {k};
      }
      assert collected == ValuesAlong(data, order);
      EnumerationLength(order, data.Keys);
      var a := new Metric[|collected|](i requires 0 <= i < |collected| => collected[i]);
      assert a[..] == collected;
      SortByID(a);
      metrics := a[..];
      err := None;
    }
  }

  /** sort.Slice by name: an in-place insertion sort. */
  method SortByID(a: array<Metric>)
    modifies a
    ensures SortedByID(a[..])
    ensures multiset(a[..]) == multiset(old(a[..]))
  {
    var i := 1;
    while i < a.Length
      invariant a.Length == 0 || 1 <= i <= a.Length
      invariant forall p, q :: 0 <= p < q < i && q < a.Length ==> StrLe(a[p].id, a[q].id)
      invariant multiset(a[..]) == multiset(old(a[..]))
    {
      InsertIntoSorted(a, i);
      i := i + 1;
    }
  }

  /** Moves a[i] down into the sorted prefix a[..i], leaving a[..i+1] sorted. */
  method InsertIntoSorted(a: array<Metric>, i: int)
    requires 0 < i < a.Length
    requires forall p, q :: 0 <= p < q < i ==> StrLe(a[p].id, a[q].id)
    modifies a
    ensures forall p, q :: 0 <= p < q <= i ==> StrLe(a[p].id, a[q].id)
    ensures multiset(a[..]) == multiset(old(a[..]))
  {
    var j := i;
    while j > 0 && !StrLe(a[j - 1].id, a[j].id)
      invariant 0 <= j <= i
      invariant forall p, q :: 0 <= p < q <= i && p != j && q != j ==> StrLe(a[p].id, a[q].id)
      invariant forall q :: j < q <= i ==> StrLe(a[j].id, a[q].id)
      invariant multiset(a[..]) == multiset(old(a[..]))
    {
      StrLeTotal(a[j - 1].id, a[j].id);
      SwapDown(a, j);
      j := j - 1;
    }
    forall p, q | 0 <= p < q <= i ensures StrLe(a[p].id, a[q].id) {
      if q == j && p < j - 1 {
        StrLeTransitive(a[p].id, a[j - 1].id, a[j].id);
      }
    }
  }

  /** Exchanges a[j-1] and a[j]. */
  method SwapDown(a: array<Metric>, j: int)
    requires 0 < j < a.Length
    modifies a
    ensures a[j - 1] == old(a[j]) && a[j] == old(a[j - 1])
    ensures forall k :: 0 <= k < a.Length && k != j - 1 && k != j ==> a[k] == old(a[k])
    ensures multiset(a[..]) == multiset(old(a[..]))
  {
    a[j - 1], a[j] := a[j], a[j - 1];
  }
}
