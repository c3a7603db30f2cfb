/** The server's in-memory metric store: one map from identity to metric,
    shared by every repository that is built over it. */
module MemoryStorage {
  import opened MetricTypes

  /** A shared map of metrics. The lock that guards it in the server is not
      modelled: every repository operation here is one atomic step. */
  class Storage {
    var data: map<MetricID, Metric>

    constructor ()
      ensures data == map[]
    {
      data := map[];
    }
  }

  /** The map after writing `m` under its own identity: that entry becomes `m`,
      whatever it held before, and no other entry changes. */
  function Upsert(data: map<MetricID, Metric>, m: Metric): (r: map<MetricID, Metric>)
    ensures r.Keys == data.Keys + {Key(m)}
    ensures r[Key(m)] == m
    ensures forall k :: k in data && k != Key(m) ==> r[k] == data[k]
  {
    data[Key(m) := m]
  }

  /** Writing the same metric twice leaves the map as writing it once. */
  lemma UpsertIdempotent(data: map<MetricID, Metric>, m: Metric)
    ensures Upsert(Upsert(data, m), m) == Upsert(data, m)
  {
  }

  /** The map after writing each metric of `ms` in order. */
  function UpsertAll(data: map<MetricID, Metric>, ms: seq<Metric>): map<MetricID, Metric>
    decreases |ms|
  {
    if ms == [] then data else UpsertAll(Upsert(data, ms[0]), ms[1..])
  }

  /** After writing metrics with pairwise distinct identities, each one is
      stored under its identity, and every other entry is as before. */
  lemma {:induction false} UpsertAllDistinct(data: map<MetricID, Metric>, ms: seq<Metric>)
    requires KeysDistinct(ms)
    ensures UpsertAll(data, ms).Keys == data.Keys + KeysOf(ms)
    ensures forall i :: 0 <= i < |ms| ==> UpsertAll(data, ms)[Key(ms[i])] == ms[i]
    ensures forall k :: k in data && k !in KeysOf(ms) ==> UpsertAll(data, ms)[k] == data[k]
    decreases |ms|
  {
    if ms != [] {
      var rest := ms[1..];
      assert KeysDistinct(rest) by {
        forall i, j | 0 <= i < j < |rest| ensures Key(rest[i]) != Key(rest[j]) {
          assert rest[i] == ms[i + 1] && rest[j] == ms[j + 1];
        }
      }
      UpsertAllDistinct(Upsert(data, ms[0]), rest);
      assert KeysOf(ms) == {Key(ms[0])} + KeysOf(rest) by {
        forall k | k in KeysOf(ms) ensures k in {Key(ms[0])} + KeysOf(rest) {
          var m :| m in ms && Key(m) == k;
          if m != ms[0] { assert m in rest; }
        }
      }
      forall i | 0 <= i < |ms|
        ensures UpsertAll(data, ms)[Key(ms[i])] == ms[i]
      {
        if i == 0 {
          assert Key(ms[0]) !in KeysOf(rest) by {
            forall m | m in rest ensures Key(m) != Key(ms[0]) {
              var j :| 0 <= j < |rest| && rest[j] == m;
              assert m == ms[j + 1];
            }
          }
        } else {
          assert ms[i] == rest[i - 1];
        }
      }
    }
  }

  /** Saving n metrics with pairwise distinct identities into an empty store
      leaves exactly n entries. */
  lemma {:induction false} UpsertAllDistinctCount(ms: seq<Metric>)
    requires KeysDistinct(ms)
    ensures |UpsertAll(map[], ms)| == |ms|
  {
    UpsertAllDistinct(map[], ms);
    DistinctKeysCount(ms);
  }

  /** A sequence of metrics with distinct identities has as many identities as elements. */
  lemma {:induction false} DistinctKeysCount(ms: seq<Metric>)
    requires KeysDistinct(ms)
    ensures |KeysOf(ms)| == |ms|
    decreases |ms|
  {
    if ms != [] {
      var init, last := ms[..|ms| - 1], ms[|ms| - 1];
      DistinctInit(ms);
      DistinctKeysCount(init);
      assert ms == init + [last];
      KeysOfAppend(init, last);
    }
  }

  /** Dropping the last metric keeps the identities distinct, and the last
      identity is not among the rest. */
  lemma DistinctInit(ms: seq<Metric>)
    requires ms != [] && KeysDistinct(ms)
    ensures KeysDistinct(ms[..|ms| - 1])
    ensures Key(ms[|ms| - 1]) !in KeysOf(ms[..|ms| - 1])
  {
    var init := ms[..|ms| - 1];
    forall m | m in init ensures Key(m) != Key(ms[|ms| - 1]) {
      var j :| 0 <= j < |init| && init[j] == m;
      assert m == ms[j];
    }
  }

}
