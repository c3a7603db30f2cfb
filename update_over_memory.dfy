/** The update service run over the two in-memory repositories that
    implement its interfaces, paired here over one shared map: the filterer
    looks entries up in it and the saver upserts into it. The hidden state of
    the interfaces is that map. */
module UpdateOverMemory {
  import opened MetricTypes
  import opened Int64Arith
  import opened MemoryStorage
  import opened Repositories
  import opened MetricUpdate

  type Store = map<MetricID, Metric>

  /** MetricMemorySaverRepository seen through the saver interface. */
  function MemorySaver(): Saver<Store>
  {
    Saver((d: Store, m: Metric) => Reply(Upsert(d, m), None), (d: Store) => Reply(d, None))
  }

  /** MetricMemoryFiltererRepository seen through the filterer interface. */
  function MemoryFilterer(): (Store, seq<MetricID>) -> FilterResult
  {
    (d: Store, ids: seq<MetricID>) => Filtered(FilterMap(d, ids))
  }

  /** Against the in-memory saver every Send succeeds, so saveMetrics writes
      every metric in order, then calls Save once, and reports no error. */
  lemma {:induction false} MemorySaveRun(d: Store, ms: seq<Metric>)
    ensures SaveRun(MemorySaver(), d, ms) == Run(UpsertAll(d, ms), None, SendCalls(ms) + [SaveCall])
    decreases |ms|
  {
    MemorySendAll(d, ms);
  }

  lemma {:induction false} MemorySendAll(d: Store, ms: seq<Metric>)
    ensures SendAll(MemorySaver(), d, ms) == Run(UpsertAll(d, ms), None, SendCalls(ms))
    decreases |ms|
  {
    if ms != [] {
      var saver := MemorySaver();
      assert saver.send(d, ms[0]) == Reply(Upsert(d, ms[0]), None);
      SendAllStep(saver, d, ms);
      MemorySendAll(Upsert(d, ms[0]), ms[1..]);
      assert SendCalls(ms) == [SendCall(ms[0])] + SendCalls(ms[1..]);
    }
  }

  /** Merging against the looked-up entries is merging against the whole
      store, for a metric whose identity was among those looked up. */
  lemma MergeAgainstFilter(m: Metric, d: Store, ids: seq<MetricID>)
    requires Key(m) in ids
    ensures MergeStored(m, FilterMap(d, ids)) == MergeStored(m, d)
  {
  }

  /** The store after an update: every identity of the batch holds its
      accumulated metric merged with what was stored before; every other
      entry is unchanged; the update reports no error. */
  lemma MemoryUpdate(d: Store, batch: seq<Metric>, acc: seq<Metric>)
    requires AccumulationOf(acc, batch)
    ensures var r := UpdateRun(MemorySaver(), MemoryFilterer(), d, acc);
      && r.err == None
      && r.state.Keys == d.Keys + KeysOf(batch)
      && (forall k :: k in KeysOf(batch) ==> k in Accumulate(batch) && r.state[k] == MergeStored(Accumulate(batch)[k], d))
      && (forall k :: k in d && k !in KeysOf(batch) ==> r.state[k] == d[k])
  {
    var merged := MergeAll(acc, FilterMap(d, IDs(acc)));
    MergedAgainstFilter(acc, d);
    MemorySaveRun(d, merged);
    UpsertAllDistinct(d, merged);
    AccumulateKeys(batch);
    forall k | k in KeysOf(batch)
      ensures k in Accumulate(batch) && UpsertAll(d, merged)[k] == MergeStored(Accumulate(batch)[k], d)
    {
      var m :| m in acc && Key(m) == k;
      var i :| 0 <= i < |acc| && acc[i] == m;
      assert Key(merged[i]) == k;
    }
  }

  /** Merging the accumulated metrics against the entries Filter returned for
      their identities: each is merged against the whole store, and the
      identities stay those of the accumulated metrics, pairwise distinct. */
  lemma MergedAgainstFilter(acc: seq<Metric>, d: Store)
    requires KeysDistinct(acc)
    ensures var merged := MergeAll(acc, FilterMap(d, IDs(acc)));
      && (forall i :: 0 <= i < |acc| ==> merged[i] == MergeStored(acc[i], d))
      && KeysDistinct(merged) && KeysOf(merged) == KeysOf(acc)
  {
    var ids := IDs(acc);
    var merged := MergeAll(acc, FilterMap(d, ids));
    forall i | 0 <= i < |acc| ensures merged[i] == MergeStored(acc[i], d) {
      assert Key(acc[i]) == ids[i];
      MergeAgainstFilter(acc[i], d, ids);
    }
    assert KeysOf(merged) == KeysOf(acc) by {
      forall k | k in KeysOf(acc) ensures k in KeysOf(merged) {
        var m :| m in acc && Key(m) == k;
        var i :| 0 <= i < |acc| && acc[i] == m;
        assert Key(merged[i]) == k;
      }
    }
  }

  /** A counter's stored total after an update is the int64 (wrapping) sum of
      the previous total and every delta the batch carries for it. */
  lemma CounterRunningTotal(d: Store, batch: seq<Metric>, acc: seq<Metric>, k: MetricID)
    requires AccumulationOf(acc, batch)
    requires k.mtype == Counter && k in KeysOf(batch)
    requires AllDeltas(Occurrences(batch, k))
    requires k in d ==> d[k].delta.Some?
    ensures var r := UpdateRun(MemorySaver(), MemoryFilterer(), d, acc);
      k in r.state && r.state[k].delta == Some(Wrap(SumDeltas(Occurrences(batch, k)) + (if k in d then d[k].delta.value else 0)))
  {
    MemoryUpdateAt(d, batch, acc, k);
    MergedCounterTotal(d, batch, k);
  }

  /** The accumulated counter merged with the stored total carries the
      wrapping sum of both. */
  lemma MergedCounterTotal(d: Store, batch: seq<Metric>, k: MetricID)
    requires k.mtype == Counter && k in KeysOf(batch)
    requires AllDeltas(Occurrences(batch, k))
    requires k in d ==> d[k].delta.Some?
    ensures k in Accumulate(batch)
    ensures MergeStored(Accumulate(batch)[k], d).delta
            == Some(Wrap(SumDeltas(Occurrences(batch, k)) + (if k in d then d[k].delta.value else 0)))
  {
    AccumulateOccurs(batch, k);
    AccumulateSumsCounters(batch, k);
    var sum := SumDeltas(Occurrences(batch, k));
    var m := Accumulate(batch)[k];
    assert m.delta == Some(Wrap(sum));
    assert Key(m) == k by { AccumulateKeys(batch); }
    if k in d {
      var stored := d[k].delta.value;
      assert MergeStored(m, d).delta == Some(AddInt64(Wrap(sum), stored));
      WrapAdd(sum, stored);
    } else {
      assert MergeStored(m, d) == m;
    }
  }

  /** MemoryUpdate at one identity of the batch. */
  lemma MemoryUpdateAt(d: Store, batch: seq<Metric>, acc: seq<Metric>, k: MetricID)
    requires AccumulationOf(acc, batch)
    requires k in KeysOf(batch)
    ensures var r := UpdateRun(MemorySaver(), MemoryFilterer(), d, acc);
      k in Accumulate(batch) && k in r.state && r.state[k] == MergeStored(Accumulate(batch)[k], d)
  {
    MemoryUpdate(d, batch, acc);
  }

  /** A gauge (any non-counter) identity ends up holding the batch's last
      metric for it, whatever was stored before. */
  lemma GaugeOverwritten(d: Store, batch: seq<Metric>, acc: seq<Metric>, i: nat)
    requires AccumulationOf(acc, batch)
    requires i < |batch| && batch[i].mtype != Counter
    requires forall j :: i < j < |batch| ==> Key(batch[j]) != Key(batch[i])
    ensures var r := UpdateRun(MemorySaver(), MemoryFilterer(), d, acc);
      Key(batch[i]) in r.state && r.state[Key(batch[i])] == batch[i]
  {
    MemoryUpdate(d, batch, acc);
    AccumulateLastWins(batch, i);
  }

  /** Two single-metric updates of one counter, 100 then 50, leave 150 stored;
      two gauge updates, 42.5 then 24.3, leave the second reading. */
  lemma TwoUpdates(c1: Metric, c2: Metric, g1: Metric, g2: Metric)
    requires c1 == Metric("requests", Counter, Some(100), None, "")
    requires c2 == Metric("requests", Counter, Some(50), None, "")
    requires g1.id == "temperature" && g1.mtype == GaugeType && g2.id == g1.id && g2.mtype == GaugeType
    ensures var d1 := UpdateRun(MemorySaver(), MemoryFilterer(), map[], [c1]).state;
      var d2 := UpdateRun(MemorySaver(), MemoryFilterer(), d1, [c2]).state;
      Key(c1) in d2 && d2[Key(c1)].delta == Some(150)
    ensures var d1 := UpdateRun(MemorySaver(), MemoryFilterer(), map[], [g1]).state;
      var d2 := UpdateRun(MemorySaver(), MemoryFilterer(), d1, [g2]).state;
      Key(g1) in d2 && d2[Key(g1)] == g2
  {
    SingleUpdate(map[], c1);
    var d1 := UpdateRun(MemorySaver(), MemoryFilterer(), map[], [c1]).state;
    SingleUpdate(d1, c2);
    SingleUpdate(map[], g1);
    var e1 := UpdateRun(MemorySaver(), MemoryFilterer(), map[], [g1]).state;
    SingleUpdate(e1, g2);
  }

  /** Updating with one metric stores that metric merged with the stored entry. */
  lemma SingleUpdate(d: Store, m: Metric)
    ensures var r := UpdateRun(MemorySaver(), MemoryFilterer(), d, [m]);
      r.err == None && r.state == Upsert(d, MergeStored(m, d))
  {
    var ids := IDs([m]);
    assert ids == [Key(m)];
    MergeAgainstFilter(m, d, ids);
    MemorySaveRun(d, MergeAll([m], FilterMap(d, ids)));
    assert MergeAll([m], FilterMap(d, ids)) == [MergeStored(m, d)];
  }

  /** n reports of the same metric, in order. */
  function Repeat(m: Metric, n: nat): (ms: seq<Metric>)
    ensures |ms| == n
  {
    if n == 0 then [] else Repeat(m, n - 1) + [m]
  }

  lemma {:induction false} RepeatOccurrences(m: Metric, n: nat)
    requires m.delta == Some(1)
    ensures Occurrences(Repeat(m, n), Key(m)) == Repeat(m, n)
    ensures AllDeltas(Repeat(m, n)) && SumDeltas(Repeat(m, n)) == n
    decreases n
  {
    if n > 0 {
      RepeatOccurrences(m, n - 1);
      assert Repeat(m, n)[..n - 1] == Repeat(m, n - 1);
    }
  }

  /** A batch of n copies of a delta-1 counter (the PollCount metric
      CollectRuntimeCounterMetrics produces is one) holds the counter n
      times, always with a delta, summing to n; so it accumulates to one
      metric carrying n, wrapping at int64. */
  lemma {:induction false} PollCountBatch(pc: Metric, n: nat)
    requires pc.mtype == Counter && pc.delta == Some(1) && n > 0
    ensures Key(pc) in KeysOf(Repeat(pc, n))
    ensures Occurrences(Repeat(pc, n), Key(pc)) == Repeat(pc, n)
    ensures AllDeltas(Repeat(pc, n)) && SumDeltas(Repeat(pc, n)) == n
    ensures Key(pc) in Accumulate(Repeat(pc, n)) && Accumulate(Repeat(pc, n))[Key(pc)].delta == Some(Wrap(n))
  {
    var batch := Repeat(pc, n);
    RepeatOccurrences(pc, n);
    assert batch[n - 1] == pc;
    AccumulateOccurs(batch, Key(pc));
    AccumulateSumsCounters(batch, Key(pc));
  }

  /** The store after m is reported n times, each report its own
      single-metric update, as the agent sends them: every report stores m
      merged with what the previous ones left. */
  function UpdatedOneByOne(d: Store, m: Metric, n: nat): Store
  {
    if n == 0 then d else
      var prev := UpdatedOneByOne(d, m, n - 1);
      Upsert(prev, MergeStored(m, prev))
  }

  /** Each step of UpdatedOneByOne is the update service's run over the
      in-memory repositories with the one-metric batch, and it succeeds. */
  lemma ReportIsUpdate(d: Store, m: Metric, n: nat)
    requires n > 0
    ensures var r := UpdateRun(MemorySaver(), MemoryFilterer(), UpdatedOneByOne(d, m, n - 1), [m]);
      r.err == None && r.state == UpdatedOneByOne(d, m, n)
  {
    SingleUpdate(UpdatedOneByOne(d, m, n - 1), m);
  }

  /** Adding 1 to a wrapped total is wrapping the total plus 1. */
  lemma IncrementWrapped(x: int)
    ensures AddInt64(1, Wrap(x)) == Wrap(x + 1)
  {
    assert AddInt64(1, Wrap(x)) == Wrap(Wrap(x) + 1);
    WrapAdd(x, 1);
  }

  /** n reports of the agent's PollCount counter (delta 1), one request
      each, raise the stored total by n, wrapping at int64; a counter not
      stored before starts from 0. */
  lemma {:induction false} PollCountReports(d: Store, pc: Metric, n: nat)
    requires pc.mtype == Counter && pc.delta == Some(1) && n > 0
    requires Key(pc) in d ==> d[Key(pc)].delta.Some?
    ensures var e := UpdatedOneByOne(d, pc, n);
      Key(pc) in e && e[Key(pc)].delta == Some(Wrap(n + if Key(pc) in d then d[Key(pc)].delta.value else 0))
    decreases n
  {
    var k := Key(pc);
    var t := if k in d then d[k].delta.value else 0;
    var prev := UpdatedOneByOne(d, pc, n - 1);
    var merged := MergeStored(pc, prev);
    assert UpdatedOneByOne(d, pc, n)[k] == merged;
    if n == 1 {
      if k in d {
        assert merged.delta == Some(AddInt64(1, t));
      } else {
        assert merged == pc;
        assert Wrap(1 + t) == 1;
      }
    } else {
      PollCountReports(d, pc, n - 1);
      var x := n - 1 + t;
      assert merged.delta == Some(AddInt64(1, Wrap(x)));
      IncrementWrapped(x);
      assert x + 1 == n + t;
    }
  }

}
