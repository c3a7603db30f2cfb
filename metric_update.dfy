/** The server's update service: collapse a batch to one metric per identity,
    look the identities up in one bulk call, add stored counter totals, then
    send every metric to the saver and finalise once.

    The saver and the filterer are interfaces. Each is modelled by the
    functions it offers over a hidden state `S` (the storage behind them), and
    every run records the interface calls it made, in order. */
module MetricUpdate {
  import opened MetricTypes
  import opened Int64Arith

  /** One call the service makes on its collaborators. */
  datatype Call = FilterCall(ids: seq<MetricID>) | SendCall(metric: Metric) | SaveCall

  /** A collaborator's answer: its new state and its error, if any. */
  datatype Reply<S> = Reply(state: S, err: Option<Error>)

  /** MetricUpdateSaver: `Send` one metric, then `Save` to finalise. */
  datatype Saver<!S> = Saver(send: (S, Metric) -> Reply<S>, save: S -> Reply<S>)

  /** What MetricUpdateFilterer.Filter answers. */
  datatype FilterResult = Filtered(found: map<MetricID, Metric>) | FilterFailed(err: Error)

  /** The state a run leaves, its error, and the calls it made in order. */
  datatype Run<S> = Run(state: S, err: Option<Error>, calls: seq<Call>)

  // ---------------------------------------------------------------------
  // accumulateMetrics

  /** Folding one incoming metric into the per-identity map: a counter whose
      identity is already present is summed into it when both deltas are set
      (keeping the earlier entry's other fields); everything else replaces the
      entry. */
  function AccumulateStep(acc: map<MetricID, Metric>, m: Metric): map<MetricID, Metric>
  {
    var id := Key(m);
    if m.mtype == Counter && id in acc && acc[id].delta.Some? && m.delta.Some? then
      acc[id := acc[id].(delta := Some(AddInt64(acc[id].delta.value, m.delta.value)))]
    else
      acc[id := m]
  }

  /** The per-identity map accumulateMetrics builds from a batch, in batch order. */
  function Accumulate(batch: seq<Metric>): map<MetricID, Metric>
    decreases |batch|
  {
    if batch == [] then map[] else AccumulateStep(Accumulate(batch[..|batch| - 1]), batch[|batch| - 1])
  }

  /** `acc` lists the accumulated map of `batch`, one metric per identity, in some order. */
  ghost predicate AccumulationOf(acc: seq<Metric>, batch: seq<Metric>)
  {
    && KeysDistinct(acc)
    && KeysOf(acc) == KeysOf(batch)
    && (forall i :: 0 <= i < |acc| ==> Key(acc[i]) in Accumulate(batch) && Accumulate(batch)[Key(acc[i])] == acc[i])
  }

  /** The accumulated map has exactly the identities of the batch, and each
      entry is filed under its own identity. */
  lemma {:induction false} AccumulateKeys(batch: seq<Metric>)
    ensures Accumulate(batch).Keys == KeysOf(batch)
    ensures forall k :: k in Accumulate(batch) ==> Key(Accumulate(batch)[k]) == k
    decreases |batch|
  {
    if batch != [] {
      var init := batch[..|batch| - 1];
      AccumulateKeys(init);
      assert batch == init + [batch[|batch| - 1]];
      assert KeysOf(batch) == KeysOf(init) + {Key(batch[|batch| - 1])};
    }
  }

  /** The occurrences of identity `k` in a batch, in batch order. */
  function Occurrences(batch: seq<Metric>, k: MetricID): seq<Metric>
    decreases |batch|
  {
    if batch == [] then []
    else Occurrences(batch[..|batch| - 1], k) + (if Key(batch[|batch| - 1]) == k then [batch[|batch| - 1]] else [])
  }

  /** Every metric of the run carries a delta. */
  predicate AllDeltas(ms: seq<Metric>)
  {
    forall i :: 0 <= i < |ms| ==> ms[i].delta.Some?
  }

  /** The plain sum of the deltas of a run of metrics that all carry one. */
  function SumDeltas(ms: seq<Metric>): int
    requires AllDeltas(ms)
    decreases |ms|
  {
    if ms == [] then 0 else SumDeltas(ms[..|ms| - 1]) + ms[|ms| - 1].delta.value
  }

  /** An identity is in the accumulated map exactly when it occurs in the batch. */
  lemma {:induction false} AccumulateDomain(batch: seq<Metric>, k: MetricID)
    ensures k in Accumulate(batch) <==> Occurrences(batch, k) != []
    decreases |batch|
  {
    if batch != [] {
      AccumulateDomain(batch[..|batch| - 1], k);
    }
  }

  /** An identity of the batch occurs in it. */
  lemma AccumulateOccurs(batch: seq<Metric>, k: MetricID)
    requires k in KeysOf(batch)
    ensures Occurrences(batch, k) != []
  {
    AccumulateKeys(batch);
    AccumulateDomain(batch, k);
  }

  /** For a counter identity all of whose occurrences carry a delta, the
      accumulated delta is the int64 (wrapping) sum of those deltas. */
  lemma {:induction false} AccumulateSumsCounters(batch: seq<Metric>, k: MetricID)
    requires k.mtype == Counter
    requires Occurrences(batch, k) != []
    requires AllDeltas(Occurrences(batch, k))
    ensures k in Accumulate(batch)
    ensures Accumulate(batch)[k].delta == Some(Wrap(SumDeltas(Occurrences(batch, k))))
    decreases |batch|, 1
  {
    var init := batch[..|batch| - 1];
    var last := batch[|batch| - 1];
    if Key(last) != k {
      assert Occurrences(batch, k) == Occurrences(init, k);
      AccumulateSumsCounters(init, k);
    } else if Occurrences(init, k) != [] {
      SumCountersStep(batch, k);
    } else {
      AccumulateDomain(init, k);
      assert Occurrences(batch, k) == [last];
    }
  }

  /** The inductive step of AccumulateSumsCounters when the last metric is a
      further occurrence of `k`. */
  lemma {:induction false} SumCountersStep(batch: seq<Metric>, k: MetricID)
    requires k.mtype == Counter
    requires |batch| > 0 && Key(batch[|batch| - 1]) == k
    requires Occurrences(batch[..|batch| - 1], k) != []
    requires AllDeltas(Occurrences(batch, k))
    ensures k in Accumulate(batch)
    ensures Accumulate(batch)[k].delta == Some(Wrap(SumDeltas(Occurrences(batch, k))))
    decreases |batch|, 0
  {
    var init := batch[..|batch| - 1];
    var last := batch[|batch| - 1];
    var occ := Occurrences(batch, k);
    var occInit := Occurrences(init, k);
    assert occ == occInit + [last];
    assert occ[..|occ| - 1] == occInit;
    assert forall i :: 0 <= i < |occInit| ==> occInit[i] == occ[i];
    assert last == occ[|occ| - 1];
    AccumulateSumsCounters(init, k);
    WrapAdd(SumDeltas(occInit), last.delta.value);
  }

  /** A counter that arrives with no delta, or meets an entry with no delta,
      replaces the entry instead of being summed into it. */
  lemma AccumulateReplacesWithoutDelta(batch: seq<Metric>, m: Metric)
    requires m.mtype == Counter
    requires m.delta.None? || Key(m) !in Accumulate(batch) || Accumulate(batch)[Key(m)].delta.None?
    ensures Accumulate(batch + [m])[Key(m)] == m
  {
    assert (batch + [m])[..|batch|] == batch;
  }

  /** For an identity that is not a counter, the last occurrence in the batch wins. */
  lemma {:induction false} AccumulateLastWins(batch: seq<Metric>, i: nat)
    requires i < |batch|
    requires batch[i].mtype != Counter
    requires forall j :: i < j < |batch| ==> Key(batch[j]) != Key(batch[i])
    ensures Key(batch[i]) in Accumulate(batch) && Accumulate(batch)[Key(batch[i])] == batch[i]
    decreases |batch|
  {
    var init := batch[..|batch| - 1];
    if i < |batch| - 1 {
      assert init[i] == batch[i];
      AccumulateLastWins(init, i);
    }
  }

  /** accumulateMetrics: fills a map in batch order, then lists the map's
      values in map-iteration order, which Go leaves unspecified (here: any
      order). The result holds exactly one metric per identity of the batch,
      namely the accumulated one. */
  method AccumulateMetrics(batch: seq<Metric>) returns (result: seq<Metric>)
    ensures AccumulationOf(result, batch)
  {
    var acc: map<MetricID, Metric> := map[];
    var i := 0;
    while i < |batch|
      invariant 0 <= i <= |batch|
      invariant acc == Accumulate(batch[..i])
    {
      var m := batch[i];
      var id := Key(m);
      if m.mtype == Counter {
        if id in acc && acc[id].delta.Some? && m.delta.Some? {
          var sum := AddInt64(acc[id].delta.value, m.delta.value);
          acc := acc[id := acc[id].(delta := Some(sum))];
        } else {
          acc := acc[id := m];
        }
      } else {
        acc := acc[id := m];
      }
      assert batch[..i + 1][..i] == batch[..i];
      i := i + 1;
    }
    assert batch[..i] == batch;
    AccumulateKeys(batch);
    result := MapValues(acc);
  }

  /** Lists the values of a map whose entries are filed under their own
      identities, one per key, in map-iteration order (here: any order). */
  method MapValues(acc: map<MetricID, Metric>) returns (result: seq<Metric>)
    requires forall k :: k in acc ==> Key(acc[k]) == k
    ensures KeysDistinct(result)
    ensures KeysOf(result) == acc.Keys
    ensures forall j :: 0 <= j < |result| ==> Key(result[j]) in acc && acc[Key(result[j])] == result[j]
  {
    result := [];
    var keys := acc.Keys;
    while keys != {}
      invariant keys <= acc.Keys
      invariant KeysDistinct(result)
      invariant forall j :: 0 <= j < |result| ==> Key(result[j]) in acc && acc[Key(result[j])] == result[j]
      invariant KeysOf(result) == acc.Keys - keys
      decreases keys
    {
      var k :| k in keys;
      var m := acc[k];
      KeysOfAppend(result, m);
      result := result + [m];
      keys := keys - {k};
    }
  }

  // ---------------------------------------------------------------------
  // filterMetricsByIDs

  /** The identities of the metrics, in order: the ids handed to Filter. */
  function IDs(metrics: seq<Metric>): (ids: seq<MetricID>)
    ensures |ids| == |metrics|
    ensures forall i :: 0 <= i < |metrics| ==> ids[i] == Key(metrics[i])
  {
    seq(|metrics|, i requires 0 <= i < |metrics| => Key(metrics[i]))
  }

  /** filterMetricsByIDs: gathers the identities in order and makes one Filter
      call with them, returning what the filterer answers. */
  method FilterMetricsByIDs<S>(filter: (S, seq<MetricID>) -> FilterResult, s: S, metrics: seq<Metric>)
    returns (found: FilterResult, ids: seq<MetricID>)
    ensures |ids| == |metrics|
    ensures forall i :: 0 <= i < |metrics| ==> ids[i] == Key(metrics[i])
    ensures found == filter(s, ids)
  {
    ids := [];
    var i := 0;
    while i < |metrics|
      invariant 0 <= i <= |metrics|
      invariant |ids| == i
      invariant forall j :: 0 <= j < i ==> ids[j] == Key(metrics[j])
    {
      ids := ids + [Key(metrics[i])];
      i := i + 1;
    }
    found := filter(s, ids);
  }

  // ---------------------------------------------------------------------
  // updateMetrics

  /** One metric after merging with the looked-up entries: a counter whose
      identity was found, when both deltas are set, carries the sum of the two;
      anything else passes through unchanged. */
  function MergeStored(m: Metric, stored: map<MetricID, Metric>): (r: Metric)
    ensures r.id == m.id && r.mtype == m.mtype && r.value == m.value && r.hash == m.hash
    ensures r.delta != m.delta ==> m.mtype == Counter && Key(m) in stored
    ensures (m.mtype == Counter && Key(m) in stored && m.delta.Some? && stored[Key(m)].delta.Some?)
            ==> r.delta == Some(AddInt64(m.delta.value, stored[Key(m)].delta.value))
    ensures !(m.mtype == Counter && Key(m) in stored && m.delta.Some? && stored[Key(m)].delta.Some?)
            ==> r == m
  {
    if Key(m) in stored && m.mtype == Counter && m.delta.Some? && stored[Key(m)].delta.Some? then
      m.(delta := Some(AddInt64(m.delta.value, stored[Key(m)].delta.value)))
    else
      m
  }

  /** updateMetrics: a new slice of the same length and order, each element
      merged with the looked-up entries. */
  method UpdateMetrics(metrics: seq<Metric>, stored: map<MetricID, Metric>) returns (updated: seq<Metric>)
    ensures |updated| == |metrics|
    ensures forall i :: 0 <= i < |metrics| ==> updated[i] == MergeStored(metrics[i], stored)
  {
    updated := [];
    var i := 0;
    while i < |metrics|
      invariant 0 <= i <= |metrics|
      invariant |updated| == i
      invariant forall j :: 0 <= j < i ==> updated[j] == MergeStored(metrics[j], stored)
    {
      var m := metrics[i];
      if Key(m) in stored {
        var existing := stored[Key(m)];
        if m.mtype == Counter && m.delta.Some? && existing.delta.Some? {
          m := m.(delta := Some(AddInt64(m.delta.value, existing.delta.value)));
        }
      }
      updated := updated + [m];
      i := i + 1;
    }
  }

  /** The merged sequence as a value, for the specifications below. */
  function MergeAll(metrics: seq<Metric>, stored: map<MetricID, Metric>): (r: seq<Metric>)
    ensures |r| == |metrics|
    ensures forall i :: 0 <= i < |metrics| ==> r[i] == MergeStored(metrics[i], stored)
  {
    seq(|metrics|, i requires 0 <= i < |metrics| => MergeStored(metrics[i], stored))
  }

  // ---------------------------------------------------------------------
  // saveMetrics

  /** The Send calls for a run of metrics, in order. */
  function SendCalls(ms: seq<Metric>): (cs: seq<Call>)
    ensures |cs| == |ms|
    ensures forall i :: 0 <= i < |ms| ==> cs[i] == SendCall(ms[i])
  {
    seq(|ms|, i requires 0 <= i < |ms| => SendCall(ms[i]))
  }

  /** Sending each metric in order, stopping at the first error. The calls made
      are the Sends of a prefix of the metrics; all of them when none failed,
      and the failing Send is the last call. */
  function SendAll<S>(saver: Saver<S>, s: S, metrics: seq<Metric>): (r: Run<S>)
    ensures |r.calls| <= |metrics|
    ensures r.calls == SendCalls(metrics[..|r.calls|])
    ensures r.err.None? ==> |r.calls| == |metrics|
    ensures r.err.Some? ==> |r.calls| > 0
    decreases |metrics|
  {
    if metrics == [] then Run(s, None, [])
    else
      var reply := saver.send(s, metrics[0]);
      if reply.err.Some? then Run(reply.state, reply.err, [SendCall(metrics[0])])
      else
        var rest := SendAll(saver, reply.state, metrics[1..]);
        assert metrics[1..][..|rest.calls|] == metrics[1..|rest.calls| + 1];
        Run(rest.state, rest.err, [SendCall(metrics[0])] + rest.calls)
  }

  /** What saveMetrics does against a saver: the Sends, then one Save if every
      Send succeeded; the first error wins. */
  function SaveRun<S>(saver: Saver<S>, s: S, metrics: seq<Metric>): Run<S>
  {
    var sent := SendAll(saver, s, metrics);
    if sent.err.Some? then sent
    else
      var reply := saver.save(sent.state);
      Run(reply.state, reply.err, sent.calls + [SaveCall])
  }

  /** The shape of a saveMetrics run: Sends in metric order; Save is called
      exactly once, last, and only when every Send succeeded, and then its
      answer is the result; otherwise the run ends at the failing Send, whose
      error is returned. */
  lemma SaveRunCalls<S>(saver: Saver<S>, s: S, metrics: seq<Metric>)
    ensures var r := SaveRun(saver, s, metrics);
      var sent := SendAll(saver, s, metrics);
      && (sent.err.None? ==> r.calls == SendCalls(metrics) + [SaveCall]
                             && r.err == saver.save(sent.state).err)
      && (sent.err.Some? ==> SaveCall !in r.calls && r.err == sent.err && 0 < |r.calls| <= |metrics|
                             && r.calls == SendCalls(metrics[..|r.calls|]))
  {
    var sent := SendAll(saver, s, metrics);
    if sent.err.Some? {
      var cs := sent.calls;
      assert forall i :: 0 <= i < |cs| ==> cs[i].SendCall?;
    } else {
      assert metrics[..|metrics|] == metrics;
    }
  }

  /** saveMetrics: a loop of Sends with an early return on the first error,
      then one Save. */
  method SaveMetrics<S>(saver: Saver<S>, s0: S, metrics: seq<Metric>)
    returns (s: S, err: Option<Error>, calls: seq<Call>)
    ensures Run(s, err, calls) == SaveRun(saver, s0, metrics)
  {
    s, calls := s0, [];
    var i := 0;
    while i < |metrics|
      invariant 0 <= i <= |metrics|
      invariant SendAll(saver, s0, metrics) == Prepend(calls, SendAll(saver, s, metrics[i..]))
    {
      var reply := saver.send(s, metrics[i]);
      SendAllStep(saver, s, metrics[i..]);
      assert metrics[i..][1..] == metrics[i + 1..];
      calls := calls + [SendCall(metrics[i])];
      if reply.err.Some? {
        return reply.state, reply.err, calls;
      }
      s := reply.state;
      i := i + 1;
    }
    var reply := saver.save(s);
    s, err, calls := reply.state, reply.err, calls + [SaveCall];
  }

  /** One step of SendAll on a non-empty run of metrics. */
  lemma SendAllStep<S>(saver: Saver<S>, s: S, ms: seq<Metric>)
    requires ms != []
    ensures var reply := saver.send(s, ms[0]);
      SendAll(saver, s, ms) ==
        if reply.err.Some? then Run(reply.state, reply.err, [SendCall(ms[0])])
        else Prepend([SendCall(ms[0])], SendAll(saver, reply.state, ms[1..]))
  {
  }

  /** A run preceded by some earlier calls. */
  function Prepend<S>(earlier: seq<Call>, r: Run<S>): Run<S>
  {
    Run(r.state, r.err, earlier + r.calls)
  }

  // ---------------------------------------------------------------------
  // MetricUpdateService.Update

  /** What Update does once the batch has been accumulated into `acc`: one
      Filter call with the identities of `acc`; on its error nothing is sent
      and that error is returned; otherwise the merged metrics are saved. */
  function UpdateRun<S>(saver: Saver<S>, filter: (S, seq<MetricID>) -> FilterResult, s: S, acc: seq<Metric>): Run<S>
  {
    var ids := IDs(acc);
    match filter(s, ids)
    case FilterFailed(e) => Run(s, Some(e), [FilterCall(ids)])
    case Filtered(found) => Prepend([FilterCall(ids)], SaveRun(saver, s, MergeAll(acc, found)))
  }

  /** Update calls Filter exactly once, first, even for an empty batch; a
      filter error is returned with no saver call and no change of state. */
  lemma UpdateFiltersOnce<S>(saver: Saver<S>, filter: (S, seq<MetricID>) -> FilterResult, s: S, acc: seq<Metric>)
    ensures var r := UpdateRun(saver, filter, s, acc);
      && |r.calls| > 0 && r.calls[0] == FilterCall(IDs(acc))
      && (forall i :: 0 < i < |r.calls| ==> !r.calls[i].FilterCall?)
      && (filter(s, IDs(acc)).FilterFailed? ==>
            r.calls == [FilterCall(IDs(acc))] && r.err == Some(filter(s, IDs(acc)).err) && r.state == s)
  {
    var ids := IDs(acc);
    match filter(s, ids)
    case FilterFailed(e) =>
    case Filtered(found) =>
      var merged := MergeAll(acc, found);
      SaveRunCalls(saver, s, merged);
      var sent := SendAll(saver, s, merged);
      var r := SaveRun(saver, s, merged);
      forall i | 0 <= i < |r.calls| ensures !r.calls[i].FilterCall? {
        if sent.err.None? {
          assert r.calls == SendCalls(merged) + [SaveCall];
        } else {
          assert r.calls == SendCalls(merged[..|r.calls|]);
        }
      }
  }

  /** MetricUpdateService.Update: accumulate, filter, merge, save. The order in
      which the accumulated metrics are handled is the map-iteration order of
      accumulateMetrics, returned here as `accumulated`. */
  method Update<S>(saver: Saver<S>, filter: (S, seq<MetricID>) -> FilterResult, s0: S, batch: seq<Metric>)
    returns (s: S, err: Option<Error>, calls: seq<Call>, ghost accumulated: seq<Metric>)
    ensures AccumulationOf(accumulated, batch)
    ensures Run(s, err, calls) == UpdateRun(saver, filter, s0, accumulated)
  {
    var metrics := AccumulateMetrics(batch);
    accumulated := metrics;
    var found, ids := FilterMetricsByIDs(filter, s0, metrics);
    assert ids == IDs(metrics);
    if found.FilterFailed? {
      return s0, Some(found.err), [FilterCall(ids)], metrics;
    }
    var updated := UpdateMetrics(metrics, found.found);
    assert updated == MergeAll(metrics, found.found);
    var saveCalls;
    s, err, saveCalls := SaveMetrics(saver, s0, updated);
    calls := [FilterCall(ids)] + saveCalls;
  }
}
