/** The server's read services: MetricGetService turns the getter's
    "no metric, no error" into ErrMetricNotFound, and MetricListService passes
    the lister's answer through. */
module ReadServices {
  import opened MetricTypes
  import opened MemoryStorage
  import opened Repositories

  /** MetricGetService.Get over a getter (the MetricGetGetter interface): the
      getter's error wins; a missing metric becomes ErrMetricNotFound; a found
      metric is returned as the getter gave it. */
  function Get(getter: MetricID -> GetReply, id: MetricID): (r: Result<Metric>)
    ensures getter(id).err.Some? ==> r == Failure(getter(id).err.value)
    ensures getter(id).err.None? && getter(id).metric.None? ==> r == Failure(ErrMetricNotFound)
    ensures r.Success? <==> getter(id).err.None? && getter(id).metric.Some?
    ensures r.Success? ==> r.value == getter(id).metric.value
  {
    var reply := getter(id);
    if reply.err.Some? then Failure(reply.err.value)
    else if reply.metric.None? then Failure(ErrMetricNotFound)
    else Success(reply.metric.value)
  }

  /** The getter the server wires in: MetricMemoryGetRepository over the shared map. */
  function MemoryGetter(data: map<MetricID, Metric>): MetricID -> GetReply
  {
    id => MemoryGet(data, id)
  }

  /** Over the in-memory store, Get finds exactly the stored identities; any
      other identity, including the same name under the other type, is
      ErrMetricNotFound. */
  lemma GetOverMemory(data: map<MetricID, Metric>, id: MetricID)
    ensures Get(MemoryGetter(data), id) == if id in data then Success(data[id]) else Failure(ErrMetricNotFound)
  {
  }

  /** A metric saved into the store is read back unchanged under its identity. */
  lemma GetAfterSave(data: map<MetricID, Metric>, m: Metric)
    ensures Get(MemoryGetter(Upsert(data, m)), Key(m)) == Success(m)
  {
    GetOverMemory(Upsert(data, m), Key(m));
  }

  /** MetricListService.List over a lister's answer: its error is returned with
      no metrics, otherwise its metrics are returned as they are. */
  function List(reply: (seq<Metric>, Option<Error>)): (r: Result<seq<Metric>>)
    ensures r.Failure? <==> reply.1.Some?
    ensures r.Failure? ==> r.error == reply.1.value
    ensures r.Success? ==> r.value == reply.0
  {
    if reply.1.Some? then Failure(reply.1.value) else Success(reply.0)
  }

  /** The list service over MetricMemoryListRepository: it never fails, and it
      returns every stored metric exactly once, sorted by name. */
  method ListFromMemory(repo: MetricMemoryListRepository) returns (r: Result<seq<Metric>>, ghost order: seq<MetricID>)
    ensures r.Success?
    ensures |r.value| == |repo.storage.data|
    ensures Enumerates(order, repo.storage.data)
    ensures multiset(r.value) == multiset(ValuesAlong(repo.storage.data, order))
    ensures SortedByID(r.value)
  {
    var metrics, err;
    metrics, err, order := repo.List();
    r := List((metrics, err));
  }
}
