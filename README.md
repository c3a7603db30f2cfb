# Metrics collection service: a verified Dafny model of its core

The system is a metrics service in two parts. An **agent** polls runtime metrics and reports them one by one over HTTP. A **server** keeps them in memory. Each metric is identified by its name together with its type, `counter` or `gauge`. For a counter, the server adds each reported delta to the stored total. For a gauge, each report replaces the stored reading.

This project models the core of both sides and proves what each part promises:

- `metric_types.dfy` (`MetricTypes`): the data model. It has the metric identity `(id, mtype)` and the metric itself (optional int64 `delta`, optional float64 `value` kept as its bit pattern, and `hash`). It also has the error values. A sentinel error (`Sentinel(origin, msg)`) carries the package that declares it, so two sentinels with the same text from different packages differ, as Go's `errors.New` values do. Any other error (`Other(msg)`) is compared by its text only.
- `int64_arith.dfy` (`Int64Arith`): Go's int64 addition, which wraps around silently. It also has `strconv.ParseInt(s, 10, 64)` and the `%d` rendering, proved to round-trip.
- `memory_storage.dfy` (`MemoryStorage`): the shared in-memory map (a `class` whose `data` field the repositories update) and the upsert that writes into it.
- `repositories.dfy` (`Repositories`): the in-memory filterer, saver, single-metric save, get and list repositories. The list repository copies the map into an array and sorts it in place by name.
- `metric_update.dfy` (`MetricUpdate`): the update service. It takes four steps:
  - accumulate the batch to one metric per identity;
  - look the identities up in one `Filter` call;
  - add stored counter totals;
  - `Send` every metric, then `Save` once.

  The saver and filterer interfaces are modelled as functions over a hidden state. Every run returns the calls it made, so call order and call counts can be stated.
- `update_over_memory.dfy` (`UpdateOverMemory`): the update service run over the two in-memory repositories that implement its interfaces, paired here over one shared map. This gives the end-to-end storage properties: counter running totals, gauges replaced, and the total after the agent's PollCount is reported n times, one request each. These totals are for updates that run one after another; concurrent updates are not modelled (see "## Left out").
- `read_services.dfy` (`ReadServices`): the get service (absent becomes "metric not found") and the list service.
- `validators.dfy` (`Validators`): path validation and the mapping of validation errors to 404, 400 or 500.
- `update_path_handler.dfy` (`UpdatePathHandler`): `newMetrics` and the handler's decision to call the update service.
- `update_facade.dfy` (`UpdateFacade`): the agent's HTTP client for the update endpoint. It normalises the address, builds the URL and turns statuses into errors.
- `agent_worker.dfy` (`AgentWorker`): the PollCount collector, the flusher state machine of the report loop, and `waitForContextOrError`.

The model follows the code wherever it differs from the disabled tests or from the server wiring:

- `waitForContextOrError` returns nil on every path (`internal/workers/metric_agent.go:214-229`). This includes a non-nil worker error, which it only logs. The disabled tests in `internal/workers/metric_agent_test.go:156-201` expect the context error or the worker error to be returned. The model states the code's behaviour.
- `internal/apps/server.go:24-27` passes the get and single-save repositories where the update service expects a saver with `Send`/`Save` and a filterer. That wiring does not match the interfaces. Each repository and the service are modelled on their own terms. `UpdateOverMemory` composes the service with the saver and filterer repositories, which do implement those interfaces.

## Model

| member | source | states |
|---|---|---|
| MetricTypes.Key | internal/types/metrics.go:32-35 | a metric is filed under its name and type together |
| Int64Arith.AddInt64 | internal/services/metric_update.go:121 | int64 addition: the exact sum when in range, otherwise the sum shifted by 2^64 (wrap-around) |
| Int64Arith.WrapAdd | internal/services/metric_update.go:121-123 | wrapping a running total at each step gives the same result as wrapping the exact sum once |
| Int64Arith.ParseInt64 | internal/validators/metrics.go:54 | base-10 int64 parsing: optional sign, at least one digit, value in int64 range; an empty string fails |
| Int64Arith.ParseFormatRoundTrip | internal/validators/metrics.go:54 | parsing the decimal rendering of any int64 gives it back |
| Int64Arith.ParseAcceptsOnlyDecimal | internal/validators/metrics.go:54-57 | whatever parses is digits, optionally after one sign, and its value is the digits' value, negated after '-' |
| Int64Arith.ParseAcceptsDecimal | internal/validators/metrics.go:54-57 | every non-empty digit string, optionally after '+' or '-', whose signed value is in int64 range parses, to that value |
| Int64Arith.FormatInt | internal/facades/metric_update.go:53 | the decimal rendering of a status is non-empty |
| MemoryStorage.Storage.constructor | internal/engines/memory_storage.go:12-17 | a new storage holds an empty map |
| MemoryStorage.Upsert | internal/repositories/metric_memory_saver.go:46 | after writing m, its identity holds exactly m, every other entry is unchanged, and no other key appears |
| MemoryStorage.UpsertIdempotent | internal/repositories/metric_memory_saver.go:46 | writing the same metric twice equals writing it once |
| MemoryStorage.UpsertAllDistinct | internal/repositories/metric_memory_save.go:29-32 | after writing metrics with distinct identities, each is stored under its identity and every other entry is unchanged |
| MemoryStorage.UpsertAllDistinctCount | internal/repositories/metric_memory_save.go:29-32 | saving n metrics with pairwise distinct identities into empty storage leaves exactly n entries |
| Repositories.FilterMap | internal/repositories/metric_memory_filterer.go:52-57 | a key is in the result iff it was requested and is stored, and maps to the stored value |
| Repositories.FilterIgnoresDuplicates | internal/repositories/metric_memory_filterer.go:53-56 | requesting an id twice does not change the result |
| Repositories.FilterOfMissingIsEmpty | internal/repositories/metric_memory_filterer.go:52-58 | an empty request, or one of missing ids only, yields the empty map |
| Repositories.MetricMemoryFiltererRepository.Filter | internal/repositories/metric_memory_filterer.go:45-59 | the loop returns exactly the requested stored entries, never an error, and writes nothing |
| Repositories.MetricMemorySaverRepository.Send | internal/repositories/metric_memory_saver.go:43-48 | the metric is stored as given under its identity, other entries unchanged, error always nil |
| Repositories.MetricMemorySaverRepository.Save | internal/repositories/metric_memory_saver.go:57-59 | finalising writes nothing and returns nil |
| Repositories.MetricMemorySaveRepository.Save | internal/repositories/metric_memory_save.go:22-35 | the metric overwrites its identity's entry, other entries unchanged, error always nil |
| Repositories.MemoryGet | internal/repositories/metric_memory_get.go:22-35 | a metric is found iff its identity is stored, and then it is the stored one; absence is no error |
| Repositories.MetricMemoryGetRepository.Get | internal/repositories/metric_memory_get.go:22-35 | the lookup returns the stored metric or none, never an error, and writes nothing |
| Repositories.GetMatchesWholeIdentity | internal/repositories/metric_memory_get.go:29 | a write under one identity is invisible to a lookup that differs in name or in type |
| Repositories.MetricMemoryListRepository.List | internal/repositories/metric_memory_list.go:23-39 | one element per stored entry, a permutation of the stored values, sorted by name, error always nil |
| Repositories.SortByID | internal/repositories/metric_memory_list.go:34-36 | the in-place sort leaves the array ordered by name and a permutation of its old contents |
| MetricUpdate.AccumulateKeys | internal/services/metric_update.go:115-135 | the accumulated map has exactly the batch's identities, each entry filed under its own identity |
| MetricUpdate.AccumulateDomain | internal/services/metric_update.go:116-130 | an identity is accumulated iff it occurs in the batch |
| MetricUpdate.AccumulateSumsCounters | internal/services/metric_update.go:119-123 | for a counter whose occurrences all carry a delta, the accumulated delta is the wrapped sum of those deltas |
| MetricUpdate.AccumulateReplacesWithoutDelta | internal/services/metric_update.go:120-126 | a counter with no delta, or meeting an entry with no delta, replaces the entry instead of being summed |
| MetricUpdate.AccumulateLastWins | internal/services/metric_update.go:127-129 | for a non-counter identity the last occurrence in the batch wins |
| MetricUpdate.AccumulateMetrics | internal/services/metric_update.go:115-136 | the result holds one metric per distinct identity of the batch, each the accumulated one, in unspecified order |
| MetricUpdate.MapValues | internal/services/metric_update.go:131-135 | listing the map yields each value once, with distinct identities covering every key |
| MetricUpdate.FilterMetricsByIDs | internal/services/metric_update.go:101-111 | the ids are the metrics' identities in order, handed to one Filter call whose answer is returned |
| MetricUpdate.MergeStored | internal/services/metric_update.go:73-78 | the stored delta is added only for a found counter with both deltas set; otherwise the metric passes unchanged; name, type, value and hash never change |
| MetricUpdate.UpdateMetrics | internal/services/metric_update.go:68-82 | same length and order as the input, each element merged with the looked-up entries |
| MetricUpdate.SendAll | internal/services/metric_update.go:86-91 | Sends go out in metric order and stop at the first error; with no error every metric was sent |
| MetricUpdate.SaveRunCalls | internal/services/metric_update.go:85-97 | Save is called once, last, only when every Send succeeded, and its answer is returned; otherwise the failing Send's error is returned and Save is never called |
| MetricUpdate.SaveMetrics | internal/services/metric_update.go:85-97 | the loop with early return makes exactly the calls, state change and error of that specification |
| MetricUpdate.UpdateFiltersOnce | internal/services/metric_update.go:47-53 | Filter is called exactly once and first, even for an empty batch; on its error nothing is sent, the state is unchanged and that error is returned |
| MetricUpdate.Update | internal/services/metric_update.go:43-64 | the run accumulates the batch, filters, merges and saves, with the calls, state and error of that composition |
| UpdateOverMemory.MemorySaveRun | internal/repositories/metric_memory_saver.go:43-59 | against the in-memory saver every metric is written in order, Save follows once, and no error arises |
| UpdateOverMemory.MemoryUpdate | internal/services/metric_update.go:43-64 | after an update each batch identity holds its accumulated metric merged with the old entry, all other entries are unchanged, no error |
| UpdateOverMemory.MergedCounterTotal | internal/services/metric_update.go:73-78 | the merged counter carries the wrapped sum of the stored total and all the batch's deltas for it |
| UpdateOverMemory.CounterRunningTotal | internal/services/metric_update.go:43-64 | a stored counter total grows by every delta in the batch, wrapping at int64 |
| UpdateOverMemory.GaugeOverwritten | internal/services/metric_update.go:127-129 | a gauge identity ends up holding the batch's last metric for it, whatever was stored before |
| UpdateOverMemory.SingleUpdate | internal/services/metric_update.go:43-64 | a one-metric update stores that metric merged with its stored entry |
| UpdateOverMemory.TwoUpdates | cmd/server/main_test.go:52-55 | counter updates of 100 then 50 leave 150; a second gauge update replaces the first |
| UpdateOverMemory.PollCountBatch | internal/services/metric_update.go:115-136 | a batch of n copies of a delta-1 counter has that one identity, all n carry a delta summing to n, and they accumulate to one metric carrying n (wrapping at int64) |
| UpdateOverMemory.ReportIsUpdate | internal/services/metric_update.go:43-64 | each step of reporting a metric one request at a time is a successful single-metric update run of the service over the in-memory repositories |
| UpdateOverMemory.PollCountReports | internal/workers/metric_agent.go:82-87 | after the PollCount counter (delta 1) is reported n times, one update each, the stored total is the old total (0 if absent) plus n, wrapping at int64 |
| ReadServices.Get | internal/services/metric_get.go:25-58 | the getter's error wins; no metric and no error becomes "metric not found"; otherwise the getter's metric is returned unchanged |
| ReadServices.GetOverMemory | internal/services/metric_get.go:44-50 | over the in-memory store, Get succeeds exactly for stored identities, otherwise "metric not found" |
| ReadServices.GetAfterSave | internal/repositories/metric_memory_save.go:29-32 | a saved metric is read back unchanged under its identity |
| ReadServices.List | internal/services/metric_list.go:24-42 | a lister error is returned with no metrics; otherwise the lister's slice is returned unchanged |
| ReadServices.ListFromMemory | internal/services/metric_list.go:24-42 | over the in-memory lister, the list never fails and is every stored metric once, sorted by name |
| Validators.ValidateMetricIDPath | internal/validators/metrics.go:28-41 | nil iff the name is non-empty and the type is counter or gauge; the empty name is reported first |
| Validators.ValidateMetricPath | internal/validators/metrics.go:46-66 | identity errors come first; then a counter value must parse as base-10 int64 and a gauge value as float64, else the matching sentinel |
| Validators.HandleMetricsValidationError | internal/validators/metrics.go:70-94 | nil to nil; empty name to 404; bad type or value to 400 with the error's message; any other error to 500 "internal server error" |
| Validators.ValidationErrorsAreClientErrors | internal/validators/metrics.go:70-94 | every error the path validator yields maps to 404 or 400 with its own message, never 500 |
| Validators.EmptyNameIsNotFound | internal/validators/metrics.go:29-32 | an empty name is a 404 whatever the type and value |
| Validators.LookAlikesAreInternalErrors | internal/validators/metrics.go:75-92 | the same-text errors of the types package are different sentinels and map to 500 |
| Validators.CounterRenderingValidates | internal/validators/metrics.go:53-57 | every int64's decimal rendering is a valid counter value |
| UpdatePathHandler.NewMetrics | internal/handlers/metric_update_path.go:62-79 | name and type copied verbatim; delta set iff counter and int parse succeeds; value set iff gauge and float parse succeeds; no hash |
| UpdatePathHandler.HandleUpdatePath | internal/handlers/metric_update_path.go:30-58 | an API error is written back with its code and message and no update; otherwise one metric is sent to the update service, and the answer is 500 on its error, else 200 |
| UpdatePathHandler.ValidatedPathYieldsTypedMetric | internal/handlers/metric_update_path.go:40-51 | with the server's validator, the update is called iff the path validates, with a single metric whose number is set |
| UpdatePathHandler.UpdateFailureIsInternal | internal/handlers/metric_update_path.go:51-54 | an update failure becomes 500 with the generic message |
| UpdateFacade.NormalizeAddress | internal/facades/metric_update.go:21-23 | an address with an http or https prefix is kept; any other gets "http://" prepended; the result always has one of the two |
| UpdateFacade.NormalizeIdempotent | internal/facades/metric_update.go:21-23 | normalising twice is normalising once |
| UpdateFacade.NormalizeBareHost | internal/facades/metric_update.go:21-23 | "localhost:1234" becomes "http://localhost:1234" |
| UpdateFacade.MarshalError | internal/facades/metric_update.go:36-39 | JSON encoding fails exactly for a NaN or infinite gauge value |
| UpdateFacade.MetricUpdateFacade.constructor | internal/facades/metric_update.go:20-29 | the facade keeps the normalised address and the endpoint verbatim |
| UpdateFacade.MetricUpdateFacade.URL | internal/facades/metric_update.go:33 | the request URL is the stored address, one "/", then the endpoint verbatim, with no slash collapsing; it names the http or https scheme |
| UpdateFacade.UpdateEndpointURL | internal/facades/metric_update.go:20-33 | with endpoint "update/", a bare host h is posted to "http://" + h + "/update/" and an address with a scheme a to a + "/update/" |
| UpdateFacade.TrailingSlashKept | internal/facades/metric_update.go:33 | an address ending in "/" gives a URL with "//" before the endpoint |
| UpdateFacade.MetricUpdateFacade.Update | internal/facades/metric_update.go:31-57 | no error iff encoding succeeds and the server answers below 400; otherwise the marshal, request or status error with its text |
| UpdateFacade.ServerErrorMessage | internal/facades/metric_update.go:52-54 | the error for status 500 begins "server returned status 500" |
| AgentWorker.CollectRuntimeCounterMetrics | internal/workers/metric_agent.go:82-87 | exactly one metric: counter PollCount with delta 1 and no value |
| AgentWorker.RunConserves | internal/workers/metric_agent.go:177-197 | jobs sent plus buffer equal what was there before plus every metric received before the stop, in order, none lost or duplicated |
| AgentWorker.RunAfterDone | internal/workers/metric_agent.go:186-194 | after the flusher returns, further events change nothing |
| AgentWorker.RunStops | internal/workers/metric_agent.go:184-202 | the flusher returns iff the trace holds a close or a cancellation, and then its buffer is empty after the final flush |
| AgentWorker.StoppedTraceEmitsEverything | internal/workers/metric_agent.go:171-197 | over a trace ending in close or cancel, the jobs are exactly the received metrics in order |
| AgentWorker.TickFlushesAndContinues | internal/workers/metric_agent.go:198-200 | a tick flushes the buffer and accumulation continues afterwards |
| AgentWorker.ReceiveAll | internal/workers/metric_agent.go:196-197 | received metrics are appended to the buffer, with no de-duplication or merging |
| AgentWorker.Flusher.Flush | internal/workers/metric_agent.go:171-182 | every buffered metric goes to the job queue in buffer order, then the buffer is empty; an empty buffer emits nothing |
| AgentWorker.Flusher.Handle | internal/workers/metric_agent.go:185-201 | one select turn moves the state by one step of the state machine |
| AgentWorker.Flusher.Run | internal/workers/metric_agent.go:184-202 | the loop reaches the state the trace specification gives and consumes events up to and including the first stop |
| AgentWorker.WaitForContextOrError | internal/workers/metric_agent.go:214-229 | returns nil on every path; skips nil errors; stops at the first context done, channel close or non-nil error; waits while none comes |

## Left out

- Goroutines, channels, tickers, the worker pool, the wait group and the poller loop of the agent (`internal/workers/metric_agent.go:89-158,205-209`) are not modelled. The flusher and `waitForContextOrError` are modelled over a trace of what their `select` receives. That trace fixes the order Go's `select` picks when several cases are ready.
- `collectRuntimeGaugeMetrics` is not modelled: it reads `runtime.MemStats` and a random number.
- Locking (`sync.RWMutex`) is not modelled. Each repository operation is one atomic step.
- UpdateOverMemory.PollCountReports, UpdateOverMemory.CounterRunningTotal, UpdateOverMemory.TwoUpdates: these totals hold for whole update runs that execute one after another. In Go, an update's `Filter` and its `Send`s are separate critical sections (`internal/repositories/metric_memory_filterer.go:45-59`, `internal/repositories/metric_memory_saver.go:43-48`). The agent reports through several concurrent workers, and net/http serves each request in its own goroutine. So two updates of the same counter can both read the old total before either writes, and one increment is lost. Interleaved update runs are not modelled.
- Go maps are references. `NewMetricMemoryFiltererRepository()` takes no argument and always reads the package-level map (`internal/repositories/metric_memory_filterer.go:27-31`, `internal/repositories/metric_memory_storage.go:9-12`). `NewMetricMemorySaverRepository` writes the map it is given, under its own mutex (`internal/repositories/metric_memory_saver.go:25-29`). The save, get and list repositories use the `*engines.MemoryStorage` they are given (`internal/repositories/metric_memory_save.go:14-15`, `internal/repositories/metric_memory_get.go:14-15`, `internal/repositories/metric_memory_list.go:15-16`); `internal/apps/server.go:18-22` hands one storage to all three. The `Storage` class stands for that storage. Only `NewMetricMemoryFiltererRepository()` reads the package-level map. `UpdateOverMemory` pairs the saver and the filterer over one shared map; that pairing is a choice of the model, not wiring the code performs. A saver given a different map is not modelled.
- MetricUpdate.Update / MetricUpdate.UpdateRun: the filterer is modelled as read-only, a function from the hidden state and the requested ids to the result, as its only implementation is (`internal/repositories/metric_memory_filterer.go:45-59`: read lock, no write). A filterer that changes state is not modelled.
- MetricUpdate.UpdateMetrics: it does not model that Go's `*m.Delta += *existing.Delta` writes through a pointer the caller's batch may share. Metrics are values here, so the caller's batch never changes.
- Floating point: a gauge is an opaque 64-bit pattern, and `strconv.ParseFloat` is a function parameter (`FloatParser`). Nothing computes with gauges.
- The HTTP plumbing is left out: routing, request decoding and resty's request building. The transport's reply is a parameter (`Transport`), and `Printf` and all logging are left out.
- UpdateFacade.MetricUpdateFacade.Update: error wrapping is not modelled (`internal/facades/metric_update.go:38,49`). A `%w`-wrapped error in the facade becomes an `Other` error with the combined message, so the `errors.Is` chain is lost.
- The other handlers, the HTML listing, flag and environment parsing, and the runner package are outside this core.
- `internal/apps/server.go` is not part of this model: its wiring does not match the service's interfaces.
