/** The metric data model shared by the agent and the server:
    identities, metrics, Go int64 bounds and the error values the
    repository compares by identity. */
module MetricTypes {

  datatype Option<+T> = None | Some(value: T)

  /** A value or an error, as a Go `(T, error)` pair whose two halves are never both set. */
  datatype Result<+T> = Success(value: T) | Failure(error: Error)

  const MinInt64: int := -0x8000_0000_0000_0000
  const MaxInt64: int := 0x7fff_ffff_ffff_ffff

  /** Go's int64. */
  type Int64 = x: int | MinInt64 <= x <= MaxInt64

  /** A float64 gauge reading, kept as its IEEE-754 bit pattern.
      Nothing in the core computes with gauges; they are only copied and compared. */
  datatype Gauge = Float64Bits(bits: bv64)

  /** The two metric type tags. */
  const Counter: string := "counter"
  const GaugeType: string := "gauge"

  /** A metric's identity: its name and its type tag; the key of every store. */
  datatype MetricID = MetricID(id: string, mtype: string)

  /** A metric as it travels and as it is stored. For a counter `delta` is the
      increment (or, once stored, the running total); for a gauge `value` is the
      reading. Either may be absent, and a metric may carry both. `hash` is an
      optional integrity tag that the core only copies. */
  datatype Metric = Metric(id: string, mtype: string, delta: Option<Int64>, value: Option<Gauge>, hash: string)

  /** The identity under which a metric is filed. */
  function Key(m: Metric): (k: MetricID)
    ensures k.id == m.id && k.mtype == m.mtype
  {
    MetricID(m.id, m.mtype)
  }

  /** The identities of a collection of metrics. */
  function KeysOf(ms: seq<Metric>): set<MetricID>
  {
    set m | m in ms :: Key(m)
  }

  /** Appending a metric adds its identity. */
  lemma KeysOfAppend(ms: seq<Metric>, m: Metric)
    ensures KeysOf(ms + [m]) == KeysOf(ms) + {Key(m)}
  {
    assert forall x :: x in ms + [m] <==> x in ms || x == m;
  }

  /** No two metrics of the sequence share an identity. */
  ghost predicate KeysDistinct(ms: seq<Metric>)
  {
    forall i, j :: 0 <= i < j < |ms| ==> Key(ms[i]) != Key(ms[j])
  }

  /** The Go package that declares an error variable. Go compares errors by
      identity, so `validators.ErrInvalidMetricID` and `types.ErrInvalidMetricID`
      are different errors even though their messages agree. */
  datatype Origin = ValidatorsPkg | TypesPkg | ErrorsPkg

  /** An error: one of the package-level sentinels, identified by its package and
      its message, or any other error with its message. */
  datatype Error = Sentinel(origin: Origin, msg: string) | Other(msg: string)

  /** The text `err.Error()` returns. */
  function Message(e: Error): string
  {
    e.msg
  }

  const MsgInvalidMetricID: string := "invalid metric id"
  const MsgInvalidMetricType: string := "invalid metric type"
  const MsgInvalidCounterValue: string := "invalid counter value"
  const MsgInvalidGaugeValue: string := "invalid gauge value"
  const MsgMetricNotFound: string := "metric not found"

  /** The sentinels of internal/types, look-alikes of the validators' own. */
  const TypesErrInvalidMetricID: Error := Sentinel(TypesPkg, MsgInvalidMetricID)
  const TypesErrInvalidMetricType: Error := Sentinel(TypesPkg, MsgInvalidMetricType)
  const TypesErrInvalidCounterValue: Error := Sentinel(TypesPkg, MsgInvalidCounterValue)
  const TypesErrInvalidGaugeValue: Error := Sentinel(TypesPkg, MsgInvalidGaugeValue)

  /** The sentinel of internal/errors that the read service returns for an absent metric. */
  const ErrMetricNotFound: Error := Sentinel(ErrorsPkg, MsgMetricNotFound)
}
