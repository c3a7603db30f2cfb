/** The handler of POST /update/{type}/{name}/{value}: validate, map the
    validation error, build one metric from the path, hand it to the update
    service. */
module UpdatePathHandler {
  import opened MetricTypes
  import opened Int64Arith
  import opened Validators

  /** newMetrics: the name and type from the path; for a counter the delta
      is set when the value parses as a base-10 int64, for a gauge the value
      is set when it parses as a float64; otherwise both stay unset. No hash. */
  function NewMetrics(metricType: string, metricName: string, metricValue: string, parseFloat: FloatParser): (m: Metric)
    ensures m.id == metricName && m.mtype == metricType && m.hash == ""
    ensures m.delta.Some? <==> metricType == Counter && ParseInt64(metricValue).Some?
    ensures m.delta.Some? ==> m.delta == ParseInt64(metricValue)
    ensures m.value.Some? <==> metricType == GaugeType && parseFloat(metricValue).Some?
    ensures m.value.Some? ==> m.value == parseFloat(metricValue)
  {
    var m := Metric(metricName, metricType, None, None, "");
    if metricType == Counter then
      (if ParseInt64(metricValue).Some? then m.(delta := ParseInt64(metricValue)) else m)
    else if metricType == GaugeType then
      (if parseFloat(metricValue).Some? then m.(value := parseFloat(metricValue)) else m)
    else m
  }

  /** What the handler writes back, and the batch it handed to the update
      service, if it called it. http.Error appends a newline to the message. */
  datatype Outcome = Outcome(status: int, body: string, updated: Option<seq<Metric>>)

  /** The handler with its three collaborators: the validation function, the
      error mapper, and the update service (answering an error or none). */
  function HandleUpdatePath(
    valFunc: (string, string, string) -> Option<Error>,
    errValHandler: Option<Error> -> Option<APIError>,
    update: seq<Metric> -> Option<Error>,
    parseFloat: FloatParser,
    metricType: string, metricName: string, metricValue: string): (r: Outcome)
    ensures var apiErr := errValHandler(valFunc(metricName, metricType, metricValue));
      && (apiErr.Some? ==> r == Outcome(apiErr.value.code, apiErr.value.message + "\n", None))
      && (apiErr.None? ==> r.updated == Some([NewMetrics(metricType, metricName, metricValue, parseFloat)]))
      && (apiErr.None? && update([NewMetrics(metricType, metricName, metricValue, parseFloat)]).Some? ==>
            r.status == StatusInternalServerError && r.body == MsgInternalServerError + "\n")
      && (apiErr.None? && update([NewMetrics(metricType, metricName, metricValue, parseFloat)]).None? ==>
            r.status == StatusOK && r.body == "")
  {
    var apiErr := errValHandler(valFunc(metricName, metricType, metricValue));
    if apiErr.Some? then Outcome(apiErr.value.code, apiErr.value.message + "\n", None)
    else
      var batch := [NewMetrics(metricType, metricName, metricValue, parseFloat)];
      if update(batch).Some? then Outcome(StatusInternalServerError, MsgInternalServerError + "\n", Some(batch))
      else Outcome(StatusOK, "", Some(batch))
  }

  /** The validator the server wires in, in the handler's argument order. */
  function PathValidator(parseFloat: FloatParser): (string, string, string) -> Option<Error>
  {
    (name: string, mType: string, value: string) => ValidateMetricPath(name, mType, value, parseFloat)
  }

  /** With the server's validator and error mapper, the update service is
      called exactly when the path validates, and then with one metric whose
      number is set: the counter's delta or the gauge's value. Otherwise the
      answer is a 404 or a 400 carrying the validation message. */
  lemma ValidatedPathYieldsTypedMetric(
    update: seq<Metric> -> Option<Error>, parseFloat: FloatParser,
    metricType: string, metricName: string, metricValue: string)
    ensures var r := HandleUpdatePath(PathValidator(parseFloat), HandleMetricsValidationError, update, parseFloat,
                                      metricType, metricName, metricValue);
      var err := ValidateMetricPath(metricName, metricType, metricValue, parseFloat);
      && (r.updated.Some? <==> err.None?)
      && (err.None? ==>
            |r.updated.value| == 1
            && var m := r.updated.value[0];
            && m.id == metricName && m.id != "" && m.mtype == metricType
            && (m.mtype == Counter ==> m.delta.Some? && m.value.None?)
            && (m.mtype == GaugeType ==> m.value.Some? && m.delta.None?))
      && (err.Some? ==> (r.status == StatusNotFound || r.status == StatusBadRequest)
                        && r.body == Message(err.value) + "\n")
  {
    var err := ValidateMetricPath(metricName, metricType, metricValue, parseFloat);
    if err.Some? {
      ValidationErrorsAreClientErrors(metricName, metricType, metricValue, parseFloat);
    }
  }

  /** The update service's own failure is never shown to the client: it
      becomes a 500 with the generic message. */
  lemma UpdateFailureIsInternal(
    update: seq<Metric> -> Option<Error>, parseFloat: FloatParser,
    metricType: string, metricName: string, metricValue: string)
    requires ValidateMetricPath(metricName, metricType, metricValue, parseFloat) == None
    requires update([NewMetrics(metricType, metricName, metricValue, parseFloat)]).Some?
    ensures HandleUpdatePath(PathValidator(parseFloat), HandleMetricsValidationError, update, parseFloat,
                             metricType, metricName, metricValue)
            == Outcome(StatusInternalServerError, MsgInternalServerError + "\n",
                       Some([NewMetrics(metricType, metricName, metricValue, parseFloat)]))
  {
  }
}
