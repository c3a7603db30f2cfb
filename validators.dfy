/** Validation of the update and get paths, and the mapping of validation
    errors to HTTP status codes. */
module Validators {
  import opened MetricTypes
  import opened Int64Arith

  /** The validators' own sentinels. They compare equal only to themselves,
      not to the look-alike sentinels of internal/types. */
  const ErrInvalidMetricID: Error := Sentinel(ValidatorsPkg, MsgInvalidMetricID)
  const ErrInvalidMetricType: Error := Sentinel(ValidatorsPkg, MsgInvalidMetricType)
  const ErrInvalidCounterValue: Error := Sentinel(ValidatorsPkg, MsgInvalidCounterValue)
  const ErrInvalidGaugeValue: Error := Sentinel(ValidatorsPkg, MsgInvalidGaugeValue)

  const StatusOK: int := 200
  const StatusBadRequest: int := 400
  const StatusNotFound: int := 404
  const StatusInternalServerError: int := 500

  const MsgInternalServerError: string := "internal server error"

  /** types.APIError: a status code and the message sent to the client. */
  datatype APIError = APIError(code: int, message: string)

  /** A float parser standing for strconv.ParseFloat(s, 64): the bits of the
      parsed value, or None where Go reports an error. */
  type FloatParser = string -> Option<Gauge>

  /** ValidateMetricIDPath: the name must be non-empty, then the type must be
      one of the two tags; the name is checked first. */
  function ValidateMetricIDPath(id: string, mType: string): (r: Option<Error>)
    ensures r == None <==> id != "" && (mType == Counter || mType == GaugeType)
    ensures id == "" ==> r == Some(ErrInvalidMetricID)
    ensures id != "" && mType != Counter && mType != GaugeType ==> r == Some(ErrInvalidMetricType)
  {
    if id == "" then Some(ErrInvalidMetricID)
    else if mType != Counter && mType != GaugeType then Some(ErrInvalidMetricType)
    else None
  }

  /** ValidateMetricPath: the identity checks first, then the value must parse
      as a base-10 int64 for a counter or as a float64 for a gauge. */
  function ValidateMetricPath(id: string, mType: string, value: string, parseFloat: FloatParser): (r: Option<Error>)
    ensures ValidateMetricIDPath(id, mType).Some? ==> r == ValidateMetricIDPath(id, mType)
    ensures r == None <==>
      && ValidateMetricIDPath(id, mType) == None
      && (mType == Counter ==> ParseInt64(value).Some?)
      && (mType == GaugeType ==> parseFloat(value).Some?)
    ensures ValidateMetricIDPath(id, mType) == None && mType == Counter && ParseInt64(value).None?
            ==> r == Some(ErrInvalidCounterValue)
    ensures ValidateMetricIDPath(id, mType) == None && mType == GaugeType && parseFloat(value).None?
            ==> r == Some(ErrInvalidGaugeValue)
  {
    var idErr := ValidateMetricIDPath(id, mType);
    if idErr.Some? then idErr
    else if mType == Counter then
      (if ParseInt64(value).None? then Some(ErrInvalidCounterValue) else None)
    else if mType == GaugeType then
      (if parseFloat(value).None? then Some(ErrInvalidGaugeValue) else None)
    else None
  }

  /** HandleMetricsValidationError: no error, no API error; the empty-name
      sentinel is 404, the other three validator sentinels are 400, each with
      the error's own message; any other error is a 500 with a fixed message. */
  function HandleMetricsValidationError(err: Option<Error>): (r: Option<APIError>)
    ensures r.None? <==> err.None?
    ensures err == Some(ErrInvalidMetricID) ==> r == Some(APIError(StatusNotFound, MsgInvalidMetricID))
    ensures err.Some? && err.value in {ErrInvalidMetricType, ErrInvalidCounterValue, ErrInvalidGaugeValue}
            ==> r == Some(APIError(StatusBadRequest, Message(err.value)))
    ensures err.Some? && err.value !in {ErrInvalidMetricID, ErrInvalidMetricType, ErrInvalidCounterValue, ErrInvalidGaugeValue}
            ==> r == Some(APIError(StatusInternalServerError, MsgInternalServerError))
  {
    match err
    case None => None
    case Some(e) =>
      if e == ErrInvalidMetricID then Some(APIError(StatusNotFound, Message(e)))
      else if e == ErrInvalidMetricType || e == ErrInvalidGaugeValue || e == ErrInvalidCounterValue then
        Some(APIError(StatusBadRequest, Message(e)))
      else Some(APIError(StatusInternalServerError, MsgInternalServerError))
  }

  /** Every error the path validators produce maps to a 404 or a 400 carrying
      the validator's message, never to a 500. */
  lemma ValidationErrorsAreClientErrors(id: string, mType: string, value: string, parseFloat: FloatParser)
    requires ValidateMetricPath(id, mType, value, parseFloat).Some?
    ensures var api := HandleMetricsValidationError(ValidateMetricPath(id, mType, value, parseFloat));
      && api.Some?
      && (api.value.code == StatusNotFound || api.value.code == StatusBadRequest)
      && api.value.message == Message(ValidateMetricPath(id, mType, value, parseFloat).value)
  {
  }

  /** The empty name is a 404 and every other identity error a 400: the name is
      checked before the type. */
  lemma EmptyNameIsNotFound(mType: string, value: string, parseFloat: FloatParser)
    ensures HandleMetricsValidationError(ValidateMetricPath("", mType, value, parseFloat))
            == Some(APIError(StatusNotFound, MsgInvalidMetricID))
  {
  }

  /** The look-alike sentinels of internal/types carry the same messages as the
      validators' own but are different errors, so they map to a 500 with the
      generic message. */
  lemma LookAlikesAreInternalErrors(e: Error)
    requires e in {TypesErrInvalidMetricID, TypesErrInvalidMetricType, TypesErrInvalidCounterValue, TypesErrInvalidGaugeValue}
    ensures HandleMetricsValidationError(Some(e)) == Some(APIError(StatusInternalServerError, MsgInternalServerError))
  {
  }

  /** The decimal rendering of any int64 validates as a counter value. */
  lemma CounterRenderingValidates(id: string, x: Int64, parseFloat: FloatParser)
    requires id != ""
    ensures ValidateMetricPath(id, Counter, FormatInt(x), parseFloat) == None
  {
    ParseFormatRoundTrip(x);
  }
}
