/**
 * The request lifecycle of `handleSubmit` (app/page.tsx), as transitions on
 * a snapshot of the component's four state variables. The network exchange
 * is not modelled: what it produced is the `Outcome` the second half of the
 * handler receives.
 */
module Submission {
  import opened Wrappers
  import opened Form
  import opened StatusText

  /** The success body, `interface PredictionResponse`. */
  datatype PredictionResponse = PredictionResponse(likelihoodOfInjury: string, recoveryTimeDays: Num)

  /** A thrown value: an `Error` with its message, or anything else. */
  datatype Thrown = ErrorObject(message: string) | NonErrorValue

  /**
   * What `response.json()` gave: the parsed data (`None` for a JSON `null`),
   * or what it threw.
   */
  datatype Body = Json(data: Option<PredictionResponse>) | Malformed(reason: Thrown)

  /** How the awaited `fetch` ended: with a response, or by rejecting. */
  datatype Outcome = Response(status: nat, body: Body) | FetchRejected(reason: Thrown)

  /** The four pieces of component state the handlers read and set. */
  datatype View = View(
    formData: FormData,
    loading: bool,
    error: Option<string>,
    prediction: Option<PredictionResponse>)

  const InvalidMessage: string := "Please fill all fields with valid values."
  const FailurePrefix: string := "Failed to get prediction: "
  const ApiErrorPrefix: string := "API error: "

  /** The state `useState` starts with. */
  function InitialView(): (v: View)
    ensures !IsFormValid(v.formData) && v.formData == InitialFormData()
    ensures !v.loading && v.error == None && v.prediction == None
  {
    View(InitialFormData(), false, None, None)
  }

  /** `response.ok`: the status is in the range 200-299. */
  predicate IsOk(status: nat)
  {
    200 <= status <= 299
  }

  /**
   * The `try` block after the request: a non-ok status throws
   * `Error("API error: <status>")`; otherwise the parsed body, or what
   * parsing threw.
   */
  function Attempt(o: Outcome): (r: Result<Option<PredictionResponse>, Thrown>)
    ensures r.Success? <==> o.Response? && IsOk(o.status) && o.body.Json?
    ensures r.Success? ==> r.value == o.body.data
    ensures o.Response? && !IsOk(o.status) ==> r == Failure(ErrorObject(ApiErrorPrefix + Decimal(o.status)))
  {
    match o
    case FetchRejected(t) => Failure(t)
    case Response(status, body) =>
      if !IsOk(status) then Failure(ErrorObject(ApiErrorPrefix + Decimal(status)))
      else
        match body
        case Json(data) => Success(data)
        case Malformed(t) => Failure(t)
  }

  /** The `catch` block's message: the error's own message, or "Unknown error". */
  function CaughtMessage(t: Thrown): (msg: string)
    ensures |msg| >= |FailurePrefix| && msg[..|FailurePrefix|] == FailurePrefix
    ensures t.NonErrorValue? ==> msg == FailurePrefix + "Unknown error"
    ensures t.ErrorObject? ==> msg[|FailurePrefix|..] == t.message
  {
    FailurePrefix + (match t case ErrorObject(m) => m case NonErrorValue => "Unknown error")
  }

  /** The body `handleSubmit` sends: the form, when it is valid. */
  function Request(v: View): (body: Option<FormData>)
    ensures body.Some? <==> IsFormValid(v.formData)
    ensures body.Some? ==> body.value == v.formData
  {
    if IsFormValid(v.formData) then Some(v.formData) else None
  }

  /**
   * `handleSubmit` up to its `await`: an invalid form only sets the fixed
   * error; a valid one starts loading and clears both error and prediction.
   */
  function StartSubmit(v: View): (w: View)
    ensures w.formData == v.formData
    ensures !IsFormValid(v.formData) ==>
      w.error == Some(InvalidMessage) && w.loading == v.loading && w.prediction == v.prediction
    ensures IsFormValid(v.formData) ==> w.loading && w.error == None && w.prediction == None
  {
    if !IsFormValid(v.formData) then v.(error := Some(InvalidMessage))
    else v.(loading := true, error := None, prediction := None)
  }

  /** `handleSubmit` after its `await`: the `try`, `catch` and `finally` blocks. */
  function Finish(v: View, o: Outcome): (w: View)
    ensures !w.loading && w.formData == v.formData
    ensures Attempt(o).Success? ==> w.prediction == Attempt(o).value && w.error == v.error
    ensures Attempt(o).Failure? ==>
      w.error == Some(CaughtMessage(Attempt(o).error)) && w.prediction == v.prediction
  {
    match Attempt(o)
    case Success(data) => v.(prediction := data, loading := false)
    case Failure(t) => v.(error := Some(CaughtMessage(t)), loading := false)
  }

  /** Submitting an invalid form sets exactly the fixed message and changes nothing else. */
  lemma InvalidSubmitOnlySetsError(v: View)
    requires !IsFormValid(v.formData)
    ensures Request(v) == None
    ensures StartSubmit(v).error == Some(InvalidMessage)
    ensures StartSubmit(v).formData == v.formData
    ensures StartSubmit(v).loading == v.loading && StartSubmit(v).prediction == v.prediction
  {
  }

  /** Submitting a valid form, before the response: loading, nothing shown, form untouched. */
  lemma ValidSubmitStartsLoading(v: View)
    requires IsFormValid(v.formData)
    ensures Request(v) == Some(v.formData)
    ensures StartSubmit(v) == View(v.formData, true, None, None)
  {
  }

  /** A resolved request always ends loading and never touches the form. */
  lemma FinishEndsLoading(v: View, o: Outcome)
    ensures !Finish(v, o).loading && Finish(v, o).formData == v.formData
  {
  }

  /**
   * On success the prediction is the response data, `null` included, and the
   * error is left as it was.
   */
  lemma SuccessSetsPrediction(v: View, status: nat, data: Option<PredictionResponse>)
    requires IsOk(status)
    ensures Finish(v, Response(status, Json(data))).prediction == data
    ensures Finish(v, Response(status, Json(data))).error == v.error
  {
  }

  /**
   * A non-ok status gives "Failed to get prediction: API error: <status>",
   * from which the status can be read back; the prediction is left alone.
   */
  lemma HttpErrorMessage(v: View, status: nat, body: Body)
    requires !IsOk(status)
    ensures Finish(v, Response(status, body)).error == Some(FailurePrefix + ApiErrorPrefix + Decimal(status))
    ensures Finish(v, Response(status, body)).prediction == v.prediction
    ensures ReportedStatus(Finish(v, Response(status, body)).error.value) == Some(status)
  {
    var digits := Decimal(status);
    var thrown := ErrorObject(ApiErrorPrefix + digits);
    assert Attempt(Response(status, body)) == Failure(thrown);
    assert CaughtMessage(thrown) == FailurePrefix + (ApiErrorPrefix + digits);
    assert FailurePrefix + (ApiErrorPrefix + digits) == FailurePrefix + ApiErrorPrefix + digits;
    StatusReadBack(status);
  }

  /** The status code can be read back from the message that embeds it. */
  lemma StatusReadBack(status: nat)
    ensures ReportedStatus(FailurePrefix + ApiErrorPrefix + Decimal(status)) == Some(status)
  {
    var prefix := FailurePrefix + ApiErrorPrefix;
    var digits := Decimal(status);
    assert (prefix + digits)[..|prefix|] == prefix;
    assert (prefix + digits)[|prefix|..] == digits;
    ParseDecimalOfDecimal(status);
  }

  /**
   * The status code a failure message reports, if it has the shape of an
   * HTTP-status failure.
   */
  function ReportedStatus(msg: string): Option<nat>
  {
    var prefix := FailurePrefix + ApiErrorPrefix;
    if |msg| >= |prefix| && msg[..|prefix|] == prefix then ParseDecimal(msg[|prefix|..]) else None
  }

  /** A rejected request (or an unparsable body) carries its error's message, or "Unknown error". */
  lemma ThrownMessage(v: View, o: Outcome)
    requires o.FetchRejected? || (o.Response? && IsOk(o.status) && o.body.Malformed?)
    ensures var t := if o.FetchRejected? then o.reason else o.body.reason;
      && Finish(v, o).error == Some(FailurePrefix + (if t.ErrorObject? then t.message else "Unknown error"))
      && Finish(v, o).prediction == v.prediction
  {
  }

  /**
   * A valid submission, once resolved, leaves loading off and never both
   * error and prediction set. The prediction is the parsed body when the
   * status was ok and the body parsed; otherwise the error is set. So exactly
   * one of the two is set unless the body parsed to `null`.
   */
  lemma {:induction false} CompletedSubmissionExactlyOne(v: View, o: Outcome)
    requires IsFormValid(v.formData)
    ensures var w := Finish(StartSubmit(v), o);
      && !w.loading && w.formData == v.formData
      && !(w.error.Some? && w.prediction.Some?)
      && (w.error.None? <==> o.Response? && IsOk(o.status) && o.body.Json?)
      && w.prediction == (if w.error.None? then o.body.data else None)
      && (w.error.Some? || w.prediction.Some? <==> !(o.Response? && IsOk(o.status) && o.body == Json(None)))
  {
  }

  /**
   * An ok response whose body is JSON `null` ends a valid submission with
   * neither an error nor a prediction: nothing is shown.
   */
  lemma NullBodyShowsNothing(v: View, status: nat)
    requires IsFormValid(v.formData) && IsOk(status)
    ensures Finish(StartSubmit(v), Response(status, Json(None))) == View(v.formData, false, None, None)
  {
  }

  /** Submitting again from a shown result clears it before any new response arrives. */
  lemma ResubmitClearsResult(v: View)
    requires IsFormValid(v.formData) && v.prediction.Some?
    ensures StartSubmit(v).prediction == None && StartSubmit(v).error == None && StartSubmit(v).loading
  {
  }
}
