/**
 * Sequences of user actions and responses on the controller. The page lets
 * the user edit fields through its widgets and submit; each submitted
 * request later resolves with some outcome. Overlapping requests are left
 * out: a submission happens only while no request is in flight, and a
 * response arrives only while one is.
 */
module Session {
  import opened Wrappers
  import opened Form
  import opened Submission
  import opened Render

  datatype Event =
    | Edit(field: Field, value: string)
    | Submit
    | Resolve(outcome: Outcome)

  /** Whether the event can happen in state `v`. */
  predicate Permitted(v: View, e: Event)
  {
    match e
    case Edit(field, value) => WidgetValue(field, value)
    case Submit => !v.loading
    case Resolve(_) => v.loading
  }

  /** The state after one event. */
  function Apply(v: View, e: Event, toNumber: string -> Num): View
  {
    match e
    case Edit(field, value) => v.(formData := SetField(v.formData, field, value, toNumber))
    case Submit => StartSubmit(v)
    case Resolve(o) => Finish(v, o)
  }

  /** The state after a sequence of events. */
  function Run(v: View, events: seq<Event>, toNumber: string -> Num): View
    decreases |events|
  {
    if events == [] then v else Run(Apply(v, events[0], toNumber), events[1..], toNumber)
  }

  /** Every event of the sequence is permitted in the state it meets. */
  predicate Accepts(v: View, events: seq<Event>, toNumber: string -> Num)
    decreases |events|
  {
    events == [] || (Permitted(v, events[0]) && Accepts(Apply(v, events[0], toNumber), events[1..], toNumber))
  }

  /**
   * What holds of every state the page can reach: while loading nothing is
   * shown and the form is valid; error and prediction are never both set; a
   * shown prediction comes with a valid form; every error set is non-empty.
   */
  predicate Consistent(v: View)
  {
    && (v.loading ==> v.error == None && v.prediction == None && IsFormValid(v.formData))
    && !(v.error.Some? && v.prediction.Some?)
    && (v.prediction.Some? ==> IsFormValid(v.formData))
    && (v.error.Some? ==> v.error.value != "")
  }

  lemma InitialConsistent()
    ensures Consistent(InitialView())
  {
  }

  /** Each permitted event keeps the state consistent. */
  lemma StepKeepsConsistent(v: View, e: Event, toNumber: string -> Num)
    requires CoercesDigits(toNumber)
    requires Consistent(v) && Permitted(v, e)
    ensures Consistent(Apply(v, e, toNumber))
  {
    match e
    case Edit(field, value) =>
      if IsFormValid(v.formData) {
        WidgetEditKeepsValid(v.formData, field, value, toNumber);
      }
    case Submit =>
    case Resolve(o) =>
  }

  /** Every permitted sequence of events keeps the state consistent. */
  lemma {:induction false} RunKeepsConsistent(v: View, events: seq<Event>, toNumber: string -> Num)
    requires CoercesDigits(toNumber)
    requires Consistent(v) && Accepts(v, events, toNumber)
    ensures Consistent(Run(v, events, toNumber))
    decreases |events|
  {
    if events != [] {
      StepKeepsConsistent(v, events[0], toNumber);
      RunKeepsConsistent(Apply(v, events[0], toNumber), events[1..], toNumber);
    }
  }

  /**
   * From the initial state, whatever the user does and however the requests
   * end, the page never shows an error alert and a result at once, an error
   * that is set is always shown, and the button stays disabled while loading.
   */
  lemma {:induction false} ReachableStatesAreConsistent(events: seq<Event>, toNumber: string -> Num)
    requires CoercesDigits(toNumber)
    requires Accepts(InitialView(), events, toNumber)
    ensures var v := Run(InitialView(), events, toNumber);
      && !(ErrorShown(v) && PredictionShown(v))
      && (v.error.Some? ==> ErrorShown(v))
      && (v.loading ==> !SubmitEnabled(v) && !ErrorShown(v) && !PredictionShown(v))
  {
    InitialConsistent();
    RunKeepsConsistent(InitialView(), events, toNumber);
  }
}
