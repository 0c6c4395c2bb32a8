/**
 * The `Home` component's controller state (app/page.tsx): the four state
 * variables as fields, `handleInputChange` and `handleSubmit` as methods
 * that set them. `handleSubmit` is split at its `await`: `BeginSubmit` runs
 * up to the request and says which body it sends, `CompleteSubmit` runs
 * the rest once the request has an outcome.
 */
module Page {
  import opened Wrappers
  import opened Form
  import opened Submission

  class Home {
    var formData: FormData
    var loading: bool
    var error: Option<string>
    var prediction: Option<PredictionResponse>

    /** The state as a value, for the transitions of module Submission. */
    function Snapshot(): View
      reads this
    {
      Submission.View(formData, loading, error, prediction)
    }

    /** The `useState` initial values. */
    constructor ()
      ensures Snapshot() == InitialView()
      ensures !IsFormValid(formData) && !loading && error == None && prediction == None
    {
      formData := InitialFormData();
      loading := false;
      error := None;
      prediction := None;
    }

    /** `handleInputChange(field, value)`, with `Number` supplied as `toNumber`. */
    method HandleInputChange(field: Field, value: string, toNumber: string -> Num)
      modifies this
      ensures formData == SetField(old(formData), field, value, toNumber)
      ensures loading == old(loading) && error == old(error) && prediction == old(prediction)
    {
      formData := SetField(formData, field, value, toNumber);
    }

    /**
     * `handleSubmit` up to the `fetch`: returns the body it sends, or `None`
     * when the form is invalid and no request is made.
     */
    method BeginSubmit() returns (request: Option<FormData>)
      modifies this
      ensures request == Request(old(Snapshot()))
      ensures Snapshot() == StartSubmit(old(Snapshot()))
      ensures request.None? ==>
        error == Some(InvalidMessage) && formData == old(formData) && loading == old(loading) && prediction == old(prediction)
      ensures request.Some? ==>
        request.value == formData == old(formData) && loading && error == None && prediction == None
    {
      if !IsFormValid(formData) {
        error := Some(InvalidMessage);
        return None;
      }
      loading := true;
      error := None;
      prediction := None;
      request := Some(formData);
    }

    /** `handleSubmit` after the `fetch`: the `try`, `catch` and `finally` blocks. */
    method CompleteSubmit(outcome: Outcome)
      modifies this
      ensures Snapshot() == Finish(old(Snapshot()), outcome)
      ensures !loading && formData == old(formData)
      ensures Attempt(outcome).Success? ==> prediction == Attempt(outcome).value && error == old(error)
      ensures Attempt(outcome).Failure? ==> error == Some(CaughtMessage(Attempt(outcome).error)) && prediction == old(prediction)
    {
      var attempt := Attempt(outcome);
      match attempt {
        case Success(data) =>
          prediction := data;
        case Failure(thrown) =>
          error := Some(CaughtMessage(thrown));
      }
      loading := false;
    }
  }
}
