/**
 * The few places where the page's markup (app/page.tsx) decides something
 * from the controller state: whether the submit button is enabled, its
 * caption, whether the error alert and the result card appear, and the
 * risk label of a prediction.
 */
module Render {
  import opened Wrappers
  import opened Form
  import opened Submission

  /** `disabled={loading || !isFormValid()}`, read the other way round. */
  function SubmitEnabled(v: View): (enabled: bool)
    ensures enabled ==> !v.loading && Request(v) == Some(v.formData)
    ensures !enabled ==> v.loading || Request(v) == None
  {
    !(v.loading || !IsFormValid(v.formData))
  }

  /** The button reads "Processing..." while a request is in flight, "Predict" otherwise. */
  function ButtonCaption(v: View): (caption: string)
    ensures caption == "Processing..." <==> v.loading
    ensures caption == "Predict" <==> !v.loading
  {
    if v.loading then "Processing..." else "Predict"
  }

  /** `{error && ...}`: the alert shows when the error is set and not the empty string. */
  predicate ErrorShown(v: View): (shown: bool)
    ensures shown <==> v.error.Some? && |v.error.value| > 0
  {
    v.error.Some? && v.error.value != ""
  }

  /** `{prediction && ...}`: the result card shows when a prediction is set. */
  predicate PredictionShown(v: View): (shown: bool)
    ensures shown <==> v.prediction != None
  {
    v.prediction.Some?
  }

  /** "Low Risk" exactly when the likelihood of injury is "No", "High Risk" for anything else. */
  function RiskLabel(p: PredictionResponse): (risk: string)
    ensures risk == "Low Risk" <==> p.likelihoodOfInjury == "No"
    ensures risk == "High Risk" <==> p.likelihoodOfInjury != "No"
  {
    if p.likelihoodOfInjury == "No" then "Low Risk" else "High Risk"
  }

  /** The button cannot start a second request while one is in flight. */
  lemma SubmitDisabledWhileLoading(v: View)
    requires v.loading
    ensures !SubmitEnabled(v) && ButtonCaption(v) == "Processing..."
  {
  }

  /** At start the button is disabled and neither alert nor result is shown. */
  lemma InitiallyNothingShown()
    ensures !SubmitEnabled(InitialView())
    ensures !ErrorShown(InitialView()) && !PredictionShown(InitialView())
  {
  }
}
