# Sports injury prediction form — a verified model of its controller

The site's only logic is the prediction form inside the `Home` component of
`app/page.tsx`. The form holds five player attributes: age, weight, height,
previous injuries (0 or 1) and training intensity ("Low", "Medium" or "High").
It checks them, posts them to a prediction service and shows either the returned
risk and recovery estimate or an error. Its state is four React state variables:
`formData`, `loading`, `error` and `prediction`.

The model has seven modules:

- `Wrappers`: `Option` (a TypeScript `T | null`) and `Result` (what a `try` block produced).
- `Form`: the `FormData` record, with numbers kept abstract as `Num`
  (finite, ±Infinity, NaN). Also the validation predicate `IsFormValid`
  (`isFormValid`), and `SetField`, the state updater that `handleInputChange`
  passes to `setFormData`.
- `StatusText`: the decimal rendering of an HTTP status code inside the
  `` `API error: ${response.status}` `` template literal, with a reader that
  recovers the code.
- `Submission`: `handleSubmit` as transitions on a snapshot `View` of the
  four state variables. `StartSubmit` runs up to the `await`; `Finish` runs the
  `try`/`catch`/`finally` once the request has an `Outcome`. `Outcome` is
  a response (a status, plus a parsed or an unparsable body) or a rejected
  `fetch`. A thrown value is either an `Error` with its message or some other value.
- `Page`: the class `Home`, whose fields are the four state variables. Its
  methods `HandleInputChange`, `BeginSubmit` and `CompleteSubmit` set the
  fields step by step, as the handlers call the setters, and each method is
  proved equal to its transition function.
- `Render`: what the markup decides from the state. That is the submit button's
  `disabled` rule and caption, when the error alert and the result card
  appear, and the "Low Risk"/"High Risk" label.
- `Session`: sequences of widget edits, submissions and responses. A reachable
  state never shows an error and a result at once, and while a request is in
  flight nothing is shown and the button is disabled.

The model follows the code where a stricter reading of the form's purpose
would differ:

- A number field counts as filled in once it has been edited, whatever
  `Number(value)` gave. A NaN from non-numeric text counts, and so does the 0
  from an emptied input. The validation tests only `!== null`.
- "Unknown error" is used only when the thrown value is not an `Error`. An
  `Error` with an empty message gives the bare prefix "Failed to get prediction: ".
- A body that fails to parse is caught by the same `catch` as a failed request.
- On success only `prediction` is set, to whatever the body parsed to. On
  failure only `error` is set. The other one keeps whatever value it had.
  Because the start of a valid submission clears both, a completed valid
  submission never has both set. It has exactly one set unless the ok response's body is
  JSON `null`: then `setPrediction(null)` leaves neither set and nothing is
  shown.

## Model

| member | source | states |
|---|---|---|
| `Form.InitialFormData` | app/page.tsx:82-88 | the form starts with all four numbers null and an empty intensity, and it is not valid |
| `Form.IsFormValid` | app/page.tsx:97-105 | valid iff age, weight and height are non-null, previous injuries is exactly 0 or 1, and intensity is "Low", "Medium" or "High" |
| `Form.SetField` | app/page.tsx:108-113 | an edit changes only the named field; intensity takes the raw string, every other field the number `Number(value)` |
| `Form.EditedNumberCountsAsPresent` | app/page.tsx:111 | after an edit a numeric field is never null, whatever the coercion returned |
| `Form.MeasurementValueIrrelevant` | app/page.tsx:97-111 | validity after editing age, weight or height does not depend on the text or on what `Number` returned, NaN included |
| `Form.NaNCompletesForm` | app/page.tsx:97-111 | a measurement edited to text that coerces to NaN is present, and makes the form valid when the other fields are |
| `Form.WidgetEditKeepsValid` | app/page.tsx:240-311 | an edit through the page's inputs and selects never makes a valid form invalid |
| `Form.WidgetEditsKeepValid` | app/page.tsx:240-311 | the same along any sequence of widget edits |
| `StatusText.Decimal` | app/page.tsx:139 | a status code renders as a non-empty string of decimal digits, with no leading zero |
| `StatusText.ParseDecimalOfDecimal` | app/page.tsx:139 | reading the rendered digits back gives the status code |
| `StatusText.DecimalInjective` | app/page.tsx:139 | distinct status codes have distinct decimal renderings |
| `Submission.InitialView` | app/page.tsx:82-93 | at start: invalid initial form, not loading, no error, no prediction |
| `Submission.Attempt` | app/page.tsx:128-143 | the try block succeeds iff the status is 200-299 and the body parsed, and then yields the parsed body (possibly `null`); a non-ok status throws "API error: " and the status |
| `Submission.CaughtMessage` | app/page.tsx:144-145 | the caught message is "Failed to get prediction: " followed by the error's message, or by "Unknown error" for a non-Error value |
| `Submission.Request` | app/page.tsx:119-136 | a request is sent iff the form is valid, and its body is the form |
| `Submission.StartSubmit` | app/page.tsx:119-126 | before the `await`: the form is never changed; an invalid form only sets the error to the fixed message; a valid one sets loading and clears error and prediction |
| `Submission.Finish` | app/page.tsx:128-148 | after the `await`: loading ends and the form is untouched; a successful try block stores its value as the prediction and leaves the error; a failed one sets the caught message and leaves the prediction |
| `Submission.InvalidSubmitOnlySetsError` | app/page.tsx:119-122 | an invalid submit sends nothing and sets the error to exactly "Please fill all fields with valid values.", leaving form, loading and prediction as they were |
| `Submission.ValidSubmitStartsLoading` | app/page.tsx:124-126 | a valid submit sends the form and, before the response, sets loading and clears error and prediction |
| `Submission.FinishEndsLoading` | app/page.tsx:146-148 | every resolved request ends with loading off and the form unchanged |
| `Submission.SuccessSetsPrediction` | app/page.tsx:142-143 | an ok response's parsed body, `null` included, becomes the prediction; the error is untouched |
| `Submission.HttpErrorMessage` | app/page.tsx:138-139 | a non-ok status sets the error to "Failed to get prediction: API error: " plus the status, which can be read back from it; the prediction is untouched |
| `Submission.StatusReadBack` | app/page.tsx:139-145 | the status code can be read back from "Failed to get prediction: API error: " followed by its rendering |
| `Submission.ThrownMessage` | app/page.tsx:144-145 | a rejected fetch or unparsable body sets the error from the thrown message, or "Unknown error" for a non-Error value |
| `Submission.CompletedSubmissionExactlyOne` | app/page.tsx:124-148 | after a valid submission resolves, loading is off and error and prediction are never both set; the error is unset iff the response was ok and parsed, and then the prediction is the parsed body; exactly one is set unless that body is `null` |
| `Submission.NullBodyShowsNothing` | app/page.tsx:124-147 | an ok response whose body is JSON `null` ends a valid submission with neither error nor prediction set |
| `Submission.ResubmitClearsResult` | app/page.tsx:124-126 | submitting again from a shown result clears it before the new response |
| `Page.Home.constructor` | app/page.tsx:82-93 | the component's initial state |
| `Page.Home.HandleInputChange` | app/page.tsx:108-113 | the form becomes `SetField` of the old form; loading, error and prediction are unchanged |
| `Page.Home.BeginSubmit` | app/page.tsx:116-126 | returns the body sent (none when invalid) and moves to the state `StartSubmit` describes |
| `Page.Home.CompleteSubmit` | app/page.tsx:128-148 | moves to the state `Finish` describes: the prediction on success, the caught message on failure, loading off |
| `Render.SubmitEnabled` | app/page.tsx:318 | the button is enabled iff not loading and the form is valid, that is, iff `handleSubmit` would send a request (`Request`) |
| `Render.ErrorShown` | app/page.tsx:330 | the error alert shows iff the error is set and non-empty, the truthiness test of `{error && …}` |
| `Render.PredictionShown` | app/page.tsx:339 | the result card shows iff a prediction is set, the truthiness test of `{prediction && …}` |
| `Render.ButtonCaption` | app/page.tsx:320-326 | the caption is "Processing..." exactly while loading, "Predict" otherwise |
| `Render.RiskLabel` | app/page.tsx:354 | "Low Risk" iff the likelihood of injury is "No", "High Risk" otherwise |
| `Render.SubmitDisabledWhileLoading` | app/page.tsx:318-322 | while loading the button is disabled and reads "Processing..." |
| `Render.InitiallyNothingShown` | app/page.tsx:315-339 | at start the button is disabled and neither error alert nor result card shows |
| `Session.InitialConsistent` | app/page.tsx:82-93 | the initial state satisfies the reachable-state invariant |
| `Session.StepKeepsConsistent` | app/page.tsx:108-148 | each widget edit, submission without a request in flight, and response to the pending request keeps the invariant |
| `Session.RunKeepsConsistent` | app/page.tsx:108-148 | every permitted sequence of such events keeps the invariant |
| `Session.ReachableStatesAreConsistent` | app/page.tsx:315-339 | in every reachable state the error alert and the result card never show together, a set error is always shown, and while loading the button is disabled and nothing is shown |

## Left out

- The `fetch` call, its URL and headers, and the JSON serialisation of the body are I/O. The model says which form is sent (`Request`) and takes the result as an `Outcome`.
- `Number(...)`, JavaScript's string-to-number coercion, is floating-point library behaviour. It is a parameter `toNumber`; the session lemmas assume only that it maps "0" to 0 and "1" to 1.
- `toFixed(1)` rendering of the recovery time is floating-point formatting. `recoveryTimeDays` is kept abstract.
- The shape of a parsed success body is not checked at run time: `setPrediction(data)` stores whatever JSON arrived. The model's `Json` body is a `PredictionResponse` or JSON `null`; a body of any other shape is not modelled.
- Submission.CompletedSubmissionExactlyOne: says nothing about a non-null falsy body (`false`, `0`, `""`), because bodies of other shapes are not modelled. In the code such a body is stored as the prediction but is not shown, because `{prediction && …}` renders only a truthy prediction.
- Overlapping submissions and async interleaving are not modelled. `Session` allows a submission only while no request is in flight, as the disabled button does, and a response only while one is.
- The browser's constraint validation of the number inputs (`required` and `step`) is not modelled. It cancels the form's submit event, so `handleSubmit` does not run, when a number input is empty or off its step. In that state the button can be enabled, because an emptied input leaves `Number("")`, which is 0, in the form. `Render.SubmitEnabled` therefore speaks of what `handleSubmit` would do, and the `Submit` event of `Session` over-approximates when the handler runs.
- React's batching of state updates and closure capture of `formData` are not modelled; each handler runs to its `await` (or its end) in one step.
- `console.log`, `e.preventDefault()`, `scrollToForm` and `formVisible`, the animation variants, the `developers` array and the rest of the markup, apart from the input constraints above, are presentation only. The same goes for `app/layout.tsx` (metadata, font and theme wrapper).
