/**
 * The prediction form's data (app/page.tsx, `interface FormData`), its
 * validation predicate `isFormValid` and the state updater that
 * `handleInputChange` hands to `setFormData`.
 */
module Form {
  import opened Wrappers

  /**
   * A JavaScript number, kept abstract: finite values are reals, and the
   * non-finite values `Number(...)` can produce are their own cases.
   * (+0 and -0 are one real, as they are equal under `===`.)
   */
  datatype Num = Finite(value: real) | PosInfinity | NegInfinity | NaN

  /** The five form fields, `keyof FormData`. */
  datatype Field = PlayerAge | PlayerWeight | PlayerHeight | PreviousInjuries | TrainingIntensity

  /** The form record: four numeric fields that may be `null`, one string. */
  datatype FormData = FormData(
    playerAge: Option<Num>,
    playerWeight: Option<Num>,
    playerHeight: Option<Num>,
    previousInjuries: Option<Num>,
    trainingIntensity: string)

  /** What one field holds. */
  datatype FieldValue = Numeric(number: Option<Num>) | Text(text: string)

  /** The intensities the validation accepts, in the order the code lists them. */
  const Intensities: seq<string> := ["Low", "Medium", "High"]

  function Get(f: FormData, field: Field): FieldValue
  {
    match field
    case PlayerAge => Numeric(f.playerAge)
    case PlayerWeight => Numeric(f.playerWeight)
    case PlayerHeight => Numeric(f.playerHeight)
    case PreviousInjuries => Numeric(f.previousInjuries)
    case TrainingIntensity => Text(f.trainingIntensity)
  }

  /** The state the form starts in: every number `null`, no intensity chosen. */
  function InitialFormData(): (f: FormData)
    ensures forall field :: field != TrainingIntensity ==> Get(f, field) == Numeric(None)
    ensures Get(f, TrainingIntensity) == Text("")
    ensures !IsFormValid(f)
  {
    FormData(None, None, None, None, "")
  }

  /**
   * `isFormValid`: the three measurements are not `null` (any number counts,
   * NaN included), previous injuries is exactly 0 or 1, and the intensity is
   * one of the listed strings.
   */
  function IsFormValid(f: FormData): (valid: bool)
    ensures valid <==>
      && Get(f, PlayerAge) != Numeric(None)
      && Get(f, PlayerWeight) != Numeric(None)
      && Get(f, PlayerHeight) != Numeric(None)
      && (Get(f, PreviousInjuries) == Numeric(Some(Finite(0.0))) || Get(f, PreviousInjuries) == Numeric(Some(Finite(1.0))))
      && (Get(f, TrainingIntensity) == Text("Low") || Get(f, TrainingIntensity) == Text("Medium") || Get(f, TrainingIntensity) == Text("High"))
  {
    && f.playerAge != None
    && f.playerWeight != None
    && f.playerHeight != None
    && (f.previousInjuries == Some(Finite(0.0)) || f.previousInjuries == Some(Finite(1.0)))
    && f.trainingIntensity in Intensities
  }

  /**
   * The updater `prev => ({...prev, [field]: ...})` of `handleInputChange`:
   * the intensity takes the raw string, every other field the number
   * `toNumber(value)` (JavaScript's `Number`, supplied by the caller).
   */
  function SetField(prev: FormData, field: Field, value: string, toNumber: string -> Num): (next: FormData)
    ensures forall other :: other != field ==> Get(next, other) == Get(prev, other)
    ensures field == TrainingIntensity ==> Get(next, field) == Text(value)
    ensures field != TrainingIntensity ==> Get(next, field) == Numeric(Some(toNumber(value)))
  {
    match field
    case PlayerAge => prev.(playerAge := Some(toNumber(value)))
    case PlayerWeight => prev.(playerWeight := Some(toNumber(value)))
    case PlayerHeight => prev.(playerHeight := Some(toNumber(value)))
    case PreviousInjuries => prev.(previousInjuries := Some(toNumber(value)))
    case TrainingIntensity => prev.(trainingIntensity := value)
  }

  /**
   * The values the page's widgets can pass to `handleInputChange`: any text
   * from the three number inputs, "0" or "1" from the injuries select, and
   * one of the three intensities from the intensity select.
   */
  predicate WidgetValue(field: Field, value: string)
  {
    match field
    case PreviousInjuries => value == "0" || value == "1"
    case TrainingIntensity => value in Intensities
    case _ => true
  }

  /** What JavaScript's `Number` does on the two strings the injuries select offers. */
  predicate CoercesDigits(toNumber: string -> Num)
  {
    toNumber("0") == Finite(0.0) && toNumber("1") == Finite(1.0)
  }

  /**
   * A number field that has been edited is never `null` again, whatever
   * `Number` made of the text: a NaN from "abc", or the 0 that an emptied
   * input gives, counts as filled in.
   */
  lemma EditedNumberCountsAsPresent(prev: FormData, field: Field, value: string, toNumber: string -> Num)
    requires field != TrainingIntensity
    ensures Get(SetField(prev, field, value, toNumber), field).number.Some?
  {
  }

  /**
   * Whether the form is valid after a measurement is edited does not depend
   * on the text entered or on what `Number` made of it, NaN included.
   */
  lemma MeasurementValueIrrelevant(prev: FormData, field: Field, value: string, toNumber: string -> Num,
                                   value': string, toNumber': string -> Num)
    requires field == PlayerAge || field == PlayerWeight || field == PlayerHeight
    ensures IsFormValid(SetField(prev, field, value, toNumber)) <==> IsFormValid(SetField(prev, field, value', toNumber'))
  {
  }

  /**
   * Non-numeric text completes a form: a measurement edited to text that
   * `Number` turns into NaN, whatever it held before (`null` included),
   * makes the form valid when everything else is.
   */
  lemma NaNCompletesForm(prev: FormData, field: Field, value: string, toNumber: string -> Num)
    requires field == PlayerAge || field == PlayerWeight || field == PlayerHeight
    requires toNumber(value) == NaN
    requires (field == PlayerAge || prev.playerAge != None)
      && (field == PlayerWeight || prev.playerWeight != None)
      && (field == PlayerHeight || prev.playerHeight != None)
    requires prev.previousInjuries == Some(Finite(0.0)) || prev.previousInjuries == Some(Finite(1.0))
    requires prev.trainingIntensity in Intensities
    ensures Get(SetField(prev, field, value, toNumber), field) == Numeric(Some(NaN))
    ensures IsFormValid(SetField(prev, field, value, toNumber))
  {
  }

  /** An edit through one of the page's widgets never turns a valid form invalid. */
  lemma WidgetEditKeepsValid(prev: FormData, field: Field, value: string, toNumber: string -> Num)
    requires CoercesDigits(toNumber) && WidgetValue(field, value)
    requires IsFormValid(prev)
    ensures IsFormValid(SetField(prev, field, value, toNumber))
  {
  }

  /**
   * Along any sequence of widget edits, a valid form stays valid: once the
   * user has filled in the form through the page, it can never be rejected.
   */
  lemma {:induction false} WidgetEditsKeepValid(prev: FormData, edits: seq<(Field, string)>, toNumber: string -> Num)
    requires CoercesDigits(toNumber)
    requires forall i :: 0 <= i < |edits| ==> WidgetValue(edits[i].0, edits[i].1)
    requires IsFormValid(prev)
    ensures IsFormValid(ApplyEdits(prev, edits, toNumber))
    decreases |edits|
  {
    if edits != [] {
      WidgetEditKeepsValid(prev, edits[0].0, edits[0].1, toNumber);
      WidgetEditsKeepValid(SetField(prev, edits[0].0, edits[0].1, toNumber), edits[1..], toNumber);
    }
  }

  /** The form after a sequence of `handleInputChange` calls. */
  function ApplyEdits(f: FormData, edits: seq<(Field, string)>, toNumber: string -> Num): FormData
    decreases |edits|
  {
    if edits == [] then f
    else ApplyEdits(SetField(f, edits[0].0, edits[0].1, toNumber), edits[1..], toNumber)
  }
}
