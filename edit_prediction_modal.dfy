/**
  The dialog that edits a stored prediction: the same two inputs and rules as the property
  form, a price preview computed locally, and confirm/close buttons.
 */
module EditPredictionModal {
  import opened JsRuntime
  import opened Supabase
  import opened PropertyForm

  /** `validateEditSquareFootage`, a copy of the property form's rule: it gives the same
      message for every input. */
  function ValidateEditSquareFootage(js: JsNumbers, value: string): (r: Message)
    ensures r == ValidateSquareFootage(js, value)
  {
    var num := js.parseFloat(value);
    if Trim(value) == "" then SqftRequired
    else if num.None? || num.value <= 0.0 then SqftInvalid
    else if num.value > MaxSquareFootage then SqftTooLarge
    else NoError
  }

  /** `validateEditBedrooms`, a copy of the property form's rule: it gives the same message
      for every input. */
  function ValidateEditBedrooms(js: JsNumbers, value: string): (r: Message)
    ensures r == ValidateBedrooms(js, value)
  {
    var num := js.parseInt(value);
    if Trim(value) == "" then BedsRequired
    else if num.None? || num.value < 0 then BedsInvalid
    else if num.value > MaxBedrooms then BedsTooLarge
    else if !IsInteger(js.parseFloat(value)) then BedsNotWhole
    else NoError
  }

  /** `isEditFormValid`: the same test as the property form's submit button. */
  function EditFormValid(js: JsNumbers, sqft: string, beds: string, errs: FieldErrors): (ok: bool)
    ensures ok == FormValid(js, sqft, beds, errs)
    ensures ok ==> !AllWhitespace(sqft) && !AllWhitespace(beds)
    ensures ok ==> js.parseFloat(sqft).Some? && js.parseFloat(sqft).value > 0.0
    ensures ok ==> js.parseInt(beds).Some? && js.parseInt(beds).value >= 0
  {
    TrimEmptyIff(sqft);
    TrimEmptyIff(beds);
    && Trim(sqft) != ""
    && Trim(beds) != ""
    && errs.squareFootage == NoError
    && errs.bedrooms == NoError
    && js.parseFloat(sqft).Some?
    && js.parseInt(beds).Some?
    && js.parseFloat(sqft).value > 0.0
    && js.parseInt(beds).value >= 0
  }

  const BasePricePerSqft: real := 150.0
  const BedroomStep: real := 0.1
  const MarketFactor: real := 1.2
  const RoundingUnit: int := 1000

  /** `Math.round`: the nearest integer, halves rounded up (towards +infinity). */
  function Round(x: real): (n: int)
    ensures x - 0.5 < n as real <= x + 0.5
  {
    (x + 0.5).Floor
  }

  /** The unrounded estimate: 150 per square foot, 10% more per bedroom, a 1.2 market factor. */
  function RawPrice(sqft: real, beds: int): real {
    sqft * BasePricePerSqft * (1.0 + beds as real * BedroomStep) * MarketFactor
  }

  /** `calculateUpdatedPrice`: the estimate rounded to a whole number of thousands. The result
      is a multiple of 1000 lying in the half-open window (raw - 500, raw + 500]. */
  function CalculateUpdatedPrice(sqft: real, beds: int): (price: int)
    ensures price % RoundingUnit == 0
    ensures RawPrice(sqft, beds) - 500.0 < price as real <= RawPrice(sqft, beds) + 500.0
  {
    Round(RawPrice(sqft, beds) / RoundingUnit as real) * RoundingUnit
  }

  /** The window pins the price down: no other multiple of 1000 lies in it, so the preview
      is exactly "the multiple of 1000 nearest to the estimate, halves up". */
  lemma NearestThousandUnique(sqft: real, beds: int, k: int)
    requires k % RoundingUnit == 0
    requires RawPrice(sqft, beds) - 500.0 < k as real <= RawPrice(sqft, beds) + 500.0
    ensures k == CalculateUpdatedPrice(sqft, beds)
  {
    var p := CalculateUpdatedPrice(sqft, beds);
    var d := k - p;
    assert -1000 < d < 1000;
    assert d % 1000 == 0;
  }

  lemma FloorMonotone(x: real, y: real)
    requires x <= y
    ensures x.Floor <= y.Floor
  {
  }

  /** For a non-negative area and bedroom count the preview is never negative. */
  lemma PriceNonNegative(sqft: real, beds: int)
    requires sqft >= 0.0 && beds >= 0
    ensures CalculateUpdatedPrice(sqft, beds) >= 0
  {
    var m := 1.0 + beds as real * BedroomStep;
    assert m >= 1.0;
    assert sqft * BasePricePerSqft >= 0.0;
    assert sqft * BasePricePerSqft * m >= 0.0;
    assert RawPrice(sqft, beds) >= 0.0;
    FloorMonotone(0.5, RawPrice(sqft, beds) / 1000.0 + 0.5);
  }

  lemma ProductMonotone(a: real, b: real, c: real, d: real)
    requires 0.0 <= a <= b && 0.0 <= c <= d
    ensures a * c <= b * d
  {
    assert a * c <= b * c;
    assert b * c <= b * d;
  }

  /** More area or more bedrooms never lowers the preview. */
  lemma PriceMonotone(s1: real, b1: int, s2: real, b2: int)
    requires 0.0 <= s1 <= s2 && 0 <= b1 <= b2
    ensures CalculateUpdatedPrice(s1, b1) <= CalculateUpdatedPrice(s2, b2)
  {
    var m1 := 1.0 + b1 as real * BedroomStep;
    var m2 := 1.0 + b2 as real * BedroomStep;
    ProductMonotone(s1, s2, m1, m2);
    var u1, u2 := s1 * m1, s2 * m2;
    assert RawPrice(s1, b1) == 180.0 * u1;
    assert RawPrice(s2, b2) == 180.0 * u2;
    FloorMonotone(RawPrice(s1, b1) / 1000.0 + 0.5, RawPrice(s2, b2) / 1000.0 + 0.5);
  }

  /** Opening the dialog on a record whose numbers print and parse back faithfully (the
      bedroom count read back by `parseInt`, which truncates towards zero) gives a
      confirmable form exactly when the area is positive and the bedroom count is above -1:
      the initialisation clears the errors without validating, so neither the 50000 and 20
      bounds nor the whole-number rule apply until a field is edited, and a count such as
      -0.5 reads back as -0, which passes the `>= 0` test. */
  lemma InitialisedFormValidity(js: JsNumbers, p: Prediction)
    requires js.parseFloat(js.toString(p.squareFeet)) == Some(p.squareFeet)
    requires js.parseInt(js.toString(p.bedrooms)) == Some(Truncate(p.bedrooms))
    requires !AllWhitespace(js.toString(p.squareFeet)) && !AllWhitespace(js.toString(p.bedrooms))
    ensures EditFormValid(js, js.toString(p.squareFeet), js.toString(p.bedrooms), NoErrors)
            <==> p.squareFeet > 0.0 && p.bedrooms > -1.0
  {
    TrimEmptyIff(js.toString(p.squareFeet));
    TrimEmptyIff(js.toString(p.bedrooms));
    TruncateNonNegative(p.bedrooms);
  }

  /** The dialog's state. `onConfirm` and `onClose` are the parent's callbacks; confirming
      returns the pair handed to `onConfirm`. */
  class Modal {
    const js: JsNumbers
    var editSquareFootage: string
    var editBedrooms: string
    var editErrors: FieldErrors

    constructor (js: JsNumbers)
      ensures this.js == js
      ensures editSquareFootage == "" && editBedrooms == "" && editErrors == NoErrors
    {
      this.js := js;
      editSquareFootage := "";
      editBedrooms := "";
      editErrors := NoErrors;
    }

    /** The effect run when the `prediction` prop changes. */
    method OnPredictionChange(prediction: Option<Prediction>)
      modifies this
      ensures prediction.Some? ==>
        && editSquareFootage == js.toString(prediction.value.squareFeet)
        && editBedrooms == js.toString(prediction.value.bedrooms)
        && editErrors == NoErrors
      ensures prediction.None? ==>
        && editSquareFootage == old(editSquareFootage)
        && editBedrooms == old(editBedrooms)
        && editErrors == old(editErrors)
    {
      if prediction.Some? {
        editSquareFootage := js.toString(prediction.value.squareFeet);
        editBedrooms := js.toString(prediction.value.bedrooms);
        editErrors := NoErrors;
      }
    }

    method HandleEditSquareFootageChange(value: string)
      modifies this
      ensures editSquareFootage == value
      ensures editErrors == old(editErrors).(squareFootage := ValidateEditSquareFootage(js, value))
      ensures editBedrooms == old(editBedrooms)
    {
      editSquareFootage := value;
      editErrors := editErrors.(squareFootage := ValidateEditSquareFootage(js, value));
    }

    method HandleEditBedroomsChange(value: string)
      modifies this
      ensures editBedrooms == value
      ensures editErrors == old(editErrors).(bedrooms := ValidateEditBedrooms(js, value))
      ensures editSquareFootage == old(editSquareFootage)
    {
      editBedrooms := value;
      editErrors := editErrors.(bedrooms := ValidateEditBedrooms(js, value));
    }

    predicate IsEditFormValid()
      reads this
    {
      EditFormValid(js, editSquareFootage, editBedrooms, editErrors)
    }

    /** The "New Predicted Price" panel: shown only for a confirmable form, and then the
        estimate for the parsed inputs, a non-negative whole number of thousands. */
    function PricePreview(): (preview: Option<int>)
      reads this
      ensures preview.Some? <==> IsEditFormValid()
      ensures preview.Some? ==> preview.value % RoundingUnit == 0 && preview.value >= 0
      ensures preview.Some? ==>
        preview.value == CalculateUpdatedPrice(js.parseFloat(editSquareFootage).value, js.parseInt(editBedrooms).value)
    {
      if IsEditFormValid() then
        var sqft := js.parseFloat(editSquareFootage).value;
        var beds := js.parseInt(editBedrooms).value;
        PriceNonNegative(sqft, beds);
        Some(CalculateUpdatedPrice(sqft, beds))
      else
        None
    }

    /** Hands `(parseFloat, parseInt)` of the inputs to `onConfirm` exactly when the form is
        confirmable; otherwise does nothing. */
    method HandleConfirm() returns (confirmed: Option<PriceQuery>)
      ensures confirmed.Some? <==> IsEditFormValid()
      ensures confirmed.Some? ==>
        && js.parseFloat(editSquareFootage) == Some(confirmed.value.sqft)
        && js.parseInt(editBedrooms) == Some(confirmed.value.bedrooms)
        && confirmed.value.sqft > 0.0 && confirmed.value.bedrooms >= 0
    {
      confirmed := None;
      if IsEditFormValid() {
        var sqft := js.parseFloat(editSquareFootage).value;
        var beds := js.parseInt(editBedrooms).value;
        confirmed := Some(PriceQuery(sqft, beds));
      }
    }

    /** Clears both inputs and both errors; `onClose` is called afterwards. */
    method HandleClose()
      modifies this
      ensures editSquareFootage == "" && editBedrooms == "" && editErrors == NoErrors
      ensures !IsEditFormValid()
    {
      editSquareFootage := "";
      editBedrooms := "";
      editErrors := NoErrors;
    }
  }
}
