/**
  The property form: two text inputs (square footage, bedrooms) validated on every
  keystroke, a submit that asks the price endpoint for a prediction, and a reset.
 */
module PropertyForm {
  import opened JsRuntime

  const MaxSquareFootage: real := 50000.0
  const MaxBedrooms: int := 20

  /** The messages the validators can give. The component stores the message text;
      `Text` gives the words, and two messages have the same words only if they are equal. */
  datatype Message =
    | NoError
    | SqftRequired | SqftInvalid | SqftTooLarge
    | BedsRequired | BedsInvalid | BedsTooLarge | BedsNotWhole
  {
    function Text(): string {
      match this
      case NoError => ""
      case SqftRequired => "Square footage is required"
      case SqftInvalid => "Please enter a valid square footage"
      case SqftTooLarge => "Square footage seems too large"
      case BedsRequired => "Number of bedrooms is required"
      case BedsInvalid => "Please enter a valid number of bedrooms"
      case BedsTooLarge => "Number of bedrooms seems too large"
      case BedsNotWhole => "Bedrooms must be a whole number"
    }
  }

  /** Storing a `Message` loses nothing against storing its text: only `NoError` is the empty
      (falsy) string, and distinct messages have distinct words. */
  lemma TextInjective(m: Message, n: Message)
    ensures m.Text() == "" <==> m == NoError
    ensures m.Text() == n.Text() ==> m == n
  {
  }

  /** The per-field error messages. */
  datatype FieldErrors = FieldErrors(squareFootage: Message, bedrooms: Message)

  const NoErrors := FieldErrors(NoError, NoError)

  /** The two numbers a valid form hands on: `parseFloat` of the area, `parseInt` of the bedrooms. */
  datatype PriceQuery = PriceQuery(sqft: real, bedrooms: int)

  predicate SqftAccepted(x: Option<real>) {
    x.Some? && 0.0 < x.value <= MaxSquareFootage
  }

  predicate BedsAccepted(n: Option<int>) {
    n.Some? && 0 <= n.value <= MaxBedrooms
  }

  /** `validateSquareFootage`: the first failing rule gives the message. */
  function ValidateSquareFootage(js: JsNumbers, value: string): Message {
    var num := js.parseFloat(value);
    if Trim(value) == "" then SqftRequired
    else if num.None? || num.value <= 0.0 then SqftInvalid
    else if num.value > MaxSquareFootage then SqftTooLarge
    else NoError
  }

  /** Which message each input gets: blank input is "required" whatever it parses to;
      otherwise not a positive number, then above the bound; otherwise no error. */
  lemma SquareFootageVerdicts(js: JsNumbers, value: string)
    ensures var r := ValidateSquareFootage(js, value);
      && r in {SqftRequired, SqftInvalid, SqftTooLarge, NoError}
      && (r == SqftRequired <==> AllWhitespace(value))
      && (r == SqftInvalid <==>
            !AllWhitespace(value) && (js.parseFloat(value).None? || js.parseFloat(value).value <= 0.0))
      && (r == SqftTooLarge <==>
            !AllWhitespace(value) && js.parseFloat(value).Some? && js.parseFloat(value).value > MaxSquareFootage)
      && (r == NoError <==> !AllWhitespace(value) && SqftAccepted(js.parseFloat(value)))
  {
    TrimEmptyIff(value);
  }

  /** `validateBedrooms`: the first failing rule gives the message. */
  function ValidateBedrooms(js: JsNumbers, value: string): Message {
    var num := js.parseInt(value);
    if Trim(value) == "" then BedsRequired
    else if num.None? || num.value < 0 then BedsInvalid
    else if num.value > MaxBedrooms then BedsTooLarge
    else if !IsInteger(js.parseFloat(value)) then BedsNotWhole
    else NoError
  }

  /** Which message each input gets: blank, then `parseInt` not a count, then above the
      bound, then `parseFloat` not whole; an input passing all four gets no error. */
  lemma BedroomsVerdicts(js: JsNumbers, value: string)
    ensures var r := ValidateBedrooms(js, value);
      && r in {BedsRequired, BedsInvalid, BedsTooLarge, BedsNotWhole, NoError}
      && (r == BedsRequired <==> AllWhitespace(value))
      && (r == BedsInvalid <==>
            !AllWhitespace(value) && (js.parseInt(value).None? || js.parseInt(value).value < 0))
      && (r == BedsTooLarge <==>
            !AllWhitespace(value) && js.parseInt(value).Some? && js.parseInt(value).value > MaxBedrooms)
      && (r == BedsNotWhole <==>
            !AllWhitespace(value) && BedsAccepted(js.parseInt(value)) && !IsInteger(js.parseFloat(value)))
      && (r == NoError <==>
            !AllWhitespace(value) && BedsAccepted(js.parseInt(value)) && IsInteger(js.parseFloat(value)))
  {
    TrimEmptyIff(value);
  }

  /** Whether the submit button is enabled for these inputs and stored error messages. */
  function FormValid(js: JsNumbers, sqft: string, beds: string, errs: FieldErrors): (ok: bool)
    ensures ok ==> Trim(sqft) != "" && Trim(beds) != ""
    ensures ok ==> errs == NoErrors
    ensures ok ==> js.parseFloat(sqft).Some? && js.parseFloat(sqft).value > 0.0
    ensures ok ==> js.parseInt(beds).Some? && js.parseInt(beds).value >= 0
  {
    && Trim(sqft) != ""
    && Trim(beds) != ""
    && errs.squareFootage == NoError
    && errs.bedrooms == NoError
    && js.parseFloat(sqft).Some?
    && js.parseInt(beds).Some?
    && js.parseFloat(sqft).value > 0.0
    && js.parseInt(beds).value >= 0
  }

  /** A stored error is the validator's verdict on the current text, or still the initial
      empty message while the field has never been typed into (or has been reset). */
  predicate ErrorTracks(text: string, err: Message, verdict: Message) {
    err == verdict || (text == "" && err == NoError)
  }

  predicate ErrorsTrack(js: JsNumbers, sqft: string, beds: string, errs: FieldErrors) {
    && ErrorTracks(sqft, errs.squareFootage, ValidateSquareFootage(js, sqft))
    && ErrorTracks(beds, errs.bedrooms, ValidateBedrooms(js, beds))
  }

  /** While the stored errors track the inputs, the form is submittable exactly when both
      validators accept their field. */
  lemma FormValidIffAccepted(js: JsNumbers, sqft: string, beds: string, errs: FieldErrors)
    requires ErrorsTrack(js, sqft, beds, errs)
    ensures FormValid(js, sqft, beds, errs) <==>
      ValidateSquareFootage(js, sqft) == NoError && ValidateBedrooms(js, beds) == NoError
  {
    SquareFootageVerdicts(js, sqft);
    BedroomsVerdicts(js, beds);
    TrimEmptyIff(sqft);
    TrimEmptyIff(beds);
  }

  /** The query the form sends, if it is submittable. */
  function Submission(js: JsNumbers, sqft: string, beds: string, errs: FieldErrors): (q: Option<PriceQuery>)
    ensures q.Some? <==> FormValid(js, sqft, beds, errs)
    ensures q.Some? ==>
      js.parseFloat(sqft) == Some(q.value.sqft) && js.parseInt(beds) == Some(q.value.bedrooms)
    ensures q.Some? ==> q.value.sqft > 0.0 && q.value.bedrooms >= 0
  {
    if FormValid(js, sqft, beds, errs) then
      Some(PriceQuery(js.parseFloat(sqft).value, js.parseInt(beds).value))
    else
      None
  }

  /** What a tracking form sends is inside both bounds: at most 50000 square feet and at
      most 20 bedrooms, with `parseFloat` of the bedroom text a whole number. */
  lemma SubmissionWithinBounds(js: JsNumbers, sqft: string, beds: string, errs: FieldErrors)
    requires ErrorsTrack(js, sqft, beds, errs)
    requires Submission(js, sqft, beds, errs).Some?
    ensures var q := Submission(js, sqft, beds, errs).value;
      && 0.0 < q.sqft <= MaxSquareFootage
      && 0 <= q.bedrooms <= MaxBedrooms
      && IsInteger(js.parseFloat(beds))
  {
    FormValidIffAccepted(js, sqft, beds, errs);
    SquareFootageVerdicts(js, sqft);
    BedroomsVerdicts(js, beds);
  }

  /** The component's state. `predict` (the request to the price endpoint) is outside the
      model: its settled value, `null` on any failure, is an argument of `HandleSubmit`. */
  class Form {
    const js: JsNumbers
    var squareFootage: string
    var bedrooms: string
    var errors: FieldErrors
    var isSubmitted: bool
    var predictedPrice: real

    ghost predicate Valid()
      reads this
    {
      ErrorsTrack(js, squareFootage, bedrooms, errors)
    }

    predicate IsFormValid()
      reads this
    {
      FormValid(js, squareFootage, bedrooms, errors)
    }

    constructor (js: JsNumbers)
      ensures Valid() && this.js == js
      ensures squareFootage == "" && bedrooms == "" && errors == NoErrors
      ensures !isSubmitted && predictedPrice == 0.0
      ensures !IsFormValid()
    {
      this.js := js;
      squareFootage := "";
      bedrooms := "";
      errors := NoErrors;
      isSubmitted := false;
      predictedPrice := 0.0;
    }

    method HandleSquareFootageChange(value: string)
      requires Valid()
      modifies this
      ensures Valid()
      ensures squareFootage == value
      ensures errors == old(errors).(squareFootage := ValidateSquareFootage(js, value))
      ensures bedrooms == old(bedrooms)
      ensures isSubmitted == old(isSubmitted) && predictedPrice == old(predictedPrice)
    {
      squareFootage := value;
      errors := errors.(squareFootage := ValidateSquareFootage(js, value));
    }

    method HandleBedroomsChange(value: string)
      requires Valid()
      modifies this
      ensures Valid()
      ensures bedrooms == value
      ensures errors == old(errors).(bedrooms := ValidateBedrooms(js, value))
      ensures squareFootage == old(squareFootage)
      ensures isSubmitted == old(isSubmitted) && predictedPrice == old(predictedPrice)
    {
      bedrooms := value;
      errors := errors.(bedrooms := ValidateBedrooms(js, value));
    }

    /** Sends nothing when the form is not submittable; otherwise sends the parsed pair, which
        is then within both bounds, and records the answer only when one came back. */
    method HandleSubmit(response: Option<real>) returns (sent: Option<PriceQuery>)
      requires Valid()
      modifies this
      ensures Valid()
      ensures sent == Submission(js, squareFootage, bedrooms, errors)
      ensures sent.None? <==> !old(IsFormValid())
      ensures sent.Some? ==> 0.0 < sent.value.sqft <= MaxSquareFootage
      ensures sent.Some? ==> 0 <= sent.value.bedrooms <= MaxBedrooms
      ensures squareFootage == old(squareFootage) && bedrooms == old(bedrooms)
      ensures errors == old(errors)
      ensures if sent.Some? && response.Some? then isSubmitted && predictedPrice == response.value
              else isSubmitted == old(isSubmitted) && predictedPrice == old(predictedPrice)
    {
      sent := Submission(js, squareFootage, bedrooms, errors);
      if sent.Some? {
        SubmissionWithinBounds(js, squareFootage, bedrooms, errors);
      }
      if sent.None? {
        return;
      }
      if response.Some? {
        predictedPrice := response.value;
        isSubmitted := true;
      }
    }

    /** "Calculate Another Property". */
    method Reset()
      requires Valid()
      modifies this
      ensures Valid()
      ensures squareFootage == "" && bedrooms == "" && errors == NoErrors
      ensures !isSubmitted && predictedPrice == old(predictedPrice)
      ensures !IsFormValid()
    {
      isSubmitted := false;
      squareFootage := "";
      bedrooms := "";
      errors := NoErrors;
    }
  }
}
