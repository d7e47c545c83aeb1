/**
 * The create/edit investment form: the text of its fields, the validation
 * that fills an error dictionary field by field, the payload sent when the
 * form is accepted, and the input handler that clears a field's error.
 * `parseFloat` is a parameter: `None` stands for NaN, which compares false
 * with every number.
 */
module InvestmentForm {
  import opened Common
  import opened Text

  /** The stored investment the form edits (the fields the form reads). */
  datatype Investment = Investment(
    name: string,
    category: string,
    initialAmount: Option<real>,
    currentBalance: Option<real>,
    startDate: string,
    returnRate: Option<real>,
    status: string,
    description: Option<string>)

  /** `formData`: every field is the text of an input. */
  datatype FormData = FormData(
    name: string,
    category: string,
    initialAmount: string,
    currentBalance: string,
    startDate: string,
    returnRate: string,
    status: string,
    description: string)

  /** The fields `handleInputChange` is called with. */
  datatype Field = Name | Category | InitialAmount | CurrentBalance | StartDate | ReturnRate | Status | Description

  /** `formData[field]`. */
  function FieldText(form: FormData, f: Field): string
  {
    match f
    case Name => form.name
    case Category => form.category
    case InitialAmount => form.initialAmount
    case CurrentBalance => form.currentBalance
    case StartDate => form.startDate
    case ReturnRate => form.returnRate
    case Status => form.status
    case Description => form.description
  }

  /** `{...prev, [field]: value}`. */
  function WithField(form: FormData, f: Field, value: string): (r: FormData)
    ensures FieldText(r, f) == value
    ensures forall g :: g != f ==> FieldText(r, g) == FieldText(form, g)
  {
    match f
    case Name => form.(name := value)
    case Category => form.(category := value)
    case InitialAmount => form.(initialAmount := value)
    case CurrentBalance => form.(currentBalance := value)
    case StartDate => form.(startDate := value)
    case ReturnRate => form.(returnRate := value)
    case Status => form.(status := value)
    case Description => form.(description := value)
  }

  /** The initial `formData`: empty when creating, the stored values when editing. */
  function InitialFormData(investment: Option<Investment>, show: real -> string): (form: FormData)
    ensures investment.None? ==> form == FormData("", "", "", "", "", "", "ACTIVE", "")
    ensures investment.Some? ==> var inv := investment.value;
      && form.name == inv.name && form.category == inv.category
      && form.initialAmount == NumberText(inv.initialAmount, show)
      && form.currentBalance == NumberText(inv.currentBalance, show)
      && form.returnRate == NumberText(inv.returnRate, show)
      && form.startDate == BeforeT(inv.startDate)
      && (inv.status != "" ==> form.status == inv.status)
      && (inv.status == "" ==> form.status == "ACTIVE")
      && (inv.description.None? ==> form.description == "")
      && (inv.description.Some? ==> form.description == inv.description.value)
    ensures 'T' !in form.startDate && form.status != ""
  {
    if investment.None? then FormData("", "", "", "", "", "", "ACTIVE", "")
    else
      var inv := investment.value;
      FormData(
        OrElse(Some(inv.name), ""),
        OrElse(Some(inv.category), ""),
        NumberText(inv.initialAmount, show),
        NumberText(inv.currentBalance, show),
        if inv.startDate != "" then BeforeT(inv.startDate) else "",
        NumberText(inv.returnRate, show),
        OrElse(Some(inv.status), "ACTIVE"),
        OrElse(inv.description, ""))
  }

  /**
   * A value of the error dictionary: one of the messages `validateForm`
   * stores, or the empty string `handleInputChange` puts in its place.
   */
  datatype Message =
    | NameRequired | CategoryRequired | InitialAmountPositive
    | CurrentBalancePositive | StartDateRequired | ReturnRateNonNegative
    | Cleared

  /** The text shown for a dictionary value; only a cleared entry is falsy. */
  function Shown(m: Message): (t: string)
    ensures t == "" <==> m == Cleared
  {
    match m
    case NameRequired => "Investment name is required"
    case CategoryRequired => "Investment category is required"
    case InitialAmountPositive => "Initial amount must be greater than 0"
    case CurrentBalancePositive => "Current balance must be greater than 0"
    case StartDateRequired => "Start date is required"
    case ReturnRateNonNegative => "Return rate must be 0 or greater"
    case Cleared => ""
  }

  /** `!text || parseFloat(text) <= 0`: an unparsable text is not caught. */
  predicate NotPositive(text: string, parse: string -> Option<real>)
  {
    text == "" || (parse(text).Some? && parse(text).value <= 0.0)
  }

  /** `!text || parseFloat(text) < 0`. */
  predicate Negative(text: string, parse: string -> Option<real>)
  {
    text == "" || (parse(text).Some? && parse(text).value < 0.0)
  }

  /**
   * `errors` is the dictionary `validateForm` builds for `form`: each rule
   * sets its own key exactly when it fails, with its own message, and no
   * other key is set.
   */
  predicate ErrorsFor(form: FormData, isEditMode: bool, parse: string -> Option<real>, errors: map<Field, Message>)
  {
    && (Name in errors <==> AllWhite(form.name))
    && (Category in errors <==> form.category == "")
    && (InitialAmount in errors <==> NotPositive(form.initialAmount, parse))
    && (CurrentBalance in errors <==> isEditMode && NotPositive(form.currentBalance, parse))
    && (StartDate in errors <==> form.startDate == "")
    && (ReturnRate in errors <==> Negative(form.returnRate, parse))
    && Status !in errors && Description !in errors
    && (Name in errors ==> errors[Name] == NameRequired)
    && (Category in errors ==> errors[Category] == CategoryRequired)
    && (InitialAmount in errors ==> errors[InitialAmount] == InitialAmountPositive)
    && (CurrentBalance in errors ==> errors[CurrentBalance] == CurrentBalancePositive)
    && (StartDate in errors ==> errors[StartDate] == StartDateRequired)
    && (ReturnRate in errors ==> errors[ReturnRate] == ReturnRateNonNegative)
  }

  /** The form passes every rule. */
  predicate Acceptable(form: FormData, isEditMode: bool, parse: string -> Option<real>)
  {
    && !AllWhite(form.name)
    && form.category != ""
    && !NotPositive(form.initialAmount, parse)
    && !(isEditMode && NotPositive(form.currentBalance, parse))
    && form.startDate != ""
    && !Negative(form.returnRate, parse)
  }

  /** `validateForm` without the `setErrors` call: the dictionary and whether it is empty. */
  method Validate(form: FormData, isEditMode: bool, parse: string -> Option<real>)
    returns (errors: map<Field, Message>, ok: bool)
    ensures ErrorsFor(form, isEditMode, parse, errors)
    ensures ok <==> errors == map[]
  {
    errors := map[];
    if AllWhite(form.name) {
      errors := errors[Name := NameRequired];
    }
    if form.category == "" {
      errors := errors[Category := CategoryRequired];
    }
    if NotPositive(form.initialAmount, parse) {
      errors := errors[InitialAmount := InitialAmountPositive];
    }
    if isEditMode && NotPositive(form.currentBalance, parse) {
      errors := errors[CurrentBalance := CurrentBalancePositive];
    }
    if form.startDate == "" {
      errors := errors[StartDate := StartDateRequired];
    }
    if Negative(form.returnRate, parse) {
      errors := errors[ReturnRate := ReturnRateNonNegative];
    }
    ok := errors.Keys == {};
  }

  /** The dictionary is determined by the form: two dictionaries that both fit it are equal. */
  lemma ErrorsForUnique(form: FormData, isEditMode: bool, parse: string -> Option<real>, e1: map<Field, Message>, e2: map<Field, Message>)
    requires ErrorsFor(form, isEditMode, parse, e1) && ErrorsFor(form, isEditMode, parse, e2)
    ensures e1 == e2
  {
    forall k ensures k in e1 <==> k in e2 {
      match k
      case Name => case Category => case InitialAmount => case CurrentBalance =>
      case StartDate => case ReturnRate => case Status => case Description =>
    }
    forall k | k in e1 ensures e1[k] == e2[k] {
      match k
      case Name => case Category => case InitialAmount => case CurrentBalance =>
      case StartDate => case ReturnRate => case Status => case Description =>
    }
    assert e1.Keys == e2.Keys;
  }

  /** The dictionary is empty exactly when the form passes every rule. */
  lemma NoErrorsIffAcceptable(form: FormData, isEditMode: bool, parse: string -> Option<real>, errors: map<Field, Message>)
    requires ErrorsFor(form, isEditMode, parse, errors)
    ensures errors == map[] <==> Acceptable(form, isEditMode, parse)
  {
    if errors != map[] {
      var k :| k in errors;
      match k
      case Name => case Category => case InitialAmount => case CurrentBalance =>
      case StartDate => case ReturnRate => case Status => case Description =>
    }
  }

  /** Zero is refused as an amount but accepted as a return rate; a text `parseFloat` cannot read passes both. */
  lemma ZeroAndUnparsable(text: string, parse: string -> Option<real>)
    requires text != ""
    ensures parse(text) == Some(0.0) ==> NotPositive(text, parse) && !Negative(text, parse)
    ensures parse(text).None? ==> !NotPositive(text, parse) && !Negative(text, parse)
  {
  }

  /** The update-only part of the payload. */
  datatype UpdateFields = UpdateFields(currentBalance: Option<real>, status: string)

  /** `submitData`, with the extra fields of an update; `None` amounts are NaN. */
  datatype Payload = Payload(
    name: string,
    category: string,
    initialAmount: Option<real>,
    startDate: string,
    returnRate: Option<real>,
    returnType: string,
    description: Option<string>,
    update: Option<UpdateFields>)

  /** `formData.description.trim() || undefined`. */
  function TrimmedOrAbsent(s: string): (r: Option<string>)
    ensures r.None? <==> AllWhite(s)
    ensures r.Some? ==> r.value == Trim(s)
  {
    BlankIffTrimEmpty(s);
    if Trim(s) == "" then None else Some(Trim(s))
  }

  /** The payload `handleSubmit` sends once the form is accepted. */
  function SubmitData(form: FormData, isEditMode: bool, parse: string -> Option<real>): (p: Payload)
    ensures p.name == Trim(form.name) && p.description == TrimmedOrAbsent(form.description)
    ensures p.returnType == "FIXED"
    ensures p.update.Some? <==> isEditMode
    ensures p.category == form.category && p.startDate == form.startDate
    ensures p.initialAmount == parse(form.initialAmount) && p.returnRate == parse(form.returnRate)
    ensures p.update.Some? ==> p.update.value == UpdateFields(parse(form.currentBalance), form.status)
  {
    Payload(
      Trim(form.name),
      form.category,
      parse(form.initialAmount),
      form.startDate,
      parse(form.returnRate),
      "FIXED",
      TrimmedOrAbsent(form.description),
      if isEditMode then Some(UpdateFields(parse(form.currentBalance), form.status)) else None)
  }

  /** The name and the description are sent without surrounding white space; a blank description is left out. */
  lemma PayloadTrimmed(form: FormData, isEditMode: bool, parse: string -> Option<real>)
    ensures var p := SubmitData(form, isEditMode, parse);
      && (p.name == "" <==> AllWhite(form.name))
      && (p.name != "" ==> !IsWhite(p.name[0]) && !IsWhite(p.name[|p.name| - 1]))
      && (p.description.None? <==> AllWhite(form.description))
      && (p.description.Some? ==> var d := p.description.value;
            d != "" && !IsWhite(d[0]) && !IsWhite(d[|d| - 1]))
  {
    BlankIffTrimEmpty(form.name);
    BlankIffTrimEmpty(form.description);
    TrimEnds(form.name);
    TrimEnds(form.description);
  }

  /** A payload built from an accepted form has a name and amounts that are positive or NaN. */
  lemma AcceptedPayload(form: FormData, isEditMode: bool, parse: string -> Option<real>)
    requires Acceptable(form, isEditMode, parse)
    ensures var p := SubmitData(form, isEditMode, parse);
      && p.name != ""
      && (p.initialAmount.Some? ==> p.initialAmount.value > 0.0)
      && (p.returnRate.Some? ==> p.returnRate.value >= 0.0)
      && (p.update.Some? && p.update.value.currentBalance.Some? ==> p.update.value.currentBalance.value > 0.0)
  {
    BlankIffTrimEmpty(form.name);
  }

  /** The form's state: the field texts and the error dictionary. */
  class Form {
    const isEditMode: bool
    var formData: FormData
    var errors: map<Field, Message>

    constructor (investment: Option<Investment>, show: real -> string)
      ensures isEditMode <==> investment.Some?
      ensures formData == InitialFormData(investment, show)
      ensures errors == map[]
    {
      isEditMode := investment.Some?;
      formData := InitialFormData(investment, show);
      errors := map[];
    }

    /** `validateForm`: stores the dictionary and says whether it is empty. */
    method ValidateForm(parse: string -> Option<real>) returns (ok: bool)
      modifies this
      ensures formData == old(formData)
      ensures ErrorsFor(formData, isEditMode, parse, errors)
      ensures ok <==> errors == map[]
    {
      var newErrors;
      newErrors, ok := Validate(formData, isEditMode, parse);
      errors := newErrors;
    }

    /** `handleSubmit` up to the service call: the payload, or `None` when validation fails. */
    method Submit(parse: string -> Option<real>) returns (payload: Option<Payload>)
      modifies this
      ensures formData == old(formData)
      ensures ErrorsFor(formData, isEditMode, parse, errors)
      ensures payload.Some? <==> errors == map[]
      ensures payload.Some? ==> payload.value == SubmitData(formData, isEditMode, parse)
    {
      var ok := ValidateForm(parse);
      if !ok {
        return None;
      }
      payload := Some(SubmitData(formData, isEditMode, parse));
    }

    /** `handleInputChange(field, value)`: sets the field and empties its error, if it had one. */
    method HandleInputChange(f: Field, value: string)
      modifies this
      ensures formData == WithField(old(formData), f, value)
      ensures errors == ClearError(old(errors), f, Cleared)
    {
      formData := WithField(formData, f, value);
      errors := ClearError(errors, f, Cleared);
    }
  }
}
