/**
 * The create/edit transaction form: its initial field texts, the validation
 * that fills an error dictionary field by field (including the rule that a
 * transaction may not be dated in the future), the payload it submits, the
 * input handler, and the currency of the selected investment.
 *
 * Times are integers. A date string `YYYY-MM-DD` is given to the model by
 * `parseDay` as the number of its day since 1970-01-01; `new Date` reads such
 * a string as midnight UTC of that day, and `None` stands for an Invalid
 * Date, which compares false. The clock is `nowMs` (milliseconds since the
 * epoch, UTC) and the browser's time zone is `offsetMs`, local time minus
 * UTC, taken as fixed over the day.
 */
module TransactionForm {
  import opened Common
  import opened Text

  /** Milliseconds in a day. */
  const DayMs: int := 86400000

  /** The stored transaction the form edits (the fields the form reads). */
  datatype Transaction = Transaction(
    investmentId: string,
    txType: string,
    amount: Option<real>,
    description: string,
    date: string)

  /** `formData`: every field is the text of an input. */
  datatype FormData = FormData(
    investmentId: string,
    txType: string,
    amount: string,
    description: string,
    date: string)

  /** The fields `handleInputChange` is called with. */
  datatype Field = InvestmentId | Type | Amount | Description | Date

  /** `formData[field]`. */
  function FieldText(form: FormData, f: Field): string
  {
    match f
    case InvestmentId => form.investmentId
    case Type => form.txType
    case Amount => form.amount
    case Description => form.description
    case Date => form.date
  }

  /** `{...prev, [field]: value}`. */
  function WithField(form: FormData, f: Field, value: string): (r: FormData)
    ensures FieldText(r, f) == value
    ensures forall g :: g != f ==> FieldText(r, g) == FieldText(form, g)
  {
    match f
    case InvestmentId => form.(investmentId := value)
    case Type => form.(txType := value)
    case Amount => form.(amount := value)
    case Description => form.(description := value)
    case Date => form.(date := value)
  }

  /**
   * The initial `formData`. `nowIso` is `new Date().toISOString()`, so a new
   * transaction is dated with today's date in UTC.
   */
  function InitialFormData(transaction: Option<Transaction>, show: real -> string, nowIso: string): (form: FormData)
    ensures transaction.None? ==> form == FormData("", "DEPOSIT", "", "", BeforeT(nowIso))
    ensures transaction.Some? ==> var tx := transaction.value;
      && form.investmentId == tx.investmentId
      && form.txType == (if tx.txType == "" then "DEPOSIT" else tx.txType)
      && form.amount == NumberText(tx.amount, show)
      && form.description == tx.description
      && form.date == (if tx.date == "" then BeforeT(nowIso) else BeforeT(tx.date))
    ensures form.txType != "" && 'T' !in form.date
  {
    if transaction.None? then FormData("", "DEPOSIT", "", "", BeforeT(nowIso))
    else
      var tx := transaction.value;
      FormData(
        OrElse(Some(tx.investmentId), ""),
        OrElse(Some(tx.txType), "DEPOSIT"),
        NumberText(tx.amount, show),
        OrElse(Some(tx.description), ""),
        if tx.date != "" then BeforeT(tx.date) else BeforeT(nowIso))
  }

  /**
   * A value of the error dictionary: one of the messages `validateForm`
   * stores, or the empty string `handleInputChange` puts in its place.
   */
  datatype Message =
    | InvestmentRequired | TypeRequired | AmountPositive
    | DateRequired | DateInFuture | DescriptionRequired
    | Cleared

  /** The text shown for a dictionary value; only a cleared entry is falsy. */
  function Shown(m: Message): (t: string)
    ensures t == "" <==> m == Cleared
  {
    match m
    case InvestmentRequired => "Investment is required"
    case TypeRequired => "Transaction type is required"
    case AmountPositive => "Amount must be greater than 0"
    case DateRequired => "Transaction date is required"
    case DateInFuture => "Transaction date cannot be in the future"
    case DescriptionRequired => "Description is required"
    case Cleared => ""
  }

  /** `!text || parseFloat(text) <= 0`: an unparsable text is not caught. */
  predicate NotPositive(text: string, parse: string -> Option<real>)
  {
    text == "" || (parse(text).Some? && parse(text).value <= 0.0)
  }

  /** The local calendar day at `nowMs`. */
  function LocalDay(nowMs: int, offsetMs: int): (day: int)
    ensures day * DayMs <= nowMs + offsetMs < (day + 1) * DayMs
  {
    (nowMs + offsetMs) / DayMs
  }

  /** The date lies after the given local day; an Invalid Date never does. */
  predicate IsFutureDay(day: Option<int>, today: int)
  {
    day.Some? && day.value > today
  }

  /**
   * `errors` is the dictionary `validateForm` builds for `form` on local day
   * `today`: each rule sets its own key exactly when it fails, the date key
   * holds one of its two messages, and no other key is set.
   */
  predicate ErrorsFor(form: FormData, parse: string -> Option<real>, parseDay: string -> Option<int>,
                      today: int, errors: map<Field, Message>)
  {
    && (InvestmentId in errors <==> form.investmentId == "")
    && (Type in errors <==> form.txType == "")
    && (Amount in errors <==> NotPositive(form.amount, parse))
    && (Date in errors <==> form.date == "" || IsFutureDay(parseDay(form.date), today))
    && (Description in errors <==> AllWhite(form.description))
    && (InvestmentId in errors ==> errors[InvestmentId] == InvestmentRequired)
    && (Type in errors ==> errors[Type] == TypeRequired)
    && (Amount in errors ==> errors[Amount] == AmountPositive)
    && (Date in errors ==> errors[Date] == if form.date == "" then DateRequired else DateInFuture)
    && (Description in errors ==> errors[Description] == DescriptionRequired)
  }

  /** The form passes every rule. */
  predicate Acceptable(form: FormData, parse: string -> Option<real>, parseDay: string -> Option<int>, today: int)
  {
    && form.investmentId != ""
    && form.txType != ""
    && !NotPositive(form.amount, parse)
    && form.date != "" && !IsFutureDay(parseDay(form.date), today)
    && !AllWhite(form.description)
  }

  /**
   * `validateForm` without the `setErrors` call, with the future-date rule
   * as corrected: the date is compared with the local day `today`.
   */
  method Validate(form: FormData, parse: string -> Option<real>, parseDay: string -> Option<int>, today: int)
    returns (errors: map<Field, Message>, ok: bool)
    ensures ErrorsFor(form, parse, parseDay, today, errors)
    ensures ok <==> errors == map[]
  {
    errors := map[];
    if form.investmentId == "" {
      errors := errors[InvestmentId := InvestmentRequired];
    }
    if form.txType == "" {
      errors := errors[Type := TypeRequired];
    }
    if NotPositive(form.amount, parse) {
      errors := errors[Amount := AmountPositive];
    }
    if form.date == "" {
      errors := errors[Date := DateRequired];
    } else {
      var transactionDay := parseDay(form.date);
      if IsFutureDay(transactionDay, today) {
        errors := errors[Date := DateInFuture];
      }
    }
    if AllWhite(form.description) {
      errors := errors[Description := DescriptionRequired];
    }
    ok := errors.Keys == {};
  }

  /** The dictionary is determined by the form and the day: two dictionaries that both fit them are equal. */
  lemma ErrorsForUnique(form: FormData, parse: string -> Option<real>, parseDay: string -> Option<int>, today: int,
                        e1: map<Field, Message>, e2: map<Field, Message>)
    requires ErrorsFor(form, parse, parseDay, today, e1) && ErrorsFor(form, parse, parseDay, today, e2)
    ensures e1 == e2
  {
    forall k ensures k in e1 <==> k in e2 {
      match k
      case InvestmentId => case Type => case Amount => case Date => case Description =>
    }
    forall k | k in e1 ensures e1[k] == e2[k] {
      match k
      case InvestmentId => case Type => case Amount => case Date => case Description =>
    }
    assert e1.Keys == e2.Keys;
  }

  /** The dictionary is empty exactly when the form passes every rule. */
  lemma NoErrorsIffAcceptable(form: FormData, parse: string -> Option<real>, parseDay: string -> Option<int>,
                              today: int, errors: map<Field, Message>)
    requires ErrorsFor(form, parse, parseDay, today, errors)
    ensures errors == map[] <==> Acceptable(form, parse, parseDay, today)
  {
    if errors != map[] {
      var k :| k in errors;
      match k
      case InvestmentId => case Type => case Amount => case Date => case Description =>
    }
  }

  /** Today's date is accepted, as is an earlier one; a later one is refused with the future-date message. */
  lemma DateRuleAroundToday(form: FormData, parse: string -> Option<real>, parseDay: string -> Option<int>,
                            today: int, errors: map<Field, Message>)
    requires ErrorsFor(form, parse, parseDay, today, errors)
    requires form.date != "" && parseDay(form.date).Some?
    ensures parseDay(form.date).value <= today ==> Date !in errors
    ensures parseDay(form.date).value > today ==> Date in errors && errors[Date] == DateInFuture
  {
  }

  /** `new Date(date) > today` after `today.setHours(23, 59, 59, 999)`, as written: UTC midnight against the local end of day. */
  predicate FutureAsWritten(day: Option<int>, nowMs: int, offsetMs: int)
  {
    day.Some? && day.value * DayMs > (LocalDay(nowMs, offsetMs) + 1) * DayMs - 1 - offsetMs
  }

  /** East of UTC (or at UTC) the rule as written agrees with the local-day rule. */
  lemma AsWrittenAgreesEastOfUtc(day: Option<int>, nowMs: int, offsetMs: int)
    requires 0 <= offsetMs < DayMs
    ensures FutureAsWritten(day, nowMs, offsetMs) <==> IsFutureDay(day, LocalDay(nowMs, offsetMs))
  {
    if day.Some? {
      var today := LocalDay(nowMs, offsetMs);
      if day.value > today {
        assert day.value * DayMs >= (today + 1) * DayMs;
      } else {
        assert day.value * DayMs <= today * DayMs;
      }
    }
  }

  /** West of UTC the rule as written accepts one day too many: tomorrow's local date passes. */
  lemma AsWrittenAcceptsTomorrowWestOfUtc(day: Option<int>, nowMs: int, offsetMs: int)
    requires -DayMs < offsetMs < 0
    ensures FutureAsWritten(day, nowMs, offsetMs) <==> IsFutureDay(day, LocalDay(nowMs, offsetMs) + 1)
    ensures !FutureAsWritten(Some(LocalDay(nowMs, offsetMs) + 1), nowMs, offsetMs)
    ensures IsFutureDay(Some(LocalDay(nowMs, offsetMs) + 1), LocalDay(nowMs, offsetMs))
  {
    if day.Some? {
      var today := LocalDay(nowMs, offsetMs);
      if day.value > today + 1 {
        assert day.value * DayMs >= (today + 2) * DayMs;
      } else {
        assert day.value * DayMs <= (today + 1) * DayMs;
      }
    }
    var tomorrow := LocalDay(nowMs, offsetMs) + 1;
    assert tomorrow * DayMs <= (LocalDay(nowMs, offsetMs) + 1) * DayMs - 1 - offsetMs;
  }

  /**
   * 08:00 on 2025-10-15 in New York (UTC-5, 13:00 UTC): the form as written
   * accepts a transaction dated 2025-10-16 (day 20377).
   */
  lemma NewYorkMorning()
    ensures LocalDay(20376 * DayMs + 13 * 3600000, -5 * 3600000) == 20376
    ensures !FutureAsWritten(Some(20377), 20376 * DayMs + 13 * 3600000, -5 * 3600000)
    ensures IsFutureDay(Some(20377), 20376)
  {
    assert 20376 * DayMs <= 20376 * DayMs + 8 * 3600000 < 20377 * DayMs;
  }

  /**
   * The default date of a new transaction, the UTC date, always passes the
   * rule as written; with the local-day rule it passes unless the UTC date is
   * already the next local day.
   */
  lemma DefaultDate(nowMs: int, offsetMs: int)
    requires -DayMs < offsetMs < DayMs
    ensures !FutureAsWritten(Some(nowMs / DayMs), nowMs, offsetMs)
    ensures IsFutureDay(Some(nowMs / DayMs), LocalDay(nowMs, offsetMs)) <==> nowMs / DayMs == LocalDay(nowMs, offsetMs) + 1
  {
    var utcDay := nowMs / DayMs;
    var today := LocalDay(nowMs, offsetMs);
    assert utcDay * DayMs <= nowMs;
    assert utcDay <= today + 1 by {
      assert utcDay * DayMs <= nowMs < (today + 1) * DayMs - offsetMs < (today + 2) * DayMs;
    }
  }

  /** `submitData`; a `None` amount is NaN. */
  datatype Payload = Payload(
    investmentId: string,
    txType: string,
    amount: Option<real>,
    description: string,
    date: string)

  /** The payload `handleSubmit` sends once the form is accepted. */
  function SubmitData(form: FormData, parse: string -> Option<real>): (p: Payload)
    ensures p.investmentId == form.investmentId && p.txType == form.txType && p.date == form.date
    ensures p.amount == parse(form.amount)
    ensures p.description == Trim(form.description)
    ensures p.description == "" <==> AllWhite(form.description)
    ensures p.description != "" ==> !IsWhite(p.description[0]) && !IsWhite(p.description[|p.description| - 1])
  {
    BlankIffTrimEmpty(form.description);
    TrimEnds(form.description);
    Payload(form.investmentId, form.txType, parse(form.amount), Trim(form.description), form.date)
  }

  /** A payload built from an accepted form has an investment, a description, an amount that is positive or NaN, and a date that is not after today. */
  lemma AcceptedPayload(form: FormData, parse: string -> Option<real>, parseDay: string -> Option<int>, today: int)
    requires Acceptable(form, parse, parseDay, today)
    ensures var p := SubmitData(form, parse);
      && p.investmentId != "" && p.description != ""
      && (p.amount.Some? ==> p.amount.value > 0.0)
      && (parseDay(p.date).Some? ==> parseDay(p.date).value <= today)
  {
  }

  /** An investment the form can select: its id and its currency. */
  datatype InvestmentOption = InvestmentOption(id: string, currency: Option<string>)

  /** `investments.find(inv => inv.id === id)`, from index `i` on: the index of the first match. */
  function FindFrom(investments: seq<InvestmentOption>, id: string, i: nat): (r: Option<nat>)
    requires i <= |investments|
    ensures r.Some? ==> (i <= r.value < |investments| && investments[r.value].id == id
      && forall j :: i <= j < r.value ==> investments[j].id != id)
    ensures r.None? ==> forall j :: i <= j < |investments| ==> investments[j].id != id
    decreases |investments| - i
  {
    if i == |investments| then None
    else if investments[i].id == id then Some(i)
    else FindFrom(investments, id, i + 1)
  }

  /** `(selectedInvestment?.currency as string) || 'NGN'`. */
  function CurrencyCode(investments: seq<InvestmentOption>, id: string): (code: string)
    ensures code != ""
    ensures (forall j :: 0 <= j < |investments| ==> investments[j].id != id) ==> code == "NGN"
    ensures forall k ::
      (0 <= k < |investments| && investments[k].id == id
       && (forall j :: 0 <= j < k ==> investments[j].id != id)
       && investments[k].currency.Some? && investments[k].currency.value != "")
      ==> code == investments[k].currency.value
    ensures forall k ::
      (0 <= k < |investments| && investments[k].id == id
       && (forall j :: 0 <= j < k ==> investments[j].id != id)
       && (investments[k].currency.None? || investments[k].currency.value == ""))
      ==> code == "NGN"
  {
    var found := FindFrom(investments, id, 0);
    if found.Some? then OrElse(investments[found.value].currency, "NGN") else "NGN"
  }

  /** The form's state: the field texts and the error dictionary. */
  class Form {
    const isEditMode: bool
    var formData: FormData
    var errors: map<Field, Message>

    constructor (transaction: Option<Transaction>, show: real -> string, nowIso: string)
      ensures isEditMode <==> transaction.Some?
      ensures formData == InitialFormData(transaction, show, nowIso)
      ensures errors == map[]
    {
      isEditMode := transaction.Some?;
      formData := InitialFormData(transaction, show, nowIso);
      errors := map[];
    }

    /** `validateForm` on local day `today`: stores the dictionary and says whether it is empty. */
    method ValidateForm(parse: string -> Option<real>, parseDay: string -> Option<int>, today: int) returns (ok: bool)
      modifies this
      ensures formData == old(formData)
      ensures ErrorsFor(formData, parse, parseDay, today, errors)
      ensures ok <==> errors == map[]
    {
      var newErrors;
      newErrors, ok := Validate(formData, parse, parseDay, today);
      errors := newErrors;
    }

    /** `handleSubmit` up to the service call: the payload, or `None` when validation fails. */
    method Submit(parse: string -> Option<real>, parseDay: string -> Option<int>, today: int) returns (payload: Option<Payload>)
      modifies this
      ensures formData == old(formData)
      ensures ErrorsFor(formData, parse, parseDay, today, errors)
      ensures payload.Some? <==> errors == map[]
      ensures payload.Some? ==> payload.value == SubmitData(formData, parse)
    {
      var ok := ValidateForm(parse, parseDay, today);
      if !ok {
        return None;
      }
      payload := Some(SubmitData(formData, parse));
    }

    /** `handleInputChange(field, value)`: sets the field and empties its error, if it had one. */
    method HandleInputChange(f: Field, value: string)
      modifies this
      ensures formData == WithField(old(formData), f, value)
      ensures errors == ClearError(old(errors), f, Cleared)
    {
      formData := WithField(formData, f, value);
      errors := ClearError(errors, f, Cleared);
    }
  }
}
