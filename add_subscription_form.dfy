/**
  The add-subscription command: its default start date (today + 14 days),
  its initial form values, the validation table it shares with the edit
  form, the submit gate the form library applies, and the submit button title.
*/
module AddSubscriptionForm {
  import opened Wrappers
  import opened Dates
  import opened JsValues
  import opened AddSubscriptionUtils

  /**
    `new Date(today.getFullYear(), today.getMonth(), today.getDate() + 14)`:
    the calendar date 14 days after today, a day past the end of the month
    carried into the next month, and from December into the next year.
  */
  function DefaultStartDate(today: ValidDate): (r: ValidDate)
    ensures r == AddDays(today, 14)
    ensures today.day + 14 <= DaysInMonth(today.year, today.month) ==>
      r == CalendarDate(today.year, today.month, today.day + 14)
    ensures today.day + 14 > DaysInMonth(today.year, today.month) ==>
      r.day == today.day + 14 - DaysInMonth(today.year, today.month) &&
      (if today.month < 12 then r.year == today.year && r.month == today.month + 1
       else r.year == today.year + 1 && r.month == 1)
  {
    CarryDaysIsAddDays(today, 14);
    CarryDays(today.year, today.month, today.day + 14)
  }

  /** The form's initial values; the clock's date is the parameter `today`. */
  function InitialValues(today: ValidDate): (r: FormValues)
    ensures r.subscription == "" && r.price == ""
    ensures r.useCase == "Work" && r.billingCycle == "Monthly" && r.status == "Trial"
    ensures r.startDate == Some(DateAt(AddDays(today, 14)))
  {
    FormValues("", "Work", "Monthly", "Trial", "", Some(DateAt(DefaultStartDate(today))))
  }

  datatype Field = SubscriptionField | PriceField | StartDateField | BillingCycleField | StatusField | UseCaseField

  /** A field error: the form library's Required rule, or a message of the shared validators. */
  datatype FieldError = RequiredMissing | Message(text: string)

  /** The library's `FormValidation.Required` on a text field: the empty text is missing. */
  function Required(value: string): Option<FieldError> {
    if value == "" then Some(RequiredMissing) else None
  }

  function Lift(message: Option<string>): Option<FieldError> {
    match message
    case None => None
    case Some(m) => Some(Message(m))
  }

  /**
    The `validation` table: name, billing cycle and use case take the
    Required rule; price, start date and status take the shared validators.
  */
  function FieldCheck(values: FormValues, f: Field, toNumber: string -> JsNumber): Option<FieldError> {
    match f
    case SubscriptionField => Required(values.subscription)
    case PriceField => Lift(ValidatePrice(Some(values.price), toNumber))
    case StartDateField => Lift(ValidateStartDate(StartDateArg(values.startDate)))
    case BillingCycleField => Required(values.billingCycle)
    case StatusField => Lift(ValidateStatus(Some(values.status)))
    case UseCaseField => Required(values.useCase)
  }

  /** Every field passes its rule. */
  predicate Submittable(values: FormValues, toNumber: string -> JsNumber) {
    forall f: Field :: FieldCheck(values, f, toNumber) == None
  }

  /** The form can be submitted exactly when the name, billing cycle, use case and status are non-empty, the price converts to a positive number, and a start date is picked. */
  lemma SubmittableIff(values: FormValues, toNumber: string -> JsNumber)
    ensures Submittable(values, toNumber) <==>
      && values.subscription != ""
      && values.billingCycle != ""
      && values.useCase != ""
      && values.status != ""
      && IsPositive(toNumber(values.price)) && values.price != ""
      && values.startDate.Some?
  {
    if !Submittable(values, toNumber) {
      var f: Field :| FieldCheck(values, f, toNumber) != None;
    } else {
      assert FieldCheck(values, SubscriptionField, toNumber) == None;
      assert FieldCheck(values, PriceField, toNumber) == None;
      assert FieldCheck(values, StartDateField, toNumber) == None;
      assert FieldCheck(values, BillingCycleField, toNumber) == None;
      assert FieldCheck(values, StatusField, toNumber) == None;
      assert FieldCheck(values, UseCaseField, toNumber) == None;
    }
  }

  /**
    The initial values pass the start-date, status, billing-cycle and use-case
    rules without any input, but the empty name and price do not: a submit
    before typing them sends nothing.
  */
  lemma InitialValuesNeedNameAndPrice(today: ValidDate, toNumber: string -> JsNumber)
    ensures var v := InitialValues(today);
      && FieldCheck(v, StartDateField, toNumber) == None
      && FieldCheck(v, StatusField, toNumber) == None
      && FieldCheck(v, BillingCycleField, toNumber) == None
      && FieldCheck(v, UseCaseField, toNumber) == None
      && FieldCheck(v, SubscriptionField, toNumber) == Some(RequiredMissing)
      && FieldCheck(v, PriceField, toNumber) == Some(Message(PRICE_REQUIRED))
      && !Submittable(v, toNumber)
  {
    var v := InitialValues(today);
    assert FieldCheck(v, SubscriptionField, toNumber) != None;
  }

  /**
    `handleSubmit`: the form library runs the validation table and calls the
    handler only when every field passes; otherwise nothing is sent and the
    submitting flag is untouched.
  */
  method HandleSubmit(state: AddCommandState, values: FormValues, toNumber: string -> JsNumber, response: Result<Js, string>)
    modifies state
    ensures Submittable(values, toNumber) ==>
      !state.isSubmitting && state.log == old(state.log) + AddTrace(values, toNumber, response)
    ensures !Submittable(values, toNumber) ==> state.log == old(state.log) && state.isSubmitting == old(state.isSubmitting)
  {
    var ok := forall f: Field :: FieldCheck(values, f, toNumber) == None;
    if ok {
      state.HandleAddSubscription(values, toNumber, response);
    }
  }

  /** The submit button's title. */
  function SubmitTitle(isSubmitting: bool): (r: string)
    ensures r == "Submitting..." <==> isSubmitting
    ensures r == "Add subscription" <==> !isSubmitting
  {
    if isSubmitting then "Submitting..." else "Add subscription"
  }
}
