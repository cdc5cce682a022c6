/**
  The field validators shared by the add and edit forms, and
  `handleAddSubscription`: raise the submitting flag, shape the form values
  for createSubscriptionPage, post them, report the outcome in a toast, and
  lower the flag whatever happened.
*/
module AddSubscriptionUtils {
  import opened Wrappers
  import opened Dates
  import opened JsValues
  import opened Ui
  import opened NotionProperties
  import opened CreateSubscriptionPage
  import opened EventLogs

  /** The values the form hands over on submit; the start date is null when none is picked. */
  datatype FormValues = FormValues(
    subscription: string,
    useCase: string,
    billingCycle: string,
    status: string,
    price: string,
    startDate: Option<JsDate>)

  const PRICE_REQUIRED := "Price is required"
  const PRICE_NOT_POSITIVE := "Price must be a positive number"
  const START_DATE_REQUIRED := "Start date is required"
  const STATUS_REQUIRED := "Please select a status."

  /**
    `validatePrice`: a missing or empty value is required; otherwise it must
    convert (by `Number`, the parameter toNumber) to a positive number. The
    required check comes first.
  */
  function ValidatePrice(value: Option<string>, toNumber: string -> JsNumber): (r: Option<string>)
    ensures r == None || r == Some(PRICE_REQUIRED) || r == Some(PRICE_NOT_POSITIVE)
    ensures r == Some(PRICE_REQUIRED) <==> value == None || value == Some("")
    ensures r == None <==> value.Some? && value.value != "" && IsPositive(toNumber(value.value))
  {
    if value == None || value.value == "" then Some(PRICE_REQUIRED)
    else if !IsPositive(toNumber(value.value)) then Some(PRICE_NOT_POSITIVE)
    else None
  }

  /** `Date | null | undefined` */
  datatype DateArg = DateUndefined | DateNull | DateGiven(date: JsDate)

  /** `validateStartDate`: only a missing date fails; every Date object, even an Invalid Date, passes. */
  function ValidateStartDate(value: DateArg): (r: Option<string>)
    ensures r == None || r == Some(START_DATE_REQUIRED)
    ensures r == None <==> value.DateGiven?
  {
    if value == DateUndefined || value == DateNull then Some(START_DATE_REQUIRED) else None
  }

  /** `validateStatus`: a missing or empty selection fails (`!value` already covers the length test). */
  function ValidateStatus(value: Option<string>): (r: Option<string>)
    ensures r == None || r == Some(STATUS_REQUIRED)
    ensures r == None <==> value.Some? && |value.value| > 0
  {
    if value == None || value.value == "" || |value.value| == 0 then Some(STATUS_REQUIRED) else None
  }

  /** The form's start date as the validator sees it. */
  function StartDateArg(d: Option<JsDate>): DateArg {
    match d
    case None => DateNull
    case Some(j) => DateGiven(j)
  }

  /**
    `formattedValues = { ...values, price: Number(values.price), status: values.status }`,
    seen through the fields createSubscriptionPage reads: it has no `priority`
    field, and its status is one name rather than an array.
  */
  function Formatted(values: FormValues, toNumber: string -> JsNumber): (r: PageValues)
    ensures !HasDeclaredType(r)
    ensures r.priority == None && r.status == StatusText(values.status)
    ensures r.price == PriceNumber(toNumber(values.price))
    ensures r.subscription == values.subscription && r.billingCycle == values.billingCycle
    ensures r.startDate == values.startDate
  {
    PageValues(
      values.subscription,
      None,
      values.billingCycle,
      StatusText(values.status),
      PriceNumber(toNumber(values.price)),
      values.startDate)
  }

  /**
    What the add flow posts for form values with a usable start date: the
    name, billing cycle, `Number(price)` and the date pass through; the Status
    select carries only the first character of the status name (what
    `status[0]` gives on a string), and the Priority select has an undefined name.
  */
  lemma AddFlowPostsFirstStatusCharacter(values: FormValues, toNumber: string -> JsNumber)
    requires values.startDate != Some(InvalidDate)
    ensures var v := Formatted(values, toNumber);
      var props := PostedProperties(v, toNumber);
      && FirstRunContent(Get(props, SUBSCRIPTION)) == Str(values.subscription)
      && SelectName(Get(props, BILLING_CYCLE)) == Str(values.billingCycle)
      && SelectName(Get(props, STATUS)) == (if values.status == "" then Undefined else Str(values.status[..1]))
      && SelectName(Get(props, PRIORITY)) == Undefined
      && NumberField(Get(props, PRICE)) == Num(toNumber(values.price))
      && (values.startDate.Some? ==> NewDate(DateStart(Get(props, START_DATE))) == values.startDate.value)
  {
    var v := Formatted(values, toNumber);
    PostedPropertiesReadBack(v, toNumber);
    if values.status != "" {
      assert [values.status[0]] == values.status[..1];
    }
  }

  /** What handleAddSubscription does, in order. */
  datatype AddEvent =
    | SubmittingSet(flag: bool)
    | CreateRequested(body: Js)
    | ToastShown(toast: Toast)

  function SuccessToast(values: FormValues): Toast {
    Toast(Success, "Subscription added", Str(values.subscription + " added to Notion."))
  }

  function FailureToast(error: string): Toast {
    Toast(Failure, "Failed to add subscription", Str(error))
  }

  /**
    The events of one handleAddSubscription call, given the outcome `response`
    the request would have (its error text being `String(error)`).
  */
  function AddTrace(values: FormValues, toNumber: string -> JsNumber, response: Result<Js, string>): seq<AddEvent> {
    [SubmittingSet(true)] + Attempt(values, RequestBody(Formatted(values, toNumber), toNumber), response) + [SubmittingSet(false)]
  }

  /** What happens between raising and lowering the flag, once the body is built (or has thrown). */
  function Attempt(values: FormValues, body: Result<Js, string>, response: Result<Js, string>): seq<AddEvent> {
    match body
    case Err(e) => [ToastShown(FailureToast(e))]
    case Ok(b) =>
      [CreateRequested(b)]
      + (match response
         case Ok(_) => [ToastShown(SuccessToast(values))]
         case Err(e) => [ToastShown(FailureToast(e))])
  }

  /**
    The flag is raised first and lowered last, on the success and the failure
    paths alike, and nowhere else; exactly one toast is shown, after the one
    request if there is one; the toast reports success exactly when a request
    was sent and succeeded.
  */
  lemma AddTraceShape(values: FormValues, toNumber: string -> JsNumber, response: Result<Js, string>)
    ensures var t := AddTrace(values, toNumber, response);
      && 3 <= |t| <= 4
      && t[0] == SubmittingSet(true) && t[|t| - 1] == SubmittingSet(false)
      && (forall i :: 0 < i < |t| - 1 ==> !t[i].SubmittingSet?)
      && t[|t| - 2].ToastShown?
      && (|t| == 4 <==> values.startDate != Some(InvalidDate))
      && (|t| == 4 ==> t[1].CreateRequested?)
      && (t[|t| - 2].toast.style == Success <==> |t| == 4 && response.Ok?)
  {
    var body := RequestBody(Formatted(values, toNumber), toNumber);
    var t := AddTrace(values, toNumber, response);
    match body {
      case Err(e) =>
        assert t == [SubmittingSet(true), ToastShown(FailureToast(e)), SubmittingSet(false)];
      case Ok(b) =>
        var toast := if response.Ok? then SuccessToast(values) else FailureToast(response.error);
        assert t == [SubmittingSet(true), CreateRequested(b), ToastShown(toast), SubmittingSet(false)];
    }
  }

  /** The add command's state: the submitting flag it hands to the handler, and what has happened so far. */
  class AddCommandState {
    var isSubmitting: bool
    var log: seq<AddEvent>

    constructor ()
      ensures !isSubmitting && log == []
    {
      isSubmitting := false;
      log := [];
    }

    /** `handleAddSubscription(values, setIsSubmitting)` */
    method HandleAddSubscription(values: FormValues, toNumber: string -> JsNumber, response: Result<Js, string>)
      modifies this
      ensures !isSubmitting
      ensures log == old(log) + AddTrace(values, toNumber, response)
    {
      isSubmitting := true;
      log := log + [SubmittingSet(true)];
      ghost var raised := log;
      var formattedValues := Formatted(values, toNumber);
      var body := BuildRequestBody(formattedValues, toNumber);
      match body {
        case Err(e) =>
          log := log + [ToastShown(FailureToast(e))];
        case Ok(b) =>
          log := log + [CreateRequested(b)];
          match response {
            case Ok(_) =>
              log := log + [ToastShown(SuccessToast(values))];
            case Err(e) =>
              log := log + [ToastShown(FailureToast(e))];
          }
          assert log == raised + Attempt(values, body, response);
      }
      assert body == RequestBody(Formatted(values, toNumber), toNumber);
      ghost var attempt := Attempt(values, body, response);
      assert log == raised + attempt;
      isSubmitting := false;
      log := log + [SubmittingSet(false)];
      Bracketed(old(log), SubmittingSet(true), attempt, SubmittingSet(false));
    }
  }
}
