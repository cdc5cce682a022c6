/**
  The edit command: decode a listed page into the form's initial values,
  build the update bag from the submitted values, send it, and on success
  hand the caller the page patched in memory.
*/
module EditSubscription {
  import opened Wrappers
  import opened Dates
  import opened JsValues
  import opened Ui
  import opened NotionProperties
  import Add = AddSubscriptionUtils
  import opened EventLogs

  /**
    The initial form values. The name, use case and status keep whatever
    value the store holds when it is truthy, whatever its type; the price is
    the locale-formatted number or "".
  */
  datatype InitialValues = InitialValues(
    subscription: Js,
    useCase: Js,
    billingCycle: string,
    status: Js,
    price: string,
    startDate: Option<JsDate>)

  /**
    `initialValues`, with `priceText` standing for
    `Number(n).toLocaleString(undefined, { minimumFractionDigits: 2, maximumFractionDigits: 2 })`.
    Each field falls back to its default: "" for the name, "Work", "Monthly",
    "Active", "" for the price and null for the date.
  */
  function DecodeInitialValues(item: Js, priceText: Js -> string): (r: InitialValues)
    ensures var name := FirstRunPlainText(Get(PropsOf(item), SUBSCRIPTION));
      && (Truthy(name) ==> r.subscription == name)
      && (!Truthy(name) ==> r.subscription == Str(""))
    ensures var useCase := SelectName(Get(PropsOf(item), USE_CASE));
      && (Truthy(useCase) ==> r.useCase == useCase)
      && (!Truthy(useCase) ==> r.useCase == Str("Work"))
    ensures var status := SelectName(Get(PropsOf(item), STATUS));
      && (Truthy(status) ==> r.status == status)
      && (!Truthy(status) ==> r.status == Str("Active"))
    ensures Truthy(r.useCase) && Truthy(r.status)
    ensures r.billingCycle == "Annually" <==> SelectName(Get(PropsOf(item), BILLING_CYCLE)) == Str("Annually")
    ensures r.billingCycle == "Monthly" || r.billingCycle == "Annually"
    ensures var n := NumberField(Get(PropsOf(item), PRICE));
      && ((n == Undefined || n == Null) ==> r.price == "")
      && (n != Undefined && n != Null ==> r.price == priceText(n))
    ensures var start := DateStart(Get(PropsOf(item), START_DATE));
      && (r.startDate == None <==> !Truthy(start))
      && (Truthy(start) ==> r.startDate == Some(NewDate(start)))
  {
    var props := PropsOf(item);
    var n := NumberField(Get(props, PRICE));
    var start := DateStart(Get(props, START_DATE));
    InitialValues(
      Or(FirstRunPlainText(Get(props, SUBSCRIPTION)), Str("")),
      Or(SelectName(Get(props, USE_CASE)), Str("Work")),
      if SelectName(Get(props, BILLING_CYCLE)) == Str("Annually") then "Annually" else "Monthly",
      Or(SelectName(Get(props, STATUS)), Str("Active")),
      if n != Undefined && n != Null then priceText(n) else "",
      if Truthy(start) then Some(NewDate(start)) else None)
  }

  /** A page with no properties decodes to the defaults. */
  lemma EmptyPageDecodesToDefaults(item: Js, priceText: Js -> string)
    requires !Truthy(Get(item, "properties"))
    ensures DecodeInitialValues(item, priceText) == InitialValues(Str(""), Str("Work"), "Monthly", Str("Active"), "", None)
  {
  }

  const UPDATE_KEYS := {SUBSCRIPTION, USE_CASE, BILLING_CYCLE, STATUS, PRICE, START_DATE}

  /**
    The six properties onSubmit sends and the patch writes; `title` is the
    title property (with `text.content` in the update, `plain_text` in the
    patch) and `start` the start-date property or undefined.
  */
  function EditedProperties(values: Add.FormValues, toNumber: string -> JsNumber, title: Js, start: Js): (r: map<string, Js>)
    ensures r.Keys == UPDATE_KEYS
    ensures r[START_DATE] == start
  {
    map[
      SUBSCRIPTION := title,
      USE_CASE := SelectOf(Str(values.useCase)),
      BILLING_CYCLE := SelectOf(Str(values.billingCycle)),
      STATUS := SelectOf(Str(values.status)),
      PRICE := NumberOf(toNumber(values.price)),
      START_DATE := start]
  }

  /** The bag passed to updateSubscriptionPage: always the six keys, "Start date" undefined when no date is picked. */
  function UpdateBag(values: Add.FormValues, toNumber: string -> JsNumber, start: Js): (r: map<string, Js>)
    ensures r.Keys == UPDATE_KEYS
    ensures r[START_DATE] == start
  {
    EditedProperties(values, toNumber, TitleWithText(values.subscription), start)
  }

  /**
    The update bag read by the store's paths: the title is one run with the
    name, the selects carry the use case, the billing cycle and the single
    status text, and the price is `Number(price)`.
  */
  lemma UpdateBagReadsBack(values: Add.FormValues, toNumber: string -> JsNumber, start: Js)
    ensures var r := UpdateBag(values, toNumber, start);
      && TitleRuns(r[SUBSCRIPTION]).Arr? && |TitleRuns(r[SUBSCRIPTION]).items| == 1
      && FirstRunContent(r[SUBSCRIPTION]) == Str(values.subscription)
      && SelectName(r[USE_CASE]) == Str(values.useCase)
      && SelectName(r[BILLING_CYCLE]) == Str(values.billingCycle)
      && SelectName(r[STATUS]) == Str(values.status)
      && NumberField(r[PRICE]) == Num(toNumber(values.price))
  {
    var r := UpdateBag(values, toNumber, start);
    assert r[SUBSCRIPTION] == TitleWithText(values.subscription);
    assert r[USE_CASE] == SelectOf(Str(values.useCase));
    assert r[BILLING_CYCLE] == SelectOf(Str(values.billingCycle));
    assert r[STATUS] == SelectOf(Str(values.status));
    assert r[PRICE] == NumberOf(toNumber(values.price));
    TitleWithTextReadsBack(values.subscription);
    SelectOfReadsBack(Str(values.useCase));
    SelectOfReadsBack(Str(values.billingCycle));
    SelectOfReadsBack(Str(values.status));
    NumberOfReadsBack(toNumber(values.price));
  }

  /**
    `updatedItem = { ...item, properties: { ...item.properties, <the six> } }`:
    every top-level field but `properties` and every other property key is
    kept; the six edited properties are replaced.
  */
  function PatchedItem(item: Js, values: Add.FormValues, toNumber: string -> JsNumber, start: Js): (r: Js)
    ensures r.Obj? && "properties" in r.fields && r.fields["properties"].Obj?
    ensures forall k :: k != "properties" ==> Get(r, k) == Get(item, k)
    ensures var props := r.fields["properties"];
      && props.fields.Keys == Spread(Get(item, "properties")).Keys + UPDATE_KEYS
      && (forall k :: k !in UPDATE_KEYS ==> Get(props, k) == Get(Get(item, "properties"), k))
  {
    var edited := EditedProperties(values, toNumber, TitleWithPlainText(values.subscription), start);
    Obj(Spread(item)["properties" := Obj(Spread(Get(item, "properties")) + edited)])
  }

  /** Each of the six edited properties of the patched page is the one written for its key. */
  lemma PatchedProperty(item: Js, values: Add.FormValues, toNumber: string -> JsNumber, start: Js, k: string)
    requires k in UPDATE_KEYS
    ensures Get(PropsOf(PatchedItem(item, values, toNumber, start)), k)
      == EditedProperties(values, toNumber, TitleWithPlainText(values.subscription), start)[k]
  {
    var patched := PatchedItem(item, values, toNumber, start);
    assert PropsOf(patched) == patched.fields["properties"];
  }

  /**
    What is sent and what is handed to onSave agree: the page patched in
    memory carries the very use-case, billing-cycle, status, price and start
    date properties of the update bag, and the same name in the title.
  */
  lemma UpdateBagMatchesPatch(item: Js, values: Add.FormValues, toNumber: string -> JsNumber, start: Js)
    ensures var bag := UpdateBag(values, toNumber, start);
      var props := PropsOf(PatchedItem(item, values, toNumber, start));
      && (forall k :: k in UPDATE_KEYS && k != SUBSCRIPTION ==> Get(props, k) == bag[k])
      && FirstRunPlainText(Get(props, SUBSCRIPTION)) == FirstRunContent(bag[SUBSCRIPTION])
  {
    var bag := UpdateBag(values, toNumber, start);
    var props := PropsOf(PatchedItem(item, values, toNumber, start));
    var written := EditedProperties(values, toNumber, TitleWithPlainText(values.subscription), start);
    forall k | k in UPDATE_KEYS && k != SUBSCRIPTION
      ensures Get(props, k) == bag[k]
    {
      PatchedProperty(item, values, toNumber, start, k);
      assert written[k] == bag[k];
    }
    PatchedProperty(item, values, toNumber, start, SUBSCRIPTION);
    TitleWithPlainTextReadsBack(values.subscription);
    TitleWithTextReadsBack(values.subscription);
  }

  /** The six properties of the patched page, as the decoders reach them. */
  lemma PatchedReads(item: Js, values: Add.FormValues, toNumber: string -> JsNumber, start: Js)
    ensures var props := PropsOf(PatchedItem(item, values, toNumber, start));
      && Get(props, SUBSCRIPTION) == TitleWithPlainText(values.subscription)
      && Get(props, USE_CASE) == SelectOf(Str(values.useCase))
      && Get(props, BILLING_CYCLE) == SelectOf(Str(values.billingCycle))
      && Get(props, STATUS) == SelectOf(Str(values.status))
      && Get(props, PRICE) == NumberOf(toNumber(values.price))
      && Get(props, START_DATE) == start
  {
    PatchedProperty(item, values, toNumber, start, SUBSCRIPTION);
    PatchedProperty(item, values, toNumber, start, USE_CASE);
    PatchedProperty(item, values, toNumber, start, BILLING_CYCLE);
    PatchedProperty(item, values, toNumber, start, STATUS);
    PatchedProperty(item, values, toNumber, start, PRICE);
    PatchedProperty(item, values, toNumber, start, START_DATE);
  }

  /** A page whose title property was written with plain text decodes to that name. */
  lemma DecodesWrittenName(p: Js, priceText: Js -> string, name: string)
    requires Get(PropsOf(p), SUBSCRIPTION) == TitleWithPlainText(name)
    ensures DecodeInitialValues(p, priceText).subscription == Str(name)
  {
    TitleWithPlainTextReadsBack(name);
  }

  /** A page whose selects were written decodes to the use case and status when non-empty, and to the billing cycle when it is one of the two offered. */
  lemma DecodesWrittenSelects(p: Js, priceText: Js -> string, useCase: string, billingCycle: string, status: string)
    requires Get(PropsOf(p), USE_CASE) == SelectOf(Str(useCase))
    requires Get(PropsOf(p), BILLING_CYCLE) == SelectOf(Str(billingCycle))
    requires Get(PropsOf(p), STATUS) == SelectOf(Str(status))
    ensures var r := DecodeInitialValues(p, priceText);
      && (useCase != "" ==> r.useCase == Str(useCase))
      && (status != "" ==> r.status == Str(status))
      && (billingCycle == "Monthly" || billingCycle == "Annually" ==> r.billingCycle == billingCycle)
  {
    SelectOfReadsBack(Str(useCase));
    SelectOfReadsBack(Str(billingCycle));
    SelectOfReadsBack(Str(status));
  }

  /** A page whose price was written as a number decodes to the formatted text of that number. */
  lemma DecodesWrittenPrice(p: Js, priceText: Js -> string, n: JsNumber)
    requires Get(PropsOf(p), PRICE) == NumberOf(n)
    ensures DecodeInitialValues(p, priceText).price == priceText(Num(n))
  {
    NumberOfReadsBack(n);
  }

  /** A page whose start date was written for a date decodes to that date, and to null when the property is undefined. */
  lemma DecodesWrittenDate(p: Js, priceText: Js -> string, d: Option<ValidDate>)
    requires Get(PropsOf(p), START_DATE) == StartDateProperty(if d.Some? then Some(DateAt(d.value)) else None).value
    ensures DecodeInitialValues(p, priceText).startDate == (if d.Some? then Some(DateAt(d.value)) else None)
  {
    if d.Some? {
      StartDatePropertyReadsBack(d.value);
    }
  }

  /**
    Decoding the patched page gives back what was submitted: the name and
    the start date always; the use case and status when non-empty; the
    billing cycle when it is Monthly or Annually; and the price as the
    formatted text of `Number(price)`.
  */
  lemma PatchRoundTrip(item: Js, values: Add.FormValues, toNumber: string -> JsNumber, priceText: Js -> string)
    requires values.startDate != Some(InvalidDate)
    ensures var start := StartDateProperty(values.startDate).value;
      var r := DecodeInitialValues(PatchedItem(item, values, toNumber, start), priceText);
      && r.subscription == Str(values.subscription)
      && (values.useCase != "" ==> r.useCase == Str(values.useCase))
      && (values.status != "" ==> r.status == Str(values.status))
      && (values.billingCycle == "Monthly" || values.billingCycle == "Annually" ==> r.billingCycle == values.billingCycle)
      && r.price == priceText(Num(toNumber(values.price)))
      && r.startDate == values.startDate
  {
    var d := if values.startDate.Some? then Some(values.startDate.value.date) else None;
    assert values.startDate == (if d.Some? then Some(DateAt(d.value)) else None);
    var start := StartDateProperty(values.startDate).value;
    var patched := PatchedItem(item, values, toNumber, start);
    PatchedReads(item, values, toNumber, start);
    DecodesWrittenName(patched, priceText, values.subscription);
    DecodesWrittenSelects(patched, priceText, values.useCase, values.billingCycle, values.status);
    DecodesWrittenPrice(patched, priceText, toNumber(values.price));
    DecodesWrittenDate(patched, priceText, d);
  }

  /** What onSubmit does, in order. */
  datatype EditEvent =
    | LoadingSet(flag: bool)
    | UpdateRequested(pageId: Js, properties: map<string, Js>)
    | ToastShown(toast: Toast)
    | Saved(item: Js)

  function UpdatedToast(): Toast {
    Toast(Success, "Subscription updated", Undefined)
  }

  function UpdateFailedToast(error: string): Toast {
    Toast(Failure, "Failed to update", Str(error))
  }

  /** The caller's `onSave`: not passed, passed and returning, or passed and throwing (with `String(e)` of what it throws). */
  datatype OnSave = NoOnSave | OnSaveReturns | OnSaveThrows(error: string)

  /**
    The events of one onSubmit call for the page `item`, given the caller's
    onSave and the outcome `response` the update would have. An Invalid Date
    start date throws while the bag is built, before any request.
  */
  function EditTrace(item: Js, values: Add.FormValues, toNumber: string -> JsNumber, onSave: OnSave, response: Result<Js, string>): seq<EditEvent> {
    [LoadingSet(true)] + Update(item, values, toNumber, onSave, StartDateProperty(values.startDate), response) + [LoadingSet(false)]
  }

  /**
    What happens while loading, once the start-date property is built (or has
    thrown). The `try` covers the onSave call too: when it throws, the failure
    toast follows the success toast.
  */
  function Update(item: Js, values: Add.FormValues, toNumber: string -> JsNumber, onSave: OnSave,
                  start: Result<Js, string>, response: Result<Js, string>): seq<EditEvent> {
    match start
    case Err(e) => [ToastShown(UpdateFailedToast(e))]
    case Ok(st) =>
      [UpdateRequested(Get(item, "id"), UpdateBag(values, toNumber, st))]
      + (match response
         case Err(e) => [ToastShown(UpdateFailedToast(e))]
         case Ok(_) =>
           [ToastShown(UpdatedToast())] + SaveCall(onSave, PatchedItem(item, values, toNumber, st)))
  }

  /** `if (onSave) { onSave(updatedItem) }` inside the `try`: a throw shows the failure toast. */
  function SaveCall(onSave: OnSave, updated: Js): seq<EditEvent> {
    match onSave
    case NoOnSave => []
    case OnSaveReturns => [Saved(updated)]
    case OnSaveThrows(e) => [Saved(updated), ToastShown(UpdateFailedToast(e))]
  }

  /**
    Between the loading changes: no loading change; the one onSave call comes
    third, after the request and the success toast; "Subscription updated"
    shows exactly when the bag was built and the update succeeded, and a
    fourth event, the failure toast, exactly when onSave then throws.
  */
  lemma UpdateShape(item: Js, values: Add.FormValues, toNumber: string -> JsNumber, onSave: OnSave,
                    start: Result<Js, string>, response: Result<Js, string>)
    ensures var u := Update(item, values, toNumber, onSave, start, response);
      && 1 <= |u| <= 4
      && (forall i :: 0 <= i < |u| ==> !u[i].LoadingSet?)
      && (forall i :: 0 <= i < |u| && u[i].Saved? ==>
            i == 2 && u[0].UpdateRequested? && u[1] == ToastShown(UpdatedToast()) && onSave != NoOnSave && response.Ok?)
      && ((exists i :: 0 <= i < |u| && u[i].Saved?) <==> onSave != NoOnSave && response.Ok? && start.Ok?)
      && ((exists i :: 0 <= i < |u| && u[i] == ToastShown(UpdatedToast())) <==> response.Ok? && start.Ok?)
      && (|u| == 4 <==> onSave.OnSaveThrows? && response.Ok? && start.Ok?)
      && (|u| == 4 ==> u[3] == ToastShown(UpdateFailedToast(onSave.error)))
  {
    var u := Update(item, values, toNumber, onSave, start, response);
    match start {
      case Err(e) =>
        assert u == [ToastShown(UpdateFailedToast(e))];
      case Ok(st) =>
        var req := UpdateRequested(Get(item, "id"), UpdateBag(values, toNumber, st));
        var saved := Saved(PatchedItem(item, values, toNumber, st));
        match response {
          case Err(e) =>
            assert u == [req, ToastShown(UpdateFailedToast(e))];
          case Ok(_) =>
            match onSave {
              case NoOnSave =>
                assert u == [req, ToastShown(UpdatedToast())];
              case OnSaveReturns =>
                assert u == [req, ToastShown(UpdatedToast()), saved];
                assert u[2].Saved?;
              case OnSaveThrows(e) =>
                assert u == [req, ToastShown(UpdatedToast()), saved, ToastShown(UpdateFailedToast(e))];
                assert u[2].Saved?;
            }
            assert u[1] == ToastShown(UpdatedToast());
        }
    }
  }

  /**
    Loading is set first and cleared last on every path; onSave is called at
    most once, only after an update request that succeeded, and only when
    the caller passed it; "Subscription updated" shows exactly when the
    update succeeded, and it is followed by "Failed to update" exactly when
    onSave then throws.
  */
  lemma EditTraceShape(item: Js, values: Add.FormValues, toNumber: string -> JsNumber, onSave: OnSave, response: Result<Js, string>)
    ensures var t := EditTrace(item, values, toNumber, onSave, response);
      && t[0] == LoadingSet(true) && t[|t| - 1] == LoadingSet(false)
      && (forall i :: 0 < i < |t| - 1 ==> !t[i].LoadingSet?)
      && (forall i :: 0 <= i < |t| && t[i].Saved? ==>
            i == 3 && t[1].UpdateRequested? && t[2] == ToastShown(UpdatedToast()) && onSave != NoOnSave && response.Ok?)
      && ((exists i :: 0 <= i < |t| && t[i].Saved?) <==>
            onSave != NoOnSave && response.Ok? && values.startDate != Some(InvalidDate))
      && ((exists i :: 0 <= i < |t| && t[i] == ToastShown(UpdatedToast())) <==>
            response.Ok? && values.startDate != Some(InvalidDate))
      && (|t| == 6 <==> onSave.OnSaveThrows? && response.Ok? && values.startDate != Some(InvalidDate))
      && (|t| == 6 ==> t[4] == ToastShown(UpdateFailedToast(onSave.error)))
  {
    var start := StartDateProperty(values.startDate);
    var u := Update(item, values, toNumber, onSave, start, response);
    var t := EditTrace(item, values, toNumber, onSave, response);
    UpdateShape(item, values, toNumber, onSave, start, response);
    assert t == [LoadingSet(true)] + u + [LoadingSet(false)];
    assert |t| == |u| + 2;
    assert forall i :: 0 < i < |t| - 1 ==> t[i] == u[i - 1];
    if exists i :: 0 <= i < |t| && t[i].Saved? {
      var i :| 0 <= i < |t| && t[i].Saved?;
      assert u[i - 1].Saved?;
    }
    if onSave != NoOnSave && response.Ok? && start.Ok? {
      var j :| 0 <= j < |u| && u[j].Saved?;
      assert t[j + 1].Saved?;
    }
    if exists i :: 0 <= i < |t| && t[i] == ToastShown(UpdatedToast()) {
      var i :| 0 <= i < |t| && t[i] == ToastShown(UpdatedToast());
      assert u[i - 1] == ToastShown(UpdatedToast());
    }
    if response.Ok? && start.Ok? {
      var j :| 0 <= j < |u| && u[j] == ToastShown(UpdatedToast());
      assert t[j + 1] == ToastShown(UpdatedToast());
    }
  }

  /** The edit command's state: the loading flag and what has happened so far. */
  class EditCommandState {
    var loading: bool
    var log: seq<EditEvent>

    constructor ()
      ensures !loading && log == []
    {
      loading := false;
      log := [];
    }

    /** `onSubmit(values)` for the page `item`. */
    method OnSubmit(item: Js, values: Add.FormValues, toNumber: string -> JsNumber, onSave: OnSave, response: Result<Js, string>)
      modifies this
      ensures !loading
      ensures log == old(log) + EditTrace(item, values, toNumber, onSave, response)
    {
      loading := true;
      log := log + [LoadingSet(true)];
      var start := StartDateProperty(values.startDate);
      TryUpdate(item, values, toNumber, onSave, start, response);
      loading := false;
      log := log + [LoadingSet(false)];
      Bracketed(old(log), LoadingSet(true), Update(item, values, toNumber, onSave, start, response), LoadingSet(false));
    }

    /** The `try` block of onSubmit, once the start-date property is built (or has thrown). */
    method TryUpdate(item: Js, values: Add.FormValues, toNumber: string -> JsNumber, onSave: OnSave,
                     start: Result<Js, string>, response: Result<Js, string>)
      modifies this
      ensures loading == old(loading)
      ensures log == old(log) + Update(item, values, toNumber, onSave, start, response)
    {
      match start {
        case Err(e) =>
          log := log + [ToastShown(UpdateFailedToast(e))];
        case Ok(st) =>
          log := log + [UpdateRequested(Get(item, "id"), UpdateBag(values, toNumber, st))];
          match response {
            case Err(e) =>
              log := log + [ToastShown(UpdateFailedToast(e))];
            case Ok(_) =>
              log := log + [ToastShown(UpdatedToast())];
              CallOnSave(onSave, PatchedItem(item, values, toNumber, st));
          }
      }
    }

    /** `if (onSave) { onSave(updatedItem) }`, whose throw the `catch` turns into the failure toast. */
    method CallOnSave(onSave: OnSave, updated: Js)
      modifies this
      ensures loading == old(loading)
      ensures log == old(log) + SaveCall(onSave, updated)
    {
      if onSave != NoOnSave {
        log := log + [Saved(updated)];
        if onSave.OnSaveThrows? {
          log := log + [ToastShown(UpdateFailedToast(onSave.error))];
        }
      }
    }
  }

  /** The save button's title. */
  function SaveTitle(loading: bool): (r: string)
    ensures r == "Saving..." <==> loading
    ensures r == "Save changes" <==> !loading
  {
    if loading then "Saving..." else "Save changes"
  }
}
