/**
  `createSubscriptionPage`: maps the form values to the Notion property bag,
  deletes every key whose value is undefined, and wraps the bag in the
  request body for the fixed subscriptions database. The request itself is
  not part of this model.
*/
module CreateSubscriptionPage {
  import opened Wrappers
  import opened Dates
  import opened JsValues
  import opened NotionProperties

  const NOTION_DATABASE_ID := "1f1fc478743580d7b41dff20ac953622"

  /** `values.status`: an array of names as declared, or the single name a caller may pass instead. */
  datatype StatusArg = StatusList(items: seq<string>) | StatusText(text: string)

  /** `values.price: string | number` */
  datatype PriceArg = PriceText(text: string) | PriceNumber(number: JsNumber)

  /** The fields createSubscriptionPage reads; `priority` is None when the caller's object has no such field. */
  datatype PageValues = PageValues(
    subscription: string,
    priority: Option<string>,
    billingCycle: string,
    status: StatusArg,
    price: PriceArg,
    startDate: Option<JsDate>)

  /** The values have the declared parameter type: a priority string and a status array. */
  predicate HasDeclaredType(v: PageValues) {
    v.priority.Some? && v.status.StatusList?
  }

  /** `values.status[0]`: the first name of a list, the first character of a single name, undefined when either is empty. */
  function FirstStatus(s: StatusArg): (r: Js)
    ensures r == Undefined <==> (s.StatusList? && s.items == []) || (s.StatusText? && s.text == "")
    ensures s.StatusList? && s.items != [] ==> r == Str(s.items[0])
    ensures s.StatusText? && s.text != "" ==> r == Str([s.text[0]])
  {
    match s
    case StatusList(items) => if |items| > 0 then Str(items[0]) else Undefined
    case StatusText(t) => First(Str(t))
  }

  /** `values.priority` */
  function PriorityValue(p: Option<string>): Js {
    match p
    case Some(name) => Str(name)
    case None => Undefined
  }

  /** `typeof values.price === "string" ? Number(values.price) : values.price` */
  function PriceValue(p: PriceArg, toNumber: string -> JsNumber): JsNumber {
    match p
    case PriceText(t) => toNumber(t)
    case PriceNumber(n) => n
  }

  const PAGE_KEYS := {SUBSCRIPTION, PRIORITY, BILLING_CYCLE, STATUS, PRICE, START_DATE}

  /** The `properties` object before pruning, or the RangeError an Invalid Date start date throws. */
  function Properties(v: PageValues, toNumber: string -> JsNumber): (r: Result<map<string, Js>, string>)
    ensures r.Err? <==> v.startDate == Some(InvalidDate)
    ensures r.Ok? ==> r.value.Keys == PAGE_KEYS
  {
    match StartDateProperty(v.startDate)
    case Err(e) => Err(e)
    case Ok(start) =>
      Ok(map[
        SUBSCRIPTION := TitleWithText(v.subscription),
        PRIORITY := SelectOf(PriorityValue(v.priority)),
        BILLING_CYCLE := SelectOf(Str(v.billingCycle)),
        STATUS := SelectOf(FirstStatus(v.status)),
        PRICE := NumberOf(PriceValue(v.price, toNumber)),
        START_DATE := start])
  }

  /** The bag without its undefined entries: no key maps to undefined, and every defined entry is kept as it was. */
  function Pruned(props: map<string, Js>): (r: map<string, Js>)
    ensures r.Keys <= props.Keys
    ensures forall k :: k in r ==> r[k] != Undefined && r[k] == props[k]
    ensures forall k :: k in props && props[k] != Undefined ==> k in r
  {
    map k | k in props && props[k] != Undefined :: props[k]
  }

  /** `Object.keys(properties).forEach(key => { if (properties[key] === undefined) delete properties[key]; })`, keys visited in any order. */
  method PruneUndefined(props: map<string, Js>) returns (r: map<string, Js>)
    ensures r == Pruned(props)
  {
    r := props;
    var keys := props.Keys;
    while keys != {}
      invariant keys <= props.Keys && r.Keys <= props.Keys
      invariant forall k :: k in r ==> r[k] == props[k]
      invariant forall k :: k in keys ==> k in r
      invariant forall k :: k in props && k !in keys ==> (k in r <==> props[k] != Undefined)
      decreases keys
    {
      var k :| k in keys;
      if r[k] == Undefined {
        r := r - {k};
      }
      keys := keys - {k};
    }
  }

  /** `{ parent: { database_id }, properties }`: the bag filed under the subscriptions database. */
  function Body(properties: map<string, Js>): (r: Js)
    ensures r.Obj? && r.fields.Keys == {"parent", "properties"}
    ensures Get(Get(r, "parent"), "database_id") == Str(NOTION_DATABASE_ID)
    ensures Get(r, "properties") == Obj(properties)
  {
    Obj(map["parent" := Obj(map["database_id" := Str(NOTION_DATABASE_ID)]), "properties" := Obj(properties)])
  }

  /** The request body createSubscriptionPage posts, or the error it throws before posting. */
  function RequestBody(v: PageValues, toNumber: string -> JsNumber): (r: Result<Js, string>)
    ensures r.Err? <==> v.startDate == Some(InvalidDate)
    ensures r.Ok? ==> Get(Get(r.value, "parent"), "database_id") == Str(NOTION_DATABASE_ID)
  {
    match Properties(v, toNumber)
    case Err(e) => Err(e)
    case Ok(props) => Ok(Body(Pruned(props)))
  }

  /** Builds the request body the way the source does, pruning the bag in place. */
  method BuildRequestBody(v: PageValues, toNumber: string -> JsNumber) returns (r: Result<Js, string>)
    ensures r == RequestBody(v, toNumber)
  {
    var built := Properties(v, toNumber);
    if built.Err? {
      return Err(built.error);
    }
    var properties := PruneUndefined(built.value);
    r := Ok(Body(properties));
  }

  /** The pruned bag keeps the five always-defined properties as built, and "Start date" exactly when a date was given. */
  lemma PrunedProperties(v: PageValues, toNumber: string -> JsNumber)
    requires v.startDate != Some(InvalidDate)
    ensures var bag := Properties(v, toNumber).value;
      && Pruned(bag).Keys == (if v.startDate.None? then PAGE_KEYS - {START_DATE} else PAGE_KEYS)
      && forall k :: k in Pruned(bag) ==> Pruned(bag)[k] == bag[k]
  {
    var bag := Properties(v, toNumber).value;
    assert bag[SUBSCRIPTION].Obj? && bag[PRIORITY].Obj? && bag[BILLING_CYCLE].Obj?;
    assert bag[STATUS].Obj? && bag[PRICE].Obj?;
    assert bag[START_DATE] == Undefined <==> v.startDate.None?;
  }

  /** `body.properties` of a body that was built. */
  function PostedProperties(v: PageValues, toNumber: string -> JsNumber): Js
    requires v.startDate != Some(InvalidDate)
  {
    Get(RequestBody(v, toNumber).value, "properties")
  }

  /** Each property of the posted bag is the one built for its key. */
  lemma PostedProperty(v: PageValues, toNumber: string -> JsNumber, k: string)
    requires v.startDate != Some(InvalidDate)
    requires k in PAGE_KEYS && (k == START_DATE ==> v.startDate.Some?)
    ensures Get(PostedProperties(v, toNumber), k) == Properties(v, toNumber).value[k]
  {
    PrunedProperties(v, toNumber);
  }

  /** The posted title has exactly one run, and its text content is the name. */
  lemma PostedTitle(v: PageValues, toNumber: string -> JsNumber)
    requires v.startDate != Some(InvalidDate)
    ensures var title := Get(PostedProperties(v, toNumber), SUBSCRIPTION);
      && TitleRuns(title).Arr? && |TitleRuns(title).items| == 1
      && FirstRunContent(title) == Str(v.subscription)
  {
    var built := Properties(v, toNumber).value;
    assert built[SUBSCRIPTION] == TitleWithText(v.subscription);
    PostedProperty(v, toNumber, SUBSCRIPTION);
    assert Get(PostedProperties(v, toNumber), SUBSCRIPTION) == TitleWithText(v.subscription);
    TitleWithTextReadsBack(v.subscription);
  }

  /** The posted selects carry the priority, the billing cycle unchanged, and `status[0]`. */
  lemma PostedSelects(v: PageValues, toNumber: string -> JsNumber)
    requires v.startDate != Some(InvalidDate)
    ensures var props := PostedProperties(v, toNumber);
      && SelectName(Get(props, PRIORITY)) == PriorityValue(v.priority)
      && SelectName(Get(props, BILLING_CYCLE)) == Str(v.billingCycle)
      && SelectName(Get(props, STATUS)) == FirstStatus(v.status)
  {
    var bag := Properties(v, toNumber).value;
    PostedProperty(v, toNumber, PRIORITY);
    PostedProperty(v, toNumber, BILLING_CYCLE);
    PostedProperty(v, toNumber, STATUS);
    assert bag[PRIORITY] == SelectOf(PriorityValue(v.priority));
    assert bag[BILLING_CYCLE] == SelectOf(Str(v.billingCycle));
    assert bag[STATUS] == SelectOf(FirstStatus(v.status));
    SelectOfReadsBack(PriorityValue(v.priority));
    SelectOfReadsBack(Str(v.billingCycle));
    SelectOfReadsBack(FirstStatus(v.status));
  }

  /** The posted price is `Number(price)` for a text and the number itself otherwise; a given start date reads back as itself. */
  lemma PostedPriceAndDate(v: PageValues, toNumber: string -> JsNumber)
    requires v.startDate != Some(InvalidDate)
    ensures var props := PostedProperties(v, toNumber);
      && NumberField(Get(props, PRICE)) == Num(PriceValue(v.price, toNumber))
      && (v.startDate.Some? ==> NewDate(DateStart(Get(props, START_DATE))) == v.startDate.value)
  {
    PostedProperty(v, toNumber, PRICE);
    assert Properties(v, toNumber).value[PRICE] == NumberOf(PriceValue(v.price, toNumber));
    NumberOfReadsBack(PriceValue(v.price, toNumber));
    if v.startDate.Some? {
      PostedProperty(v, toNumber, START_DATE);
      StartDatePropertyReadsBack(v.startDate.value.date);
    }
  }

  /**
    What the posted bag holds, read back with the same paths the decoders use:
    a title with exactly one run carrying the name; the priority, billing
    cycle and first status as select names; the price as a number; and a
    "Start date" key exactly when a date was given, holding that date.
  */
  lemma PostedPropertiesReadBack(v: PageValues, toNumber: string -> JsNumber)
    requires v.startDate != Some(InvalidDate)
    ensures RequestBody(v, toNumber).Ok?
    ensures PostedProperties(v, toNumber).Obj?
    ensures PostedProperties(v, toNumber).fields.Keys == (if v.startDate.None? then PAGE_KEYS - {START_DATE} else PAGE_KEYS)
    ensures var title := Get(PostedProperties(v, toNumber), SUBSCRIPTION);
      && TitleRuns(title).Arr? && |TitleRuns(title).items| == 1
      && FirstRunContent(title) == Str(v.subscription)
    ensures var props := PostedProperties(v, toNumber);
      && SelectName(Get(props, PRIORITY)) == PriorityValue(v.priority)
      && SelectName(Get(props, BILLING_CYCLE)) == Str(v.billingCycle)
      && SelectName(Get(props, STATUS)) == FirstStatus(v.status)
      && NumberField(Get(props, PRICE)) == Num(PriceValue(v.price, toNumber))
      && (v.startDate.Some? ==> NewDate(DateStart(Get(props, START_DATE))) == v.startDate.value)
  {
    PrunedProperties(v, toNumber);
    PostedTitle(v, toNumber);
    PostedSelects(v, toNumber);
    PostedPriceAndDate(v, toNumber);
  }

  /** With the declared status array, the Status select carries its first element and drops the rest. */
  lemma DeclaredStatusKeepsFirstOnly(v: PageValues, toNumber: string -> JsNumber)
    requires v.startDate != Some(InvalidDate)
    requires HasDeclaredType(v) && |v.status.items| > 0
    ensures var props := PostedProperties(v, toNumber);
      && SelectName(Get(props, STATUS)) == Str(v.status.items[0])
      && SelectName(Get(props, PRIORITY)) == Str(v.priority.value)
  {
    PostedPropertiesReadBack(v, toNumber);
  }
}
