/**
  The Notion property shapes the extension writes (title, select, number and
  date containers) and the optional-chain paths its decoders read them back by.
*/
module NotionProperties {
  import opened Wrappers
  import opened Dates
  import opened JsValues

  const SUBSCRIPTION := "Subscription"
  const PRIORITY := "Priority"
  const USE_CASE := "Use case"
  const BILLING_CYCLE := "Billing cycle"
  const STATUS := "Status"
  const PRICE := "Price"
  const START_DATE := "Start date"

  /** `{ title: [{ text: { content } }] }`: a title with one text run, as sent to the store. */
  function TitleWithText(content: string): Js {
    Obj(map["title" := Arr([Obj(map["text" := Obj(map["content" := Str(content)])])])])
  }

  /** `{ title: [{ plain_text }] }`: a title with one run, in the form the store returns it. */
  function TitleWithPlainText(text: string): Js {
    Obj(map["title" := Arr([Obj(map["plain_text" := Str(text)])])])
  }

  /** `{ select: { name } }` */
  function SelectOf(name: Js): Js {
    Obj(map["select" := Obj(map["name" := name])])
  }

  /** `{ number: n }` */
  function NumberOf(n: JsNumber): Js {
    Obj(map["number" := Num(n)])
  }

  /** `{ date: { start } }` */
  function DateOf(start: string): Js {
    Obj(map["date" := Obj(map["start" := Str(start)])])
  }

  /**
    `startDate ? { date: { start: startDate.toISOString().split("T")[0] } } : undefined`:
    undefined for no date, the RangeError toISOString throws for an Invalid Date.
  */
  function StartDateProperty(startDate: Option<JsDate>): (r: Result<Js, string>)
    ensures r.Err? <==> startDate == Some(InvalidDate)
    ensures r.Ok? ==> (r.value == Undefined <==> startDate == None)
    ensures startDate.Some? && startDate.value.DateAt? ==>
      r.Ok? && DateStart(r.value) == Str(IsoDate(startDate.value.date))
  {
    match startDate
    case None => Ok(Undefined)
    case Some(j) =>
      match IsoDatePart(j)
      case Ok(iso) => Ok(DateOf(iso))
      case Err(e) => Err(e)
  }

  /** `item.properties || {}`: the page's properties, an empty object when it has none. */
  function PropsOf(item: Js): (r: Js)
    ensures Truthy(r)
    ensures Truthy(Get(item, "properties")) ==> r == Get(item, "properties")
    ensures !Truthy(Get(item, "properties")) ==> r == Obj(map[])
  {
    Or(Get(item, "properties"), Obj(map[]))
  }

  /** `p?.title` */
  function TitleRuns(p: Js): Js {
    Get(p, "title")
  }

  /** `p?.title?.[0]?.text?.content` */
  function FirstRunContent(p: Js): Js {
    Get(Get(First(TitleRuns(p)), "text"), "content")
  }

  /** `p?.title?.[0]?.plain_text` */
  function FirstRunPlainText(p: Js): Js {
    Get(First(TitleRuns(p)), "plain_text")
  }

  /** `p?.select?.name` */
  function SelectName(p: Js): Js {
    Get(Get(p, "select"), "name")
  }

  /** `p?.number` */
  function NumberField(p: Js): Js {
    Get(p, "number")
  }

  /** `p?.date?.start` */
  function DateStart(p: Js): Js {
    Get(Get(p, "date"), "start")
  }

  /** A written title reads back as one run carrying the text. */
  lemma TitleWithTextReadsBack(content: string)
    ensures TitleRuns(TitleWithText(content)).Arr? && |TitleRuns(TitleWithText(content)).items| == 1
    ensures FirstRunContent(TitleWithText(content)) == Str(content)
  {
  }

  /** A patched title reads back, by the decoders' path, as the text. */
  lemma TitleWithPlainTextReadsBack(text: string)
    ensures FirstRunPlainText(TitleWithPlainText(text)) == Str(text)
  {
  }

  lemma SelectOfReadsBack(name: Js)
    ensures SelectName(SelectOf(name)) == name
  {
  }

  lemma NumberOfReadsBack(n: JsNumber)
    ensures NumberField(NumberOf(n)) == Num(n)
  {
  }

  /** A written start-date property reads back, through `new Date(p.date.start)`, as the date written. */
  lemma StartDatePropertyReadsBack(d: ValidDate)
    ensures StartDateProperty(Some(DateAt(d))).Ok?
    ensures var p := StartDateProperty(Some(DateAt(d))).value;
      Truthy(DateStart(p)) && NewDate(DateStart(p)) == DateAt(d)
  {
    WrittenDateReadsBack(d);
    IsoDateHasNoT(d);
    assert IsoDate(d) != "" by { YearTextReadsBack(d.year); }
  }
}
