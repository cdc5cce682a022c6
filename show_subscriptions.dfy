/**
  The list command: the status tag, the decoding of one stored page into a
  list row, and the screen state the fetch effect drives (the rows, the
  loading flag and the error text) with the two empty views it selects.
*/
module ShowSubscriptions {
  import opened Wrappers
  import opened Dates
  import opened JsValues
  import opened Ui
  import opened NotionProperties

  /** `{ tag: { value, color }, icon }` */
  datatype StatusAccessory = StatusAccessory(value: Js, color: Option<Color>, icon: Option<TintedIcon>)

  /**
    `getStatusAccessory(status)`: nothing for a falsy status; "Trial" and
    "Inactive" are relabelled and coloured, "Active" keeps its text and is
    coloured green, and any other status keeps its text with no colour and
    no icon. The icon is always tinted with the tag's colour.
  */
  function GetStatusAccessory(status: Js): (r: Option<StatusAccessory>)
    ensures r == None <==> !Truthy(status)
    ensures r.Some? ==> (r.value.color.Some? <==> status in {Str("Trial"), Str("Inactive"), Str("Active")})
    ensures r.Some? ==> (r.value.icon.Some? <==> r.value.color.Some?)
    ensures r.Some? && r.value.icon.Some? ==> r.value.color == Some(r.value.icon.value.tintColor)
    ensures r.Some? && r.value.value != status ==> status == Str("Trial") || status == Str("Inactive")
    ensures status == Str("Trial") ==> r == Some(StatusAccessory(Str("On trial"), Some(Yellow), Some(TintedIcon(Clock, Yellow))))
    ensures status == Str("Inactive") ==> r == Some(StatusAccessory(Str("Not in use"), Some(SecondaryText), Some(TintedIcon(CircleDisabled, SecondaryText))))
    ensures status == Str("Active") ==> r == Some(StatusAccessory(Str("Active"), Some(Green), Some(TintedIcon(CheckCircle, Green))))
  {
    if !Truthy(status) then None
    else if status == Str("Trial") then
      Some(StatusAccessory(Str("On trial"), Some(Yellow), Some(TintedIcon(Clock, Yellow))))
    else if status == Str("Inactive") then
      Some(StatusAccessory(Str("Not in use"), Some(SecondaryText), Some(TintedIcon(CircleDisabled, SecondaryText))))
    else if status == Str("Active") then
      Some(StatusAccessory(status, Some(Green), Some(TintedIcon(CheckCircle, Green))))
    else
      Some(StatusAccessory(status, None, None))
  }

  /** A row accessory: the start date, the billing-cycle tag, or the status tag. */
  datatype Accessory =
    | DateAccessory(date: JsDate)
    | TagAccessory(tag: Js)
    | StatusTagAccessory(status: StatusAccessory)

  /** The position each kind of accessory takes in a row. */
  function Rank(a: Accessory): nat {
    match a
    case DateAccessory(_) => 0
    case TagAccessory(_) => 1
    case StatusTagAccessory(_) => 2
  }

  /** The list an optional accessory contributes. */
  function Listed(o: Option<Accessory>): seq<Accessory> {
    if o.Some? then [o.value] else []
  }

  /** `.filter(Boolean)` on a list whose entries are undefined or an (always truthy) object. */
  function Present(xs: seq<Option<Accessory>>): (r: seq<Accessory>)
    ensures |r| <= |xs|
  {
    if xs == [] then []
    else Listed(xs[0]) + Present(xs[1..])
  }

  /** Filtering keeps exactly the entries that are present. */
  lemma {:induction false} PresentKeepsExactly(xs: seq<Option<Accessory>>)
    ensures forall x :: x in Present(xs) <==> Some(x) in xs
    decreases |xs|
  {
    if xs != [] {
      PresentKeepsExactly(xs[1..]);
      assert xs == [xs[0]] + xs[1..];
    }
  }

  /** Filtering a concatenation filters each part, keeping their order. */
  lemma {:induction false} PresentAppend(a: seq<Option<Accessory>>, b: seq<Option<Accessory>>)
    ensures Present(a + b) == Present(a) + Present(b)
    decreases |a|
  {
    if a == [] {
      assert a + b == b;
    } else {
      var ab := a + b;
      assert ab[0] == a[0] && ab[1..] == a[1..] + b;
      assert Present(ab) == Listed(a[0]) + Present(a[1..] + b);
      PresentAppend(a[1..], b);
      assert Present(a) == Listed(a[0]) + Present(a[1..]);
    }
  }

  /** One list row; `url` is None when the page id is not a text. */
  datatype Row = Row(title: Js, subtitle: Option<string>, accessories: seq<Accessory>, url: Option<string>)

  const NOTION_URL_PREFIX := "https://www.notion.so/"

  /** What one character leaves after the hyphens are removed. */
  function Kept(c: char): string {
    if c == '-' then [] else [c]
  }

  /** `s.replace(/-/g, "")` */
  function StripHyphens(s: string): (r: string)
    ensures '-' !in r
    ensures |r| <= |s|
  {
    if s == [] then []
    else Kept(s[0]) + StripHyphens(s[1..])
  }

  /** Every character but the hyphen is kept. */
  lemma {:induction false} StripHyphensKeepsOthers(s: string)
    ensures forall c :: c in StripHyphens(s) <==> c in s && c != '-'
    decreases |s|
  {
    if s != [] {
      StripHyphensKeepsOthers(s[1..]);
      assert s == [s[0]] + s[1..];
    }
  }

  /** Removing hyphens from a concatenation removes them from each part. */
  lemma {:induction false} StripHyphensAppend(a: string, b: string)
    ensures StripHyphens(a + b) == StripHyphens(a) + StripHyphens(b)
    decreases |a|
  {
    if a == [] {
      assert a + b == b;
    } else {
      var ab := a + b;
      assert ab[0] == a[0] && ab[1..] == a[1..] + b;
      assert StripHyphens(ab) == Kept(a[0]) + StripHyphens(a[1..] + b);
      StripHyphensAppend(a[1..], b);
      assert StripHyphens(a) == Kept(a[0]) + StripHyphens(a[1..]);
    }
  }

  /** A text with no hyphen is left as it is; so stripping twice is stripping once. */
  lemma {:induction false} StripHyphensKeepsPlain(s: string)
    requires '-' !in s
    ensures StripHyphens(s) == s
    decreases |s|
  {
    if s != [] {
      StripHyphensKeepsPlain(s[1..]);
    }
  }

  /** A 32-character id in the store's 8-4-4-4-12 hyphenated form. */
  function Hyphenated(id: string): string
    requires |id| == 32
  {
    id[..8] + "-" + id[8..12] + "-" + id[12..16] + "-" + id[16..20] + "-" + id[20..]
  }

  /** A hyphen between two parts is dropped, and each part is stripped on its own. */
  lemma StripAroundHyphen(x: string, y: string)
    ensures StripHyphens(x + "-" + y) == StripHyphens(x) + StripHyphens(y)
  {
    var h := "-";
    assert h[0] == '-' && h[1..] == [];
    assert StripHyphens(h) == [];
    StripHyphensAppend(x, h);
    StripHyphensAppend(x + h, y);
  }

  /** The five groups of a hyphenated id, rejoined without hyphens, are the id. */
  lemma HyphenatedGroups(id: string)
    requires |id| == 32
    ensures id[..8] + id[8..12] + id[12..16] + id[16..20] + id[20..] == id
    ensures Hyphenated(id) == id[..8] + "-" + id[8..12] + "-" + id[12..16] + "-" + id[16..20] + "-" + id[20..]
  {
  }

  /** The page URL ends in the compact id: stripping the hyphens undoes the hyphenated form. */
  lemma HyphenatedIdStrips(id: string)
    requires |id| == 32 && '-' !in id
    ensures StripHyphens(Hyphenated(id)) == id
  {
    HyphenatedGroups(id);
    var p1, p2, p3, p4, p5 := id[..8], id[8..12], id[12..16], id[16..20], id[20..];
    assert '-' !in p1 && '-' !in p2 && '-' !in p3 && '-' !in p4 && '-' !in p5;
    StripHyphensKeepsPlain(p1);
    StripHyphensKeepsPlain(p2);
    StripHyphensKeepsPlain(p3);
    StripHyphensKeepsPlain(p4);
    StripHyphensKeepsPlain(p5);
    var q2 := p1 + "-" + p2;
    var q3 := q2 + "-" + p3;
    var q4 := q3 + "-" + p4;
    StripAroundHyphen(p1, p2);
    StripAroundHyphen(q2, p3);
    StripAroundHyphen(q3, p4);
    StripAroundHyphen(q4, p5);
  }

  /** The three candidate accessories, in the order the row lists them. */
  function Candidates(startDate: Js, billingCycle: Js, status: Js): (r: seq<Option<Accessory>>)
    ensures |r| == 3
    ensures forall i :: 0 <= i < |r| && r[i].Some? ==> Rank(r[i].value) == i
  {
    [ if Truthy(startDate) then Some(DateAccessory(NewDate(startDate))) else None,
      if Truthy(billingCycle) then Some(TagAccessory(billingCycle)) else None,
      match GetStatusAccessory(status)
      case None => None
      case Some(s) => Some(StatusTagAccessory(s)) ]
  }

  /**
    `SubscriptionListItem`: the row for a stored page, with `text` standing
    for the template literal's conversion of the price to text.
  */
  function DecodeRow(item: Js, text: Js -> string): Row {
    var props := PropsOf(item);
    var price := NumberField(Get(props, PRICE));
    Row(
      Or(FirstRunPlainText(Get(props, SUBSCRIPTION)), Str("(No name)")),
      if price != Undefined then Some("US$" + text(price)) else None,
      Present(Candidates(DateStart(Get(props, START_DATE)), SelectName(Get(props, BILLING_CYCLE)), SelectName(Get(props, STATUS)))),
      match Get(item, "id")
      case Str(id) => Some(NOTION_URL_PREFIX + StripHyphens(id))
      case _ => None)
  }

  /** Filtering three entries keeps the present ones in place order. */
  lemma PresentOfThree(a: Option<Accessory>, b: Option<Accessory>, c: Option<Accessory>)
    ensures Present([a, b, c]) == Listed(a) + Listed(b) + Listed(c)
  {
    assert [c][1..] == [];
    assert Present([c]) == Listed(c);
    assert [b, c][1..] == [c];
    assert Present([b, c]) == Listed(b) + Listed(c);
    assert [a, b, c][1..] == [b, c];
  }

  /** Three optional accessories of ranks 0, 1 and 2 list in strictly increasing rank. */
  lemma ListedInRankOrder(x: Option<Accessory>, y: Option<Accessory>, z: Option<Accessory>)
    requires x.Some? ==> Rank(x.value) == 0
    requires y.Some? ==> Rank(y.value) == 1
    requires z.Some? ==> Rank(z.value) == 2
    ensures var acc := Listed(x) + Listed(y) + Listed(z);
      && |acc| <= 3
      && (forall i, j :: 0 <= i < j < |acc| ==> Rank(acc[i]) < Rank(acc[j]))
  {
    var acc := Listed(x) + Listed(y) + Listed(z);
    if x.Some? {
      if y.Some? {
        if z.Some? { assert acc == [x.value, y.value, z.value]; } else { assert acc == [x.value, y.value]; }
      } else {
        if z.Some? { assert acc == [x.value, z.value]; } else { assert acc == [x.value]; }
      }
    } else {
      if y.Some? {
        if z.Some? { assert acc == [y.value, z.value]; } else { assert acc == [y.value]; }
      } else {
        if z.Some? { assert acc == [z.value]; } else { assert acc == []; }
      }
    }
  }

  /** The accessories of the three candidates come in the order date, billing cycle, status, so there are at most three. */
  lemma PresentCandidatesOrder(startDate: Js, billingCycle: Js, status: Js)
    ensures var acc := Present(Candidates(startDate, billingCycle, status));
      && |acc| <= 3
      && (forall i, j :: 0 <= i < j < |acc| ==> Rank(acc[i]) < Rank(acc[j]))
  {
    var c := Candidates(startDate, billingCycle, status);
    assert c == [c[0], c[1], c[2]];
    PresentOfThree(c[0], c[1], c[2]);
    ListedInRankOrder(c[0], c[1], c[2]);
  }

  /**
    Each accessory is present exactly when its source value is truthy, the
    status tag is the one getStatusAccessory builds, and nothing else is listed.
  */
  lemma PresentCandidatesMembers(startDate: Js, billingCycle: Js, status: Js)
    ensures var acc := Present(Candidates(startDate, billingCycle, status));
      && (DateAccessory(NewDate(startDate)) in acc <==> Truthy(startDate))
      && (TagAccessory(billingCycle) in acc <==> Truthy(billingCycle))
      && (forall a :: a in acc && a.StatusTagAccessory? ==> Some(a.status) == GetStatusAccessory(status))
      && ((exists a :: a in acc && a.StatusTagAccessory?) <==> Truthy(status))
      && (forall a :: a in acc ==> a == DateAccessory(NewDate(startDate)) || a == TagAccessory(billingCycle) || a.StatusTagAccessory?)
  {
    var c := Candidates(startDate, billingCycle, status);
    assert c == [c[0], c[1], c[2]];
    PresentOfThree(c[0], c[1], c[2]);
    PresentKeepsExactly(c);
    if Truthy(status) {
      assert StatusTagAccessory(GetStatusAccessory(status).value) in Listed(c[2]);
    }
  }

  /**
    The row: the name is the first title run's plain text, "(No name)" when
    that is missing or empty; the subtitle is "US$" and the price exactly when
    the price is not undefined (a null price included); the accessories are
    the present ones in the order date, billing cycle, status; the URL is the
    Notion address of the id with every hyphen removed.
  */
  lemma DecodeRowSpec(item: Js, text: Js -> string)
    ensures var props := PropsOf(item);
      var row := DecodeRow(item, text);
      && Truthy(row.title)
      && (Truthy(FirstRunPlainText(Get(props, SUBSCRIPTION))) ==> row.title == FirstRunPlainText(Get(props, SUBSCRIPTION)))
      && (!Truthy(FirstRunPlainText(Get(props, SUBSCRIPTION))) ==> row.title == Str("(No name)"))
      && (row.subtitle.Some? <==> NumberField(Get(props, PRICE)) != Undefined)
      && (row.subtitle.Some? ==> row.subtitle.value == "US$" + text(NumberField(Get(props, PRICE))))
      && |row.accessories| <= 3
      && (forall i, j :: 0 <= i < j < |row.accessories| ==> Rank(row.accessories[i]) < Rank(row.accessories[j]))
      && (row.url.Some? <==> Get(item, "id").Str?)
      && (row.url.Some? ==>
            row.url.value == NOTION_URL_PREFIX + StripHyphens(Get(item, "id").s)
            && '-' !in row.url.value[|NOTION_URL_PREFIX|..])
    ensures var props := PropsOf(item);
      var start, cycle, status := DateStart(Get(props, START_DATE)), SelectName(Get(props, BILLING_CYCLE)), SelectName(Get(props, STATUS));
      var acc := DecodeRow(item, text).accessories;
      && (DateAccessory(NewDate(start)) in acc <==> Truthy(start))
      && (TagAccessory(cycle) in acc <==> Truthy(cycle))
      && (forall a :: a in acc && a.StatusTagAccessory? ==> Some(a.status) == GetStatusAccessory(status))
      && ((exists a :: a in acc && a.StatusTagAccessory?) <==> Truthy(status))
      && (forall a :: a in acc ==> a == DateAccessory(NewDate(start)) || a == TagAccessory(cycle) || a.StatusTagAccessory?)
  {
    var props := PropsOf(item);
    PresentCandidatesOrder(DateStart(Get(props, START_DATE)), SelectName(Get(props, BILLING_CYCLE)), SelectName(Get(props, STATUS)));
    PresentCandidatesMembers(DateStart(Get(props, START_DATE)), SelectName(Get(props, BILLING_CYCLE)), SelectName(Get(props, STATUS)));
    var row := DecodeRow(item, text);
    if row.url.Some? {
      assert row.url.value[|NOTION_URL_PREFIX|..] == StripHyphens(Get(item, "id").s);
    }
  }

  /** `data.results || []`, read as the list of pages. */
  function ResultsList(data: Js): (r: seq<Js>)
    ensures Get(data, "results").Arr? ==> r == Get(data, "results").items
    ensures !Get(data, "results").Arr? ==> r == []
  {
    match Get(data, "results")
    case Arr(items) => items
    case _ => []
  }

  /**
    The TypeError the engine raises for `data.results` when the query
    resolved to undefined or null (the message is the one V8 writes).
  */
  function ReadOfNothing(data: Js): (r: Js)
    requires data == Undefined || data == Null
    ensures Truthy(Get(r, "message"))
  {
    var what := if data == Undefined then "undefined" else "null";
    Obj(map["message" := Str("Cannot read properties of " + what + " (reading 'results')")])
  }

  /**
    What the `try` block of fetchSubscriptions ends with, given the outcome
    of the query: the pages to list, or the value thrown — the query's own
    failure, or the TypeError of reading `results` off undefined or null.
  */
  function Settled(outcome: Result<Js, Js>): (r: Result<seq<Js>, Js>)
    ensures r.Err? <==> outcome.Err? || outcome.value == Undefined || outcome.value == Null
    ensures outcome.Err? ==> r == Err(outcome.error)
    ensures r.Err? && outcome.Ok? ==> Truthy(Get(r.error, "message"))
    ensures r.Ok? ==> r.value == ResultsList(outcome.value)
  {
    match outcome
    case Err(err) => Err(err)
    case Ok(data) =>
      if data == Undefined || data == Null then Err(ReadOfNothing(data)) else Ok(ResultsList(data))
  }

  const FETCH_FAILED := "Failed to fetch subscriptions"

  /** `err.message || "Failed to fetch subscriptions"`: always a truthy error. */
  function FetchErrorText(err: Js): (r: Js)
    ensures Truthy(r)
    ensures Truthy(Get(err, "message")) ==> r == Get(err, "message")
    ensures !Truthy(Get(err, "message")) ==> r == Str(FETCH_FAILED)
  {
    Or(Get(err, "message"), Str(FETCH_FAILED))
  }

  /** A thrown undefined or null: reading its `message` throws again, inside the `catch` block. */
  predicate CatchFaults(err: Js) {
    err == Undefined || err == Null
  }

  /** `{error && <List.EmptyView title="Error" …/>}` */
  predicate ShowsErrorView(error: Js) {
    Truthy(error)
  }

  /** `{!error && subscriptions.length === 0 && !loading && <List.EmptyView …/>}` */
  predicate ShowsEmptyView(error: Js, loading: bool, count: nat) {
    !Truthy(error) && count == 0 && !loading
  }

  /** The two empty views never show together. */
  lemma EmptyViewsExclusive(error: Js, loading: bool, count: nat)
    ensures !(ShowsErrorView(error) && ShowsEmptyView(error, loading, count))
  {
  }

  /** The list command's state: the pages listed, the loading flag, the error text (null when none) and the toasts shown. */
  class SubscriptionsScreen {
    var subscriptions: seq<Js>
    var loading: bool
    var error: Js
    var toasts: seq<Toast>

    /** The state before the effect has run: no pages, loading, no error. */
    constructor ()
      ensures subscriptions == [] && loading && error == Null && toasts == []
      ensures !ShowsErrorView(error) && !ShowsEmptyView(error, loading, |subscriptions|)
    {
      subscriptions := [];
      loading := true;
      error := Null;
      toasts := [];
    }

    /**
      `fetchSubscriptions()`, given the outcome of the query: the pages
      on success, the thrown value on failure. Loading is over afterwards
      (the `finally` block). When the `try` block settles with pages they
      replace the list and the error is cleared; when it throws, the list is
      kept, and the error text and a failure toast with the thrown message
      are recorded — unless the thrown value is undefined or null, whose
      `message` read throws out of the `catch` block before either is set.
    */
    method FetchSubscriptions(outcome: Result<Js, Js>)
      modifies this
      ensures !loading
      ensures Settled(outcome).Ok? ==>
        subscriptions == Settled(outcome).value && error == Null && toasts == old(toasts)
      ensures Settled(outcome).Err? ==> subscriptions == old(subscriptions)
      ensures Settled(outcome).Err? && !CatchFaults(Settled(outcome).error) ==>
        && error == FetchErrorText(Settled(outcome).error)
        && toasts == old(toasts) + [Toast(Failure, "Error", Get(Settled(outcome).error, "message"))]
      ensures Settled(outcome).Err? && CatchFaults(Settled(outcome).error) ==>
        error == Null && toasts == old(toasts)
      ensures ShowsErrorView(error) <==> Settled(outcome).Err? && !CatchFaults(Settled(outcome).error)
      ensures ShowsEmptyView(error, loading, |subscriptions|) <==>
        (Settled(outcome) == Ok([]) || (Settled(outcome).Err? && CatchFaults(Settled(outcome).error) && old(subscriptions) == []))
    {
      loading := true;
      error := Null;
      match Settled(outcome) {
        case Ok(pages) =>
          subscriptions := pages;
        case Err(err) =>
          if !CatchFaults(err) {
            error := FetchErrorText(err);
            toasts := toasts + [Toast(Failure, "Error", Get(err, "message"))];
          }
      }
      loading := false;
    }
  }
}
