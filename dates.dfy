/**
  Calendar dates as the forms handle them: a date picked in the form, the
  "today + 14 days" default, the `YYYY-MM-DD` text written to the store by
  `toISOString().split("T")[0]`, and that text read back by `new Date(text)`.
  Dates are proleptic Gregorian calendar dates taken as UTC; months are
  numbered from 1 (the JavaScript Date API numbers them from 0).
*/
module Dates {
  import opened Wrappers

  datatype CalendarDate = CalendarDate(year: int, month: int, day: int)

  predicate IsLeapYear(y: int) {
    y % 4 == 0 && (y % 100 != 0 || y % 400 == 0)
  }

  function DaysInMonth(y: int, m: int): (n: int)
    ensures 28 <= n <= 31
  {
    if m == 2 then (if IsLeapYear(y) then 29 else 28)
    else if m == 4 || m == 6 || m == 9 || m == 11 then 30
    else 31
  }

  predicate IsValid(d: CalendarDate) {
    1 <= d.month <= 12 && 1 <= d.day <= DaysInMonth(d.year, d.month)
  }

  type ValidDate = d: CalendarDate | IsValid(d) witness CalendarDate(1970, 1, 1)

  /** The following calendar day. */
  function NextDay(d: ValidDate): ValidDate {
    if d.day < DaysInMonth(d.year, d.month) then CalendarDate(d.year, d.month, d.day + 1)
    else if d.month < 12 then CalendarDate(d.year, d.month + 1, 1)
    else CalendarDate(d.year + 1, 1, 1)
  }

  /** The date n days after d, counted one day at a time: the reference meaning of "n days later". */
  function AddDays(d: ValidDate, n: nat): ValidDate {
    if n == 0 then d else NextDay(AddDays(d, n - 1))
  }

  /**
    The date `new Date(y, m - 1, dd)` stands for when the day of month dd may
    run past the end of month m: the excess is carried into the following
    months, and from December into January of the next year.
  */
  function CarryDays(y: int, m: int, dd: int): (r: ValidDate)
    requires 1 <= m <= 12 && dd >= 1
    ensures dd <= DaysInMonth(y, m) ==> r == CalendarDate(y, m, dd)
    decreases dd
  {
    var dim := DaysInMonth(y, m);
    if dd <= dim then CalendarDate(y, m, dd)
    else if m < 12 then CarryDays(y, m + 1, dd - dim)
    else CarryDays(y + 1, 1, dd - dim)
  }

  /** Carrying one more day moves the carried date on by exactly one calendar day. */
  lemma {:induction false} CarryDaysStep(y: int, m: int, dd: int)
    requires 1 <= m <= 12 && dd >= 1
    ensures NextDay(CarryDays(y, m, dd)) == CarryDays(y, m, dd + 1)
    decreases dd
  {
    var dim := DaysInMonth(y, m);
    if dd < dim {
    } else if dd == dim {
      if m < 12 {
        assert CarryDays(y, m, dd + 1) == CarryDays(y, m + 1, 1);
      } else {
        assert CarryDays(y, m, dd + 1) == CarryDays(y + 1, 1, 1);
      }
    } else if m < 12 {
      CarryDaysStep(y, m + 1, dd - dim);
    } else {
      CarryDaysStep(y + 1, 1, dd - dim);
    }
  }

  /** Carrying a day-of-month overflow of n days is the same as counting n days forward. */
  lemma {:induction false} CarryDaysIsAddDays(d: ValidDate, n: nat)
    ensures CarryDays(d.year, d.month, d.day + n) == AddDays(d, n)
  {
    if n > 0 {
      CarryDaysIsAddDays(d, n - 1);
      CarryDaysStep(d.year, d.month, d.day + n - 1);
    }
  }

  // ---- decimal numerals ----

  predicate IsDigit(c: char) {
    '0' <= c <= '9'
  }

  predicate AllDigits(s: string) {
    forall i :: 0 <= i < |s| ==> IsDigit(s[i])
  }

  function DigitChar(k: int): (c: char)
    requires 0 <= k <= 9
    ensures IsDigit(c)
  {
    ('0' as int + k) as char
  }

  function DigitValue(c: char): int
    requires IsDigit(c)
  {
    c as int - '0' as int
  }

  function Pow10(n: nat): nat {
    if n == 0 then 1 else 10 * Pow10(n - 1)
  }

  /** The decimal numeral of n, zero-padded on the left to at least w digits. */
  function Padded(n: nat, w: nat): string
    decreases n, w
  {
    if n == 0 && w == 0 then ""
    else Padded(n / 10, if w == 0 then 0 else w - 1) + [DigitChar(n % 10)]
  }

  /** The value of a string of decimal digits. */
  function NumeralValue(s: string): nat
    requires AllDigits(s)
  {
    if s == [] then 0 else 10 * NumeralValue(s[..|s| - 1]) + DigitValue(s[|s| - 1])
  }

  /** A padded numeral consists of digits, reads back as its number, and is exactly w long when n has at most w digits. */
  lemma {:induction false} PaddedReadsBack(n: nat, w: nat)
    ensures AllDigits(Padded(n, w)) && NumeralValue(Padded(n, w)) == n
    ensures |Padded(n, w)| >= w
    ensures n < Pow10(w) ==> |Padded(n, w)| == w
    decreases n, w
  {
    if n != 0 || w != 0 {
      var w' := if w == 0 then 0 else w - 1;
      PaddedReadsBack(n / 10, w');
      var s := Padded(n, w);
      assert s[..|s| - 1] == Padded(n / 10, w');
      assert DigitValue(s[|s| - 1]) == n % 10;
      if n < Pow10(w) && w > 0 {
        assert n / 10 < Pow10(w');
      }
    }
  }

  // ---- the date part of toISOString, and new Date(text) ----

  /** The year as toISOString writes it: four digits for 0000-9999, otherwise a sign and at least six digits. */
  function YearText(y: int): string {
    if 0 <= y <= 9999 then Padded(y, 4)
    else if y < 0 then "-" + Padded(-y, 6)
    else "+" + Padded(y, 6)
  }

  /** `YYYY-MM-DD`: the full-date production of section 5.6 of RFC 3339 (with the expanded year form outside 0000-9999). */
  function IsoDate(d: ValidDate): string {
    YearText(d.year) + "-" + Padded(d.month, 2) + "-" + Padded(d.day, 2)
  }

  /** The year part of a date string: four digits, or a sign and at least six digits ("-000000" is refused). */
  function ParseYear(t: string): Option<int> {
    if |t| == 4 && AllDigits(t) then Some(NumeralValue(t))
    else if |t| >= 7 && (t[0] == '+' || t[0] == '-') && AllDigits(t[1..]) then
      var v: int := NumeralValue(t[1..]);
      if t[0] == '+' then Some(v)
      else if v == 0 then None
      else Some(-v)
    else None
  }

  /**
    Reads `YYYY-MM-DD` (or the expanded-year form) as V8's date parser does:
    the month must be 01-12 and the day 01-31, and a day past the end of the
    month is carried into the next month ("2024-02-30" is 1 March 2024).
  */
  function ParseIsoDate(s: string): Option<ValidDate> {
    if |s| < 10 || s[|s| - 6] != '-' || s[|s| - 3] != '-' then None
    else ParseFields(s[..|s| - 6], s[|s| - 5..|s| - 3], s[|s| - 2..])
  }

  /** The date named by the year, month and day fields cut out of a date text. */
  function ParseFields(yt: string, mm: string, dd: string): Option<ValidDate> {
    if !AllDigits(mm) || !AllDigits(dd) then None
    else match ParseYear(yt)
      case None => None
      case Some(y) =>
        var m, day := NumeralValue(mm), NumeralValue(dd);
        if 1 <= m <= 12 && 1 <= day <= 31 then Some(CarryDays(y, m, day)) else None
  }

  lemma YearTextReadsBack(y: int)
    ensures ParseYear(YearText(y)) == Some(y)
    ensures 0 <= y <= 9999 ==> |YearText(y)| == 4 && AllDigits(YearText(y))
    ensures |YearText(y)| >= 4
  {
    if 0 <= y <= 9999 {
      PaddedReadsBack(y, 4);
    } else {
      var a := if y < 0 then -y else y;
      PaddedReadsBack(a, 6);
      var t := YearText(y);
      assert t[1..] == Padded(a, 6);
      assert |t| >= 7 && (t[0] == '+' || t[0] == '-');
      assert NumeralValue(t[1..]) == a;
      if y < 0 {
        assert t[0] == '-' && a != 0;
      } else {
        assert t[0] == '+';
      }
    }
  }

  /** ParseIsoDate cuts `yt-mt-dt` into the fields yt, mt and dt. */
  lemma DateTextFields(yt: string, mt: string, dt: string)
    requires |yt| >= 4 && |mt| == 2 && |dt| == 2
    ensures ParseIsoDate(yt + "-" + mt + "-" + dt) == ParseFields(yt, mt, dt)
  {
    var s := yt + "-" + mt + "-" + dt;
    assert |s| == |yt| + 6 && s[|s| - 6] == '-' && s[|s| - 3] == '-';
    assert s[..|s| - 6] == yt;
    assert s[|s| - 5..|s| - 3] == mt;
    assert s[|s| - 2..] == dt;
  }

  /** Text `yt-mt-dt` whose year, month and day fields read as y, m and dd is read as that day, carried past the end of the month. */
  lemma FieldsReadCarried(yt: string, mt: string, dt: string, y: int, m: int, dd: int)
    requires |yt| >= 4 && ParseYear(yt) == Some(y)
    requires |mt| == 2 && AllDigits(mt) && NumeralValue(mt) == m
    requires |dt| == 2 && AllDigits(dt) && NumeralValue(dt) == dd
    requires 1 <= m <= 12 && 1 <= dd <= 31
    ensures ParseIsoDate(yt + "-" + mt + "-" + dt) == Some(CarryDays(y, m, dd))
  {
    DateTextFields(yt, mt, dt);
  }

  /** Text naming a month 01-12 and a day 01-31 reads as that day, carried past the end of the month when it does not exist. */
  lemma DateTextReadsCarried(y: int, m: int, dd: int)
    requires 1 <= m <= 12 && 1 <= dd <= 31
    ensures ParseIsoDate(YearText(y) + "-" + Padded(m, 2) + "-" + Padded(dd, 2)) == Some(CarryDays(y, m, dd))
  {
    YearTextReadsBack(y);
    PaddedReadsBack(m, 2);
    PaddedReadsBack(dd, 2);
    FieldsReadCarried(YearText(y), Padded(m, 2), Padded(dd, 2), y, m, dd);
  }

  /** The day V8 reads "2024-02-30" as: 1 March 2024. */
  lemma February30thRollsOver()
    ensures ParseIsoDate("2024-02-30") == Some(CalendarDate(2024, 3, 1))
  {
    DateTextReadsCarried(2024, 2, 30);
    assert Padded(2, 2) == "02" && Padded(30, 2) == "30";
    assert YearText(2024) == "2024";
    assert "2024" + "-" + "02" + "-" + "30" == "2024-02-30";
    assert DaysInMonth(2024, 2) == 29;
    assert CarryDays(2024, 2, 30) == CarryDays(2024, 3, 1) == CalendarDate(2024, 3, 1);
  }

  /** Reading back the written date gives the date that was written. */
  lemma IsoDateRoundTrip(d: ValidDate)
    ensures ParseIsoDate(IsoDate(d)) == Some(d)
  {
    DateTextReadsCarried(d.year, d.month, d.day);
  }

  /** For years 0000-9999 the written text is exactly the RFC 3339 full-date shape: 4 digits, '-', 2 digits, '-', 2 digits. */
  lemma IsoDateIsFullDate(d: ValidDate)
    requires 0 <= d.year <= 9999
    ensures |IsoDate(d)| == 10
    ensures IsoDate(d)[4] == '-' && IsoDate(d)[7] == '-'
    ensures forall i :: 0 <= i < 10 && i != 4 && i != 7 ==> IsDigit(IsoDate(d)[i])
  {
    YearTextReadsBack(d.year);
    PaddedReadsBack(d.month, 2);
    PaddedReadsBack(d.day, 2);
  }

  /** A Date object: a calendar date, or the Invalid Date that `new Date` gives for text it cannot read. */
  datatype JsDate = DateAt(date: ValidDate) | InvalidDate

  /** The text V8 puts in the RangeError toISOString throws on an Invalid Date. */
  const INVALID_TIME_VALUE := "RangeError: Invalid time value"

  const MIDNIGHT_UTC := "00:00:00.000Z"

  /** `toISOString()`: the date part, 'T', and the time of day (midnight, dates being taken as UTC). */
  function ToIsoString(j: JsDate): Result<string, string> {
    match j
    case DateAt(d) => Ok(IsoDate(d) + "T" + MIDNIGHT_UTC)
    case InvalidDate => Err(INVALID_TIME_VALUE)
  }

  /** `s.split("T")[0]`: the text before the first 'T'. */
  function BeforeFirstT(s: string): (r: string)
    ensures |r| <= |s| && r == s[..|r|]
    ensures 'T' !in r
  {
    if s == [] || s[0] == 'T' then "" else [s[0]] + BeforeFirstT(s[1..])
  }

  lemma {:induction false} BeforeFirstTOfPrefix(a: string, b: string)
    requires 'T' !in a
    ensures BeforeFirstT(a + "T" + b) == a
  {
    if a != [] {
      assert (a + "T" + b)[1..] == a[1..] + "T" + b;
      BeforeFirstTOfPrefix(a[1..], b);
    }
  }

  /** `toISOString().split("T")[0]`: the ISO calendar date, or the RangeError for an Invalid Date. */
  function IsoDatePart(j: JsDate): (r: Result<string, string>)
    ensures j.DateAt? ==> r == Ok(IsoDate(j.date))
    ensures j.InvalidDate? ==> r == Err(INVALID_TIME_VALUE)
  {
    match ToIsoString(j)
    case Ok(iso) =>
      assert 'T' !in IsoDate(j.date) by { IsoDateHasNoT(j.date); }
      BeforeFirstTOfPrefix(IsoDate(j.date), MIDNIGHT_UTC);
      Ok(BeforeFirstT(iso))
    case Err(e) => Err(e)
  }

  /** A string of digits holds no 'T'. */
  lemma DigitsHaveNoT(s: string)
    requires AllDigits(s)
    ensures 'T' !in s
  {
  }

  /** The year text is digits, possibly after a sign, so it holds no 'T'. */
  lemma YearTextHasNoT(y: int)
    ensures 'T' !in YearText(y)
  {
    if 0 <= y <= 9999 {
      PaddedReadsBack(y, 4);
      DigitsHaveNoT(Padded(y, 4));
    } else {
      var a := if y < 0 then -y else y;
      PaddedReadsBack(a, 6);
      DigitsHaveNoT(Padded(a, 6));
    }
  }

  lemma IsoDateHasNoT(d: ValidDate)
    ensures 'T' !in IsoDate(d)
  {
    YearTextHasNoT(d.year);
    PaddedReadsBack(d.month, 2);
    PaddedReadsBack(d.day, 2);
    DigitsHaveNoT(Padded(d.month, 2));
    DigitsHaveNoT(Padded(d.day, 2));
  }

  /** `new Date(text)` for text in the store's `YYYY-MM-DD` form; any other text gives an Invalid Date here. */
  function NewDateFromText(s: string): (r: JsDate)
    ensures r.DateAt? <==> ParseIsoDate(s).Some?
  {
    match ParseIsoDate(s)
    case Some(d) => DateAt(d)
    case None => InvalidDate
  }

  /** Writing a date and reading it back with `new Date` gives the same date. */
  lemma WrittenDateReadsBack(d: ValidDate)
    ensures IsoDatePart(DateAt(d)) == Ok(IsoDate(d))
    ensures NewDateFromText(IsoDate(d)) == DateAt(d)
  {
    IsoDateRoundTrip(d);
  }
}
