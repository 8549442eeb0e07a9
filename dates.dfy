/**
 * Calendar dates as the components use them: `YYYY-MM-DD` strings (what `toISOString().split('T')[0]`
 * and an `<input type="date">` produce), read as (year, month, day) triples of the proleptic
 * Gregorian calendar.
 */
module Dates {
  import opened Options
  import opened Numbers

  /** A calendar day; `month` runs 1..12 as in the ISO text (JavaScript's `getMonth()` is `month - 1`). */
  datatype Date = Date(year: int, month: int, day: int)

  predicate IsLeapYear(y: int) {
    y % 4 == 0 && (y % 100 != 0 || y % 400 == 0)
  }

  function DaysInMonth(y: int, m: int): (n: int)
    requires 1 <= m <= 12
    ensures 28 <= n <= 31
  {
    if m == 2 then (if IsLeapYear(y) then 29 else 28)
    else if m == 4 || m == 6 || m == 9 || m == 11 then 30
    else 31
  }

  predicate Valid(d: Date) {
    1 <= d.month <= 12 && 1 <= d.day <= DaysInMonth(d.year, d.month)
  }

  /** Strictly earlier in the calendar. */
  predicate Before(a: Date, b: Date) {
    a.year < b.year || (a.year == b.year && (a.month < b.month || (a.month == b.month && a.day < b.day)))
  }

  /** The day before `d` (what `setDate(getDate() - 1)` yields). */
  function PrevDay(d: Date): (r: Date)
    requires Valid(d)
    ensures Valid(r) && Before(r, d)
    ensures r.year == d.year || (r.year == d.year - 1 && r.month == 12 && r.day == 31)
  {
    if d.day > 1 then Date(d.year, d.month, d.day - 1)
    else if d.month > 1 then Date(d.year, d.month - 1, DaysInMonth(d.year, d.month - 1))
    else Date(d.year - 1, 12, 31)
  }

  /** No calendar day lies strictly between `PrevDay(d)` and `d`: it is the day immediately before. */
  lemma PrevDayAdjacent(d: Date, x: Date)
    requires Valid(d) && Valid(x) && Before(PrevDay(d), x)
    ensures !Before(x, d)
  {
  }

  /** The day `k` days before `d`. */
  function DaysBack(d: Date, k: nat): (r: Date)
    requires Valid(d)
    ensures Valid(r)
  {
    if k == 0 then d else PrevDay(DaysBack(d, k - 1))
  }

  /**
   * Going back at most 31 days crosses at most one new year, and then lands in December:
   * so a window of a week never reaches two years back.
   */
  lemma {:induction false} DaysBackYear(d: Date, k: nat)
    requires Valid(d) && k <= 31
    ensures var r := DaysBack(d, k);
      r.year == d.year || (r.year == d.year - 1 && r.month == 12 && r.day + k >= 32)
  {
    if k > 0 {
      DaysBackYear(d, k - 1);
    }
  }

  lemma BeforeTransitive(a: Date, b: Date, c: Date)
    requires Before(a, b) && Before(b, c)
    ensures Before(a, c)
  {
  }

  /** Going further back gives a strictly earlier day. */
  lemma {:induction false} DaysBackMonotone(d: Date, i: nat, j: nat)
    requires Valid(d) && i < j
    ensures Before(DaysBack(d, j), DaysBack(d, i))
  {
    if j > i + 1 {
      DaysBackMonotone(d, i, j - 1);
      BeforeTransitive(DaysBack(d, j), DaysBack(d, j - 1), DaysBack(d, i));
    }
  }

  /** The dates `toISOString` writes with a four-digit year. */
  predicate Formattable(d: Date) {
    Valid(d) && 0 <= d.year <= 9999
  }

  /** `YYYY-MM-DD`, zero-padded. */
  function FormatIso(d: Date): (s: string)
    requires Formattable(d)
    ensures |s| == 10
  {
    Digits(d.year, 4) + "-" + Digits(d.month, 2) + "-" + Digits(d.day, 2)
  }

  /** Reads a `YYYY-MM-DD` string; None when the text is not of that shape or names no calendar day. */
  function ParseIso(s: string): (r: Option<Date>)
    ensures r.Some? ==> Formattable(r.value)
  {
    if |s| == 10 && s[4] == '-' && s[7] == '-'
       && AllDigits(s[0..4]) && AllDigits(s[5..7]) && AllDigits(s[8..10])
       && Valid(Date(Value(s[0..4]), Value(s[5..7]), Value(s[8..10])))
    then
      assert Value(s[0..4]) <= 9999 by { ValueBound(s[0..4]); }
      Some(Date(Value(s[0..4]), Value(s[5..7]), Value(s[8..10])))
    else None
  }

  lemma {:induction false} ValueBound(s: string)
    requires AllDigits(s)
    ensures Value(s) < Pow10(|s|)
  {
    if s != [] {
      ValueBound(s[..|s| - 1]);
    }
  }

  /** Reading back a formatted date gives the date. */
  lemma ParseFormatIso(d: Date)
    requires Formattable(d)
    ensures ParseIso(FormatIso(d)) == Some(d)
  {
    var y, m, dd := Digits(d.year, 4), Digits(d.month, 2), Digits(d.day, 2);
    var s := FormatIso(d);
    assert s == y + "-" + m + "-" + dd;
    assert s[0..4] == y && s[5..7] == m && s[8..10] == dd;
    assert s[4] == '-' && s[7] == '-';
    ValueOfDigits(d.year, 4);
    ValueOfDigits(d.month, 2);
    ValueOfDigits(d.day, 2);
    assert Date(Value(s[0..4]), Value(s[5..7]), Value(s[8..10])) == d;
  }

  /** Different formattable dates are written differently. */
  lemma FormatIsoInjective(a: Date, b: Date)
    requires Formattable(a) && Formattable(b) && a != b
    ensures FormatIso(a) != FormatIso(b)
  {
    ParseFormatIso(a);
    ParseFormatIso(b);
  }

  /** A number that grows with the calendar: `YYYYMMDD`, for ordering dates. */
  function Ordinal(d: Date): int {
    d.year * 10000 + d.month * 100 + d.day
  }

  /** On valid dates, the ordinal order is the calendar order. */
  lemma OrdinalOrder(a: Date, b: Date)
    requires Valid(a) && Valid(b)
    ensures Before(a, b) <==> Ordinal(a) < Ordinal(b)
  {
    if a.year < b.year {
      assert a.month * 100 + a.day < 10000 + b.month * 100 + b.day;
      assert a.year * 10000 + 10000 <= b.year * 10000;
    } else if a.year > b.year {
      assert b.month * 100 + b.day < 10000 + a.month * 100 + a.day;
      assert b.year * 10000 + 10000 <= a.year * 10000;
    }
  }
}
