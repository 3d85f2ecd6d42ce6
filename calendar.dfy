/** Proleptic Gregorian calendar dates as Python's `datetime.date` has them
    (years 1 to 9999), with the day and month steps the batch scripts use and
    the `%Y-%m-%d` text form they send to the database. */
module Calendar {
  import opened Wrappers
  import Text

  datatype Date = Date(year: int, month: int, day: int)

  predicate IsLeapYear(y: int)
  {
    y % 4 == 0 && (y % 100 != 0 || y % 400 == 0)
  }

  function DaysInMonth(y: int, m: int): (n: int)
    requires 1 <= m <= 12
    ensures 28 <= n <= 31
    ensures m == 2 ==> (n == 29 <==> IsLeapYear(y))
  {
    if m == 2 then (if IsLeapYear(y) then 29 else 28)
    else if m == 4 || m == 6 || m == 9 || m == 11 then 30
    else 31
  }

  predicate Valid(d: Date)
  {
    1 <= d.year <= 9999 && 1 <= d.month <= 12 && 1 <= d.day <= DaysInMonth(d.year, d.month)
  }

  const FirstDate := Date(1, 1, 1)
  const LastDate := Date(9999, 12, 31)

  /** Strict chronological order. */
  predicate Before(a: Date, b: Date)
  {
    a.year < b.year
    || (a.year == b.year && a.month < b.month)
    || (a.year == b.year && a.month == b.month && a.day < b.day)
  }

  function NextDay(d: Date): (r: Date)
    requires Valid(d) && d != LastDate
    ensures Valid(r) && Before(d, r)
  {
    if d.day < DaysInMonth(d.year, d.month) then Date(d.year, d.month, d.day + 1)
    else if d.month < 12 then Date(d.year, d.month + 1, 1)
    else Date(d.year + 1, 1, 1)
  }

  function PrevDay(d: Date): (r: Date)
    requires Valid(d) && d != FirstDate
    ensures Valid(r) && Before(r, d)
  {
    if d.day > 1 then Date(d.year, d.month, d.day - 1)
    else if d.month > 1 then Date(d.year, d.month - 1, DaysInMonth(d.year, d.month - 1))
    else Date(d.year - 1, 12, 31)
  }

  /** Stepping back a day and forward again, or forward and back, returns to the same date. */
  lemma DayStepsInverse(d: Date)
    requires Valid(d)
    ensures d != FirstDate ==> PrevDay(d) != LastDate && NextDay(PrevDay(d)) == d
    ensures d != LastDate ==> NextDay(d) != FirstDate && PrevDay(NextDay(d)) == d
  {
  }

  function DaysInYear(y: int): int
  {
    if IsLeapYear(y) then 366 else 365
  }

  /** Days in the years before `y`, counting from year 1. */
  function DaysBeforeYear(y: int): (n: int)
    ensures n >= 0
    // every earlier year has 365 or 366 days
    ensures y >= 1 ==> 365 * (y - 1) <= n <= 366 * (y - 1)
    decreases y
  {
    if y <= 1 then 0 else DaysBeforeYear(y - 1) + DaysInYear(y - 1)
  }

  /** Days in the months of year `y` before month `m`. */
  function DaysBeforeMonth(y: int, m: int): (n: int)
    requires 1 <= m <= 12
    ensures n >= 0
    // every earlier month has 28 to 31 days
    ensures 28 * (m - 1) <= n <= 31 * (m - 1)
    decreases m
  {
    if m == 1 then 0 else DaysBeforeMonth(y, m - 1) + DaysInMonth(y, m - 1)
  }

  /** The twelve months make up the year. */
  lemma MonthsFillYear(y: int)
    ensures DaysBeforeMonth(y, 12) + DaysInMonth(y, 12) == DaysInYear(y)
  {
    assert DaysBeforeMonth(y, 2) == 31;
    assert DaysBeforeMonth(y, 3) == 31 + DaysInMonth(y, 2);
    assert DaysBeforeMonth(y, 4) == 62 + DaysInMonth(y, 2);
    assert DaysBeforeMonth(y, 5) == 92 + DaysInMonth(y, 2);
    assert DaysBeforeMonth(y, 6) == 123 + DaysInMonth(y, 2);
    assert DaysBeforeMonth(y, 7) == 153 + DaysInMonth(y, 2);
    assert DaysBeforeMonth(y, 8) == 184 + DaysInMonth(y, 2);
    assert DaysBeforeMonth(y, 9) == 215 + DaysInMonth(y, 2);
    assert DaysBeforeMonth(y, 10) == 245 + DaysInMonth(y, 2);
    assert DaysBeforeMonth(y, 11) == 276 + DaysInMonth(y, 2);
    assert DaysBeforeMonth(y, 12) == 306 + DaysInMonth(y, 2);
  }

  /** The ordinal of a date: 0001-01-01 is day 1 (Python's `toordinal`). */
  function DayNumber(d: Date): (n: int)
    requires Valid(d)
    ensures n >= 1
  {
    DaysBeforeYear(d.year) + DaysBeforeMonth(d.year, d.month) + d.day
  }

  /** The next day is the next ordinal. */
  lemma NextDayNumber(d: Date)
    requires Valid(d) && d != LastDate
    ensures DayNumber(NextDay(d)) == DayNumber(d) + 1
  {
    var y, m := d.year, d.month;
    if d.day < DaysInMonth(y, m) {
      assert NextDay(d) == Date(y, m, d.day + 1);
    } else if m < 12 {
      assert NextDay(d) == Date(y, m + 1, 1);
      assert DaysBeforeMonth(y, m + 1) == DaysBeforeMonth(y, m) + DaysInMonth(y, m);
    } else {
      assert NextDay(d) == Date(y + 1, 1, 1);
      MonthsFillYear(y);
      assert DaysBeforeYear(y + 1) == DaysBeforeYear(y) + DaysInYear(y);
    }
  }

  /** The previous day is the previous ordinal, and only the first date has ordinal 1. */
  lemma PrevDayNumber(d: Date)
    requires Valid(d) && d != FirstDate
    ensures DayNumber(PrevDay(d)) == DayNumber(d) - 1
    ensures DayNumber(d) > 1
  {
    DayStepsInverse(d);
    NextDayNumber(PrevDay(d));
  }

  /** `d - timedelta(days=n)`; None where Python raises OverflowError
      because the result would fall before 0001-01-01. */
  function MinusDays(d: Date, n: nat): (r: Option<Date>)
    requires Valid(d)
    ensures r.Some? ==> Valid(r.value) && (n > 0 ==> Before(r.value, d))
    ensures r.Some? && n == 0 ==> r.value == d
    ensures r.None? ==> n > 0
    decreases n
  {
    if n == 0 then Some(d)
    else if d == FirstDate then None
    else
      var r := MinusDays(PrevDay(d), n - 1);
      assert r.Some? ==> Before(r.value, d) by {
        if r.Some? && n - 1 > 0 { BeforeTransitive(r.value, PrevDay(d), d); }
      }
      r
  }

  /** `MinusDays` goes exactly n ordinals back, and fails exactly when that
      would be before day 1, 0001-01-01. */
  lemma {:induction false} MinusDaysCountsDays(d: Date, n: nat)
    requires Valid(d)
    ensures MinusDays(d, n).Some? ==> DayNumber(MinusDays(d, n).value) == DayNumber(d) - n
    ensures MinusDays(d, n).None? <==> DayNumber(d) - n < 1
    decreases n
  {
    if n > 0 && d != FirstDate {
      PrevDayNumber(d);
      MinusDaysCountsDays(PrevDay(d), n - 1);
    }
  }

  lemma BeforeTransitive(a: Date, b: Date, c: Date)
    requires Before(a, b) && Before(b, c)
    ensures Before(a, c)
  {
  }

  function StartOfMonth(d: Date): (r: Date)
    requires Valid(d)
    ensures Valid(r) && r.year == d.year && r.month == d.month && r.day == 1
  {
    Date(d.year, d.month, 1)
  }

  /** `d + relativedelta(months=1)`: the same day of the following month,
      clamped to that month's last day. */
  function PlusOneMonth(d: Date): (r: Date)
    requires Valid(d) && !(d.year == 9999 && d.month == 12)
    ensures Valid(r)
  {
    var (y, m) := if d.month == 12 then (d.year + 1, 1) else (d.year, d.month + 1);
    Date(y, m, if d.day <= DaysInMonth(y, m) then d.day else DaysInMonth(y, m))
  }

  /** `d - relativedelta(months=1)`: the same day of the preceding month,
      clamped to that month's last day. */
  function MinusOneMonth(d: Date): (r: Date)
    requires Valid(d) && !(d.year == 1 && d.month == 1)
    ensures Valid(r)
  {
    var (y, m) := if d.month == 1 then (d.year - 1, 12) else (d.year, d.month - 1);
    Date(y, m, if d.day <= DaysInMonth(y, m) then d.day else DaysInMonth(y, m))
  }

  /** The calendar month just before the month of `d`, as (year, month). */
  function PrecedingMonth(y: int, m: int): (r: (int, int))
    requires 1 <= m <= 12
    ensures 1 <= r.1 <= 12
    ensures r.0 * 12 + r.1 == y * 12 + m - 1
  {
    if m == 1 then (y - 1, 12) else (y, m - 1)
  }

  lemma MinusOneMonthIsPrecedingMonth(d: Date)
    requires Valid(d) && !(d.year == 1 && d.month == 1)
    ensures (MinusOneMonth(d).year, MinusOneMonth(d).month) == PrecedingMonth(d.year, d.month)
  {
  }

  /** `(start_of_month + relativedelta(months=1)) - timedelta(days=1)`, the
      expression the backfill uses for the end of a month. */
  function EndOfMonth(d: Date): (r: Date)
    requires Valid(d) && !(d.year == 9999 && d.month == 12)
    ensures Valid(r)
  {
    PrevDay(PlusOneMonth(StartOfMonth(d)))
  }

  /** That expression lands on the month's last day: the 31st, 30th, 28th or,
      in a leap year's February, the 29th. */
  lemma EndOfMonthIsLastDay(d: Date)
    requires Valid(d) && !(d.year == 9999 && d.month == 12)
    ensures EndOfMonth(d) == Date(d.year, d.month, DaysInMonth(d.year, d.month))
    ensures d.month == 2 && IsLeapYear(d.year) ==> EndOfMonth(d).day == 29
  {
    var s := StartOfMonth(d);
    var n := PlusOneMonth(s);
    assert n.day == 1;
    if d.month == 12 {
      assert n == Date(d.year + 1, 1, 1);
    } else {
      assert n == Date(d.year, d.month + 1, 1);
    }
  }

  // ---- text form ----

  function Pow10(w: nat): (p: nat)
    ensures p >= 1
  {
    if w == 0 then 1 else 10 * Pow10(w - 1)
  }

  /** The last `w` decimal digits of `n`, zero-padded on the left. */
  function Digits(n: nat, w: nat): (s: string)
    ensures |s| == w
    ensures forall i :: 0 <= i < |s| ==> Text.IsDigit(s[i])
  {
    if w == 0 then [] else Digits(n / 10, w - 1) + [Text.DigitChar(n % 10)]
  }

  lemma {:induction false} DigitsRoundTrip(n: nat, w: nat)
    requires n < Pow10(w)
    ensures Text.DigitsValue(Digits(n, w)) == n
  {
    if w > 0 {
      var s := Digits(n, w);
      assert s[..|s| - 1] == Digits(n / 10, w - 1);
      DigitsRoundTrip(n / 10, w - 1);
    }
  }

  /** `date.strftime('%Y-%m-%d')`, with the year padded to four digits. */
  function Format(d: Date): (s: string)
    requires Valid(d)
    ensures |s| == 10 && s[4] == '-' && s[7] == '-'
  {
    Digits(d.year, 4) + "-" + Digits(d.month, 2) + "-" + Digits(d.day, 2)
  }

  /** Reads a `YYYY-MM-DD` string back into a date, when it is one. */
  function Parse(s: string): (r: Option<Date>)
    ensures r.Some? ==> Valid(r.value)
  {
    if |s| != 10 || s[4] != '-' || s[7] != '-' then None
    else if !(forall i :: 0 <= i < 10 && i != 4 && i != 7 ==> Text.IsDigit(s[i])) then None
    else
      var d := Date(Text.DigitsValue(s[0..4]), Text.DigitsValue(s[5..7]), Text.DigitsValue(s[8..10]));
      if Valid(d) then Some(d) else None
  }

  /** The text form loses nothing: parsing a formatted date gives the date back. */
  lemma FormatParseRoundTrip(d: Date)
    requires Valid(d)
    ensures Parse(Format(d)) == Some(d)
  {
    var s := Format(d);
    assert s[0..4] == Digits(d.year, 4);
    assert s[5..7] == Digits(d.month, 2);
    assert s[8..10] == Digits(d.day, 2);
    DigitsRoundTrip(d.year, 4);
    DigitsRoundTrip(d.month, 2);
    DigitsRoundTrip(d.day, 2);
  }

  /** Hence distinct dates are sent as distinct strings. */
  lemma FormatInjective(a: Date, b: Date)
    requires Valid(a) && Valid(b) && Format(a) == Format(b)
    ensures a == b
  {
    FormatParseRoundTrip(a);
    FormatParseRoundTrip(b);
  }
}
