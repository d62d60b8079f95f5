/**
 * Calendar dates as the job uses them: the cursor and window bounds are pandas timestamps
 * at midnight, compared chronologically, advanced by `DateOffset(days=n)` or
 * `DateOffset(months=n)`, rendered with `strftime('%Y-%m-%d')` and read from the
 * configuration with `pd.to_datetime`.
 */
module Dates {
  import opened Wrappers
  import opened Text

  /** A date of the proleptic Gregorian calendar. */
  datatype Date = Date(year: int, month: int, day: int)

  predicate IsLeapYear(y: int) {
    (y % 4 == 0 && y % 100 != 0) || y % 400 == 0
  }

  function DaysInMonth(y: int, m: int): (n: int)
    requires 1 <= m <= 12
    ensures 28 <= n <= 31
  {
    if m == 2 then (if IsLeapYear(y) then 29 else 28)
    else if m == 4 || m == 6 || m == 9 || m == 11 then 30
    else 31
  }

  predicate Valid(d: Date) {
    1 <= d.year && 1 <= d.month <= 12 && 1 <= d.day <= DaysInMonth(d.year, d.month)
  }

  /** Chronological order: `a` is strictly earlier than `b`. */
  predicate Before(a: Date, b: Date) {
    a.year < b.year ||
    (a.year == b.year && (a.month < b.month || (a.month == b.month && a.day < b.day)))
  }

  /** `a <= b` on timestamps. */
  predicate AtOrBefore(a: Date, b: Date) {
    !Before(b, a)
  }

  /** A number that grows with the date; used to bound loops and recursion over dates. */
  function Ordinal(d: Date): int {
    d.year * 384 + d.month * 32 + d.day
  }

  lemma OrdinalMonotone(a: Date, b: Date)
    requires Valid(a) && Valid(b)
    ensures Before(a, b) <==> Ordinal(a) < Ordinal(b)
  {
  }

  /** The day after `d`, rolling over month and year ends. */
  function NextDay(d: Date): (r: Date)
    requires Valid(d)
    ensures Valid(r) && Before(d, r)
    ensures forall x :: Valid(x) && Before(d, x) ==> AtOrBefore(r, x)
  {
    if d.day < DaysInMonth(d.year, d.month) then Date(d.year, d.month, d.day + 1)
    else if d.month < 12 then Date(d.year, d.month + 1, 1)
    else Date(d.year + 1, 1, 1)
  }

  /** `d + pd.DateOffset(days=n)` for a timestamp at midnight. */
  function AddDays(d: Date, n: nat): (r: Date)
    requires Valid(d)
    ensures Valid(r)
    ensures n >= 1 ==> Before(d, r)
    decreases n
  {
    if n == 0 then d else AddDays(NextDay(d), n - 1)
  }

  /** Adding days in two steps is adding their sum. */
  lemma {:induction false} AddDaysAdditive(d: Date, a: nat, b: nat)
    requires Valid(d)
    ensures AddDays(AddDays(d, a), b) == AddDays(d, a + b)
    decreases a
  {
    if a > 0 {
      AddDaysAdditive(NextDay(d), a - 1, b);
    }
  }

  /** Months since the start of year 0. */
  function MonthIndex(d: Date): int {
    d.year * 12 + (d.month - 1)
  }

  /**
   * `d + pd.DateOffset(months=n)`: the month moves forward by `n` and the day is kept,
   * except that it falls back to the last day of a target month that is too short.
   */
  function AddMonths(d: Date, n: nat): (r: Date)
    requires Valid(d)
    ensures Valid(r)
    ensures MonthIndex(r) == MonthIndex(d) + n
    ensures r.day <= d.day
    ensures r.day < d.day ==> r.day == DaysInMonth(r.year, r.month)
    ensures n >= 1 ==> Before(d, r)
  {
    var total := MonthIndex(d) + n;
    var y := total / 12;
    var m := total % 12 + 1;
    var last := DaysInMonth(y, m);
    Date(y, m, if d.day <= last then d.day else last)
  }

  /** Month steps do not compose: the end-of-month fallback of one step sticks. */
  lemma AddMonthsNotAdditive()
    ensures AddMonths(AddMonths(Date(2023, 1, 31), 1), 1) == Date(2023, 3, 28)
    ensures AddMonths(Date(2023, 1, 31), 2) == Date(2023, 3, 31)
  {
  }

  /** `strftime('%Y-%m-%d')`: the year zero-padded to four digits, month and day to two. */
  function Format(d: Date): (s: string)
    requires Valid(d)
    ensures |s| >= 10 && s[|s| - 6] == '-' && s[|s| - 3] == '-'
  {
    ZeroPad(Decimal(d.year), 4) + "-" + ZeroPad(Decimal(d.month), 2) + "-" + ZeroPad(Decimal(d.day), 2)
  }

  /** No rendered date contains an underscore: it is made of digits and dashes only. */
  lemma FormatHasNoUnderscore(d: Date)
    requires Valid(d)
    ensures '_' !in Format(d)
  {
    var y, m, dd := ZeroPad(Decimal(d.year), 4), ZeroPad(Decimal(d.month), 2), ZeroPad(Decimal(d.day), 2);
    assert '_' !in y && '_' !in m && '_' !in dd by {
      assert !IsDigit('_');
    }
    NoUnderscoreConcat(y, "-");
    NoUnderscoreConcat(y + "-", m);
    NoUnderscoreConcat(y + "-" + m, "-");
    NoUnderscoreConcat(y + "-" + m + "-", dd);
  }

  lemma NoUnderscoreConcat(a: string, b: string)
    requires '_' !in a && '_' !in b
    ensures '_' !in a + b
  {
  }

  /**
   * `pd.to_datetime` on a configured date, read as `<digits>-MM-DD` with a day that exists;
   * anything else is `None`.
   */
  function ParseDate(s: string): (r: Option<Date>)
    ensures r.Some? ==> Valid(r.value)
  {
    if |s| < 7 || s[|s| - 6] != '-' || s[|s| - 3] != '-' then None
    else
      var y, m, d := s[..|s| - 6], s[|s| - 5..|s| - 3], s[|s| - 2..];
      if AllDigits(y) && AllDigits(m) && AllDigits(d) then
        var date := Date(ValueOf(y), ValueOf(m), ValueOf(d));
        if Valid(date) then Some(date) else None
      else None
  }

  /** Reading `<y>-<m>-<d>` with a two-digit month and day gives the digits' values. */
  lemma ParseDateParts(y: string, m: string, dd: string)
    requires 1 <= |y| && |m| == 2 && |dd| == 2
    requires AllDigits(y) && AllDigits(m) && AllDigits(dd)
    ensures var date := Date(ValueOf(y), ValueOf(m), ValueOf(dd));
      ParseDate(y + "-" + m + "-" + dd) == if Valid(date) then Some(date) else None
  {
    var s := y + "-" + m + "-" + dd;
    assert s[|s| - 6] == '-' && s[|s| - 3] == '-';
    assert s[..|s| - 6] == y;
    assert s[|s| - 5..|s| - 3] == m;
    assert s[|s| - 2..] == dd;
  }

  /** Reading a rendered date gives back the date. */
  lemma ParseFormat(d: Date)
    requires Valid(d)
    ensures ParseDate(Format(d)) == Some(d)
  {
    ParseDateParts(ZeroPad(Decimal(d.year), 4), ZeroPad(Decimal(d.month), 2), ZeroPad(Decimal(d.day), 2));
  }

  /** Distinct dates render differently. */
  lemma FormatInjective(a: Date, b: Date)
    requires Valid(a) && Valid(b) && Format(a) == Format(b)
    ensures a == b
  {
    ParseFormat(a);
    ParseFormat(b);
  }
}
