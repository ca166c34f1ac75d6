/**
 * Calendar dates as the finance code reads and writes them: the
 * `"%d-%m-%Y"` text of `datetime.strptime` and `strftime`, proleptic
 * Gregorian day numbers (`date.toordinal`), and moments counted in
 * seconds so that `datetime` values can be compared and shifted by days.
 */
module Dates {
  import opened Common

  datatype Date = Date(year: int, month: int, day: int)

  predicate IsLeap(y: int)
  {
    y % 4 == 0 && (y % 100 != 0 || y % 400 == 0)
  }

  function DaysInMonth(y: int, m: int): (n: int)
    requires 1 <= m <= 12
    ensures 28 <= n <= 31
    ensures m == 2 ==> (n == 29 <==> IsLeap(y))
  {
    if m == 2 then (if IsLeap(y) then 29 else 28)
    else if m == 4 || m == 6 || m == 9 || m == 11 then 30
    else 31
  }

  /** A date `datetime` accepts: years 1 to 9999 and a day that exists in its month. */
  predicate Valid(d: Date)
  {
    1 <= d.year <= 9999 && 1 <= d.month <= 12 && 1 <= d.day <= DaysInMonth(d.year, d.month)
  }

  // ---------------------------------------------------------------------
  // Parsing "%d-%m-%Y"

  /** What `%d` matches: `3[01]`, `[12]\d`, `0[1-9]`, `[1-9]` or a space and `[1-9]`. */
  function DayField(t: string): (r: Option<int>)
    ensures r.Some? ==> 1 <= r.value <= 31
  {
    if |t| == 1 && '1' <= t[0] <= '9' then Some(DigitValue(t[0]))
    else if |t| == 2 && t[0] == ' ' && '1' <= t[1] <= '9' then Some(DigitValue(t[1]))
    else if |t| == 2 && IsDigit(t[1]) &&
            ((t[0] == '0' && t[1] != '0') || t[0] == '1' || t[0] == '2' ||
             (t[0] == '3' && (t[1] == '0' || t[1] == '1'))) then
      Some(DigitValue(t[0]) * 10 + DigitValue(t[1]))
    else None
  }

  /** What `%m` matches: `1[0-2]`, `0[1-9]` or `[1-9]`. */
  function MonthField(t: string): (r: Option<int>)
    ensures r.Some? ==> 1 <= r.value <= 12
  {
    if |t| == 1 && '1' <= t[0] <= '9' then Some(DigitValue(t[0]))
    else if |t| == 2 && t[0] == '0' && '1' <= t[1] <= '9' then Some(DigitValue(t[1]))
    else if |t| == 2 && t[0] == '1' && '0' <= t[1] <= '2' then Some(10 + DigitValue(t[1]))
    else None
  }

  /** What `%Y` matches: exactly four digits. */
  function YearField(t: string): (r: Option<int>)
    ensures r.Some? ==> 0 <= r.value <= 9999
  {
    if |t| == 4 && IsDigits(t) then
      Some(((DigitValue(t[0]) * 10 + DigitValue(t[1])) * 10 + DigitValue(t[2])) * 10 + DigitValue(t[3]))
    else None
  }

  /**
   * `datetime.strptime(s, "%d-%m-%Y")`: the three fields separated by `-`
   * and nothing else, naming a date that exists; `None` where Python raises
   * `ValueError`.
   */
  function ParseDate(s: string): (r: Option<Date>)
    ensures r.Some? ==> Valid(r.value)
    ensures r.Some? ==> |Split(s, '-')| == 3
  {
    var parts := Split(s, '-');
    if |parts| != 3 then None
    else
      match (DayField(parts[0]), MonthField(parts[1]), YearField(parts[2]))
      case (Some(d), Some(m), Some(y)) =>
        if 1 <= y && d <= DaysInMonth(y, m) then Some(Date(y, m, d)) else None
      case _ => None
  }

  // ---------------------------------------------------------------------
  // Writing "%d-%m-%Y"

  function Pad2(n: int): (r: string)
    requires 0 <= n <= 99
    ensures |r| == 2 && IsDigits(r)
  {
    [DigitChar(n / 10), DigitChar(n % 10)]
  }

  function Pad4(n: int): (r: string)
    requires 0 <= n <= 9999
    ensures |r| == 4 && IsDigits(r)
  {
    var tens := n / 10;
    var hundreds := tens / 10;
    [DigitChar(hundreds / 10), DigitChar(hundreds % 10), DigitChar(tens % 10), DigitChar(n % 10)]
  }

  /** `d.strftime("%d-%m-%Y")` for a four-digit year. */
  function FormatDate(d: Date): (r: string)
    requires Valid(d) && d.year >= 1000
    ensures |r| == 10
  {
    Pad2(d.day) + "-" + Pad2(d.month) + "-" + Pad4(d.year)
  }

  lemma DayFieldOfPad2(n: int)
    requires 1 <= n <= 31
    ensures DayField(Pad2(n)) == Some(n)
  {
  }

  lemma MonthFieldOfPad2(n: int)
    requires 1 <= n <= 12
    ensures MonthField(Pad2(n)) == Some(n)
  {
  }

  lemma YearFieldOfPad4(n: int)
    requires 0 <= n <= 9999
    ensures YearField(Pad4(n)) == Some(n)
  {
    var tens := n / 10;
    var hundreds := tens / 10;
    assert n == tens * 10 + n % 10;
    assert tens == hundreds * 10 + tens % 10;
    assert hundreds == hundreds / 10 * 10 + hundreds % 10;
  }

  /** The three fields of a formatted date are what `-` splits it into. */
  lemma SplitFormatted(dd: string, mm: string, yy: string)
    requires IsDigits(dd) && IsDigits(mm) && IsDigits(yy)
    ensures Split(dd + "-" + mm + "-" + yy, '-') == [dd, mm, yy]
  {
    assert dd + "-" + mm + "-" + yy == dd + ['-'] + (mm + ['-'] + yy);
    SplitAtFirst(dd, '-', mm + ['-'] + yy);
    SplitAtFirst(mm, '-', yy);
    SplitNoSeparator(yy, '-');
  }

  /** Parsing what `strftime` wrote gives the same date back. */
  lemma ParseFormatDate(d: Date)
    requires Valid(d) && d.year >= 1000
    ensures ParseDate(FormatDate(d)) == Some(d)
  {
    SplitFormatted(Pad2(d.day), Pad2(d.month), Pad4(d.year));
    DayFieldOfPad2(d.day);
    MonthFieldOfPad2(d.month);
    YearFieldOfPad4(d.year);
  }

  // ---------------------------------------------------------------------
  // Day numbers

  /** Days in the years before `y`, counted from 1 January of year 1. */
  function DaysBeforeYear(y: int): (n: int)
    requires y >= 1
    ensures n >= 365 * (y - 1)
  {
    if y == 1 then 0 else DaysBeforeYear(y - 1) + YearLength(y - 1)
  }

  function YearLength(y: int): (n: int)
    ensures n == 365 || n == 366
  {
    if IsLeap(y) then 366 else 365
  }

  /** Days in the months of year `y` before month `m`. */
  function DaysBeforeMonth(y: int, m: int): (n: int)
    requires 1 <= m <= 12
    ensures n == [0, 31, 59, 90, 120, 151, 181, 212, 243, 273, 304, 334][m - 1] +
      (if m > 2 && IsLeap(y) then 1 else 0)
  {
    if m == 1 then 0 else DaysBeforeMonth(y, m - 1) + DaysInMonth(y, m - 1)
  }

  /** `date.toordinal()`: 1 January of year 1 is day 1. */
  function Ordinal(d: Date): (n: int)
    requires Valid(d)
    ensures n >= 1
  {
    DaysBeforeYear(d.year) + DaysBeforeMonth(d.year, d.month) + d.day
  }

  /** The date after `d`; 31 December 9999 has none. */
  function NextDay(d: Date): (r: Date)
    requires Valid(d)
    requires d.year < 9999 || d.month < 12 || d.day < 31
    ensures Valid(r)
  {
    if d.day < DaysInMonth(d.year, d.month) then d.(day := d.day + 1)
    else if d.month < 12 then Date(d.year, d.month + 1, 1)
    else Date(d.year + 1, 1, 1)
  }

  lemma DaysBeforeDecember(y: int)
    ensures DaysBeforeMonth(y, 12) + 31 == if IsLeap(y) then 366 else 365
  {
  }

  /** Consecutive dates have consecutive day numbers. */
  lemma OrdinalNextDay(d: Date)
    requires Valid(d)
    requires d.year < 9999 || d.month < 12 || d.day < 31
    ensures Ordinal(NextDay(d)) == Ordinal(d) + 1
  {
    if d.day == DaysInMonth(d.year, d.month) && d.month == 12 {
      DaysBeforeDecember(d.year);
    }
  }

  // ---------------------------------------------------------------------
  // Moments

  const SecondsPerDay := 86400

  /** The `datetime` at midnight starting `d`, in seconds. */
  function Midnight(d: Date): (t: int)
    requires Valid(d)
    ensures t / SecondsPerDay == Ordinal(d) && t % SecondsPerDay == 0
  {
    Ordinal(d) * SecondsPerDay
  }

  /** `(now - midnight).days`: whole days from the midnight to `now`, rounded down. */
  function DaysSince(d: Date, now: int): (n: int)
    requires Valid(d)
    ensures n * SecondsPerDay <= now - Midnight(d) < (n + 1) * SecondsPerDay
  {
    (now - Midnight(d)) / SecondsPerDay
  }
}
