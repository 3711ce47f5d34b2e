/**
 * Python `datetime` values with whole-second resolution, the fixed format
 * '%Y-%m-%d %H:%M:%S' that both `main.py` and the netCDF reader parse, and
 * the proleptic Gregorian day count that `datetime` subtraction and
 * `datetime + timedelta` work on.
 */
module Calendar {
  import opened Common
  import opened Text

  datatype DateTime = DateTime(year: int, month: int, day: int, hour: int, minute: int, second: int)

  const SecondsPerHour := 3600
  const SecondsPerDay := 86400
  const MicrosPerSecond := 1000000

  predicate IsLeapYear(year: int)
  {
    year % 4 == 0 && (year % 100 != 0 || year % 400 == 0)
  }

  function DaysInYear(year: int): int
  {
    if IsLeapYear(year) then 366 else 365
  }

  function DaysInMonth(year: int, month: int): (n: int)
    requires 1 <= month <= 12
    ensures 28 <= n <= 31
  {
    if month == 2 then (if IsLeapYear(year) then 29 else 28)
    else if month == 4 || month == 6 || month == 9 || month == 11 then 30
    else 31
  }

  /** The range `datetime` accepts: years 1 to 9999, real calendar days, no leap second. */
  predicate Valid(dt: DateTime)
  {
    && 1 <= dt.year <= 9999
    && 1 <= dt.month <= 12
    && 1 <= dt.day <= DaysInMonth(dt.year, dt.month)
    && 0 <= dt.hour < 24
    && 0 <= dt.minute < 60
    && 0 <= dt.second < 60
  }

  /** Days from 0001-01-01 to January 1st of `year`. */
  function DaysBeforeYear(year: int): int
  {
    var y := year - 1;
    365 * y + y / 4 - y / 100 + y / 400
  }

  /** Days from January 1st to the first day of `month`. */
  function DaysBeforeMonth(year: int, month: int): int
    requires 1 <= month <= 12
  {
    [0, 31, 59, 90, 120, 151, 181, 212, 243, 273, 304, 334][month - 1]
      + (if month > 2 && IsLeapYear(year) then 1 else 0)
  }

  /** Seconds from 0001-01-01 00:00:00 to `dt`; differences of these are `timedelta.total_seconds()`. */
  function ToSeconds(dt: DateTime): (n: int)
    requires Valid(dt)
    ensures n >= 0
    ensures n % SecondsPerDay == dt.hour * SecondsPerHour + dt.minute * 60 + dt.second
  {
    var days := DaysBeforeYear(dt.year) + DaysBeforeMonth(dt.year, dt.month) + dt.day - 1;
    var time := dt.hour * SecondsPerHour + dt.minute * 60 + dt.second;
    DayRemainder(days, time);
    days * SecondsPerDay + time
  }

  /** Whole days plus a time of day leave that time of day as the remainder. */
  lemma DayRemainder(days: int, time: int)
    requires 0 <= time < SecondsPerDay
    ensures (days * SecondsPerDay + time) % SecondsPerDay == time
  {
  }

  /** An instant is a count of microseconds since 0001-01-01 00:00:00, the resolution of `datetime`. */
  function InstantOf(dt: DateTime): int
    requires Valid(dt)
  {
    ToSeconds(dt) * MicrosPerSecond
  }

  /** One past the last instant `datetime` can hold (10000-01-01 00:00:00). */
  const MaxInstant: int := DaysBeforeYear(10000) * SecondsPerDay * MicrosPerSecond

  predicate InRange(instant: int)
  {
    0 <= instant < MaxInstant
  }

  lemma YearStep(year: int)
    requires year >= 1
    ensures DaysBeforeYear(year + 1) == DaysBeforeYear(year) + DaysInYear(year)
  {
    var y := year - 1;
    assert year / 4 == y / 4 + (if year % 4 == 0 then 1 else 0);
    assert year / 100 == y / 100 + (if year % 100 == 0 then 1 else 0);
    assert year / 400 == y / 400 + (if year % 400 == 0 then 1 else 0);
  }

  lemma {:induction false} YearsFit(year: int)
    requires 1 <= year <= 9999
    ensures DaysBeforeYear(year) + DaysInYear(year) <= DaysBeforeYear(10000)
    decreases 10000 - year
  {
    YearStep(year);
    if year < 9999 {
      YearsFit(year + 1);
    }
  }

  /** Every valid date-time is an instant `datetime` can represent. */
  lemma InstantInRange(dt: DateTime)
    requires Valid(dt)
    ensures InRange(InstantOf(dt))
  {
    YearsFit(dt.year);
    var days := DaysBeforeYear(dt.year) + DaysBeforeMonth(dt.year, dt.month) + dt.day - 1;
    assert 0 <= days < DaysBeforeYear(10000);
    var secs := dt.hour * SecondsPerHour + dt.minute * 60 + dt.second;
    assert 0 <= secs < SecondsPerDay;
    assert 0 <= ToSeconds(dt) < DaysBeforeYear(10000) * SecondsPerDay;
  }

  /** `a` comes strictly before `b`, field by field from the year down to the second. */
  predicate Before(a: DateTime, b: DateTime)
  {
    || a.year < b.year
    || (a.year == b.year && a.month < b.month)
    || (a.year == b.year && a.month == b.month && a.day < b.day)
    || (a.year == b.year && a.month == b.month && a.day == b.day && a.hour < b.hour)
    || (a.year == b.year && a.month == b.month && a.day == b.day && a.hour == b.hour && a.minute < b.minute)
    || (a.year == b.year && a.month == b.month && a.day == b.day && a.hour == b.hour && a.minute == b.minute
        && a.second < b.second)
  }

  lemma {:induction false} YearsOrdered(y1: int, y2: int)
    requires 1 <= y1 <= y2
    ensures DaysBeforeYear(y1) <= DaysBeforeYear(y2)
    decreases y2 - y1
  {
    if y1 < y2 {
      YearStep(y2 - 1);
      YearsOrdered(y1, y2 - 1);
    }
  }

  /** The days of the months before `m1`, and all of `m1`, end no later than month `m2` starts. */
  lemma MonthsOrdered(year: int, m1: int, m2: int)
    requires 1 <= m1 < m2 <= 12
    ensures DaysBeforeMonth(year, m1) + DaysInMonth(year, m1) <= DaysBeforeMonth(year, m2)
  {
  }

  /** No date lies beyond the end of its year. */
  lemma DayOfYearFits(dt: DateTime)
    requires Valid(dt)
    ensures DaysBeforeMonth(dt.year, dt.month) + dt.day <= DaysInYear(dt.year)
  {
  }

  /**
   * Seconds since 0001-01-01 keep the order of date-times, so the sign of
   * `(end - start).total_seconds()` says which of the two comes first.
   */
  lemma ToSecondsOrder(a: DateTime, b: DateTime)
    requires Valid(a) && Valid(b)
    ensures Before(a, b) <==> ToSeconds(a) < ToSeconds(b)
    ensures a == b <==> ToSeconds(a) == ToSeconds(b)
  {
    if Before(a, b) {
      BeforeSeconds(a, b);
    } else if a != b {
      assert Before(b, a);
      BeforeSeconds(b, a);
    }
  }

  lemma BeforeSeconds(a: DateTime, b: DateTime)
    requires Valid(a) && Valid(b) && Before(a, b)
    ensures ToSeconds(a) < ToSeconds(b)
  {
    var da := DaysBeforeYear(a.year) + DaysBeforeMonth(a.year, a.month) + a.day - 1;
    var db := DaysBeforeYear(b.year) + DaysBeforeMonth(b.year, b.month) + b.day - 1;
    if a.year < b.year {
      DayOfYearFits(a);
      YearStep(a.year);
      YearsOrdered(a.year + 1, b.year);
      assert da < db;
    } else if a.month < b.month {
      MonthsOrdered(a.year, a.month, b.month);
      assert da < db;
    }
  }

  /** `dt.strftime('%Y-%m-%d %H:%M:%S')`. */
  function Format(dt: DateTime): (s: string)
    requires Valid(dt)
    ensures HasTimestampShape(s)
  {
    Pad(dt.year, 4) + "-" + Pad(dt.month, 2) + "-" + Pad(dt.day, 2) + " "
      + Pad(dt.hour, 2) + ":" + Pad(dt.minute, 2) + ":" + Pad(dt.second, 2)
  }

  /** The fixed layout 'YYYY-MM-DD HH:MM:SS': separators in place, digits elsewhere. */
  predicate HasTimestampShape(s: string)
  {
    && |s| == 19
    && s[4] == '-' && s[7] == '-' && s[10] == ' ' && s[13] == ':' && s[16] == ':'
    && AllDigits(s[0..4]) && AllDigits(s[5..7]) && AllDigits(s[8..10])
    && AllDigits(s[11..13]) && AllDigits(s[14..16]) && AllDigits(s[17..19])
  }

  /**
   * `datetime.strptime(s, '%Y-%m-%d %H:%M:%S')` on the zero-padded layout:
   * None where Python raises ValueError (wrong layout, or a field out of
   * range such as month 13, February 30th or second 60).
   */
  function Parse(s: string): (r: Option<DateTime>)
    ensures r.Some? ==> Valid(r.value)
  {
    if HasTimestampShape(s) then
      var dt := DateTime(DigitsValue(s[0..4]), DigitsValue(s[5..7]), DigitsValue(s[8..10]),
                         DigitsValue(s[11..13]), DigitsValue(s[14..16]), DigitsValue(s[17..19]));
      if Valid(dt) then Some(dt) else None
    else None
  }

  /** Formatting then parsing gives back the date-time. */
  lemma ParseFormat(dt: DateTime)
    requires Valid(dt)
    ensures Parse(Format(dt)) == Some(dt)
  {
    var s := Format(dt);
    assert Pow10(2) == 100 && Pow10(4) == 10000;
    assert s[0..4] == Pad(dt.year, 4);
    assert s[5..7] == Pad(dt.month, 2);
    assert s[8..10] == Pad(dt.day, 2);
    assert s[11..13] == Pad(dt.hour, 2);
    assert s[14..16] == Pad(dt.minute, 2);
    assert s[17..19] == Pad(dt.second, 2);
    DigitsOfPad(dt.year, 4);
    DigitsOfPad(dt.month, 2);
    DigitsOfPad(dt.day, 2);
    DigitsOfPad(dt.hour, 2);
    DigitsOfPad(dt.minute, 2);
    DigitsOfPad(dt.second, 2);
  }

  /** A string that parses is the canonical formatting of what it parses to. */
  lemma FormatParse(s: string)
    requires Parse(s).Some?
    ensures Valid(Parse(s).value) && Format(Parse(s).value) == s
  {
    var dt := Parse(s).value;
    PadOfDigits(s[0..4]);
    PadOfDigits(s[5..7]);
    PadOfDigits(s[8..10]);
    PadOfDigits(s[11..13]);
    PadOfDigits(s[14..16]);
    PadOfDigits(s[17..19]);
    assert s == s[0..4] + [s[4]] + s[5..7] + [s[7]] + s[8..10] + [s[10]]
              + s[11..13] + [s[13]] + s[14..16] + [s[16]] + s[17..19];
  }

  /** A parsable timestamp holds only digits and the separators '-', ' ' and ':'. */
  lemma ParsedHasNoLetters(s: string, i: int)
    requires Parse(s).Some? && 0 <= i < |s|
    ensures IsDigit(s[i]) || s[i] == '-' || s[i] == ' ' || s[i] == ':'
  {
    if i < 4 { assert s[0..4][i] == s[i]; }
    else if 4 < i < 7 { assert s[5..7][i - 5] == s[i]; }
    else if 7 < i < 10 { assert s[8..10][i - 8] == s[i]; }
    else if 10 < i < 13 { assert s[11..13][i - 11] == s[i]; }
    else if 13 < i < 16 { assert s[14..16][i - 14] == s[i]; }
    else if 16 < i { assert s[17..19][i - 17] == s[i]; }
  }
}
