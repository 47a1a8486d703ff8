/**
 * The parts of `chrono` the model relies on, with time reduced to integers:
 * a timestamp is a number of seconds of local time since 1970-01-01T00:00,
 * a date is a day number (0 is 1970-01-01), and a `Duration` is a number of
 * seconds.
 */
module Chrono {
  import opened Strings

  type Timestamp = int
  type Date = int
  type Duration = int

  const SecondsPerDay: int := 86400

  /** `DateTime::date`: the day a timestamp falls on. */
  function DateOf(t: Timestamp): (d: Date)
    ensures d * SecondsPerDay <= t < (d + 1) * SecondsPerDay
  {
    t / SecondsPerDay
  }

  /** `Date::succ`. */
  function Succ(d: Date): Date {
    d + 1
  }

  /** Signed integer division rounding toward zero, as Rust's `/` on `i64`. */
  function TruncDiv(a: int, b: int): (q: int)
    requires b > 0
    ensures a >= 0 ==> q == a / b
    ensures a < 0 ==> q == -((-a) / b)
  {
    if a >= 0 then a / b else -((-a) / b)
  }

  /** `Duration::num_minutes`: whole minutes, truncated toward zero. */
  function NumMinutes(d: Duration): int {
    TruncDiv(d, 60)
  }

  /** `Duration::num_hours`: whole hours, truncated toward zero. */
  function NumHours(d: Duration): int {
    TruncDiv(d, 3600)
  }

  /** Dividing by 60 twice is dividing by 3600, for non-negative numbers. */
  lemma NestedDiv(n: nat)
    ensures n / 3600 == (n / 60) / 60
  {
    var m := n / 60;
    var h := m / 60;
    assert n == 60 * m + n % 60;
    assert m == 60 * h + m % 60;
    assert n == 3600 * h + (60 * (m % 60) + n % 60);
    assert 0 <= 60 * (m % 60) + n % 60 < 3600;
  }

  /** Whole hours are the whole minutes divided by 60, truncated toward zero. */
  lemma HoursFromMinutes(d: Duration)
    ensures NumHours(d) == TruncDiv(NumMinutes(d), 60)
  {
    if d >= 0 {
      NestedDiv(d);
    } else {
      NestedDiv(-d);
      assert NumMinutes(d) == -((-d) / 60);
    }
  }

  /** `Date::format("%F")`: the ISO 8601 calendar date `YYYY-MM-DD` of a day number. */
  function IsoDate(days: Date): string {
    var (y, m, d) := CivilFromDays(days);
    YearText(y) + "-" + ZeroPad2(m) + "-" + ZeroPad2(d)
  }

  /** chrono's `%Y`: four digits for years 0 to 9999, otherwise a sign and at least four digits. */
  function YearText(y: int): string {
    if 0 <= y < 10000 then ZeroPadNat(y, 4)
    else if y < 0 then "-" + ZeroPadNat(-y, 4)
    else "+" + ZeroPadNat(y, 4)
  }

  /** Year, month and day of a day number in the proleptic Gregorian calendar. */
  function CivilFromDays(days: Date): (int, int, int) {
    var z := days + 719468;
    var era := z / 146097;
    var doe := z - era * 146097;
    var yoe := (doe - doe / 1460 + doe / 36524 - doe / 146096) / 365;
    var doy := doe - (365 * yoe + yoe / 4 - yoe / 100);
    var mp := (5 * doy + 2) / 153;
    var d := doy - (153 * mp + 2) / 5 + 1;
    var m := if mp < 10 then mp + 3 else mp - 9;
    var y := yoe + era * 400;
    (if m <= 2 then y + 1 else y, m, d)
  }

  /** `Date::format("%a")`: the abbreviated weekday. Day 0 was a Thursday. */
  function WeekdayAbbrev(days: Date): string {
    ["Sun", "Mon", "Tue", "Wed", "Thu", "Fri", "Sat"][(days + 4) % 7]
  }

  /**
   * `DateTime::format("%R")`: `HH:MM`, two digits of hour and two of
   * minute, naming the minute of the day that contains `t`.
   */
  function TimeOfDayText(t: Timestamp): (r: string)
    ensures |r| == 5 && r[2] == ':' && AllDigits(r[..2]) && AllDigits(r[3..])
    ensures DigitsValue(r[..2]) < 24 && DigitsValue(r[3..]) < 60
    ensures var minute := DigitsValue(r[..2]) * 3600 + DigitsValue(r[3..]) * 60;
            minute <= t % SecondsPerDay < minute + 60
  {
    var secs := t % SecondsPerDay;
    var h, m := secs / 3600, secs % 3600 / 60;
    ZeroPad2Digits(h);
    ZeroPad2Digits(m);
    var r := ZeroPad2(h) + ":" + ZeroPad2(m);
    assert r[..2] == ZeroPad2(h) && r[3..] == ZeroPad2(m);
    r
  }

  lemma CivilExampleEpoch()
    ensures CivilFromDays(0) == (1970, 1, 1)
  {
    // era 4, day 135080 of the era, year 369 of the era, day 306 of the March-based year
    assert 719468 / 146097 == 4 && 719468 - 4 * 146097 == 135080;
    assert (135080 - 135080 / 1460 + 135080 / 36524 - 135080 / 146096) / 365 == 369;
    assert 135080 - (365 * 369 + 369 / 4 - 369 / 100) == 306;
    assert (5 * 306 + 2) / 153 == 10;
  }

  lemma CivilExampleY2K()
    ensures CivilFromDays(10957) == (2000, 1, 1)
  {
    // era 4, day 146037 of the era, year 399 of the era, day 306 of the March-based year
    assert 730425 / 146097 == 4 && 730425 - 4 * 146097 == 146037;
    assert (146037 - 146037 / 1460 + 146037 / 36524 - 146037 / 146096) / 365 == 399;
    assert 146037 - (365 * 399 + 399 / 4 - 399 / 100) == 306;
    assert (5 * 306 + 2) / 153 == 10;
  }

  lemma CivilExampleLeapDay()
    ensures CivilFromDays(11016) == (2000, 2, 29)
  {
    // era 4, day 146096 of the era, year 399 of the era, day 365 of the March-based year
    assert 730484 / 146097 == 4 && 730484 - 4 * 146097 == 146096;
    assert (146096 - 146096 / 1460 + 146096 / 36524 - 146096 / 146096) / 365 == 399;
    assert 146096 - (365 * 399 + 399 / 4 - 399 / 100) == 365;
    assert (5 * 365 + 2) / 153 == 11;
  }

  lemma CivilExampleBeforeEpoch()
    ensures CivilFromDays(-1) == (1969, 12, 31)
  {
    // era 4, day 135079 of the era, year 369 of the era, day 305 of the March-based year
    assert 719467 / 146097 == 4 && 719467 - 4 * 146097 == 135079;
    assert (135079 - 135079 / 1460 + 135079 / 36524 - 135079 / 146096) / 365 == 369;
    assert 135079 - (365 * 369 + 369 / 4 - 369 / 100) == 305;
    assert (5 * 305 + 2) / 153 == 9;
  }

  /** `%F` of 2000-01-01 and of 2000-02-29. */
  lemma IsoDateExamples()
    ensures IsoDate(10957) == "2000-01-01" && IsoDate(11016) == "2000-02-29"
  {
    CivilExampleY2K();
    CivilExampleLeapDay();
    Year2000Text();
    assert ZeroPad2(1) == "01" && ZeroPad2(2) == "02";
    assert NatToString(2) == "2" && NatToString(9) == "9";
    assert ZeroPad2(29) == "29";
  }

  lemma Year2000Text()
    ensures YearText(2000) == "2000"
  {
    assert NatToString(2) == "2" && NatToString(20) == "20";
    assert NatToString(200) == "200";
    assert NatToString(2000) == "2000";
  }

  /** Day 0 was a Thursday and 2000-01-01 a Saturday. */
  lemma WeekdayExamples()
    ensures WeekdayAbbrev(0) == "Thu" && WeekdayAbbrev(10957) == "Sat"
  {
  }
}
