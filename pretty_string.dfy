/** `Duration::to_pretty_string`: a duration rendered as `HHh MMm`. */
module PrettyString {
  import opened Wrappers
  import opened Strings
  import opened Chrono

  const MinsInHour: int := 60

  /** The minutes left over once the whole hours are taken out. */
  function RemainingMinutes(d: Duration): int {
    NumMinutes(d) - NumHours(d) * MinsInHour
  }

  /** Hours and leftover minutes laid out as `format!("{:02}h {:02}m", ..)` does. */
  function PrettyText(h: int, m: int): string {
    ZeroPad2(h) + "h " + ZeroPad2(m) + "m"
  }

  /** `to_pretty_string`: for a non-negative duration the text reads back as its whole minutes. */
  function ToPrettyString(d: Duration): (r: string)
    ensures d >= 0 ==> MinutesOfPretty(r) == Some(NumMinutes(d))
  {
    PrettyTextReadsBack(d);
    PrettyText(NumHours(d), RemainingMinutes(d))
  }

  /**
   * For a non-negative duration the leftover minutes are the minute count
   * modulo 60 and the hours are the minute count divided by 60, so together
   * they give back the whole number of minutes.
   */
  lemma RemainingInRange(d: Duration)
    requires d >= 0
    ensures NumHours(d) * MinsInHour + RemainingMinutes(d) == NumMinutes(d)
    ensures 0 <= RemainingMinutes(d) < MinsInHour
    ensures NumHours(d) == NumMinutes(d) / MinsInHour
  {
    HoursFromMinutes(d);
  }

  /** A negative duration has leftover minutes in (-60, 0]: both parts carry the sign. */
  lemma RemainingWhenNegative(d: Duration)
    requires d < 0
    ensures NumHours(d) * MinsInHour + RemainingMinutes(d) == NumMinutes(d)
    ensures -MinsInHour < RemainingMinutes(d) <= 0
  {
    HoursFromMinutes(d);
  }

  /**
   * Reads `HHh MMm` back as a number of minutes; the inverse of
   * `ToPrettyString`. A minute field of 60 or more is rejected, so the text
   * of a duration is the only text that reads back as its minutes.
   */
  function MinutesOfPretty(s: string): Option<int> {
    var k := DigitPrefixLength(s);
    if k == 0 || |s| != k + 5 || s[k] != 'h' || s[k + 1] != ' ' || s[k + 4] != 'm'
       || !IsDigitChar(s[k + 2]) || !IsDigitChar(s[k + 3]) || DigitValue(s[k + 2]) >= 6
    then None
    else Some(DigitsValue(s[..k]) * MinsInHour + DigitValue(s[k + 2]) * 10 + DigitValue(s[k + 3]))
  }

  /**
   * A non-negative duration renders its hours with at least two digits, never
   * truncated, then `h `, then exactly two digits of leftover minutes, then
   * `m`; reading the text back gives the duration's whole minutes.
   */
  lemma {:induction false} PrettyRoundTrip(d: Duration)
    requires d >= 0
    ensures MinutesOfPretty(ToPrettyString(d)) == Some(NumMinutes(d))
    ensures |ToPrettyString(d)| == |ZeroPad2(NumHours(d))| + 5
    ensures |ZeroPad2(NumHours(d))| >= 2
    ensures NumHours(d) >= 100 ==> |ToPrettyString(d)| >= 8
  {
    RemainingInRange(d);
    ZeroPad2Digits(NumHours(d));
    ZeroPad2Digits(RemainingMinutes(d));
  }

  /** The layout of a non-negative duration's hours and minutes reads back as its whole minutes. */
  lemma PrettyTextReadsBack(d: Duration)
    ensures d >= 0 ==> MinutesOfPretty(PrettyText(NumHours(d), RemainingMinutes(d))) == Some(NumMinutes(d))
  {
    if d >= 0 {
      RemainingInRange(d);
      var h, m := NumHours(d), RemainingMinutes(d);
      ZeroPad2Digits(h);
      ZeroPad2Digits(m);
      ReadPretty(ZeroPad2(h), ZeroPad2(m));
    }
  }

  /** Digits, `h `, two digits below 60 and `m` read back as hours and minutes. */
  lemma ReadPretty(hs: string, ms: string)
    requires AllDigits(hs) && |hs| >= 1
    requires AllDigits(ms) && |ms| == 2 && DigitsValue(ms) < MinsInHour
    ensures MinutesOfPretty(hs + "h " + ms + "m") == Some(DigitsValue(hs) * MinsInHour + DigitsValue(ms))
  {
    var s := hs + "h " + ms + "m";
    var tail := "h " + ms + "m";
    assert s == hs + tail;
    DigitPrefixOf(hs, tail);
    TwoDigitsValue(ms);
    ReadPrettyAt(s, hs, ms);
  }

  /** The parser's checks on a text laid out as digits, `h `, two digits and `m`. */
  lemma ReadPrettyAt(s: string, hs: string, ms: string)
    requires AllDigits(hs) && |hs| >= 1 && AllDigits(ms) && |ms| == 2
    requires s == hs + "h " + ms + "m"
    requires DigitPrefixLength(s) == |hs|
    requires DigitsValue(ms) == DigitValue(ms[0]) * 10 + DigitValue(ms[1]) < MinsInHour
    ensures MinutesOfPretty(s) == Some(DigitsValue(hs) * MinsInHour + DigitsValue(ms))
  {
    var k := |hs|;
    assert s[..k] == hs;
    assert |s| == k + 5 && s[k] == 'h' && s[k + 1] == ' ' && s[k + 2] == ms[0] && s[k + 3] == ms[1] && s[k + 4] == 'm';
    assert DigitValue(ms[0]) < 6;
  }

  lemma TwoDigitsValue(ms: string)
    requires AllDigits(ms) && |ms| == 2
    ensures DigitsValue(ms) == DigitValue(ms[0]) * 10 + DigitValue(ms[1])
  {
    var first := ms[..1];
    assert first[..0] == [] && first[0] == ms[0];
    assert DigitsValue(first) == DigitValue(ms[0]);
    assert ms[..|ms| - 1] == first;
  }

  lemma PrettyExampleZero()
    ensures ToPrettyString(0) == "00h 00m"
  {
  }

  lemma PrettyExampleHalfHour()
    ensures ToPrettyString(30 * 60) == "00h 30m"
  {
    assert NumHours(30 * 60) == 0 && RemainingMinutes(30 * 60) == 30;
    assert ZeroPad2(0) == "00" && ZeroPad2(30) == "30";
  }

  lemma PrettyExampleTenMinutes()
    ensures ToPrettyString(10 * 60) == "00h 10m"
  {
    assert NumHours(10 * 60) == 0 && RemainingMinutes(10 * 60) == 10;
    assert ZeroPad2(0) == "00" && ZeroPad2(10) == "10";
  }

  lemma PrettyExampleTwoHours()
    ensures ToPrettyString(125 * 60) == "02h 05m"
  {
    assert NumHours(125 * 60) == 2 && RemainingMinutes(125 * 60) == 5;
    assert ZeroPad2(2) == "02" && ZeroPad2(5) == "05";
  }
}
