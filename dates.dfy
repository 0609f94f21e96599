/**
 * Timestamps in the SIP2 date layout "YYYYMMDD    HHMMSS" (the Go layout
 * string "20060102    150405"): eight digits, four blanks, six digits.
 */
module Dates {
  import opened Errors
  import opened Numbers

  /** A calendar time in UTC, to the nanosecond. */
  datatype DateTime = DateTime(year: int, month: int, day: int, hour: int, minute: int, second: int, nanosecond: int)

  /** The ranges every normalised Go time.Time keeps: any year, a fraction below one second. */
  predicate Normal(t: DateTime)
  {
    1 <= t.month <= 12 && 1 <= t.day <= 31 &&
    0 <= t.hour < 24 && 0 <= t.minute < 60 && 0 <= t.second < 60 &&
    0 <= t.nanosecond < 1_000_000_000
  }

  /** Any value of Go's time.Time, as Format receives it. */
  type Time = t: DateTime | Normal(t) witness DateTime(1, 1, 1, 0, 0, 0, 0)

  /** The times time.Parse yields for this layout: four-digit years, whole seconds. */
  predicate InRange(t: DateTime)
  {
    Normal(t) && 0 <= t.year <= 9999 && t.nanosecond == 0
  }

  type Date = t: DateTime | InRange(t) witness DateTime(1, 1, 1, 0, 0, 0, 0)

  /** Go's zero time.Time, January 1 of year 1 at midnight; a sentinel for "no date". */
  const Zero: Date := DateTime(1, 1, 1, 0, 0, 0, 0)

  predicate IsZero(t: Date) { t == Zero }

  /**
   * The year as the layout element 2006 prints it: zero-padded to four
   * digits, a minus sign in front of a negative year, and every digit of a
   * year past 9999.
   */
  function YearText(y: int): (s: string)
    ensures |s| >= 4
    ensures |s| == 4 <==> 0 <= y <= 9999
    ensures 0 <= y <= 9999 ==> AllDigits(s) && ParseDigits(s) == y
  {
    assert Pow10(4) == 10000;
    if y < 0 then
      PadLeast(-y, 4);
      "-" + Pad(-y, 4)
    else if y <= 9999 then
      PadDigits(y, 4);
      Pad(y, 4)
    else
      WideDigits(y, 4);
      Pad(y, 4)
  }

  /** A padded number is never shorter than its width. */
  lemma PadLeast(n: int, w: nat)
    ensures |Pad(n, w)| >= w
  {
  }

  /** A number of at least 10^w has more than w digits. */
  lemma WideDigits(n: nat, w: nat)
    requires n >= Pow10(w)
    ensures |Pad(n, w)| > w
  {
    var L := |Digits(n)|;
    if L <= w {
      Pow10Mono(L, w);
    }
  }

  /** The YYYYMMDD half of the layout. */
  function DayText(t: Time): (s: string)
    ensures |s| >= 8
    ensures |s| == 8 <==> 0 <= t.year <= 9999
    ensures 0 <= t.year <= 9999 ==> AllDigits(s)
  {
    PadDigits(t.month, 2);
    PadDigits(t.day, 2);
    YearText(t.year) + Pad(t.month, 2) + Pad(t.day, 2)
  }

  /** The HHMMSS half of the layout; the fraction of a second is not printed. */
  function ClockText(t: Time): (s: string)
    ensures |s| == 6 && AllDigits(s)
  {
    PadDigits(t.hour, 2);
    PadDigits(t.minute, 2);
    PadDigits(t.second, 2);
    Pad(t.hour, 2) + Pad(t.minute, 2) + Pad(t.second, 2)
  }

  /**
   * t.Format(SIPDateFormat): 18 runes exactly when the year has four digits;
   * a negative year or one past 9999 makes the text longer.
   */
  function Format(t: Time): (s: string)
    ensures |s| >= 18
    ensures |s| == 18 <==> 0 <= t.year <= 9999
  {
    DayText(t) + "    " + ClockText(t)
  }

  /** The formatted date has the layout: digits, four blanks, digits. */
  lemma FormatShape(t: Time)
    requires 0 <= t.year <= 9999
    ensures var s := Format(t);
      AllDigits(s[..8]) && s[8..12] == "    " && AllDigits(s[12..])
  {
    Concat3(DayText(t), "    ", ClockText(t));
  }

  /** time.Parse(SIPDateFormat, s). */
  function Parse(s: string): (r: Result<Date>)
    ensures r.Err? ==> r.error == TimeParseError
    ensures r.Ok? ==> |s| == 18 && AllDigits(s[..8]) && s[8..12] == "    " && AllDigits(s[12..])
  {
    if |s| != 18 || !AllDigits(s[..8]) || s[8..12] != "    " || !AllDigits(s[12..]) then Err(TimeParseError)
    else
      var day, clock := s[..8], s[12..];
      var t := DateTime(ParseDigits(day[0..4]), ParseDigits(day[4..6]), ParseDigits(day[6..8]),
                        ParseDigits(clock[0..2]), ParseDigits(clock[2..4]), ParseDigits(clock[4..6]), 0);
      if InRange(t) then Ok(t) else Err(TimeParseError)
  }

  lemma Concat3(a: string, b: string, c: string)
    ensures (a + b + c)[..|a|] == a && (a + b + c)[|a|..|a| + |b|] == b && (a + b + c)[|a| + |b|..] == c
  {
  }

  lemma DayFields(t: Date)
    ensures var d := DayText(t);
      ParseDigits(d[0..4]) == t.year && ParseDigits(d[4..6]) == t.month && ParseDigits(d[6..8]) == t.day
  {
    PadDigits(t.month, 2);
    PadDigits(t.day, 2);
    Concat3(YearText(t.year), Pad(t.month, 2), Pad(t.day, 2));
  }

  lemma ClockFields(t: Date)
    ensures var c := ClockText(t);
      ParseDigits(c[0..2]) == t.hour && ParseDigits(c[2..4]) == t.minute && ParseDigits(c[4..6]) == t.second
  {
    PadDigits(t.hour, 2);
    PadDigits(t.minute, 2);
    PadDigits(t.second, 2);
    Concat3(Pad(t.hour, 2), Pad(t.minute, 2), Pad(t.second, 2));
  }

  /** Parsing a formatted date gives the date back. */
  lemma ParseFormat(t: Date)
    ensures Parse(Format(t)) == Ok(t)
  {
    var s := Format(t);
    Concat3(DayText(t), "    ", ClockText(t));
    assert s[..8] == DayText(t) && s[12..] == ClockText(t);
    DayFields(t);
    ClockFields(t);
  }

  lemma DayOfFields(day: string)
    requires |day| == 8 && AllDigits(day)
    ensures AllDigits(day[0..4]) && AllDigits(day[4..6]) && AllDigits(day[6..8])
    ensures Pad(ParseDigits(day[0..4]), 4) + Pad(ParseDigits(day[4..6]), 2) + Pad(ParseDigits(day[6..8]), 2) == day
  {
    PadOfParse(day[0..4]);
    PadOfParse(day[4..6]);
    PadOfParse(day[6..8]);
    assert day == day[0..4] + day[4..6] + day[6..8];
  }

  lemma ClockOfFields(clock: string)
    requires |clock| == 6 && AllDigits(clock)
    ensures AllDigits(clock[0..2]) && AllDigits(clock[2..4]) && AllDigits(clock[4..6])
    ensures Pad(ParseDigits(clock[0..2]), 2) + Pad(ParseDigits(clock[2..4]), 2) + Pad(ParseDigits(clock[4..6]), 2) == clock
  {
    PadOfParse(clock[0..2]);
    PadOfParse(clock[2..4]);
    PadOfParse(clock[4..6]);
    assert clock == clock[0..2] + clock[2..4] + clock[4..6];
  }

  /** Every string Parse accepts is the formatted text of the date it yields. */
  lemma FormatParse(s: string)
    requires Parse(s).Ok?
    ensures Format(Parse(s).value) == s
  {
    var day, clock := s[..8], s[12..];
    DayOfFields(day);
    ClockOfFields(clock);
    var t := Parse(s).value;
    assert DayText(t) == day;
    assert ClockText(t) == clock;
    assert s == day + s[8..12] + clock;
  }

  /**
   * Format drops the fraction of a second: a time with a four-digit year
   * parses back truncated to the second, so one with a fraction does not
   * come back as itself.
   */
  lemma FractionLost(t: Time)
    requires 0 <= t.year <= 9999
    ensures Parse(Format(t)) == Ok(t.(nanosecond := 0))
    ensures t.nanosecond != 0 ==> Parse(Format(t)) != Ok(t)
  {
    var whole: Date := t.(nanosecond := 0);
    assert Format(t) == Format(whole);
    ParseFormat(whole);
  }

  /** A year outside 0..9999 is printed wider than the layout, and the text does not parse. */
  lemma WideYearRefused(t: Time)
    requires t.year < 0 || t.year > 9999
    ensures |Format(t)| > 18 && Parse(Format(t)).Err?
  {
  }
}
