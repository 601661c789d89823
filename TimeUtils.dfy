/** The planner's integer time formatting: the 12-hour labels of the
    timeline's hour markers, the "Hh Mm" duration text shown on every time
    block, and the parser that reads such duration text back. */
module TimeUtils {
  import opened JsText

  // ------------------------------------------------------------ formatTime

  /** `hour % 12 || 12`: the hour on a 12-hour clock face. */
  function DisplayHour(hour: int): int {
    var r := JsRem(hour, 12);
    if r == 0 then 12 else r
  }

  /** `formatTime(hour)`: "<displayHour> AM" or "<displayHour> PM". */
  function FormatTime(hour: int): (text: string)
    ensures |text| >= 4
  {
    IntToDecimal(DisplayHour(hour)) + " " + (if hour >= 12 then "PM" else "AM")
  }

  /** The label ends in "PM" exactly for the hours from noon on, and in
      "AM" otherwise. */
  lemma FormatTimePeriod(hour: int)
    ensures var text := FormatTime(hour);
      (text[|text| - 2..] == "PM" <==> hour >= 12) &&
      (text[|text| - 2..] == "AM" <==> hour < 12)
  {
    var text := FormatTime(hour);
    var period := if hour >= 12 then "PM" else "AM";
    assert text == IntToDecimal(DisplayHour(hour)) + " " + period;
    assert text[|text| - 2..] == period;
  }

  /** For the hours of a day the displayed hour is on the clock face,
      midnight and noon both showing as 12. */
  lemma DisplayHourOfDay(hour: int)
    requires 0 <= hour < 24
    ensures 1 <= DisplayHour(hour) <= 12
    ensures DisplayHour(hour) == 12 <==> hour == 0 || hour == 12
    ensures DisplayHour(hour) % 12 == hour % 12
  {
  }

  lemma FormatTimeExamples()
    ensures FormatTime(0) == "12 AM"
    ensures FormatTime(12) == "12 PM"
    ensures FormatTime(13) == "1 PM"
  {
    assert NatToDecimal(12) == "12";
    assert NatToDecimal(1) == "1";
  }

  /** Reads an hour label ("12 AM" .. "11 PM") back into an hour of the day. */
  function HourOfLabel(text: string): (hour: Option<int>)
    ensures hour.Some? ==> 0 <= hour.value < 24
  {
    var d := LeadingDigits(text);
    var v := DigitsValue(d);
    var rest := text[|d|..];
    if d == [] || !(1 <= v <= 12) then None
    else if rest == " AM" then Some(v % 12)
    else if rest == " PM" then Some(v % 12 + 12)
    else None
  }

  /** The 24 hour markers all carry different labels: each label reads back
      as its own hour. */
  lemma FormatTimeRoundTrip(hour: int)
    requires 0 <= hour < 24
    ensures HourOfLabel(FormatTime(hour)) == Some(hour)
  {
    var dh := DisplayHour(hour);
    DisplayHourOfDay(hour);
    var digits := NatToDecimal(dh);
    var period := if hour >= 12 then "PM" else "AM";
    var text := FormatTime(hour);
    assert text == digits + (" " + period);
    LeadingDigitsOf(digits, " " + period);
    assert LeadingDigits(text) == digits;
    DecimalRoundTrip(dh);
    assert DigitsValue(digits) == dh;
    assert text[|digits|..] == " " + period;
    assert dh % 12 == hour % 12;
    if hour >= 12 {
      assert " " + period == " PM";
      assert HourOfLabel(text) == Some(dh % 12 + 12);
    } else {
      assert " " + period == " AM";
      assert HourOfLabel(text) == Some(dh % 12);
    }
  }

  // -------------------------------------------------------- formatDuration

  /** `formatDuration(minutes)`: "Mm" below an hour, "Hh" on whole hours,
      "Hh Mm" otherwise. */
  function FormatDuration(minutes: nat): (text: string)
    ensures |text| >= 2
  {
    var hours := minutes / 60;
    var mins := minutes % 60;
    if hours == 0 then NatToDecimal(mins) + "m"
    else if mins == 0 then NatToDecimal(hours) + "h"
    else NatToDecimal(hours) + "h " + NatToDecimal(mins) + "m"
  }

  lemma FormatDurationExamples()
    ensures FormatDuration(45) == "45m"
    ensures FormatDuration(60) == "1h"
    ensures FormatDuration(90) == "1h 30m"
  {
    assert NatToDecimal(45) == "45";
    assert NatToDecimal(30) == "30";
    assert NatToDecimal(1) == "1";
  }

  // --------------------------------------------------------- parseDuration

  /** What `parseDuration` does: return a number, or throw (reading
      `parts[1]` of a split that produced a single piece). */
  datatype ParseOutcome = Returns(n: JsNum) | ThrowsTypeError

  /** `parseDuration(durationStr)`, with `parseFloat` read on digit strings. */
  function ParseDuration(s: string): ParseOutcome {
    if 'h' in s && 'm' in s then
      var parts := Split(s, ' ');
      if |parts| < 2 then ThrowsTypeError
      else
        var hours := ParseFloat(ReplaceFirst(parts[0], 'h'));
        var minutes := ParseFloat(ReplaceFirst(parts[1], 'm'));
        Returns(NumAdd(NumScale(hours, 60), minutes))
    else if EndsWith(s, 'h') then
      Returns(NumScale(ParseFloat(ReplaceFirst(s, 'h')), 60))
    else if EndsWith(s, 'm') then
      Returns(ParseFloat(ReplaceFirst(s, 'm')))
    else
      Returns(Num(0))
  }

  /** Text with no "h"/"m" pair and no "h" or "m" at its end reads as 0. */
  lemma ParseDurationDefault(s: string)
    requires !('h' in s && 'm' in s) && !EndsWith(s, 'h') && !EndsWith(s, 'm')
    ensures ParseDuration(s) == Returns(Num(0))
  {
  }

  /** A split yields one piece exactly when the separator does not occur. */
  lemma {:induction false} SplitSingleIff(s: string, c: char)
    ensures |Split(s, c)| == 1 <==> c !in s
  {
    if s != [] {
      assert s == [s[0]] + s[1..];
      SplitSingleIff(s[1..], c);
    }
  }

  /** Text holding both an "h" and an "m" but no space, such as "1h30m",
      makes `parseDuration` throw. */
  lemma ParseDurationThrows(s: string)
    ensures ParseDuration(s) == ThrowsTypeError <==> 'h' in s && 'm' in s && ' ' !in s
  {
    SplitSingleIff(s, ' ');
  }

  lemma MinutesRoundTrip(mins: nat)
    requires mins < 60
    ensures ParseDuration(NatToDecimal(mins) + "m") == Returns(Num(mins))
  {
    var dm := NatToDecimal(mins);
    var s := dm + "m";
    assert s == dm + ['m'] + [];
    assert 'h' !in s;
    ReplaceFirstAt(dm, 'm', []);
    assert dm + [] == dm;
    ParseFloatDecimal(mins);
  }

  lemma HoursRoundTrip(hours: nat)
    ensures ParseDuration(NatToDecimal(hours) + "h") == Returns(Num(hours * 60))
  {
    var dh := NatToDecimal(hours);
    var s := dh + "h";
    assert s == dh + ['h'] + [];
    assert 'm' !in s;
    ReplaceFirstAt(dh, 'h', []);
    assert dh + [] == dh;
    ParseFloatDecimal(hours);
  }

  /** The "Hh Mm" shape splits on its one space into "Hh" and "Mm". */
  lemma SplitHoursMinutes(dh: string, dm: string)
    requires AllDigits(dh) && AllDigits(dm)
    ensures Split(dh + "h " + dm + "m", ' ') == [dh + "h", dm + "m"]
  {
    var a := dh + "h";
    var b := dm + "m";
    assert dh + "h " + dm + "m" == a + [' '] + b;
    assert ' ' !in a by {
      assert forall i :: 0 <= i < |a| ==> a[i] == 'h' || IsDigit(a[i]);
    }
    assert ' ' !in b by {
      assert forall i :: 0 <= i < |b| ==> b[i] == 'm' || IsDigit(b[i]);
    }
    SplitAt(a, ' ', b);
    SplitNone(b, ' ');
  }

  /** "Hh Mm" reads as 60 times the hours plus the minutes. */
  lemma ParseHoursMinutes(dh: string, dm: string)
    requires AllDigits(dh) && AllDigits(dm)
    ensures ParseDuration(dh + "h " + dm + "m")
         == Returns(NumAdd(NumScale(ParseFloat(dh), 60), ParseFloat(dm)))
  {
    var s := dh + "h " + dm + "m";
    assert s[|dh|] == 'h' && s[|s| - 1] == 'm';
    SplitHoursMinutes(dh, dm);
    assert dh + "h" == dh + ['h'] + [];
    ReplaceFirstAt(dh, 'h', []);
    assert dm + "m" == dm + ['m'] + [];
    ReplaceFirstAt(dm, 'm', []);
    assert dh + [] == dh && dm + [] == dm;
  }

  lemma HoursMinutesRoundTrip(hours: nat, mins: nat)
    ensures ParseDuration(NatToDecimal(hours) + "h " + NatToDecimal(mins) + "m")
         == Returns(Num(hours * 60 + mins))
  {
    var dh, dm := NatToDecimal(hours), NatToDecimal(mins);
    ParseHoursMinutes(dh, dm);
    ParseFloatDecimal(hours);
    ParseFloatDecimal(mins);
    assert NumAdd(NumScale(Num(hours), 60), Num(mins)) == Num(hours * 60 + mins);
  }

  /** `parseDuration` inverts `formatDuration` on every natural number of
      minutes, for each of the three shapes of text. */
  lemma DurationRoundTrip(minutes: nat)
    ensures ParseDuration(FormatDuration(minutes)) == Returns(Num(minutes))
  {
    var hours := minutes / 60;
    var mins := minutes % 60;
    if hours == 0 {
      MinutesRoundTrip(mins);
    } else if mins == 0 {
      HoursRoundTrip(hours);
    } else {
      HoursMinutesRoundTrip(hours, mins);
    }
  }
}
