/**
 * Shift duration and pay, as computed by `calculateHours` (written three times, with
 * identical text, in ManageShifts, AvailableShifts and MyShifts).
 *
 * The source splits each "HH:MM" string at ':', converts the first two pieces with
 * `Number`, subtracts hours and minutes separately, adds 24 to the hour difference
 * when it is negative, and returns `hours + minutes / 60`.  Here durations are kept
 * in integer minutes; hours are that number divided by 60 as a `real`.
 */
module ShiftHours {
  import opened Wrappers

  /** The two numbers read from the front of a time string: hour and minute. */
  datatype ClockTime = ClockTime(hour: int, minute: int)

  /** A time of day as the database stores it. */
  predicate ValidClock(t: ClockTime) {
    0 <= t.hour < 24 && 0 <= t.minute < 60
  }

  /** Minutes since midnight. */
  function MinuteOfDay(t: ClockTime): int {
    60 * t.hour + t.minute
  }

  // ---------------------------------------------------------------------------
  // `s.split(":")` and `Number(piece)`

  /** JavaScript `s.split(sep)` for a one-character separator. */
  function Split(s: string, sep: char): (parts: seq<string>)
    ensures |parts| >= 1
    ensures forall i :: 0 <= i < |parts| ==> sep !in parts[i]
  {
    if |s| == 0 then [""]
    else
      var rest := Split(s[1..], sep);
      if s[0] == sep then [""] + rest
      else [[s[0]] + rest[0]] + rest[1..]
  }

  /** `parts.join(sep)`: the inverse of Split. */
  function Join(parts: seq<string>, sep: char): string
    requires |parts| >= 1
  {
    if |parts| == 1 then parts[0] else parts[0] + [sep] + Join(parts[1..], sep)
  }

  /** Splitting and joining again gives back the original string. */
  lemma {:induction false} JoinSplit(s: string, sep: char)
    ensures Join(Split(s, sep), sep) == s
  {
    if |s| > 0 {
      JoinSplit(s[1..], sep);
      var rest := Split(s[1..], sep);
      if s[0] != sep {
        if |rest| == 1 {
          assert Join(Split(s, sep), sep) == [s[0]] + rest[0];
        } else {
          assert Split(s, sep)[1..] == rest[1..];
          assert Join(Split(s, sep), sep) == [s[0]] + rest[0] + [sep] + Join(rest[1..], sep);
        }
      }
      assert s == [s[0]] + s[1..];
    }
  }

  /** A piece free of the separator, followed by the separator, splits off as one part. */
  lemma {:induction false} SplitAfterPiece(a: string, sep: char, b: string)
    requires sep !in a
    ensures Split(a + [sep] + b, sep) == [a] + Split(b, sep)
  {
    if |a| == 0 {
      assert a + [sep] + b == [sep] + b;
      assert ([sep] + b)[1..] == b;
    } else {
      SplitAfterPiece(a[1..], sep, b);
      assert (a + [sep] + b)[1..] == a[1..] + [sep] + b;
      assert [a[0]] + a[1..] == a;
    }
  }

  /** A string without the separator is a single part. */
  lemma {:induction false} SplitNoSeparator(a: string, sep: char)
    requires sep !in a
    ensures Split(a, sep) == [a]
  {
    if |a| > 0 {
      SplitNoSeparator(a[1..], sep);
      assert [a[0]] + a[1..] == a;
    }
  }

  predicate IsDigit(c: char) { '0' <= c <= '9' }

  function DigitValue(c: char): int
    requires IsDigit(c)
  {
    c as int - '0' as int
  }

  /** Decimal value of a string of digits, read left to right. */
  function DecimalValue(s: string): (n: nat)
    requires forall i :: 0 <= i < |s| ==> IsDigit(s[i])
  {
    if |s| == 0 then 0
    else 10 * DecimalValue(s[..|s| - 1]) + DigitValue(s[|s| - 1])
  }

  /**
   * `Number(piece)` for the pieces a time string splits into: the empty string is 0,
   * a string of decimal digits is its value, anything else is NaN (None).
   */
  function NumberOf(piece: string): (n: Option<int>)
    ensures piece == "" ==> n == Some(0)
    ensures |piece| == 1 && IsDigit(piece[0]) ==> n == Some(DigitValue(piece[0]))
    ensures n.Some? ==> n.value >= 0
    ensures ':' in piece ==> n.None?
  {
    assert |piece| == 1 ==> piece[..0] == [];
    assert |piece| == 1 && IsDigit(piece[0]) ==> DecimalValue(piece) == DigitValue(piece[0]);
    if forall i :: 0 <= i < |piece| ==> IsDigit(piece[i]) then Some(DecimalValue(piece))
    else None
  }

  /**
   * `const [h, m] = time.split(":").map(Number)`: both fields must be numbers for the
   * arithmetic to produce one; a missing second field is `undefined`, hence NaN.
   */
  function ParseTime(time: string): (r: Option<ClockTime>)
    ensures r.Some? ==> r.value.hour >= 0 && r.value.minute >= 0
  {
    var parts := Split(time, ':');
    if |parts| < 2 then None
    else match (NumberOf(parts[0]), NumberOf(parts[1]))
      case (Some(h), Some(m)) => Some(ClockTime(h, m))
      case _ => None
  }

  function DigitChar(d: int): char
    requires 0 <= d < 10
  {
    ('0' as int + d) as char
  }

  /** Two-digit, zero-padded rendering of 0..99. */
  function TwoDigits(n: int): (s: string)
    requires 0 <= n < 100
    ensures |s| == 2 && IsDigit(s[0]) && IsDigit(s[1])
  {
    [DigitChar(n / 10), DigitChar(n % 10)]
  }

  /** The "HH:MM" text of a time of day. */
  function FormatTime(t: ClockTime): (s: string)
    requires ValidClock(t)
    ensures |s| == 5 && s[2] == ':'
    ensures ':' !in s[..2] && ':' !in s[3..]
  {
    TwoDigits(t.hour) + ":" + TwoDigits(t.minute)
  }

  lemma TwoDigitsValue(n: int)
    requires 0 <= n < 100
    ensures NumberOf(TwoDigits(n)) == Some(n)
  {
    var s := TwoDigits(n);
    assert s[..1] == [s[0]];
    assert DecimalValue(s[..1]) == DigitValue(s[0]);
  }

  /** Reading back a formatted "HH:MM" gives the same time. */
  lemma ParseFormat(t: ClockTime)
    requires ValidClock(t)
    ensures ParseTime(FormatTime(t)) == Some(t)
  {
    ParseFormatSeconds(t, "");
  }

  /**
   * The database hands times back as "HH:MM:SS"; whatever follows the second ':'
   * is ignored, so the parse still gives hour and minute.
   */
  lemma ParseFormatSeconds(t: ClockTime, rest: string)
    requires ValidClock(t)
    ensures rest == "" ==> ParseTime(FormatTime(t)) == Some(t)
    ensures ParseTime(FormatTime(t) + ":" + rest) == Some(t)
  {
    var hh, mm := TwoDigits(t.hour), TwoDigits(t.minute);
    TwoDigitsValue(t.hour);
    TwoDigitsValue(t.minute);
    assert ':' !in hh && ':' !in mm;
    SplitAfterPiece(hh, ':', mm);
    SplitNoSeparator(mm, ':');
    assert FormatTime(t) == hh + [':'] + mm;
    SplitAfterPiece(hh, ':', mm + ":" + rest);
    SplitAfterPiece(mm, ':', rest);
    assert FormatTime(t) + ":" + rest == hh + [':'] + (mm + [':'] + rest);
  }

  // ---------------------------------------------------------------------------
  // The arithmetic

  /**
   * Minutes between two times as the source computes them: hour difference (plus
   * 24 when negative) times 60, plus the minute difference, which is never
   * normalised.
   */
  function ShiftMinutes(start: ClockTime, end: ClockTime): (m: int)
    ensures m % 1440 == (MinuteOfDay(end) - MinuteOfDay(start)) % 1440
    ensures end.hour >= start.hour ==> m == MinuteOfDay(end) - MinuteOfDay(start)
    ensures end.hour < start.hour ==> m == MinuteOfDay(end) - MinuteOfDay(start) + 1440
  {
    var hours := end.hour - start.hour;
    var minutes := end.minute - start.minute;
    60 * (if hours < 0 then hours + 24 else hours) + minutes
  }

  /**
   * For valid times the result is the clock distance from start to end modulo a day,
   * EXCEPT when both times fall in the same hour and the end minute is earlier: then
   * it is the (negative) plain difference.
   */
  lemma WrapsModuloDay(start: ClockTime, end: ClockTime)
    requires ValidClock(start) && ValidClock(end)
    ensures ShiftMinutes(start, end) == (MinuteOfDay(end) - MinuteOfDay(start)) % 1440
        <==> !(end.hour == start.hour && end.minute < start.minute)
  {
    var d := MinuteOfDay(end) - MinuteOfDay(start);
    assert -1440 < d < 1440;
    if end.hour == start.hour && end.minute < start.minute {
      assert d < 0;
    } else if end.hour >= start.hour {
      assert 0 <= d;
    } else {
      assert d < 0 && 0 <= d + 1440 < 1440;
    }
  }

  /** An overnight shift (end hour earlier than start hour) wraps past midnight. */
  lemma OvernightShift(start: ClockTime, end: ClockTime)
    requires ValidClock(start) && ValidClock(end)
    requires end.hour < start.hour
    ensures ShiftMinutes(start, end) > 0
    ensures ShiftMinutes(start, end) == 1440 - (MinuteOfDay(start) - MinuteOfDay(end))
  {
  }

  /** Equal start and end give 0, not a full day. */
  lemma EqualTimesZero(t: ClockTime)
    ensures ShiftMinutes(t, t) == 0
  {
  }

  /** Same hour, earlier end minute: a negative duration, never wrapped. */
  lemma SameHourQuirk(start: ClockTime, end: ClockTime)
    requires end.hour == start.hour && end.minute < start.minute
    ensures ShiftMinutes(start, end) == end.minute - start.minute < 0
  {
  }

  /** For valid times the duration lies strictly between -1 hour and 24 hours. */
  lemma ShiftMinutesRange(start: ClockTime, end: ClockTime)
    requires ValidClock(start) && ValidClock(end)
    ensures -60 < ShiftMinutes(start, end) < 1440
  {
  }

  // ---------------------------------------------------------------------------
  // calculateHours and pay

  /** `calculateHours(startTime, endTime)`; None where JavaScript would produce NaN. */
  function CalculateHours(startTime: string, endTime: string): (r: Option<real>)
    ensures r.Some? <==> ParseTime(startTime).Some? && ParseTime(endTime).Some?
    ensures r.Some? ==> r.value * 60.0 == ShiftMinutes(ParseTime(startTime).value, ParseTime(endTime).value) as real
  {
    match (ParseTime(startTime), ParseTime(endTime))
    case (Some(s), Some(e)) => Some(ShiftMinutes(s, e) as real / 60.0)
    case _ => None
  }

  /** Shift pay: `calculateHours(start, end) * hourly_rate`. */
  function ShiftPay(startTime: string, endTime: string, hourlyRate: real): (pay: Option<real>)
    ensures pay.Some? <==> CalculateHours(startTime, endTime).Some?
    ensures pay == TimesRate(CalculateHours(startTime, endTime), hourlyRate)
  {
    TimesRate(CalculateHours(startTime, endTime), hourlyRate)
  }

  /** `hours * rate`: pay per shift, NaN when the hours are NaN. */
  function TimesRate(hours: Option<real>, rate: real): (pay: Option<real>)
    ensures pay.Some? <==> hours.Some?
    ensures pay.Some? ==> pay.value == hours.value * rate
  {
    if hours.Some? then Some(hours.value * rate) else None
  }

  /**
   * Pay is linear in the rate: the pay at the sum of two rates is the sum of the pays,
   * and for a shift of non-negative length a higher rate never pays less.
   */
  lemma TimesRateLinear(hours: Option<real>, rate1: real, rate2: real)
    ensures TimesRate(hours, rate1 + rate2).Some? ==>
      TimesRate(hours, rate1 + rate2).value == TimesRate(hours, rate1).value + TimesRate(hours, rate2).value
    ensures hours.Some? && hours.value >= 0.0 && rate1 <= rate2 ==>
      TimesRate(hours, rate1).value <= TimesRate(hours, rate2).value
  {
    if hours.Some? {
      assert hours.value * (rate1 + rate2) == hours.value * rate1 + hours.value * rate2;
      if hours.value >= 0.0 && rate1 <= rate2 {
        assert hours.value * rate2 - hours.value * rate1 == hours.value * (rate2 - rate1);
      }
    }
  }

  /** For well-formed times, 60 x hours is the forward clock distance modulo a day, off the quirk. */
  lemma CalculateHoursOfFormatted(start: ClockTime, end: ClockTime)
    requires ValidClock(start) && ValidClock(end)
    requires !(end.hour == start.hour && end.minute < start.minute)
    ensures CalculateHours(FormatTime(start), FormatTime(end)).Some?
    ensures CalculateHours(FormatTime(start), FormatTime(end)).value * 60.0
         == ((MinuteOfDay(end) - MinuteOfDay(start)) % 1440) as real
  {
    ParseFormat(start);
    ParseFormat(end);
    WrapsModuloDay(start, end);
  }

  /** 22:00 to 06:00 is an eight-hour night shift. */
  lemma NightShiftExample()
    ensures CalculateHours("22:00", "06:00") == Some(8.0)
  {
    assert FormatTime(ClockTime(22, 0)) == "22:00";
    assert FormatTime(ClockTime(6, 0)) == "06:00";
    ParseFormat(ClockTime(22, 0));
    ParseFormat(ClockTime(6, 0));
  }

  /** 10:30 to 10:15 comes out as minus a quarter of an hour. */
  lemma NegativeQuarterExample()
    ensures CalculateHours("10:30", "10:15") == Some(-0.25)
  {
    assert FormatTime(ClockTime(10, 30)) == "10:30";
    assert FormatTime(ClockTime(10, 15)) == "10:15";
    ParseFormat(ClockTime(10, 30));
    ParseFormat(ClockTime(10, 15));
  }

  /** 7.5 hours at 15 an hour pays 112.50. */
  lemma PayExample()
    ensures ShiftPay("09:00", "16:30", 15.0) == Some(112.5)
  {
    assert FormatTime(ClockTime(9, 0)) == "09:00";
    assert FormatTime(ClockTime(16, 30)) == "16:30";
    ParseFormat(ClockTime(9, 0));
    ParseFormat(ClockTime(16, 30));
  }
}
