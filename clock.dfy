/** `formatDate` of src/App.js: an epoch-millisecond timestamp rendered as `H:MM:SS` in a fixed UTC-5 zone.
    A JavaScript Date holds an integer millisecond count clipped to +-8.64e15 (otherwise it is NaN);
    the UTC hour, minute and second of a time value are floor quotients taken modulo 24, 60 and 60,
    which is what Dafny's Euclidean `/` and `%` compute for positive divisors. */
module Clock {
  import opened Wrappers
  import opened Decimal

  const MS_PER_SECOND := 1000
  const MS_PER_MINUTE := 60000
  const MS_PER_HOUR := 3600000
  const SECONDS_PER_DAY := 86400
  const MS_PER_DAY := 86400000
  /** The fixed Eastern Standard Time shift, -5 * 60 * 60 * 1000; no daylight-saving rule. */
  const EST_OFFSET_MS := -18000000
  /** The largest magnitude a Date's time value may have (TimeClip). */
  const MAX_TIME_MS := 8640000000000000

  /** A time value that TimeClip keeps; any other makes the Date invalid (NaN). The range is 100,000,000
      days either side of the epoch. */
  predicate IsTimeValue(t: int)
    ensures IsTimeValue(t) <==> -100000000 * MS_PER_DAY <= t <= 100000000 * MS_PER_DAY
  {
    -MAX_TIME_MS <= t <= MAX_TIME_MS
  }

  /** Both Date values formatDate builds are valid: the parsed timestamp and the shifted one. */
  predicate IsFormattable(t: int)
    ensures IsFormattable(t) <==> -MAX_TIME_MS + 18000000 <= t <= MAX_TIME_MS
  {
    IsTimeValue(t) && IsTimeValue(t + EST_OFFSET_MS)
  }

  /** `getUTCHours()`: the hour of the UTC day. */
  function UtcHours(t: int): (h: nat)
    ensures h < 24
  {
    (t / MS_PER_HOUR) % 24
  }

  /** `getUTCMinutes()`: the minute of the UTC hour. */
  function UtcMinutes(t: int): (m: nat)
    ensures m < 60
  {
    (t / MS_PER_MINUTE) % 60
  }

  /** `getUTCSeconds()`: the second of the UTC minute. */
  function UtcSeconds(t: int): (s: nat)
    ensures s < 60
  {
    (t / MS_PER_SECOND) % 60
  }

  /** `String.prototype.substr(start)` with no length: a negative start counts back from the end, clamped
      at 0; the rest of the string from there. */
  function Substr(s: string, start: int): (r: string)
    ensures |r| == if start < 0 then (if |s| + start < 0 then |s| else -start) else if start > |s| then 0 else |s| - start
    ensures r == s[|s| - |r|..]
  {
    var from := if start < 0 then (if |s| + start < 0 then 0 else |s| + start)
                else if start > |s| then |s| else start;
    s[from..]
  }

  /** The string template of src/App.js:106-110, given the printed forms of the three fields. */
  function Template(hours: string, minutes: string, seconds: string): (r: string)
    requires |minutes| >= 1 && |seconds| >= 1
    ensures |r| == |hours| + 6 && r[..|hours|] == hours && r[|hours|] == ':' && r[|hours| + 3] == ':'
    ensures r[|hours| + 1..|hours| + 3] == ("0" + minutes)[|minutes| - 1..]
    ensures r[|hours| + 4..] == ("0" + seconds)[|seconds| - 1..]
  {
    var mm, ss := Substr("0" + minutes, -2), Substr("0" + seconds, -2);
    var r := hours + ":" + mm + ":" + ss;
    assert r[|hours| + 1..|hours| + 3] == mm && r[|hours| + 4..] == ss;
    r
  }

  /** What `Number.prototype.toString` gives for NaN. */
  const NAN_STRING := "NaN"

  /** formatDate(unixTimeStamp), for an integer timestamp. */
  function FormatDate(unixTimeStamp: int): (r: string)
    ensures r == "NaN:aN:aN" <==> !IsFormattable(unixTimeStamp)
    ensures IsFormattable(unixTimeStamp) ==>
      (|r| == 7 || |r| == 8) && r[|r| - 6] == ':' && r[|r| - 3] == ':' && AllDigits(r[..|r| - 6])
  {
    if !IsFormattable(unixTimeStamp) then
      var r := Template(NAN_STRING, NAN_STRING, NAN_STRING);
      assert Substr("0" + NAN_STRING, -2) == "aN";
      r
    else
      var shifted := unixTimeStamp + EST_OFFSET_MS;
      var hours := DecimalString(UtcHours(shifted));
      DecimalStringCanonical(UtcHours(shifted));
      var r := Template(hours, DecimalString(UtcMinutes(shifted)), DecimalString(UtcSeconds(shifted)));
      assert r[0] == hours[0] && IsDigit(r[0]);
      r
  }

  /** A wall-clock reading with its fields in range. */
  datatype ClockTime = ClockTime(hours: nat, minutes: nat, seconds: nat)
  {
    predicate Valid() {
      hours < 24 && minutes < 60 && seconds < 60
    }
  }

  /** The EST wall-clock fields of a timestamp. */
  function EstClock(t: int): (c: ClockTime)
    ensures c.Valid()
  {
    var shifted := t + EST_OFFSET_MS;
    ClockTime(UtcHours(shifted), UtcMinutes(shifted), UtcSeconds(shifted))
  }

  /** Seconds since EST midnight: the one quantity the printed string depends on. */
  function SecondOfDay(t: int): nat {
    ((t + EST_OFFSET_MS) / MS_PER_SECOND) % SECONDS_PER_DAY
  }

  /** Two decimal digits, tens first: the reference form of a padded minute or second. */
  function TwoDigits(n: nat): (s: string)
    requires n < 100
    ensures |s| == 2 && AllDigits(s) && ParseDecimal(s) == n
  {
    var s := [Digit(n / 10), Digit(n % 10)];
    assert s[..1] == [Digit(n / 10)] && [Digit(n / 10)][..0] == [];
    assert ParseDecimal([Digit(n / 10)]) == n / 10;
    s
  }

  /** The reference rendering: hours unpadded, minutes and seconds as exactly two digits. */
  function ClockString(c: ClockTime): string
    requires c.Valid()
  {
    DecimalString(c.hours) + ":" + TwoDigits(c.minutes) + ":" + TwoDigits(c.seconds)
  }

  /** Reads an `H:MM:SS` string back into its fields; None for anything not of that shape. */
  function ParseClock(s: string): Option<ClockTime> {
    if |s| < 7 then None
    else
      var n := |s|;
      var hh, mm, ss := s[..n - 6], s[n - 5..n - 3], s[n - 2..];
      if s[n - 6] == ':' && s[n - 3] == ':' && AllDigits(hh) && AllDigits(mm) && AllDigits(ss) then
        Some(ClockTime(ParseDecimal(hh), ParseDecimal(mm), ParseDecimal(ss)))
      else
        None
  }

  // ---------------------------------------------------------------------------------------------------
  // Padding

  /** `("0" + n).substr(-2)` is exactly the two-digit form of n, for every n in 0..99. */
  lemma PaddedLastTwo(n: nat)
    requires n < 100
    ensures Substr("0" + DecimalString(n), -2) == TwoDigits(n)
  {
    DecimalStringCanonical(n);
    var padded := "0" + DecimalString(n);
    var last := padded[|padded| - 2..];
    assert Substr(padded, -2) == last;
    if n < 10 {
      assert n / 10 == 0 && n % 10 == n;
      assert last == ['0', Digit(n)];
    } else {
      assert last == DecimalString(n);
    }
  }

  /** A valid timestamp is printed as its EST clock fields: hours unpadded, minutes and seconds padded to
      exactly two digits; an invalid one as "NaN:aN:aN". */
  lemma FormatDateShape(t: int)
    ensures IsFormattable(t) ==> FormatDate(t) == ClockString(EstClock(t))
    ensures !IsFormattable(t) ==> FormatDate(t) == "NaN:aN:aN"
  {
    var c := EstClock(t);
    if IsFormattable(t) {
      PaddedLastTwo(c.minutes);
      PaddedLastTwo(c.seconds);
    } else {
      assert Substr("0" + NAN_STRING, -2) == "aN";
    }
  }

  /** The hour is never zero-padded: a valid timestamp prints 7 characters before 10:00 EST and 8 from then
      on, and starts with '0' only at hour 0. */
  lemma FormatDateUnpaddedHour(t: int)
    requires IsFormattable(t)
    ensures |FormatDate(t)| == if EstClock(t).hours < 10 then 7 else 8
    ensures FormatDate(t)[0] == '0' <==> EstClock(t).hours == 0
  {
    FormatDateShape(t);
    DecimalStringCanonical(EstClock(t).hours);
  }

  // ---------------------------------------------------------------------------------------------------
  // Round trip

  /** ClockString loses nothing: parsing it gives back the fields. */
  lemma ParseClockString(c: ClockTime)
    requires c.Valid()
    ensures ParseClock(ClockString(c)) == Some(c)
  {
    var h := DecimalString(c.hours);
    var s := ClockString(c);
    var n := |s|;
    assert s[..n - 6] == h;
    assert s[n - 5..n - 3] == TwoDigits(c.minutes);
    assert s[n - 2..] == TwoDigits(c.seconds);
    ParseDecimalString(c.hours);
  }

  /** Every printed timestamp parses back to its EST wall-clock fields, and each field is in range. */
  lemma ParseFormatDate(t: int)
    requires IsFormattable(t)
    ensures ParseClock(FormatDate(t)) == Some(EstClock(t))
    ensures EstClock(t).hours < 24 && EstClock(t).minutes < 60 && EstClock(t).seconds < 60
  {
    FormatDateShape(t);
    ParseClockString(EstClock(t));
  }

  /** An invalid Date never prints as a clock reading. */
  lemma FormatDateInvalid(t: int)
    ensures ParseClock(FormatDate(t)) == None <==> !IsFormattable(t)
  {
    FormatDateShape(t);
    if IsFormattable(t) {
      ParseFormatDate(t);
    }
  }

  // ---------------------------------------------------------------------------------------------------
  // Arithmetic of the clock fields

  /** Floor division by 1000 and then by d is floor division by 1000 * d. */
  lemma DivThenDiv(x: int, d: nat)
    requires d > 0
    ensures (x / MS_PER_SECOND) / d == x / (MS_PER_SECOND * d)
  {
    var q, r := x / MS_PER_SECOND, x % MS_PER_SECOND;
    var q2, r2 := q / d, q % d;
    assert x == MS_PER_SECOND * q + r;
    assert q == d * q2 + r2;
    MulBounds(r2, d);
    assert x == (MS_PER_SECOND * d) * q2 + (MS_PER_SECOND * r2 + r);
    DivUnique(x, MS_PER_SECOND * d, q2, MS_PER_SECOND * r2 + r);
  }

  lemma MulBounds(r2: int, d: int)
    requires 0 <= r2 < d
    ensures 0 <= MS_PER_SECOND * r2 <= MS_PER_SECOND * d - MS_PER_SECOND
  {
  }

  /** Euclidean division is determined by its quotient-remainder equation. */
  lemma DivUnique(x: int, d: int, q: int, r: int)
    requires d > 0 && 0 <= r < d && x == d * q + r
    ensures x / d == q && x % d == r
  {
    var q', r' := x / d, x % d;
    assert d * (q - q') == r' - r;
    if q > q' {
      MulAtLeast(d, q - q');
    } else if q < q' {
      MulAtLeast(d, q' - q);
    }
  }

  lemma MulAtLeast(d: int, k: int)
    requires d > 0 && k >= 1
    ensures d * k >= d
  {
  }

  /** Hour, minute and second of a count of seconds depend only on its remainder modulo a day. */
  lemma FieldsOfSeconds(secs: int)
    ensures (secs / 3600) % 24 == (secs % SECONDS_PER_DAY) / 3600
    ensures (secs / 60) % 60 == ((secs % SECONDS_PER_DAY) / 60) % 60
    ensures secs % 60 == (secs % SECONDS_PER_DAY) % 60
  {
    var day, sod := secs / SECONDS_PER_DAY, secs % SECONDS_PER_DAY;
    assert secs == 86400 * day + sod;
    DivUnique(secs, 3600, 24 * day + sod / 3600, sod % 3600);
    DivUnique(24 * day + sod / 3600, 24, day, sod / 3600);
    DivUnique(secs, 60, 1440 * day + sod / 60, sod % 60);
    DivUnique(1440 * day + sod / 60, 60, 24 * day + (sod / 60) / 60, (sod / 60) % 60);
  }

  /** A second of the day is its hour, minute and second in positional notation. */
  lemma SecondOfDayDigits(sod: int)
    requires 0 <= sod < SECONDS_PER_DAY
    ensures (sod / 3600) * 3600 + ((sod / 60) % 60) * 60 + sod % 60 == sod
  {
    var minutes := sod / 60;
    assert sod == 60 * minutes + sod % 60;
    assert minutes == 60 * (minutes / 60) + minutes % 60;
    DivUnique(sod, 3600, minutes / 60, (minutes % 60) * 60 + sod % 60);
  }

  /** The printed fields are the hour, minute and second of the EST second of the day. */
  lemma EstClockFromSecondOfDay(t: int)
    ensures var c, sod := EstClock(t), SecondOfDay(t);
      c.hours == sod / 3600 && c.minutes == (sod / 60) % 60 && c.seconds == sod % 60
    ensures var c := EstClock(t);
      c.hours * 3600 + c.minutes * 60 + c.seconds == SecondOfDay(t)
  {
    var x := t + EST_OFFSET_MS;
    DivThenDiv(x, 60);
    DivThenDiv(x, 3600);
    FieldsOfSeconds(x / MS_PER_SECOND);
    SecondOfDayDigits(SecondOfDay(t));
  }

  // ---------------------------------------------------------------------------------------------------
  // What the printed string depends on

  /** Two valid timestamps print alike exactly when they fall on the same EST second of the day. */
  lemma {:induction false} FormatDateEqualIff(t1: int, t2: int)
    requires IsFormattable(t1) && IsFormattable(t2)
    ensures FormatDate(t1) == FormatDate(t2) <==> SecondOfDay(t1) == SecondOfDay(t2)
  {
    EstClockFromSecondOfDay(t1);
    EstClockFromSecondOfDay(t2);
    if SecondOfDay(t1) == SecondOfDay(t2) {
      assert EstClock(t1) == EstClock(t2);
      FormatDateShape(t1);
      FormatDateShape(t2);
    } else {
      assert EstClock(t1) != EstClock(t2);
      ParseFormatDate(t1);
      ParseFormatDate(t2);
    }
  }

  /** The shift is a fixed UTC-5: a timestamp one day later prints the same. */
  lemma FormatDateDaily(t: int)
    requires IsFormattable(t) && IsFormattable(t + MS_PER_DAY)
    ensures FormatDate(t + MS_PER_DAY) == FormatDate(t)
  {
    var x := t + EST_OFFSET_MS;
    DivUnique(x + MS_PER_DAY, MS_PER_SECOND, x / MS_PER_SECOND + SECONDS_PER_DAY, x % MS_PER_SECOND);
    assert SecondOfDay(t + MS_PER_DAY) == SecondOfDay(t);
    FormatDateEqualIff(t + MS_PER_DAY, t);
  }

  /** Milliseconds are dropped: timestamps in the same whole second print the same. */
  lemma FormatDateWholeSeconds(t1: int, t2: int)
    requires IsFormattable(t1) && IsFormattable(t2)
    requires t1 / MS_PER_SECOND == t2 / MS_PER_SECOND
    ensures FormatDate(t1) == FormatDate(t2)
  {
    ShiftedSeconds(t1);
    ShiftedSeconds(t2);
    assert SecondOfDay(t1) == SecondOfDay(t2);
    FormatDateEqualIff(t1, t2);
  }

  lemma ShiftedSeconds(t: int)
    ensures (t + EST_OFFSET_MS) / MS_PER_SECOND == t / MS_PER_SECOND - 18000
  {
    DivUnique(t + EST_OFFSET_MS, MS_PER_SECOND, t / MS_PER_SECOND - 18000, t % MS_PER_SECOND);
  }

  /** The whole-second rule needs both Dates valid: the last valid millisecond of time and the invalid one
      right after it share their whole second but not their output. */
  lemma WholeSecondsNeedValidDates()
    ensures 8640000000000000 / MS_PER_SECOND == 8640000000000999 / MS_PER_SECOND
    ensures FormatDate(8640000000000000) == "19:00:00"
    ensures FormatDate(8640000000000999) == "NaN:aN:aN"
  {
    calc {
      FormatDate(8640000000000000);
    == { assert EstClock(8640000000000000) == ClockTime(19, 0, 0); FormatDateIs(8640000000000000, 19, 0, 0); }
      DecimalString(19) + [':', Digit(0 / 10), Digit(0 % 10), ':', Digit(0 / 10), Digit(0 % 10)];
    == { DecimalStringCanonical(19); }
      "19:00:00";
    }
    FormatDateShape(8640000000000999);
  }

  /** 08:00:00 UTC is 3:00:00 EST, printed without a leading zero on the hour. */
  lemma FormatDateEightUtc()
    ensures FormatDate(8 * MS_PER_HOUR) == "3:00:00"
  {
    calc {
      FormatDate(8 * MS_PER_HOUR);
    == { assert EstClock(8 * MS_PER_HOUR) == ClockTime(3, 0, 0); FormatDateIs(8 * MS_PER_HOUR, 3, 0, 0); }
      DecimalString(3) + [':', Digit(0 / 10), Digit(0 % 10), ':', Digit(0 / 10), Digit(0 % 10)];
    == { DecimalStringCanonical(3); }
      "3:00:00";
    }
  }

  /** The epoch itself is the evening before in EST. */
  lemma FormatDateEpoch()
    ensures FormatDate(0) == "19:00:00"
  {
    calc {
      FormatDate(0);
    == { assert EstClock(0) == ClockTime(19, 0, 0); FormatDateIs(0, 19, 0, 0); }
      DecimalString(19) + [':', Digit(0 / 10), Digit(0 % 10), ':', Digit(0 / 10), Digit(0 % 10)];
    == { DecimalStringCanonical(19); }
      "19:00:00";
    }
  }

  /** 2023-11-14T22:13:20.000Z is 17:13:20 EST. */
  lemma FormatDateRecent()
    ensures FormatDate(1700000000000) == "17:13:20"
  {
    calc {
      FormatDate(1700000000000);
    == { assert EstClock(1700000000000) == ClockTime(17, 13, 20); FormatDateIs(1700000000000, 17, 13, 20); }
      DecimalString(17) + [':', Digit(13 / 10), Digit(13 % 10), ':', Digit(20 / 10), Digit(20 % 10)];
    == { DecimalStringCanonical(17); }
      "17:13:20";
    }
  }

  /** The characters printed for a timestamp whose EST clock reads h:m:s. */
  lemma FormatDateIs(t: int, h: nat, m: nat, s: nat)
    requires h < 24 && m < 60 && s < 60
    requires IsFormattable(t) && EstClock(t) == ClockTime(h, m, s)
    ensures FormatDate(t) == DecimalString(h) + [':', Digit(m / 10), Digit(m % 10), ':', Digit(s / 10), Digit(s % 10)]
  {
    FormatDateShape(t);
  }
}
