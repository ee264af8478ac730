/**
 * The part of `datetime` the forecast report relies on: parsing the
 * upstream "YYYY-MM-DD HH:MM:SS" timestamp, the proleptic Gregorian day
 * number behind `weekday()` (Monday = 0), and the `%i` rendering of the hour.
 */
module Calendar {
  import opened Wrappers

  datatype DateTime = DateTime(year: int, month: int, day: int, hour: int, minute: int, second: int)

  predicate IsLeap(y: int) {
    y % 4 == 0 && (y % 100 != 0 || y % 400 == 0)
  }

  function DaysInMonth(y: int, m: int): (n: int)
    requires 1 <= m <= 12
    ensures 28 <= n <= 31
  {
    if m == 2 then (if IsLeap(y) then 29 else 28)
    else if m == 4 || m == 6 || m == 9 || m == 11 then 30
    else 31
  }

  /** What `datetime` accepts: years 1..9999, real calendar days, a 24-hour clock without leap seconds. */
  predicate ValidDateTime(dt: DateTime) {
    && 1 <= dt.year <= 9999
    && 1 <= dt.month <= 12
    && 1 <= dt.day <= DaysInMonth(dt.year, dt.month)
    && 0 <= dt.hour < 24
    && 0 <= dt.minute < 60
    && 0 <= dt.second < 60
  }

  // ---------------------------------------------------------------- digits

  predicate IsDigit(c: char) {
    '0' <= c <= '9'
  }

  function DigitValue(c: char): (d: nat)
    requires IsDigit(c)
    ensures d < 10
  {
    (c as int) - ('0' as int)
  }

  function DigitChar(d: nat): (c: char)
    requires d < 10
    ensures IsDigit(c) && DigitValue(c) == d
  {
    (('0' as int) + d) as char
  }

  /** The value of a string of decimal digits (most significant first). */
  function DigitsValue(s: string): nat
    requires forall i :: 0 <= i < |s| ==> IsDigit(s[i])
  {
    if s == [] then 0 else 10 * DigitsValue(s[..|s| - 1]) + DigitValue(s[|s| - 1])
  }

  /**
   * `"%i" % n` for a non-negative integer: decimal digits, no leading zero.
   * Its inverse is DigitsValue (see DecimalRoundTrip).
   */
  function Decimal(n: nat): (s: string)
    ensures |s| >= 1
    ensures forall i :: 0 <= i < |s| ==> IsDigit(s[i])
    ensures |s| > 1 ==> s[0] != '0'
    ensures n < 10 <==> |s| == 1
  {
    if n < 10 then [DigitChar(n)] else Decimal(n / 10) + [DigitChar(n % 10)]
  }

  lemma {:induction false} DecimalRoundTrip(n: nat)
    ensures DigitsValue(Decimal(n)) == n
  {
    if n >= 10 {
      DecimalRoundTrip(n / 10);
      var s := Decimal(n);
      assert s[..|s| - 1] == Decimal(n / 10);
    }
  }

  // ------------------------------------------------- fixed-width timestamps

  /** The positions of "YYYY-MM-DD HH:MM:SS" that hold separators rather than digits. */
  predicate IsSeparatorPos(i: int) {
    i == 4 || i == 7 || i == 10 || i == 13 || i == 16
  }

  predicate WellShaped(s: string) {
    && |s| == 19
    && s[4] == '-' && s[7] == '-' && s[10] == ' ' && s[13] == ':' && s[16] == ':'
    && forall i :: 0 <= i < 19 && !IsSeparatorPos(i) ==> IsDigit(s[i])
  }

  function Two(s: string, i: nat): nat
    requires i + 2 <= |s| && IsDigit(s[i]) && IsDigit(s[i + 1])
  {
    10 * DigitValue(s[i]) + DigitValue(s[i + 1])
  }

  function Four(s: string, i: nat): nat
    requires i + 4 <= |s| && IsDigit(s[i]) && IsDigit(s[i + 1]) && IsDigit(s[i + 2]) && IsDigit(s[i + 3])
  {
    100 * Two(s, i) + Two(s, i + 2)
  }

  function Pad2(n: nat): (s: string)
    requires n < 100
    ensures |s| == 2 && IsDigit(s[0]) && IsDigit(s[1]) && Two(s, 0) == n
  {
    [DigitChar(n / 10), DigitChar(n % 10)]
  }

  function Pad4(n: nat): (s: string)
    requires n < 10000
    ensures |s| == 4 && (forall i :: 0 <= i < 4 ==> IsDigit(s[i])) && Four(s, 0) == n
  {
    Pad2(n / 100) + Pad2(n % 100)
  }

  /** The upstream `dt_txt` form of a date and time. */
  function Format(dt: DateTime): (s: string)
    requires ValidDateTime(dt)
    ensures |s| == 19
  {
    Pad4(dt.year) + "-" + Pad2(dt.month) + "-" + Pad2(dt.day) + " "
      + Pad2(dt.hour) + ":" + Pad2(dt.minute) + ":" + Pad2(dt.second)
  }

  /**
   * `datetime.strptime(s, '%Y-%m-%d %H:%M:%S')` on the zero-padded form;
   * `None` is the ValueError raised for anything else or for an impossible date.
   */
  function ParseTimestamp(s: string): (r: Option<DateTime>)
    ensures r.Some? ==> ValidDateTime(r.value) && WellShaped(s)
  {
    if !WellShaped(s) then None
    else
      var dt := DateTime(Four(s, 0), Two(s, 5), Two(s, 8), Two(s, 11), Two(s, 14), Two(s, 17));
      if ValidDateTime(dt) then Some(dt) else None
  }

  lemma ParseFormat(dt: DateTime)
    requires ValidDateTime(dt)
    ensures ParseTimestamp(Format(dt)) == Some(dt)
  {
    FormatFields(dt);
    var s := Format(dt);
    assert WellShaped(s);
  }

  /** Where each field sits in the formatted timestamp. */
  lemma FormatFields(dt: DateTime)
    requires ValidDateTime(dt)
    ensures var s := Format(dt);
      && s[0..4] == Pad4(dt.year) && s[4] == '-'
      && s[5..7] == Pad2(dt.month) && s[7] == '-'
      && s[8..10] == Pad2(dt.day) && s[10] == ' '
      && s[11..13] == Pad2(dt.hour) && s[13] == ':'
      && s[14..16] == Pad2(dt.minute) && s[16] == ':'
      && s[17..19] == Pad2(dt.second)
  {
  }

  lemma Pad2Two(s: string, i: nat)
    requires i + 2 <= |s| && IsDigit(s[i]) && IsDigit(s[i + 1])
    ensures Two(s, i) < 100 && Pad2(Two(s, i)) == s[i..i + 2]
  {
    var a, b := DigitValue(s[i]), DigitValue(s[i + 1]);
    assert (10 * a + b) / 10 == a && (10 * a + b) % 10 == b;
    assert DigitChar(a) == s[i] && DigitChar(b) == s[i + 1];
  }

  lemma Pad4Four(s: string, i: nat)
    requires i + 4 <= |s| && IsDigit(s[i]) && IsDigit(s[i + 1]) && IsDigit(s[i + 2]) && IsDigit(s[i + 3])
    ensures Four(s, i) < 10000 && Pad4(Four(s, i)) == s[i..i + 4]
  {
    Pad2Two(s, i);
    Pad2Two(s, i + 2);
    var hi, lo := Two(s, i), Two(s, i + 2);
    assert (100 * hi + lo) / 100 == hi && (100 * hi + lo) % 100 == lo;
  }

  lemma FormatParse(s: string)
    requires ParseTimestamp(s).Some?
    ensures Format(ParseTimestamp(s).value) == s
  {
    assert WellShaped(s);
    Pad4Four(s, 0);
    Pad2Two(s, 5);
    Pad2Two(s, 8);
    Pad2Two(s, 11);
    Pad2Two(s, 14);
    Pad2Two(s, 17);
    assert s == s[0..4] + [s[4]] + s[5..7] + [s[7]] + s[8..10] + [s[10]]
              + s[11..13] + [s[13]] + s[14..16] + [s[16]] + s[17..19];
  }

  // ---------------------------------------------------- day numbers, weekday

  const DaysBeforeMonthTable: seq<int> := [0, 0, 31, 59, 90, 120, 151, 181, 212, 243, 273, 304, 334]

  function DaysBeforeYear(y: int): int
    requires y >= 1
  {
    var p := y - 1;
    p * 365 + p / 4 - p / 100 + p / 400
  }

  function DaysBeforeMonth(y: int, m: int): int
    requires 1 <= m <= 12
  {
    DaysBeforeMonthTable[m] + (if m > 2 && IsLeap(y) then 1 else 0)
  }

  /**
   * `date.toordinal()`: 0001-01-01 is day 1, and the days of a year take the
   * numbers right after those of all earlier years.
   */
  function Ordinal(y: int, m: int, d: int): (o: int)
    requires y >= 1 && 1 <= m <= 12
    ensures 1 <= d <= DaysInMonth(y, m) ==>
      DaysBeforeYear(y) < o <= DaysBeforeYear(y) + (if IsLeap(y) then 366 else 365)
  {
    DaysBeforeYear(y) + DaysBeforeMonth(y, m) + d
  }

  /** `date.weekday()`: Monday is 0 and Sunday is 6. */
  function Weekday(dt: DateTime): (w: int)
    requires ValidDateTime(dt)
    ensures 0 <= w < 7
  {
    (Ordinal(dt.year, dt.month, dt.day) + 6) % 7
  }

  /** The same clock time on the following calendar day. */
  function NextDay(dt: DateTime): (n: DateTime)
    requires ValidDateTime(dt) && !(dt.year == 9999 && dt.month == 12 && dt.day == 31)
    ensures ValidDateTime(n) && n.hour == dt.hour
  {
    if dt.day < DaysInMonth(dt.year, dt.month) then dt.(day := dt.day + 1)
    else if dt.month < 12 then dt.(month := dt.month + 1, day := 1)
    else dt.(year := dt.year + 1, month := 1, day := 1)
  }

  lemma YearLength(y: int)
    requires y >= 1
    ensures DaysBeforeYear(y + 1) == DaysBeforeYear(y) + (if IsLeap(y) then 366 else 365)
  {
    var p := y - 1;
    assert DaysBeforeYear(y) == p * 365 + p / 4 - p / 100 + p / 400;
    assert DaysBeforeYear(y + 1) == y * 365 + y / 4 - y / 100 + y / 400;
    DivStep4(y);
    DivStep100(y);
    DivStep400(y);
    LeapCount(y);
  }

  /** A leap year is a multiple of 4, minus the multiples of 100, plus the multiples of 400. */
  lemma LeapCount(y: int)
    ensures (if y % 4 == 0 then 1 else 0) - (if y % 100 == 0 then 1 else 0) + (if y % 400 == 0 then 1 else 0)
         == (if IsLeap(y) then 1 else 0)
  {
    if y % 100 == 0 {
      var k := y / 100;
      assert y == 4 * (25 * k);
      assert y % 4 == 0;
    }
    if y % 400 == 0 {
      var k := y / 400;
      assert y == 100 * (4 * k);
      assert y % 100 == 0;
    }
  }

  lemma DivStep4(y: int)
    requires y >= 1
    ensures y / 4 == (y - 1) / 4 + (if y % 4 == 0 then 1 else 0)
  {
  }

  lemma DivStep100(y: int)
    requires y >= 1
    ensures y / 100 == (y - 1) / 100 + (if y % 100 == 0 then 1 else 0)
  {
  }

  lemma DivStep400(y: int)
    requires y >= 1
    ensures y / 400 == (y - 1) / 400 + (if y % 400 == 0 then 1 else 0)
  {
  }

  lemma {:induction false} NextDayOrdinal(dt: DateTime)
    requires ValidDateTime(dt) && !(dt.year == 9999 && dt.month == 12 && dt.day == 31)
    ensures Ordinal(NextDay(dt).year, NextDay(dt).month, NextDay(dt).day)
         == Ordinal(dt.year, dt.month, dt.day) + 1
  {
    if dt.day == DaysInMonth(dt.year, dt.month) && dt.month == 12 {
      YearLength(dt.year);
    }
  }

  /** Consecutive calendar days have consecutive weekdays, Sunday wrapping to Monday. */
  lemma NextDayWeekday(dt: DateTime)
    requires ValidDateTime(dt) && !(dt.year == 9999 && dt.month == 12 && dt.day == 31)
    ensures Weekday(NextDay(dt)) == (Weekday(dt) + 1) % 7
  {
    NextDayOrdinal(dt);
    var o := Ordinal(dt.year, dt.month, dt.day);
    WeekStep(o + 6);
  }

  lemma WeekStep(a: int)
    ensures (a + 1) % 7 == (a % 7 + 1) % 7
  {
  }

  /** 0001-01-01, day 1 of the proleptic calendar, was a Monday. */
  lemma FirstDayMonday()
    ensures Weekday(DateTime(1, 1, 1, 0, 0, 0)) == 0
  {
  }

  /** 2023-06-05 was a Monday. */
  lemma SampleDayMonday()
    ensures Weekday(DateTime(2023, 6, 5, 12, 0, 0)) == 0
  {
  }

  /** The upstream form of 2023-06-05 12:00 parses to that date and time. */
  lemma ParseExample()
    ensures ParseTimestamp("2023-06-05 12:00:00") == Some(DateTime(2023, 6, 5, 12, 0, 0))
  {
    var s := "2023-06-05 12:00:00";
    assert WellShaped(s);
    assert Four(s, 0) == 2023 && Two(s, 5) == 6 && Two(s, 8) == 5;
    assert Two(s, 11) == 12 && Two(s, 14) == 0 && Two(s, 17) == 0;
  }
}
