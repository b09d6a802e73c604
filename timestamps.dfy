/**
 * The calendar reading of an instant and its rendering by
 * `strftime('%Y-%m-%d %H:%M:%S')`, used for default session names. The
 * clock is read in UTC; the local time zone is not modelled.
 */
module Timestamps {
  import opened Models

  const MicrosPerSecond: nat := 1000000
  const SecondsPerDay: nat := 86400
  const EpochYear: nat := 1970

  predicate IsLeap(y: nat) {
    y % 4 == 0 && (y % 100 != 0 || y % 400 == 0)
  }

  function DaysInYear(y: nat): nat {
    if IsLeap(y) then 366 else 365
  }

  /** Days of year `y` before the first of month `m`; month 13 stands for the next 1 January. */
  function DaysBeforeMonth(y: nat, m: nat): (r: nat)
    requires 1 <= m <= 13
    ensures m == 13 ==> r == DaysInYear(y)
  {
    var common := [0, 31, 59, 90, 120, 151, 181, 212, 243, 273, 304, 334, 365];
    common[m - 1] + (if IsLeap(y) && m > 2 then 1 else 0)
  }

  function DaysInMonth(y: nat, m: nat): (r: nat)
    requires 1 <= m <= 12
    ensures 28 <= r <= 31
  {
    DaysBeforeMonth(y, m + 1) - DaysBeforeMonth(y, m)
  }

  /** Days from 1 January of `y0` to 1 January of `y1`. */
  function DaysBetween(y0: nat, y1: nat): nat
    requires y0 <= y1
    decreases y1 - y0
  {
    if y0 == y1 then 0 else DaysInYear(y0) + DaysBetween(y0 + 1, y1)
  }

  /** The year holding the day `days` days after 1 January of `y`, and that day's index in its year. */
  function YearOf(days: nat, y: nat): (r: (nat, nat))
    ensures y <= r.0 && r.1 < DaysInYear(r.0)
    ensures DaysBetween(y, r.0) + r.1 == days
    decreases days
  {
    if days < DaysInYear(y) then (y, days) else YearOf(days - DaysInYear(y), y + 1)
  }

  /** The month, counted from `m`, holding day `d` of year `y`, and the day of that month. */
  function MonthOf(d: nat, y: nat, m: nat): (r: (nat, nat))
    requires 1 <= m <= 12 && DaysBeforeMonth(y, m) <= d < DaysInYear(y)
    ensures m <= r.0 <= 12 && 1 <= r.1 <= DaysInMonth(y, r.0)
    ensures DaysBeforeMonth(y, r.0) + r.1 - 1 == d
    decreases 12 - m
  {
    if d < DaysBeforeMonth(y, m + 1) then (m, d - DaysBeforeMonth(y, m) + 1)
    else MonthOf(d, y, m + 1)
  }

  datatype DateTime = DateTime(year: nat, month: nat, day: nat, hour: nat, minute: nat, second: nat)

  predicate WellFormed(dt: DateTime) {
    dt.year >= EpochYear && 1 <= dt.month <= 12 && 1 <= dt.day <= DaysInMonth(dt.year, dt.month)
    && dt.hour < 24 && dt.minute < 60 && dt.second < 60
  }

  /** The whole seconds since the epoch a well-formed date and time stand for. */
  function EpochSeconds(dt: DateTime): nat
    requires WellFormed(dt)
  {
    (DaysBetween(EpochYear, dt.year) + DaysBeforeMonth(dt.year, dt.month) + dt.day - 1) * SecondsPerDay
    + dt.hour * 3600 + dt.minute * 60 + dt.second
  }

  /** The calendar date and time of an instant, to the second. */
  function Civil(t: Instant): DateTime {
    var s := t / MicrosPerSecond;
    var days := s / SecondsPerDay;
    var rest := s % SecondsPerDay;
    var (y, d) := YearOf(days, EpochYear);
    var (m, dm) := MonthOf(d, y, 1);
    DateTime(y, m, dm, rest / 3600, rest % 3600 / 60, rest % 60)
  }

  /** The calendar reading is a real date and time, and it stands for the instant's whole seconds. */
  lemma CivilReading(t: Instant)
    ensures WellFormed(Civil(t))
    ensures EpochSeconds(Civil(t)) == t / MicrosPerSecond
  {
    var s := t / MicrosPerSecond;
    var days := s / SecondsPerDay;
    var rest := s % SecondsPerDay;
    var (y, d) := YearOf(days, EpochYear);
    var (m, dm) := MonthOf(d, y, 1);
    assert Civil(t) == DateTime(y, m, dm, rest / 3600, rest % 3600 / 60, rest % 60);
    assert days * SecondsPerDay + rest == s;
    assert (rest / 3600) * 3600 + (rest % 3600 / 60) * 60 + rest % 60 == rest;
  }

  // ---------------------------------------------------------------------------
  // Zero-padded decimal fields

  function DigitChar(n: nat): char
    requires n < 10
  {
    "0123456789"[n]
  }

  predicate IsDigit(c: char) {
    '0' <= c <= '9'
  }

  function DigitValue(c: char): nat
    requires IsDigit(c)
  {
    c as nat - '0' as nat
  }

  /** The number a run of decimal digits spells. */
  function ParseDecimal(s: string): nat
    requires forall i :: 0 <= i < |s| ==> IsDigit(s[i])
  {
    if s == [] then 0 else ParseDecimal(s[..|s| - 1]) * 10 + DigitValue(s[|s| - 1])
  }

  function NumDigits(n: nat): (k: nat)
    ensures k >= 1
  {
    if n < 10 then 1 else 1 + NumDigits(n / 10)
  }

  function Max(a: nat, b: nat): nat {
    if a < b then b else a
  }

  /** `n` in decimal, padded with zeros on the left to at least `width` characters. */
  function Digits(n: nat, width: nat): (r: string)
    ensures |r| == Max(width, NumDigits(n))
    ensures forall i :: 0 <= i < |r| ==> IsDigit(r[i])
    ensures ParseDecimal(r) == n
    decreases n + width
  {
    if n < 10 && width <= 1 then [DigitChar(n)]
    else
      var prefix := Digits(n / 10, if width == 0 then 0 else width - 1);
      var r := prefix + [DigitChar(n % 10)];
      assert r[..|r| - 1] == prefix;
      r
  }

  lemma {:induction false} NumDigitsBelow(n: nat)
    ensures n < 10 ==> NumDigits(n) == 1
    ensures n < 100 ==> NumDigits(n) <= 2
    ensures n < 1000 ==> NumDigits(n) <= 3
    ensures n < 10000 ==> NumDigits(n) <= 4
    decreases n
  {
    if n >= 10 {
      NumDigitsBelow(n / 10);
    }
  }

  /** The `%Y-%m-%d %H:%M:%S` rendering of a date and time. */
  function Render(dt: DateTime): (r: string)
    ensures |r| >= 19
    ensures (dt.year < 10000 && dt.month < 100 && dt.day < 100 && dt.hour < 100
             && dt.minute < 100 && dt.second < 100) ==> |r| == 19
  {
    NumDigitsBelow(dt.year);
    NumDigitsBelow(dt.month);
    NumDigitsBelow(dt.day);
    NumDigitsBelow(dt.hour);
    NumDigitsBelow(dt.minute);
    NumDigitsBelow(dt.second);
    Digits(dt.year, 4) + "-" + Digits(dt.month, 2) + "-" + Digits(dt.day, 2) + " "
    + Digits(dt.hour, 2) + ":" + Digits(dt.minute, 2) + ":" + Digits(dt.second, 2)
  }

  /** `strftime('%Y-%m-%d %H:%M:%S')` of the instant. */
  function Strftime(t: Instant): (r: string)
    ensures Civil(t).year < 10000 ==> |r| == 19
  {
    Render(Civil(t))
  }

  /**
   * The nineteen rendered characters are the six zero-padded fields at fixed
   * places with the separators between them; each field reads back as its
   * number by the `ParseDecimal` round trip of `Digits`.
   */
  lemma RenderFields(dt: DateTime)
    requires WellFormed(dt) && dt.year < 10000
    ensures var r := Render(dt);
            |r| == 19 && r[4] == '-' && r[7] == '-' && r[10] == ' ' && r[13] == ':' && r[16] == ':'
            && r[0..4] == Digits(dt.year, 4) && r[5..7] == Digits(dt.month, 2)
            && r[8..10] == Digits(dt.day, 2) && r[11..13] == Digits(dt.hour, 2)
            && r[14..16] == Digits(dt.minute, 2) && r[17..19] == Digits(dt.second, 2)
  {
    NumDigitsBelow(dt.year);
    NumDigitsBelow(dt.month);
    NumDigitsBelow(dt.day);
    NumDigitsBelow(dt.hour);
    NumDigitsBelow(dt.minute);
    NumDigitsBelow(dt.second);
    var y, mo, d := Digits(dt.year, 4), Digits(dt.month, 2), Digits(dt.day, 2);
    var h, mi, s := Digits(dt.hour, 2), Digits(dt.minute, 2), Digits(dt.second, 2);
    var r := Render(dt);
    assert r == y + "-" + mo + "-" + d + " " + h + ":" + mi + ":" + s;
    Layout(y, mo, d, h, mi, s);
  }

  lemma Layout(y: string, mo: string, d: string, h: string, mi: string, s: string)
    requires |y| == 4 && |mo| == 2 && |d| == 2 && |h| == 2 && |mi| == 2 && |s| == 2
    ensures var r := y + "-" + mo + "-" + d + " " + h + ":" + mi + ":" + s;
            |r| == 19 && r[4] == '-' && r[7] == '-' && r[10] == ' ' && r[13] == ':' && r[16] == ':'
            && r[0..4] == y && r[5..7] == mo && r[8..10] == d && r[11..13] == h
            && r[14..16] == mi && r[17..19] == s
  {
    var r := y + "-" + mo + "-" + d + " " + h + ":" + mi + ":" + s;
    assert r[0..4] == y;
    assert r[5..7] == mo by { assert r[5] == mo[0] && r[6] == mo[1]; }
    assert r[8..10] == d by { assert r[8] == d[0] && r[9] == d[1]; }
    assert r[11..13] == h by { assert r[11] == h[0] && r[12] == h[1]; }
    assert r[14..16] == mi by { assert r[14] == mi[0] && r[15] == mi[1]; }
    assert r[17..19] == s by { assert r[17] == s[0] && r[18] == s[1]; }
  }
}
