/** The proleptic Gregorian calendar on instants counted in nanoseconds since the Unix epoch, as far
    as the month of an instant goes. A month is numbered 12 * year + (month - 1). */
module Calendar {
  import Decimal

  type Time = int      // nanoseconds since 1970-01-01T00:00:00Z
  type Duration = int  // nanoseconds

  const NANOSECOND: Duration := 1
  const SECOND: Duration := 1_000_000_000
  const MINUTE: Duration := 60 * SECOND
  const DAY: Duration := 86_400 * SECOND

  /** Go's zero `time.Time`, 0001-01-01T00:00:00Z. */
  const ZERO_TIME: Time := -62_135_596_800 * SECOND

  /** `Time.Unix`: whole seconds, rounded down. */
  function Unix(t: Time): int {
    t / SECOND
  }

  predicate Leap(year: int) {
    year % 4 == 0 && (year % 100 != 0 || year % 400 == 0)
  }

  /** Days from 1 January of year 0 to 1 January of the given year. */
  function DaysBeforeYear(year: int): int {
    365 * year + (year + 3) / 4 - (year + 99) / 100 + (year + 399) / 400
  }

  lemma YearLength(year: int)
    ensures DaysBeforeYear(year + 1) - DaysBeforeYear(year) == if Leap(year) then 366 else 365
  {
    FloorStep4(year / 4, year % 4);
    FloorStep100(year / 100, year % 100);
    FloorStep400(year / 400, year % 400);
    FourDivides100(year / 100);
    HundredDivides400(year / 400);
  }

  lemma FloorStep4(q: int, r: int)
    requires 0 <= r < 4
    ensures (4 * q + r + 4) / 4 - (4 * q + r + 3) / 4 == if r == 0 then 1 else 0
  {
  }

  lemma FloorStep100(q: int, r: int)
    requires 0 <= r < 100
    ensures (100 * q + r + 100) / 100 - (100 * q + r + 99) / 100 == if r == 0 then 1 else 0
  {
  }

  lemma FloorStep400(q: int, r: int)
    requires 0 <= r < 400
    ensures (400 * q + r + 400) / 400 - (400 * q + r + 399) / 400 == if r == 0 then 1 else 0
  {
  }

  lemma FourDivides100(q: int)
    ensures (100 * q) % 4 == 0
  {
    assert 100 * q == 4 * (25 * q);
  }

  lemma HundredDivides400(q: int)
    ensures (400 * q) % 100 == 0
  {
    assert 400 * q == 100 * (4 * q);
  }

  /** Days from 1 January to the first day of the month with the given zero-based number. */
  function DaysBeforeMonth(month: nat, leap: bool): nat
    requires month < 12
  {
    var extra := if leap then 1 else 0;
    if month == 0 then 0
    else if month == 1 then 31
    else if month == 2 then 59 + extra
    else if month == 3 then 90 + extra
    else if month == 4 then 120 + extra
    else if month == 5 then 151 + extra
    else if month == 6 then 181 + extra
    else if month == 7 then 212 + extra
    else if month == 8 then 243 + extra
    else if month == 9 then 273 + extra
    else if month == 10 then 304 + extra
    else 334 + extra
  }

  /** The first day of a month, in days since the epoch. */
  function FirstDay(m: int): int {
    DaysBeforeYear(m / 12) + DaysBeforeMonth(m % 12, Leap(m / 12)) - 719_528
  }

  lemma MonthLength(m: int)
    ensures 28 <= FirstDay(m + 1) - FirstDay(m) <= 31
  {
    YearLength(m / 12);
    if m % 12 == 11 {
      assert (m + 1) / 12 == m / 12 + 1 && (m + 1) % 12 == 0;
    } else {
      assert (m + 1) / 12 == m / 12 && (m + 1) % 12 == m % 12 + 1;
    }
  }

  /** Fixed dates: the epoch, 1 March 2000, the leap days of 1900 (none), 2000 and 2024, and the
      zero instant, which starts January of year 1. */
  lemma KnownDates()
    ensures FirstDay(23640) == 0 && FirstDay(24002) == 11_017
    ensures FirstDay(22802) - FirstDay(22801) == 28
    ensures FirstDay(24002) - FirstDay(24001) == 29
    ensures FirstDay(24290) - FirstDay(24289) == 29
    ensures FirstDay(12) * 86_400 == -62_135_596_800
  {
    assert DaysBeforeYear(1) == 366 && DaysBeforeYear(1970) == 719_528;
    assert DaysBeforeYear(1900) == 693_961 && !Leap(1900);
    assert DaysBeforeYear(2000) == 730_485 && Leap(2000);
    assert DaysBeforeYear(2024) == 739_251 && Leap(2024);
  }

  lemma {:induction false} FirstDayMonotone(a: int, b: int)
    requires a <= b
    ensures FirstDay(a) + 28 * (b - a) <= FirstDay(b)
    decreases b - a
  {
    hide FirstDay;
    if a < b {
      FirstDayMonotone(a, b - 1);
      MonthLength(b - 1);
    }
  }

  /** The last month, from a given one on, that starts no later than the given day. */
  function MonthFrom(day: int, m: int): (r: int)
    requires FirstDay(m) <= day
    ensures FirstDay(r) <= day < FirstDay(r + 1)
    decreases day - FirstDay(m)
  {
    hide FirstDay;
    MonthLength(m);
    if day < FirstDay(m + 1) then m else MonthFrom(day, m + 1)
  }

  function MonthStart(m: int): Time {
    FirstDay(m) * DAY
  }

  /** The epoch and the zero instant start their months; a day has 86400 seconds. */
  lemma KnownInstants()
    ensures MonthStart(23640) == 0 && MonthStart(12) == ZERO_TIME == -62_135_596_800_000_000_000
    ensures forall m :: MonthStart(m) == FirstDay(m) * 86_400_000_000_000
  {
    hide FirstDay;
    KnownDates();
  }

  /** The month that contains an instant. */
  function MonthOf(t: Time): (m: int)
    ensures MonthStart(m) <= t < MonthStart(m + 1)
  {
    hide FirstDay;
    var day := t / DAY;
    var guess := 23640 + if day < 0 then day else 0;
    KnownDates();
    FirstDayMonotone(guess, 23640);
    MonthFrom(day, guess)
  }

  lemma MonthUnique(t: Time, m: int)
    requires MonthStart(m) <= t < MonthStart(m + 1)
    ensures MonthOf(t) == m
  {
    hide FirstDay;
    var r := MonthOf(t);
    if r < m { FirstDayMonotone(r + 1, m); }
    if m < r { FirstDayMonotone(m + 1, r); }
  }

  lemma MonthMonotone(a: Time, b: Time)
    requires a <= b
    ensures MonthOf(a) <= MonthOf(b)
  {
    hide FirstDay;
    if MonthOf(b) < MonthOf(a) { FirstDayMonotone(MonthOf(b) + 1, MonthOf(a)); }
  }

  /** One nanosecond before a month starts is in the month before, at every year end as well. */
  lemma PreviousMonth(t: Time)
    ensures MonthOf(MonthStart(MonthOf(t)) - NANOSECOND) == MonthOf(t) - 1
  {
    hide FirstDay;
    var m := MonthOf(t);
    MonthLength(m - 1);
    MonthUnique(MonthStart(m) - NANOSECOND, m - 1);
  }

  /** `Format("2006-01")`: the four-digit year (more digits or a sign when needed) and the month. */
  function Period(m: int): string {
    var year := m / 12;
    (if year < 0 then "-" + Decimal.Pad(-year, 4) else Decimal.Pad(year, 4)) + "-" + Decimal.Pad(m % 12 + 1, 2)
  }

  lemma PadTwo(n: nat)
    requires n < 100
    ensures |Decimal.Pad(n, 2)| == 2
  {
    if n >= 10 { assert |Decimal.Print(n / 10)| == 1; }
  }

  lemma PadFour(n: nat)
    requires n < 10_000
    ensures |Decimal.Pad(n, 4)| == 4
  {
    if n >= 10 { assert |Decimal.Print(n)| == 1 + |Decimal.Print(n / 10)|; }
    if n >= 100 { assert |Decimal.Print(n / 10)| == 1 + |Decimal.Print(n / 10 / 10)|; }
    if n >= 1000 { assert |Decimal.Print(n / 10 / 10)| == 1 + |Decimal.Print(n / 10 / 10 / 10)|; }
  }

  /** A period reads as its four-digit year, a dash, and its two-digit month, from 01 to 12. */
  lemma PeriodReads(m: int)
    requires 0 <= m < 120_000
    ensures |Period(m)| == 7 && Period(m)[4] == '-'
    ensures Decimal.AllDigits(Period(m)[..4]) && Decimal.Parse(Period(m)[..4]) == m / 12
    ensures Decimal.AllDigits(Period(m)[5..]) && Decimal.Parse(Period(m)[5..]) == m % 12 + 1
  {
    hide Decimal.Pad, Decimal.Parse;
    var year, month := Decimal.Pad(m / 12, 4), Decimal.Pad(m % 12 + 1, 2);
    PadFour(m / 12);
    PadTwo(m % 12 + 1);
    Decimal.ParsePad(m / 12, 4);
    Decimal.ParsePad(m % 12 + 1, 2);
    assert Period(m)[..4] == year && Period(m)[5..] == month;
  }

  lemma PadInjective(a: nat, b: nat, width: nat)
    requires Decimal.Pad(a, width) == Decimal.Pad(b, width)
    ensures a == b
  {
    Decimal.ParsePad(a, width);
    Decimal.ParsePad(b, width);
  }

  /** Different months have different period strings. */
  lemma PeriodInjective(a: int, b: int)
    requires Period(a) == Period(b)
    ensures a == b
  {
    hide Decimal.Pad;
    PadTwo(a % 12 + 1);
    PadTwo(b % 12 + 1);
    var s := Period(a);
    var n := |s| - 3;
    var ya := if a / 12 < 0 then "-" + Decimal.Pad(-(a / 12), 4) else Decimal.Pad(a / 12, 4);
    var yb := if b / 12 < 0 then "-" + Decimal.Pad(-(b / 12), 4) else Decimal.Pad(b / 12, 4);
    assert s[n + 1..] == Decimal.Pad(a % 12 + 1, 2) && s[n + 1..] == Decimal.Pad(b % 12 + 1, 2);
    PadInjective(a % 12 + 1, b % 12 + 1, 2);
    assert s[..n] == ya && s[..n] == yb;
    SignedPadInjective(a / 12, b / 12);
  }

  lemma PadNonEmpty(n: nat)
    ensures Decimal.Pad(n, 4) != ""
  {
  }

  lemma SignedPadInjective(a: int, b: int)
    requires (if a < 0 then "-" + Decimal.Pad(-a, 4) else Decimal.Pad(a, 4))
          == (if b < 0 then "-" + Decimal.Pad(-b, 4) else Decimal.Pad(b, 4))
    ensures a == b
  {
    hide Decimal.Pad;
    var x := if a < 0 then -a else a;
    var y := if b < 0 then -b else b;
    Decimal.ParsePad(x, 4);
    Decimal.ParsePad(y, 4);
    assert !Decimal.IsDigit('-') && ("-" + Decimal.Pad(x, 4))[0] == '-' && ("-" + Decimal.Pad(y, 4))[0] == '-';
    assert Decimal.Pad(x, 4) == ("-" + Decimal.Pad(x, 4))[1..];
    assert Decimal.Pad(y, 4) == ("-" + Decimal.Pad(y, 4))[1..];
    PadNonEmpty(x);
    PadNonEmpty(y);
    assert a < 0 <==> b < 0;
    PadInjective(x, y, 4);
  }
}
