/** Civil dates as Python's `datetime.date` computes with them: the proleptic
    Gregorian ordinal (`toordinal`), `weekday()`, `isoformat()`, and the wall-clock
    second count on which naive and same-zone `datetime` arithmetic works. */
module Calendar {
  import opened Text

  datatype Date = Date(year: int, month: int, day: int)

  predicate IsLeap(y: int)
  {
    y % 4 == 0 && (y % 100 != 0 || y % 400 == 0)
  }

  function DaysInMonth(y: int, m: int): int
    requires 1 <= m <= 12
  {
    if m == 2 then (if IsLeap(y) then 29 else 28)
    else if m == 4 || m == 6 || m == 9 || m == 11 then 30
    else 31
  }

  /** The dates `datetime.date` can represent. */
  predicate ValidDate(d: Date)
  {
    1 <= d.year <= 9999 && 1 <= d.month <= 12 && 1 <= d.day <= DaysInMonth(d.year, d.month)
  }

  type CivilDate = d: Date | ValidDate(d) witness Date(1, 1, 1)

  function DaysBeforeYear(y: int): int
    requires y >= 1
  {
    var p := y - 1;
    p * 365 + p / 4 - p / 100 + p / 400
  }

  function DaysBeforeMonth(y: int, m: int): int
    requires 1 <= m <= 12
  {
    [0, 31, 59, 90, 120, 151, 181, 212, 243, 273, 304, 334][m - 1]
      + (if m > 2 && IsLeap(y) then 1 else 0)
  }

  /** `d.toordinal()`: 0001-01-01 is day 1. */
  function ToOrdinal(d: CivilDate): int
  {
    DaysBeforeYear(d.year) + DaysBeforeMonth(d.year, d.month) + d.day
  }

  /** `d.weekday()`: Monday is 0, Sunday is 6. */
  function Weekday(d: CivilDate): (w: int)
    ensures 0 <= w < 7
  {
    WeekdayOfOrdinal(ToOrdinal(d))
  }

  /** Ordinal day 1 is a Monday, and the weekdays repeat every seven days. */
  function WeekdayOfOrdinal(o: int): (w: int)
    ensures 0 <= w < 7
  {
    (o + 6) % 7
  }

  /** `e` is the calendar day after `d`, as `d + timedelta(days=1)` gives it. */
  predicate IsDayAfter(d: CivilDate, e: CivilDate)
  {
    if d.day < DaysInMonth(d.year, d.month) then e == Date(d.year, d.month, d.day + 1)
    else if d.month < 12 then e == Date(d.year, d.month + 1, 1)
    else e == Date(d.year + 1, 1, 1)
  }

  /** A year has 365 days, 366 when it is a leap year. */
  lemma YearLength(y: int)
    requires y >= 1
    ensures DaysBeforeYear(y + 1) == DaysBeforeYear(y) + 365 + (if IsLeap(y) then 1 else 0)
  {
    FloorStep4(y);
    FloorStep100(y);
    FloorStep400(y);
  }

  lemma FloorStep4(y: int)
    ensures y / 4 == (y - 1) / 4 + (if y % 4 == 0 then 1 else 0)
  {
  }

  lemma FloorStep100(y: int)
    ensures y / 100 == (y - 1) / 100 + (if y % 100 == 0 then 1 else 0)
  {
  }

  lemma FloorStep400(y: int)
    ensures y / 400 == (y - 1) / 400 + (if y % 400 == 0 then 1 else 0)
  {
  }

  /** Ordinals number consecutive days consecutively. */
  lemma DayAfterOrdinal(d: CivilDate, e: CivilDate)
    requires IsDayAfter(d, e)
    ensures ToOrdinal(e) == ToOrdinal(d) + 1
  {
    if d.day < DaysInMonth(d.year, d.month) {
    } else if d.month < 12 {
    } else {
      YearLength(d.year);
    }
  }

  /** The weekday of the next day is the following one, Sunday wrapping round
      to Monday. */
  lemma DayAfterWeekday(d: CivilDate, e: CivilDate)
    requires IsDayAfter(d, e)
    ensures Weekday(e) == (Weekday(d) + 1) % 7
  {
    DayAfterOrdinal(d, e);
    NextWeekdayOfOrdinal(ToOrdinal(d));
  }

  lemma NextWeekdayOfOrdinal(o: int)
    ensures WeekdayOfOrdinal(o + 1) == (WeekdayOfOrdinal(o) + 1) % 7
  {
  }

  /** 0001-01-01, ordinal day 1, is a Monday; with `DayAfterWeekday` this fixes
      the weekday of every date. */
  lemma FirstDayIsMonday(d: CivilDate)
    requires d == Date(1, 1, 1)
    ensures Weekday(d) == Monday
  {
    FirstDayOrdinal(d);
    OrdinalOneIsMonday(d);
  }

  lemma FirstDayOrdinal(d: CivilDate)
    requires d == Date(1, 1, 1)
    ensures ToOrdinal(d) == 1
  {
  }

  lemma OrdinalOneIsMonday(d: CivilDate)
    requires ToOrdinal(d) == 1
    ensures Weekday(d) == Monday
  {
  }

  const Monday := 0
  const Tuesday := 1
  const Thursday := 3
  const Saturday := 5

  datatype TimeOfDay = TimeOfDay(hour: int, minute: int)

  /** The wall-clock second count of `datetime.combine(d, t)`: differences and
      comparisons of naive datetimes, and of aware ones sharing one `tzinfo`,
      are differences and comparisons of this number. */
  function WallSeconds(d: CivilDate, t: TimeOfDay): int
  {
    ToOrdinal(d) * 86400 + t.hour * 3600 + t.minute * 60
  }

  /** The wall-clock second counts of `datetime.min` (0001-01-01 00:00:00) and of
      the last whole second of `datetime.max` (9999-12-31 23:59:59): datetime
      arithmetic whose result falls outside raises OverflowError. */
  const MinWall := 86400
  const MaxWall := 315537983999

  predicate InDatetimeRange(s: int)
  {
    MinWall <= s <= MaxWall
  }

  /** The upper bound is the last second of 9999-12-31; the lower one is the
      first second of ordinal day 1, 0001-01-01. */
  lemma DatetimeMaxIsLastSecond()
    ensures MaxWall == WallSeconds(Date(9999, 12, 31), TimeOfDay(23, 59)) + 59
  {
    assert DaysBeforeYear(9999) == 3651694;
  }

  /** `timedelta(days=...)` accepts at most 999999999 days either way. */
  const MaxTimedeltaDays := 999999999

  // ---------------------------------------------------------------- isoformat

  /** `"%0*d" % (width, n)`: zero-padded to at least `width` digits. */
  function ZeroPad(n: nat, width: nat): (r: string)
    ensures |r| >= width
    ensures forall i :: 0 <= i < |r| ==> IsDigit(r[i])
  {
    var digits := NatToString(n);
    if |digits| >= width then digits
    else Zeros(width - |digits|) + digits
  }

  function Zeros(k: nat): (r: string)
    ensures |r| == k && forall i :: 0 <= i < k ==> r[i] == '0'
  {
    if k == 0 then "" else "0" + Zeros(k - 1)
  }

  /** `d.isoformat()`: "YYYY-MM-DD". */
  function IsoFormat(d: CivilDate): string
  {
    ZeroPad(d.year, 4) + "-" + ZeroPad(d.month, 2) + "-" + ZeroPad(d.day, 2)
  }

  lemma {:induction false} NatToStringLength(n: nat, width: nat)
    requires n < Power10(width) && width >= 1
    ensures |NatToString(n)| <= width
  {
    if n >= 10 {
      NatToStringLength(n / 10, width - 1);
    }
  }

  function Power10(k: nat): nat
  {
    if k == 0 then 1 else 10 * Power10(k - 1)
  }

  /** Leading zeros do not change the value of a digit string. */
  lemma {:induction false} LeadingZero(s: string)
    requires forall i :: 0 <= i < |s| ==> IsDigit(s[i])
    ensures DigitsValue("0" + s) == DigitsValue(s)
  {
    if s != [] {
      var t := "0" + s;
      assert t[..|t| - 1] == "0" + s[..|s| - 1];
      LeadingZero(s[..|s| - 1]);
    }
  }

  lemma {:induction false} LeadingZeros(k: nat, s: string)
    requires forall i :: 0 <= i < |s| ==> IsDigit(s[i])
    ensures DigitsValue(Zeros(k) + s) == DigitsValue(s)
  {
    if k > 0 {
      var z := Zeros(k - 1) + s;
      assert forall i :: 0 <= i < |z| ==> IsDigit(z[i]);
      assert Zeros(k) + s == "0" + z;
      LeadingZero(z);
      LeadingZeros(k - 1, s);
      assert DigitsValue(Zeros(k) + s) == DigitsValue("0" + z);
    } else {
      assert Zeros(k) + s == s;
    }
  }

  /** The zero-padded field still denotes the number. */
  lemma ZeroPadValue(n: nat, width: nat)
    ensures DigitsValue(ZeroPad(n, width)) == n
  {
    var digits := NatToString(n);
    var padded := ZeroPad(n, width);
    NatToStringValue(n);
    if |digits| < width {
      assert padded == Zeros(width - |digits|) + digits;
      LeadingZeros(width - |digits|, digits);
    }
  }

  lemma ZeroPadWidth(n: nat, width: nat)
    requires n < Power10(width) && width >= 1
    ensures |ZeroPad(n, width)| == width
  {
    NatToStringLength(n, width);
  }

  /** `isoformat()` is ten characters long for every representable date. */
  lemma IsoFormatLength(d: CivilDate)
    ensures |IsoFormat(d)| == 10
  {
    assert Power10(4) == 10000 && Power10(2) == 100;
    ZeroPadWidth(d.year, 4);
    ZeroPadWidth(d.month, 2);
    ZeroPadWidth(d.day, 2);
  }

  /** The three fields sit at fixed positions of `isoformat()`. */
  lemma IsoFormatFields(d: CivilDate)
    ensures var s := IsoFormat(d);
      && |s| == 10
      && s[..4] == ZeroPad(d.year, 4)
      && s[5..7] == ZeroPad(d.month, 2)
      && s[8..] == ZeroPad(d.day, 2)
  {
    assert Power10(4) == 10000 && Power10(2) == 100;
    ZeroPadWidth(d.year, 4);
    ZeroPadWidth(d.month, 2);
    ZeroPadWidth(d.day, 2);
    var y, m, dd := ZeroPad(d.year, 4), ZeroPad(d.month, 2), ZeroPad(d.day, 2);
    var s := IsoFormat(d);
    assert s == y + "-" + m + "-" + dd;
    assert s[..4] == y;
    assert s[5..7] == m;
    assert s[8..] == dd;
  }

  /** Different dates have different `isoformat()` strings. */
  lemma IsoFormatInjective(d1: CivilDate, d2: CivilDate)
    requires IsoFormat(d1) == IsoFormat(d2)
    ensures d1 == d2
  {
    IsoFormatFields(d1);
    IsoFormatFields(d2);
    ZeroPadValue(d1.year, 4);   ZeroPadValue(d2.year, 4);
    ZeroPadValue(d1.month, 2);  ZeroPadValue(d2.month, 2);
    ZeroPadValue(d1.day, 2);    ZeroPadValue(d2.day, 2);
  }
}
