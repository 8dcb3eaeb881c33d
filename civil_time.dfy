/** Proleptic Gregorian dates and times of day, as Python's `datetime`
    represents them (years 1 to 9999), with the arithmetic the repair jobs
    use (`datetime + timedelta(weeks=6)`) and the text form they write
    (`strftime("%Y-%m-%d %H:%M:%S")`). */
module CivilTime {
  import opened Wrappers

  /** `datetime.MAXYEAR`; adding past 9999-12-31 raises `OverflowError`. */
  const MaxYear := 9999
  const SecondsPerDay := 86400
  /** `timedelta(weeks=6)` in days. */
  const SixWeeks := 42

  datatype Date = Date(year: int, month: int, day: int)

  /** A civil date plus the second of that day (microseconds are not modelled). */
  datatype DateTime = DateTime(date: Date, secondOfDay: int)

  predicate IsLeap(y: int) {
    y % 4 == 0 && (y % 100 != 0 || y % 400 == 0)
  }

  function DaysInYear(y: int): int {
    if IsLeap(y) then 366 else 365
  }

  function DaysInMonth(y: int, m: int): int
    requires 1 <= m <= 12
  {
    if m == 2 then (if IsLeap(y) then 29 else 28)
    else if m == 4 || m == 6 || m == 9 || m == 11 then 30
    else 31
  }

  /** A day that exists in the calendar (no upper bound on the year). */
  predicate ValidDate(d: Date) {
    1 <= d.year && 1 <= d.month <= 12 && 1 <= d.day <= DaysInMonth(d.year, d.month)
  }

  /** A value Python's `datetime` can hold. */
  predicate ValidDateTime(t: DateTime) {
    ValidDate(t.date) && t.date.year <= MaxYear && 0 <= t.secondOfDay < SecondsPerDay
  }

  type Instant = t: DateTime | ValidDateTime(t) witness DateTime(Date(1, 1, 1), 0)

  /** Days of year `y` that lie before the first of month `m`. */
  function DaysBeforeMonth(y: int, m: int): int
    requires 1 <= m <= 12
  {
    var common :=
      if m == 1 then 0 else if m == 2 then 31 else if m == 3 then 59
      else if m == 4 then 90 else if m == 5 then 120 else if m == 6 then 151
      else if m == 7 then 181 else if m == 8 then 212 else if m == 9 then 243
      else if m == 10 then 273 else if m == 11 then 304 else 334;
    if m > 2 && IsLeap(y) then common + 1 else common
  }

  /** Days from 0001-01-01 to the first of January of year `y`, in the
      closed form Python's `_days_before_year` uses. */
  function DaysBeforeYear(y: int): int
    requires 1 <= y
  {
    var p := y - 1;
    365 * p + p / 4 - p / 100 + p / 400
  }

  /** Day number with 0001-01-01 as day 1 (`date.toordinal`). */
  function Ordinal(d: Date): int
    requires ValidDate(d)
  {
    DaysBeforeYear(d.year) + DaysBeforeMonth(d.year, d.month) + d.day
  }

  /** The closed form counts every year with its own length: consecutive
      years start `DaysInYear` days apart. */
  lemma DaysBeforeNextYear(y: int)
    requires 1 <= y
    ensures DaysBeforeYear(y + 1) == DaysBeforeYear(y) + DaysInYear(y)
  {
    var p := y - 1;
    QuotientSteps(p);
    var step := (y / 4 - p / 4) - (y / 100 - p / 100) + (y / 400 - p / 400);
    assert DaysBeforeYear(y + 1) == DaysBeforeYear(y) + 365 + step;
    DivisorsOfLeap(y);
  }

  /** A multiple of 400 is a multiple of 100, and a multiple of 100 one of 4. */
  lemma DivisorsOfLeap(y: int)
    ensures y % 400 == 0 ==> y % 100 == 0
    ensures y % 100 == 0 ==> y % 4 == 0
  {
    if y % 400 == 0 {
      HundredsOfFourHundreds(y / 400);
    }
    if y % 100 == 0 {
      FoursOfHundreds(y / 100);
    }
  }

  lemma HundredsOfFourHundreds(q: int)
    ensures (400 * q) % 100 == 0
  {
    var k := 4 * q;
    assert 400 * q == 100 * k;
  }

  lemma FoursOfHundreds(q: int)
    ensures (100 * q) % 4 == 0
  {
    var k := 25 * q;
    assert 100 * q == 4 * k;
  }

  /** Moving one up from `p` adds one to each quotient exactly when it
      lands on a multiple of the divisor. */
  lemma QuotientSteps(p: nat)
    ensures (p + 1) / 4 == p / 4 + (if (p + 1) % 4 == 0 then 1 else 0)
    ensures (p + 1) / 100 == p / 100 + (if (p + 1) % 100 == 0 then 1 else 0)
    ensures (p + 1) / 400 == p / 400 + (if (p + 1) % 400 == 0 then 1 else 0)
  {
  }

  /** The last day Python can represent is day 3652059 (`date.max.toordinal()`). */
  lemma MaxOrdinalValue()
    ensures Ordinal(Date(MaxYear, 12, 31)) == 3652059
  {
  }

  /** The day after `d`. */
  function NextDay(d: Date): (r: Date)
    requires ValidDate(d)
    ensures ValidDate(r) && Ordinal(r) == Ordinal(d) + 1
  {
    if d.day < DaysInMonth(d.year, d.month) then Date(d.year, d.month, d.day + 1)
    else if d.month < 12 then Date(d.year, d.month + 1, 1)
    else DaysBeforeNextYear(d.year); Date(d.year + 1, 1, 1)
  }

  /** `d` moved `n` days forward, jumping a month at a time. */
  function AddDays(d: Date, n: nat): (r: Date)
    requires ValidDate(d)
    ensures ValidDate(r) && Ordinal(r) == Ordinal(d) + n
    decreases n
  {
    var last := DaysInMonth(d.year, d.month);
    if d.day + n <= last then Date(d.year, d.month, d.day + n)
    else AddDays(NextDay(Date(d.year, d.month, last)), n - (last - d.day + 1))
  }

  /** Ordinals of a year's days lie strictly between the first days of
      consecutive years. */
  lemma OrdinalWithinYear(d: Date)
    requires ValidDate(d)
    ensures DaysBeforeYear(d.year) < Ordinal(d) <= DaysBeforeYear(d.year) + DaysInYear(d.year)
  {
  }

  lemma {:induction false} DaysBeforeYearGrows(a: int, b: int)
    requires 1 <= a < b
    ensures DaysBeforeYear(a) + DaysInYear(a) <= DaysBeforeYear(b)
    decreases b - a
  {
    DaysBeforeNextYear(a);
    if a + 1 < b {
      DaysBeforeYearGrows(a + 1, b);
    }
  }

  lemma DaysBeforeMonthGrows(y: int, a: int, b: int)
    requires 1 <= a < b <= 12
    ensures DaysBeforeMonth(y, a) + DaysInMonth(y, a) <= DaysBeforeMonth(y, b)
  {
  }

  /** Distinct days have distinct ordinals, so `Ordinal` pins a date down. */
  lemma OrdinalInjective(a: Date, b: Date)
    requires ValidDate(a) && ValidDate(b) && Ordinal(a) == Ordinal(b)
    ensures a == b
  {
    OrdinalWithinYear(a);
    OrdinalWithinYear(b);
    if a.year < b.year {
      DaysBeforeYearGrows(a.year, b.year);
    } else if b.year < a.year {
      DaysBeforeYearGrows(b.year, a.year);
    } else if a.month < b.month {
      DaysBeforeMonthGrows(a.year, a.month, b.month);
    } else if b.month < a.month {
      DaysBeforeMonthGrows(a.year, b.month, a.month);
    }
  }

  /** A valid date is representable exactly when its ordinal is at most that
      of 9999-12-31. */
  lemma InRangeByOrdinal(d: Date)
    requires ValidDate(d)
    ensures d.year <= MaxYear <==> Ordinal(d) <= Ordinal(Date(MaxYear, 12, 31))
  {
    OrdinalWithinYear(d);
    var m := Date(MaxYear, 12, 31);
    assert Ordinal(m) == DaysBeforeYear(MaxYear) + DaysInYear(MaxYear);
    if d.year < MaxYear {
      DaysBeforeYearGrows(d.year, MaxYear);
    } else if d.year > MaxYear {
      DaysBeforeYearGrows(MaxYear, d.year);
    }
  }

  /** `t + timedelta(days=n)`: `None` stands for the `OverflowError` Python
      raises when the result is past 9999-12-31. */
  function AddTimedelta(t: Instant, n: nat): (r: Option<Instant>)
    ensures r.Some? <==> Ordinal(t.date) + n <= Ordinal(Date(MaxYear, 12, 31))
    ensures r.Some? ==> Ordinal(r.value.date) == Ordinal(t.date) + n
    ensures r.Some? ==> r.value.secondOfDay == t.secondOfDay
  {
    var d := AddDays(t.date, n);
    InRangeByOrdinal(d);
    if d.year <= MaxYear then Some(DateTime(d, t.secondOfDay)) else None
  }

  /** The result of adding six weeks is determined by the ordinal: it is the
      one representable instant 42 days later at the same time of day. */
  lemma SixWeeksLaterUnique(t: Instant, u: Instant)
    requires AddTimedelta(t, SixWeeks).Some?
    requires Ordinal(u.date) == Ordinal(t.date) + SixWeeks && u.secondOfDay == t.secondOfDay
    ensures AddTimedelta(t, SixWeeks) == Some(u)
  {
    OrdinalInjective(AddTimedelta(t, SixWeeks).value.date, u.date);
  }

  // ----- text form -----

  function Digit(n: int): char
    requires 0 <= n <= 9
  {
    ('0' as int + n) as char
  }

  predicate IsDigit(c: char) {
    '0' <= c <= '9'
  }

  function DigitValue(c: char): int {
    c as int - '0' as int
  }

  function Pad2(n: int): string
    requires 0 <= n < 100
  {
    [Digit(n / 10), Digit(n % 10)]
  }

  function Pad4(n: int): string
    requires 0 <= n < 10000
  {
    Pad2(n / 100) + Pad2(n % 100)
  }

  function Hour(t: Instant): int { t.secondOfDay / 3600 }
  function Minute(t: Instant): int { t.secondOfDay % 3600 / 60 }
  function Second(t: Instant): int { t.secondOfDay % 60 }

  /** `t.strftime("%Y-%m-%d %H:%M:%S")`, which is also `str(t)` when the
      microseconds are zero. */
  function Format(t: Instant): (s: string)
    ensures |s| == 19
    ensures s[4] == '-' && s[7] == '-' && s[10] == ' ' && s[13] == ':' && s[16] == ':'
  {
    Pad4(t.date.year) + "-" + Pad2(t.date.month) + "-" + Pad2(t.date.day) + " "
      + Pad2(Hour(t)) + ":" + Pad2(Minute(t)) + ":" + Pad2(Second(t))
  }

  predicate DigitsAt(s: string, i: int, n: int)
    requires 0 <= i && i + n <= |s|
  {
    forall j :: i <= j < i + n ==> IsDigit(s[j])
  }

  function Read2(s: string, i: int): int
    requires 0 <= i && i + 2 <= |s|
  {
    DigitValue(s[i]) * 10 + DigitValue(s[i + 1])
  }

  function Read4(s: string, i: int): int
    requires 0 <= i && i + 4 <= |s|
  {
    Read2(s, i) * 100 + Read2(s, i + 2)
  }

  /** Reads back a `YYYY-MM-DD HH:MM:SS` text; `None` for anything else. */
  function Parse(s: string): Option<Instant> {
    if |s| != 19 || s[4] != '-' || s[7] != '-' || s[10] != ' ' || s[13] != ':' || s[16] != ':' then None
    else if !(DigitsAt(s, 0, 4) && DigitsAt(s, 5, 2) && DigitsAt(s, 8, 2)
              && DigitsAt(s, 11, 2) && DigitsAt(s, 14, 2) && DigitsAt(s, 17, 2)) then None
    else
      var h, mi, se := Read2(s, 11), Read2(s, 14), Read2(s, 17);
      var t := DateTime(Date(Read4(s, 0), Read2(s, 5), Read2(s, 8)), h * 3600 + mi * 60 + se);
      if h < 24 && mi < 60 && se < 60 && ValidDateTime(t) then Some(t) else None
  }

  lemma Pad2Reads(s: string, i: int, n: int)
    requires 0 <= n < 100 && 0 <= i && i + 2 <= |s| && s[i..i + 2] == Pad2(n)
    ensures DigitsAt(s, i, 2) && Read2(s, i) == n
  {
    assert s[i] == Pad2(n)[0] && s[i + 1] == Pad2(n)[1];
  }

  lemma Pad4Reads(s: string, i: int, n: int)
    requires 0 <= n < 10000 && 0 <= i && i + 4 <= |s| && s[i..i + 4] == Pad4(n)
    ensures DigitsAt(s, i, 4) && Read4(s, i) == n
  {
    assert s[i..i + 2] == s[i..i + 4][..2] == Pad2(n / 100);
    assert s[i + 2..i + 4] == s[i..i + 4][2..] == Pad2(n % 100);
    Pad2Reads(s, i, n / 100);
    Pad2Reads(s, i + 2, n % 100);
  }

  /** Each field of the written text reads back as its number. */
  lemma FormatReads(t: Instant)
    ensures var s := Format(t);
            && DigitsAt(s, 0, 4) && Read4(s, 0) == t.date.year
            && DigitsAt(s, 5, 2) && Read2(s, 5) == t.date.month
            && DigitsAt(s, 8, 2) && Read2(s, 8) == t.date.day
            && DigitsAt(s, 11, 2) && Read2(s, 11) == Hour(t)
            && DigitsAt(s, 14, 2) && Read2(s, 14) == Minute(t)
            && DigitsAt(s, 17, 2) && Read2(s, 17) == Second(t)
  {
    var s := Format(t);
    assert s[0..4] == Pad4(t.date.year);
    Pad4Reads(s, 0, t.date.year);
    assert s[5..7] == Pad2(t.date.month);
    Pad2Reads(s, 5, t.date.month);
    assert s[8..10] == Pad2(t.date.day);
    Pad2Reads(s, 8, t.date.day);
    assert s[11..13] == Pad2(Hour(t));
    Pad2Reads(s, 11, Hour(t));
    assert s[14..16] == Pad2(Minute(t));
    Pad2Reads(s, 14, Minute(t));
    assert s[17..19] == Pad2(Second(t));
    Pad2Reads(s, 17, Second(t));
  }

  /** Hours, minutes and seconds put back together give the second of the day. */
  lemma ClockParts(t: Instant)
    ensures Hour(t) < 24 && Minute(t) < 60 && Second(t) < 60
    ensures Hour(t) * 3600 + Minute(t) * 60 + Second(t) == t.secondOfDay
  {
  }

  /** `Format` loses nothing: the written text reads back as the same instant. */
  lemma ParseFormat(t: Instant)
    ensures Parse(Format(t)) == Some(t)
  {
    FormatReads(t);
    ClockParts(t);
  }

  /** Two instants with the same text are the same instant. */
  lemma FormatInjective(a: Instant, b: Instant)
    requires Format(a) == Format(b)
    ensures a == b
  {
    ParseFormat(a);
    ParseFormat(b);
  }

  /** The worked example: 2021-01-01 00:00:00 plus six weeks is written
      "2021-02-12 00:00:00". */
  lemma SixWeeksAfterNewYear2021()
    ensures AddTimedelta(DateTime(Date(2021, 1, 1), 0), SixWeeks) == Some(DateTime(Date(2021, 2, 12), 0))
    ensures Format(DateTime(Date(2021, 2, 12), 0)) == "2021-02-12 00:00:00"
  {
    assert NextDay(Date(2021, 1, 31)) == Date(2021, 2, 1);
    assert AddDays(Date(2021, 2, 1), 11) == Date(2021, 2, 12);
  }

  /** Also: 2020-09-01 00:00:00 plus six weeks is 2020-10-13 00:00:00. */
  lemma SixWeeksAfterSeptember2020()
    ensures AddTimedelta(DateTime(Date(2020, 9, 1), 0), SixWeeks) == Some(DateTime(Date(2020, 10, 13), 0))
    ensures Format(DateTime(Date(2020, 10, 13), 0)) == "2020-10-13 00:00:00"
  {
    assert NextDay(Date(2020, 9, 30)) == Date(2020, 10, 1);
    assert AddDays(Date(2020, 10, 1), 12) == Date(2020, 10, 13);
  }

  /** The last weeks of 9999 cannot be shifted: Python raises `OverflowError`. */
  lemma SixWeeksOverflowsAtEnd()
    ensures AddTimedelta(DateTime(Date(MaxYear, 12, 1), 0), SixWeeks).None?
  {
    var t := DateTime(Date(MaxYear, 12, 1), 0);
    assert Ordinal(t.date) + SixWeeks > Ordinal(Date(MaxYear, 12, 31));
  }
}
