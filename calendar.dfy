/**
 * The proleptic Gregorian calendar of JavaScript `Date` (sections 21.4.1.3 to 21.4.1.28
 * of ECMA-262), in UTC: `getMonth`/`getFullYear` and `setMonth`/`setFullYear`.
 */
module Calendar {
  import opened Time

  const MsPerDay: int := 86_400_000

  /** `Day(t)`: whole days since the epoch (floor division). */
  function Day(t: int): int
  {
    t / MsPerDay
  }

  /** `TimeWithinDay(t)`. */
  function TimeWithinDay(t: int): (r: int)
    ensures 0 <= r < MsPerDay && t == Day(t) * MsPerDay + r
  {
    t % MsPerDay
  }

  predicate IsLeapYear(y: int)
  {
    (y % 4 == 0 && y % 100 != 0) || y % 400 == 0
  }

  function DaysInYear(y: int): int
  {
    if IsLeapYear(y) then 366 else 365
  }

  /** The day number of the first day of year `y`, counted year by year from 1970. */
  function DayFromYear(y: int): int
    decreases if y < 1970 then 1970 - y else y - 1970
  {
    if y == 1970 then 0
    else if y > 1970 then DayFromYear(y - 1) + DaysInYear(y - 1)
    else DayFromYear(y + 1) - DaysInYear(y)
  }

  /** Consecutive years start `DaysInYear` apart. */
  lemma NextYear(y: int)
    ensures DayFromYear(y + 1) == DayFromYear(y) + DaysInYear(y)
  {
  }

  /** The closed form of `DayFromYear` given in section 21.4.1.3 of ECMA-262. */
  function DayFromYearFormula(y: int): int
  {
    365 * (y - 1970) + (y - 1969) / 4 - (y - 1901) / 100 + (y - 1601) / 400
  }

  lemma DivStep4(a: int)
    ensures (a + 1) / 4 - a / 4 == if (a + 1) % 4 == 0 then 1 else 0
  {
  }

  lemma DivStep100(a: int)
    ensures (a + 1) / 100 - a / 100 == if (a + 1) % 100 == 0 then 1 else 0
  {
  }

  lemma DivStep400(a: int)
    ensures (a + 1) / 400 - a / 400 == if (a + 1) % 400 == 0 then 1 else 0
  {
  }

  lemma ShiftModulus(y: int)
    ensures (y - 1968) % 4 == y % 4 && (y - 1900) % 100 == y % 100 && (y - 1600) % 400 == y % 400
  {
    ShiftModulus4(y);
    ShiftModulus100(y);
    ShiftModulus400(y);
  }

  lemma ShiftModulus4(y: int)
    ensures (y - 1968) % 4 == y % 4
  {
    assert y - 1968 == (y / 4 - 492) * 4 + y % 4;
  }

  lemma ShiftModulus100(y: int)
    ensures (y - 1900) % 100 == y % 100
  {
    assert y - 1900 == (y / 100 - 19) * 100 + y % 100;
  }

  lemma ShiftModulus400(y: int)
    ensures (y - 1600) % 400 == y % 400
  {
    assert y - 1600 == (y / 400 - 4) * 400 + y % 400;
  }

  lemma DivisibleImplies(y: int)
    ensures y % 400 == 0 ==> y % 100 == 0
    ensures y % 100 == 0 ==> y % 4 == 0
  {
    if y % 400 == 0 {
      var k := y / 400;
      assert y == 100 * (4 * k);
    }
    if y % 100 == 0 {
      var k := y / 100;
      assert y == 4 * (25 * k);
    }
  }

  lemma FormulaShift(y: int)
    ensures DayFromYearFormula(y + 1) == DayFromYearFormula(y) + 365 + ((y - 1968) / 4 - (y - 1969) / 4)
            - ((y - 1900) / 100 - (y - 1901) / 100) + ((y - 1600) / 400 - (y - 1601) / 400)
  {
  }

  lemma FormulaNextYear(y: int)
    ensures DayFromYearFormula(y + 1) == DayFromYearFormula(y) + DaysInYear(y)
  {
    FormulaShift(y);
    DivStep4(y - 1969);
    DivStep100(y - 1901);
    DivStep400(y - 1601);
    ShiftModulus(y);
    DivisibleImplies(y);
  }

  /** Counting year by year agrees with the closed form of ECMA-262. */
  lemma {:induction false} DayFromYearMatchesFormula(y: int)
    ensures DayFromYear(y) == DayFromYearFormula(y)
    decreases if y < 1970 then 1970 - y else y - 1970
  {
    if y > 1970 {
      DayFromYearMatchesFormula(y - 1);
      FormulaNextYear(y - 1);
    } else if y < 1970 {
      DayFromYearMatchesFormula(y + 1);
      FormulaNextYear(y);
    }
  }

  lemma {:induction false} DayFromYearMonotonic(a: int, b: int)
    requires a <= b
    ensures DayFromYear(a) <= DayFromYear(b)
    decreases b - a
  {
    if a < b {
      NextYear(a);
      DayFromYearMonotonic(a + 1, b);
    }
  }

  /** Exactly one year contains a given day. */
  lemma YearUnique(a: int, b: int, day: int)
    requires DayFromYear(a) <= day < DayFromYear(a + 1)
    requires DayFromYear(b) <= day < DayFromYear(b + 1)
    ensures a == b
  {
    if a < b {
      DayFromYearMonotonic(a + 1, b);
    } else if b < a {
      DayFromYearMonotonic(b + 1, a);
    }
  }

  function YearUp(y: int, day: int): (r: int)
    requires DayFromYear(y) <= day
    ensures DayFromYear(r) <= day < DayFromYear(r + 1)
    decreases day - DayFromYear(y)
  {
    NextYear(y);
    if day < DayFromYear(y + 1) then y else YearUp(y + 1, day)
  }

  function YearDown(y: int, day: int): (r: int)
    requires day < DayFromYear(y + 1)
    ensures DayFromYear(r) <= day < DayFromYear(r + 1)
    decreases DayFromYear(y + 1) - day
  {
    NextYear(y);
    if DayFromYear(y) <= day then y else YearDown(y - 1, day)
  }

  /** `YearFromTime`, on day numbers: the year in which `day` falls. */
  function YearFromDay(day: int): (y: int)
    ensures DayFromYear(y) <= day < DayFromYear(y + 1)
  {
    if DayFromYear(1970) <= day then YearUp(1970, day) else YearDown(1969, day)
  }

  /** The number of days of year before month `m` (0-based), for a leap year or not. */
  function CumDays(m: int, leap: bool): (n: int)
    requires 0 <= m <= 12
    ensures 0 <= n
  {
    var table := [0, 31, 59, 90, 120, 151, 181, 212, 243, 273, 304, 334, 365];
    table[m] + (if leap && m >= 2 then 1 else 0)
  }

  lemma CumDaysSteps(m: int, leap: bool)
    requires 0 <= m < 12
    ensures 28 <= CumDays(m + 1, leap) - CumDays(m, leap) <= 31
    ensures CumDays(12, leap) == (if leap then 366 else 365)
  {
  }

  /** The number of days in month `m` (0-based) of year `y`. */
  function DaysInMonth(y: int, m: int): (n: int)
    requires 0 <= m < 12
    ensures 28 <= n <= 31
  {
    CumDaysSteps(m, IsLeapYear(y));
    CumDays(m + 1, IsLeapYear(y)) - CumDays(m, IsLeapYear(y))
  }

  function MonthSearch(m: int, dayInYear: int, leap: bool): (r: int)
    requires 0 <= m < 12 && CumDays(m, leap) <= dayInYear < CumDays(12, leap)
    ensures m <= r < 12 && CumDays(r, leap) <= dayInYear < CumDays(r + 1, leap)
    decreases 12 - m
  {
    if dayInYear < CumDays(m + 1, leap) then m else MonthSearch(m + 1, dayInYear, leap)
  }

  /** A calendar date: a year, a month from 0 (January) to 11, and a day of the month from 1. */
  datatype CivilDate = CivilDate(year: int, month: int, date: int)

  predicate IsCalendarDate(c: CivilDate)
  {
    0 <= c.month < 12 && 1 <= c.date <= DaysInMonth(c.year, c.month)
  }

  /**
   * `MakeDay(year, month, date)`: the day number of the given date, where a month outside
   * 0..11 moves into a neighbouring year and a date past the month's end into later months.
   */
  function MakeDay(year: int, month: int, date: int): int
  {
    var ym := year + month / 12;
    var mn := month % 12;
    DayFromYear(ym) + CumDays(mn, IsLeapYear(ym)) + date - 1
  }

  /** `YearFromTime`, `MonthFromTime` and `DateFromTime`, on day numbers. */
  function ToCivil(day: int): (c: CivilDate)
    ensures IsCalendarDate(c)
    ensures DayFromYear(c.year) <= day < DayFromYear(c.year + 1)
    ensures day == DayFromYear(c.year) + CumDays(c.month, IsLeapYear(c.year)) + c.date - 1
    ensures MakeDay(c.year, c.month, c.date) == day
  {
    var y := YearFromDay(day);
    NextYear(y);
    var leap := IsLeapYear(y);
    CumDaysSteps(0, leap);
    var m := MonthSearch(0, day - DayFromYear(y), leap);
    var c := CivilDate(y, m, day - DayFromYear(y) - CumDays(m, leap) + 1);
    assert 1 <= c.date <= DaysInMonth(c.year, c.month);
    assert c.month / 12 == 0 && c.month % 12 == c.month;
    assert MakeDay(c.year, c.month, c.date) == DayFromYear(y) + CumDays(m, leap) + c.date - 1;
    c
  }

  /** A calendar date is read back from its day number unchanged. */
  lemma CivilRoundTrip(c: CivilDate)
    requires IsCalendarDate(c)
    ensures ToCivil(MakeDay(c.year, c.month, c.date)) == c
  {
    var y, m := c.year, c.month;
    var leap := IsLeapYear(y);
    assert m / 12 == 0 && m % 12 == m;
    var day := MakeDay(y, m, c.date);
    assert day == DayFromYear(y) + CumDays(m, leap) + c.date - 1;
    NextYear(y);
    CumDaysSteps(m, leap);
    MonthMonotonic(m + 1, 12, leap);
    assert DayFromYear(y) <= day < DayFromYear(y + 1);
    var d := ToCivil(day);
    YearUnique(d.year, y, day);
    assert CumDays(d.month, leap) <= day - DayFromYear(y) < CumDays(d.month + 1, leap);
    MonthUnique(d.month, m, day - DayFromYear(y), leap);
  }

  lemma MonthMonotonic(a: int, b: int, leap: bool)
    requires 0 <= a <= b <= 12
    ensures CumDays(a, leap) <= CumDays(b, leap)
  {
  }

  lemma MonthUnique(a: int, b: int, dayInYear: int, leap: bool)
    requires 0 <= a < 12 && 0 <= b < 12
    requires CumDays(a, leap) <= dayInYear < CumDays(a + 1, leap)
    requires CumDays(b, leap) <= dayInYear < CumDays(b + 1, leap)
    ensures a == b
  {
    if a < b {
      MonthMonotonic(a + 1, b, leap);
    } else if b < a {
      MonthMonotonic(b + 1, a, leap);
    }
  }

  /** `getMonth()`, 0-based, in UTC. */
  function MonthOf(t: int): (m: int)
    ensures 0 <= m < 12
  {
    ToCivil(Day(t)).month
  }

  /** `getFullYear()`, in UTC. */
  function YearOf(t: int): int
  {
    ToCivil(Day(t)).year
  }

  /** `setMonth(month)` on a valid date: same year, date and time of day; the result is TimeClipped. */
  function SetMonth(t: TimeValue, month: int): Instant
  {
    var c := ToCivil(Day(t));
    MakeDate(MakeDay(c.year, month, c.date) * MsPerDay + TimeWithinDay(t))
  }

  /** `setFullYear(year)` on a valid date: same month, date and time of day. */
  function SetFullYear(t: TimeValue, year: int): Instant
  {
    var c := ToCivil(Day(t));
    MakeDate(MakeDay(year, c.month, c.date) * MsPerDay + TimeWithinDay(t))
  }

  /** `d.setMonth(d.getMonth() + 1)`: one calendar month later, or `Invalid Date` past the range. */
  function AddOneMonth(t: TimeValue): (d: Instant)
    ensures d.At? ==> d.ms - t == DaysInMonth(YearOf(t), MonthOf(t)) * MsPerDay
    ensures d.At? <==> t + DaysInMonth(YearOf(t), MonthOf(t)) * MsPerDay <= MaxTime
  {
    var c := ToCivil(Day(t));
    MonthLater(t);
    SetMonth(t, c.month + 1)
  }

  /** The time value `setMonth(getMonth() + 1)` computes lies the length of the month later. */
  lemma MonthLater(t: TimeValue)
    ensures var c := ToCivil(Day(t));
            MakeDay(c.year, c.month + 1, c.date) * MsPerDay + TimeWithinDay(t) - t
            == DaysInMonth(YearOf(t), MonthOf(t)) * MsPerDay
  {
    var c := ToCivil(Day(t));
    var y, m := c.year, c.month;
    NextMonthStart(y, m);
    assert m / 12 == 0 && m % 12 == m;
    assert MakeDay(y, m, c.date) == MakeDay(y, m, 1) + c.date - 1;
    if m == 11 {
      assert (m + 1) / 12 == 1 && (m + 1) % 12 == 0;
    } else {
      assert (m + 1) / 12 == 0 && (m + 1) % 12 == m + 1;
    }
    assert MakeDay(y, m + 1, c.date) == MakeDay(y, m + 1, 1) + c.date - 1;
    var next := MakeDay(y, m + 1, c.date);
    assert next == Day(t) + DaysInMonth(y, m);
    assert t == Day(t) * MsPerDay + TimeWithinDay(t);
  }

  /**
   * The number of days from a date to the same date a year on: the length of this year for a
   * date in January or February, of the next year from March on.
   */
  function YearLength(t: int): int
  {
    if MonthOf(t) < 2 then DaysInYear(YearOf(t)) else DaysInYear(YearOf(t) + 1)
  }

  /** `d.setFullYear(d.getFullYear() + 1)`: one calendar year later, or `Invalid Date` past the range. */
  function AddOneYear(t: TimeValue): (d: Instant)
    ensures d.At? ==> d.ms - t == YearLength(t) * MsPerDay
    ensures d.At? ==> 365 * MsPerDay <= d.ms - t <= 366 * MsPerDay
    ensures d.At? <==> t + YearLength(t) * MsPerDay <= MaxTime
  {
    var c := ToCivil(Day(t));
    YearLater(c);
    assert t == Day(t) * MsPerDay + TimeWithinDay(t);
    SetFullYear(t, c.year + 1)
  }

  lemma NotBothLeap(y: int)
    ensures !(IsLeapYear(y) && IsLeapYear(y + 1))
  {
    DivisibleImplies(y);
    DivisibleImplies(y + 1);
  }

  /**
   * The same date a year later lies the length of this year on for January and February, and
   * the length of the next year from March on: 365 or 366 days either way.
   */
  lemma YearLater(c: CivilDate)
    requires IsCalendarDate(c)
    ensures MakeDay(c.year + 1, c.month, c.date) - MakeDay(c.year, c.month, c.date)
            == if c.month < 2 then DaysInYear(c.year) else DaysInYear(c.year + 1)
    ensures 365 <= MakeDay(c.year + 1, c.month, c.date) - MakeDay(c.year, c.month, c.date) <= 366
  {
    assert c.month / 12 == 0 && c.month % 12 == c.month;
    NextYear(c.year);
  }

  /** The date `setFullYear(getFullYear() + 1)` aims at exists, apart from 29 February. */
  lemma NextYearDay(c: CivilDate)
    requires IsCalendarDate(c) && !(c.month == 1 && c.date == 29)
    ensures IsCalendarDate(CivilDate(c.year + 1, c.month, c.date))
  {
    assert c.month != 1 ==> DaysInMonth(c.year + 1, c.month) == DaysInMonth(c.year, c.month);
  }

  /** 29 February of a leap year, moved to the next year, is 1 March. */
  lemma LeapDayNextYear(y: int)
    requires IsLeapYear(y)
    ensures MakeDay(y + 1, 1, 29) == MakeDay(y + 1, 2, 1)
  {
    NotBothLeap(y);
  }

  /** A time value built from a calendar date and a time of day is read back as that date. */
  lemma ReadBack(e: int, n: CivilDate, r: int)
    requires IsCalendarDate(n) && 0 <= r < MsPerDay
    requires e == MakeDay(n.year, n.month, n.date) * MsPerDay + r
    ensures ToCivil(Day(e)) == n && TimeWithinDay(e) == r
  {
    var x := MakeDay(n.year, n.month, n.date);
    SplitDay(x, r);
    assert Day(e) == x;
    CivilRoundTrip(n);
  }

  /** The time value `AddOneYear` computes: the same date in the next year, at the same time of day. */
  lemma AddOneYearValue(t: TimeValue)
    requires AddOneYear(t).At?
    ensures var c := ToCivil(Day(t));
            AddOneYear(t).ms == MakeDay(c.year + 1, c.month, c.date) * MsPerDay + TimeWithinDay(t)
  {
  }

  /** Only a leap year's February has a 29th. */
  lemma FebruaryLength(y: int)
    ensures DaysInMonth(y, 1) == if IsLeapYear(y) then 29 else 28
  {
  }

  /** Apart from 29 February, one year later is the same month, date and time in the next year. */
  lemma AddOneYearKeepsDate(t: TimeValue)
    requires var c := ToCivil(Day(t)); !(c.month == 1 && c.date == 29)
    requires AddOneYear(t).At?
    ensures var c := ToCivil(Day(t));
            ToCivil(Day(AddOneYear(t).ms)) == CivilDate(c.year + 1, c.month, c.date)
    ensures TimeWithinDay(AddOneYear(t).ms) == TimeWithinDay(t)
  {
    var c := ToCivil(Day(t));
    NextYearDay(c);
    AddOneYearValue(t);
    ReadBack(AddOneYear(t).ms, CivilDate(c.year + 1, c.month, c.date), TimeWithinDay(t));
  }

  /** 29 February moves to 1 March of the next year, which is never a leap year. */
  lemma AddOneYearFromLeapDay(t: TimeValue)
    requires var c := ToCivil(Day(t)); c.month == 1 && c.date == 29
    requires AddOneYear(t).At?
    ensures ToCivil(Day(AddOneYear(t).ms)) == CivilDate(YearOf(t) + 1, 2, 1)
    ensures TimeWithinDay(AddOneYear(t).ms) == TimeWithinDay(t)
  {
    var c := ToCivil(Day(t));
    FebruaryLength(c.year);
    LeapDayNextYear(c.year);
    AddOneYearValue(t);
    var x := MakeDay(c.year + 1, 1, 29);
    assert x == MakeDay(c.year + 1, 2, 1);
    ReadBack(AddOneYear(t).ms, CivilDate(c.year + 1, 2, 1), TimeWithinDay(t));
  }

  /** The first day of the next month lies `DaysInMonth` after the first day of this one. */
  lemma NextMonthStart(y: int, m: int)
    requires 0 <= m < 12
    ensures MakeDay(y, m + 1, 1) == MakeDay(y, m, 1) + DaysInMonth(y, m)
  {
    assert m / 12 == 0 && m % 12 == m;
    if m == 11 {
      assert (m + 1) / 12 == 1 && (m + 1) % 12 == 0;
      NextYear(y);
    } else {
      assert (m + 1) / 12 == 0 && (m + 1) % 12 == m + 1;
    }
  }

  lemma SplitDay(x: int, r: int)
    requires 0 <= r < MsPerDay
    ensures Day(x * MsPerDay + r) == x && TimeWithinDay(x * MsPerDay + r) == r
  {
  }

  /** The calendar date `setMonth(getMonth() + 1)` aims at. */
  function NextMonthDate(c: CivilDate): CivilDate
  {
    CivilDate(if c.month == 11 then c.year + 1 else c.year, (c.month + 1) % 12, c.date)
  }

  lemma NextMonthDay(c: CivilDate)
    requires IsCalendarDate(c) && c.date <= 28
    ensures IsCalendarDate(NextMonthDate(c))
    ensures MakeDay(c.year, c.month + 1, c.date) == MakeDay(NextMonthDate(c).year, NextMonthDate(c).month, c.date)
  {
    var n := NextMonthDate(c);
    assert n.month / 12 == 0 && n.month % 12 == n.month;
    if c.month == 11 {
      assert (c.month + 1) / 12 == 1 && (c.month + 1) % 12 == 0;
    } else {
      assert (c.month + 1) / 12 == 0 && (c.month + 1) % 12 == c.month + 1;
    }
    assert 28 <= DaysInMonth(n.year, n.month);
  }

  /** For a date up to the 28th, one month later is the same date and time in the next month. */
  lemma AddOneMonthKeepsDate(t: TimeValue)
    requires ToCivil(Day(t)).date <= 28
    requires AddOneMonth(t).At?
    ensures ToCivil(Day(AddOneMonth(t).ms)) == NextMonthDate(ToCivil(Day(t)))
    ensures TimeWithinDay(AddOneMonth(t).ms) == TimeWithinDay(t)
  {
    var c := ToCivil(Day(t));
    var n := NextMonthDate(c);
    NextMonthDay(c);
    var x := MakeDay(n.year, n.month, n.date);
    var e := AddOneMonth(t).ms;
    assert e == x * MsPerDay + TimeWithinDay(t);
    SplitDay(x, TimeWithinDay(t));
    assert Day(e) == x;
    CivilRoundTrip(n);
    assert ToCivil(x) == n;
  }
}
