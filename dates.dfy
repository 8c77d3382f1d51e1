/** Local calendar dates as JavaScript's `Date` computes them, at the
    granularity of whole days. A date is a day number: the count of days
    since 1 January of year 0 of the proleptic Gregorian calendar. The
    constructor `new Date(year, month, day)` lets month and day overflow
    into the next month or year (month counts from 0) and reads the years
    0 to 99 as 1900 to 1999; `getFullYear`,
    `getMonth` and `getDate` read the civil fields back; `getDay` is the
    weekday with 0 for Sunday. */
module Dates {

  /** The civil fields of a date: month 0..11, day 1..31. */
  datatype Civil = Civil(year: int, month: int, day: int)

  predicate IsLeap(y: int) {
    y % 4 == 0 && (y % 100 != 0 || y % 400 == 0)
  }

  function DaysInYear(y: int): int {
    if IsLeap(y) then 366 else 365
  }

  /** Gregorian month lengths; February has 29 days in a leap year. */
  function DaysInMonth(y: int, m: int): int
    requires 0 <= m < 12
  {
    if m == 1 then (if IsLeap(y) then 29 else 28)
    else if m == 3 || m == 5 || m == 8 || m == 10 then 30
    else 31
  }

  predicate ValidCivil(c: Civil) {
    0 <= c.month < 12 && 1 <= c.day <= DaysInMonth(c.year, c.month)
  }

  /** Days of a common year before the first of each month (12 = whole year). */
  const CumulativeDays: seq<int> := [0, 31, 59, 90, 120, 151, 181, 212, 243, 273, 304, 334, 365]

  function DaysBeforeMonth(y: int, m: int): int
    requires 0 <= m <= 12
  {
    CumulativeDays[m] + (if IsLeap(y) && m >= 2 then 1 else 0)
  }

  lemma DaysBeforeMonthStep(y: int, m: int)
    requires 0 <= m < 12
    ensures DaysBeforeMonth(y, m + 1) == DaysBeforeMonth(y, m) + DaysInMonth(y, m)
  {
  }

  lemma DaysBeforeMonthMonotone(y: int, a: int, b: int)
    requires 0 <= a <= b <= 12
    ensures DaysBeforeMonth(y, a) <= DaysBeforeMonth(y, b)
  {
  }

  /** Days from 1 January of year 0 to 1 January of year y: the lengths of
      the years in between, negative for negative y. */
  function DaysBeforeYear(y: int): int
    decreases if y < 0 then -y else y
  {
    if y == 0 then 0
    else if y > 0 then DaysBeforeYear(y - 1) + DaysInYear(y - 1)
    else DaysBeforeYear(y + 1) - DaysInYear(y)
  }

  /** Each year contributes its own length. */
  lemma DaysBeforeYearStep(y: int)
    ensures DaysBeforeYear(y + 1) == DaysBeforeYear(y) + DaysInYear(y)
  {
  }

  /** The count of days before a year in closed form: 365 per year plus one
      per fourth year, less one per century, plus one per fourth century. */
  function LeapFormula(y: int): int {
    365 * y + (y + 3) / 4 - (y + 99) / 100 + (y + 399) / 400
  }

  lemma DivStep4(y: int)
    ensures (y + 4) / 4 == (y + 3) / 4 + (if y % 4 == 0 then 1 else 0)
  {
    assert y == 4 * (y / 4) + y % 4;
  }

  lemma DivStep100(y: int)
    ensures (y + 100) / 100 == (y + 99) / 100 + (if y % 100 == 0 then 1 else 0)
  {
    assert y == 100 * (y / 100) + y % 100;
  }

  lemma DivStep400(y: int)
    ensures (y + 400) / 400 == (y + 399) / 400 + (if y % 400 == 0 then 1 else 0)
  {
    assert y == 400 * (y / 400) + y % 400;
  }

  /** Adding whole multiples of the divisor. */
  lemma Shift4(y: int, q: int)
    ensures (y + 4 * q) / 4 == y / 4 + q && (y + 4 * q) % 4 == y % 4
  {
  }

  lemma Shift100(y: int, q: int)
    ensures (y + 100 * q) / 100 == y / 100 + q && (y + 100 * q) % 100 == y % 100
  {
  }

  lemma Shift400(y: int, q: int)
    ensures (y + 400 * q) / 400 == y / 400 + q && (y + 400 * q) % 400 == y % 400
  {
  }

  /** A century year is a fourth year, and a fourth-century year a century
      year. */
  lemma CenturyFacts(y: int)
    ensures y % 100 == 0 ==> y % 4 == 0
    ensures y % 400 == 0 ==> y % 100 == 0
  {
    if y % 100 == 0 {
      var k := y / 100;
      assert y == 4 * (25 * k);
      Shift4(0, 25 * k);
    }
    if y % 400 == 0 {
      var k := y / 400;
      assert y == 100 * (4 * k);
      Shift100(0, 4 * k);
    }
  }

  /** The leap day the formula adds in year y is the one the calendar has. */
  lemma LeapIncrement(y: int)
    ensures DaysInYear(y) == 365 + (if y % 4 == 0 then 1 else 0) - (if y % 100 == 0 then 1 else 0)
                                 + (if y % 400 == 0 then 1 else 0)
  {
    CenturyFacts(y);
  }

  lemma LeapFormulaStep(y: int)
    ensures LeapFormula(y + 1) == LeapFormula(y) + DaysInYear(y)
  {
    DivStep4(y);
    DivStep100(y);
    DivStep400(y);
    LeapIncrement(y);
    assert LeapFormula(y + 1) == 365 * y + 365 + (y + 4) / 4 - (y + 100) / 100 + (y + 400) / 400;
  }

  /** The sum of year lengths agrees with the closed form. */
  lemma {:induction false} DaysBeforeYearFormula(y: int)
    ensures DaysBeforeYear(y) == LeapFormula(y)
    decreases if y < 0 then -y else y
  {
    if y > 0 {
      DaysBeforeYearFormula(y - 1);
      LeapFormulaStep(y - 1);
    } else if y < 0 {
      DaysBeforeYearFormula(y + 1);
      LeapFormulaStep(y);
    }
  }

  lemma {:induction false} DaysBeforeYearMonotone(a: int, b: int)
    requires a <= b
    ensures DaysBeforeYear(a) <= DaysBeforeYear(b)
    decreases b - a
  {
    if a < b {
      DaysBeforeYearStep(a);
      DaysBeforeYearMonotone(a + 1, b);
    }
  }

  /** The calendar repeats every 400 years, which hold 146097 days. */
  lemma CycleShift(k: int, q: int)
    ensures DaysBeforeYear(400 * q + k) == 146097 * q + DaysBeforeYear(k)
  {
    assert DaysBeforeYear(400 * q + k) == LeapFormula(400 * q + k) by {
      DaysBeforeYearFormula(400 * q + k);
    }
    assert DaysBeforeYear(k) == LeapFormula(k) by {
      DaysBeforeYearFormula(k);
    }
    LeapFormulaCycle(k, q);
  }

  lemma LeapFormulaCycle(k: int, q: int)
    ensures LeapFormula(400 * q + k) == 146097 * q + LeapFormula(k)
  {
    Shift4(k + 3, 100 * q);
    Shift100(k + 99, 4 * q);
    Shift400(k + 399, q);
    assert (400 * q + k + 3) / 4 == 100 * q + (k + 3) / 4;
    assert (400 * q + k + 99) / 100 == 4 * q + (k + 99) / 100;
    assert (400 * q + k + 399) / 400 == q + (k + 399) / 400;
  }

  /** The day number of the first day of month index t = 12 * year + month. */
  function MonthStart(t: int): int {
    DaysBeforeYear(t / 12) + DaysBeforeMonth(t / 12, t % 12)
  }

  /** The day of a year, month and day whose month and day may lie outside
      their ranges and carry into the neighbouring months and years. This
      is what `setMonth` and `setDate` compute, and what `new Date(year,
      month, day)` computes after `FullYear`. */
  function MakeDate(year: int, month: int, day: int): int {
    MonthStart(12 * year + month) + day - 1
  }

  /** The year `new Date(year, month, day)` uses: the years 0 to 99 stand
      for 1900 to 1999. */
  function FullYear(year: int): int {
    if 0 <= year <= 99 then 1900 + year else year
  }

  /** `new Date(year, month, day)`. */
  function NewDate(year: int, month: int, day: int): int {
    MakeDate(FullYear(year), month, day)
  }

  /** The day number of a civil date whose fields are in range. */
  function DayNumber(c: Civil): int {
    DaysBeforeYear(c.year) + DaysBeforeMonth(c.year, if 0 <= c.month <= 12 then c.month else 0) + c.day - 1
  }

  /** Year and month of an in-range month index. */
  lemma MonthIndex(year: int, month: int)
    requires 0 <= month < 12
    ensures (12 * year + month) / 12 == year && (12 * year + month) % 12 == month
  {
  }

  /** For in-range fields `MakeDate` is the plain day number. */
  lemma MakeDateInRange(c: Civil)
    requires ValidCivil(c)
    ensures MakeDate(c.year, c.month, c.day) == DayNumber(c)
  {
    MonthIndex(c.year, c.month);
  }

  /** The month of year y holding day r of that year. */
  function MonthInYear(y: int, r: int, m: int): (res: int)
    requires 0 <= m < 12
    requires DaysBeforeMonth(y, m) <= r < DaysInYear(y)
    ensures m <= res < 12
    ensures DaysBeforeMonth(y, res) <= r < DaysBeforeMonth(y, res + 1)
    decreases 12 - m
  {
    if r < DaysBeforeMonth(y, m + 1) then m else MonthInYear(y, r, m + 1)
  }

  /** The civil date of day d of year y. */
  function CivilInYear(y: int, d: int): (c: Civil)
    requires 0 <= d < DaysInYear(y)
    ensures ValidCivil(c) && c.year == y
  {
    var m := MonthInYear(y, d, 0);
    DaysBeforeMonthStep(y, m);
    Civil(y, m, d - DaysBeforeMonth(y, m) + 1)
  }

  /** The civil date d days after 1 January of year y, found by walking
      forward one year at a time. */
  function CivilFrom(y: int, d: int): (c: Civil)
    requires 0 <= d
    ensures ValidCivil(c)
    decreases d
  {
    if d < DaysInYear(y) then CivilInYear(y, d)
    else CivilFrom(y + 1, d - DaysInYear(y))
  }

  /** Leap years repeat every 400 years. */
  lemma LeapCycle(y: int, q: int)
    ensures IsLeap(y + 400 * q) == IsLeap(y)
  {
    Shift4(y, 100 * q);
    Shift100(y, 4 * q);
    Shift400(y, q);
  }

  /** The same month and day, 400 * q years later. */
  function ShiftCycles(c: Civil, q: int): Civil {
    Civil(c.year + 400 * q, c.month, c.day)
  }

  /** `getFullYear`, `getMonth` and `getDate` of day number n: a day before
      year 0 is first moved forward by whole 400-year cycles. */
  function CivilFromDays(n: int): (c: Civil)
    ensures ValidCivil(c)
    decreases if n < 0 then -n else 0
  {
    if n < 0 then
      var c := CivilFromDays(n + 146097);
      LeapCycle(c.year, -1);
      ShiftCycles(c, -1)
    else
      CivilFrom(0, n)
  }

  /** The day number of an in-range date lies in the span of its year. */
  lemma DayNumberInYear(c: Civil)
    requires ValidCivil(c)
    ensures DaysBeforeYear(c.year) <= DayNumber(c) < DaysBeforeYear(c.year + 1)
  {
    DaysBeforeMonthStep(c.year, c.month);
    DaysBeforeMonthMonotone(c.year, c.month + 1, 12);
    DaysBeforeYearStep(c.year);
  }

  /** Distinct in-range dates have distinct day numbers. */
  lemma DayNumberInjective(c: Civil, d: Civil)
    requires ValidCivil(c) && ValidCivil(d)
    requires DayNumber(c) == DayNumber(d)
    ensures c == d
  {
    DayNumberInYear(c);
    DayNumberInYear(d);
    // the year is the unique one whose span holds the day number
    if d.year < c.year {
      DaysBeforeYearMonotone(d.year + 1, c.year);
    } else if c.year < d.year {
      DaysBeforeYearMonotone(c.year + 1, d.year);
    }
    assert d.year == c.year;
    // the month is the unique one whose span holds the day of the year
    DaysBeforeMonthStep(c.year, c.month);
    DaysBeforeMonthStep(d.year, d.month);
    if d.month < c.month {
      DaysBeforeMonthMonotone(c.year, d.month + 1, c.month);
    } else if c.month < d.month {
      DaysBeforeMonthMonotone(c.year, c.month + 1, d.month);
    }
  }

  lemma CivilInYearNumber(y: int, d: int)
    requires 0 <= d < DaysInYear(y)
    ensures DayNumber(CivilInYear(y, d)) == DaysBeforeYear(y) + d
  {
  }

  lemma {:induction false} CivilFromNumber(y: int, d: int)
    requires 0 <= d
    ensures DayNumber(CivilFrom(y, d)) == DaysBeforeYear(y) + d
    decreases d
  {
    if d < DaysInYear(y) {
      CivilInYearNumber(y, d);
    } else {
      CivilFromNumber(y + 1, d - DaysInYear(y));
      DaysBeforeYearStep(y);
    }
  }

  /** Moving a date by q whole cycles moves its day number by 146097 * q. */
  lemma ShiftCyclesNumber(c: Civil, q: int)
    requires ValidCivil(c)
    ensures DayNumber(ShiftCycles(c, q)) == DayNumber(c) + 146097 * q
  {
    CycleShift(c.year, q);
    LeapCycle(c.year, q);
    assert c.year + 400 * q == 400 * q + c.year;
  }

  /** Reading the civil fields and building the date again with
      `MakeDate`, as `setDate` and `setMonth` do, gives the same day. (The
      constructor, which maps the years 0 to 99, does not: see
      `NewDateTwoDigitYear`.) */
  lemma {:induction false} CivilRoundTrip(n: int)
    ensures DayNumber(CivilFromDays(n)) == n
    ensures MakeDate(CivilFromDays(n).year, CivilFromDays(n).month, CivilFromDays(n).day) == n
    decreases if n < 0 then -n else 0
  {
    if n < 0 {
      CivilRoundTrip(n + 146097);
      ShiftCyclesNumber(CivilFromDays(n + 146097), -1);
    } else {
      CivilFromNumber(0, n);
    }
    MakeDateInRange(CivilFromDays(n));
  }

  /** A civil date whose fields are in range reads back unchanged. */
  lemma DayNumberRoundTrip(c: Civil)
    requires ValidCivil(c)
    ensures CivilFromDays(DayNumber(c)) == c
  {
    CivilRoundTrip(DayNumber(c));
    DayNumberInjective(CivilFromDays(DayNumber(c)), c);
  }

  /** A date built from in-range fields reads back as those fields. */
  lemma MakeDateCivil(year: int, month: int, day: int)
    requires ValidCivil(Civil(year, month, day))
    ensures CivilFromDays(MakeDate(year, month, day)) == Civil(year, month, day)
  {
    MakeDateInRange(Civil(year, month, day));
    DayNumberRoundTrip(Civil(year, month, day));
  }

  /** Two day numbers show the same calendar date (`toDateString` equal)
      exactly when they are the same day. */
  lemma SameCivilIff(a: int, b: int)
    ensures CivilFromDays(a) == CivilFromDays(b) <==> a == b
  {
    CivilRoundTrip(a);
    CivilRoundTrip(b);
  }

  /** `getDay`: 0 for Sunday through 6 for Saturday (1 January of year 0,
      day 0, was a Saturday). */
  function Weekday(n: int): (w: int)
    ensures 0 <= w < 7
  {
    (n + 6) % 7
  }

  lemma WeekdayStep(n: int, k: int)
    ensures Weekday(n + k) == (Weekday(n) + k) % 7
  {
  }

  /** The closed form at one year, evaluated outside any other context. */
  lemma LeapFormulaAt(y: int, days: int)
    requires (y, days) == (1970, 719528) || (y, days) == (2025, 739617)
    ensures LeapFormula(y) == days
  {
    if y == 1970 {
      assert (y + 3) / 4 == 493 && (y + 99) / 100 == 20 && (y + 399) / 400 == 5;
    } else {
      assert (y + 3) / 4 == 507 && (y + 99) / 100 == 21 && (y + 399) / 400 == 6;
    }
  }

  /** Day number of 1 January 1970. */
  lemma EpochDayNumber()
    ensures MakeDate(1970, 0, 1) == 719528
  {
    MonthIndex(1970, 0);
    DaysBeforeYearFormula(1970);
    LeapFormulaAt(1970, 719528);
  }

  /** 1 January 1970 was a Thursday. */
  lemma EpochWeekday()
    ensures Weekday(MakeDate(1970, 0, 1)) == 4
  {
    EpochDayNumber();
    assert (719528 + 6) % 7 == 4;
  }

  /** Day number of 10 June 2025. */
  lemma June2025DayNumber()
    ensures MakeDate(2025, 5, 10) == 739617 + 160
  {
    MonthIndex(2025, 5);
    DaysBeforeYearFormula(2025);
    LeapFormulaAt(2025, 739617);
  }

  /** 10 June 2025 was a Tuesday. */
  lemma June2025Weekday()
    ensures Weekday(MakeDate(2025, 5, 10)) == 2
  {
    June2025DayNumber();
    assert (739617 + 160 + 6) % 7 == 2;
  }

  /** The day before the first of the next month is the last day of this
      one. */
  lemma LastDayNumber(year: int, month: int)
    requires 0 <= month < 12
    ensures MakeDate(year, month + 1, 0) == DayNumber(Civil(year, month, DaysInMonth(year, month)))
  {
    var t := 12 * year + month;
    MonthIndex(year, month);
    MonthStartStep(t);
    assert 12 * year + (month + 1) == t + 1;
  }

  /** The last day of a month: day 0 of month + 1 under `MakeDate` is day
      `DaysInMonth(year, month)` of month. `new Date(y, m + 1, 0)` is this
      day for the year `FullYear(y)`. */
  lemma LastDayOfMonth(year: int, month: int)
    requires 0 <= month < 12
    ensures CivilFromDays(MakeDate(year, month + 1, 0)) == Civil(year, month, DaysInMonth(year, month))
  {
    LastDayNumber(year, month);
    DayNumberRoundTrip(Civil(year, month, DaysInMonth(year, month)));
  }

  /** `MakeDate` is linear in its day argument, and so is `NewDate`, whose
      year mapping does not look at the day. */
  lemma MakeDateDays(year: int, month: int, day: int, k: int)
    ensures MakeDate(year, month, day + k) == MakeDate(year, month, day) + k
    ensures NewDate(year, month, day + k) == NewDate(year, month, day) + k
  {
  }

  /** Building from a day number's own fields with the day shifted by k
      moves exactly k days: `d.setDate(d.getDate() + k)`. */
  lemma ShiftDays(n: int, k: int)
    ensures MakeDate(CivilFromDays(n).year, CivilFromDays(n).month, CivilFromDays(n).day + k) == n + k
  {
    CivilRoundTrip(n);
  }

  /** `MakeDate`, and so `setMonth`, depends only on the month index
      12 * year + month. The constructor does not: see
      `NewDateNotByMonthIndex`. */
  lemma MakeDateMonthIndex(y1: int, m1: int, y2: int, m2: int, day: int)
    requires 12 * y1 + m1 == 12 * y2 + m2
    ensures MakeDate(y1, m1, day) == MakeDate(y2, m2, day)
  {
  }

  /** Every year has at least 365 days. */
  lemma {:induction false} DaysBeforeYearGrowth(a: int, n: nat)
    ensures DaysBeforeYear(a + n) >= DaysBeforeYear(a) + 365 * n
    decreases n
  {
    if n > 0 {
      DaysBeforeYearGrowth(a, n - 1);
      DaysBeforeYearStep(a + n - 1);
    }
  }

  /** 1900 years on, a month starts at least 1899 common years later. */
  lemma MonthStartCenturies(t: int)
    ensures MonthStart(t + 12 * 1900) > MonthStart(t) + 365 * 1899
  {
    var y, m := t / 12, t % 12;
    assert t + 12 * 1900 == 12 * (y + 1900) + m;
    MonthIndex(y + 1900, m);
    DaysBeforeYearGrowth(y, 1900);
    assert 0 <= DaysBeforeMonth(y + 1900, m) && DaysBeforeMonth(y, m) <= 366;
  }

  /** The constructor agrees with `MakeDate` outside the years 0 to 99.
      Inside them it lands more than 1899 years later than `MakeDate`. */
  lemma NewDateTwoDigitYear(year: int, month: int, day: int)
    ensures !(0 <= year <= 99) ==> NewDate(year, month, day) == MakeDate(year, month, day)
    ensures 0 <= year <= 99 ==> NewDate(year, month, day) > MakeDate(year, month, day) + 365 * 1899
  {
    if 0 <= year <= 99 {
      assert 12 * (year + 1900) + month == (12 * year + month) + 12 * 1900;
      MonthStartCenturies(12 * year + month);
    }
  }

  /** So the constructor does not depend on 12 * year + month alone:
      `new Date(99, 12, 1)` is 1 January 2000 while `new Date(100, 0, 1)`
      is 1 January 100. */
  lemma NewDateNotByMonthIndex()
    ensures CivilFromDays(NewDate(99, 12, 1)) == Civil(2000, 0, 1)
    ensures CivilFromDays(NewDate(100, 0, 1)) == Civil(100, 0, 1)
  {
    MakeDateMonthIndex(1999, 12, 2000, 0, 1);
    MakeDateCivil(2000, 0, 1);
    MakeDateCivil(100, 0, 1);
  }

  /** Consecutive month indices start a month length apart. */
  lemma MonthStartStep(t: int)
    ensures MonthStart(t + 1) == MonthStart(t) + DaysInMonth(t / 12, t % 12)
  {
    if t % 12 < 11 {
      assert (t + 1) / 12 == t / 12 && (t + 1) % 12 == t % 12 + 1;
      DaysBeforeMonthStep(t / 12, t % 12);
    } else {
      assert (t + 1) / 12 == t / 12 + 1 && (t + 1) % 12 == 0;
      DaysBeforeYearStep(t / 12);
      DaysBeforeMonthStep(t / 12, 11);
    }
  }

  /** A day number is the start of its month index plus its day of the
      month, less one. */
  lemma CivilMonthStart(n: int)
    ensures var c := CivilFromDays(n);
      n == MonthStart(12 * c.year + c.month) + c.day - 1
  {
    CivilRoundTrip(n);
  }

  /** A day that month index t has reads back as that month and day. */
  lemma MonthDayFields(t: int, day: int)
    requires 1 <= day <= DaysInMonth(t / 12, t % 12)
    ensures var c := CivilFromDays(MonthStart(t) + day - 1);
      12 * c.year + c.month == t && c.day == day
  {
    var c := Civil(t / 12, t % 12, day);
    assert DayNumber(c) == MonthStart(t) + day - 1;
    DayNumberRoundTrip(c);
  }

  /** A day past the end of month index t carries into the next month:
      day 31 of a 30-day month is the 1st of the month after. */
  lemma MonthOverflowFields(t: int, day: int)
    requires DaysInMonth(t / 12, t % 12) < day <= 31
    ensures var c := CivilFromDays(MonthStart(t) + day - 1);
      12 * c.year + c.month == t + 1 && c.day == day - DaysInMonth(t / 12, t % 12)
  {
    MonthStartStep(t);
    MonthDayFields(t + 1, day - DaysInMonth(t / 12, t % 12));
  }
}
