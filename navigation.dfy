/** changeDate of the schedule page: the selected date moved by a month or
    a week, as `setMonth` and `setDate` move it. */
module Navigation {
  import opened Dates

  /** changeDate: "month" moves the month by direction and keeps the day of
      the month, which may overflow into the following month as
      `setMonth` does; "week" moves the day by 7 * direction with
      `setDate`; any other mode leaves the date alone. */
  function Navigate(selected: int, viewMode: string, direction: int): int {
    var c := CivilFromDays(selected);
    if viewMode == "month" then MakeDate(c.year, c.month + direction, c.day)
    else if viewMode == "week" then MakeDate(c.year, c.month, c.day + direction * 7)
    else selected
  }

  /** In week mode the date moves by exactly seven days per step. */
  lemma NavigateWeek(selected: int, direction: int)
    ensures Navigate(selected, "week", direction) == selected + 7 * direction
  {
    var c := CivilFromDays(selected);
    assert Navigate(selected, "week", direction) == MakeDate(c.year, c.month, c.day + direction * 7);
    ShiftDays(selected, direction * 7);
  }

  /** Next week and then previous week restores the date. */
  lemma NavigateWeekRoundTrip(selected: int)
    ensures Navigate(Navigate(selected, "week", 1), "week", -1) == selected
  {
    NavigateWeek(selected, 1);
    NavigateWeek(selected + 7, -1);
  }

  /** Month mode builds the target date from the month index and the day. */
  lemma NavigateMonthStart(selected: int, direction: int)
    ensures var c := CivilFromDays(selected);
      Navigate(selected, "month", direction) == MonthStart(12 * c.year + c.month + direction) + c.day - 1
  {
  }

  /** In month mode the month index moves by direction and the day of the
      month is kept when the target month has it; otherwise the surplus
      days run into the month after, as `Date` does. */
  lemma NavigateMonth(selected: int, direction: int)
    ensures var c := CivilFromDays(selected);
      var t := 12 * c.year + c.month + direction;
      var len := DaysInMonth(t / 12, t % 12);
      var r := CivilFromDays(Navigate(selected, "month", direction));
      if c.day <= len then 12 * r.year + r.month == t && r.day == c.day
      else 12 * r.year + r.month == t + 1 && r.day == c.day - len
  {
    var c := CivilFromDays(selected);
    var t := 12 * c.year + c.month + direction;
    var n := Navigate(selected, "month", direction);
    NavigateMonthStart(selected, direction);
    assert n == MonthStart(t) + c.day - 1;
    var r := CivilFromDays(n);
    if c.day <= DaysInMonth(t / 12, t % 12) {
      MonthDayFields(t, c.day);
      assert 12 * r.year + r.month == t && r.day == c.day;
    } else {
      MonthOverflowFields(t, c.day);
      assert 12 * r.year + r.month == t + 1;
    }
  }

  /** Month mode from a date whose month index plus direction is `target`
      lands `day - 1` days after the start of month index `target`. */
  lemma NavigateMonthTo(selected: int, direction: int, target: int, day: int)
    requires var c := CivilFromDays(selected);
      12 * c.year + c.month + direction == target && c.day == day
    ensures Navigate(selected, "month", direction) == MonthStart(target) + day - 1
  {
    NavigateMonthStart(selected, direction);
  }

  /** The same day of the month in the following month. */
  function SameDayNextMonth(c: Civil): Civil {
    if c.month == 11 then Civil(c.year + 1, 0, c.day) else Civil(c.year, c.month + 1, c.day)
  }

  /** One month forward from a day that the next month has lands on that
      day of the next month. */
  lemma NavigateMonthForward(selected: int)
    requires ValidCivil(SameDayNextMonth(CivilFromDays(selected)))
    ensures CivilFromDays(Navigate(selected, "month", 1)) == SameDayNextMonth(CivilFromDays(selected))
  {
    var c := CivilFromDays(selected);
    var d := SameDayNextMonth(c);
    assert Navigate(selected, "month", 1) == MakeDate(d.year, d.month, d.day) by {
      MakeDateMonthIndex(c.year, c.month + 1, d.year, d.month, c.day);
    }
    MakeDateCivil(d.year, d.month, d.day);
  }

  /** The following month's index is one more, with the same day. */
  lemma SameDayNextMonthIndex(c: Civil)
    ensures var d := SameDayNextMonth(c);
      12 * d.year + d.month == 12 * c.year + c.month + 1 && d.day == c.day
  {
  }

  /** One month back from the same day of the following month returns to
      the date. */
  lemma NavigateMonthBack(selected: int, next: int)
    requires var c := CivilFromDays(selected);
      var r := CivilFromDays(next);
      12 * r.year + r.month == 12 * c.year + c.month + 1 && r.day == c.day
    ensures Navigate(next, "month", -1) == selected
  {
    var c := CivilFromDays(selected);
    NavigateMonthTo(next, -1, 12 * c.year + c.month, c.day);
    CivilMonthStart(selected);
  }

  /** Next month and then previous month restores the date whenever the
      day of the month exists in the next month. */
  lemma NavigateMonthRoundTrip(selected: int)
    requires ValidCivil(SameDayNextMonth(CivilFromDays(selected)))
    ensures Navigate(Navigate(selected, "month", 1), "month", -1) == selected
  {
    NavigateMonthForward(selected);
    SameDayNextMonthIndex(CivilFromDays(selected));
    NavigateMonthBack(selected, Navigate(selected, "month", 1));
  }

  /** 31 January plus one month, in a common year, is 3 March. */
  lemma JanuaryThirtyFirstForward(year: int)
    requires !IsLeap(year)
    ensures Navigate(MakeDate(year, 0, 31), "month", 1) == MakeDate(year, 2, 3)
  {
    MonthIndex(year, 0);
    MonthIndex(year, 1);
    MonthDayFields(12 * year, 31);
    NavigateMonthTo(MakeDate(year, 0, 31), 1, 12 * year + 1, 31);
    MonthStartStep(12 * year + 1);
  }

  /** 3 March minus one month is 3 February. */
  lemma MarchThirdBack(year: int)
    ensures Navigate(MakeDate(year, 2, 3), "month", -1) == MakeDate(year, 1, 3)
  {
    MonthIndex(year, 2);
    MonthDayFields(12 * year + 2, 3);
    NavigateMonthTo(MakeDate(year, 2, 3), -1, 12 * year + 1, 3);
  }

  /** In a common year, 31 January plus one month is 3 March, and one
      month back from there is 3 February: the round trip fails when the
      day overflows the target month. */
  lemma NavigateMonthOverflow(year: int)
    requires !IsLeap(year)
    ensures Navigate(MakeDate(year, 0, 31), "month", 1) == MakeDate(year, 2, 3)
    ensures Navigate(MakeDate(year, 2, 3), "month", -1) == MakeDate(year, 1, 3)
    ensures MakeDate(year, 1, 3) != MakeDate(year, 0, 31)
  {
    JanuaryThirtyFirstForward(year);
    MarchThirdBack(year);
    MonthIndex(year, 0);
    MonthStartStep(12 * year);
  }
}
