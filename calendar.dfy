/** The class-schedule calendar: from the selected date, the view mode and
    the fetched events it builds the cells of a month or week grid, each
    cell holding the events that start on its calendar day. Events are
    first narrowed to the seven days starting at the selected date, in
    both modes. Every date here is built with `new Date(year, month, day)`,
    which reads the years 0 to 99 as 1900 to 1999, so for a selected date
    in those years the window and the grids fall 1900 years later. */
module Calendar {
  import opened Common
  import opened Dates

  /** A minute of the day, 0 for midnight. */
  type Minute = m: int | 0 <= m < 1440

  /** An event as GET /events/all returns it, with `start` already read as
      a local calendar day and a minute of that day. */
  datatype Event = Event(id: int, title: string, startDay: int, startMinute: Minute)

  /** A grid cell: a date and the events starting on it, in input order. */
  datatype Cell = Cell(date: int, events: seq<Event>)

  /** The time value of an event's start, in minutes since day 0. */
  function StartTime(e: Event): int {
    e.startDay * 1440 + e.startMinute
  }

  /** The time value of local midnight starting a day. */
  function Midnight(day: int): int {
    day * 1440
  }

  // ---------------------------------------------------------------------
  // The seven-day pre-filter

  /** The filter of generateCalendarView: the start lies at or after
      `new Date(year, month, day)` and before `new Date(year, month, day + 7)`,
      built from the selected date's own fields. */
  predicate InWindow(e: Event, selected: int) {
    var c := CivilFromDays(selected);
    StartTime(e) >= Midnight(NewDate(c.year, c.month, c.day))
    && StartTime(e) < Midnight(NewDate(c.year, c.month, c.day + 7))
  }

  /** `new Date(year, month, day)` from the selected date's own fields: the
      first day of the window, and the day the week view is built around. */
  function WindowStart(selected: int): int {
    var c := CivilFromDays(selected);
    NewDate(c.year, c.month, c.day)
  }

  /** The window starts at the selected date, except in the years 0 to 99,
      where the constructor moves it more than 1899 years later. */
  lemma WindowStartSpec(selected: int)
    ensures !(0 <= CivilFromDays(selected).year <= 99) ==> WindowStart(selected) == selected
    ensures 0 <= CivilFromDays(selected).year <= 99 ==> WindowStart(selected) > selected + 365 * 1899
  {
    var c := CivilFromDays(selected);
    CivilRoundTrip(selected);
    NewDateTwoDigitYear(c.year, c.month, c.day);
  }

  function WindowEvents(events: seq<Event>, selected: int): seq<Event> {
    Filter(events, (e: Event) => InWindow(e, selected))
  }

  /** An event passes the pre-filter exactly when it starts on the first
      day of the window or one of the six days after it. */
  lemma InWindowIff(e: Event, selected: int)
    ensures InWindow(e, selected) <==> WindowStart(selected) <= e.startDay < WindowStart(selected) + 7
  {
    var c := CivilFromDays(selected);
    MakeDateDays(FullYear(c.year), c.month, c.day, 7);
  }

  /** The pre-filter keeps exactly the events starting in the seven days
      from the window's first day, as an order-preserving sub-list. */
  lemma WindowEventsSpec(events: seq<Event>, selected: int)
    ensures forall e :: e in WindowEvents(events, selected) <==>
      e in events && WindowStart(selected) <= e.startDay < WindowStart(selected) + 7
    ensures IsSubsequence(WindowEvents(events, selected), events)
  {
    var w := WindowEvents(events, selected);
    var ws := WindowStart(selected);
    FilterSpec(events, (e: Event) => InWindow(e, selected));
    forall e | e in events ensures InWindow(e, selected) <==> ws <= e.startDay < ws + 7 {
      InWindowIff(e, selected);
    }
    forall e | e in w ensures ws <= e.startDay < ws + 7 {
      var i :| 0 <= i < |w| && w[i] == e;
      InWindowIff(e, selected);
    }
    forall e | e in events && ws <= e.startDay < ws + 7 ensures e in w {
      var i :| 0 <= i < |events| && events[i] == e;
      InWindowIff(e, selected);
    }
  }

  // ---------------------------------------------------------------------
  // Bucketing by calendar day

  /** `toDateString()` equality: the two days show the same civil date. */
  predicate SameDate(a: int, b: int) {
    CivilFromDays(a) == CivilFromDays(b)
  }

  /** The per-cell filter: the events whose start shows the cell's date. */
  function EventsOn(events: seq<Event>, day: int): seq<Event> {
    Filter(events, (e: Event) => SameDate(e.startDay, day))
  }

  /** A cell's events are exactly the events starting on that day, in
      input order. */
  lemma EventsOnSpec(events: seq<Event>, day: int)
    ensures EventsOn(events, day) == Filter(events, (e: Event) => e.startDay == day)
    ensures forall e :: e in EventsOn(events, day) <==> e in events && e.startDay == day
    ensures IsSubsequence(EventsOn(events, day), events)
  {
    forall i | 0 <= i < |events| ensures SameDate(events[i].startDay, day) == (events[i].startDay == day) {
      SameCivilIff(events[i].startDay, day);
    }
    FilterCongruent(events, (e: Event) => SameDate(e.startDay, day), (e: Event) => e.startDay == day);
    var r := EventsOn(events, day);
    FilterSpec(events, (e: Event) => e.startDay == day);
    forall e | e in r ensures e in events && e.startDay == day {
      var i :| 0 <= i < |r| && r[i] == e;
    }
    forall e | e in events && e.startDay == day ensures e in r {
      var i :| 0 <= i < |events| && events[i] == e;
    }
  }

  // ---------------------------------------------------------------------
  // The grids

  function DayCell(date: int, filtered: seq<Event>): Cell {
    Cell(date, EventsOn(filtered, date))
  }

  /** n empty slots. */
  function Blanks(n: nat): seq<Option<Cell>> {
    seq(n, _ => None)
  }

  /** The cells of the n days from a first day. */
  function DaysFrom(first: int, n: nat, filtered: seq<Event>): seq<Option<Cell>> {
    seq(n, k => Some(DayCell(first + k, filtered)))
  }

  lemma BlanksStep(n: nat)
    ensures Blanks(n + 1) == Blanks(n) + [None]
  {
  }

  lemma DaysFromStep(first: int, n: nat, filtered: seq<Event>)
    ensures DaysFrom(first, n + 1, filtered) == DaysFrom(first, n, filtered) + [Some(DayCell(first + n, filtered))]
  {
  }

  /** The month grid: one empty slot per weekday before the 1st, then one
      cell per day of the month. */
  function MonthGrid(year: int, month: int, filtered: seq<Event>): seq<Option<Cell>>
    requires 0 <= month < 12
  {
    var first := MakeDate(year, month, 1);
    LeadThenDays(Weekday(first), first, DaysInMonth(year, month), filtered)
  }

  /** `lead` empty slots, then the cells of the `len` days from `first`. */
  function LeadThenDays(lead: nat, first: int, len: nat, filtered: seq<Event>): seq<Option<Cell>> {
    Blanks(lead) + DaysFrom(first, len, filtered)
  }

  /** The Sunday on or before a day. */
  function WeekStart(selected: int): int {
    selected - Weekday(selected)
  }

  /** The week grid: the seven days from the Sunday on or before the day. */
  function WeekGrid(selected: int, filtered: seq<Event>): seq<Option<Cell>> {
    DaysFrom(WeekStart(selected), 7, filtered)
  }

  /** `new Date(year, month + 1, 0).getDate()`: day 0 of the next month
      is the last day of this one, so its day of the month is this month's
      length, in the year the constructor reads `year` as. */
  method LastDateOfMonth(year: int, month: int) returns (n: int)
    requires 0 <= month < 12
    ensures n == DaysInMonth(FullYear(year), month)
  {
    n := CivilFromDays(NewDate(year, month + 1, 0)).day;
    LastDayOfMonth(FullYear(year), month);
  }

  /** generateMonthView: leading placeholders, then the days 1..daysInMonth,
      the length read as `new Date(year, month + 1, 0).getDate()`; every
      date is built with the constructor, so the grid is the one of the
      year `FullYear(year)`. */
  method GenerateMonthView(year: int, month: int, filtered: seq<Event>) returns (days: seq<Option<Cell>>)
    requires 0 <= month < 12
    ensures days == MonthGrid(FullYear(year), month, filtered)
  {
    var daysInMonth := LastDateOfMonth(year, month);
    var first := NewDate(year, month, 1);
    var startingDayOfWeek := Weekday(first);

    days := [];
    var i := 0;
    while i < startingDayOfWeek
      invariant 0 <= i <= startingDayOfWeek
      invariant days == Blanks(i)
    {
      BlanksStep(i);
      days := days + [None];
      i := i + 1;
    }

    ghost var lead := days;
    var day := 1;
    while day <= daysInMonth
      invariant 1 <= day <= daysInMonth + 1
      invariant days == lead + DaysFrom(first, day - 1, filtered)
    {
      DaysFromStep(first, day - 1, filtered);
      var currentDate := NewDate(year, month, day);
      assert currentDate == first + (day - 1) by {
        MakeDateDays(FullYear(year), month, 1, day - 1);
      }
      var dayEvents := EventsOn(filtered, currentDate);
      days := days + [Some(Cell(currentDate, dayEvents))];
      day := day + 1;
    }
    assert days == LeadThenDays(startingDayOfWeek, first, DaysInMonth(FullYear(year), month), filtered);
  }

  /** generateWeekView: seven consecutive days from the week's Sunday. */
  method GenerateWeekView(year: int, month: int, day: int, filtered: seq<Event>) returns (days: seq<Option<Cell>>)
    ensures days == WeekGrid(NewDate(year, month, day), filtered)
  {
    var weekStart := NewDate(year, month, day - Weekday(NewDate(year, month, day)));
    assert weekStart == WeekStart(NewDate(year, month, day)) by {
      MakeDateDays(FullYear(year), month, day, -Weekday(NewDate(year, month, day)));
    }
    days := WeekDaysFrom(weekStart, filtered);
  }

  /** The loop of generateWeekView: day i of the week is built from the
      fields of `weekStart` with `setDate(weekStart.getDate() + i)`. */
  method WeekDaysFrom(weekStart: int, filtered: seq<Event>) returns (days: seq<Option<Cell>>)
    ensures days == DaysFrom(weekStart, 7, filtered)
  {
    var ws := CivilFromDays(weekStart);
    assert MakeDate(ws.year, ws.month, ws.day) == weekStart by {
      ShiftDays(weekStart, 0);
    }
    days := [];
    var i := 0;
    while i < 7
      invariant 0 <= i <= 7
      invariant days == DaysFrom(weekStart, i, filtered)
    {
      DaysFromStep(weekStart, i, filtered);
      var currentDate := MakeDate(ws.year, ws.month, ws.day + i);
      assert currentDate == weekStart + i by {
        MakeDateDays(ws.year, ws.month, ws.day, i);
      }
      var dayEvents := EventsOn(filtered, currentDate);
      days := days + [Some(Cell(currentDate, dayEvents))];
      i := i + 1;
    }
  }

  /** The grid of a view mode: the week grid around the window's first day
      for "week", the month grid of the selected date's month, in the year
      the constructor reads, for "month" and for any other mode. */
  function Grid(selected: int, viewMode: string, filtered: seq<Event>): seq<Option<Cell>> {
    var c := CivilFromDays(selected);
    if viewMode == "week" then WeekGrid(WindowStart(selected), filtered)
    else MonthGrid(FullYear(c.year), c.month, filtered)
  }

  /** generateCalendarView: the pre-filter, then the grid of the mode. */
  function CalendarView(selected: int, viewMode: string, events: seq<Event>): seq<Option<Cell>> {
    Grid(selected, viewMode, WindowEvents(events, selected))
  }

  // ---------------------------------------------------------------------
  // What the grids promise

  /** The month grid has startingDayOfWeek + daysInMonth cells; the first
      ones are empty, as many as the weekday of the 1st; the rest are the
      days 1..daysInMonth of the month in increasing order. */
  lemma MonthGridShape(year: int, month: int, filtered: seq<Event>)
    requires 0 <= month < 12
    ensures var g := MonthGrid(year, month, filtered);
      var lead := Weekday(MakeDate(year, month, 1));
      && |g| == lead + DaysInMonth(year, month)
      && (forall i :: 0 <= i < lead ==> g[i] == None)
      && (forall i :: lead <= i < |g| ==>
            g[i].Some?
            && g[i].value.date == MakeDate(year, month, 1) + (i - lead)
            && CivilFromDays(g[i].value.date) == Civil(year, month, i - lead + 1))
  {
    var lead := Weekday(MakeDate(year, month, 1));
    var g := MonthGrid(year, month, filtered);
    forall i | 0 <= i < lead ensures g[i] == None {
      LeadThenDaysAt(lead, MakeDate(year, month, 1), DaysInMonth(year, month), filtered, i);
    }
    forall i | lead <= i < |g|
      ensures g[i].Some?
      ensures g[i].value.date == MakeDate(year, month, 1) + (i - lead)
      ensures CivilFromDays(g[i].value.date) == Civil(year, month, i - lead + 1)
    {
      LeadThenDaysAt(lead, MakeDate(year, month, 1), DaysInMonth(year, month), filtered, i);
      MonthDayCivil(year, month, i - lead);
    }
  }

  /** The slots of `LeadThenDays`: blanks first, then consecutive days. */
  lemma LeadThenDaysAt(lead: nat, first: int, len: nat, filtered: seq<Event>, i: int)
    requires 0 <= i < lead + len
    ensures |LeadThenDays(lead, first, len, filtered)| == lead + len
    ensures i < lead ==> LeadThenDays(lead, first, len, filtered)[i] == None
    ensures lead <= i ==> LeadThenDays(lead, first, len, filtered)[i] == Some(DayCell(first + (i - lead), filtered))
  {
    var b := Blanks(lead);
    var m := DaysFrom(first, len, filtered);
    if lead <= i {
      assert (b + m)[i] == m[i - lead];
    } else {
      assert (b + m)[i] == b[i];
    }
  }

  /** The day k days after the 1st of a month, within the month, reads
      back as the day k + 1 of that month. */
  lemma MonthDayCivil(year: int, month: int, k: int)
    requires 0 <= month < 12
    requires 0 <= k < DaysInMonth(year, month)
    ensures CivilFromDays(MakeDate(year, month, 1) + k) == Civil(year, month, k + 1)
  {
    assert MakeDate(year, month, 1) + k == MakeDate(year, month, k + 1);
    MakeDateCivil(year, month, k + 1);
  }

  /** The Sunday a week starts on has weekday 0. */
  lemma WeekStartSunday(n: int)
    ensures Weekday(WeekStart(n)) == 0
    ensures WeekStart(n) <= n < WeekStart(n) + 7
  {
    var q := (n + 6) / 7;
    assert n + 6 == 7 * q + Weekday(n);
    assert WeekStart(n) + 6 == 7 * q;
  }

  /** The week grid has seven cells on consecutive days; the first is a
      Sunday no later than the day the grid is built around, so that day
      is one of the seven, at the position of its weekday. */
  lemma WeekGridShape(selected: int, filtered: seq<Event>)
    ensures var g := WeekGrid(selected, filtered);
      && |g| == 7
      && (forall i :: 0 <= i < 7 ==> g[i].Some? && g[i].value.date == WeekStart(selected) + i)
      && Weekday(WeekStart(selected)) == 0
      && WeekStart(selected) <= selected < WeekStart(selected) + 7
      && g[Weekday(selected)].value.date == selected
  {
    WeekStartSunday(selected);
    var ws := WeekStart(selected);
    var g := DaysFrom(ws, 7, filtered);
    forall i | 0 <= i < 7 ensures g[i] == Some(DayCell(ws + i, filtered)) {
    }
    assert ws + Weekday(selected) == selected;
  }

  /** A filled slot of a month grid lies past the leading blanks and holds
      the day of the month it stands for. */
  lemma MonthGridAt(year: int, month: int, filtered: seq<Event>, i: int)
    requires 0 <= month < 12
    requires 0 <= i < |MonthGrid(year, month, filtered)|
    requires MonthGrid(year, month, filtered)[i].Some?
    ensures Weekday(MakeDate(year, month, 1)) <= i
    ensures MonthGrid(year, month, filtered)[i]
         == Some(DayCell(MakeDate(year, month, i - Weekday(MakeDate(year, month, 1)) + 1), filtered))
  {
    var first := MakeDate(year, month, 1);
    var lead := Weekday(first);
    var len := DaysInMonth(year, month);
    assert MonthGrid(year, month, filtered) == LeadThenDays(lead, first, len, filtered);
    LeadThenDaysAt(lead, first, len, filtered, i);
    MakeDateDays(year, month, 1, i - lead);
  }

  /** The cell at position i of a week grid is the day i of the week. */
  lemma WeekGridAt(selected: int, filtered: seq<Event>, i: int)
    requires 0 <= i < 7
    ensures |WeekGrid(selected, filtered)| == 7
    ensures WeekGrid(selected, filtered)[i] == Some(DayCell(WeekStart(selected) + i, filtered))
  {
  }

  /** Every filled cell of a grid holds the given events of its own day. */
  lemma GridCell(selected: int, viewMode: string, filtered: seq<Event>, i: int)
    requires 0 <= i < |Grid(selected, viewMode, filtered)|
    requires Grid(selected, viewMode, filtered)[i].Some?
    ensures var cell := Grid(selected, viewMode, filtered)[i].value;
      cell == DayCell(cell.date, filtered)
  {
    if viewMode == "week" {
      assert Grid(selected, viewMode, filtered) == WeekGrid(WindowStart(selected), filtered);
      WeekGridAt(WindowStart(selected), filtered, i);
    } else {
      var c := CivilFromDays(selected);
      assert Grid(selected, viewMode, filtered) == MonthGrid(FullYear(c.year), c.month, filtered);
      MonthGridAt(FullYear(c.year), c.month, filtered, i);
    }
  }

  /** Filled cells further along a grid have later dates. */
  lemma GridDatesIncrease(selected: int, viewMode: string, filtered: seq<Event>, i: int, j: int)
    requires 0 <= i < j < |Grid(selected, viewMode, filtered)|
    requires Grid(selected, viewMode, filtered)[i].Some?
    requires Grid(selected, viewMode, filtered)[j].Some?
    ensures Grid(selected, viewMode, filtered)[i].value.date < Grid(selected, viewMode, filtered)[j].value.date
  {
    if viewMode == "week" {
      assert Grid(selected, viewMode, filtered) == WeekGrid(WindowStart(selected), filtered);
      WeekGridShape(WindowStart(selected), filtered);
    } else {
      var c := CivilFromDays(selected);
      assert Grid(selected, viewMode, filtered) == MonthGrid(FullYear(c.year), c.month, filtered);
      MonthGridAt(FullYear(c.year), c.month, filtered, i);
      MonthGridAt(FullYear(c.year), c.month, filtered, j);
    }
  }

  /** Each cell of either view holds exactly the given events that start on
      its day, in input order, and only if that day is one of the seven
      days of the window. */
  lemma CellEventsExact(selected: int, viewMode: string, events: seq<Event>, i: int)
    requires 0 <= i < |CalendarView(selected, viewMode, events)|
    requires CalendarView(selected, viewMode, events)[i].Some?
    ensures var cell := CalendarView(selected, viewMode, events)[i].value;
      && cell.events == Filter(WindowEvents(events, selected), (e: Event) => e.startDay == cell.date)
      && (forall e :: e in cell.events <==>
            e in events && e.startDay == cell.date && WindowStart(selected) <= e.startDay < WindowStart(selected) + 7)
  {
    var filtered := WindowEvents(events, selected);
    GridCell(selected, viewMode, filtered, i);
    var cell := Grid(selected, viewMode, filtered)[i].value;
    EventsOnSpec(filtered, cell.date);
    WindowEventsSpec(events, selected);
  }

  /** A cell whose date lies outside the seven days of the window is
      empty, in month mode too. */
  lemma CellOutsideWindowEmpty(selected: int, viewMode: string, events: seq<Event>, i: int)
    requires 0 <= i < |CalendarView(selected, viewMode, events)|
    requires CalendarView(selected, viewMode, events)[i].Some?
    requires var d := CalendarView(selected, viewMode, events)[i].value.date;
      d < WindowStart(selected) || WindowStart(selected) + 7 <= d
    ensures CalendarView(selected, viewMode, events)[i].value.events == []
  {
    var filtered := WindowEvents(events, selected);
    var cell := CalendarView(selected, viewMode, events)[i].value;
    WindowEventsSpec(events, selected);
    CellEventsExact(selected, viewMode, events, i);
    FilterNone(filtered, (e: Event) => e.startDay == cell.date);
  }

  /** Cells of one view have distinct dates, so no event is in two cells. */
  lemma NoEventInTwoCells(selected: int, viewMode: string, events: seq<Event>, i: int, j: int, e: Event)
    requires 0 <= i < j < |CalendarView(selected, viewMode, events)|
    requires CalendarView(selected, viewMode, events)[i].Some?
    requires CalendarView(selected, viewMode, events)[j].Some?
    ensures !(e in CalendarView(selected, viewMode, events)[i].value.events
              && e in CalendarView(selected, viewMode, events)[j].value.events)
  {
    GridDatesIncrease(selected, viewMode, WindowEvents(events, selected), i, j);
    CellEventsExact(selected, viewMode, events, i);
    CellEventsExact(selected, viewMode, events, j);
  }

  /** In week mode an event starting on the window's first day (the
      selected date outside the years 0 to 99) is in the cell at that
      day's weekday and in no other cell. */
  lemma WeekShowsSelectedDayEvent(selected: int, events: seq<Event>, e: Event)
    requires e in events && e.startDay == WindowStart(selected)
    ensures var g := CalendarView(selected, "week", events);
      && e in g[Weekday(WindowStart(selected))].value.events
      && forall i :: 0 <= i < 7 && i != Weekday(WindowStart(selected)) ==> e !in g[i].value.events
  {
    var ws := WindowStart(selected);
    WeekGridShape(ws, WindowEvents(events, selected));
    forall i | 0 <= i < 7 ensures (e in CalendarView(selected, "week", events)[i].value.events) == (i == Weekday(ws)) {
      CellEventsExact(selected, "week", events, i);
    }
  }

  /** In the years 0 to 99 the constructor moves the window 1900 years on,
      so no view shows an event of the selected date. */
  lemma TwoDigitYearHidesSelectedDay(selected: int, viewMode: string, events: seq<Event>, e: Event, i: int)
    requires 0 <= CivilFromDays(selected).year <= 99
    requires e.startDay == selected
    requires 0 <= i < |CalendarView(selected, viewMode, events)|
    requires CalendarView(selected, viewMode, events)[i].Some?
    ensures e !in CalendarView(selected, viewMode, events)[i].value.events
  {
    WindowStartSpec(selected);
    CellEventsExact(selected, viewMode, events, i);
  }

  /** The window runs past the week whenever its first day is not a
      Sunday: an event six days later passes the pre-filter but is in none
      of the week's cells. */
  lemma WeekDropsLaterWindowEvent(selected: int, events: seq<Event>, e: Event)
    requires Weekday(WindowStart(selected)) != 0
    requires e in events && e.startDay == WindowStart(selected) + 6
    ensures InWindow(e, selected)
    ensures e in WindowEvents(events, selected)
    ensures forall i :: 0 <= i < 7 ==> e !in CalendarView(selected, "week", events)[i].value.events
  {
    InWindowIff(e, selected);
    WindowEventsSpec(events, selected);
    WeekGridShape(WindowStart(selected), WindowEvents(events, selected));
    forall i | 0 <= i < 7 ensures e !in CalendarView(selected, "week", events)[i].value.events {
      CellEventsExact(selected, "week", events, i);
    }
  }

  /** For any mode other than "week", `generateCalendarView` returns the
      month grid (the page's `renderView` then draws nothing for such a
      mode). */
  lemma UnknownModeIsMonth(selected: int, viewMode: string, events: seq<Event>)
    requires viewMode != "week"
    ensures CalendarView(selected, viewMode, events) == CalendarView(selected, "month", events)
  {
  }

  /** isToday: the cell's date shows the same calendar date as today. */
  function IsToday(date: int, today: int): (r: bool)
    ensures r <==> date == today
  {
    SameCivilIff(date, today);
    SameDate(date, today)
  }
}

