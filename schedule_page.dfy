/** The schedule page's state: the fetched events, the selected date and
    the view mode, and the handlers that change them. */
module SchedulePage {
  import opened Common
  import opened Dates
  import opened Calendar
  import opened Navigation

  class Schedule {
    var events: seq<Event>
    var loading: bool
    var selectedDate: int
    var viewMode: string

    /** The page on mount: no events, today selected, month mode. */
    constructor (today: int)
      ensures events == [] && !loading && selectedDate == today && viewMode == "month"
    {
      events := [];
      loading := false;
      selectedDate := today;
      viewMode := "month";
    }

    /** fetchEvents: the response's events replace the list; a failed
        request keeps the old list; loading ends false either way. */
    method FetchEvents(response: Option<seq<Event>>)
      modifies this
      ensures events == (if response.Some? then response.value else old(events))
      ensures !loading
      ensures selectedDate == old(selectedDate) && viewMode == old(viewMode)
    {
      loading := true;
      if response.Some? {
        events := response.value;
      }
      loading := false;
    }

    /** The Month and Week buttons. */
    method SetViewMode(mode: string)
      modifies this
      ensures viewMode == mode
      ensures events == old(events) && selectedDate == old(selectedDate) && loading == old(loading)
    {
      viewMode := mode;
    }

    /** goToToday sets only the selected date. */
    method GoToToday(today: int)
      modifies this
      ensures selectedDate == today
      ensures events == old(events) && viewMode == old(viewMode) && loading == old(loading)
    {
      selectedDate := today;
    }

    /** changeDate: copies the selected date and moves the copy. */
    method ChangeDate(direction: int)
      modifies this
      ensures selectedDate == Navigate(old(selectedDate), viewMode, direction)
      ensures events == old(events) && viewMode == old(viewMode) && loading == old(loading)
    {
      var c := CivilFromDays(selectedDate);
      var newDate := selectedDate;
      if viewMode == "month" {
        newDate := MakeDate(c.year, c.month + direction, c.day);
      } else if viewMode == "week" {
        newDate := MakeDate(c.year, c.month, c.day + direction * 7);
      }
      selectedDate := newDate;
    }

    /** generateCalendarView on the current state. */
    method GenerateCalendarView() returns (days: seq<Option<Cell>>)
      ensures days == CalendarView(selectedDate, viewMode, events)
    {
      var c := CivilFromDays(selectedDate);
      var selected := selectedDate;
      var filteredEvents := WindowEvents(events, selected);
      if viewMode == "month" {
        days := GenerateMonthView(c.year, c.month, filteredEvents);
      } else if viewMode == "week" {
        days := GenerateWeekView(c.year, c.month, c.day, filteredEvents);
      } else {
        days := GenerateMonthView(c.year, c.month, filteredEvents);
      }
    }
  }
}
