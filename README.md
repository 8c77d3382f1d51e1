# Smart Campus front-end: verified model of the page logic

Smart Campus is a campus-management web application. Students browse courses, enrol, follow a class schedule and take part in subject communities. Tutors build courses, sections and quizzes, and answer class requests. This project models the logic inside the React pages of its front-end: what each event handler does to the page state, and the pure computations that the pages render. The modelled pages are:

- the student schedule calendar (`SchedulePage.js`): month and week grids, event bucketing by day, and month/week navigation with JavaScript `Date` overflow;
- the tutor's "Add New Section" quiz editor (`TAddNewSection.js`);
- the tutor's class-request list (`Requests.js`): normalisation, search, accept/decline, Zoom links;
- the three-step password-reset wizard (`PasswordReset.js`) and the sign-up form (`SignUp.js`);
- the student and tutor course lists (`Subjects.js`, `TSubjects.js`): grouping by category and search;
- the student community page (`Resources.js`): community search, messages and uploaded resources;
- the tutor's course form (`TAddCourses.js`): stored form, token payload segment and base64url mapping;
- the tutor's section picker (`TAddSection.js`), notification list (`TNotification.js`) and profile page (`TProfile.js`);
- the student course-detail page (`SubjectDetails.js`): enrolment check, enrol button, star rows and the enrolled label.

Modelling choices:

- **Pages.** A page whose handlers update state in place is a `class`. Its fields are the page's state variables, and each handler is a method that states the whole new state.
- **Pure computations.** Filters, formatters and grouping are functions, with lemmas that state what they promise.
- **Backend calls.** A call to the backend is an input. `Response<T>` is either `Ok(data)` or `Failed(serverMessage)`; the optional message stands for `err.response?.data?.message`.
- **Browser storage.** A `localStorage` entry the page reads is a parameter. An entry it writes is a field.
- **Timers.** A `setTimeout` callback is a pending entry that a separate method fires.
- **Dates.** A JavaScript `Date` is a day number: day 0 is 1 January of year 0 in the proleptic Gregorian calendar.
  - `setMonth` and `setDate` are `Dates.MakeDate`: it accepts any month and day and carries the surplus into later months.
  - `new Date(y, m, d)` is `Dates.NewDate`: `Dates.MakeDate` after `Dates.FullYear`, which reads the years 0 to 99 as 1900 to 1999.
  - `getFullYear`/`getMonth`/`getDate` are `Dates.CivilFromDays`, and `getDay` is `Dates.Weekday`.
  - Dates are compared with `toDateString`, which is equality of calendar dates: `Dates.SameCivilIff`.

Module layout:

- `Common`: `Option`, the backend `Response`, `||` defaults, ASCII lower-casing, `includes`, `trim`, `split`/`join` and `filter`.
- `Dates`: the Gregorian calendar.
- `Grouping`: the `reduce`-into-an-object grouping and `Object.entries`.
- `Courses`: the course record shared by both course lists.
- One module per page.
- The schedule page is split three ways:
  - `Calendar`: the grids;
  - `Navigation`: `changeDate`;
  - `SchedulePage`: the page state.

## Model

| member | source | states |
|---|---|---|
| Common.OrElse | src/components/dashboard/tutor/Requests.js:47-48 | `x \|\| fallback` gives the fallback exactly when the value is missing, empty or the fallback itself; otherwise it gives the value |
| Common.Lower | src/components/dashboard/tutor/Requests.js:66 | `toLowerCase` keeps the length, leaves no upper-case letter, keeps every other character, and turns each upper-case letter into its lower-case form (32 code points above) |
| Common.LowerIdempotent | src/components/dashboard/tutor/Requests.js:66 | lower-casing an already lower-cased query changes nothing |
| Common.IncludesAt | src/components/dashboard/tutor/Requests.js:73-75 | `s.includes(p)` holds exactly when p occurs in s at some index |
| Common.IncludesEmpty | src/components/dashboard/tutor/TNotification.js:76-80 | every string includes the empty query |
| Common.BlankIffAllSpace | src/components/dashboard/tutor/Requests.js:117 | `s.trim()` is empty exactly when every character of s is white space |
| Common.IndexOf | src/components/dashboard/tutor/TAddCourses.js:86 | the index found holds the separator and no earlier index does; no index means there is no separator |
| Common.Split | src/components/dashboard/tutor/TProfile.js:26 | `split` yields at least one piece, and a string without the separator is one piece |
| Common.SplitCons | src/components/dashboard/tutor/TProfile.js:26 | splitting `a + c + b`, where a lacks c, gives a followed by the pieces of b |
| Common.JoinSplit | src/components/dashboard/tutor/TProfile.js:26 | joining the pieces of a split with the separator gives the string back |
| Common.JoinEmpty | src/components/dashboard/tutor/TSubjects.js:32 | a join is empty exactly for no parts or a single empty part |
| Common.FilterSpec | src/components/dashboard/tutor/TNotification.js:76-80 | `filter` keeps exactly the passing elements, as an order-preserving sub-list |
| Common.FilterAll | src/components/dashboard/student/Subjects.js:60-67 | when every element passes, `filter` returns its input |
| Common.FilterNone | src/components/dashboard/student/Subjects.js:102-105 | when no element passes, `filter` returns the empty list |
| Common.FilterAppend | src/components/dashboard/student/SchedulePage.js:64-66 | `filter` distributes over concatenation |
| Common.FilterCongruent | src/components/dashboard/student/SchedulePage.js:64-66 | filters whose predicates agree on the list give the same result |
| Common.FilterFilter | src/components/dashboard/student/SchedulePage.js:38-41 | filtering twice is filtering once with the conjunction of the two predicates |
| Dates.CivilFromDays | src/components/dashboard/student/SchedulePage.js:34-36 | the year, month (0-11) and day that `Date` reports always form a valid Gregorian date |
| Dates.DayNumberInjective | src/components/dashboard/student/SchedulePage.js:63 | distinct valid dates have distinct day numbers |
| Dates.CivilRoundTrip | src/components/dashboard/student/SchedulePage.js:78-79 | rebuilding a date from its own year, month and day gives the same day |
| Dates.DayNumberRoundTrip | src/components/dashboard/student/SchedulePage.js:63 | a valid date's day number reads back as that date |
| Dates.MakeDateCivil | src/components/dashboard/student/SchedulePage.js:63 | `MakeDate(y, m, d)` with in-range fields reads back as (y, m, d); so `new Date(y, m, d)` reads back as (`FullYear(y)`, m, d) when those fields are in range |
| Dates.SameCivilIff | src/components/dashboard/student/SchedulePage.js:65 | two days have equal `toDateString` exactly when they are the same day |
| Dates.Weekday | src/components/dashboard/student/SchedulePage.js:55 | `getDay` lies in 0..6 |
| Dates.EpochWeekday | src/components/dashboard/student/SchedulePage.js:55 | 1 January 1970 is a Thursday (4), which anchors the weekday numbering |
| Dates.June2025Weekday | src/components/dashboard/student/SchedulePage.js:55 | 10 June 2025 is a Tuesday (2) |
| Dates.LastDayOfMonth | src/components/dashboard/student/SchedulePage.js:54 | `MakeDate(y, m + 1, 0)` is the last day of month m of year y, whose length follows the Gregorian leap rule; `new Date(y, m + 1, 0)` is that day of year `FullYear(y)` |
| Dates.MakeDateDays | src/components/dashboard/student/SchedulePage.js:63 | `MakeDate(y, m, d + k)` is k days after `MakeDate(y, m, d)`, past month ends included; the same holds for `new Date`, whose year mapping ignores the day |
| Dates.ShiftDays | src/components/dashboard/student/SchedulePage.js:78-79 | `d.setDate(d.getDate() + k)` moves exactly k days |
| Dates.MakeDateMonthIndex | src/components/dashboard/student/SchedulePage.js:94 | `setMonth` depends only on `12 * year + month`, so month overflow carries into the year |
| Dates.NewDateTwoDigitYear | src/components/dashboard/student/SchedulePage.js:40 | `new Date(y, m, d)` equals `setMonth`/`setDate`'s date outside the years 0 to 99, and lies more than 1899 years later inside them |
| Dates.NewDateNotByMonthIndex | src/components/dashboard/student/SchedulePage.js:54-55 | `new Date(99, 12, 1)` is 1 January 2000 but `new Date(100, 0, 1)` is 1 January 100, so the constructor does not depend on `12 * year + month` alone |
| Dates.CivilMonthStart | src/components/dashboard/student/SchedulePage.js:92-94 | a day is the start of its month plus its day of the month, less one |
| Dates.MonthDayFields | src/components/dashboard/student/SchedulePage.js:94 | a day the target month has reads back as that month and day |
| Dates.MonthOverflowFields | src/components/dashboard/student/SchedulePage.js:94 | a day past the end of the target month reads back in the following month, shifted by the month's length |
| Calendar.WindowStartSpec | src/components/dashboard/student/SchedulePage.js:40 | `new Date(year, month, day)` from the selected date's fields is the selected date, except in the years 0 to 99, where it lies more than 1899 years later |
| Calendar.InWindowIff | src/components/dashboard/student/SchedulePage.js:38-41 | an event passes the pre-filter exactly when it starts on one of the seven days from `new Date(year, month, day)` |
| Calendar.WindowEventsSpec | src/components/dashboard/student/SchedulePage.js:38-41 | the pre-filter keeps exactly the events starting in the seven days from `new Date(year, month, day)`, in input order |
| Calendar.EventsOnSpec | src/components/dashboard/student/SchedulePage.js:64-66 | a day's events are exactly the given events that start on that day, in input order |
| Calendar.LastDateOfMonth | src/components/dashboard/student/SchedulePage.js:54 | `daysInMonth` is the Gregorian length of the month in the year the constructor reads |
| Calendar.GenerateMonthView | src/components/dashboard/student/SchedulePage.js:53-71 | the two loops build `weekday(1st)` empty slots, then one cell per day of the month: the month grid of the year the constructor reads |
| Calendar.GenerateWeekView | src/components/dashboard/student/SchedulePage.js:73-89 | the loop builds the cells of the seven days from the Sunday on or before `new Date(year, month, day)` |
| Calendar.WeekDaysFrom | src/components/dashboard/student/SchedulePage.js:77-86 | day i of the loop is the week's start plus i days |
| Calendar.MonthGridShape | src/components/dashboard/student/SchedulePage.js:54-70 | the month grid has `startingDayOfWeek + daysInMonth` cells; the first `weekday(1st)` are empty; the rest are days 1..daysInMonth of the month in order |
| Calendar.LeadThenDaysAt | src/components/dashboard/student/SchedulePage.js:58-68 | the blanks come first, then consecutive days |
| Calendar.MonthDayCivil | src/components/dashboard/student/SchedulePage.js:62-63 | the day k days after the 1st, within the month, reads as day k + 1 of that month |
| Calendar.WeekStartSunday | src/components/dashboard/student/SchedulePage.js:74 | the week starts on a Sunday at most six days before the given day |
| Calendar.WeekGridShape | src/components/dashboard/student/SchedulePage.js:74-88 | the week grid has seven cells on consecutive days; the first is a Sunday; the day it is built around is the cell at its weekday |
| Calendar.MonthGridAt | src/components/dashboard/student/SchedulePage.js:62-67 | a filled month slot lies past the blanks and holds its day's cell |
| Calendar.WeekGridAt | src/components/dashboard/student/SchedulePage.js:77-85 | slot i of the week grid is day i of the week |
| Calendar.GridCell | src/components/dashboard/student/SchedulePage.js:43-50 | in either mode every filled cell holds the events of its own day |
| Calendar.GridDatesIncrease | src/components/dashboard/student/SchedulePage.js:62-68 | filled cells further along a grid have later dates |
| Calendar.CellEventsExact | src/components/dashboard/student/SchedulePage.js:38-41 | a cell's events are exactly the events starting on its day within the seven-day window, in input order |
| Calendar.CellOutsideWindowEmpty | src/components/dashboard/student/SchedulePage.js:38-45 | a cell outside the seven days of the window is empty, in month mode too |
| Calendar.NoEventInTwoCells | src/components/dashboard/student/SchedulePage.js:64-66 | no event appears in two cells of one view |
| Calendar.WeekShowsSelectedDayEvent | src/components/dashboard/student/SchedulePage.js:74-83 | in week mode an event of the window's first day (the selected day outside the years 0 to 99) is in the cell at its weekday and in no other |
| Calendar.TwoDigitYearHidesSelectedDay | src/components/dashboard/student/SchedulePage.js:38-45 | for a selected date in the years 0 to 99, no cell of either view holds an event of that date |
| Calendar.WeekDropsLaterWindowEvent | src/components/dashboard/student/SchedulePage.js:38-41 | unless the window's first day is a Sunday, an event six days after it passes the pre-filter yet appears in no week cell |
| Calendar.UnknownModeIsMonth | src/components/dashboard/student/SchedulePage.js:48-49 | for any mode other than "week", `generateCalendarView` returns the month grid |
| Calendar.IsToday | src/components/dashboard/student/SchedulePage.js:101-104 | a cell is today's exactly when it is the same day as today |
| Navigation.NavigateWeek | src/components/dashboard/student/SchedulePage.js:95-97 | in week mode `changeDate(d)` moves exactly 7·d days |
| Navigation.NavigateWeekRoundTrip | src/components/dashboard/student/SchedulePage.js:95-97 | next week then previous week restores the date |
| Navigation.NavigateMonthStart | src/components/dashboard/student/SchedulePage.js:93-94 | month mode builds the date from the moved month index and the kept day |
| Navigation.NavigateMonth | src/components/dashboard/student/SchedulePage.js:93-94 | in month mode the month moves by d and keeps the day if the target month has it; otherwise the surplus days run into the following month |
| Navigation.NavigateMonthTo | src/components/dashboard/student/SchedulePage.js:93-94 | the target is `day - 1` days after the start of the target month |
| Navigation.NavigateMonthForward | src/components/dashboard/student/SchedulePage.js:93-94 | one month forward from a day the next month has lands on that day of the next month |
| Navigation.NavigateMonthBack | src/components/dashboard/student/SchedulePage.js:93-94 | one month back from the same day of the following month returns the original date |
| Navigation.NavigateMonthRoundTrip | src/components/dashboard/student/SchedulePage.js:93-94 | next month then previous month restores the date whenever the next month has its day |
| Navigation.JanuaryThirtyFirstForward | src/components/dashboard/student/SchedulePage.js:93-94 | in a common year 31 January plus one month is 3 March |
| Navigation.MarchThirdBack | src/components/dashboard/student/SchedulePage.js:93-94 | 3 March minus one month is 3 February |
| Navigation.NavigateMonthOverflow | src/components/dashboard/student/SchedulePage.js:93-94 | the month round trip from 31 January of a common year ends on 3 February, not where it started |
| SchedulePage.Schedule.constructor | src/components/dashboard/student/SchedulePage.js:7-10 | the page starts with no events, not loading, today selected, month mode |
| SchedulePage.Schedule.FetchEvents | src/components/dashboard/student/SchedulePage.js:17-27 | the fetched events replace the list; a failure keeps it; loading ends false |
| SchedulePage.Schedule.SetViewMode | src/components/dashboard/student/SchedulePage.js:183-189 | the Month and Week buttons set only the view mode |
| SchedulePage.Schedule.GoToToday | src/components/dashboard/student/SchedulePage.js:29-31 | `goToToday` sets only the selected date |
| SchedulePage.Schedule.ChangeDate | src/components/dashboard/student/SchedulePage.js:91-99 | the selected date moves as `Navigation.Navigate` says and nothing else changes |
| SchedulePage.Schedule.GenerateCalendarView | src/components/dashboard/student/SchedulePage.js:33-51 | the view is the grid of the current mode over the pre-filtered events |
| TAddNewSection.RemoveAt | src/components/dashboard/tutor/TAddNewSection.js:59-62 | `filter((_, i) => i !== index)` drops exactly the element at index, keeps the others in order, and changes nothing for an index out of range |
| TAddNewSection.WithQuestionText | src/components/dashboard/tutor/TAddNewSection.js:25-29 | only the text of question `index` changes |
| TAddNewSection.WithOptions | src/components/dashboard/tutor/TAddNewSection.js:70-73 | only the options of question q are replaced |
| TAddNewSection.WithOptionText | src/components/dashboard/tutor/TAddNewSection.js:31-35 | only the text of option o of question q changes |
| TAddNewSection.ToggleCorrect | src/components/dashboard/tutor/TAddNewSection.js:37-42 | only `isCorrect` of option o of question q flips |
| TAddNewSection.WithOptionAdded | src/components/dashboard/tutor/TAddNewSection.js:64-68 | question q gains one empty, incorrect option at the end; nothing else changes |
| TAddNewSection.WithOptionRemoved | src/components/dashboard/tutor/TAddNewSection.js:70-74 | question q loses exactly option o; nothing else changes |
| TAddNewSection.ToggleTwice | src/components/dashboard/tutor/TAddNewSection.js:37-42 | toggling the same option twice restores the quiz |
| TAddNewSection.BlankQuestionInvalid | src/components/dashboard/tutor/TAddNewSection.js:44-57 | a new question has no correct option, so the initial quiz and any quiz after `addQuestion` fail the submit check |
| TAddNewSection.RemoveQuestionKeepsValid | src/components/dashboard/tutor/TAddNewSection.js:59-62 | removing a question keeps a quiz that passes the check passing |
| TAddNewSection.ToggleOnValid | src/components/dashboard/tutor/TAddNewSection.js:37-42 | marking an option correct makes its question pass; a passing quiz keeps passing |
| TAddNewSection.ToggleOffOnlyCorrect | src/components/dashboard/tutor/TAddNewSection.js:37-42 | unmarking a question's only correct option makes the quiz fail the check |
| TAddNewSection.EditsKeepNonEmpty | src/components/dashboard/tutor/TAddNewSection.js:225-271 | with the remove buttons shown only for `quiz.length > 1` and `options.length > 1`, every edit keeps the quiz and each option list non-empty |
| TAddNewSection.SectionForm.constructor | src/components/dashboard/tutor/TAddNewSection.js:8-23 | one question with empty text and four empty, incorrect options; the quiz cannot yet be submitted |
| TAddNewSection.SectionForm.SetSectionName | src/components/dashboard/tutor/TAddNewSection.js:188 | the name input sets only the section name |
| TAddNewSection.SectionForm.HandleQuizChange | src/components/dashboard/tutor/TAddNewSection.js:25-29 | the quiz becomes `WithQuestionText` of the old quiz; nothing else changes |
| TAddNewSection.SectionForm.HandleOptionChange | src/components/dashboard/tutor/TAddNewSection.js:31-35 | the quiz becomes `WithOptionText` of the old quiz; nothing else changes |
| TAddNewSection.SectionForm.HandleCorrectOptionChange | src/components/dashboard/tutor/TAddNewSection.js:37-42 | the quiz becomes `ToggleCorrect` of the old quiz; nothing else changes |
| TAddNewSection.SectionForm.AddQuestion | src/components/dashboard/tutor/TAddNewSection.js:44-57 | a blank question is appended; earlier questions are unchanged |
| TAddNewSection.SectionForm.RemoveQuestion | src/components/dashboard/tutor/TAddNewSection.js:59-62 | exactly question `index` is removed |
| TAddNewSection.SectionForm.AddOption | src/components/dashboard/tutor/TAddNewSection.js:64-68 | question q gains one blank option |
| TAddNewSection.SectionForm.RemoveOption | src/components/dashboard/tutor/TAddNewSection.js:70-74 | question q loses option o |
| TAddNewSection.SectionForm.HandleVideoUpload | src/components/dashboard/tutor/TAddNewSection.js:76-102 | without a file nothing changes; otherwise the URL and a success message, or a failure message; loading ends false |
| TAddNewSection.SectionForm.HandleSubmit | src/components/dashboard/tutor/TAddNewSection.js:104-142 | nothing is sent unless every question has a correct option, otherwise the check's message; the body is name, video and quiz; the server's message or the default after the call; loading ends false |
| Requests.FormatRequest | src/components/dashboard/tutor/Requests.js:39-51 | `isNew` exactly when the status is "Pending"; `zoomLink` and `notes` default to ""; the other fields are copied |
| Requests.SearchSpec | src/components/dashboard/tutor/Requests.js:65-77 | the search keeps exactly the requests whose email, name (when present) or topic contains the query, as an order-preserving sub-list; the empty query keeps all |
| Requests.SetStatus | src/components/dashboard/tutor/Requests.js:94-96 | only requests with the id get the new status and lose `isNew`; the length and all other requests are unchanged |
| Requests.SetZoomLink | src/components/dashboard/tutor/Requests.js:135-137 | only the current request's `zoomLink` changes |
| Requests.SetStatusIdempotent | src/components/dashboard/tutor/Requests.js:94-96 | repeating the same action changes nothing more |
| Requests.SetStatusCommutes | src/components/dashboard/tutor/Requests.js:94-96 | actions on two different ids commute |
| Requests.ActionsForSpec | src/components/dashboard/tutor/Requests.js:263-286 | Accept and Decline exactly for pending requests; the Zoom-link button exactly for accepted ones, reading "Update Zoom Link" exactly when a link is set |
| Requests.ActionsAfterHandling | src/components/dashboard/tutor/Requests.js:94-96 | an accepted request loses Accept and gains the Zoom-link button; a declined one keeps only View Details |
| Requests.RequestsPage.constructor | src/components/dashboard/tutor/Requests.js:6-14 | the initial state, with the search view consistent with the list |
| Requests.RequestsPage.FetchRequests | src/components/dashboard/tutor/Requests.js:20-64 | with no token only "Unauthorized: No token found." and nothing sent; otherwise the formatted list in both `requests` and `filteredRequests`, or the "No class requests found" or failure message; loading ends false |
| Requests.RequestsPage.HandleSearchChange | src/components/dashboard/tutor/Requests.js:65-77 | the lower-cased query, and the search view recomputed from the full list |
| Requests.RequestsPage.HandleAction | src/components/dashboard/tutor/Requests.js:80-114 | on success the list becomes `SetStatus`, the search view is recomputed with the current query and a reload follows; on failure an alert and no change |
| Requests.RequestsPage.OpenZoomModal | src/components/dashboard/tutor/Requests.js:164-168 | the modal opens on the request, pre-filled with its link |
| Requests.RequestsPage.SetZoomLinkInput | src/components/dashboard/tutor/Requests.js:376 | the input sets only the link being typed |
| Requests.RequestsPage.CancelZoomModal | src/components/dashboard/tutor/Requests.js:381-385 | Cancel closes the modal and clears the link and current id, leaving the requests untouched |
| Requests.RequestsPage.HandleAddZoomLink | src/components/dashboard/tutor/Requests.js:116-162 | a blank link gives an alert and no change; a save sets only the current request's link, recomputes the search view, closes and clears the modal and reloads; a failure only alerts |
| Requests.ReloadIgnoresQuery | src/components/dashboard/tutor/Requests.js:53-54 | the reload after an action shows the whole list even while a query filters some request out |
| PasswordReset.WithFieldFrame | src/components/PasswordReset.js:30-36 | `handleChange` sets the named field and no other |
| PasswordReset.RequestGuard | src/components/PasswordReset.js:46-54 | "Email is required." exactly for method "email" with an empty email; "Phone number is required." exactly for "phone" with an empty phone; otherwise no error |
| PasswordReset.CodeGuard | src/components/PasswordReset.js:88-91 | an empty code, and only that, gives "Verification code is required." |
| PasswordReset.ResetGuard | src/components/PasswordReset.js:126-134 | "All fields are required." exactly when a password is empty; "Passwords do not match." exactly when both are filled and differ |
| PasswordReset.MissingBeforeMismatch | src/components/PasswordReset.js:126-134 | a missing password is reported as missing even though the two differ |
| PasswordReset.ResetWizard.constructor | src/components/PasswordReset.js:14-26 | step 1, "Student", e-mail method, empty form, nothing pending |
| PasswordReset.ResetWizard.SelectTab | src/components/PasswordReset.js:180 | the account-type tabs change only the account type, never the step |
| PasswordReset.ResetWizard.HandleMethodChange | src/components/PasswordReset.js:38-40 | only the verification method changes |
| PasswordReset.ResetWizard.HandleChange | src/components/PasswordReset.js:30-36 | only the named form field changes |
| PasswordReset.ResetWizard.HandleRequestVerification | src/components/PasswordReset.js:42-83 | a failed guard sets its message and sends nothing; otherwise the request, then a success message and a pending move to step 2, or the server's message or the method's default; loading ends false; the step does not change yet |
| PasswordReset.ResetWizard.HandleVerifyCode | src/components/PasswordReset.js:85-121 | the same for step 2, with a pending move to step 3 or "Invalid verification code." |
| PasswordReset.ResetWizard.HandleResetPassword | src/components/PasswordReset.js:123-165 | the same for step 3, with a pending redirect to login or "Failed to reset password." |
| PasswordReset.ResetWizard.Back | src/components/PasswordReset.js:292 | Back goes from step 2 to 1, and the step-3 Back button (line 348) from 3 to 2 |
| PasswordReset.ResetWizard.TimerFires | src/components/PasswordReset.js:72-75 | the oldest pending callback clears the message and moves to its step, or asks for the login route (the same callbacks at lines 110-113 and 154-157) |
| PasswordReset.BackThenTimer | src/components/PasswordReset.js:72-75 | going Back (line 292) while a move to step 2 is pending does not stay: the callback brings the wizard to step 2 |
| SignUp.WithFieldFrame | src/components/SignUp.js:38-44 | `handleChange` sets the named field and no other |
| SignUp.SignUpGuard | src/components/SignUp.js:49-56 | "All fields are required." exactly when some field is unset; "Passwords do not match." exactly when all are set and the passwords differ; otherwise no error |
| SignUp.BuildPayload | src/components/SignUp.js:62-67 | first name, last name, e-mail, password and account type in `append` order, and never `confirmPassword` |
| SignUp.LectureTabIsTutor | src/components/SignUp.js:9-22 | the "Lecture" tab selects "Tutor", and every tab selects Student or Tutor |
| SignUp.SignUpPage.constructor | src/components/SignUp.js:22-34 | the default account type is "Tutor" and all fields are empty |
| SignUp.SignUpPage.SelectTab | src/components/SignUp.js:117 | a tab sets only the account type |
| SignUp.SignUpPage.HandleChange | src/components/SignUp.js:38-44 | only the named field changes, to `NewValue` |
| SignUp.SignUpPage.HandleSubmit | src/components/SignUp.js:46-102 | a failed check sets its message and sends nothing; otherwise the payload, then success with a pending redirect or the server's message or the default; loading ends false |
| SignUp.SignUpPage.RedirectFires | src/components/SignUp.js:89-92 | the delayed callback clears the message and leaves for home |
| Subjects.FormatIdIdempotent | src/components/dashboard/student/Subjects.js:38 | the displayed id is the `$oid` string whenever it is usable, and formatting an already formatted id leaves it unchanged |
| Subjects.FormatSubjectFields | src/components/dashboard/student/Subjects.js:37-43 | the title is copied; the description defaults to "No description available."; the thumbnail to ""; tags only from an array, else [] |
| Subjects.CategorizeSpec | src/components/dashboard/student/Subjects.js:20-45 | grouping fails exactly when some course's category is an inherited property name; otherwise one category per distinct key, in first-occurrence order, each holding its courses formatted in input order, and the sizes add up to the number of courses |
| Subjects.ConstructorCategoryThrows | src/components/dashboard/student/Subjects.js:29-30 | a course filed under "constructor" makes the `push` throw, so nothing is grouped |
| Subjects.EmptyStringCategory | src/components/dashboard/student/Subjects.js:22-27 | a string category is the key even when empty, so it is not "Uncategorized" |
| Subjects.FilterSubjectsSpec | src/components/dashboard/student/Subjects.js:60-67 | keeps exactly the subjects whose title, description or some tag contains the query, in order; the empty query keeps all |
| Subjects.RenderedSpec | src/components/dashboard/student/Subjects.js:102-105 | a category is rendered, with its matching subjects, exactly when it has one, and nothing else is rendered: every rendered entry is an input category narrowed to its matching subjects, in input order |
| Subjects.SubjectsPage.constructor | src/components/dashboard/student/Subjects.js:7-8 | no categories and an empty query |
| Subjects.SubjectsPage.FetchCourses | src/components/dashboard/student/Subjects.js:13-51 | on success the categories are the grouped, formatted courses; a failed request or a throwing reduce keeps them |
| Subjects.SubjectsPage.HandleSearchChange | src/components/dashboard/student/Subjects.js:56-58 | the query is the lower-cased input |
| Grouping.KeysSpec | src/components/dashboard/student/Subjects.js:29 | the group keys are distinct and are exactly the keys of the courses |
| Grouping.KeysSnoc | src/components/dashboard/student/Subjects.js:29 | a course with a new key adds that key at the end |
| Grouping.GroupSnoc | src/components/dashboard/student/Subjects.js:30 | a course is pushed onto the end of its own group only |
| Grouping.GroupMapSnoc | src/components/dashboard/student/Subjects.js:29-30 | `if (!acc[k]) acc[k] = []; acc[k].push(course)` turns the accumulator of a prefix into the accumulator of the prefix one course longer |
| Grouping.GroupBy | src/components/dashboard/student/Subjects.js:20-32 | the `reduce` loop throws exactly when some key is a property name every object inherits (`constructor`, `toString`, …); otherwise it builds one entry per key, in first-occurrence order, holding that key's courses in input order |
| Grouping.GroupEntries | src/components/dashboard/student/Subjects.js:34 | `Object.entries` of the object lists the keys in insertion order with their groups; no entries when the reduce threw |
| Grouping.GroupMembership | src/components/dashboard/tutor/TSubjects.js:17-22 | a group holds exactly the courses of its key, as an order-preserving sub-list |
| Grouping.GroupsPartition | src/components/dashboard/tutor/TSubjects.js:17-22 | the group sizes add up to the number of courses, so each course is in exactly one group |
| TSubjects.FormatAllSpec | src/components/dashboard/tutor/TSubjects.js:27-33 | formatting succeeds exactly when no course has a tag value that is neither missing nor an array |
| TSubjects.FormatTagsSpec | src/components/dashboard/tutor/TSubjects.js:32 | tags are joined with ", "; a missing or empty tag array gives "No tags available."; another value throws |
| TSubjects.CategorizeFromSpec | src/components/dashboard/tutor/TSubjects.js:24-35 | each entry becomes a category holding its formatted courses |
| TSubjects.CategorizeSpec | src/components/dashboard/tutor/TSubjects.js:17-35 | with well-formed tags, grouping succeeds exactly when no category name is an inherited property name; then one category per distinct key, in first-occurrence order, each with its courses formatted, and the sizes add up to the number of courses |
| TSubjects.CategorizeTagThrows | src/components/dashboard/tutor/TSubjects.js:32 | one course whose tag value is not an array makes the whole list fail |
| TSubjects.ToStringCategoryThrows | src/components/dashboard/tutor/TSubjects.js:19-20 | a category named "toString" makes the `push` throw, so nothing is grouped |
| TSubjects.StringCategoryUncategorized | src/components/dashboard/tutor/TSubjects.js:18 | a string category has no `name`, so it is filed under "Uncategorized" |
| TSubjects.FilterSubjectsSpec | src/components/dashboard/tutor/TSubjects.js:50-56 | keeps exactly the subjects whose title, description or joined tags contain the query, in order; the empty query keeps all |
| TSubjects.PlaceholderMatches | src/components/dashboard/tutor/TSubjects.js:50-56 | the query "tags" matches a course without tags, through its placeholder text (line 32) |
| TSubjects.ShowsThumbnailSpec | src/components/dashboard/tutor/TSubjects.js:129 | the image shows exactly for a non-empty thumbnail other than "No thumbnail available.", the placeholder of line 31 |
| TSubjects.RenderedSpec | src/components/dashboard/tutor/TSubjects.js:95-98 | a category is rendered, with its matching subjects, exactly when it has one, and nothing else is rendered: every rendered entry is an input category narrowed to its matching subjects, in input order |
| TSubjects.TSubjectsPage.constructor | src/components/dashboard/tutor/TSubjects.js:7-8 | no categories and an empty query |
| TSubjects.TSubjectsPage.FetchCourses | src/components/dashboard/tutor/TSubjects.js:12-41 | the grouped, formatted courses on success; a failed call, a throwing reduce or a throwing format keeps the list |
| TSubjects.TSubjectsPage.HandleSearchChange | src/components/dashboard/tutor/TSubjects.js:46-48 | the query is the lower-cased input |
| Resources.NumberedIdsDistinct | src/components/dashboard/student/Resources.js:97 | ids numbered 1, 2, 3, … are distinct |
| Resources.SampleResourcesNumbered | src/components/dashboard/student/Resources.js:37-56 | every sample resource list is numbered from 1 |
| Resources.UploadKeepsNumbered | src/components/dashboard/student/Resources.js:96-105 | appending the upload keeps the list numbered |
| Resources.FilterCommunitiesSpec | src/components/dashboard/student/Resources.js:114-116 | keeps exactly the communities whose lower-cased name contains the query, in order; the empty query keeps all |
| Resources.CommunityPage.constructor | src/components/dashboard/student/Resources.js:59-67 | the initial state, with the resource list numbered |
| Resources.CommunityPage.HandleSelectCommunity | src/components/dashboard/student/Resources.js:69-74 | the subject's sample messages and resources (empty when unknown), back on the discussions tab |
| Resources.CommunityPage.HandleSendMessage | src/components/dashboard/student/Resources.js:76-90 | blank content changes nothing; otherwise exactly one message from "Current Student" is appended, earlier ones are kept and the input is cleared |
| Resources.CommunityPage.HandleUploadFile | src/components/dashboard/student/Resources.js:92-108 | a blank name changes nothing; otherwise the new resource is appended, the name is cleared and the form closes; ids stay numbered |
| Resources.CommunityPage.HandleSearchChange | src/components/dashboard/student/Resources.js:110-112 | the query is the lower-cased input |
| Resources.CommunityPage.SetActiveTab | src/components/dashboard/student/Resources.js:205-216 | the tab buttons set only the active tab |
| Resources.CommunityPage.ToggleUploadForm | src/components/dashboard/student/Resources.js:274 | the upload button flips whether the form is open |
| Resources.CommunityPage.CancelUpload | src/components/dashboard/student/Resources.js:311 | Cancel closes the upload form |
| Resources.CommunityPage.SetMessageContent | src/components/dashboard/student/Resources.js:257 | the message box sets only the content |
| Resources.CommunityPage.SetNewFileName | src/components/dashboard/student/Resources.js:293 | the file-name input sets only the name |
| Resources.CommunityPage.SetNewFileType | src/components/dashboard/student/Resources.js:302 | the file-type select sets only the type |
| TAddCourses.BlankForm | src/components/dashboard/tutor/TAddCourses.js:103-112 | the reset form: seven empty text fields, status "Draft" and no `courseContent` |
| TAddCourses.InitialFormSpec | src/components/dashboard/tutor/TAddCourses.js:10-27 | a saved form wins; otherwise the empty fields, status "Draft" and `courseContent` holding the stored section, or empty |
| TAddCourses.WithFieldFrame | src/components/dashboard/tutor/TAddCourses.js:37-43 | `handleChange` sets the named field and no other |
| TAddCourses.PayloadSegment | src/components/dashboard/tutor/TAddCourses.js:86 | a token without '.' has no second segment |
| TAddCourses.PayloadSegmentOfToken | src/components/dashboard/tutor/TAddCourses.js:86 | the second segment of `header.payload.signature` is the payload (section 7.1 of RFC 7515) |
| TAddCourses.ReplaceAll | src/components/dashboard/tutor/TAddCourses.js:87 | `replace(/x/g, y)` keeps the length |
| TAddCourses.ToStandardBase64Spec | src/components/dashboard/tutor/TAddCourses.js:87 | every '-' becomes '+' and every '_' becomes '/'; other characters and the length are kept (section 5 to section 4 of RFC 4648) |
| TAddCourses.Base64RoundTrip | src/components/dashboard/tutor/TAddCourses.js:87 | on base64url text the mapping is undone by the reverse mapping, and the other way round |
| TAddCourses.CourseForm.constructor | src/components/dashboard/tutor/TAddCourses.js:10-35 | the initial form, which the storage effect writes back |
| TAddCourses.CourseForm.HandleChange | src/components/dashboard/tutor/TAddCourses.js:33-43 | the named field changes and the stored copy follows |
| TAddCourses.CourseForm.UploadThumbnail | src/components/dashboard/tutor/TAddCourses.js:45-74 | without a file nothing changes; otherwise the thumbnail URL and a success message, or a failure message; uploading ends false |
| TAddCourses.Body | src/components/dashboard/tutor/TAddCourses.js:93 | `{ ...formData, tutor: userId }` keeps every other field of the form and sets `tutor` to the id, or to `undefined` when the payload has no `id` |
| TAddCourses.CourseForm.HandleSubmit | src/components/dashboard/tutor/TAddCourses.js:76-117 | a missing token sets its message and sends nothing; a token without a payload segment, or whose payload does not decode, ends in "An error occurred." and sends nothing; otherwise the body is the form with `tutor` set to the payload's `id`, or left out when the payload has none; status 201 shows the success message, resets the form to the blank form and clears the stored section, and the storage effect then writes the blank form back as the stored form |
| TAddCourses.ReloadAfterSuccess | src/components/dashboard/tutor/TAddCourses.js:99-113 | after a successful submit the next visit starts from the blank form, without `courseContent` |
| TAddSection.FilterSectionsSpec | src/components/dashboard/tutor/TAddSection.js:55-63 | keeps exactly the sections whose lower-cased name contains the query, in order; the empty query keeps all |
| TAddSection.SectionPicker.constructor | src/components/dashboard/tutor/TAddSection.js:7-11 | empty lists, no selection, no message |
| TAddSection.SectionPicker.FetchSections | src/components/dashboard/tutor/TAddSection.js:14-47 | with no token only the error and nothing sent; status 200 fills both lists; a failure gives the server's message or the default |
| TAddSection.SectionPicker.HandleSelectSection | src/components/dashboard/tutor/TAddSection.js:50-52 | only the selection changes |
| TAddSection.SectionPicker.HandleSearchChange | src/components/dashboard/tutor/TAddSection.js:55-63 | the lower-cased term, and the full list filtered by it |
| TAddSection.SectionPicker.HandleConfirmSelection | src/components/dashboard/tutor/TAddSection.js:66-77 | no selection gives "Please select a section first." with nothing stored; otherwise the id is stored and the page moves on |
| TAddSection.SearchForgetsEarlierTerm | src/components/dashboard/tutor/TAddSection.js:59-62 | a second search filters the full list, not the previous result |
| TAddSection.ConfirmThenAddCourse | src/components/dashboard/tutor/TAddSection.js:72 | the confirmed section becomes the course content of a first visit to the course form |
| TNotification.FilterNotificationsSpec | src/components/dashboard/tutor/TNotification.js:76-80 | keeps exactly the notifications whose message or status contains the query, in order; the empty query keeps all |
| TNotification.StatusQueryKeepsStatus | src/components/dashboard/tutor/TNotification.js:79 | a notification whose status contains the query is kept whatever its message |
| TNotification.NotificationPage.constructor | src/components/dashboard/tutor/TNotification.js:36-39 | no notifications, loading, no error, empty query |
| TNotification.NotificationPage.FetchNotifications | src/components/dashboard/tutor/TNotification.js:46-68 | with no token "Unauthorized: No token found." and nothing sent; otherwise the list or the failure message; loading ends false either way |
| TNotification.NotificationPage.HandleSearchChange | src/components/dashboard/tutor/TNotification.js:71-73 | the query is the lower-cased input |
| TNotification.NotificationPage.Body | src/components/dashboard/tutor/TNotification.js:117-148 | spinner exactly while loading; the error, else the matching list, else "No Notifications Found" with the hint exactly when a query is typed |
| TNotification.FetchNeverLeavesSpinner | src/components/dashboard/tutor/TNotification.js:46-68 | after any fetch the spinner is gone; a missing token shows its error |
| TProfile.NamePartsSpec | src/components/dashboard/tutor/TProfile.js:26 | a two-word name gives its two words; later words are dropped; a missing name gives "" and ""; a one-word name leaves the last name undefined |
| TProfile.FormFromProfile | src/components/dashboard/tutor/TProfile.js:25-28 | the e-mail is copied and the bio defaults to "" |
| TProfile.FormNameRoundTrip | src/components/dashboard/tutor/TProfile.js:26 | joining the two name fields with a space gives back a two-word name |
| TProfile.ProfilePage.constructor | src/components/dashboard/tutor/TProfile.js:6-10 | no profile, empty form and passwords, not loading, no error |
| TProfile.ProfilePage.FetchProfile | src/components/dashboard/tutor/TProfile.js:17-35 | a profile fills the form; an empty answer keeps it; a failure gives "Failed to load profile data."; loading ends false |
| TProfile.ProfilePage.EditFirstName | src/components/dashboard/tutor/TProfile.js:150 | only the first name changes |
| TProfile.ProfilePage.EditLastName | src/components/dashboard/tutor/TProfile.js:160 | only the last name changes |
| TProfile.ProfilePage.EditBio | src/components/dashboard/tutor/TProfile.js:169 | only the bio changes |
| TProfile.ProfilePage.UpdateProfile | src/components/dashboard/tutor/TProfile.js:38-55 | the form is sent; a non-empty answer alerts and reloads; a failure gives "Failed to update profile."; loading ends false |
| TProfile.ProfilePage.UpdatePassword | src/components/dashboard/tutor/TProfile.js:58-76 | mismatching new passwords alert and change nothing, not even loading; otherwise the data is sent, cleared on success, or "Failed to update password."; loading ends false |
| TProfile.UpdateThenReload | src/components/dashboard/tutor/TProfile.js:46-54 | an update followed by its reload ends not loading, with the form showing the reloaded profile |
| SubjectDetails.EnrolledSpec | src/components/dashboard/student/SubjectDetails.js:69-70 | enrolled exactly when some reference has the route id as its non-empty `_id`, or has no usable `_id` and the route id as its `$oid` |
| SubjectDetails.UnderscoreIdWins | src/components/dashboard/student/SubjectDetails.js:69 | a non-empty `_id` hides the `$oid` |
| SubjectDetails.StarsSpec | src/components/dashboard/student/SubjectDetails.js:264-266 | the filled stars come first, and there are as many as the rating, bounded by 0 and 5 |
| SubjectDetails.DigitsOnly | src/components/dashboard/student/SubjectDetails.js:189 | the count is written in decimal digits |
| SubjectDetails.EnrolledLabelSpec | src/components/dashboard/student/SubjectDetails.js:188-190 | "1 student" without "s"; "n students" for n > 1; "No students enrolled." exactly for a missing or empty list |
| SubjectDetails.CoursePage.constructor | src/components/dashboard/student/SubjectDetails.js:20-21 | not enrolled, check running, modal closed |
| SubjectDetails.CoursePage.CheckEnrollment | src/components/dashboard/student/SubjectDetails.js:63-76 | enrolled exactly when the route id is among the profile's course ids; a failure keeps the flag; the check ends either way |
| SubjectDetails.CoursePage.HandleEnroll | src/components/dashboard/student/SubjectDetails.js:83-100 | success marks the student enrolled; a failure only alerts the server's message or the default |
| SubjectDetails.CoursePage.ShownButton | src/components/dashboard/student/SubjectDetails.js:281-302 | "Checking Enrollment..." exactly while checking; then "Request to Class" exactly when enrolled, else "Enroll in Course" |
| SubjectDetails.CoursePage.PressButton | src/components/dashboard/student/SubjectDetails.js:281-302 | the disabled button does nothing; "Request to Class" opens the form; "Enroll in Course" enrols and then shows "Request to Class", or alerts and stays |

## Left out

- Backend calls (axios and `fetch`, including the Cloudinary uploads) are not modelled. Each is an input `Response` value, so overlapping requests and the order in which answers arrive are not modelled either.
- Browser storage is not modelled. The login token, stored forms and stored section are inputs, and the entries a page writes are fields.
- `JSON.parse` and `atob` are not modelled. In `TAddCourses.CourseForm.HandleSubmit`, decoding the payload and reading its `id` claim is the function parameter `decodeId`: None when decoding throws, `Some(None)` when the payload has no `id` (the post then carries `tutor: undefined`, which the JSON body leaves out), and otherwise the id as a string.
- Routing is not modelled. `navigate(...)` is reported as a flag or left out, and so are the "Add New Course" button of `TSubjects.js` (lines 58-60), the redirect button of `TAddCourses.js` (lines 119-121) and the back button of `TAddNewSection.js` (line 157).
- `setTimeout` delays are not timed. A scheduled callback is a pending entry that `PasswordReset.ResetWizard.TimerFires` or `SignUp.SignUpPage.RedirectFires` runs.
- Parsing of event `start` strings, time zones and daylight-saving time are not modelled. An event arrives already read as a local day and a minute of that day.
- The time of day of the selected date is not modelled, because no view depends on it. The range limit of JavaScript `Date` (±10^8 days) is not modelled: day numbers are unbounded integers.
- Locale formatting (`toLocaleDateString`, `toLocaleTimeString`) is not modelled. The formatted text is an input: for example `timeString` and `date` in `Resources.js`, and the `time` and `createdAt` text of a request.
- Common.Lower: `toLowerCase` is ASCII lower-casing only; Unicode case mapping is not modelled.
- Grouping.GroupEntries: `Object.entries` lists keys in insertion order. JavaScript moves integer-like keys ("1", "42") to the front in numeric order; that reordering is not modelled.
- The `TAddNewSection.js` handlers copy the quiz shallowly and then assign nested objects in place, so the previous React state is also mutated. The model treats each edit as producing a new value, and that aliasing is not modelled.
- The request-details modal of `Requests.js` (lines 297-362, `setSelectedRequest`) is presentation only and is not modelled.
- Disabled buttons are not modelled: the submit buttons while `loading` is set, the submit button of `TAddNewSection.js` while no video is uploaded (line 310), and the Confirm button of `TAddSection.js` while no section is selected (line 163). The handlers behind them are modelled as if they could run in every state. Each handler runs to completion before the next.
- Records that would make a handler throw are not modelled, for example a request without `student` or a notification without `message`. The backend is taken to send the documented shapes. The tags of `TSubjects.js` are the one malformed case that is modelled (`TSubjects.FormatAllSpec`). A category named like an inherited object property, which makes the grouping `reduce` throw, is modelled too (`Grouping.GroupBy`).
- SignUp.NewValue: a chosen file is represented by its name, so two different files with the same name are not told apart.
- `uploadProfilePicture` in `TProfile.js` (lines 79-112) is not modelled: it only uploads a file and reloads.
- TProfile.ProfilePage.UpdatePassword: the page renders no inputs for the password fields, so they keep their initial values unless another caller sets them.
- SubjectDetails: the course, tutor, section and review fetches are not modelled, and neither is the class-request modal's form; they only copy backend data into the page.
- SubjectDetails.Stars: only whole-number ratings are modelled; the rating is an `int`, not a JavaScript number.
- Resources.Lookup: a subject spelled like an `Object.prototype` key (such as "constructor") would find an inherited value in the sample tables. The model treats such a subject as unknown.
- TNotification.NotificationPage.Body: the page would show both the spinner and the error if both held. No reachable state has both, so the model shows the spinner alone.
