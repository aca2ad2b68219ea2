# Appointment booking: server scheduling rules and widget interaction logic

This project models the appointment-booking system in two parts. The first is
the Flask server (`app.py`). It has a fixed daily grid of half-hour slots. It
lists the free slots of a date, lists every stored appointment, and books an
appointment unless its `(date, timeslot)` pair is already taken. The second
is the browser widget (`static/plugins/bookingplugin.js`). It checks the form
before submitting, rebuilds the timeslot dropdown when the date changes,
shows the appointment list, toggles the list panel, and picks the message
shown when a booking fails.

Modules, one per concern:

- `Wrappers`: `Option`, used for a failed fetch and an absent field.
- `Json`: a JSON object is a `map<string, string>`. An absent key is JavaScript's
  `undefined`. `Truthy` and `FieldOr` give JavaScript's `x.f || fallback` on such objects.
- `Slots` (app.py `gettimeslots`): the grid. `GetTimeSlots` keeps the source's
  nested loops. It is proved equal to the function `TimeSlots`, and the lemmas
  about the grid are proved about that function.
- `Bookings` (app.py `available_slots`, `get_appointments`, `book_appointment`):
  the table is the field `records: seq<Appointment>` of the class `AppointmentStore`.
  Its invariant `Valid` says that no two rows share a `(date, timeslot)` pair.
- `Client` (bookingplugin.js): the page is the class `Widget`, reduced to what
  the handlers change. That is the dropdown options, the list lines, and the
  panel state with the button text. The result of every fetch is a parameter:
  the JSON array received, or `None` when the request failed.
- `Interplay`: lemmas that feed this server's replies to the widget's rules.

## Behaviour worth knowing

- The widget shows an appointment when it has a name, a date and a timeslot.
  It never looks at the phone number (bookingplugin.js:195).
- The "No available slots" option can be selected. Its value is "", so the
  submit guard blocks it (bookingplugin.js:131-134). It is the only way to reach
  that guard on the page: the browser's `required` check (lines 77-86) already
  refuses empty inputs and the first "Select a timeslot" option.
- The server's success text is "Appointment booked successfully", with no "!".
  The widget shows this text. Its own text "Appointment booked successfully!"
  is used when the reply's `success` is absent or empty (bookingplugin.js:53).
- A refused booking raises two identical alerts. `bookAppointment` shows the
  error and rethrows it, and the submit handler shows it again
  (bookingplugin.js:60-62, 173-174).
- The server's check for a taken slot and its insert are two separate steps.
  Concurrent requests can therefore double-book (see "## Findings").

## Model

| member | source | states |
|---|---|---|
| Slots.Label | app.py:84 | the label `f"{hour:02}:{minute:02}"`; its properties are stated by `LabelReadsBack` and `LabelInjective` |
| Slots.Keep | app.py:85-86 | the lunch test: a slot is kept unless it is "13:00" or "13:30" |
| Slots.TimeSlots | app.py:80-87 | the grid `gettimeslots` returns, built by passes over the hours 10 to 16 |
| Slots.TwoDigits | app.py:84 | `{n:02}` gives two decimal digits, and reading them back gives `n` |
| Slots.LabelReadsBack | app.py:84 | `f"{hour:02}:{minute:02}"` is a well-formed "HH:MM" label, and parsing it gives back the hour and the minute |
| Slots.LabelInjective | app.py:84 | two labels are equal exactly when their hours and minutes are equal |
| Slots.KeepLabel | app.py:85-86 | the string test against `["13:00", "13:30"]` drops exactly the :00 and :30 labels of hour 13 |
| Slots.SlotsBeforeStep | app.py:82-86 | one pass of the outer loop appends the hour's :00 and :30 labels, or nothing for hour 13 |
| Slots.AppendHour | app.py:83-86 | one run of the inner loop appends the hour's labels that survive the lunch test, in minute order |
| Slots.GetTimeSlots | app.py:80-87 | the nested loops return exactly the grid `TimeSlots()` |
| Slots.TimeSlotsAreTwelve | app.py:80-87 | the grid is exactly the twelve labels 10:00 … 12:30, 14:00 … 16:30, in this order |
| Slots.SlotsBeforeAscending | app.py:81-86 | after each outer pass the list is strictly ascending in time and ends before the next hour |
| Slots.TimeSlotsAscending | app.py:81-87 | every grid slot is a zero-padded "HH:MM" label, the grid is strictly ascending in time, and no label repeats |
| Slots.SlotsBeforeMembers | app.py:81-86 | a label is in the list after the passes up to `hour` exactly when it is an earlier hour's :00 or :30 label, hour 13 excepted |
| Slots.TimeSlotsMembers | app.py:81-87 | the grid is every :00 and :30 label of hours 10 to 16 except hour 13, and nothing else |
| Slots.LateLabelsOffGrid | app.py:82 | no well-formed label of hour 17 or later is on the grid |
| Bookings.IsBooked | app.py:66 | the lookup `filter_by(date=..., timeslot=...).first()` finds a row |
| Bookings.BookedOn | app.py:30 | the booked list holds exactly the timeslots of rows on that date |
| Bookings.Without | app.py:32 | the comprehension keeps exactly the slots not booked, each with its original number of copies, in their original order (a subsequence) |
| Bookings.AvailableSlots | app.py:27-33 | a slot is offered exactly when it is on the grid and no row books it on that date; the result is a subsequence of the grid |
| Bookings.AppointmentStore.GetAvailableSlots | app.py:27-33 | the handler returns `AvailableSlots` of the current rows |
| Bookings.EmptyStoreOffersGrid | app.py:30-32 | with no rows, the whole grid is offered |
| Bookings.AvailabilityDependsOnlyOnDate | app.py:30 | two stores with the same rows on a date offer the same slots for it, whatever their other rows and their order |
| Bookings.OtherDateIgnored | app.py:30 | a new row on another date leaves a date's free slots unchanged |
| Bookings.AvailableAfterBooking | app.py:30-32 | a new row on its date removes exactly its timeslot from that date's free slots |
| Bookings.FullyBookedIffNoneFree | app.py:32 | a date's free list is empty exactly when every grid slot is booked on it |
| Bookings.OneRowPerSlotLeavesNone | test_app.py:90-101 | a store with one row for each grid slot on a date leaves nothing free on that date |
| Bookings.AsJson | app.py:41-46 | the listing dict has exactly the four keys name, phonenumber, date and timeslot |
| Bookings.FromJson | app.py:62-74 | the request fields are read back exactly when all four are present |
| Bookings.FromAsJson | app.py:41-46 | reading the listing dict of a row gives back the row |
| Bookings.AsFromJson | app.py:62-74 | the dict of the row read from a request is the request restricted to the four fields |
| Bookings.Listing | app.py:38-47 | the listing has one dict per row, the dict of row i at position i |
| Bookings.ListingAppend | app.py:38-47 | a new last row adds its dict as the last entry of the listing |
| Bookings.AppointmentStore.GetAppointments | app.py:35-47 | the loop returns the listing of every row in store order |
| Bookings.AppendKeepsNoDoubleBooking | app.py:66-75 | adding a row whose pair is free keeps every `(date, timeslot)` pair distinct |
| Bookings.AppointmentStore.constructor | app.py:13-14 | a new database file starts with an empty table, which satisfies the invariant |
| Bookings.AppointmentStore.Reopen | app.py:9-14 | an existing database file keeps its rows; the invariant holds exactly when those rows have no double booking |
| Bookings.AppointmentStore.Lookup | app.py:66 | the loop over the rows finds a row exactly when the (date, timeslot) pair is taken |
| Bookings.AppointmentStore.Insert | app.py:75-76 | the insert and commit append exactly the new row |
| Bookings.AppointmentStore.Book | app.py:62-77 | a taken pair gets 400 `{"error": "Time slot already booked"}` and the rows do not change; otherwise it gets 201 `{"success": "Appointment booked successfully"}` and exactly the submitted row is appended; with the lookup and the insert as one step, the invariant is kept |
| Bookings.DoubleBookingRefused | app.py:66-77 | on a new database, two posts of the same date and timeslot get 201 and then the 400 conflict reply, whatever their names and phone numbers, and only the first row is stored |
| Bookings.RacingBookingsBothCommit | app.py:66-76 | two requests for the same free pair whose lookups both run before either insert both commit, and the table then holds a double booking |
| Bookings.BookingIsNotValidated | app.py:62-74 | a row with empty fields and a timeslot that is not on the grid is still accepted with 201 |
| Json.Truthy | static/plugins/bookingplugin.js:195 | JavaScript truthiness of a string field, present and non-empty, as tested here and at lines 49, 53 and 181 |
| Json.FieldOr | static/plugins/bookingplugin.js:49 | the "field or fallback" choice is the field when it is a non-empty string, else the fallback |
| Client.IsOk | static/plugins/bookingplugin.js:47 | `response.ok`, tested here and at lines 14 and 27: the status is in 200-299 |
| Client.Received | static/plugins/bookingplugin.js:11-35 | a failed slot or appointment fetch yields `[]`; a successful one yields the parsed array |
| Client.BookingResult | static/plugins/bookingplugin.js:47-53 | a non-2xx reply fails with the body's `error` if it is non-empty, else "Unknown error occurred", so the failure message is never empty; a 2xx reply is announced with `success` or "Appointment booked successfully!" |
| Client.ErrorAlert | static/plugins/bookingplugin.js:6-9 | the alert is "Error: " followed by the error's message, or by "Error" when the message is empty |
| Client.SubmitDecision | static/plugins/bookingplugin.js:154-165 | the form is sent exactly when all four values are non-empty, and then carries exactly those four fields; otherwise "Please fill in all fields." is shown |
| Client.SlotOptions | static/plugins/bookingplugin.js:138-143 | one option per slot, in order, with value and text equal to the slot |
| Client.DropdownAfter | static/plugins/bookingplugin.js:122-148 | the placeholder always comes first; it is the whole list when the date is empty; with no slots it is followed by one "No available slots" option of value ""; otherwise one option per slot follows in order |
| Client.DropdownValuesAreSlots | static/plugins/bookingplugin.js:122-148 | a non-empty value is offered exactly when the date is set and the value is one of the fetched slots |
| Client.Displayable | static/plugins/bookingplugin.js:181-195 | an appointment passes both tests: name, date and timeslot are truthy |
| Client.LineOf | static/plugins/bookingplugin.js:201 | the list line `name - date at timeslot` |
| Client.Lines | static/plugins/bookingplugin.js:179-185 | the lines that displaying an array adds, one per displayable appointment, in order |
| Client.ItemFor | static/plugins/bookingplugin.js:194-202 | an appointment gives the line `name - date at timeslot` when its name, date and timeslot are truthy, and no line otherwise |
| Client.LinesAppend | static/plugins/bookingplugin.js:179-185 | displaying two arrays one after the other adds their lines one after the other |
| Client.LinesMembers | static/plugins/bookingplugin.js:179-203 | a line is shown exactly when some displayable appointment has that line |
| Client.LinesAtMostOnePerAppointment | static/plugins/bookingplugin.js:179-203 | there is at most one line per appointment, and exactly one each when all are displayable |
| Client.LinesOfDisplayable | static/plugins/bookingplugin.js:179-203 | when all appointments are displayable, line i belongs to appointment i |
| Client.PhoneNumberIgnored | static/plugins/bookingplugin.js:195 | changing the phone number never changes whether or how an appointment is shown |
| Client.ToggleLabel | static/plugins/bookingplugin.js:107-116 | the button text: "Hide Existing Appointments" while shown, "Show Existing Appointments" while hidden |
| Client.Flip | static/plugins/bookingplugin.js:107-116 | a toggle always changes the panel state |
| Client.Widget.constructor | static/plugins/bookingplugin.js:73-100 | the page starts with only the placeholder option, an empty list, the panel hidden and the label "Show Existing Appointments" |
| Client.Widget.AddAppointmentToList | static/plugins/bookingplugin.js:194-203 | appends the appointment's line when it is displayable and nothing otherwise |
| Client.Widget.DisplayAppointments | static/plugins/bookingplugin.js:179-185 | appends the lines of the array to the existing list, in order, without clearing it |
| Client.Widget.UpdateAppointmentsList | static/plugins/bookingplugin.js:187-192 | the list becomes the lines of the new array alone |
| Client.Widget.OnToggle | static/plugins/bookingplugin.js:106-117 | Hidden becomes Shown with "Hide Existing Appointments", one fetch, and its lines appended; Shown becomes Hidden with "Show Existing Appointments", no fetch, and the list unchanged; an error alert is raised exactly when the fetch is made and fails |
| Client.Widget.OnDateChange | static/plugins/bookingplugin.js:122-148 | a slot fetch is made exactly when the date is non-empty, and the dropdown becomes `DropdownAfter` of the fetched slots; an error alert is raised exactly when the fetch is made and fails |
| Client.Widget.OnSubmit | static/plugins/bookingplugin.js:151-176 | a blocked form alerts "Please fill in all fields.", posts nothing and leaves the list; a failed booking alerts "Error: " and the failure message twice and leaves the list; a booked one announces it once, raises one error alert per failed refresh, and the list ends as the second refresh's lines |
| Client.ShowHideShow | static/plugins/bookingplugin.js:106-117 | show, hide, show on a fresh page displays the fetched lines twice |
| Interplay.ConflictReachesUser | static/plugins/bookingplugin.js:47-49 | the server's conflict reply becomes a failure carrying the server's own message |
| Interplay.ConflictAlertText | static/plugins/bookingplugin.js:60-62 | that failure is shown as "Error: Time slot already booked" |
| Interplay.SuccessReachesUser | static/plugins/bookingplugin.js:52-53 | the server's success reply is announced with the server's text, which differs from the widget's fallback |
| Interplay.DropdownOffersFreeSlots | static/plugins/bookingplugin.js:128-143 | after a date change, a non-empty value is offered exactly when it is a grid slot that is free on that date |
| Interplay.InitialSelectionBlocksSubmit | static/plugins/bookingplugin.js:124 | on every page the handlers leave (the widget invariant), the dropdown's first option has value "", so the form is blocked until a slot is chosen |
| Interplay.RowDisplayed | static/plugins/bookingplugin.js:195-201 | a row with a name, a date and a timeslot is shown as `name - date at timeslot` of the row's own fields |
| Interplay.ListingDisplayed | static/plugins/bookingplugin.js:179-203 | when every row has a name, a date and a timeslot, the listing is shown as one line per row in store order, line i being row i's |
| Interplay.BookedSubmissionShownLast | static/plugins/bookingplugin.js:165-172 | the server reads back exactly the submitted fields, and once booked their line is the last line of the refreshed list |

## Left out

- Flask routing, static file serving, CORS and the OPTIONS preflight reply, and app startup (app.py:7, 17-24, 55-60, 89-90): these only route requests or call libraries.
- SQLAlchemy sessions, commits and the SQLite setup (app.py:9-14, 75-76): the table is a sequence and a commit is the append.
- Bookings.AppointmentStore.constructor: models a new database file only. `create_all` (app.py:13-14) keeps an existing `database.db` and its rows. `Reopen` models that case, and the invariant then holds only if those rows have no double booking.
- Bookings.AppointmentStore.Book: the handlers are modelled as serialised, one request running to completion before the next starts. `Valid` is kept only under that assumption. The source runs its lookup (app.py:66) and its insert (app.py:75-76) as separate steps on a threaded server (app.py:90), and the table has no unique constraint on `(date, timeslot)` (models.py:5-10). `RacingBookingsBothCommit` shows the interleaving that breaks the invariant.
- The 500 reply of `get_appointments` (app.py:48-49): a sequence cannot fail the way a database can.
- The order of `Appointment.query.all()`: there is no ORDER BY, so the listing is taken in insertion order, which is SQLite's row order for this table.
- The column lengths in models.py (`String(100)`, `String(15)`, `String(10)`, `String(5)`): SQLite does not enforce a length on such columns, so strings of any length are stored. The model's unbounded strings match that.
- Requests with a field missing: a booking takes four strings. In the source a missing field becomes `None`. A missing `date` or `timeslot` makes the lookup at app.py:66 match no row, and the NOT NULL column then rejects the insert at the commit on line 76. A missing `name` or `phonenumber` on a taken pair still gets the 400 reply, as modelled. On a free pair, the same NOT NULL rejection happens at the commit. Either failure happens inside the database library, outside the code. `/api/slots` without a `date` likewise matches no row.
- JSON that does not have the modelled shape: a reply that is not JSON, a non-array slot or appointment reply, `null` entries, non-string field values, and a booking request whose body is not a JSON object. For such a body, `request.json` or `data.get` fails at app.py:62-64 and the reply is an error, not 201 or 400. The model's types exclude all of these.
- The text of the alert a failed slot or appointment fetch raises (`handleError`, bookingplugin.js:6-9, called at lines 19 and 32): `OnToggle`, `OnDateChange` and `OnSubmit` record that the alert is raised, but its text comes from `statusText` or the browser.
- `fetch`, `async`/`await`, `console.error`, the HTML markup of `render`, and the missing-container branch of `render` (bookingplugin.js:13, 26, 39-45, 66-100): these are I/O and presentation.
- Which option the user picks in the dropdown: the form values are parameters of the submit handler.
- The race between slot replies after repeated date changes: it is concurrent behaviour, and each handler call here runs to completion.
- A POST that fails in transport (`fetch` rejects) in `bookAppointment`: its message comes from the browser.
- Client.Widget.OnSubmit: the handler is modelled for any form values. On the page, the browser's `required` check on the inputs and the select (bookingplugin.js:77, 80, 83, 86) runs first. It silently refuses a submit with an empty name, phone number or date, or with the first option "Select a timeslot" selected. So the "Please fill in all fields." path is reached only when "No available slots" is chosen. That option has value "" but is not the first option, so `required` lets it through.
- Client.Widget.OnSubmit: the alerts of failed refresh fetches are counted in `refreshAlerts`, not spelled out, because their text comes from `statusText` or the browser.

## Findings

| source | as written | input that shows it | evidently intended | confidence | as-written member | corrected member |
|---|---|---|---|---|---|---|
| app.py:66-76 | the lookup for a taken pair and the insert are separate steps; no lock, transaction or unique constraint (models.py:5-10) joins them, and the server handles requests on threads (app.py:90) | two POSTs with the same date and timeslot on a free pair, both lookups running before either insert | at most one row per `(date, timeslot)` pair | medium — not executed | Bookings.RacingBookingsBothCommit | Bookings.AppointmentStore.Book |
