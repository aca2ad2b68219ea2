/**
 * The booking widget (static/plugins/bookingplugin.js). The page is abstracted
 * to what its handlers change: the options of the timeslot dropdown, the lines
 * of the appointment list, and the visibility of the list panel with the
 * toggle button's text. Every fetch is a parameter: the JSON the server sent,
 * or None when the request failed.
 */
module Client {
  import opened Wrappers
  import opened Json

  const FillAllFields := "Please fill in all fields."
  const UnknownError := "Unknown error occurred"
  const DefaultSuccess := "Appointment booked successfully!"
  const SelectPrompt := "Select a timeslot"
  const NoSlotsText := "No available slots"
  const ShowLabel := "Show Existing Appointments"
  const HideLabel := "Hide Existing Appointments"

  // ---------------------------------------------------------------- fetching

  /** `getAvailableSlots` / `getAppointments`: the parsed reply, or `[]` after a failure. */
  function Received<T>(reply: Option<seq<T>>): (r: seq<T>)
    ensures reply.None? ==> r == []
    ensures reply.Some? ==> r == reply.value
  {
    match reply
    case Some(v) => v
    case None => []
  }

  /** What `bookAppointment` makes of the server's reply. */
  datatype BookingOutcome = Booked(notice: string) | Failed(message: string)

  /** `response.ok`: a 2xx status. */
  predicate IsOk(status: nat)
  {
    200 <= status <= 299
  }

  /** `throw new Error(error.error || "Unknown error occurred")` on a non-2xx reply,
      `alert(result.success || "Appointment booked successfully!")` on a 2xx one. */
  function BookingResult(status: nat, body: JsonObject): (r: BookingOutcome)
    ensures r.Booked? <==> IsOk(status)
    ensures r.Failed? && Truthy(body, "error") ==> r.message == body["error"]
    ensures r.Failed? && !Truthy(body, "error") ==> r.message == UnknownError
    ensures r.Failed? ==> r.message != ""
    ensures r.Booked? && Truthy(body, "success") ==> r.notice == body["success"]
    ensures r.Booked? && !Truthy(body, "success") ==> r.notice == DefaultSuccess
  {
    if IsOk(status) then Booked(FieldOr(body, "success", DefaultSuccess))
    else Failed(FieldOr(body, "error", UnknownError))
  }

  /** `handleError`: the alert shown for an Error carrying `message`. An empty
      message falls back to the Error itself, whose string form is "Error". */
  function ErrorAlert(message: string): (r: string)
    ensures |r| > |message| && r[|r| - |message|..] == message
    ensures |r| > 7 && r[..7] == "Error: "
    ensures message != "" ==> r[7..] == message
    ensures message == "" ==> r[7..] == "Error"
  {
    "Error: " + (if message == "" then "Error" else message)
  }

  // ---------------------------------------------------------------- submitting

  /** What the submit handler does with the four form values. */
  datatype SubmitAction = Blocked(message: string) | Send(data: JsonObject)

  /** The guard `if (!name || !phonenumber || !date || !timeslot)` and the body it posts. */
  function SubmitDecision(name: string, phonenumber: string, date: string, timeslot: string): (r: SubmitAction)
    ensures r.Send? <==> name != "" && phonenumber != "" && date != "" && timeslot != ""
    ensures r.Blocked? ==> r.message == FillAllFields
    ensures r.Send? ==> r.data.Keys == {"name", "phonenumber", "date", "timeslot"}
    ensures r.Send? ==> (r.data["name"] == name && r.data["phonenumber"] == phonenumber &&
                         r.data["date"] == date && r.data["timeslot"] == timeslot)
  {
    if name == "" || phonenumber == "" || date == "" || timeslot == "" then Blocked(FillAllFields)
    else Send(map["name" := name, "phonenumber" := phonenumber, "date" := date, "timeslot" := timeslot])
  }

  // ---------------------------------------------------------------- the dropdown

  datatype SelectOption = SelectOption(value: string, text: string)

  const Placeholder := SelectOption("", SelectPrompt)
  const NoSlotsOption := SelectOption("", NoSlotsText)

  /** The options the `forEach` appends for `slots`, in order. */
  function SlotOptions(slots: seq<string>): (r: seq<SelectOption>)
    ensures |r| == |slots|
    ensures forall i :: 0 <= i < |slots| ==> r[i] == SelectOption(slots[i], slots[i])
  {
    if slots == [] then []
    else SlotOptions(slots[..|slots| - 1]) + [SelectOption(slots[|slots| - 1], slots[|slots| - 1])]
  }

  /** The dropdown after a change of the date input to `selectedDate`, when the
      slot fetch gave `slots`. */
  function DropdownAfter(selectedDate: string, slots: seq<string>): (r: seq<SelectOption>)
    ensures |r| >= 1 && r[0] == Placeholder
    ensures selectedDate == "" ==> r == [Placeholder]
    ensures selectedDate != "" && slots == [] ==> r == [Placeholder, NoSlotsOption]
    ensures selectedDate != "" && slots != [] ==>
      |r| == |slots| + 1 && forall i :: 0 <= i < |slots| ==> r[i + 1] == SelectOption(slots[i], slots[i])
  {
    if selectedDate == "" then [Placeholder]
    else if slots == [] then [Placeholder, NoSlotsOption]
    else [Placeholder] + SlotOptions(slots)
  }

  /** Every option that carries a value after a date change is a fetched slot,
      and every non-empty fetched slot is offered. */
  lemma DropdownValuesAreSlots(selectedDate: string, slots: seq<string>, v: string)
    requires v != ""
    ensures (exists o :: o in DropdownAfter(selectedDate, slots) && o.value == v)
        <==> selectedDate != "" && v in slots
  {
    var r := DropdownAfter(selectedDate, slots);
    if selectedDate != "" && v in slots {
      var i :| 0 <= i < |slots| && slots[i] == v;
      assert r[i + 1] in r;
    }
    if o :| o in r && o.value == v {
      var k :| 0 <= k < |r| && r[k] == o;
      assert k > 0 && slots[k - 1] == v;
    }
  }

  // ---------------------------------------------------------------- the list

  /** `addAppointmentToList` shows an appointment only when its name, date and
      timeslot are all truthy; the phone number is not looked at. */
  predicate Displayable(a: JsonObject)
  {
    Truthy(a, "name") && Truthy(a, "date") && Truthy(a, "timeslot")
  }

  /** The list item's text. */
  function LineOf(a: JsonObject): string
    requires Displayable(a)
  {
    a["name"] + " - " + a["date"] + " at " + a["timeslot"]
  }

  /** What `displayAppointments` adds to the list for one appointment. */
  function ItemFor(a: JsonObject): (r: seq<string>)
    ensures Displayable(a) ==> r == [LineOf(a)]
    ensures !Displayable(a) ==> r == []
  {
    if Displayable(a) then [LineOf(a)] else []
  }

  /** The lines `displayAppointments` adds for `appts`, in order. */
  function Lines(appts: seq<JsonObject>): seq<string>
  {
    if appts == [] then [] else Lines(appts[..|appts| - 1]) + ItemFor(appts[|appts| - 1])
  }

  lemma {:induction false} LinesAppend(a: seq<JsonObject>, b: seq<JsonObject>)
    ensures Lines(a + b) == Lines(a) + Lines(b)
  {
    if b != [] {
      var last := b[|b| - 1];
      assert (a + b)[..|a + b| - 1] == a + b[..|b| - 1];
      LinesAppend(a, b[..|b| - 1]);
    } else {
      assert a + b == a;
    }
  }

  /** A line is shown exactly for the displayable appointments, in their order. */
  lemma {:induction false} LinesMembers(appts: seq<JsonObject>, line: string)
    ensures line in Lines(appts) <==> exists a :: a in appts && Displayable(a) && LineOf(a) == line
  {
    if appts != [] {
      var init := appts[..|appts| - 1];
      LinesMembers(init, line);
      assert appts == init + [appts[|appts| - 1]];
      if exists a :: a in appts && Displayable(a) && LineOf(a) == line {
        var a :| a in appts && Displayable(a) && LineOf(a) == line;
        if a != appts[|appts| - 1] {
          assert a in init;
        }
      }
    }
  }

  /** There is never more than one line per appointment. */
  lemma {:induction false} LinesAtMostOnePerAppointment(appts: seq<JsonObject>)
    ensures |Lines(appts)| <= |appts|
    ensures (forall i :: 0 <= i < |appts| ==> Displayable(appts[i])) ==> |Lines(appts)| == |appts|
  {
    if appts != [] {
      LinesAtMostOnePerAppointment(appts[..|appts| - 1]);
    }
  }

  /** When every appointment is displayable, line i is appointment i's. */
  lemma {:induction false} LinesOfDisplayable(appts: seq<JsonObject>)
    requires forall i :: 0 <= i < |appts| ==> Displayable(appts[i])
    ensures |Lines(appts)| == |appts|
    ensures forall i :: 0 <= i < |appts| ==> Lines(appts)[i] == LineOf(appts[i])
  {
    if appts != [] {
      LinesOfDisplayable(appts[..|appts| - 1]);
    }
  }

  /** The phone number never decides whether or how an appointment is shown. */
  lemma PhoneNumberIgnored(a: JsonObject, phonenumber: string)
    ensures ItemFor(a["phonenumber" := phonenumber]) == ItemFor(a)
  {
    var b := a["phonenumber" := phonenumber];
    assert Displayable(b) == Displayable(a);
    if Displayable(a) {
      assert b["name"] == a["name"] && b["date"] == a["date"] && b["timeslot"] == a["timeslot"];
    }
  }

  // ---------------------------------------------------------------- the panel

  /** `appointmentsContainer.style.display`: "none" is Hidden, "block" is Shown. */
  datatype Panel = Hidden | Shown

  function ToggleLabel(p: Panel): string
  {
    match p
    case Hidden => ShowLabel
    case Shown => HideLabel
  }

  function Flip(p: Panel): (q: Panel)
    ensures q != p
  {
    match p
    case Hidden => Shown
    case Shown => Hidden
  }

  /** The page `render` builds, reduced to what the handlers change. */
  class Widget {
    var dropdown: seq<SelectOption>
    var items: seq<string>
    var panel: Panel
    var toggleText: string

    ghost predicate Valid()
      reads this
    {
      |dropdown| >= 1 && dropdown[0] == Placeholder && toggleText == ToggleLabel(panel)
    }

    /** The markup of `render`: the placeholder option only, an empty list, the panel hidden. */
    constructor ()
      ensures Valid()
      ensures dropdown == [Placeholder] && items == [] && panel == Hidden && toggleText == ShowLabel
    {
      dropdown := [Placeholder];
      items := [];
      panel := Hidden;
      toggleText := ShowLabel;
    }

    method AddAppointmentToList(a: JsonObject)
      modifies this`items
      ensures items == old(items) + ItemFor(a)
    {
      if !Truthy(a, "name") || !Truthy(a, "date") || !Truthy(a, "timeslot") {
        return;
      }
      items := items + [a["name"] + " - " + a["date"] + " at " + a["timeslot"]];
    }

    /** Appends; it does not clear the list first. */
    method DisplayAppointments(appts: seq<JsonObject>)
      modifies this`items
      ensures items == old(items) + Lines(appts)
    {
      for i := 0 to |appts|
        invariant items == old(items) + Lines(appts[..i])
      {
        assert appts[..i + 1][..i] == appts[..i];
        if Truthy(appts[i], "name") {
          AddAppointmentToList(appts[i]);
        }
      }
      assert appts[..|appts|] == appts;
    }

    /** Clears the list, then displays `appts`. */
    method UpdateAppointmentsList(appts: seq<JsonObject>)
      modifies this`items
      ensures items == Lines(appts)
    {
      items := [];
      DisplayAppointments(appts);
    }

    /** The toggle button's click handler; `reply` is what the appointment fetch
        would receive. `fetched` says whether that fetch is made, `alerted`
        whether its failure raises `handleError`'s alert. */
    method OnToggle(reply: Option<seq<JsonObject>>) returns (fetched: bool, alerted: bool)
      modifies this
      ensures old(Valid()) ==> Valid()
      ensures panel == Flip(old(panel)) && toggleText == ToggleLabel(panel)
      ensures fetched <==> old(panel) == Hidden
      ensures alerted <==> fetched && reply.None?
      ensures fetched ==> items == old(items) + Lines(Received(reply))
      ensures !fetched ==> items == old(items)
      ensures dropdown == old(dropdown)
    {
      if panel == Hidden {
        panel := Shown;
        toggleText := HideLabel;
        fetched := true;
        alerted := reply.None?;
        var appts := Received(reply);
        DisplayAppointments(appts);
      } else {
        panel := Hidden;
        toggleText := ShowLabel;
        fetched, alerted := false, false;
      }
    }

    /** The date input's change handler; `reply` is what the slot fetch would
        receive. `fetched` says whether that fetch is made, `alerted` whether
        its failure raises `handleError`'s alert. */
    method OnDateChange(selectedDate: string, reply: Option<seq<string>>) returns (fetched: bool, alerted: bool)
      modifies this`dropdown
      ensures old(Valid()) ==> Valid()
      ensures fetched <==> selectedDate != ""
      ensures alerted <==> fetched && reply.None?
      ensures dropdown == DropdownAfter(selectedDate, Received(reply))
    {
      dropdown := [Placeholder];
      fetched := selectedDate != "";
      alerted := fetched && reply.None?;
      if !fetched {
        return;
      }
      var slots := Received(reply);
      if |slots| == 0 {
        dropdown := dropdown + [NoSlotsOption];
        return;
      }
      for i := 0 to |slots|
        invariant dropdown == [Placeholder] + SlotOptions(slots[..i])
      {
        assert slots[..i + 1][..i] == slots[..i];
        dropdown := dropdown + [SelectOption(slots[i], slots[i])];
      }
      assert slots[..|slots|] == slots;
    }

    /** The form's submit handler. `status` and `body` are the booking reply;
        `refresh1` and `refresh2` are the two appointment fetches that follow a
        successful booking (one in `bookAppointment`, one in the handler).
        `posted` is the JSON body sent, if any; `notices` are the alerts whose
        text the page decides, in order; `refreshAlerts` counts the alerts of
        failed refresh fetches, shown after them. */
    method OnSubmit(name: string, phonenumber: string, date: string, timeslot: string,
                    status: nat, body: JsonObject,
                    refresh1: Option<seq<JsonObject>>, refresh2: Option<seq<JsonObject>>)
      returns (posted: Option<JsonObject>, notices: seq<string>, refreshAlerts: nat)
      modifies this`items
      ensures SubmitDecision(name, phonenumber, date, timeslot).Blocked? ==>
        posted == None && notices == [FillAllFields] && refreshAlerts == 0 && items == old(items)
      ensures SubmitDecision(name, phonenumber, date, timeslot).Send? ==>
        posted == Some(SubmitDecision(name, phonenumber, date, timeslot).data)
      ensures posted.Some? && BookingResult(status, body).Failed? ==>
        var alert := ErrorAlert(BookingResult(status, body).message);
        notices == [alert, alert] && refreshAlerts == 0 && items == old(items)
      ensures posted.Some? && BookingResult(status, body).Booked? ==>
        notices == [BookingResult(status, body).notice] &&
        refreshAlerts == (if refresh1.None? then 1 else 0) + (if refresh2.None? then 1 else 0) &&
        items == Lines(Received(refresh2))
    {
      var action := SubmitDecision(name, phonenumber, date, timeslot);
      if action.Blocked? {
        return None, [action.message], 0;
      }
      posted := Some(action.data);
      var outcome := BookingResult(status, body);
      if outcome.Failed? {
        // once in `bookAppointment`'s catch, again in the handler's catch after the rethrow
        var alert := ErrorAlert(outcome.message);
        return posted, [alert, alert], 0;
      }
      notices := [outcome.notice];
      refreshAlerts := 0;
      if refresh1.None? {
        refreshAlerts := refreshAlerts + 1;
      }
      UpdateAppointmentsList(Received(refresh1));
      if refresh2.None? {
        refreshAlerts := refreshAlerts + 1;
      }
      UpdateAppointmentsList(Received(refresh2));
    }
  }

  /** Show, hide, show: the second show appends the fetched lines again, since
      only `updateAppointmentsList` clears the list. */
  method ShowHideShow(appts: seq<JsonObject>) returns (shown: seq<string>)
    ensures shown == Lines(appts) + Lines(appts)
  {
    var w := new Widget();
    var fetched, alerted := w.OnToggle(Some(appts));
    fetched, alerted := w.OnToggle(None);
    fetched, alerted := w.OnToggle(Some(appts));
    shown := w.items;
  }
}
