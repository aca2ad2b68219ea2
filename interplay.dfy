/**
 * What the widget shows when the other end is this server: the server's
 * replies fed to the client's rules.
 */
module Interplay {
  import opened Wrappers
  import opened Json
  import opened Slots
  import opened Bookings
  import opened Client

  /** A refused booking reaches the user as the server's own message. */
  lemma ConflictReachesUser()
    ensures BookingResult(400, map["error" := AlreadyBooked]) == Failed(AlreadyBooked)
  {
    var body := map["error" := AlreadyBooked];
    assert Truthy(body, "error");
  }

  /** The alert the user then sees, spelled out. */
  lemma ConflictAlertText()
    ensures ErrorAlert(AlreadyBooked) == "Error: Time slot already booked"
  {
  }

  /** An accepted booking is announced with the server's text, which has no "!". */
  lemma SuccessReachesUser()
    ensures BookingResult(201, map["success" := BookedOk]) == Booked(BookedOk)
    ensures BookedOk != DefaultSuccess
  {
    var body := map["success" := BookedOk];
    assert Truthy(body, "success");
    assert |BookedOk| != |DefaultSuccess|;
  }

  /** After a date change the dropdown offers, with a value, exactly the grid slots
      that are free on that date. */
  lemma DropdownOffersFreeSlots(store: seq<Appointment>, date: string, v: string)
    requires v != ""
    ensures (exists o :: o in DropdownAfter(date, AvailableSlots(store, date)) && o.value == v)
        <==> date != "" && v in TimeSlots() && !IsBooked(store, date, v)
  {
    DropdownValuesAreSlots(date, AvailableSlots(store, date), v);
  }

  /** On any page the handlers leave, the dropdown's first option, which is
      selected until the user picks another, has value "", so the form cannot
      be sent before a slot is chosen. */
  lemma InitialSelectionBlocksSubmit(w: Widget, name: string, phonenumber: string, date: string)
    requires w.Valid()
    ensures SubmitDecision(name, phonenumber, date, w.dropdown[0].value).Blocked?
  {
  }

  /** A row with a name, a date and a timeslot is displayed with the server's fields. */
  lemma RowDisplayed(a: Appointment)
    requires a.name != "" && a.date != "" && a.timeslot != ""
    ensures Displayable(AsJson(a))
    ensures LineOf(AsJson(a)) == a.name + " - " + a.date + " at " + a.timeslot
  {
    var o := AsJson(a);
    assert o["name"] == a.name && o["date"] == a.date && o["timeslot"] == a.timeslot;
  }

  /** The listing of a store whose rows all have a name, a date and a timeslot
      is displayed as one line per row, in store order. */
  lemma ListingDisplayed(store: seq<Appointment>)
    requires forall i :: 0 <= i < |store| ==> store[i].name != "" && store[i].date != "" && store[i].timeslot != ""
    ensures |Lines(Listing(store))| == |store|
    ensures forall i :: 0 <= i < |store| ==>
      Displayable(AsJson(store[i])) && Lines(Listing(store))[i] == LineOf(AsJson(store[i]))
  {
    var list := Listing(store);
    forall i | 0 <= i < |store| ensures Displayable(list[i]) && list[i] == AsJson(store[i]) {
      RowDisplayed(store[i]);
    }
    LinesOfDisplayable(list);
  }

  /** A submission that passes the guard and is booked shows up as the last line
      of the refreshed list. */
  lemma BookedSubmissionShownLast(store: seq<Appointment>, name: string, phonenumber: string, date: string, timeslot: string)
    requires SubmitDecision(name, phonenumber, date, timeslot).Send?
    ensures FromJson(SubmitDecision(name, phonenumber, date, timeslot).data) == Some(Appointment(name, phonenumber, date, timeslot))
    ensures Displayable(AsJson(Appointment(name, phonenumber, date, timeslot)))
    ensures Lines(Listing(store + [Appointment(name, phonenumber, date, timeslot)]))
         == Lines(Listing(store)) + [LineOf(AsJson(Appointment(name, phonenumber, date, timeslot)))]
  {
    var a := Appointment(name, phonenumber, date, timeslot);
    assert Listing(store + [a]) == Listing(store) + [AsJson(a)];
    LinesAppend(Listing(store), [AsJson(a)]);
    RowDisplayed(a);
    assert Lines([AsJson(a)]) == ItemFor(AsJson(a));
  }
}
