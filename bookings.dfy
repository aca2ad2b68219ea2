/**
 * The server's appointment store and its three API operations (app.py):
 * the free slots of a date, the listing of every appointment, and booking.
 * The database table is a sequence of rows in insertion order.
 */
module Bookings {
  import opened Wrappers
  import opened Json
  import opened Slots

  /** One row of the appointment table (models.py): four strings. */
  datatype Appointment = Appointment(name: string, phonenumber: string, date: string, timeslot: string)

  const AlreadyBooked := "Time slot already booked"
  const BookedOk := "Appointment booked successfully"

  /** An HTTP reply: a status code and a JSON object body. */
  datatype Reply = Reply(status: nat, body: JsonObject)

  // ---------------------------------------------------------------- queries

  /** `Appointment.query.filter_by(date=date, timeslot=timeslot).first()` finds a row. */
  predicate IsBooked(store: seq<Appointment>, date: string, timeslot: string)
  {
    exists a | a in store :: a.date == date && a.timeslot == timeslot
  }

  /** `[a.timeslot for a in Appointment.query.filter_by(date=date).all()]`. */
  function BookedOn(store: seq<Appointment>, date: string): (r: seq<string>)
    ensures forall t :: t in r <==> IsBooked(store, date, t)
  {
    if store == [] then []
    else (if store[0].date == date then [store[0].timeslot] else []) + BookedOn(store[1..], date)
  }

  /** `[slot for slot in slots if slot not in booked]`. */
  function Without(slots: seq<string>, booked: seq<string>): (r: seq<string>)
    ensures forall s :: s in r <==> s in slots && s !in booked
    ensures forall s :: multiset(r)[s] == if s in booked then 0 else multiset(slots)[s]
    ensures IsSubsequence(r, slots)
  {
    if slots == [] then []
    else
      assert slots == [slots[0]] + slots[1..];
      if slots[0] in booked then Without(slots[1..], booked)
      else [slots[0]] + Without(slots[1..], booked)
  }

  /** `a` is `b` with some elements left out, the rest in their order. */
  predicate IsSubsequence(a: seq<string>, b: seq<string>)
  {
    if a == [] then true
    else if b == [] then false
    else if a[0] == b[0] then IsSubsequence(a[1..], b[1..])
    else IsSubsequence(a, b[1..])
  }

  /** `available_slots`: the grid minus the slots booked on `date`. */
  function AvailableSlots(store: seq<Appointment>, date: string): (r: seq<string>)
    ensures forall s :: s in r <==> s in TimeSlots() && !IsBooked(store, date, s)
    ensures IsSubsequence(r, TimeSlots())
  {
    Without(TimeSlots(), BookedOn(store, date))
  }

  /** Only which slots are booked matters, not how often or in which order. */
  lemma {:induction false} WithoutSameBooked(slots: seq<string>, b1: seq<string>, b2: seq<string>)
    requires forall t :: t in b1 <==> t in b2
    ensures Without(slots, b1) == Without(slots, b2)
  {
    if slots != [] {
      WithoutSameBooked(slots[1..], b1, b2);
    }
  }

  /** Filtering twice is filtering once by both lists. */
  lemma {:induction false} WithoutTwice(slots: seq<string>, b1: seq<string>, b2: seq<string>)
    ensures Without(Without(slots, b1), b2) == Without(slots, b1 + b2)
  {
    if slots != [] {
      WithoutTwice(slots[1..], b1, b2);
      if slots[0] !in b1 {
        assert Without(slots, b1) == [slots[0]] + Without(slots[1..], b1);
        assert Without(slots, b1)[1..] == Without(slots[1..], b1);
      }
    }
  }

  lemma {:induction false} WithoutNothing(slots: seq<string>)
    ensures Without(slots, []) == slots
  {
    if slots != [] {
      WithoutNothing(slots[1..]);
    }
  }

  /** With no rows, every grid slot is free. */
  lemma EmptyStoreOffersGrid(date: string)
    ensures AvailableSlots([], date) == TimeSlots()
  {
    WithoutNothing(TimeSlots());
  }

  /** The free slots of `date` depend only on the rows of that date: rows on other
      dates, and the order of the rows, never change them. */
  lemma AvailabilityDependsOnlyOnDate(s1: seq<Appointment>, s2: seq<Appointment>, date: string)
    requires forall a: Appointment :: a.date == date ==> (a in s1 <==> a in s2)
    ensures AvailableSlots(s1, date) == AvailableSlots(s2, date)
  {
    forall t ensures t in BookedOn(s1, date) <==> t in BookedOn(s2, date) {
      if IsBooked(s1, date, t) {
        var a :| a in s1 && a.date == date && a.timeslot == t;
        assert a in s2;
      }
      if IsBooked(s2, date, t) {
        var a :| a in s2 && a.date == date && a.timeslot == t;
        assert a in s1;
      }
    }
    WithoutSameBooked(TimeSlots(), BookedOn(s1, date), BookedOn(s2, date));
  }

  /** A new row on another date leaves the free slots of `date` as they were. */
  lemma OtherDateIgnored(store: seq<Appointment>, a: Appointment, date: string)
    requires a.date != date
    ensures AvailableSlots(store + [a], date) == AvailableSlots(store, date)
  {
    AvailabilityDependsOnlyOnDate(store + [a], store, date);
  }

  /** A new row on `a.date` takes exactly its timeslot out of that date's free slots. */
  lemma AvailableAfterBooking(store: seq<Appointment>, a: Appointment)
    ensures AvailableSlots(store + [a], a.date) == Without(AvailableSlots(store, a.date), [a.timeslot])
  {
    var before := BookedOn(store, a.date);
    var after := BookedOn(store + [a], a.date);
    forall t ensures t in after <==> t in before + [a.timeslot] {
      if IsBooked(store + [a], a.date, t) && t != a.timeslot {
        var b :| b in store + [a] && b.date == a.date && b.timeslot == t;
        assert b in store;
      }
    }
    WithoutSameBooked(TimeSlots(), after, before + [a.timeslot]);
    WithoutTwice(TimeSlots(), before, [a.timeslot]);
  }

  /** No slot of `date` is free exactly when every grid slot is booked on it. */
  lemma FullyBookedIffNoneFree(store: seq<Appointment>, date: string)
    ensures AvailableSlots(store, date) == [] <==> forall s :: s in TimeSlots() ==> IsBooked(store, date, s)
  {
    var r := AvailableSlots(store, date);
    if r != [] {
      assert r[0] in r;
    }
  }

  /** The day the server's test fills: row i books grid slot i on `date`. */
  lemma OneRowPerSlotLeavesNone(store: seq<Appointment>, date: string)
    requires |store| == |TimeSlots()|
    requires forall i :: 0 <= i < |store| ==> store[i].date == date && store[i].timeslot == TimeSlots()[i]
    ensures AvailableSlots(store, date) == []
  {
    forall s | s in TimeSlots() ensures IsBooked(store, date, s) {
      var i :| 0 <= i < |TimeSlots()| && TimeSlots()[i] == s;
      assert store[i] in store;
    }
    FullyBookedIffNoneFree(store, date);
  }

  // ---------------------------------------------------------------- listing

  /** The dict `get_appointments` builds for one row. */
  function AsJson(a: Appointment): (o: JsonObject)
    ensures o.Keys == {"name", "phonenumber", "date", "timeslot"}
  {
    map["name" := a.name, "phonenumber" := a.phonenumber, "date" := a.date, "timeslot" := a.timeslot]
  }

  /** Reads the four fields back from a JSON object; None when one is absent. */
  function FromJson(o: JsonObject): (r: Option<Appointment>)
    ensures r.Some? <==> "name" in o && "phonenumber" in o && "date" in o && "timeslot" in o
  {
    if "name" in o && "phonenumber" in o && "date" in o && "timeslot" in o
    then Some(Appointment(o["name"], o["phonenumber"], o["date"], o["timeslot"]))
    else None
  }

  lemma FromAsJson(a: Appointment)
    ensures FromJson(AsJson(a)) == Some(a)
  {
  }

  lemma AsFromJson(o: JsonObject)
    requires FromJson(o).Some?
    ensures AsJson(FromJson(o).value) == map k | k in o && k in {"name", "phonenumber", "date", "timeslot"} :: o[k]
  {
  }

  /** The JSON array `get_appointments` returns for a store. */
  function Listing(store: seq<Appointment>): (r: seq<JsonObject>)
    ensures |r| == |store|
    ensures forall i :: 0 <= i < |store| ==> r[i] == AsJson(store[i])
  {
    if store == [] then [] else [AsJson(store[0])] + Listing(store[1..])
  }

  // ---------------------------------------------------------------- invariant

  /** No two rows share a (date, timeslot) pair. */
  predicate NoDoubleBooking(store: seq<Appointment>)
  {
    forall i, j :: 0 <= i < j < |store| ==>
      !(store[i].date == store[j].date && store[i].timeslot == store[j].timeslot)
  }

  /** Appending a row whose pair is free keeps the pairs distinct. */
  lemma AppendKeepsNoDoubleBooking(store: seq<Appointment>, a: Appointment)
    requires NoDoubleBooking(store) && !IsBooked(store, a.date, a.timeslot)
    ensures NoDoubleBooking(store + [a])
  {
    var s := store + [a];
    forall i, j | 0 <= i < j < |s|
      ensures !(s[i].date == s[j].date && s[i].timeslot == s[j].timeslot)
    {
      if j == |store| {
        assert s[i] in store;
      }
    }
  }

  // ---------------------------------------------------------------- the store

  /** The `appointment` table; its methods are the API's handlers. */
  class AppointmentStore {
    var records: seq<Appointment>

    ghost predicate Valid()
      reads this
    {
      NoDoubleBooking(records)
    }

    /** A new database file: `create_all` makes an empty table. */
    constructor ()
      ensures Valid() && records == []
    {
      records := [];
    }

    /** An existing database file: `create_all` keeps its rows, and nothing in
        the schema says they are free of double bookings. */
    constructor Reopen(rows: seq<Appointment>)
      ensures records == rows
      ensures Valid() <==> NoDoubleBooking(rows)
    {
      records := rows;
    }

    /** The lookup of line 66: is the pair taken? */
    method Lookup(date: string, timeslot: string) returns (taken: bool)
      ensures taken <==> IsBooked(records, date, timeslot)
    {
      taken := false;
      for i := 0 to |records|
        invariant taken <==> IsBooked(records[..i], date, timeslot)
      {
        assert records[..i + 1] == records[..i] + [records[i]];
        if records[i].date == date && records[i].timeslot == timeslot {
          taken := true;
        }
      }
      assert records[..|records|] == records;
    }

    /** The insert and commit of lines 75-76. */
    method Insert(data: Appointment)
      modifies this
      ensures records == old(records) + [data]
    {
      records := records + [data];
    }

    /** The POST branch of `book_appointment`, with the lookup and the insert
        run as one step. */
    method Book(data: Appointment) returns (reply: Reply)
      modifies this
      ensures old(Valid()) ==> Valid()
      ensures IsBooked(old(records), data.date, data.timeslot) ==>
        reply == Reply(400, map["error" := AlreadyBooked]) && records == old(records)
      ensures !IsBooked(old(records), data.date, data.timeslot) ==>
        reply == Reply(201, map["success" := BookedOk]) && records == old(records) + [data]
    {
      var taken := Lookup(data.date, data.timeslot);
      if taken {
        return Reply(400, map["error" := AlreadyBooked]);
      }
      if NoDoubleBooking(records) {
        AppendKeepsNoDoubleBooking(records, data);
      }
      Insert(data);
      reply := Reply(201, map["success" := BookedOk]);
    }

    /** `get_appointments`: one dict per row, in store order. */
    method GetAppointments() returns (list: seq<JsonObject>)
      ensures list == Listing(records)
    {
      list := [];
      for i := 0 to |records|
        invariant list == Listing(records[..i])
      {
        ListingAppend(records[..i], records[i]);
        assert records[..i + 1] == records[..i] + [records[i]];
        list := list + [AsJson(records[i])];
      }
      assert records[..|records|] == records;
    }

    /** `available_slots` for the current rows. */
    method GetAvailableSlots(date: string) returns (slots: seq<string>)
      ensures slots == AvailableSlots(records, date)
    {
      var grid := GetTimeSlots();
      var booked := BookedOn(records, date);
      slots := Without(grid, booked);
    }
  }

  lemma {:induction false} ListingAppend(store: seq<Appointment>, a: Appointment)
    ensures Listing(store + [a]) == Listing(store) + [AsJson(a)]
  {
  }

  /** The same (date, timeslot) posted twice on a new database: the second
      post is refused, whatever its name and phone number, and only the first
      row is stored. */
  method DoubleBookingRefused(a: Appointment, b: Appointment) returns (first: Reply, second: Reply, stored: seq<Appointment>)
    requires a.date == b.date && a.timeslot == b.timeslot
    ensures first == Reply(201, map["success" := BookedOk])
    ensures second == Reply(400, map["error" := AlreadyBooked])
    ensures stored == [a]
  {
    var store := new AppointmentStore();
    first := store.Book(a);
    assert store.records[0] in store.records;
    second := store.Book(b);
    stored := store.records;
  }

  /** Two requests for the same free pair, served on two threads: both lookups
      run before either insert, so both see the pair free and both commit. */
  method RacingBookingsBothCommit(a: Appointment, b: Appointment) returns (stored: seq<Appointment>)
    requires a.date == b.date && a.timeslot == b.timeslot
    ensures stored == [a, b]
    ensures !NoDoubleBooking(stored)
  {
    var store := new AppointmentStore();
    var takenA := store.Lookup(a.date, a.timeslot);
    var takenB := store.Lookup(b.date, b.timeslot);
    if !takenA {
      store.Insert(a);
    }
    if !takenB {
      store.Insert(b);
    }
    stored := store.records;
    assert stored[0].date == stored[1].date && stored[0].timeslot == stored[1].timeslot;
  }

  /** The server checks neither that the fields are non-empty nor that the timeslot is on the grid. */
  method BookingIsNotValidated() returns (reply: Reply, stored: seq<Appointment>)
    ensures reply.status == 201
    ensures stored == [Appointment("", "", "", "25:99")]
    ensures "25:99" !in TimeSlots()
  {
    var store := new AppointmentStore();
    reply := store.Book(Appointment("", "", "", "25:99"));
    stored := store.records;
    assert IsClockLabel("25:99") && HourOf("25:99") == 25;
    LateLabelsOffGrid("25:99");
  }
}
