/**
 * The daily grid of bookable slots that the server offers (`gettimeslots` in
 * app.py): every half hour from 10:00 to 16:30, written "HH:MM" with two
 * zero-padded digits each, except the lunch break 13:00 and 13:30.
 */
module Slots {

  /** `range(10, 17)`: the hours the outer loop visits. */
  const FirstHour: nat := 10
  const EndHour: nat := 17
  /** `[0, 30]`: the minutes the inner loop visits. */
  const Minutes: seq<nat> := [0, 30]
  /** The labels the loop skips. */
  const Lunch: seq<string> := ["13:00", "13:30"]

  predicate IsDigit(c: char)
  {
    '0' <= c <= '9'
  }

  function DigitValue(c: char): (d: nat)
    requires IsDigit(c)
    ensures d < 10
  {
    (c as int) - ('0' as int)
  }

  function DigitChar(d: nat): (c: char)
    requires d < 10
    ensures IsDigit(c) && DigitValue(c) == d
  {
    (('0' as int) + d) as char
  }

  /** Python's `f"{n:02}"` for 0 <= n < 100: two decimal digits, zero-padded. */
  function TwoDigits(n: nat): (s: string)
    requires n < 100
    ensures |s| == 2 && IsDigit(s[0]) && IsDigit(s[1])
    ensures DigitValue(s[0]) * 10 + DigitValue(s[1]) == n
  {
    [DigitChar(n / 10), DigitChar(n % 10)]
  }

  /** A zero-padded "HH:MM" string. */
  predicate IsClockLabel(s: string)
  {
    |s| == 5 && IsDigit(s[0]) && IsDigit(s[1]) && s[2] == ':' && IsDigit(s[3]) && IsDigit(s[4])
  }

  function HourOf(s: string): nat
    requires IsClockLabel(s)
  {
    DigitValue(s[0]) * 10 + DigitValue(s[1])
  }

  function MinuteOf(s: string): nat
    requires IsClockLabel(s)
  {
    DigitValue(s[3]) * 10 + DigitValue(s[4])
  }

  /** The time of day a label names, in minutes after midnight. */
  function ClockMinutes(s: string): nat
    requires IsClockLabel(s)
  {
    HourOf(s) * 60 + MinuteOf(s)
  }

  /** `f"{hour:02}:{minute:02}"`. */
  function Label(hour: nat, minute: nat): string
    requires hour < 100 && minute < 100
  {
    TwoDigits(hour) + ":" + TwoDigits(minute)
  }

  /** A label is a well-formed "HH:MM" string, and reading it back gives the hour and the minute. */
  lemma LabelReadsBack(hour: nat, minute: nat)
    requires hour < 100 && minute < 100
    ensures IsClockLabel(Label(hour, minute))
    ensures HourOf(Label(hour, minute)) == hour && MinuteOf(Label(hour, minute)) == minute
  {
    var s := Label(hour, minute);
    assert s[..2] == TwoDigits(hour) && s[3..] == TwoDigits(minute);
  }

  lemma LabelInjective(h1: nat, m1: nat, h2: nat, m2: nat)
    requires h1 < 100 && m1 < 100 && h2 < 100 && m2 < 100
    ensures Label(h1, m1) == Label(h2, m2) <==> h1 == h2 && m1 == m2
  {
    LabelReadsBack(h1, m1);
    LabelReadsBack(h2, m2);
    if Label(h1, m1) == Label(h2, m2) {
      assert HourOf(Label(h1, m1)) == HourOf(Label(h2, m2));
      assert MinuteOf(Label(h1, m1)) == MinuteOf(Label(h2, m2));
    }
  }

  /** What one pass of the inner loop contributes: the label, unless it is a lunch slot. */
  function Keep(slot: string): seq<string>
  {
    if slot in Lunch then [] else [slot]
  }

  /** The lunch labels are exactly those of 13:00 and 13:30. */
  lemma KeepLabel(hour: nat, minute: nat)
    requires hour < 100 && minute < 100
    ensures Keep(Label(hour, minute)) == if hour == 13 && minute in Minutes then [] else [Label(hour, minute)]
  {
    assert Label(13, 0) == "13:00" && Label(13, 30) == "13:30";
    LabelInjective(hour, minute, 13, 0);
    LabelInjective(hour, minute, 13, 30);
  }

  /** The labels the inner loop appends for `hour` while visiting `minutes` in order. */
  function MinuteSlots(hour: nat, minutes: seq<nat>): seq<string>
    requires hour < 100 && forall k :: 0 <= k < |minutes| ==> minutes[k] < 100
  {
    if minutes == [] then []
    else MinuteSlots(hour, minutes[..|minutes| - 1]) + Keep(Label(hour, minutes[|minutes| - 1]))
  }

  /** The list after the outer loop has visited the hours FirstHour .. hour - 1. */
  function SlotsBefore(hour: nat): seq<string>
    requires FirstHour <= hour <= EndHour
  {
    if hour == FirstHour then [] else SlotsBefore(hour - 1) + MinuteSlots(hour - 1, Minutes)
  }

  /** The whole grid `gettimeslots()` returns. */
  function TimeSlots(): seq<string>
  {
    SlotsBefore(EndHour)
  }

  /** `gettimeslots`: the nested loops appending labels. */
  method GetTimeSlots() returns (slots: seq<string>)
    ensures slots == TimeSlots()
  {
    slots := [];
    for hour := FirstHour to EndHour
      invariant slots == SlotsBefore(hour)
    {
      slots := AppendHour(slots, hour);
    }
  }

  /** The inner loop of `gettimeslots`: the labels of `hour` appended to `slots`. */
  method AppendHour(slots: seq<string>, hour: nat) returns (extended: seq<string>)
    requires FirstHour <= hour < EndHour
    ensures extended == slots + MinuteSlots(hour, Minutes)
  {
    extended := slots;
    for k := 0 to |Minutes|
      invariant extended == slots + MinuteSlots(hour, Minutes[..k])
    {
      var minute := Minutes[k];
      var slot := Label(hour, minute);
      assert Minutes[..k + 1][..k] == Minutes[..k];
      if slot !in Lunch {
        extended := extended + [slot];
      }
    }
    assert Minutes[..|Minutes|] == Minutes;
  }

  /** One pass of the outer loop appends both labels of the hour, or none at lunch. */
  lemma SlotsBeforeStep(hour: nat)
    requires FirstHour <= hour < EndHour
    ensures SlotsBefore(hour + 1) == SlotsBefore(hour) + if hour == 13 then [] else [Label(hour, 0), Label(hour, 30)]
  {
    assert Minutes[..1] == [0] && Minutes[..1][..0] == [];
    assert MinuteSlots(hour, Minutes[..1]) == Keep(Label(hour, 0));
    KeepLabel(hour, 0);
    KeepLabel(hour, 30);
  }

  // The list after each pass of the outer loop, written out.

  lemma SlotsBefore11()
    ensures SlotsBefore(11) == ["10:00", "10:30"]
  {
    SlotsBeforeStep(10);
    assert Label(10, 0) == "10:00" && Label(10, 30) == "10:30";
  }

  lemma SlotsBefore12()
    ensures SlotsBefore(12) == ["10:00", "10:30", "11:00", "11:30"]
  {
    SlotsBefore11();
    SlotsBeforeStep(11);
    assert Label(11, 0) == "11:00" && Label(11, 30) == "11:30";
  }

  lemma SlotsBefore13()
    ensures SlotsBefore(13) == ["10:00", "10:30", "11:00", "11:30", "12:00", "12:30"]
  {
    SlotsBefore12();
    SlotsBeforeStep(12);
    assert Label(12, 0) == "12:00" && Label(12, 30) == "12:30";
  }

  lemma SlotsBefore14()
    ensures SlotsBefore(14) == ["10:00", "10:30", "11:00", "11:30", "12:00", "12:30"]
  {
    SlotsBefore13();
    SlotsBeforeStep(13);
  }

  lemma SlotsBefore15()
    ensures SlotsBefore(15) == ["10:00", "10:30", "11:00", "11:30", "12:00", "12:30", "14:00", "14:30"]
  {
    SlotsBefore14();
    SlotsBeforeStep(14);
    assert Label(14, 0) == "14:00" && Label(14, 30) == "14:30";
  }

  lemma SlotsBefore16()
    ensures SlotsBefore(16) == ["10:00", "10:30", "11:00", "11:30", "12:00", "12:30", "14:00", "14:30", "15:00", "15:30"]
  {
    SlotsBefore15();
    SlotsBeforeStep(15);
    assert Label(15, 0) == "15:00" && Label(15, 30) == "15:30";
  }

  /** The grid is exactly the twelve labels the server's tests list. */
  lemma TimeSlotsAreTwelve()
    ensures TimeSlots() == ["10:00", "10:30", "11:00", "11:30", "12:00", "12:30",
                            "14:00", "14:30", "15:00", "15:30", "16:00", "16:30"]
  {
    SlotsBefore16();
    SlotsBeforeStep(16);
    assert Label(16, 0) == "16:00" && Label(16, 30) == "16:30";
  }
  /** Strictly ascending times of day, each a well-formed "HH:MM" label. */
  predicate Ascending(slots: seq<string>)
  {
    && (forall i :: 0 <= i < |slots| ==> IsClockLabel(slots[i]))
    && (forall i, j :: 0 <= i < j < |slots| ==> ClockMinutes(slots[i]) < ClockMinutes(slots[j]))
  }

  lemma AscendingConcat(a: seq<string>, b: seq<string>)
    requires Ascending(a) && Ascending(b)
    requires forall i, j :: 0 <= i < |a| && 0 <= j < |b| ==> ClockMinutes(a[i]) < ClockMinutes(b[j])
    ensures Ascending(a + b)
  {
    var c := a + b;
    forall i, j | 0 <= i < j < |c|
      ensures ClockMinutes(c[i]) < ClockMinutes(c[j])
    {
      if j < |a| {
      } else if i < |a| {
        assert c[i] == a[i] && c[j] == b[j - |a|];
      } else {
        assert c[i] == b[i - |a|] && c[j] == b[j - |a|];
      }
    }
  }

  /** After each pass of the outer loop the list is ascending and stays before the next hour. */
  lemma {:induction false} SlotsBeforeAscending(hour: nat)
    requires FirstHour <= hour <= EndHour
    ensures Ascending(SlotsBefore(hour))
    ensures forall i :: 0 <= i < |SlotsBefore(hour)| ==> ClockMinutes(SlotsBefore(hour)[i]) < hour * 60
  {
    if hour > FirstHour {
      var h := hour - 1;
      SlotsBeforeAscending(h);
      SlotsBeforeStep(h);
      var added: seq<string> := if h == 13 then [] else [Label(h, 0), Label(h, 30)];
      LabelReadsBack(h, 0);
      LabelReadsBack(h, 30);
      assert Ascending(added);
      AscendingConcat(SlotsBefore(h), added);
    }
  }

  /** The grid is in strictly ascending order of time, so no label repeats. */
  lemma TimeSlotsAscending()
    ensures Ascending(TimeSlots())
    ensures forall i, j :: 0 <= i < |TimeSlots()| && 0 <= j < |TimeSlots()| && i != j ==> TimeSlots()[i] != TimeSlots()[j]
  {
    SlotsBeforeAscending(EndHour);
  }

  /** `s` is the :00 or :30 label of some hour before `hour` other than the lunch hour 13. */
  ghost predicate GridLabelBefore(s: string, hour: nat)
    requires hour <= EndHour
  {
    exists h: nat, m: nat :: FirstHour <= h < hour && h != 13 && (m == 0 || m == 30) && s == Label(h, m)
  }

  lemma GridLabelStep(s: string, h: nat)
    requires FirstHour <= h < EndHour
    ensures GridLabelBefore(s, h + 1) <==>
      GridLabelBefore(s, h) || (h != 13 && (s == Label(h, 0) || s == Label(h, 30)))
  {
    if GridLabelBefore(s, h + 1) {
      var h': nat, m: nat :| FirstHour <= h' < h + 1 && h' != 13 && (m == 0 || m == 30) && s == Label(h', m);
      if h' < h {
        assert GridLabelBefore(s, h);
      }
    }
    if GridLabelBefore(s, h) {
      var h': nat, m: nat :| FirstHour <= h' < h && h' != 13 && (m == 0 || m == 30) && s == Label(h', m);
      assert FirstHour <= h' < h + 1;
    }
    if h != 13 && s == Label(h, 0) {
      assert FirstHour <= h < h + 1 && h != 13 && s == Label(h, 0);
    }
    if h != 13 && s == Label(h, 30) {
      assert FirstHour <= h < h + 1 && h != 13 && s == Label(h, 30);
    }
  }

  /** A label lies in the list after `hour` passes exactly when it is the :00 or
      :30 label of an earlier hour, the lunch hour excepted. */
  lemma {:induction false} SlotsBeforeMembers(hour: nat, s: string)
    requires FirstHour <= hour <= EndHour
    ensures s in SlotsBefore(hour) <==> GridLabelBefore(s, hour)
  {
    if hour > FirstHour {
      var h := hour - 1;
      SlotsBeforeMembers(h, s);
      SlotsBeforeStep(h);
      GridLabelStep(s, h);
    }
  }

  /** The grid holds every :00 and :30 label from 10:00 to 16:30 except those of
      the lunch hour, and nothing else. */
  lemma TimeSlotsMembers(s: string)
    ensures s in TimeSlots() <==>
      exists h: nat, m: nat :: FirstHour <= h < EndHour && h != 13 && (m == 0 || m == 30) && s == Label(h, m)
  {
    SlotsBeforeMembers(EndHour, s);
  }

  /** No label of hour 17 or later is on the grid. */
  lemma LateLabelsOffGrid(s: string)
    requires IsClockLabel(s) && HourOf(s) >= EndHour
    ensures s !in TimeSlots()
  {
    TimeSlotsMembers(s);
    if s in TimeSlots() {
      var h: nat, m: nat :| FirstHour <= h < EndHour && h != 13 && (m == 0 || m == 30) && s == Label(h, m);
      LabelReadsBack(h, m);
      assert false;
    }
  }
}
