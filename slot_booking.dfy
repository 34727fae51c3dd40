/**
 * The slot picker of a gym page: the date list, the slots of the chosen
 * date, the availability label and colour, the per-slot button and the
 * request state machine around `onBookSlot`.
 */
module SlotBooking {
  import opened Common
  import opened Types

  const FailedMessage: string := "Failed to book slot. Please try again."
  const ErrorMessage: string := "An error occurred. Please try again."

  // ---------------------------------------------------------------------
  // Dates and the slots of one date

  function DateColumn(slots: seq<Slot>): (r: seq<string>)
    ensures |r| == |slots|
    ensures forall i :: 0 <= i < |slots| ==> r[i] == slots[i].date
  {
    seq(|slots|, i requires 0 <= i < |slots| => slots[i].date)
  }

  /** `[...new Set(slots.map(slot => slot.date))]`. */
  function DateOptions(slots: seq<Slot>): seq<string> {
    Dedupe(DateColumn(slots))
  }

  /** `slots[0]?.date || ''`. */
  function InitialSelectedDate(slots: seq<Slot>): string {
    if |slots| > 0 then slots[0].date else ""
  }

  function OnDate(date: string): Slot -> bool {
    (s: Slot) => s.date == date
  }

  /** `slots.filter(slot => slot.date === selectedDate)`. */
  function FilteredSlots(slots: seq<Slot>, selectedDate: string): seq<Slot> {
    Filter(slots, OnDate(selectedDate))
  }

  /** The dates offered are the slot dates, each once, in order of first
      appearance. */
  lemma DateOptionsSpec(slots: seq<Slot>)
    ensures var d := DateOptions(slots);
      NoDup(d) &&
      (forall date :: date in d <==> exists s :: s in slots && s.date == date) &&
      (forall i, j :: 0 <= i < j < |d| ==> IndexOf(DateColumn(slots), d[i]) < IndexOf(DateColumn(slots), d[j]))
  {
    var col := DateColumn(slots);
    DedupeFirstOccurrenceOrder(col);
    forall date ensures date in col <==> exists s :: s in slots && s.date == date {
      if date in col {
        var i :| 0 <= i < |col| && col[i] == date;
        assert slots[i] in slots;
      }
      if exists s :: s in slots && s.date == date {
        var s :| s in slots && s.date == date;
        var i :| 0 <= i < |slots| && slots[i] == s;
        assert col[i] == date;
      }
    }
  }

  /** The shown slots are exactly those on the selected date, in order; the
      initial date is the first slot's, so initially at least that slot shows. */
  lemma FilteredSlotsSpec(slots: seq<Slot>, selectedDate: string)
    ensures var r := FilteredSlots(slots, selectedDate);
      IsSubsequence(r, slots) &&
      (forall s :: s in r <==> s in slots && s.date == selectedDate)
    ensures |slots| > 0 ==> slots[0] in FilteredSlots(slots, InitialSelectedDate(slots))
  {
    FilterIsSubsequence(slots, OnDate(selectedDate));
  }

  // ---------------------------------------------------------------------
  // Label and colour

  datatype Availability = Full | AlmostFull | Available

  /** The text under the colour dot. */
  function AvailabilityLabel(slot: Slot): (r: Availability)
    ensures r == Full <==> slot.booked >= slot.capacity
    ensures r == AlmostFull <==>
      slot.capacity as real * 0.8 <= slot.booked as real && slot.booked < slot.capacity
    ensures r == Available <==>
      slot.booked < slot.capacity && (slot.booked as real) < slot.capacity as real * 0.8
  {
    if slot.booked >= slot.capacity then Full
    else if slot.booked as real >= slot.capacity as real * 0.8 then AlmostFull
    else Available
  }

  datatype Colour = Green | Yellow | Red

  /** `(booked / capacity) * 100` compared with 50 and 80. With zero capacity
      the double division gives NaN (booked 0), +Infinity (booked > 0) or
      -Infinity (booked < 0); only the last compares below 50. */
  function AvailabilityColour(slot: Slot): Colour {
    if slot.capacity == 0 then (if slot.booked < 0 then Green else Red)
    else
      var percent := (slot.booked as real / slot.capacity as real) * 100.0;
      if percent < 50.0 then Green else if percent < 80.0 then Yellow else Red
  }

  /** Comparing a percentage of a positive whole is comparing cross products. */
  lemma PercentBelow(b: real, c: real, t: real)
    requires c > 0.0
    ensures (b / c) * 100.0 < t <==> 100.0 * b < t * c
  {
    var q := b / c;
    assert q * c == b;
    if q * 100.0 < t {
      assert (q * 100.0) * c < t * c;
    } else {
      assert (q * 100.0) * c >= t * c;
    }
  }

  /** For a positive capacity: green below half booked, yellow from half to
      below 80%, red from 80% on. */
  lemma ColourThresholds(slot: Slot)
    requires slot.capacity > 0
    ensures AvailabilityColour(slot) == Green <==> 2 * slot.booked < slot.capacity
    ensures AvailabilityColour(slot) == Yellow <==>
      slot.capacity <= 2 * slot.booked && 5 * slot.booked < 4 * slot.capacity
    ensures AvailabilityColour(slot) == Red <==> 4 * slot.capacity <= 5 * slot.booked
  {
    var b := slot.booked as real;
    var c := slot.capacity as real;
    PercentBelow(b, c, 50.0);
    PercentBelow(b, c, 80.0);
  }

  /** For a non-negative capacity the dot is red exactly when the label is
      not `Available`. */
  lemma ColourAgreesWithLabel(slot: Slot)
    requires slot.capacity >= 0
    ensures AvailabilityColour(slot) == Red <==> AvailabilityLabel(slot) != Available
  {
    if slot.capacity > 0 {
      ColourThresholds(slot);
      var b := slot.booked as real;
      var c := slot.capacity as real;
      assert c * 0.8 <= b <==> 4.0 * c <= 5.0 * b;
    }
  }

  /** The example slot 101: 8 of 20 booked is 40%, so green and `Available`. */
  lemma ExampleSlot101()
    ensures var s := Slot("101", "1", "2025-06-01", "07:00", "08:30", 20, 8);
      AvailabilityColour(s) == Green && AvailabilityLabel(s) == Available && s.capacity - s.booked == 12
  {
    ColourThresholds(Slot("101", "1", "2025-06-01", "07:00", "08:30", 20, 8));
  }

  // ---------------------------------------------------------------------
  // The per-slot button

  datatype ButtonLabel = BookedSuccessfully | FullyBooked | BookSlot

  datatype SlotButton = SlotButton(caption: ButtonLabel, disabled: bool, spinner: bool)

  /** The button a slot card renders. The spinner reads `bookedSlotId`
      by truthiness, so an empty id counts as none. */
  function ButtonFor(slot: Slot, bookedSlotId: Option<string>, isLoading: bool): SlotButton {
    if bookedSlotId == Some(slot.id) then SlotButton(BookedSuccessfully, true, false)
    else
      var full := slot.booked >= slot.capacity;
      SlotButton(if full then FullyBooked else BookSlot,
        full || isLoading,
        isLoading && (bookedSlotId.None? || bookedSlotId.value == ""))
  }

  /** A slot's button can be clicked exactly when that slot is not the booked
      one, has room, and no request is in flight. */
  lemma ButtonEnabled(slot: Slot, bookedSlotId: Option<string>, isLoading: bool)
    ensures var b := ButtonFor(slot, bookedSlotId, isLoading);
      !b.disabled <==> bookedSlotId != Some(slot.id) && slot.booked < slot.capacity && !isLoading
    ensures ButtonFor(slot, bookedSlotId, isLoading).caption == BookedSuccessfully <==> bookedSlotId == Some(slot.id)
  {
  }

  /** With distinct slot ids, at most one card shows `Booked Successfully`. */
  lemma AtMostOneBooked(slots: seq<Slot>, bookedSlotId: Option<string>, isLoading: bool)
    requires forall i, j :: 0 <= i < j < |slots| ==> slots[i].id != slots[j].id
    ensures forall i, j :: 0 <= i < j < |slots| ==>
      !(ButtonFor(slots[i], bookedSlotId, isLoading).caption == BookedSuccessfully &&
        ButtonFor(slots[j], bookedSlotId, isLoading).caption == BookedSuccessfully)
  {
  }

  // ---------------------------------------------------------------------
  // The request state machine

  /** What the awaited `onBookSlot` call produced. */
  datatype BookResult = Returned(booking: Option<Booking>) | Threw

  class SlotBookingState {
    const slots: seq<Slot>
    var selectedDate: string
    var isLoading: bool
    var bookedSlotId: Option<string>
    var error: Option<string>
    /** The slot ids passed to `onBookSlot`, oldest first. */
    var requests: seq<string>

    /** Every request was for a listed slot with room left, and a booked
        slot is one that was requested. */
    ghost predicate Valid()
      reads this
    {
      (forall r :: r in requests ==> exists s :: s in slots && s.id == r && s.booked < s.capacity) &&
      (bookedSlotId.Some? ==> bookedSlotId.value in requests)
    }

    constructor (slots: seq<Slot>)
      ensures Valid()
      ensures this.slots == slots && selectedDate == InitialSelectedDate(slots)
      ensures !isLoading && bookedSlotId.None? && error.None? && requests == []
    {
      this.slots := slots;
      selectedDate := InitialSelectedDate(slots);
      isLoading := false;
      bookedSlotId := None;
      error := None;
      requests := [];
    }

    method ChangeDate(date: string)
      requires Valid()
      modifies this
      ensures Valid()
      ensures selectedDate == date && error.None?
      ensures isLoading == old(isLoading) && bookedSlotId == old(bookedSlotId) && requests == old(requests)
    {
      selectedDate := date;
      error := None;
    }

    /** A click on the button of `slot`, one of the slots listed for the
        selected date. A disabled button does nothing;
        otherwise the handler clears the error, sets `isLoading` and issues the
        request. */
    method ClickBook(slot: Slot)
      requires Valid()
      requires slot in FilteredSlots(slots, selectedDate)
      modifies this
      ensures Valid()
      ensures var b := ButtonFor(slot, old(bookedSlotId), old(isLoading));
        if b.disabled then
          isLoading == old(isLoading) && error == old(error) && requests == old(requests)
        else
          slot.booked < slot.capacity && slot.date == selectedDate &&
          isLoading && error.None? && requests == old(requests) + [slot.id]
      ensures bookedSlotId == old(bookedSlotId) && selectedDate == old(selectedDate)
    {
      var b := ButtonFor(slot, bookedSlotId, isLoading);
      if b.disabled {
        return;
      }
      isLoading := true;
      error := None;
      requests := requests + [slot.id];
    }

    /** The continuation after `onBookSlot(slotId)` settles, for the request
        the last enabled click started: a booking marks the slot booked,
        `null` or a throw sets the matching message, and the `finally` clears
        `isLoading` on every path. */
    method FinishBooking(slotId: string, result: BookResult)
      requires Valid()
      requires isLoading && requests != [] && slotId == requests[|requests| - 1]
      modifies this
      ensures Valid()
      ensures !isLoading
      ensures match result
        case Returned(Some(_)) => bookedSlotId == Some(slotId) && error == old(error)
        case Returned(None) => bookedSlotId == old(bookedSlotId) && error == Some(FailedMessage)
        case Threw => bookedSlotId == old(bookedSlotId) && error == Some(ErrorMessage)
      ensures selectedDate == old(selectedDate) && requests == old(requests)
    {
      match result {
        case Returned(booking) =>
          if booking.Some? {
            bookedSlotId := Some(slotId);
          } else {
            error := Some(FailedMessage);
          }
        case Threw =>
          error := Some(ErrorMessage);
      }
      isLoading := false;
    }
  }

  /** A slot shown as booked was listed and had room when it was clicked. */
  lemma BookedSlotHadRoom(st: SlotBookingState)
    requires st.Valid() && st.bookedSlotId.Some?
    ensures exists s :: s in st.slots && s.id == st.bookedSlotId.value && s.booked < s.capacity
  {
  }
}
