/**
 * The gym detail page: the catalog lookup for the route id, the booking
 * record `bookSlot` stores, the pass/slot toggle, the related gyms and the
 * monthly price.
 */
module GymDetail {
  import opened Common
  import opened Types
  import Catalog
  import QRPass

  /** The lookup effect: nothing is looked up for an empty route id, and an
      unknown id leaves the page on its not-found view. */
  function FindGym(gyms: seq<Gym>, id: string): (r: Option<Gym>)
    ensures r.Some? ==> id != "" && r.value in gyms && r.value.id == id
    ensures r.Some? ==> exists k :: (0 <= k < |gyms| && gyms[k] == r.value &&
      forall j :: 0 <= j < k ==> gyms[j].id != id)
    ensures r.None? <==> id == "" || forall g :: g in gyms ==> g.id != id
  {
    if id == "" then None else Find(gyms, (g: Gym) => g.id == id)
  }

  /** `gym.slots.find(s => s.id === slotId)?.date || now`: `||` replaces
      both a missing slot and an empty date by the current time. */
  function BookingDate(gym: Gym, slotId: string, now: string): (r: string)
    ensures r == now || exists s :: s in gym.slots && s.id == slotId && s.date == r && r != ""
  {
    match Find(gym.slots, (s: Slot) => s.id == slotId)
    case Some(s) => if s.date != "" then s.date else now
    case None => now
  }

  /** The record `bookSlot` builds; `randomId` and `now` stand for the random
      string and the current timestamp the source draws. */
  function NewBooking(gym: Gym, slotId: string, randomId: string, now: string): (r: Booking)
    ensures r.id == randomId && r.gymId == gym.id && r.slotId == slotId
    ensures r.userId == "" && r.status == Confirmed
  {
    Booking(randomId, "", gym.id, slotId, BookingDate(gym, slotId, now), Confirmed)
  }

  /** With `k` the first slot with the id, the date is that slot's date when
      it is not empty and the current time when it is. */
  lemma BookingDateSpec(gym: Gym, slotId: string, now: string, k: int)
    requires 0 <= k < |gym.slots| && gym.slots[k].id == slotId
    requires forall j :: 0 <= j < k ==> gym.slots[j].id != slotId
    ensures gym.slots[k].date != "" ==> BookingDate(gym, slotId, now) == gym.slots[k].date
    ensures gym.slots[k].date == "" ==> BookingDate(gym, slotId, now) == now
  {
    var m := FindIndex(gym.slots, (s: Slot) => s.id == slotId);
    assert m == k;
  }

  /** With no slot of that id the date is the current time. */
  lemma BookingDateFallback(gym: Gym, slotId: string, now: string)
    requires forall s :: s in gym.slots ==> s.id != slotId
    ensures BookingDate(gym, slotId, now) == now
  {
  }

  /** A booking for a listed slot carries that slot's times onto the pass, and
      its payload names the booking id, the gym and the date. */
  lemma BookedPassShowsSlot(gym: Gym, slotId: string, randomId: string, now: string, k: int)
    requires 0 <= k < |gym.slots| && gym.slots[k].id == slotId
    requires forall j :: 0 <= j < k ==> gym.slots[j].id != slotId
    ensures var b := NewBooking(gym, slotId, randomId, now);
      QRPass.SlotFor(gym, b) == Some(gym.slots[k]) &&
      QRPass.TimeRow(gym, b) == Some((gym.slots[k].startTime, gym.slots[k].endTime)) &&
      QRPass.MemberId(b) == "" &&
      Contains(QRPass.Payload(b, gym.name), randomId)
  {
    var b := NewBooking(gym, slotId, randomId, now);
    var m := FindIndex(gym.slots, (s: Slot) => s.id == slotId);
    assert m == k;
    QRPass.PayloadMentionsAll(b, gym.name);
  }

  /** `mockGyms.filter(g => g.id !== gym.id).slice(0, 2)`. */
  function RelatedGyms(gyms: seq<Gym>, currentId: string): seq<Gym> {
    var others := Filter(gyms, (g: Gym) => g.id != currentId);
    if |others| <= 2 then others else others[..2]
  }

  /** At most two gyms, none of them the current one, in catalog order. */
  lemma RelatedGymsSpec(gyms: seq<Gym>, currentId: string)
    ensures var r := RelatedGyms(gyms, currentId);
      |r| <= 2 && IsSubsequence(r, gyms) &&
      (forall g :: g in r ==> g.id != currentId && g in gyms)
  {
    var p := (g: Gym) => g.id != currentId;
    var others := Filter(gyms, p);
    FilterIsSubsequence(gyms, p);
    SubsequencePrefix(others, gyms, if |others| <= 2 then |others| else 2);
    assert others[..|others|] == others;
    var r := RelatedGyms(gyms, currentId);
    forall g | g in r ensures g.id != currentId && g in gyms {
      assert g in others;
    }
  }

  /** `filter` over three gyms keeps each one that passes, in order. */
  lemma FilterThree(x: Gym, y: Gym, z: Gym, p: Gym -> bool)
    ensures Filter([x, y, z], p) ==
      (if p(x) then [x] else []) + (if p(y) then [y] else []) + (if p(z) then [z] else [])
  {
    assert [x, y, z][1..] == [y, z];
    assert [y, z][1..] == [z];
    assert [z][1..] == [];
    assert Filter([z], p) == (if p(z) then [z] else []);
    assert Filter([y, z], p) == (if p(y) then [y] else []) + Filter([z], p);
    assert Filter([x, y, z], p) == (if p(x) then [x] else []) + Filter([y, z], p);
  }

  /** In a list of three gyms with distinct ids every gym has exactly the
      two others as related gyms. */
  lemma RelatedOfThree(gyms: seq<Gym>, k: int)
    requires |gyms| == 3 && Catalog.GymIdsDistinct(gyms)
    requires 0 <= k < 3
    ensures RelatedGyms(gyms, gyms[k].id) == Filter(gyms, (g: Gym) => g.id != gyms[k].id)
    ensures |RelatedGyms(gyms, gyms[k].id)| == 2
  {
    var p := (g: Gym) => g.id != gyms[k].id;
    assert gyms == [gyms[0], gyms[1], gyms[2]];
    FilterThree(gyms[0], gyms[1], gyms[2], p);
    if k == 0 {
      assert p(gyms[1]) && p(gyms[2]);
    } else if k == 1 {
      assert p(gyms[0]) && p(gyms[2]);
    } else {
      assert p(gyms[0]) && p(gyms[1]);
    }
  }

  /** On the catalog every gym has exactly two related gyms. */
  lemma CatalogRelatedGyms(k: int)
    requires 0 <= k < 3
    ensures |RelatedGyms(Catalog.MockGyms, Catalog.MockGyms[k].id)| == 2
  {
    Catalog.MockCatalogIdsDistinct();
    RelatedOfThree(Catalog.MockGyms, k);
  }

  /** The monthly pass is priced at ten daily passes. */
  function MonthlyPrice(gym: Gym): (r: real)
    ensures gym.price >= 0.0 ==> r >= gym.price
  {
    gym.price * 10.0
  }

  lemma CatalogMonthlyPrices()
    ensures MonthlyPrice(Catalog.MockGyms[0]) == 500.0
    ensures MonthlyPrice(Catalog.MockGyms[1]) == 750.0
    ensures MonthlyPrice(Catalog.MockGyms[2]) == 600.0
  {
  }

  /** The page state once the gym was found. */
  class GymDetailState {
    const gym: Gym
    var booking: Option<Booking>
    var showQR: bool

    /** A stored booking is one made on this page, for this gym. */
    ghost predicate Valid()
      reads this
    {
      booking.Some? ==> booking.value.gymId == gym.id && booking.value.status == Confirmed
    }

    constructor (gym: Gym)
      ensures Valid()
      ensures this.gym == gym && booking.None? && !showQR
    {
      this.gym := gym;
      booking := None;
      showQR := false;
    }

    /** `bookSlot`: builds the record, stores it (the latest booking wins)
        and returns it; the gym and its slot counts are not touched. */
    method BookSlot(slotId: string, randomId: string, now: string) returns (b: Booking)
      requires Valid()
      modifies this
      ensures Valid()
      ensures b == NewBooking(gym, slotId, randomId, now)
      ensures booking == Some(b) && showQR == old(showQR)
    {
      b := NewBooking(gym, slotId, randomId, now);
      booking := Some(b);
    }

    /** "View My QR Pass", shown only once a booking exists. */
    method ViewPass()
      requires Valid() && booking.Some?
      modifies this
      ensures Valid()
      ensures showQR && booking == old(booking)
    {
      showQR := true;
    }

    /** "Book Another Slot", shown only once a booking exists. */
    method BookAnother()
      requires Valid() && booking.Some?
      modifies this
      ensures Valid()
      ensures !showQR && booking == old(booking)
    {
      showQR := false;
    }

    /** The slot picker shows while the pass is hidden. */
    predicate ShowsSlotBooking()
      reads this
    {
      !showQR
    }

    /** The pass shows once a booking exists and the pass was asked for. */
    predicate ShowsPass()
      reads this
    {
      booking.Some? && showQR
    }
  }

  /** Booking a listed slot and asking for the pass shows the pass for this
      gym with that slot's times, and hides the picker; "Book Another Slot"
      brings the picker back and keeps the booking, so asking again shows the
      same pass. */
  method BookViewAndBookAnother(gym: Gym, slotId: string, randomId: string, now: string, k: int)
      returns (afterView: bool, pickerAfterView: bool, slot: Option<Slot>,
               pickerAfterAnother: bool, sameBookingKept: bool)
    requires 0 <= k < |gym.slots| && gym.slots[k].id == slotId
    requires forall j :: 0 <= j < k ==> gym.slots[j].id != slotId
    ensures afterView && !pickerAfterView
    ensures slot == Some(gym.slots[k])
    ensures pickerAfterAnother && sameBookingKept
  {
    var page := new GymDetailState(gym);
    var b := page.BookSlot(slotId, randomId, now);
    page.ViewPass();
    afterView := page.ShowsPass();
    pickerAfterView := page.ShowsSlotBooking();
    BookedPassShowsSlot(gym, slotId, randomId, now, k);
    slot := QRPass.SlotFor(gym, page.booking.value);
    page.BookAnother();
    pickerAfterAnother := page.ShowsSlotBooking() && !page.ShowsPass();
    page.ViewPass();
    sameBookingKept := page.ShowsPass() && page.booking == Some(b);
  }

  /** Any shown pass is for the page's own gym, and the pass and the picker
      never show together. */
  lemma ShownPassIsForThisGym(s: GymDetailState)
    requires s.Valid() && s.ShowsPass()
    ensures s.booking.value.gymId == s.gym.id && s.booking.value.status == Confirmed
    ensures !s.ShowsSlotBooking()
  {
  }
}
