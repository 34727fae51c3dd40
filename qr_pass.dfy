/**
 * The access pass shown after a booking: the QR payload text, the image URL
 * built from it, the slot whose times the pass lists and the shortened ids in
 * its header and member row.
 */
module QRPass {
  import opened Common
  import opened Types
  import UriComponent

  const PayloadPrefix: string := "FitPass Gym Access - ID:"
  const GymSeparator: string := " - Gym:"
  const DateSeparator: string := " - Date:"
  const QrServicePrefix: string := "https://api.qrserver.com/v1/create-qr-code/?size=200x200&data="

  /** The text encoded in the QR image. */
  function Payload(booking: Booking, gymName: string): (r: string)
    ensures |r| == |PayloadPrefix| + |booking.id| + |GymSeparator| + |gymName| + |DateSeparator| + |booking.date|
    ensures r[..|PayloadPrefix|] == PayloadPrefix
  {
    PayloadPrefix + booking.id + GymSeparator + gymName + DateSeparator + booking.date
  }

  /** The booking id, the gym name and the date each sit at a fixed place in
      the payload, so each occurs in it. */
  lemma PayloadMentionsAll(booking: Booking, gymName: string)
    ensures var r := Payload(booking, gymName);
      var idAt := |PayloadPrefix|;
      var nameAt := idAt + |booking.id| + |GymSeparator|;
      var dateAt := nameAt + |gymName| + |DateSeparator|;
      r[idAt..idAt + |booking.id|] == booking.id &&
      r[nameAt..nameAt + |gymName|] == gymName &&
      r[dateAt..] == booking.date
    ensures Contains(Payload(booking, gymName), booking.id)
    ensures Contains(Payload(booking, gymName), gymName)
    ensures Contains(Payload(booking, gymName), booking.date)
  {
    var p := PayloadPrefix;
    ContainsMiddle(p, booking.id, GymSeparator + gymName + DateSeparator + booking.date);
    assert Payload(booking, gymName) == p + booking.id + (GymSeparator + gymName + DateSeparator + booking.date);
    ContainsMiddle(p + booking.id + GymSeparator, gymName, DateSeparator + booking.date);
    assert Payload(booking, gymName) == (p + booking.id + GymSeparator) + gymName + (DateSeparator + booking.date);
    ContainsMiddle(p + booking.id + GymSeparator + gymName + DateSeparator, booking.date, "");
    assert Payload(booking, gymName) == (p + booking.id + GymSeparator + gymName + DateSeparator) + booking.date + "";
  }

  /** The image URL: the service prefix followed by `encodeURIComponent` of
      the payload. Nothing after the prefix is a `&` or `#`, so the whole
      payload travels in the `data` parameter. */
  function QrUrl(payload: string): (r: string)
    ensures |r| >= |QrServicePrefix| + |payload|
    ensures r[..|QrServicePrefix|] == QrServicePrefix
    ensures forall i :: |QrServicePrefix| <= i < |r| ==> r[i] != '&' && r[i] != '#' && r[i] != ' '
  {
    QrServicePrefix + UriComponent.EncodeUriComponent(payload)
  }

  /** The `data` parameter of a pass URL. */
  function UrlData(url: string): string
    requires |QrServicePrefix| <= |url|
  {
    url[|QrServicePrefix|..]
  }

  /** Decoding the URL's data parameter gives back the payload, so passes of
      different bookings or gyms have different QR images. */
  lemma QrUrlCarriesPayload(booking: Booking, gymName: string)
    ensures UriComponent.DecodeUriComponent(UrlData(QrUrl(Payload(booking, gymName)))) == Some(Payload(booking, gymName))
  {
    var p := Payload(booking, gymName);
    assert UrlData(QrUrl(p)) == UriComponent.EncodeUriComponent(p);
    UriComponent.EncodeDecodeRoundTrip(p);
  }

  lemma QrUrlInjective(a: string, b: string)
    requires QrUrl(a) == QrUrl(b)
    ensures a == b
  {
    assert UrlData(QrUrl(a)) == UriComponent.EncodeUriComponent(a);
    assert UrlData(QrUrl(b)) == UriComponent.EncodeUriComponent(b);
    UriComponent.EncodeInjective(a, b);
  }

  /** `gym.slots.find(slot => slot.id === booking.slotId)`: the slot whose
      times the pass lists; the time row is left out when there is none. */
  function SlotFor(gym: Gym, booking: Booking): (r: Option<Slot>)
    ensures r.None? <==> forall s :: s in gym.slots ==> s.id != booking.slotId
    ensures r.Some? ==> r.value in gym.slots && r.value.id == booking.slotId
    ensures r.Some? ==> exists k :: (0 <= k < |gym.slots| && gym.slots[k] == r.value &&
      forall j :: 0 <= j < k ==> gym.slots[j].id != booking.slotId)
  {
    Find(gym.slots, (s: Slot) => s.id == booking.slotId)
  }

  /** The start and end times of the time row, when it is shown. */
  function TimeRow(gym: Gym, booking: Booking): (r: Option<(string, string)>)
    ensures r.Some? <==> SlotFor(gym, booking).Some?
  {
    match SlotFor(gym, booking)
    case None => None
    case Some(s) => Some((s.startTime, s.endTime))
  }

  /** `#` + `booking.id.substring(0, 8)`. */
  function HeaderId(booking: Booking): (r: string)
    ensures |r| == if |booking.id| < 8 then |booking.id| else 8
    ensures r <= booking.id
  {
    Take(booking.id, 8)
  }

  /** `booking.userId.substring(0, 8)`. */
  function MemberId(booking: Booking): (r: string)
    ensures |r| == if |booking.userId| < 8 then |booking.userId| else 8
    ensures r <= booking.userId
  {
    Take(booking.userId, 8)
  }
}
