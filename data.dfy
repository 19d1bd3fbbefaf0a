/** The in-memory data layer: the cabin catalog, the weekend pricing rule, the
    read operations over the reservation list and the reservation store whose
    operations append to it and change reservations in place. */
module Data {
  import opened Types

  // ---------------------------------------------------------------------------
  // Catalog
  // ---------------------------------------------------------------------------

  /** The fixed list of cabins. */
  const Cabins: seq<Cabin> := [
    Cabin("cabin1", "Lakeside Retreat",
      "A beautiful cabin by the serene lake, perfect for a weekend getaway.",
      "https://picsum.photos/seed/cabin1/600/400", 150,
      ["Wi-Fi", "Kitchen", "Lake View", "Fireplace"], 4),
    Cabin("cabin2", "Mountain Hideaway",
      "Cozy cabin nestled in the mountains, offering breathtaking views.",
      "https://picsum.photos/seed/cabin2/600/400", 180,
      ["Hot Tub", "Mountain View", "Hiking Trails Access", "BBQ Grill"], 6),
    Cabin("cabin3", "Forest Haven",
      "A secluded cabin deep in the forest, ideal for nature lovers.",
      "https://picsum.photos/seed/cabin3/600/400", 120,
      ["Pet Friendly", "Forest Access", "Private Deck", "Star Gazing"], 2)
  ]

  /** The catalog holds three cabins with distinct ids, positive prices and
      positive capacities. */
  lemma CatalogWellFormed()
    ensures |Cabins| == 3
    ensures forall i, j :: 0 <= i < j < |Cabins| ==> Cabins[i].id != Cabins[j].id
    ensures forall i :: 0 <= i < |Cabins| ==> Cabins[i].basePrice > 0 && Cabins[i].capacity > 0
  {
  }

  /** The first cabin of `cabins` with the given id, if any. */
  function FindCabin(cabins: seq<Cabin>, id: string): (found: Option<Cabin>)
    ensures found.None? <==> forall i :: 0 <= i < |cabins| ==> cabins[i].id != id
    ensures found.Some? ==>
      exists i :: 0 <= i < |cabins| && cabins[i] == found.value && found.value.id == id &&
        forall j :: 0 <= j < i ==> cabins[j].id != id
  {
    if |cabins| == 0 then None
    else if cabins[0].id == id then Some(cabins[0])
    else
      var rest := FindCabin(cabins[1..], id);
      assert rest.Some? ==> exists i :: 1 <= i < |cabins| && cabins[i] == rest.value && forall j :: 0 <= j < i ==> cabins[j].id != id by {
        if rest.Some? {
          var k :| 0 <= k < |cabins[1..]| && cabins[1..][k] == rest.value && rest.value.id == id &&
            forall j :: 0 <= j < k ==> cabins[1..][j].id != id;
          assert cabins[k + 1] == rest.value;
          assert forall j :: 1 <= j < k + 1 ==> cabins[j].id == cabins[1..][j - 1].id;
        }
      }
      assert rest.None? ==> forall i :: 1 <= i < |cabins| ==> cabins[i].id == cabins[1..][i - 1].id;
      rest
  }

  // ---------------------------------------------------------------------------
  // Pricing
  // ---------------------------------------------------------------------------

  /** The nightly price of a cabin with base price `basePrice` for the night of
      `date`: on Saturday and Sunday the base price plus 20%, rounded to the
      nearest whole unit as `Math.round` does (a value `x` rounds to the `p`
      with p - 1/2 <= x < p + 1/2); on the other days the base price itself.
      For an integer base price six fifths of it never ends in exactly one
      half, so the rounding is exact in integers. */
  function CalculatePrice(basePrice: int, date: Day): (price: int)
    ensures (DayOfWeek(date) == 0 || DayOfWeek(date) == 6) ==>
      10 * price - 5 <= 12 * basePrice < 10 * price + 5
    ensures 1 <= DayOfWeek(date) <= 5 ==> price == basePrice
  {
    var day := DayOfWeek(date);
    if day == 0 || day == 6 then (6 * basePrice + 2) / 5 else basePrice
  }

  // ---------------------------------------------------------------------------
  // Reading the reservation list
  // ---------------------------------------------------------------------------

  /** Reservation `r` holds night `d` of cabin `cabinId`. */
  predicate Books(r: Reservation, cabinId: string, d: Day)
  {
    r.cabinId == cabinId && Active(r.status) && r.checkInDate == d
  }

  /** The check-in days of the confirmed or pending reservations of a cabin, in
      store order. */
  function BookedDates(records: seq<Reservation>, cabinId: string): (dates: seq<Day>)
    ensures |dates| <= |records|
    ensures forall d :: d in dates <==> exists i :: 0 <= i < |records| && Books(records[i], cabinId, d)
  {
    if |records| == 0 then []
    else
      var rest := BookedDates(records[1..], cabinId);
      assert forall i :: 1 <= i < |records| ==> records[i] == records[1..][i - 1];
      (if Active(records[0].status) && records[0].cabinId == cabinId then [records[0].checkInDate] else []) + rest
  }

  /** The booked days of a concatenation are those of the first part followed
      by those of the second: the scan keeps store order. */
  lemma {:induction false} BookedDatesAppend(a: seq<Reservation>, b: seq<Reservation>, cabinId: string)
    ensures BookedDates(a + b, cabinId) == BookedDates(a, cabinId) + BookedDates(b, cabinId)
  {
    if |a| > 0 {
      assert (a + b)[1..] == a[1..] + b;
      BookedDatesAppend(a[1..], b, cabinId);
    } else {
      assert a + b == b;
    }
  }

  /** The booked days of a list are those before position `i`, then the day
      the reservation at `i` contributes, then those after it. */
  lemma BookedDatesAround(records: seq<Reservation>, i: nat, cabinId: string)
    requires i < |records|
    ensures BookedDates(records, cabinId) ==
      BookedDates(records[..i], cabinId)
      + (if Books(records[i], cabinId, records[i].checkInDate) then [records[i].checkInDate] else [])
      + BookedDates(records[i + 1..], cabinId)
  {
    assert records == records[..i] + [records[i]] + records[i + 1..];
    BookedDatesAppend(records[..i] + [records[i]], records[i + 1..], cabinId);
    BookedDatesAppend(records[..i], [records[i]], cabinId);
  }

  /** Replacing the reservation at position `i` changes only the day
      contributed at that position. */
  lemma BookedDatesReplace(records: seq<Reservation>, i: nat, r: Reservation, cabinId: string)
    requires i < |records|
    ensures BookedDates(records[i := r], cabinId) ==
      BookedDates(records[..i], cabinId)
      + (if Books(r, cabinId, r.checkInDate) then [r.checkInDate] else [])
      + BookedDates(records[i + 1..], cabinId)
  {
    var t := records[i := r];
    assert t[..i] == records[..i] && t[i + 1..] == records[i + 1..];
    BookedDatesAround(t, i, cabinId);
  }

  /** `sub` is `s` with some elements left out and the rest kept in order. */
  ghost predicate IsSubsequence<T>(sub: seq<T>, s: seq<T>)
    decreases |s|
  {
    if sub == [] then true
    else if s == [] then false
    else (sub[0] == s[0] && IsSubsequence(sub[1..], s[1..])) || IsSubsequence(sub, s[1..])
  }

  /** The reservations made by user `userId`, in store order. */
  function GetReservationsForUser(records: seq<Reservation>, userId: string): (mine: seq<Reservation>)
    ensures forall r :: r in mine <==> r in records && r.userId == userId
    ensures IsSubsequence(mine, records)
  {
    if |records| == 0 then []
    else
      var rest := GetReservationsForUser(records[1..], userId);
      assert forall r :: r in records <==> r == records[0] || r in records[1..];
      if records[0].userId == userId then
        assert ([records[0]] + rest)[1..] == rest;
        [records[0]] + rest
      else rest
  }

  /** The user filter of a concatenation is the concatenation of the filters. */
  lemma {:induction false} ReservationsForUserAppend(a: seq<Reservation>, b: seq<Reservation>, userId: string)
    ensures GetReservationsForUser(a + b, userId) ==
      GetReservationsForUser(a, userId) + GetReservationsForUser(b, userId)
  {
    if |a| > 0 {
      assert (a + b)[1..] == a[1..] + b;
      ReservationsForUserAppend(a[1..], b, userId);
    } else {
      assert a + b == b;
    }
  }

  /** The position of the first reservation with id `id`, if any. */
  function FindIndex(records: seq<Reservation>, id: string): (index: Option<nat>)
    ensures index.None? <==> forall j :: 0 <= j < |records| ==> records[j].id != id
    ensures index.Some? ==>
      index.value < |records| && records[index.value].id == id &&
      forall j :: 0 <= j < index.value ==> records[j].id != id
  {
    if |records| == 0 then None
    else if records[0].id == id then Some(0)
    else
      match FindIndex(records[1..], id)
      case None => None
      case Some(i) => Some(i + 1)
  }

  /** Two lists with the same ids at the same positions locate an id at the same place. */
  lemma {:induction false} FindIndexSameIds(s: seq<Reservation>, t: seq<Reservation>, id: string)
    requires |s| == |t|
    requires forall j :: 0 <= j < |s| ==> s[j].id == t[j].id
    ensures FindIndex(s, id) == FindIndex(t, id)
  {
    if |s| > 0 && s[0].id != id {
      FindIndexSameIds(s[1..], t[1..], id);
    }
  }

  /** The first reservation with id `id`, or `None` when there is none. */
  function GetReservationById(records: seq<Reservation>, id: string): (found: Option<Reservation>)
    ensures found.None? <==> forall j :: 0 <= j < |records| ==> records[j].id != id
    ensures found.Some? ==>
      found.value.id == id &&
      exists i :: 0 <= i < |records| && records[i] == found.value &&
        forall j :: 0 <= j < i ==> records[j].id != id
  {
    match FindIndex(records, id)
    case None => None
    case Some(i) => Some(records[i])
  }

  // ---------------------------------------------------------------------------
  // Invariants of the reservation list
  // ---------------------------------------------------------------------------

  /** No reservation in `records` has id `id`. */
  predicate FreshId(records: seq<Reservation>, id: string)
  {
    forall j :: 0 <= j < |records| ==> records[j].id != id
  }

  /** No two reservations share an id. */
  predicate UniqueIds(records: seq<Reservation>)
  {
    forall i, j :: 0 <= i < j < |records| ==> records[i].id != records[j].id
  }

  /** Every reservation is a one-night stay. */
  predicate OneNightStays(records: seq<Reservation>)
  {
    forall i :: 0 <= i < |records| ==> OneNight(records[i])
  }

  /** No night of a cabin is held by two active reservations. */
  predicate NoDoubleBooking(records: seq<Reservation>)
  {
    forall i, j :: 0 <= i < |records| && 0 <= j < |records| && i != j &&
      records[i].cabinId == records[j].cabinId && Active(records[i].status) && Active(records[j].status)
      ==> records[i].checkInDate != records[j].checkInDate
  }

  /** `after` is `before` with possibly another status and payment id: the id,
      cabin, cabin name, user, dates, price and creation time are the same. */
  predicate SameBooking(after: Reservation, before: Reservation)
  {
    after.id == before.id && after.cabinId == before.cabinId && after.cabinName == before.cabinName &&
    after.userId == before.userId && after.checkInDate == before.checkInDate &&
    after.checkOutDate == before.checkOutDate && after.totalPrice == before.totalPrice &&
    after.createdAt == before.createdAt
  }

  // ---------------------------------------------------------------------------
  // Status changes, as functions of the reservation list
  // ---------------------------------------------------------------------------

  /** The value an operation returns, with the reservation list it leaves behind. */
  datatype Step = Step(result: Option<Reservation>, records: seq<Reservation>)

  /** A payment id counts as given only when present and non-empty (the empty
      string is falsy). */
  predicate Supplied(paymentId: Option<string>)
  {
    paymentId.Some? && paymentId.value != ""
  }

  /** Setting the status of the first reservation with id `id`, whatever its
      current status, and its payment id when one is given. */
  function UpdateStatus(records: seq<Reservation>, id: string, status: Status, paymentId: Option<string>): (out: Step)
    ensures |out.records| == |records|
    ensures forall j :: 0 <= j < |records| ==> SameBooking(out.records[j], records[j])
    ensures FindIndex(records, id).None? ==> out.result.None? && out.records == records
    ensures FindIndex(records, id).Some? ==>
      var i := FindIndex(records, id).value;
      && out.result == Some(out.records[i])
      && out.records[i].status == status
      && out.records[i].paymentId == (if Supplied(paymentId) then paymentId else records[i].paymentId)
      && forall j :: 0 <= j < |records| && j != i ==> out.records[j] == records[j]
  {
    match FindIndex(records, id)
    case None => Step(None, records)
    case Some(i) =>
      var r := records[i].(status := status,
                           paymentId := if Supplied(paymentId) then paymentId else records[i].paymentId);
      Step(Some(r), records[i := r])
  }

  /** Cancelling the first reservation with id `id`: allowed only while it is
      confirmed or pending payment; it then becomes cancelled. */
  function Cancel(records: seq<Reservation>, id: string): (out: Step)
    ensures |out.records| == |records|
    ensures forall j :: 0 <= j < |records| ==> SameBooking(out.records[j], records[j])
    ensures out.result.Some? <==>
      FindIndex(records, id).Some? && Active(records[FindIndex(records, id).value].status)
    ensures out.result.None? ==> out.records == records
    ensures out.result.Some? ==>
      var i := FindIndex(records, id).value;
      && out.result == Some(out.records[i])
      && out.records[i].status == Cancelled
      && out.records[i].paymentId == records[i].paymentId
      && forall j :: 0 <= j < |records| && j != i ==> out.records[j] == records[j]
  {
    match FindIndex(records, id)
    case None => Step(None, records)
    case Some(i) =>
      if Active(records[i].status) then
        var r := records[i].(status := Cancelled);
        Step(Some(r), records[i := r])
      else Step(None, records)
  }

  // ---------------------------------------------------------------------------
  // The reservation store
  // ---------------------------------------------------------------------------

  /** The single reservation the store starts with: a confirmed, paid stay in
      the first cabin three days after `today`. */
  function Seed(today: Day, createdAt: string): seq<Reservation>
  {
    [Reservation("res-initial-1", "cabin1", "Lakeside Retreat", "user123", today + 3, today + 4,
                 150, Confirmed, Some("pay_initial_xyz123"), createdAt)]
  }

  /** The module-level list of reservations and the operations that change it. */
  class ReservationStore {
    var records: seq<Reservation>

    /** Ids are unique: they come from a generator that never repeats one. */
    ghost predicate Valid()
      reads this
    {
      UniqueIds(records)
    }

    /** The store as the application starts it, on day `today`. */
    constructor Seeded(today: Day, createdAt: string)
      ensures Valid()
      ensures records == Seed(today, createdAt)
      ensures OneNightStays(records) && NoDoubleBooking(records)
    {
      records := Seed(today, createdAt);
    }

    /** Appends a new pending reservation built from `data`, with the fresh id
      `id` and creation time `createdAt`, and returns it. No availability check
      is made. */
    method AddReservation(data: ReservationData, id: string, createdAt: string) returns (r: Reservation)
      requires Valid()
      requires FreshId(records, id)
      modifies this
      ensures Valid()
      ensures records == old(records) + [r]
      ensures r.id == id && r.createdAt == createdAt && r.status == PendingPayment
      ensures r.cabinId == data.cabinId && r.cabinName == data.cabinName && r.userId == data.userId
      ensures r.checkInDate == data.checkInDate && r.checkOutDate == data.checkOutDate
      ensures r.totalPrice == data.totalPrice && r.paymentId == data.paymentId
    {
      r := Reservation(id, data.cabinId, data.cabinName, data.userId, data.checkInDate,
                       data.checkOutDate, data.totalPrice, PendingPayment, data.paymentId, createdAt);
      records := records + [r];
    }

    /** Sets the status (and, when given, the payment id) of the reservation
      with id `id`; `None` when there is no such reservation. */
    method UpdateReservationStatus(id: string, status: Status, paymentId: Option<string>)
      returns (result: Option<Reservation>)
      requires Valid()
      modifies this
      ensures Valid()
      ensures Step(result, records) == UpdateStatus(old(records), id, status, paymentId)
    {
      var index := FindIndex(records, id);
      if index.Some? {
        var i := index.value;
        records := records[i := records[i].(status := status)];
        if Supplied(paymentId) {
          records := records[i := records[i].(paymentId := paymentId)];
        }
        result := Some(records[i]);
      } else {
        result := None;
      }
    }

    /** Cancels the reservation with id `id` when it is confirmed or pending
      payment; `None`, with nothing changed, otherwise. */
    method CancelReservation(id: string) returns (result: Option<Reservation>)
      requires Valid()
      modifies this
      ensures Valid()
      ensures Step(result, records) == Cancel(old(records), id)
    {
      var index := FindIndex(records, id);
      if index.Some? && Active(records[index.value].status) {
        var i := index.value;
        records := records[i := records[i].(status := Cancelled)];
        result := Some(records[i]);
      } else {
        result := None;
      }
    }
  }

  // ---------------------------------------------------------------------------
  // Properties of the store operations
  // ---------------------------------------------------------------------------

  /** An appended reservation contributes its check-in day to its cabin's
      booked days exactly when it is active, after the earlier ones. */
  lemma AddedBookingIsBooked(records: seq<Reservation>, r: Reservation, cabinId: string)
    ensures BookedDates(records + [r], cabinId) ==
      BookedDates(records, cabinId) + (if Books(r, cabinId, r.checkInDate) then [r.checkInDate] else [])
  {
    BookedDatesAppend(records, [r], cabinId);
  }

  /** After an appended reservation with a fresh id, looking its id up finds
      exactly that reservation. */
  lemma AddThenGet(records: seq<Reservation>, r: Reservation)
    requires FreshId(records, r.id)
    ensures GetReservationById(records + [r], r.id) == Some(r)
  {
    var s := records + [r];
    assert s[|records|].id == r.id;
  }

  /** Updating the status and payment id keeps every id in place, so the
      reservation is found again by id, with the new status and, when one was
      given, the new payment id. */
  lemma UpdateThenGet(records: seq<Reservation>, id: string, status: Status, paymentId: Option<string>)
    requires FindIndex(records, id).Some?
    ensures var out := UpdateStatus(records, id, status, paymentId);
      && GetReservationById(out.records, id) == out.result
      && out.result.Some?
      && out.result.value.status == status
      && (Supplied(paymentId) ==> out.result.value.paymentId == paymentId)
  {
    FindIndexSameIds(records, UpdateStatus(records, id, status, paymentId).records, id);
  }

  /** A reservation that goes pending -> payment failed -> confirmed ends up
      confirmed with the payment id of the successful attempt; the failed
      attempt records none. */
  lemma PaymentRetryScenario(records: seq<Reservation>, id: string, payId: string)
    requires FindIndex(records, id).Some?
    requires records[FindIndex(records, id).value].status == PendingPayment
    requires records[FindIndex(records, id).value].paymentId.None?
    requires payId != ""
    ensures var failed := UpdateStatus(records, id, PaymentFailed, None);
      var paid := UpdateStatus(failed.records, id, Confirmed, Some(payId));
      && failed.result.Some? && failed.result.value.status == PaymentFailed
      && failed.result.value.paymentId.None?
      && GetReservationById(paid.records, id).Some?
      && GetReservationById(paid.records, id).value.status == Confirmed
      && GetReservationById(paid.records, id).value.paymentId == Some(payId)
  {
    var failed := UpdateStatus(records, id, PaymentFailed, None);
    UpdateThenGet(records, id, PaymentFailed, None);
    FindIndexSameIds(records, failed.records, id);
    UpdateThenGet(failed.records, id, Confirmed, Some(payId));
  }

  /** Cancelling removes exactly the cancelled reservation's contribution to the
      booked days: the booked days of every cabin are those contributed by the
      reservations before it followed by those after it, and the old list had
      the cancelled check-in day between the two for its own cabin. */
  lemma {:induction false} CancelReleasesDate(records: seq<Reservation>, id: string, cabinId: string)
    requires Cancel(records, id).result.Some?
    ensures var i := FindIndex(records, id).value;
      && BookedDates(Cancel(records, id).records, cabinId) ==
         BookedDates(records[..i], cabinId) + BookedDates(records[i + 1..], cabinId)
      && BookedDates(records, cabinId) ==
         BookedDates(records[..i], cabinId)
         + (if records[i].cabinId == cabinId then [records[i].checkInDate] else [])
         + BookedDates(records[i + 1..], cabinId)
  {
    var i := FindIndex(records, id).value;
    var r := records[i].(status := Cancelled);
    assert Active(records[i].status);
    assert Cancel(records, id).records == records[i := r];
    assert !Books(r, cabinId, r.checkInDate);
    BookedDatesAround(records, i, cabinId);
    BookedDatesReplace(records, i, r, cabinId);
  }

  /** When no night is double-booked, a cancelled reservation's night is free
      again for its cabin, and cancelling keeps the list free of double bookings. */
  lemma CancelFreesNight(records: seq<Reservation>, id: string)
    requires NoDoubleBooking(records)
    requires Cancel(records, id).result.Some?
    ensures var r := Cancel(records, id).result.value;
      && r.checkInDate !in BookedDates(Cancel(records, id).records, r.cabinId)
      && NoDoubleBooking(Cancel(records, id).records)
  {
  }

  /** Status changes and cancellations keep every stay's dates, so they keep
      all stays one night long, and they never remove a reservation. */
  lemma StatusChangesKeepStays(records: seq<Reservation>, id: string, status: Status, paymentId: Option<string>)
    requires OneNightStays(records)
    ensures OneNightStays(UpdateStatus(records, id, status, paymentId).records)
    ensures OneNightStays(Cancel(records, id).records)
  {
  }

  /** The store does not check transitions: setting a cancelled reservation
      back to confirmed makes it hold its night again, even when another
      reservation of the same cabin has taken that night meanwhile. */
  lemma ReactivationCanDoubleBook()
    ensures var cancelled := Reservation("a", "cabin1", "Lakeside Retreat", "u", 10, 11, 150, Cancelled, None, "t0");
      var taken := Reservation("b", "cabin1", "Lakeside Retreat", "u", 10, 11, 150, Confirmed, Some("p"), "t1");
      && NoDoubleBooking([cancelled, taken])
      && !NoDoubleBooking(UpdateStatus([cancelled, taken], "a", Confirmed, None).records)
  {
    var cancelled := Reservation("a", "cabin1", "Lakeside Retreat", "u", 10, 11, 150, Cancelled, None, "t0");
    var taken := Reservation("b", "cabin1", "Lakeside Retreat", "u", 10, 11, 150, Confirmed, Some("p"), "t1");
    var after := UpdateStatus([cancelled, taken], "a", Confirmed, None).records;
    assert FindIndex([cancelled, taken], "a") == Some(0);
    assert after[0].status == Confirmed && after[1] == taken;
  }
}
