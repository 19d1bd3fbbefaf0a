/** The booking page: it loads a cabin and the nights already held for it,
    lets the user pick a check-in night, shows the price and creates a pending
    reservation in the store. Rendering, notifications and navigation are not
    modelled; each handler reports instead which message or page would follow. */
module ReservationsClient {
  import opened Types
  import opened Data

  /** The user every booking is made for. */
  const TestUserId: string := "testUser123"

  /** How loading the page for a requested cabin ends. */
  datatype LoadOutcome =
    | Loaded           // the cabin and its booked nights are shown
    | CabinNotFound    // "Cabin not found", back to the home page
    | NoCabinSelected  // "No Cabin Selected", back to the home page

  /** Why a picked night is refused. */
  datatype Refusal =
    | DateUnavailable  // the night is already booked
    | InvalidDate      // the night is in the past

  /** How pressing the confirm button ends. */
  datatype ConfirmOutcome =
    | MissingInformation               // no cabin or no night chosen: nothing is booked
    | Created(reservation: Reservation) // booked; the payment page follows for its id

  /** The calendar greys out a night before today or one already booked. */
  predicate Disabled(bookedDates: seq<Day>, today: Day, date: Day)
  {
    date < today || date in bookedDates
  }

  /** With the booked nights of cabin `cabinId` loaded from `records`, the
      calendar disables a night exactly when it is before today or some
      confirmed or pending reservation of that cabin checks in that night. */
  lemma DisabledNights(records: seq<Reservation>, cabinId: string, today: Day, date: Day)
    ensures Disabled(BookedDates(records, cabinId), today, date) <==>
      date < today || exists i :: 0 <= i < |records| && Books(records[i], cabinId, date)
  {
  }

  /** The price the page shows: the nightly price of the chosen night once a
      cabin and a night are chosen, the cabin's base price while no night is
      chosen, and 0 without a cabin. */
  function CurrentPrice(cabin: Option<Cabin>, date: Option<Day>): (price: int)
    ensures cabin.None? ==> price == 0
    ensures cabin.Some? && date.None? ==> price == cabin.value.basePrice
    ensures cabin.Some? && date.Some? && 1 <= DayOfWeek(date.value) <= 5 ==> price == cabin.value.basePrice
    ensures cabin.Some? && date.Some? && (DayOfWeek(date.value) == 0 || DayOfWeek(date.value) == 6) ==>
      10 * price - 5 <= 12 * cabin.value.basePrice < 10 * price + 5
  {
    if cabin.Some? && date.Some? then CalculatePrice(cabin.value.basePrice, date.value)
    else if cabin.Some? then cabin.value.basePrice
    else 0
  }

  /** The state of the booking page. */
  class ReservationsPage {
    var selectedCabin: Option<Cabin>
    var checkInDate: Option<Day>
    var bookedDates: seq<Day>
    var isLoading: bool

    /** A page that has not loaded its cabin yet. */
    constructor ()
      ensures selectedCabin.None? && checkInDate.None? && bookedDates == [] && isLoading
    {
      selectedCabin, checkInDate, bookedDates, isLoading := None, None, [], true;
    }

    /** Loads the cabin named by the `cabinId` query parameter (an empty one
      counts as missing) together with the nights already held for it in
      `store`. When the cabin is missing or unknown the selection is left as
      it was and the user is sent back to the home page. */
    method Load(cabinId: Option<string>, store: ReservationStore) returns (outcome: LoadOutcome)
      modifies this
      ensures !isLoading && checkInDate == old(checkInDate)
      ensures outcome == NoCabinSelected <==> cabinId.None? || cabinId.value == ""
      ensures outcome == CabinNotFound <==>
        cabinId.Some? && cabinId.value != "" && forall i :: 0 <= i < |Cabins| ==> Cabins[i].id != cabinId.value
      ensures outcome == Loaded ==>
        && selectedCabin.Some? && selectedCabin.value in Cabins && selectedCabin.value.id == cabinId.value
        && bookedDates == BookedDates(store.records, cabinId.value)
      ensures outcome != Loaded ==> selectedCabin == old(selectedCabin) && bookedDates == old(bookedDates)
    {
      isLoading := true;
      if cabinId.Some? && cabinId.value != "" {
        var cabin := FindCabin(Cabins, cabinId.value);
        if cabin.Some? {
          selectedCabin := cabin;
          bookedDates := BookedDates(store.records, cabinId.value);
          outcome := Loaded;
        } else {
          outcome := CabinNotFound;
        }
      } else {
        outcome := NoCabinSelected;
      }
      isLoading := false;
    }

    /** Picks the night `date` on day `today`, or clears the choice when `date`
      is `None`. A booked night is refused first, then a night before today;
      a refused night leaves the choice as it was. Exactly the nights the
      calendar disables are refused. */
    method HandleDateSelect(date: Option<Day>, today: Day) returns (refusal: Option<Refusal>)
      modifies this`checkInDate
      ensures refusal.None? <==> date.None? || !Disabled(bookedDates, today, date.value)
      ensures refusal == Some(DateUnavailable) <==> date.Some? && date.value in bookedDates
      ensures refusal == Some(InvalidDate) <==> date.Some? && date.value !in bookedDates && date.value < today
      ensures checkInDate == if refusal.None? then date else old(checkInDate)
    {
      if date.Some? {
        if date.value in bookedDates {
          return Some(DateUnavailable);
        }
        if date.value < today {
          return Some(InvalidDate);
        }
      }
      checkInDate := date;
      refusal := None;
    }

    /** Books the chosen night of the chosen cabin for the test user: a pending
      one-night reservation at the price on show, created in `store` with the
      fresh id `id` and creation time `createdAt`. Without a cabin or a night
      nothing is booked. */
    method HandleConfirmReservation(store: ReservationStore, id: string, createdAt: string)
      returns (outcome: ConfirmOutcome)
      requires store.Valid()
      requires FreshId(store.records, id)
      modifies this`isLoading, store
      ensures store.Valid()
      ensures selectedCabin.None? || checkInDate.None? ==>
        outcome == MissingInformation && store.records == old(store.records) && isLoading == old(isLoading)
      ensures selectedCabin.Some? && checkInDate.Some? ==>
        && outcome.Created?
        && isLoading
        && store.records == old(store.records) + [outcome.reservation]
        && outcome.reservation.id == id
        && outcome.reservation.createdAt == createdAt
        && outcome.reservation.status == PendingPayment
        && outcome.reservation.cabinId == selectedCabin.value.id
        && outcome.reservation.cabinName == selectedCabin.value.name
        && outcome.reservation.userId == TestUserId
        && outcome.reservation.checkInDate == checkInDate.value
        && OneNight(outcome.reservation)
        && outcome.reservation.totalPrice == CurrentPrice(selectedCabin, checkInDate)
        && outcome.reservation.paymentId.None?
    {
      if selectedCabin.None? || checkInDate.None? {
        return MissingInformation;
      }
      isLoading := true;
      var cabin := selectedCabin.value;
      var night := checkInDate.value;
      var data := ReservationData(cabin.id, cabin.name, TestUserId, night, night + 1,
                                  CurrentPrice(selectedCabin, checkInDate), None);
      var r := store.AddReservation(data, id, createdAt);
      outcome := Created(r);
    }
  }

  // ---------------------------------------------------------------------------
  // Properties of booking through the page
  // ---------------------------------------------------------------------------

  /** Once a pending reservation is in the store, a page that loads its cabin
      afresh disables its night, so picking it again is refused as unavailable. */
  lemma {:induction false} BookedNightIsDisabled(records: seq<Reservation>, r: Reservation, today: Day)
    requires r.status == PendingPayment
    ensures r.checkInDate in BookedDates(records + [r], r.cabinId)
    ensures Disabled(BookedDates(records + [r], r.cabinId), today, r.checkInDate)
  {
    AddedBookingIsBooked(records, r, r.cabinId);
  }

  /** Booking a night the freshly loaded page accepts keeps every night held by
      at most one active reservation. The store itself does not check this: it
      rests on the page's guard and on the booked nights being current. */
  lemma BookingAcceptedNightKeepsNoDoubleBooking(records: seq<Reservation>, r: Reservation, today: Day)
    requires NoDoubleBooking(records)
    requires !Disabled(BookedDates(records, r.cabinId), today, r.checkInDate)
    ensures NoDoubleBooking(records + [r])
  {
    var s := records + [r];
    forall i, j | 0 <= i < |s| && 0 <= j < |s| && i != j && s[i].cabinId == s[j].cabinId
      && Active(s[i].status) && Active(s[j].status)
      ensures s[i].checkInDate != s[j].checkInDate
    {
      if i == |records| {
        assert !Books(records[j], r.cabinId, r.checkInDate);
      } else if j == |records| {
        assert !Books(records[i], r.cabinId, r.checkInDate);
      } else {
        assert records[i] == s[i] && records[j] == s[j];
      }
    }
  }

  /** Booking through the page keeps every stay one night long. */
  lemma ConfirmKeepsOneNightStays(records: seq<Reservation>, r: Reservation)
    requires OneNightStays(records)
    requires OneNight(r)
    ensures OneNightStays(records + [r])
  {
    assert forall i :: 0 <= i < |records| ==> (records + [r])[i] == records[i];
  }

  /** The first cabin on a Saturday costs 180 a night. */
  lemma LakesideSaturdayPrice(saturday: Day)
    requires DayOfWeek(saturday) == 6
    ensures FindCabin(Cabins, "cabin1").Some?
    ensures CurrentPrice(FindCabin(Cabins, "cabin1"), Some(saturday)) == 180
  {
    assert Cabins[0].id == "cabin1";
  }
}
