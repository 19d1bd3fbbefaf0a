/** The records of the booking application: cabins, reservations and the
    reservation status, together with the representation of calendar days. */
module Types {

  /** A value that may be missing (`undefined` in the application). */
  datatype Option<+T> = None | Some(value: T)

  /** A calendar day in the user's local calendar, counted in days from
      1970-01-01. Both the `YYYY-MM-DD` strings kept in reservations and the
      midnight `Date` values handled by the booking page denote such a day. */
  type Day = int

  /** The day of the week of `d`, 0 for Sunday up to 6 for Saturday
      (1970-01-01 was a Thursday). Dafny's `%` is Euclidean, so days before
      1970 are handled too. */
  function DayOfWeek(d: Day): (w: nat)
    ensures w < 7
  {
    (d + 4) % 7
  }

  /** Day 3 (1970-01-04) is a Sunday and day 2 a Saturday; each next day is
      the next weekday, and the week repeats every seven days. */
  lemma DayOfWeekNumbering(d: Day)
    ensures DayOfWeek(3) == 0 && DayOfWeek(2) == 6
    ensures DayOfWeek(d + 1) == (DayOfWeek(d) + 1) % 7
    ensures DayOfWeek(d + 7) == DayOfWeek(d)
  {
  }

  /** The four states a reservation can be in. */
  datatype Status = PendingPayment | Confirmed | Cancelled | PaymentFailed

  /** A bookable cabin of the catalog. */
  datatype Cabin = Cabin(
    id: string,
    name: string,
    description: string,
    imageUrl: string,
    basePrice: int,
    amenities: seq<string>,
    capacity: int)

  /** One booking of one night. `cabinName` is a copy of the cabin's name taken
      at booking time; `paymentId` is present only once a payment id was given. */
  datatype Reservation = Reservation(
    id: string,
    cabinId: string,
    cabinName: string,
    userId: string,
    checkInDate: Day,
    checkOutDate: Day,
    totalPrice: int,
    status: Status,
    paymentId: Option<string>,
    createdAt: string)

  /** What a caller hands to the store to create a reservation: every field of
      a reservation except the id, the creation time and the status, which the
      store fills in (the status is always `PendingPayment`). */
  datatype ReservationData = ReservationData(
    cabinId: string,
    cabinName: string,
    userId: string,
    checkInDate: Day,
    checkOutDate: Day,
    totalPrice: int,
    paymentId: Option<string>)

  /** The stay is the single night from check-in to the next day. */
  predicate OneNight(r: Reservation)
  {
    r.checkOutDate == r.checkInDate + 1
  }

  /** The statuses that hold a date: a reservation that is confirmed or still
      waiting for payment. These are also exactly the statuses that can be
      cancelled. */
  predicate Active(status: Status)
  {
    status == Confirmed || status == PendingPayment
  }
}
