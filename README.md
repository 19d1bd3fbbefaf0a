# Cabin booking: reservation store, pricing and booking guard

This project models the core of a small vacation-cabin booking application:

- **Catalog.** A fixed list of three cabins.
- **Pricing rule.** A weekend surcharge of 20%, rounded to whole units.
- **Availability index.** For one cabin, the check-in days of its confirmed or pending reservations.
- **Reservation store.** An in-memory list of reservations. It can append a record, set a record's status and payment id in place, cancel a record, and look records up by id or by user.
- **Booking page.** Its handlers pick a check-in night, show the price and create a pending reservation.

The model has three modules, one per source file:

- `Types` (`types.dfy`) models `src/lib/types.ts`. `Cabin`, `Reservation` and the reservation `Status` are datatypes.
  - `Status` has exactly four constructors: `PendingPayment`, `Confirmed`, `Cancelled` and `PaymentFailed`.
  - `paymentId` is an `Option<string>`, so any reservation may lack it.
  - `cabinName` is a string value held by the reservation. It is a copy of the cabin's name, not a reference to the cabin.
  - Days are integers counted from 1970-01-01 in the local calendar. `DayOfWeek` derives the weekday, with 0 for Sunday.
- `Data` (`data.dfy`) models `src/lib/data.ts`.
  - The read operations are functions of the reservation list: `BookedDates`, `GetReservationsForUser`, `GetReservationById` and `FindIndex`, the `findIndex` search.
  - The module-level mutable list is the class `ReservationStore`. Its `records` field is reassigned by `AddReservation`, `UpdateReservationStatus` and `CancelReservation`.
  - Each changing method is tied by its postcondition to a pure step function, `UpdateStatus` or `Cancel`. A step function returns the operation's result and the new list.
  - Lemmas beside the step functions state what stays the same, what the booked days become, and what a later lookup finds.
- `ReservationsClient` (`reservations_client.dfy`) models `src/app/reservations/ReservationsClient.tsx`.
  - The component's state is the class `ReservationsPage`: the selected cabin, the check-in night, the booked nights and the loading flag.
  - Its handlers `Load`, `HandleDateSelect` and `HandleConfirmReservation` are methods.
  - The price on show (`CurrentPrice`) and the calendar's `Disabled` predicate are pure functions.

The store checks neither availability nor status transitions, and the model keeps both gaps as the code has them:

- `AddReservation` appends whatever it is given.
- `UpdateReservationStatus` sets any status from any status.
- `ReactivationCanDoubleBook` shows that a cancelled reservation can be set back to confirmed while another reservation holds its night.
- `BookingAcceptedNightKeepsNoDoubleBooking` shows that avoiding double bookings rests entirely on the page's guard and on its booked nights being current.

A booking store could refuse an unavailable date or enforce a transition table; this one does neither, and the model follows the code.

## Model

| member | source | states |
|---|---|---|
| `Types.DayOfWeek` | src/lib/data.ts:65 | the weekday of a day lies in 0..6 (0 is Sunday) |
| `Types.DayOfWeekNumbering` | src/lib/data.ts:65 | the weekday numbering follows `getDay`: 1970-01-04 is a Sunday (0), 1970-01-03 a Saturday (6), and the weekday advances by one each day and repeats every seven days |
| `Data.CatalogWellFormed` | src/lib/data.ts:3-31 | the catalog holds exactly three cabins with distinct ids, positive base prices and positive capacities |
| `Data.FindCabin` | src/app/reservations/ReservationsClient.tsx:36 | returns the first cabin with the id; `None` exactly when no cabin has that id |
| `Data.CalculatePrice` | src/lib/data.ts:64-70 | on Saturday or Sunday the price is `Math.round(basePrice * 1.2)`, the integer within one half of 6/5 of the base price; on Monday to Friday it is the base price unchanged |
| `Data.BookedDates` | src/lib/data.ts:58-62 | a day is listed exactly when some stored reservation of that cabin is confirmed or pending payment and checks in that day; cancelled and payment-failed ones never contribute; at most one day per reservation |
| `Data.BookedDatesAppend` | src/lib/data.ts:58-62 | the booked days of a concatenation are those of each part in order, so store order is kept |
| `Data.BookedDatesAround` | src/lib/data.ts:58-62 | the booked days are those before a position, the day contributed at it (if active for the cabin), then those after it |
| `Data.BookedDatesReplace` | src/lib/data.ts:58-62 | replacing the reservation at one position changes only the day contributed at that position |
| `Data.GetReservationsForUser` | src/lib/data.ts:107-109 | holds exactly the stored reservations whose user is the given one, as an order-preserving subsequence of the store |
| `Data.ReservationsForUserAppend` | src/lib/data.ts:107-109 | filtering a concatenation by user concatenates the filtered parts |
| `Data.FindIndex` | src/lib/data.ts:87 | finds the first position holding the id; `None` exactly when no reservation has it |
| `Data.FindIndexSameIds` | src/lib/data.ts:87 | two lists with the same ids at the same positions give the same search result |
| `Data.GetReservationById` | src/lib/data.ts:111-113 | returns the first reservation with the id; `None` exactly when there is none |
| `Data.UpdateStatus` | src/lib/data.ts:82-96 | on a present id: the first match gets the new status whatever the old one was, and the given payment id only when one is given and non-empty; all other records and fields are unchanged. On an absent id: `None` and an unchanged list. No record is ever removed |
| `Data.Cancel` | src/lib/data.ts:98-105 | succeeds exactly when the first match is confirmed or pending payment; it then becomes cancelled with all other fields and records unchanged; otherwise `None` and an unchanged list |
| `Data.ReservationStore.Seeded` | src/lib/data.ts:36-49 | the store starts with the single confirmed, paid reservation of cabin1 three days ahead; ids unique, stays one night, no double booking |
| `Data.ReservationStore.AddReservation` | src/lib/data.ts:72-80 | the store grows by exactly one record at the end, earlier records untouched; the record carries the given fields, the new id and creation time, and status pending payment; no availability check |
| `Data.ReservationStore.UpdateReservationStatus` | src/lib/data.ts:82-96 | the result and the new list are those of `UpdateStatus` on the old list; ids stay unique |
| `Data.ReservationStore.CancelReservation` | src/lib/data.ts:98-105 | the result and the new list are those of `Cancel` on the old list; ids stay unique |
| `Data.AddedBookingIsBooked` | src/lib/data.ts:72-80 | after an append, a cabin's booked days are the old ones followed by the new record's check-in day when it is active for that cabin |
| `Data.AddThenGet` | src/lib/data.ts:111-113 | after appending a record with a fresh id, looking that id up returns the record |
| `Data.UpdateThenGet` | src/lib/data.ts:82-96 | after a status update on a present id, looking the id up returns the updated record, with the new status and the given payment id |
| `Data.PaymentRetryScenario` | src/lib/data.ts:82-96 | pending, then payment failed (no payment id recorded), then confirmed with a payment id: the lookup shows confirmed with that id |
| `Data.CancelReleasesDate` | src/lib/data.ts:98-105 | after a successful cancel every cabin's booked days lose exactly the cancelled record's contribution, its check-in day for its own cabin, and nothing else |
| `Data.CancelFreesNight` | src/lib/data.ts:98-105 | without double bookings, the cancelled night is no longer booked for its cabin and the list stays free of double bookings |
| `Data.StatusChangesKeepStays` | src/lib/data.ts:82-105 | status updates and cancellations keep every stay one night long |
| `Data.ReactivationCanDoubleBook` | src/lib/data.ts:82-96 | since transitions are not checked, confirming a cancelled reservation can make two active reservations hold the same night |
| `ReservationsClient.DisabledNights` | src/app/reservations/ReservationsClient.tsx:185-188 | with the booked nights of a cabin loaded from the store, the calendar disables a night exactly when it is before today or some confirmed or pending reservation of that cabin checks in that night |
| `ReservationsClient.CurrentPrice` | src/app/reservations/ReservationsClient.tsx:60-65 | with a cabin and a night: the weekday base price or the rounded weekend price; with a cabin only: its base price; without a cabin: 0 |
| `ReservationsClient.ReservationsPage.constructor` | src/app/reservations/ReservationsClient.tsx:28-31 | the page starts with no cabin, no night, no booked nights, loading |
| `ReservationsClient.ReservationsPage.Load` | src/app/reservations/ReservationsClient.tsx:33-58 | a missing or empty cabin id and an unknown one are told apart and leave the selection unchanged; a known one selects that catalog cabin and its current booked nights; loading ends |
| `ReservationsClient.ReservationsPage.HandleDateSelect` | src/app/reservations/ReservationsClient.tsx:67-90 | a booked night is refused as unavailable, otherwise a past night as invalid, and a refused night keeps the old choice; a night is refused exactly when the calendar disables it; anything else, and no night, becomes the choice |
| `ReservationsClient.ReservationsPage.HandleConfirmReservation` | src/app/reservations/ReservationsClient.tsx:92-126 | without a cabin or a night nothing is added; otherwise exactly one pending record is appended for the test user, with the cabin's id and name, the chosen check-in, checkout one day later, the price on show and no payment id |
| `ReservationsClient.BookedNightIsDisabled` | src/app/reservations/ReservationsClient.tsx:185-188 | once a pending reservation is stored, its night is booked and disabled for a page that reloads the cabin |
| `ReservationsClient.BookingAcceptedNightKeepsNoDoubleBooking` | src/app/reservations/ReservationsClient.tsx:67-90 | booking a night the guard accepts against current booked nights keeps every night held at most once |
| `ReservationsClient.ConfirmKeepsOneNightStays` | src/app/reservations/ReservationsClient.tsx:102-110 | appending a one-night record keeps every stay one night long |
| `ReservationsClient.LakesideSaturdayPrice` | src/lib/data.ts:64-70 | Lakeside Retreat (base 150) costs 180 on a Saturday |

## Left out

- Rendering, notifications and navigation are not modelled: JSX, styling, icons, images, toasts and `router.push`. Each handler instead returns which message or page would follow.
- The other pages and components are not part of this model: the home page, header, footer, cabin card, payment, confirmation and my-reservations pages.
- Dates and clocks are abstract. `getFutureDateString`, `date-fns` formatting and the `Date` type are replaced by day numbers. The local-versus-UTC difference is not modelled. This includes the seed's dates, which the source computes in UTC and the model places at today + 3 and today + 4.
- "Today" is a parameter of `HandleDateSelect`. A picked date is taken to be a calendar day at midnight, as the calendar delivers it.
- Id generation and creation timestamps are parameters. `Date.now()`, `Math.random()` and `new Date().toISOString()` are not modelled.
- `Data.ReservationStore.AddReservation` requires a fresh id. This stands for the generator never repeating an id; the source does not check it.
- `calculatePrice` is not modelled in floating point. The exact integer form is used. It equals the floating-point result for integer base prices below 2^48 (about 2.8 × 10^14), where the error of `basePrice * 1.2` stays under 0.1 and six fifths of an integer is never within 0.1 of a half. Larger base prices can round differently in floating point.
- The `try`/`catch` around `addReservation` is left out. Nothing in the modelled store can fail.
- The `isLoading` flag of the page is modelled, but the render branch that depends on it is not.
- Persistence, concurrency and real payment are not modelled. None exist in the code.
- The store checking availability or the transition table is not modelled. The code does neither.
- Reservations are values in the model. `addReservation`, `updateReservationStatus`, `cancelReservation` and `getReservationById` return the stored object itself, so a later in-place update also shows through a reference returned earlier. That aliasing is not modelled.
