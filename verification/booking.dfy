/** Booking creation on the booking page (src/pages/booking/index.tsx):
    the required-selection guard, the nights and total-price arithmetic,
    the new booking row, and the navigation to the payment page.

    Dates are integer milliseconds since the epoch, as `getTime` returns
    them; an empty date input is `None`. */
module Booking {
  import opened Wrappers
  import opened Entities

  const MsPerDay: int := 1000 * 60 * 60 * 24

  /** `Math.ceil((checkOut - checkIn) / MsPerDay)`: the least whole number
      of days covering the stay. A check-out on or before the check-in gives
      zero or fewer nights; the page does not reject it. */
  function Nights(checkIn: int, checkOut: int): (n: int)
    ensures (n - 1) * MsPerDay < checkOut - checkIn <= n * MsPerDay
  {
    -((checkIn - checkOut) / MsPerDay)
  }

  /** Any check-out after the check-in, even by a millisecond, is at least
      one night. */
  lemma NightsAtLeastOne(checkIn: int, checkOut: int)
    requires checkOut > checkIn
    ensures Nights(checkIn, checkOut) >= 1
  {
  }

  /** A stay of exactly `k` days is `k` nights, and one millisecond more is
      `k + 1`. */
  lemma NightsOfWholeDays(checkIn: int, k: int)
    ensures Nights(checkIn, checkIn + k * MsPerDay) == k
    ensures Nights(checkIn, checkIn + k * MsPerDay + 1) == k + 1
  {
    var n := Nights(checkIn, checkIn + k * MsPerDay);
    assert (n - 1) * MsPerDay < k * MsPerDay <= n * MsPerDay;
    var m := Nights(checkIn, checkIn + k * MsPerDay + 1);
    assert (m - 1) * MsPerDay < k * MsPerDay + 1 <= m * MsPerDay;
  }

  datatype Room = Room(id: string, pricePerNight: int)

  /** The outcome of the booking insert: an error, or the new row's id and
      whether the insert's `select` returned the row. */
  datatype BookingInsert = InsertFailed(message: string) | Inserted(id: string, returned: bool)

  /** The state the page passes when it navigates to the payment page. */
  datatype PaymentRequest = PaymentRequest(bookingId: string, amount: int)

  datatype BookingError = MissingSelection | NotSignedIn | InsertError(message: string) | NoDataReturned

  datatype BookingResult = BookingResult(
    store: Store,
    navigation: Option<PaymentRequest>,
    error: Option<BookingError>)

  /** The row the page inserts: the selected room and the signed-in user,
      priced at the room's rate for every night, pending and unpaid. */
  function NewBooking(id: string, userId: string, room: Room, checkIn: int, checkOut: int)
    : (b: Booking)
    ensures b.id == id && b.userId == userId && b.roomId == room.id
    ensures b.checkIn == checkIn && b.checkOut == checkOut
    ensures b.totalPrice == room.pricePerNight * Nights(checkIn, checkOut)
    ensures b.status == BookingStatus.Pending && b.paymentStatus == PaymentStatus.Pending
  {
    Booking(id, userId, room.id, checkIn, checkOut, room.pricePerNight * Nights(checkIn, checkOut),
            BookingStatus.Pending, PaymentStatus.Pending)
  }

  /** `handleBooking`. Without a room or either date nothing is inserted.
      With no signed-in user the insert is never reached (reading the user's
      id throws). Otherwise the new booking is inserted, and the page moves
      to the payment page, carrying the booking id and the total price, only
      when the insert succeeded and returned the row. */
  function HandleBooking(store: Store, user: Option<string>, room: Option<Room>,
                         checkIn: Option<int>, checkOut: Option<int>, insert: BookingInsert)
    : (r: BookingResult)
    ensures room.None? || checkIn.None? || checkOut.None? ==>
              r == BookingResult(store, None, Some(MissingSelection))
    ensures r.navigation.Some? <==>
              room.Some? && checkIn.Some? && checkOut.Some? && user.Some?
              && insert.Inserted? && insert.returned
    ensures room.Some? && checkIn.Some? && checkOut.Some? && user.Some? && insert.Inserted? ==>
              r.store == store.(bookings := store.bookings[insert.id :=
                NewBooking(insert.id, user.value, room.value, checkIn.value, checkOut.value)])
    ensures !(room.Some? && checkIn.Some? && checkOut.Some? && user.Some? && insert.Inserted?) ==>
              r.store == store
    ensures r.navigation.Some? ==>
              r.navigation.value.bookingId == insert.id
              && insert.id in r.store.bookings
              && r.navigation.value.amount == r.store.bookings[insert.id].totalPrice
    ensures r.navigation.None? <==> r.error.Some?
  {
    if room.None? || checkIn.None? || checkOut.None? then
      BookingResult(store, None, Some(MissingSelection))
    else if user.None? then
      BookingResult(store, None, Some(NotSignedIn))
    else
      var total := room.value.pricePerNight * Nights(checkIn.value, checkOut.value);
      match insert
      case InsertFailed(message) => BookingResult(store, None, Some(InsertError(message)))
      case Inserted(id, returned) =>
        var booking := NewBooking(id, user.value, room.value, checkIn.value, checkOut.value);
        var after := store.(bookings := store.bookings[id := booking]);
        if !returned then BookingResult(after, None, Some(NoDataReturned))
        else BookingResult(after, Some(PaymentRequest(id, total)), None)
  }

  /** 2025-01-01T00:00:00Z in milliseconds. */
  const NewYear2025: int := 1735689600000

  /** A room at 5,000 a night booked from 1 to 3 January 2025 is two nights
      and costs 10,000, and the payment page is asked for that amount. */
  lemma TwoNightScenario(store: Store, user: string, id: string)
    ensures var r := HandleBooking(store, Some(user), Some(Room("r1", 5000)),
                                   Some(NewYear2025), Some(NewYear2025 + 2 * MsPerDay),
                                   Inserted(id, true));
            r.navigation == Some(PaymentRequest(id, 10000))
            && r.store.bookings[id].status == BookingStatus.Pending
            && r.store.bookings[id].paymentStatus == PaymentStatus.Pending
  {
    NightsOfWholeDays(NewYear2025, 2);
  }
}
