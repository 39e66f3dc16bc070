/** The admin bookings table (src/components/admin/BookingsManagement.tsx):
    the newest 100 bookings with their guest and room, narrowed to the
    statuses the table lists and flattened for display, and the three
    summary counts above the table. */
module BookingsManagement {
  import opened Wrappers
  import opened Entities
  import opened Seqs
  import opened Text

  const FetchLimit: nat := 100

  /** The joined guest profile and room, each possibly missing. */
  datatype Guest = Guest(fullName: Option<string>, email: Option<string>)
  datatype RoomInfo = RoomInfo(number: Option<string>, roomType: Option<string>)

  datatype FetchedBooking = FetchedBooking(booking: Booking, guest: Option<Guest>, room: Option<RoomInfo>)

  /** A booking as the table shows it, with the joined fields flattened. */
  datatype BookingRow = BookingRow(booking: Booking, guestName: string, guestEmail: string,
                                   roomNumber: string, roomType: string)

  const Fallback := "N/A"

  /** The statuses the table lists. */
  const ListedStatuses: set<BookingStatus> :=
    {BookingStatus.Active, BookingStatus.Approved, Confirmed, BookingStatus.Pending}

  predicate Listed(f: FetchedBooking) {
    f.booking.status in ListedStatuses
  }

  function GuestName(g: Option<Guest>): Option<string> {
    if g.Some? then g.value.fullName else None
  }

  function GuestEmail(g: Option<Guest>): Option<string> {
    if g.Some? then g.value.email else None
  }

  function RoomNumber(r: Option<RoomInfo>): Option<string> {
    if r.Some? then r.value.number else None
  }

  function RoomType(r: Option<RoomInfo>): Option<string> {
    if r.Some? then r.value.roomType else None
  }

  /** A joined field JavaScript treats as falsy: missing or empty. */
  predicate Falsy(o: Option<string>) {
    o.None? || o.value == ""
  }

  /** One row flattened: the booking is copied unchanged, and each joined
      field reads its value, or "N/A" when it is missing or empty. */
  function Flatten(f: FetchedBooking): (row: BookingRow)
    ensures row.booking == f.booking
    ensures Falsy(GuestName(f.guest)) ==> row.guestName == Fallback
    ensures !Falsy(GuestName(f.guest)) ==> row.guestName == GuestName(f.guest).value
    ensures Falsy(GuestEmail(f.guest)) ==> row.guestEmail == Fallback
    ensures !Falsy(GuestEmail(f.guest)) ==> row.guestEmail == GuestEmail(f.guest).value
    ensures Falsy(RoomNumber(f.room)) ==> row.roomNumber == Fallback
    ensures !Falsy(RoomNumber(f.room)) ==> row.roomNumber == RoomNumber(f.room).value
    ensures Falsy(RoomType(f.room)) ==> row.roomType == Fallback
    ensures !Falsy(RoomType(f.room)) ==> row.roomType == RoomType(f.room).value
  {
    BookingRow(f.booking,
               OrElse(GuestName(f.guest), Fallback), OrElse(GuestEmail(f.guest), Fallback),
               OrElse(RoomNumber(f.room), Fallback), OrElse(RoomType(f.room), Fallback))
  }

  /** A booking without its guest and room shows "N/A" in all four fields. */
  lemma MissingJoinsShowFallback(b: Booking)
    ensures Flatten(FetchedBooking(b, None, None)) == BookingRow(b, Fallback, Fallback, Fallback, Fallback)
  {
  }

  /** The filter and the flattening in one pass over the fetched rows. */
  function Transform(rows: seq<FetchedBooking>): (r: seq<BookingRow>)
    ensures |r| == Count(rows, Listed)
    ensures forall i :: 0 <= i < |r| ==> r[i].booking.status in ListedStatuses
  {
    if rows == [] then []
    else
      var rest := Transform(rows[1..]);
      if Listed(rows[0]) then [Flatten(rows[0])] + rest else rest
  }

  /** The one-pass transform is the filter followed by the flattening, so
      it keeps the fetched order and drops nothing it lists. */
  lemma {:induction false} TransformIsFilterThenFlatten(rows: seq<FetchedBooking>)
    ensures var kept := Filter(rows, Listed);
            |Transform(rows)| == |kept|
            && forall i :: 0 <= i < |kept| ==> Transform(rows)[i] == Flatten(kept[i])
  {
    if rows != [] {
      TransformIsFilterThenFlatten(rows[1..]);
    }
  }

  /** The rows the query returns: the first `FetchLimit` of the table in
      newest-first order. */
  function Limited(table: seq<FetchedBooking>): (rows: seq<FetchedBooking>)
    ensures |rows| <= FetchLimit && |rows| <= |table| && rows == table[..|rows|]
    ensures |table| <= FetchLimit ==> rows == table
  {
    if |table| <= FetchLimit then table else table[..FetchLimit]
  }

  /** `loadBookings` given the query's outcome over the newest-first table:
      an error keeps the list shown; null data gives an empty list. */
  function LoadBookings(shown: seq<BookingRow>, query: Query<seq<FetchedBooking>>): (r: seq<BookingRow>)
    ensures query.QueryError? ==> r == shown
    ensures query.QueryOk? && query.data.None? ==> r == []
    ensures query.QueryOk? && query.data.Some? ==>
              var kept := Filter(Limited(query.data.value), Listed);
              |r| <= FetchLimit && |r| == |kept|
              && forall i :: 0 <= i < |r| ==> r[i] == Flatten(kept[i])
  {
    match query
    case QueryError(_) => shown
    case QueryOk(None) => []
    case QueryOk(Some(table)) =>
      TransformIsFilterThenFlatten(Limited(table));
      CountIsFilterLength(Limited(table), Listed);
      Transform(Limited(table))
  }

  datatype Summary = Summary(total: nat, active: nat, pendingPayments: nat)

  predicate IsActive(row: BookingRow) {
    row.booking.status == BookingStatus.Active
  }

  predicate PaymentPending(row: BookingRow) {
    row.booking.paymentStatus == PaymentStatus.Pending
  }

  /** The three counts above the table: all rows, the active ones and the
      ones whose payment is pending. */
  function Summarize(rows: seq<BookingRow>): (s: Summary)
    ensures s.total == |rows|
    ensures s.active == |Filter(rows, IsActive)|
    ensures s.pendingPayments == |Filter(rows, PaymentPending)|
    ensures s.active <= s.total && s.pendingPayments <= s.total
    ensures s.active == 0 <==> forall i :: 0 <= i < |rows| ==> rows[i].booking.status != BookingStatus.Active
    ensures s.pendingPayments == |rows| <==>
              forall i :: 0 <= i < |rows| ==> rows[i].booking.paymentStatus == PaymentStatus.Pending
  {
    CountIsFilterLength(rows, IsActive);
    CountIsFilterLength(rows, PaymentPending);
    Summary(|rows|, Count(rows, IsActive), Count(rows, PaymentPending))
  }
}
