/** The admin overview's statistics (src/components/admin/DashboardStats.tsx):
    a session and role check, then three queries whose results give the
    number of non-deleted users, the number of "active" bookings and the
    number of receipts awaiting verification. The statistics are replaced
    only when everything succeeds.

    The queries' server-side filters are modelled as filters over the rows
    each query reads, so each query's data is the table it reads. */
module DashboardStats {
  import opened Wrappers
  import opened Entities
  import opened Seqs
  import Access

  datatype Stats = Stats(totalUsers: nat, activeBookings: nat, pendingPayments: nat)

  const InitialStats: Stats := Stats(0, 0, 0)

  /** A receipt with its verification statuses, newest first; `None` when
      the embedded list is null. */
  datatype ReceiptVerifications = ReceiptVerifications(receiptId: string,
                                                       latestFirst: Option<seq<VerificationStatus>>)

  predicate NotDeleted(s: AccountStatus) {
    s != Deleted
  }

  /** The bookings the overview calls active: confirmed or pending, and paid. */
  predicate CountsAsActive(b: Booking) {
    (b.status == Confirmed || b.status == BookingStatus.Pending) && b.paymentStatus == Paid
  }

  /** A receipt awaits verification when it has no latest verification or
      the latest one is pending. */
  predicate AwaitsVerification(r: ReceiptVerifications) {
    r.latestFirst.None? || r.latestFirst.value == []
    || r.latestFirst.value[0] == VerificationStatus.Pending
  }

  /** The three queries' outcomes, in order. */
  datatype StatsQueries = StatsQueries(
    users: Query<seq<AccountStatus>>,
    bookings: Query<seq<Booking>>,
    receipts: Query<seq<ReceiptVerifications>>)

  /** The statistics shown, how many of the three queries ran, and the
      error shown, if any. */
  datatype StatsLoad = StatsLoad(stats: Stats, queriesRun: nat, error: Option<string>)

  function DataOr<T>(q: Query<seq<T>>): seq<T>
    requires q.QueryOk?
  {
    if q.data.Some? then q.data.value else []
  }

  /** `loadStats`. `session` is the signed-in user's id and `lookup` the
      profile lookup for their role. */
  function LoadStats(prev: Stats, session: Option<string>, lookup: string -> Access.RoleLookup,
                     q: StatsQueries): (r: StatsLoad)
    ensures r.queriesRun <= 3
    ensures r.error.Some? ==> r.stats == prev
    ensures session.None? || !(lookup(session.value).Found? && Access.IsPrivileged(lookup(session.value).role))
            ==> r.queriesRun == 0 && r.error.Some?
    ensures r.error.None? ==>
              r.queriesRun == 3 && q.users.QueryOk? && q.bookings.QueryOk? && q.receipts.QueryOk?
              && r.stats.totalUsers == Count(DataOr(q.users), NotDeleted)
              && r.stats.activeBookings == Count(DataOr(q.bookings), CountsAsActive)
              && r.stats.pendingPayments == Count(DataOr(q.receipts), AwaitsVerification)
    ensures r.queriesRun == 3 && q.users.QueryOk? && q.bookings.QueryOk? && q.receipts.QueryOk?
            ==> r.error.None?
  {
    if session.None? then StatsLoad(prev, 0, Some("Not authenticated"))
    else if !(lookup(session.value).Found? && Access.IsPrivileged(lookup(session.value).role)) then
      StatsLoad(prev, 0, Some("Unauthorized access - admin privileges required"))
    else if q.users.QueryError? then StatsLoad(prev, 1, Some(q.users.error))
    else if q.bookings.QueryError? then StatsLoad(prev, 2, Some(q.bookings.error))
    else if q.receipts.QueryError? then StatsLoad(prev, 3, Some(q.receipts.error))
    else
      StatsLoad(Stats(Count(DataOr(q.users), NotDeleted),
                      Count(DataOr(q.bookings), CountsAsActive),
                      Count(DataOr(q.receipts), AwaitsVerification)), 3, None)
  }

  /** An approved payment's booking (status active, paid) is never counted
      as active by the overview. */
  lemma ApprovedBookingNotCounted(b: Booking)
    ensures !CountsAsActive(b.(status := BookingStatus.Active, paymentStatus := Paid))
  {
  }

  /** So approving a payment never raises the active-bookings count. */
  lemma {:induction false} ApprovalNeverRaisesActiveCount(bookings: seq<Booking>, i: nat)
    requires i < |bookings|
    ensures Count(bookings[i := bookings[i].(status := BookingStatus.Active, paymentStatus := Paid)], CountsAsActive)
            <= Count(bookings, CountsAsActive)
  {
    var approved := bookings[i := bookings[i].(status := BookingStatus.Active, paymentStatus := Paid)];
    if i == 0 {
      assert approved[1..] == bookings[1..];
    } else {
      assert approved[1..] == bookings[1..][i - 1 := bookings[i].(status := BookingStatus.Active, paymentStatus := Paid)];
      assert bookings[1..][i - 1] == bookings[i];
      ApprovalNeverRaisesActiveCount(bookings[1..], i - 1);
    }
    assert approved[0] == if i == 0 then bookings[0].(status := BookingStatus.Active, paymentStatus := Paid) else bookings[0];
  }

  /** A receipt whose latest verification is approved or rejected is not
      pending, whatever older rows say. */
  lemma DecidedReceiptNotPending(id: string, older: seq<VerificationStatus>, latest: VerificationStatus)
    requires latest != VerificationStatus.Pending
    ensures !AwaitsVerification(ReceiptVerifications(id, Some([latest] + older)))
  {
  }
}
