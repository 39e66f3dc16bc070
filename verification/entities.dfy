/** The records the handlers read and write, and the abstract backend store
    they act on.

    The store holds only the tables the modelled handlers touch: bookings by
    id, verification decisions keyed by receipt id (one decision per
    receipt), inserted receipt records, the
    paths in the receipt storage bucket, account statuses by profile id, and
    the email log. */
module Entities {
  import opened Wrappers
  import Notifications

  datatype Role = User | Admin | Manager

  datatype AccountStatus = Active | Disabled | Deleted

  /** The status text the account-status email shows. */
  function AccountStatusText(s: AccountStatus): string {
    match s
    case Active => "active"
    case Disabled => "disabled"
    case Deleted => "deleted"
  }

  /** The booking statuses the handlers and filters mention. */
  datatype BookingStatus = Pending | Active | Approved | Confirmed | Completed | Cancelled

  datatype PaymentStatus = Pending | Paid | Refunded

  datatype Booking = Booking(
    id: string,
    userId: string,
    roomId: string,
    checkIn: int,     // milliseconds since the epoch
    checkOut: int,    // milliseconds since the epoch
    totalPrice: int,
    status: BookingStatus,
    paymentStatus: PaymentStatus)

  datatype VerificationStatus = Pending | Approved | Rejected

  /** A verification decision on one payment receipt. */
  datatype Verification = Verification(
    receiptId: string,
    status: VerificationStatus,
    verifiedAt: string,
    rejectionReason: Option<string>)

  /** A payment receipt row as the guest's payment page inserts it. */
  datatype ReceiptRecord = ReceiptRecord(
    userId: string,
    bookingId: string,
    amount: string,
    transactionDate: string,
    reference: string,
    bankName: string,
    accountNumber: string,
    receiptUrl: string)

  datatype Store = Store(
    bookings: map<string, Booking>,
    verifications: map<string, Verification>,
    receipts: seq<ReceiptRecord>,
    objects: set<string>,
    accounts: map<string, AccountStatus>,
    emailLog: seq<Notifications.LogEntry>)

  /** The browser routes the application declares (src/App.tsx). */
  const AppRoutes: seq<string> :=
    ["/", "/login", "/register", "/dashboard", "/book", "/payment", "/admin",
     "/admin/confirmation-letter"]

  predicate IsAppRoute(path: string) {
    path in AppRoutes
  }
}
