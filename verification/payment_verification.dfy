/** The admin payment-verification workflow
    (src/components/admin/PaymentVerification.tsx): the pending-payments
    queue, and the approve and reject transitions.

    Each transition is a sequence of dependent backend calls with no
    transaction around them; each call's outcome is a parameter, and the
    first failing call stops the sequence, leaving the effects of the calls
    before it in place. */
module PaymentVerification {
  import opened Wrappers
  import opened Entities
  import opened Seqs
  import opened Text
  import N = Notifications

  /** A row of the receipts-with-profiles view: a receipt, its id, and the
      submitter's name and email. */
  datatype PaymentReceipt = PaymentReceipt(
    id: string,
    record: ReceiptRecord,
    fullName: string,
    email: string)

  /** A verification row as the queue query selects it. */
  datatype VerificationRow = VerificationRow(receiptId: string, status: VerificationStatus)

  predicate HasRow(rows: seq<VerificationRow>, id: string, s: VerificationStatus) {
    exists i :: 0 <= i < |rows| && rows[i].receiptId == id && rows[i].status == s
  }

  /** The queue's admission rule, stated on the rows: a receipt awaits a
      decision when one of its rows is pending, or none of them is approved
      or rejected (in particular, when it has no row at all). */
  predicate AwaitsDecision(rows: seq<VerificationRow>, id: string) {
    HasRow(rows, id, VerificationStatus.Pending)
    || (!HasRow(rows, id, VerificationStatus.Approved) && !HasRow(rows, id, Rejected))
  }

  /** Receipt ids with a pending row. */
  function PendingIds(rows: seq<VerificationRow>): (ids: set<string>)
    ensures forall id :: id in ids <==> HasRow(rows, id, VerificationStatus.Pending)
  {
    set i | 0 <= i < |rows| && rows[i].status == VerificationStatus.Pending :: rows[i].receiptId
  }

  /** Receipt ids with an approved or a rejected row. */
  function DecidedIds(rows: seq<VerificationRow>): (ids: set<string>)
    ensures forall id :: id in ids <==> HasRow(rows, id, VerificationStatus.Approved) || HasRow(rows, id, Rejected)
  {
    set i | 0 <= i < |rows| && (rows[i].status == VerificationStatus.Approved || rows[i].status == Rejected)
          :: rows[i].receiptId
  }

  /** The pending queue: the fetched receipts, in fetch order, that are not
      decided or have a pending row. Nothing is added or reordered, and a
      receipt is kept exactly when it awaits a decision. */
  function PendingQueue(receipts: seq<PaymentReceipt>, rows: seq<VerificationRow>)
    : (queue: seq<PaymentReceipt>)
    ensures IsSubsequence(queue, receipts)
    ensures forall i :: 0 <= i < |queue| ==> AwaitsDecision(rows, queue[i].id)
    ensures forall i :: 0 <= i < |receipts| && AwaitsDecision(rows, receipts[i].id)
                        ==> receipts[i] in queue
  {
    var pending := PendingIds(rows);
    var decided := DecidedIds(rows);
    Filter(receipts, (r: PaymentReceipt) => r.id !in decided || r.id in pending)
  }

  /** `loadPendingPayments`: the list shown after a reload. A failed query
      keeps the list on screen; null receipt data empties it without
      querying the verifications; null verification data counts as no rows. */
  function LoadPendingPayments(shown: seq<PaymentReceipt>, receipts: Query<seq<PaymentReceipt>>,
                               verifications: Query<seq<VerificationRow>>)
    : (r: seq<PaymentReceipt>)
    ensures receipts.QueryError? ==> r == shown
    ensures receipts == QueryOk(None) ==> r == []
    ensures receipts.QueryOk? && receipts.data.Some? ==>
              (verifications.QueryError? ==> r == shown)
              && (verifications == QueryOk(None) ==> r == PendingQueue(receipts.data.value, []))
              && (verifications.QueryOk? && verifications.data.Some? ==>
                    r == PendingQueue(receipts.data.value, verifications.data.value))
  {
    match receipts
    case QueryError(_) => shown
    case QueryOk(None) => []
    case QueryOk(Some(data)) =>
      match verifications
      case QueryError(_) => shown
      case QueryOk(rows) => PendingQueue(data, if rows.Some? then rows.value else [])
  }

  /** A receipt with no verification row at all is queued. */
  lemma UnverifiedIsQueued(receipts: seq<PaymentReceipt>, rows: seq<VerificationRow>, k: nat)
    requires k < |receipts|
    requires forall i :: 0 <= i < |rows| ==> rows[i].receiptId != receipts[k].id
    ensures receipts[k] in PendingQueue(receipts, rows)
  {
  }

  /** A receipt whose rows are all approved or rejected, and which has at
      least one, is not queued. */
  lemma DecidedIsNotQueued(receipts: seq<PaymentReceipt>, rows: seq<VerificationRow>, id: string)
    requires exists i :: 0 <= i < |rows| && rows[i].receiptId == id
    requires forall i :: 0 <= i < |rows| && rows[i].receiptId == id
                         ==> rows[i].status != VerificationStatus.Pending
    ensures forall q :: q in PendingQueue(receipts, rows) ==> q.id != id
  {
    var i :| 0 <= i < |rows| && rows[i].receiptId == id;
    assert HasRow(rows, id, rows[i].status);
    var queue := PendingQueue(receipts, rows);
    forall q | q in queue ensures q.id != id {
      var k :| 0 <= k < |queue| && queue[k] == q;
      assert AwaitsDecision(rows, queue[k].id);
    }
  }

  /** A receipt with a pending row is queued even when a decided row for
      it also exists. */
  lemma PendingRowIsQueued(receipts: seq<PaymentReceipt>, rows: seq<VerificationRow>, k: nat, j: nat)
    requires k < |receipts| && j < |rows|
    requires rows[j].receiptId == receipts[k].id && rows[j].status == VerificationStatus.Pending
    ensures receipts[k] in PendingQueue(receipts, rows)
  {
    assert HasRow(rows, receipts[k].id, VerificationStatus.Pending);
  }

  /** `rows` lists the decisions of `decisions`, one row per receipt, as the
      verification table does when it is keyed by receipt id. */
  predicate RowsOf(rows: seq<VerificationRow>, decisions: map<string, Verification>) {
    && (forall i :: 0 <= i < |rows| ==>
          rows[i].receiptId in decisions && decisions[rows[i].receiptId].status == rows[i].status)
    && (forall id :: id in decisions ==> exists i :: 0 <= i < |rows| && rows[i].receiptId == id)
  }

  /** With one decision per receipt, the queue's rule reads: no decision
      yet, or the decision is pending. */
  lemma QueueRuleOnKeyedDecisions(rows: seq<VerificationRow>, decisions: map<string, Verification>, id: string)
    requires RowsOf(rows, decisions)
    ensures AwaitsDecision(rows, id) <==>
              id !in decisions || decisions[id].status == VerificationStatus.Pending
  {
    if id in decisions {
      var i :| 0 <= i < |rows| && rows[i].receiptId == id;
      assert HasRow(rows, id, decisions[id].status);
      if HasRow(rows, id, VerificationStatus.Pending) {
        var j :| 0 <= j < |rows| && rows[j].receiptId == id && rows[j].status == VerificationStatus.Pending;
      }
    } else {
      assert forall i :: 0 <= i < |rows| ==> rows[i].receiptId != id;
    }
  }

  /** The decision upsert keyed by receipt id: it inserts or overwrites the
      receipt's decision and leaves every other receipt's decision alone. */
  function Upsert(decisions: map<string, Verification>, v: Verification)
    : (r: map<string, Verification>)
    ensures r.Keys == decisions.Keys + {v.receiptId}
    ensures r[v.receiptId] == v
    ensures forall id :: id in decisions && id != v.receiptId ==> r[id] == decisions[id]
  {
    decisions[v.receiptId := v]
  }

  /** Re-deciding a receipt replaces the earlier decision: the last write
      wins and no history is kept. */
  lemma LastWriteWins(decisions: map<string, Verification>, first: Verification, second: Verification)
    requires first.receiptId == second.receiptId
    ensures Upsert(Upsert(decisions, first), second) == Upsert(decisions, second)
  {
  }

  /** The booking update of an approval: exactly the booking `id`, when it
      exists, becomes paid and active; an update matching no row changes
      nothing. */
  function MarkPaid(bookings: map<string, Booking>, id: string): (r: map<string, Booking>)
    ensures r.Keys == bookings.Keys
    ensures id in bookings ==>
              r[id] == bookings[id].(status := BookingStatus.Active, paymentStatus := Paid)
    ensures forall k :: k in bookings && k != id ==> r[k] == bookings[k]
  {
    if id in bookings then
      bookings[id := bookings[id].(status := BookingStatus.Active, paymentStatus := Paid)]
    else bookings
  }

  function EmailData(p: PaymentReceipt, reason: string): N.TemplateData {
    N.TemplateData(p.fullName, p.record.bookingId, p.record.amount, p.record.transactionDate,
                   p.record.reference, reason, "", "")
  }

  /** The approval the upsert leaves behind. Its payload names the status
      and the date but not `rejection_reason`, so on an existing row the
      column merge keeps the earlier reason; a new row has none. */
  function Approval(decisions: map<string, Verification>, receiptId: string, now: string)
    : (v: Verification)
    ensures v.receiptId == receiptId && v.status == VerificationStatus.Approved && v.verifiedAt == now
    ensures receiptId in decisions ==> v.rejectionReason == decisions[receiptId].rejectionReason
    ensures receiptId !in decisions ==> v.rejectionReason.None?
  {
    var reason := if receiptId in decisions then decisions[receiptId].rejectionReason else None;
    Verification(receiptId, VerificationStatus.Approved, now, reason)
  }

  /** An approval after a rejection keeps the rejection's reason on the
      now approved row. */
  lemma ApprovalKeepsRejectionReason(decisions: map<string, Verification>, receiptId: string,
                                     rejectedAt: string, reason: string, now: string)
    ensures var rejected := Upsert(decisions, Verification(receiptId, Rejected, rejectedAt, Some(reason)));
            var approved := Upsert(rejected, Approval(rejected, receiptId, now));
            approved[receiptId].status == VerificationStatus.Approved
            && approved[receiptId].rejectionReason == Some(reason)
  {
  }

  /** The store after a transition, and whether the handler reported success. */
  datatype Decided = Decided(store: Store, outcome: Outcome)

  /** `handleApprovePayment`: upsert the approval, then mark the booking paid
      and active, then send the approval email. A failed upsert changes
      nothing; a failed booking update keeps the approval but sends no
      email; a failed email is reported although the decision and the
      booking have changed. */
  function Approve(store: Store, payment: PaymentReceipt, now: string,
                   upsert: Outcome, bookingUpdate: Outcome, email: N.Delivery): (r: Decided)
    ensures upsert.Failure? ==> r.store == store && r.outcome == upsert
    ensures upsert.Success? ==>
              r.store.verifications
              == Upsert(store.verifications, Approval(store.verifications, payment.id, now))
    ensures upsert.Success? && bookingUpdate.Failure? ==>
              r.store.bookings == store.bookings && r.store.emailLog == store.emailLog
              && r.outcome == bookingUpdate
    ensures upsert.Success? && bookingUpdate.Success? ==>
              r.store.bookings == MarkPaid(store.bookings, payment.record.bookingId)
              && N.LoggedOnce(store.emailLog, r.store.emailLog, N.PaymentApproved, payment.email, email)
              && r.outcome == email.send
    ensures r.store.receipts == store.receipts && r.store.objects == store.objects
    ensures r.store.accounts == store.accounts
  {
    if upsert.Failure? then Decided(store, upsert)
    else
      var decided := store.(verifications :=
        Upsert(store.verifications, Approval(store.verifications, payment.id, now)));
      if bookingUpdate.Failure? then Decided(decided, bookingUpdate)
      else
        var sent := N.SendEmail(decided.emailLog, N.PaymentApproved, payment.email,
                                EmailData(payment, ""), email);
        Decided(decided.(bookings := MarkPaid(store.bookings, payment.record.bookingId),
                         emailLog := sent.log),
                sent.outcome)
  }

  /** The reject dialog's state: the payment it was opened for, the reason
      typed so far, and whether it is open. */
  datatype RejectDialog = RejectDialog(selected: Option<PaymentReceipt>, reason: string, open: bool)

  /** The store and dialog after a reject, and the reported outcome; no
      outcome means the handler returned without doing anything. */
  datatype RejectResult = RejectResult(store: Store, dialog: RejectDialog, outcome: Option<Outcome>)

  /** The email step of a reject, once the guard has passed and the
      upsert has succeeded: the rejection email quotes the reason and is
      logged as `sendEmail` logs it. */
  function RecordRejection(store: Store, p: PaymentReceipt, reason: string,
                           email: N.Delivery): (r: N.SendResult)
    ensures N.LoggedOnce(store.emailLog, r.log, N.PaymentRejected, p.email, email)
    ensures email.logInsert.Success? ==> r.log[|store.emailLog|].data.rejectionReason == reason
    ensures r.email.content == N.RejectedBody(EmailData(p, reason))
    ensures r.email.content[4] == "Reason: " + reason
    ensures r.outcome == email.send
  {
    N.SendEmail(store.emailLog, N.PaymentRejected, p.email, EmailData(p, reason), email)
  }

  /** `handleRejectPayment`: with a selected payment and a non-empty reason,
      upsert the rejection with its reason, then send the rejection email;
      only when both succeed is the dialog closed and cleared. The booking
      is never touched. */
  function Reject(store: Store, dialog: RejectDialog, now: string,
                  upsert: Outcome, email: N.Delivery): (r: RejectResult)
    ensures r.store.bookings == store.bookings
    ensures r.store.receipts == store.receipts && r.store.objects == store.objects
            && r.store.accounts == store.accounts
    ensures dialog.selected.None? || dialog.reason == "" ==>
              r == RejectResult(store, dialog, None)
    ensures dialog.selected.Some? && dialog.reason != "" && upsert.Failure? ==>
              r == RejectResult(store, dialog, Some(upsert))
    ensures dialog.selected.Some? && dialog.reason != "" && upsert.Success? ==>
              && r.store.verifications
                 == Upsert(store.verifications,
                           Verification(dialog.selected.value.id, Rejected, now, Some(dialog.reason)))
              && r.store.emailLog
                 == RecordRejection(store, dialog.selected.value, dialog.reason, email).log
              && r.outcome == Some(email.send)
              && (email.send.Success? ==> r.dialog == RejectDialog(None, "", false))
              && (email.send.Failure? ==> r.dialog == dialog)
  {
    if dialog.selected.None? || dialog.reason == "" then RejectResult(store, dialog, None)
    else if upsert.Failure? then RejectResult(store, dialog, Some(upsert))
    else
      var p := dialog.selected.value;
      var sent := RecordRejection(store, p, dialog.reason, email);
      var after := store.(
        verifications := Upsert(store.verifications,
                                Verification(p.id, Rejected, now, Some(dialog.reason))),
        emailLog := sent.log);
      if sent.outcome.Failure? then RejectResult(after, dialog, Some(sent.outcome))
      else RejectResult(after, RejectDialog(None, "", false), Some(Success))
  }

  /** The dialog's confirm button is enabled only for a reason that is not
      blank. */
  predicate RejectButtonEnabled(reason: string) {
    Trim(reason) != ""
  }

  /** The button is stricter than the handler's own guard: whenever the
      button can be pressed the guard passes, and a reason is accepted by
      the button exactly when it is not all whitespace. */
  lemma RejectButtonGuard(reason: string)
    ensures RejectButtonEnabled(reason) ==> reason != ""
    ensures RejectButtonEnabled(reason) <==> !IsBlank(reason)
  {
    TrimEmptyIffBlank(reason);
  }
}
