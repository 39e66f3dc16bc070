/** Payment submission on the guest's payment page
    (src/pages/payment/index.tsx): ordered field validation, the receipt
    file filter, the storage path of the uploaded receipt, and the
    upload, insert and best-effort email sequence with its one compensating
    action, removing the upload when the receipt insert fails. */
module Payment {
  import opened Wrappers
  import opened Entities
  import opened Text
  import N = Notifications

  const MaxFileSize: int := 10 * 1024 * 1024

  const AllowedFileTypes: seq<string> := ["image/jpeg", "image/png", "image/jpg", "application/pdf"]

  datatype ReceiptFile = ReceiptFile(name: string, size: int, mimeType: string)

  /** The form's fields as typed; an untouched field is the empty string. */
  datatype PaymentDetails = PaymentDetails(
    amount: string,
    transactionDate: string,
    transactionReference: string,
    bankUsed: string,
    accountPaidFrom: string,
    receiptFile: Option<ReceiptFile>)

  datatype Field = Amount | TransactionDate | TransactionReference | BankUsed | AccountPaidFrom | Receipt

  /** The order in which `validateInputs` checks the fields. */
  const FieldOrder: seq<Field> :=
    [Amount, TransactionDate, TransactionReference, BankUsed, AccountPaidFrom, Receipt]

  function Position(f: Field): (i: nat)
    ensures i < |FieldOrder| && FieldOrder[i] == f
  {
    match f
    case Amount => 0
    case TransactionDate => 1
    case TransactionReference => 2
    case BankUsed => 3
    case AccountPaidFrom => 4
    case Receipt => 5
  }

  /** Whether one field passes its check. `isNumber` stands for
      `!isNaN(parseFloat(s))`, which the model leaves uninterpreted. */
  predicate FieldOk(d: PaymentDetails, f: Field, isNumber: string -> bool) {
    match f
    case Amount => d.amount != "" && isNumber(d.amount)
    case TransactionDate => d.transactionDate != ""
    case TransactionReference => d.transactionReference != ""
    case BankUsed => d.bankUsed != ""
    case AccountPaidFrom => d.accountPaidFrom != ""
    case Receipt => d.receiptFile.Some?
  }

  /** `validateInputs`: `None` when every field passes, otherwise the first
      failing field in check order, which alone decides the error shown. */
  function ValidateInputs(d: PaymentDetails, isNumber: string -> bool): (r: Option<Field>)
    ensures r.None? <==> forall f: Field :: FieldOk(d, f, isNumber)
    ensures r.Some? ==> !FieldOk(d, r.value, isNumber)
    ensures r.Some? ==> forall g: Field :: Position(g) < Position(r.value) ==> FieldOk(d, g, isNumber)
  {
    if !FieldOk(d, Amount, isNumber) then Some(Amount)
    else if !FieldOk(d, TransactionDate, isNumber) then Some(TransactionDate)
    else if !FieldOk(d, TransactionReference, isNumber) then Some(TransactionReference)
    else if !FieldOk(d, BankUsed, isNumber) then Some(BankUsed)
    else if !FieldOk(d, AccountPaidFrom, isNumber) then Some(AccountPaidFrom)
    else if !FieldOk(d, Receipt, isNumber) then Some(Receipt)
    else None
  }

  predicate AcceptableFile(f: ReceiptFile) {
    f.size <= MaxFileSize && f.mimeType in AllowedFileTypes
  }

  datatype FileRejection = TooLarge | UnsupportedType

  datatype FileChange = FileChange(details: PaymentDetails, rejection: Option<FileRejection>)

  /** `handleFileChange`: the size check comes first, then the type check; a
      rejected file leaves the previously selected receipt and every other
      field as they were. */
  function HandleFileChange(d: PaymentDetails, picked: Option<ReceiptFile>): (r: FileChange)
    ensures picked.None? ==> r == FileChange(d, None)
    ensures picked.Some? ==> (r.rejection.None? <==> AcceptableFile(picked.value))
    ensures picked.Some? && picked.value.size > MaxFileSize ==> r.rejection == Some(TooLarge)
    ensures r.rejection.Some? ==> r.details == d
    ensures picked.Some? && r.rejection.None? ==> r.details == d.(receiptFile := picked)
  {
    match picked
    case None => FileChange(d, None)
    case Some(file) =>
      if file.size > MaxFileSize then FileChange(d, Some(TooLarge))
      else if file.mimeType !in AllowedFileTypes then FileChange(d, Some(UnsupportedType))
      else FileChange(d.(receiptFile := picked), None)
  }

  /** `name.split('.').pop()`: the text after the last dot, or the whole
      name when it has no dot. */
  function FileExtension(name: string): (ext: string)
    ensures '.' !in ext
  {
    if name == [] then []
    else if name[|name| - 1] == '.' then []
    else FileExtension(name[..|name| - 1]) + [name[|name| - 1]]
  }

  /** The extension is the longest dot-free suffix of the name: it ends the
      name, and it is the whole name or follows a dot. */
  lemma {:induction false} ExtensionIsLastSegment(name: string)
    ensures var ext := FileExtension(name);
            |ext| <= |name| && ext == name[|name| - |ext|..]
            && (|ext| < |name| ==> name[|name| - |ext| - 1] == '.')
            && ('.' !in name ==> ext == name)
  {
    if name != [] && name[|name| - 1] != '.' {
      var front := name[..|name| - 1];
      ExtensionIsLastSegment(front);
      var e := FileExtension(front);
      assert front[|front| - |e|..] + [name[|name| - 1]] == name[|name| - |e| - 1..];
      if '.' !in name {
        assert forall c :: c in front ==> c in name;
        assert front + [name[|name| - 1]] == name;
      }
    }
  }

  /** Whatever precedes it, the text after a final dot is read back as the
      extension. */
  lemma {:induction false} ExtensionAfterDot(prefix: string, ext: string)
    requires '.' !in ext
    ensures FileExtension(prefix + "." + ext) == ext
  {
    var name := prefix + "." + ext;
    if ext == [] {
      assert name[|name| - 1] == '.';
    } else {
      var front := ext[..|ext| - 1];
      assert name[..|name| - 1] == prefix + "." + front;
      assert name[|name| - 1] == ext[|ext| - 1];
      assert ext[|ext| - 1] in ext;
      assert forall c :: c in front ==> c in ext;
      ExtensionAfterDot(prefix, front);
      assert front + [ext[|ext| - 1]] == ext;
    }
  }

  /** The storage path of an upload: `userId/timestamp.ext`, scoped under
      the submitter's id. Its extension is the uploaded file's extension. */
  function StoragePath(userId: string, timestamp: nat, name: string): string {
    userId + "/" + DecimalText(timestamp) + "." + FileExtension(name)
  }

  /** The storage path is scoped under the submitter's id, and the stored
      object keeps the uploaded file's extension. */
  lemma StoragePathShape(userId: string, timestamp: nat, name: string)
    ensures var path := StoragePath(userId, timestamp, name);
            |path| > |userId| && path[..|userId| + 1] == userId + "/"
            && FileExtension(path) == FileExtension(name)
  {
    var stem := DecimalText(timestamp);
    var ext := FileExtension(name);
    ExtensionAfterDot(userId + "/" + stem, ext);
    assert userId + "/" + stem + "." + ext == (userId + "/") + (stem + "." + ext);
    assert ((userId + "/") + (stem + "." + ext))[..|userId| + 1] == userId + "/";
  }

  /** The public URL of an object: the bucket's public base URL followed by
      the object's path. */
  function PublicUrl(bucketUrl: string, path: string): string {
    bucketUrl + path
  }

  /** Where the page sends a guest who reaches it without a booking id, as
      written: "/booking", which is not a route of the application. */
  function MissingBookingRedirectAsWritten(): (path: string)
    ensures !IsAppRoute(path)
  {
    var path := "/booking";
    // Only "/payment" has the same eight characters' length as "/booking",
    // and the two differ in their last character.
    forall route | route in AppRoutes
      ensures route != path
    {
      if |route| == |path| {
        assert route == "/payment";
        assert route[7] != path[7];
      }
    }
    path
  }

  /** The redirect the page evidently intends: the booking page, "/book". */
  function MissingBookingRedirect(): (path: string)
    ensures IsAppRoute(path)
  {
    assert AppRoutes[4] == "/book";
    "/book"
  }

  datatype PaymentUser = PaymentUser(id: string, email: string)

  /** The profile lookup for the email: an error (`single()` reports a
      missing row as one), or the row's name, `None` when it is null. */
  datatype ProfileLookup = LookupFailed | LookupOk(fullName: Option<string>)

  /** The outcomes of the backend calls of one submission, in call order.
      `remove` is the rollback's removal of the upload after a failed
      insert; the page does not look at it. */
  datatype Backend = Backend(upload: Outcome, insert: Outcome, remove: Outcome,
                             profile: ProfileLookup, email: N.Delivery)

  datatype SubmitStatus =
    | NotSignedIn
    | Invalid(field: Field)
    | MissingBooking
    | UploadFailed(message: string)
    | RecordFailed(message: string)
    | Submitted(emailSent: bool)

  datatype Submission = Submission(store: Store, navigation: Option<string>, status: SubmitStatus)

  /** The receipt row the page inserts. */
  function Record(user: PaymentUser, bookingId: string, d: PaymentDetails, url: string): ReceiptRecord {
    ReceiptRecord(user.id, bookingId, d.amount, d.transactionDate, d.transactionReference,
                  d.bankUsed, d.accountPaidFrom, url)
  }

  /** How a template literal renders a null name. */
  const NullText := "null"

  /** The best-effort confirmation email after the receipt is recorded. The
      email goes out whenever the profile lookup returned a row, a null name
      rendering as "null"; it counts as sent when the send succeeded. Either
      way the submission stands. */
  function Confirm(log: seq<N.LogEntry>, user: PaymentUser, bookingId: string, d: PaymentDetails,
                   profile: ProfileLookup, email: N.Delivery): (r: (seq<N.LogEntry>, bool))
    ensures r.1 <==> profile.LookupOk? && email.send.Success?
    ensures profile.LookupOk? ==> N.LoggedOnce(log, r.0, N.PaymentReceived, user.email, email)
    ensures profile.LookupOk? && email.logInsert.Success? ==>
              r.0[|log|].data.bookingId == bookingId
              && (profile.fullName.Some? ==> r.0[|log|].data.userName == profile.fullName.value)
              && (profile.fullName.None? ==> r.0[|log|].data.userName == NullText)
    ensures profile.LookupFailed? ==> r.0 == log
  {
    match profile
    case LookupFailed => (log, false)
    case LookupOk(fullName) =>
      var name := if fullName.Some? then fullName.value else NullText;
      var data := N.TemplateData(name, bookingId, d.amount, d.transactionDate,
                                 d.transactionReference, "", "", "");
      var sent := N.SendEmail(log, N.PaymentReceived, user.email, data, email);
      (sent.log, sent.outcome.Success?)
  }

  /** Everything up to the upload passed: a user, valid fields and a booking id. */
  predicate ReadyToUpload(user: Option<PaymentUser>, d: PaymentDetails, bookingId: Option<string>,
                          isNumber: string -> bool)
  {
    user.Some? && ValidateInputs(d, isNumber).None? && bookingId.Some? && bookingId.value != ""
  }

  /** The steps after a successful upload of `path`: insert the receipt row,
      or ask to remove the upload again when the insert fails, whether or
      not that removal goes through; after an insert, the best-effort email
      and the move to the dashboard. */
  function Commit(uploaded: Store, user: PaymentUser, bookingId: string, d: PaymentDetails,
                  path: string, url: string, backend: Backend): (r: Submission)
    ensures backend.insert.Failure? && backend.remove.Success? ==>
              r == Submission(uploaded.(objects := uploaded.objects - {path}), None,
                              RecordFailed(backend.insert.error))
    ensures backend.insert.Failure? && backend.remove.Failure? ==>
              r == Submission(uploaded, None, RecordFailed(backend.insert.error))
    ensures backend.insert.Success? ==>
              r.store.objects == uploaded.objects
              && r.store.receipts == uploaded.receipts + [Record(user, bookingId, d, url)]
              && r.store.bookings == uploaded.bookings && r.store.verifications == uploaded.verifications
              && r.store.accounts == uploaded.accounts
              && r.navigation == Some("/dashboard")
              && r.status == Submitted(backend.profile.LookupOk? && backend.email.send.Success?)
    ensures backend.insert.Success? && backend.profile.LookupOk? ==>
              N.LoggedOnce(uploaded.emailLog, r.store.emailLog, N.PaymentReceived, user.email, backend.email)
    ensures backend.insert.Success? && backend.profile.LookupFailed? ==>
              r.store.emailLog == uploaded.emailLog
  {
    match backend.insert
    case Failure(message) =>
      var kept := if backend.remove.Success? then uploaded.objects - {path} else uploaded.objects;
      Submission(uploaded.(objects := kept), None, RecordFailed(message))
    case Success =>
      var recorded := uploaded.(receipts := uploaded.receipts + [Record(user, bookingId, d, url)]);
      var confirmed := Confirm(recorded.emailLog, user, bookingId, d, backend.profile, backend.email);
      Submission(recorded.(emailLog := confirmed.0), Some("/dashboard"), Submitted(confirmed.1))
  }

  /** The upload of the receipt file to `path` and the steps after it. A
      failed upload changes nothing; a failed insert stays on the page,
      having removed the uploaded object again unless that removal failed; a successful insert records the
      receipt with the object's public URL and moves to the dashboard. */
  function UploadReceipt(store: Store, user: PaymentUser, bookingId: string, d: PaymentDetails,
                         path: string, bucketUrl: string, backend: Backend): (r: Submission)
    ensures r.store.bookings == store.bookings && r.store.verifications == store.verifications
    ensures r.store.accounts == store.accounts
    ensures backend.upload.Failure? ==> r == Submission(store, None, UploadFailed(backend.upload.error))
    ensures backend.upload.Success? && backend.insert.Failure? ==>
              r.navigation.None? && r.status == RecordFailed(backend.insert.error)
    ensures backend.upload.Success? && backend.insert.Failure? && backend.remove.Success? ==>
              r.store == store.(objects := store.objects - {path})
    ensures backend.upload.Success? && backend.insert.Failure? && backend.remove.Failure? ==>
              r.store == store.(objects := store.objects + {path})
    ensures backend.upload.Success? && backend.insert.Success? ==>
              r.store.objects == store.objects + {path}
              && r.store.receipts == store.receipts + [Record(user, bookingId, d, PublicUrl(bucketUrl, path))]
              && r.navigation == Some("/dashboard") && r.status.Submitted?
              && (backend.profile.LookupOk? ==>
                    N.LoggedOnce(store.emailLog, r.store.emailLog, N.PaymentReceived, user.email, backend.email))
              && (backend.profile.LookupFailed? ==> r.store.emailLog == store.emailLog)
  {
    match backend.upload
    case Failure(message) => Submission(store, None, UploadFailed(message))
    case Success =>
      var uploaded := store.(objects := store.objects + {path});
      assert (store.objects + {path}) - {path} == store.objects - {path};
      Commit(uploaded, user, bookingId, d, path, PublicUrl(bucketUrl, path), backend)
  }

  /** `handlePayment`: the sign-in, validation and booking-id checks run
      in that order before anything is uploaded, and each stops the
      submission without changing the store. */
  function HandlePayment(store: Store, user: Option<PaymentUser>, d: PaymentDetails,
                         bookingId: Option<string>, isNumber: string -> bool, now: nat,
                         bucketUrl: string, backend: Backend): (r: Submission)
    ensures user.None? ==> r == Submission(store, Some("/login"), NotSignedIn)
    ensures user.Some? && ValidateInputs(d, isNumber).Some? ==>
              r == Submission(store, None, Invalid(ValidateInputs(d, isNumber).value))
    ensures user.Some? && ValidateInputs(d, isNumber).None? && (bookingId.None? || bookingId.value == "") ==>
              r == Submission(store, Some(MissingBookingRedirectAsWritten()), MissingBooking)
    ensures !ReadyToUpload(user, d, bookingId, isNumber) || backend.upload.Failure? ==>
              r.store == store && !r.status.Submitted?
    ensures r.status.Submitted? ==> r.store.receipts != store.receipts
    ensures ReadyToUpload(user, d, bookingId, isNumber) ==>
              d.receiptFile.Some?
              && r == UploadReceipt(store, user.value, bookingId.value, d,
                                    StoragePath(user.value.id, now, d.receiptFile.value.name), bucketUrl, backend)
  {
    if user.None? then Submission(store, Some("/login"), NotSignedIn)
    else if ValidateInputs(d, isNumber).Some? then
      Submission(store, None, Invalid(ValidateInputs(d, isNumber).value))
    else if bookingId.None? || bookingId.value == "" then
      Submission(store, Some(MissingBookingRedirectAsWritten()), MissingBooking)
    else
      assert FieldOk(d, Receipt, isNumber);
      UploadReceipt(store, user.value, bookingId.value, d,
                    StoragePath(user.value.id, now, d.receiptFile.value.name), bucketUrl, backend)
  }

  /** Once the receipt row is inserted the submission is reported as
      submitted whatever the profile lookup and the email do; they decide
      only whether the email was sent. */
  lemma SubmissionStandsWithoutEmail(store: Store, user: PaymentUser, d: PaymentDetails, bookingId: string,
                                     isNumber: string -> bool, now: nat, bucketUrl: string,
                                     profile: ProfileLookup, email: N.Delivery)
    requires ReadyToUpload(Some(user), d, Some(bookingId), isNumber)
    ensures var r := HandlePayment(store, Some(user), d, Some(bookingId), isNumber, now, bucketUrl,
                                   Backend(Success, Success, Success, profile, email));
            r.status == Submitted(profile.LookupOk? && email.send.Success?)
            && r.navigation == Some("/dashboard")
  {
  }

  /** A signed-in guest with a valid form but no booking id is sent to a
      path that is not a route of the application. */
  lemma MissingBookingLeavesApp(store: Store, user: PaymentUser, d: PaymentDetails,
                                isNumber: string -> bool, now: nat, bucketUrl: string, backend: Backend)
    requires ValidateInputs(d, isNumber).None?
    ensures var r := HandlePayment(store, Some(user), d, None, isNumber, now, bucketUrl, backend);
            r.navigation.Some? && !IsAppRoute(r.navigation.value) && r.store == store
  {
  }

  /** A rollback removal that goes through undoes the upload: a path that
      was new leaves the bucket exactly as before the submission, and
      removing it once more would change nothing. */
  lemma FailedInsertUndoesUpload(store: Store, user: PaymentUser, bookingId: string, d: PaymentDetails,
                                 path: string, bucketUrl: string, backend: Backend)
    requires backend.upload.Success? && backend.insert.Failure? && backend.remove.Success?
    ensures var r := UploadReceipt(store, user, bookingId, d, path, bucketUrl, backend);
            path !in r.store.objects && r.store.objects - {path} == r.store.objects
            && (path !in store.objects ==> r.store == store)
  {
  }

  /** A rollback removal that fails goes unnoticed: the uploaded object
      stays in the bucket although no receipt row was added, and the
      submission reports only the insert's error. */
  lemma FailedRemovalLeavesOrphan(store: Store, user: PaymentUser, bookingId: string, d: PaymentDetails,
                                  path: string, bucketUrl: string, backend: Backend)
    requires backend.upload.Success? && backend.insert.Failure? && backend.remove.Failure?
    ensures var r := UploadReceipt(store, user, bookingId, d, path, bucketUrl, backend);
            path in r.store.objects && r.store.receipts == store.receipts
            && r.status == RecordFailed(backend.insert.error) && r.navigation.None?
  {
  }
}
