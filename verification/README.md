# Lodge booking and payment verification — a Dafny model

This project models the core of a lodge booking web application: guests
register, book a room, and pay by bank transfer. They then upload a receipt,
which administrators approve or reject. Administrators also manage user
accounts, view statistics and bookings, and produce accommodation
confirmation letters.

The model is functional. The backend is a `Store` record holding:
- bookings by id;
- verification decisions keyed by receipt id;
- inserted receipt records;
- the paths in the receipt bucket;
- account statuses;
- the email log.

Each backend call (table query, insert, upsert, storage upload or removal,
edge-function invoke, sign-up) is a parameter giving the call's outcome. A
handler is a pure function from the store, the page state and those
outcomes to the new store and page state. Each handler's contract states:
- which calls were reached;
- what changed;
- what stayed the same.

Modules, one per source unit:

- `Wrappers`: `Option`, `Outcome` (success or error message), `Query`
  (error, or data that may be null).
- `Seqs`, `Text`: order-preserving filter and count; JavaScript `||` on
  strings, `trim`, ASCII `toLowerCase`, decimal rendering.
- `Notifications`: the five email templates, their bodies as text lines,
  and `sendEmail` with its append-only log (`src/lib/notifications.ts`).
- `Entities`: roles, statuses, bookings, verification decisions, receipt
  records, the store, and the application's routes.
- `PaymentVerification`: the admin queue of receipts awaiting a decision,
  approve and reject (`src/components/admin/PaymentVerification.tsx`).
- `Booking`: nights, price and booking creation (`src/pages/booking/index.tsx`).
- `Payment`: ordered validation, the receipt file filter, the storage path,
  and upload → insert → rollback with a best-effort email
  (`src/pages/payment/index.tsx`).
- `UserList`: toggle and delete of accounts and the on-screen list
  (`src/components/admin/UserList.tsx`).
- `Access`: `isAdmin`, the `RequireAdmin` wrapper, and the access check and
  rendering of the admin page and admin layout.
- `DashboardStats`, `BookingsManagement`: the admin overview counts and the
  bookings table.
- `Register`: the registration schema, the profile payload and the submit
  sequence (`src/pages/register.tsx`).
- `ConfirmationLetter`: profile search, resident lines and the letter's
  file name (`src/pages/admin/confirmation-letter.tsx`).

Behaviour of the code that the model keeps as written:
- The upload check allows four MIME types, `image/jpg` among them.
- The booking page never checks that check-out follows check-in, so
  `Nights` is defined for every pair of dates and can be zero or negative.
- Neither the check-in date nor the transaction date is checked against
  the current date.
- The account-status email gives the "now active" sentence to a deleted
  account (`UserList.DeletionEmailSaysActive`).
- The overview counts a booking as active only when it is confirmed or
  pending and paid. Approving a payment sets the booking to active and
  paid, so an approved booking is never counted
  (`DashboardStats.ApprovedBookingNotCounted`).

## Model

| member | source | states |
|---|---|---|
| Notifications.TemplateIndex | src/lib/notifications.ts:9-15 | every template has a place in the declared list of templates |
| Notifications.FiveTemplates | src/lib/notifications.ts:9-97 | there are exactly five templates, listed once each, with pairwise different subjects |
| Notifications.StatusSentence | src/lib/notifications.ts:88-92 | the contact-support sentence is chosen iff the status text is "disabled"; every other status gets the "now active" sentence |
| Notifications.ReceivedBody | src/lib/notifications.ts:18-35 | the payment-received body greets the user and lists the transaction reference among the payment details |
| Notifications.ApprovedBody | src/lib/notifications.ts:36-50 | the approval body greets the user and lists the transaction reference |
| Notifications.RejectedBody | src/lib/notifications.ts:51-67 | the rejection body quotes the rejection reason verbatim on its own line and lists the reference |
| Notifications.ResetBody | src/lib/notifications.ts:68-82 | the reset body carries the reset link unchanged on its own line |
| Notifications.StatusBody | src/lib/notifications.ts:83-96 | the account-status body names the new status; its closing sentence is the support sentence iff the status is "disabled" |
| Notifications.SendEmail | src/lib/notifications.ts:99-145 | the email carries the template's subject and body; earlier log entries are kept; when the log insert goes through exactly one entry with the data is appended, "sent" after a successful send and "failed" with the error otherwise, and a rejected log insert leaves the log as it was; the call returns normally iff the send succeeded and otherwise rethrows the send's error |
| Notifications.LogIsAppendOnly | src/lib/notifications.ts:117-143 | two sends never rewrite earlier entries, extend the log by one entry per accepted log insert, and each entry records its own send's status |
| PaymentVerification.PendingIds | src/components/admin/PaymentVerification.tsx:86-90 | the ids with a pending verification row are exactly those a row marks pending |
| PaymentVerification.DecidedIds | src/components/admin/PaymentVerification.tsx:92-96 | the ids with an approved or rejected row are exactly those a row marks decided |
| PaymentVerification.PendingQueue | src/components/admin/PaymentVerification.tsx:98-102 | the queue is an order-preserving subsequence of the fetched receipts; it holds exactly the receipts with a pending row or with no decided row |
| PaymentVerification.LoadPendingPayments | src/components/admin/PaymentVerification.tsx:61-109 | a query error keeps the queue shown; null data gives an empty queue; otherwise the queue is the pending-queue rule applied to the fetched receipts and rows |
| PaymentVerification.UnverifiedIsQueued | src/components/admin/PaymentVerification.tsx:92-100 | a receipt with no verification row is in the queue |
| PaymentVerification.DecidedIsNotQueued | src/components/admin/PaymentVerification.tsx:92-100 | a receipt whose rows are all approved or rejected is not in the queue |
| PaymentVerification.PendingRowIsQueued | src/components/admin/PaymentVerification.tsx:86-100 | a receipt with any pending row is queued even when a decided row exists too |
| PaymentVerification.QueueRuleOnKeyedDecisions | src/components/admin/PaymentVerification.tsx:79-102 | when the rows come from the keyed decision table, a receipt is queued iff it has no decision or its decision is pending |
| PaymentVerification.Upsert | src/components/admin/PaymentVerification.tsx:114-122 | an upsert stores the decision under its receipt id and leaves every other receipt's decision unchanged |
| PaymentVerification.LastWriteWins | src/components/admin/PaymentVerification.tsx:116-120 | two upserts for the same receipt leave only the second decision |
| PaymentVerification.MarkPaid | src/components/admin/PaymentVerification.tsx:125-131 | exactly the named booking becomes active and paid; every other booking, and the key set, are unchanged |
| PaymentVerification.Approval | src/components/admin/PaymentVerification.tsx:113-120 | the approval row is approved and dated now; its payload leaves `rejection_reason` out, so an existing row keeps its reason and a new row has none |
| PaymentVerification.ApprovalKeepsRejectionReason | src/components/admin/PaymentVerification.tsx:113-120 | approving a previously rejected receipt leaves the rejection reason on the approved row |
| PaymentVerification.Approve | src/components/admin/PaymentVerification.tsx:111-150 | approve upserts the approval, then marks the booking, then sends the approval email; a failed upsert stops before the booking update and the email; a failed booking update stops before the email; the email is logged as `sendEmail` logs it and its outcome is the handler's |
| PaymentVerification.RecordRejection | src/components/admin/PaymentVerification.tsx:168-175 | the rejection email is the rejection body, whose reason line quotes the typed reason; it is logged as `sendEmail` logs it, with the reason in the logged data |
| PaymentVerification.Reject | src/components/admin/PaymentVerification.tsx:152-186 | reject does nothing without a selection or with an empty reason; otherwise it records the rejection and the rejection email; bookings, receipts, stored objects and accounts are never touched; the dialog closes only after the email is sent |
| PaymentVerification.RejectButtonGuard | src/components/admin/PaymentVerification.tsx:321 | the reject button is enabled iff the reason is not blank, and an enabled button implies a non-empty reason |
| Booking.Nights | src/pages/booking/index.tsx:61-63 | nights is the ceiling of the stay's length in whole days |
| Booking.NightsAtLeastOne | src/pages/booking/index.tsx:61-63 | whenever check-out is after check-in, there is at least one night |
| Booking.NightsOfWholeDays | src/pages/booking/index.tsx:61-63 | a stay of exactly k days is k nights, and one millisecond more makes it k + 1 |
| Booking.NewBooking | src/pages/booking/index.tsx:64-77 | a new booking is pending, its payment pending, and it carries the chosen room and user and price × nights |
| Booking.HandleBooking | src/pages/booking/index.tsx:53-102 | a missing selection or user inserts nothing; payment navigation happens only after a successful insert that returned data, and carries the new booking id and total price |
| Booking.TwoNightScenario | src/pages/booking/index.tsx:61-64 | a two-day stay at 5000 a night costs 10000 |
| Payment.ValidateInputs | src/pages/payment/index.tsx:56-88 | the form is valid iff every field passes; otherwise the result is the first failing field in the order amount, date, reference, bank, account, file |
| Payment.HandleFileChange | src/pages/payment/index.tsx:90-111 | a file is accepted iff it is at most 10 MiB and of one of the four allowed types; size is checked first; a rejected file leaves every field unchanged |
| Payment.FileExtension | src/pages/payment/index.tsx:138 | the extension never contains a dot |
| Payment.ExtensionIsLastSegment | src/pages/payment/index.tsx:138 | the extension ends the name and is either the whole name (always so when the name has no dot) or preceded by a dot: the last segment of `split('.')` |
| Payment.ExtensionAfterDot | src/pages/payment/index.tsx:138 | whatever precedes it, the text after a final dot reads back as the extension |
| Payment.StoragePathShape | src/pages/payment/index.tsx:138-139 | the storage path starts with the user's id and a slash, and reading its extension back gives the uploaded file's extension |
| Text.DecimalTextReadsBack | src/pages/payment/index.tsx:139 | the timestamp is rendered as a non-empty run of decimal digits whose value is the timestamp |
| Payment.MissingBookingRedirectAsWritten | src/pages/payment/index.tsx:133 | the redirect target the code uses without a booking id is not a declared route |
| Payment.MissingBookingRedirect | src/App.tsx:26 | the corrected redirect target is a declared route |
| Payment.Confirm | src/pages/payment/index.tsx:193-218 | the confirmation email is sent whenever the profile lookup returns a row, greeting the stored name or "null"; no email without a row; the email counts as sent iff a row was found and the send succeeded |
| Payment.Commit | src/pages/payment/index.tsx:165-227 | after an upload, a failed insert stays on the page and removes the uploaded object when the removal goes through, and otherwise leaves it in place; a successful insert appends exactly the receipt row, leaves accounts alone, logs one payment-received email when the profile row was found (and none when it was not), navigates to the dashboard and reports submitted, with the email flag set iff the profile row was found and the send succeeded |
| Payment.UploadReceipt | src/pages/payment/index.tsx:138-227 | bookings, verifications and accounts are never touched; a failed upload changes nothing; a failed insert leaves the bucket as before minus the path when the rollback removal goes through, and with the path added when it fails; a successful insert adds the object, records the receipt with the object's public URL, logs the payment-received email exactly when the profile row was found, and moves to the dashboard |
| Payment.HandlePayment | src/pages/payment/index.tsx:114-227 | sign-in, validation and booking-id checks run in that order before any upload and change nothing, a missing booking id redirecting to "/booking"; the upload goes to the user-scoped storage path of the receipt file; a submission is reported only when a receipt row was added |
| Payment.SubmissionStandsWithoutEmail | src/pages/payment/index.tsx:193-227 | once the receipt is inserted the submission succeeds whatever the profile lookup and the email do; they decide only the email flag |
| Payment.MissingBookingLeavesApp | src/pages/payment/index.tsx:130-134 | a signed-in guest with a valid form and no booking id is sent to a path that is not a route of the application, and nothing is stored |
| Payment.FailedInsertUndoesUpload | src/pages/payment/index.tsx:183-191 | after a failed insert whose rollback removal goes through, the uploaded path is gone from the bucket; for a new path the store is exactly as before the submission, and removing it again would change nothing |
| Payment.FailedRemovalLeavesOrphan | src/pages/payment/index.tsx:183-191 | the page never checks the rollback removal's result, so a failed removal leaves the uploaded object in the bucket with no receipt row, and the submission reports only the insert error |
| UserList.ToggledStatus | src/components/admin/UserList.tsx:208 | active becomes disabled and every other status becomes active |
| UserList.ToggleTwice | src/components/admin/UserList.tsx:208 | toggling twice restores active and disabled users and turns a deleted user into a disabled one |
| UserList.WithStatus | src/components/admin/UserList.tsx:225-227 | the list update changes only the entries with the matching id, keeping length and order |
| UserList.WithStatusUndo | src/components/admin/UserList.tsx:225-227 | setting a status and then setting the previous status back restores the list |
| UserList.ApplyStatus | src/components/admin/UserList.tsx:209-227 | a failed upsert changes nothing and sends no email; otherwise the account's status is stored and the status email is logged as `sendEmail` logs it; the list changes only if both the upsert and the email send succeed |
| UserList.HandleStatusToggle | src/components/admin/UserList.tsx:206-234 | the toggle stores the toggled status, logs one status email when the upsert succeeds, updates the list only when both calls succeed, and leaves bookings, verifications, receipts and stored objects alone |
| UserList.HandleDeleteUser | src/components/admin/UserList.tsx:236-268 | with no selection nothing happens; otherwise only the selected account becomes deleted, one status email is logged once the upsert succeeds, the list shows the user as deleted when both calls succeed, bookings, verifications, receipts and stored objects are never touched, and the selection and dialog are cleared on every path |
| UserList.DeletionEmailSaysActive | src/lib/notifications.ts:90-92 | the deletion email's closing sentence says the account is now active |
| UserList.ListLagsOnEmailFailure | src/components/admin/UserList.tsx:217-227 | when the upsert succeeds and the email fails, the store has the new status while the list keeps the old one |
| Access.IsAdmin | src/lib/utils.ts:9-21 | an absent or empty id is refused; otherwise the answer is true iff a row was found and its role is admin or manager |
| Access.NoLookupWithoutUser | src/lib/utils.ts:10 | without a user id the answer is false whatever the lookup would return |
| Access.SameRowSameAnswer | src/lib/utils.ts:12-20 | the answer depends only on the user's own row |
| Access.RequireAdmin | src/components/auth/require-admin.tsx:10-35 | a missing user is sent to the login page with the original location, ahead of loading; while loading there is only a spinner; a non-admin goes home; the children render iff signed in, settled and admin |
| Access.RequireAdminFailsClosed | src/components/auth/require-admin.tsx:15-35 | composed with the role check, the children render only for a signed-in user whose row says admin or manager |
| Access.CheckAdminAccess | src/pages/admin/index.tsx:42-71 | no user goes to the login page; an error, a missing row or a plain user goes to "/" with the admin user unchanged; a privileged row sets the admin user; loading is cleared on every path |
| Access.CheckAgreesWithIsAdmin | src/components/layout/admin-layout.tsx:28-57 | the layout's check sets an admin user iff the role check would accept the user |
| Access.OnAuthSettled | src/pages/admin/index.tsx:36-40 | the check runs only once auth loading has finished, and then clears loading |
| Access.FirstCheck | src/components/layout/admin-layout.tsx:22-57 | from the initial state, the admin user is set exactly for a privileged row; otherwise the user is sent to the login page or to "/" |
| Access.Gate | src/pages/admin/index.tsx:88-98 | the spinner shows while either loading flag is set; nothing renders without an admin user; the shell renders with the admin user's role |
| Access.NothingBeforeCheck | src/components/layout/admin-layout.tsx:59-65 | before the check completes only the spinner shows |
| Access.LayoutChildrenShown | src/components/layout/admin-layout.tsx:59-87 | the layout's children render iff an admin user is set and neither loading flag is set |
| Access.VisibleTabs | src/pages/admin/index.tsx:118-178 | the feedback and settings tabs are listed iff the role is admin; the other tabs always are |
| Access.TabContent | src/pages/admin/index.tsx:197-220 | the feedback and settings panels render only for admins; the letters tab has no panel |
| Access.RenderAdminPage | src/pages/admin/index.tsx:88-220 | the dashboard renders iff auth and the check are settled and an admin user is set, and an admin-only panel implies the admin role |
| Access.ManagerSeesNoAdminPanels | src/pages/admin/index.tsx:159-178 | a manager never sees the feedback or settings tab or panel |
| DashboardStats.LoadStats | src/components/admin/DashboardStats.tsx:24-108 | no session or an unprivileged role runs no query; any query error keeps the previous stats; otherwise the stats are the non-deleted users, the confirmed-or-pending paid bookings, and the receipts awaiting verification |
| DashboardStats.ApprovedBookingNotCounted | src/components/admin/DashboardStats.tsx:55-59 | a booking approved by payment verification, which is active and paid, is never counted as active |
| DashboardStats.ApprovalNeverRaisesActiveCount | src/components/admin/DashboardStats.tsx:55-59 | approving any one booking never raises the active-bookings count |
| DashboardStats.DecidedReceiptNotPending | src/components/admin/DashboardStats.tsx:85-88 | a receipt whose latest verification is approved or rejected is not pending, whatever older rows say |
| BookingsManagement.Flatten | src/components/admin/BookingsManagement.tsx:189-195 | the booking is copied unchanged; each guest and room field is its value, or "N/A" when missing or empty |
| BookingsManagement.MissingJoinsShowFallback | src/components/admin/BookingsManagement.tsx:189-195 | a booking without guest and room data shows "N/A" in all four fields |
| BookingsManagement.Transform | src/components/admin/BookingsManagement.tsx:187-195 | the table holds as many rows as fetched bookings with a listed status, and every row's status is active, approved, confirmed or pending |
| BookingsManagement.TransformIsFilterThenFlatten | src/components/admin/BookingsManagement.tsx:187-195 | the transform equals the order-preserving status filter followed by the flattening |
| BookingsManagement.Limited | src/components/admin/BookingsManagement.tsx:177-178 | the query returns at most 100 rows, the newest first |
| BookingsManagement.LoadBookings | src/components/admin/BookingsManagement.tsx:150-207 | a query error keeps the list; null data gives an empty list; otherwise the list is, in fetch order, the flattened listed bookings among the first 100 fetched, so at most 100 rows |
| BookingsManagement.Summarize | src/components/admin/BookingsManagement.tsx:238-249 | the total is the list's length, the active count is the number of active rows and the pending-payments count the number of rows whose payment is pending |
| Register.RuleOf | src/pages/register.tsx:11-39 | only the two secondary phones are optional, only the email is format-checked, and exactly gender, marital status, knowledge level and diet are choices from fixed lists |
| Register.Validate | src/pages/register.tsx:11-39 | every field whose schema rule fails is listed and every listed field fails; none fail iff every rule passes |
| Register.ValidFormBounds | src/pages/register.tsx:12-38 | a valid form meets the minimum lengths of the name, address, password and phones, the email format and the four fixed option sets |
| Register.OptionalPhonesNeverFail | src/pages/register.tsx:29-34 | the secondary phones never make a form invalid |
| Register.Cell | src/pages/register.tsx:76-98 | a secondary phone that is absent or empty becomes null; every other field is copied as entered |
| Register.ProfilePayloadOf | src/pages/register.tsx:74-99 | the row's id is the auth user's id and it has one cell per field with a column, the password excluded |
| Register.PayloadRoundTrip | src/pages/register.tsx:74-99 | reading a cell back gives the text entered, except that an empty or absent secondary phone reads back as nothing |
| Register.Column | src/pages/register.tsx:74-99 | every field except the password has a profile column, and the column reads back as its field |
| Register.ColumnsDistinct | src/pages/register.tsx:74-99 | no two fields share a profile column |
| Register.Submit | src/pages/register.tsx:55-129 | an invalid form never reaches sign-up; a sign-up error prevents the insert; a valid form whose sign-up returns a user inserts exactly the profile payload of the form for that user; a sign-up without a user skips the insert yet succeeds |
| Text.Trim | src/pages/admin/confirmation-letter.tsx:36 | `trim` keeps the part of the string between a blank prefix and a blank suffix, and neither end of the result is whitespace |
| Text.ToLower | src/pages/admin/confirmation-letter.tsx:36 | `toLowerCase` keeps the length and lowercases each ASCII capital, leaving every other character as it is |
| Text.TrimOfLower | src/pages/admin/confirmation-letter.tsx:36 | trimming the lowercased string skips the same leading blanks as the string itself and keeps its characters lowercased, up to a blank tail |
| ConfirmationLetter.SearchTerm | src/pages/admin/confirmation-letter.tsx:29-36 | the term is the query after its leading blanks, each character lowercased, followed in the query only by blanks; it has no capital letter, neither end is whitespace, and it is empty iff the query is blank |
| ConfirmationLetter.SearchUsers | src/pages/admin/confirmation-letter.tsx:29-66 | a blank query runs no search; an error keeps the state; an empty result empties the list and keeps the selection; a non-empty result replaces the list and clears the selection |
| ConfirmationLetter.ResidentLines | src/pages/admin/confirmation-letter.tsx:119-125 | five lines: name and email as stored; "Not provided" for a missing or empty phone or address, and "Not specified" for gender |
| ConfirmationLetter.FileName | src/pages/admin/confirmation-letter.tsx:187 | the file name is the fixed prefix, the profile id and ".pdf" |
| ConfirmationLetter.IdOfFileName | src/pages/admin/confirmation-letter.tsx:187 | a name that decodes to an id is exactly that id's letter file name |
| ConfirmationLetter.FileNameRoundTrip | src/pages/admin/confirmation-letter.tsx:187 | a letter's file name decodes back to its profile id, so different profiles get different names |
| ConfirmationLetter.LetterIsPdf | src/pages/admin/confirmation-letter.tsx:187 | a letter's file name always has the "pdf" extension |
| ConfirmationLetter.GeneratePdf | src/pages/admin/confirmation-letter.tsx:68-195 | there is no letter without a selection; otherwise the letter's file name decodes to the selected id, its resident lines are the selected profile's five lines with their "Not provided"/"Not specified" fallbacks, and its rules are the ten lodge rules |

## Left out

- Rendering, toasts, styling and the React component tree. React state is
  the explicit state records above; effects are the functions that run them.
- The SQL semantics of the backend: joins and ordering. Each query's
  result rows are a parameter of the model, taken in the order the query
  returns them. The bookings table's 100-row limit and the status
  conditions of the overview counts are modelled (`BookingsManagement.Limited`,
  the `DashboardStats` predicates). The overview's receipt query joins
  verifications with `!inner`, which drops receipts without any
  verification; the model takes the rows as given.
- Date formatting (`toLocaleDateString`, `toISOString`) and `Date.now()`:
  dates are the text to display, and the submission time is a parameter.
- `parseFloat` and NaN: the amount check is an uninterpreted `isNumber`,
  and amounts stay text in receipt records. The zod email regex is an
  uninterpreted `isEmail`.
- Text.ToLower: models `toLowerCase` for ASCII letters only; Unicode case
  mapping is not modelled.
- Text.Trim: strips the whitespace characters listed in `IsWhitespace`, not
  the full Unicode `White_Space` set.
- Register.Validate: counts string length in characters, where zod counts
  UTF-16 code units.
- jsPDF drawing (layout, colours, fonts, the date line, the motto and the
  declaration): only the resident lines, the rules and the file name are
  modelled.
- The public URL of an upload is the bucket's base URL followed by the path.
  The storage client's URL construction is not modelled.
- Payment.Confirm: a null `full_name` is carried as the text "null", which
  is what the greeting renders; the logged data would hold a JSON null.
- Notifications: the email bodies are modelled as their text lines, without
  the indentation the template literals carry.
- ConfirmationLetter.Profile: `fullName` and `email` are plain strings, as
  the page's `Profile` interface declares them. A null `full_name` from the
  database, which the letter would print as "null", is not modelled.
- The `use-admin` hook is a wrapper that calls `isAdmin`, and the `cn` class
  helper is a style utility.
- The home, navbar, user dashboard and user-details pages are presentation
  only.
- The account-status email of `UserList` carries only the name and status.
  Undefined template fields are the empty string.
- Concurrency: two administrators acting at once, and any interleaving of
  the asynchronous calls. The code has no coordination to model.
- Notifications.Subject: has no contract of its own; that the five
  subjects differ is stated by `Notifications.FiveTemplates`.
- Payment.StoragePath: has no contract of its own; its shape is stated by
  `Payment.StoragePathShape`.
- Notifications.Body: dispatches a template to its body function and has no
  contract of its own; each body function carries one.

## Findings

| source | as written | input that shows it | evidently intended | confidence | as-written member | corrected member |
|---|---|---|---|---|---|---|
| src/pages/payment/index.tsx:133 | a payment page reached without a booking id navigates to "/booking" | open the payment page without navigation state | navigate to the booking page "/book", the route src/App.tsx:26 declares | high; not executed | Payment.MissingBookingRedirectAsWritten | Payment.MissingBookingRedirect |
