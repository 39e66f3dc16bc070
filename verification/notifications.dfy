/** Notification dispatch (src/lib/notifications.ts): a fixed table of five
    email templates, rendering of a template against its data, and
    `sendEmail`, which hands the rendered email to the email edge function,
    then asks the email log for one entry whatever the send did, ignoring
    whether that insert went through, and rethrows a failed send.

    A body is modelled as its sequence of text lines, with the indentation
    of the template literal removed. Dates reach the templates as the text
    to display: the locale date formatting is not modelled. */
module Notifications {
  import opened Wrappers

  datatype EmailTemplate =
    | PaymentReceived
    | PaymentApproved
    | PaymentRejected
    | PasswordReset
    | AccountStatusChange

  /** The values a template may substitute; each template reads only the
      fields its text names, and the log keeps the data as given. */
  datatype TemplateData = TemplateData(
    userName: string,
    bookingId: string,
    amount: string,
    transactionDate: string,
    reference: string,
    rejectionReason: string,
    resetLink: string,
    status: string)

  /** The templates in declaration order. */
  const Templates: seq<EmailTemplate> :=
    [PaymentReceived, PaymentApproved, PaymentRejected, PasswordReset, AccountStatusChange]

  function TemplateIndex(t: EmailTemplate): (i: nat)
    ensures i < |Templates| && Templates[i] == t
  {
    match t
    case PaymentReceived => 0
    case PaymentApproved => 1
    case PaymentRejected => 2
    case PasswordReset => 3
    case AccountStatusChange => 4
  }

  function Subject(t: EmailTemplate): string {
    match t
    case PaymentReceived => "Payment Receipt Submitted"
    case PaymentApproved => "Payment Verified Successfully"
    case PaymentRejected => "Payment Verification Failed"
    case PasswordReset => "Password Reset Request"
    case AccountStatusChange => "Account Status Update"
  }

  /** There are exactly five templates, each listed once, and no two share a
      subject, so the subject identifies the template. */
  lemma FiveTemplates()
    ensures |Templates| == 5
    ensures forall t: EmailTemplate {:trigger TemplateIndex(t)} :: Templates[TemplateIndex(t)] == t
    ensures forall i, j :: 0 <= i < j < |Templates| ==> Templates[i] != Templates[j]
    ensures forall i, j :: 0 <= i < j < |Templates| ==> Subject(Templates[i]) != Subject(Templates[j])
  {
  }

  const SupportSentence := "If you believe this was done in error, please contact our support team."
  const ActiveSentence := "Your account is now active and you can access all features."

  /** The line of the account-status email that depends on the new status:
      only the status text "disabled" gets the contact-support sentence. */
  function StatusSentence(status: string): (line: string)
    ensures line == SupportSentence <==> status == "disabled"
    ensures line == ActiveSentence <==> status != "disabled"
  {
    assert |SupportSentence| != |ActiveSentence|;
    if status == "disabled" then SupportSentence else ActiveSentence
  }

  function GreetingLine(userName: string): string {
    "Dear " + userName + ","
  }

  function AmountLine(data: TemplateData): string {
    "- Amount: \U{20A6}" + data.amount
  }

  function DateLine(data: TemplateData): string {
    "- Transaction Date: " + data.transactionDate
  }

  function ReferenceLine(data: TemplateData): string {
    "- Reference: " + data.reference
  }

  /** The fixed sentences of the template bodies. */
  const ReceivedIntro := "We have received your payment receipt for booking #"
  const VerifyShortly := "Our team will verify your payment shortly."
  const DetailsHeading := "Payment Details:"
  const NotifyWhenVerified := "We will notify you once the verification is complete."
  const ThanksForBusiness := "Thank you for your business."
  const ApprovedIntro := "Your payment for booking #"
  const ApprovedIntroEnd := " has been verified and approved."
  const BookingConfirmed := "Your booking is now confirmed. Thank you for choosing our service."
  const RejectedIntro := "Unfortunately, we could not verify your payment for booking #"
  const ResubmitAdvice := "Please submit a new payment receipt or contact our support team for assistance."
  const ResetInitiated := "A password reset has been initiated for your account."
  const ResetInstruction := "Please use the following link to reset your password:"
  const ResetExpiry := "This link will expire in 1 hour."
  const ResetIgnore := "If you did not request this password reset, please ignore this email."
  const StatusUpdated := "Your account status has been updated to: "
  const StatusQuestions := "For any questions, please contact our support team."

  function ReceivedBody(data: TemplateData): (lines: seq<string>)
    ensures |lines| == 13 && lines[0] == GreetingLine(data.userName)
    ensures lines[8] == ReferenceLine(data)
  {
    [ GreetingLine(data.userName),
      "",
      ReceivedIntro + data.bookingId + ". ",
      VerifyShortly,
      "",
      DetailsHeading,
      AmountLine(data),
      DateLine(data),
      ReferenceLine(data),
      "",
      NotifyWhenVerified,
      "",
      ThanksForBusiness ]
  }

  function ApprovedBody(data: TemplateData): (lines: seq<string>)
    ensures |lines| == 10 && lines[0] == GreetingLine(data.userName)
    ensures lines[7] == ReferenceLine(data)
  {
    [ GreetingLine(data.userName),
      "",
      ApprovedIntro + data.bookingId + ApprovedIntroEnd,
      "",
      DetailsHeading,
      AmountLine(data),
      DateLine(data),
      ReferenceLine(data),
      "",
      BookingConfirmed ]
  }

  /** The rejection body quotes the rejection reason verbatim on its own line. */
  function RejectedBody(data: TemplateData): (lines: seq<string>)
    ensures |lines| == 12 && lines[0] == GreetingLine(data.userName)
    ensures lines[4] == "Reason: " + data.rejectionReason
    ensures lines[11] == ReferenceLine(data)
  {
    [ GreetingLine(data.userName),
      "",
      RejectedIntro + data.bookingId + ".",
      "",
      "Reason: " + data.rejectionReason,
      "",
      ResubmitAdvice,
      "",
      DetailsHeading,
      AmountLine(data),
      DateLine(data),
      ReferenceLine(data) ]
  }

  function ResetBody(data: TemplateData): (lines: seq<string>)
    ensures |lines| == 10 && lines[0] == GreetingLine(data.userName)
    ensures lines[5] == data.resetLink
  {
    [ GreetingLine(data.userName),
      "",
      ResetInitiated,
      ResetInstruction,
      "",
      data.resetLink,
      "",
      ResetExpiry,
      "",
      ResetIgnore ]
  }

  /** The account-status body: it names the new status, and its fifth line is
      the contact-support sentence exactly when the status is "disabled";
      every other status, "deleted" included, gets the "now active" sentence. */
  function StatusBody(data: TemplateData): (lines: seq<string>)
    ensures |lines| == 7 && lines[0] == GreetingLine(data.userName)
    ensures lines[2] == StatusUpdated + data.status
    ensures lines[4] == SupportSentence <==> data.status == "disabled"
    ensures lines[4] == ActiveSentence <==> data.status != "disabled"
  {
    [ GreetingLine(data.userName),
      "",
      StatusUpdated + data.status,
      "",
      StatusSentence(data.status),
      "",
      StatusQuestions ]
  }

  /** The body of template `t` rendered with `data`, line by line. */
  function Body(t: EmailTemplate, data: TemplateData): seq<string>
  {
    match t
    case PaymentReceived => ReceivedBody(data)
    case PaymentApproved => ApprovedBody(data)
    case PaymentRejected => RejectedBody(data)
    case PasswordReset => ResetBody(data)
    case AccountStatusChange => StatusBody(data)
  }

  /** The email handed to the edge function. */
  datatype Email = Email(to: string, subject: string, content: seq<string>)

  datatype SendStatus = Sent | Failed(error: string)

  /** One row of the email log. */
  datatype LogEntry = LogEntry(
    template: EmailTemplate,
    recipient: string,
    status: SendStatus,
    data: TemplateData)

  /** What `sendEmail` leaves behind: the email it handed over, the log after
      its insert, and whether it returned normally or rethrew. */
  datatype SendResult = SendResult(email: Email, log: seq<LogEntry>, outcome: Outcome)

  /** The outcomes of the two backend calls of one `sendEmail`: the
      edge-function call and the insert into the email log. */
  datatype Delivery = Delivery(send: Outcome, logInsert: Outcome)

  /** `after` is the log `before` with one entry for `template` to `to`
      appended, marked sent exactly when the send succeeded, when the log
      insert went through; when the insert was rejected, `after` is
      `before`. */
  predicate LoggedOnce(before: seq<LogEntry>, after: seq<LogEntry>, template: EmailTemplate,
                       to: string, delivery: Delivery)
  {
    if delivery.logInsert.Failure? then after == before
    else
      |after| == |before| + 1 && after[..|before|] == before
      && after[|before|].template == template && after[|before|].recipient == to
      && (after[|before|].status == Sent <==> delivery.send.Success?)
  }

  /** `sendEmail(template, to, data)` given the outcomes of the edge-function
      call and of the log insert. The log insert's error is not checked, so a
      rejected insert leaves the log as it was and the call still returns
      normally after a successful send, or rethrows the send's error. */
  function SendEmail(log: seq<LogEntry>, template: EmailTemplate, to: string,
                     data: TemplateData, delivery: Delivery): (r: SendResult)
    ensures r.email.to == to && r.email.subject == Subject(template)
    ensures r.email.content == Body(template, data)
    ensures |log| <= |r.log| <= |log| + 1 && r.log[..|log|] == log
    ensures LoggedOnce(log, r.log, template, to, delivery)
    ensures delivery.logInsert.Success? ==> r.log[|log|].data == data
    ensures delivery.logInsert.Success? && delivery.send.Failure? ==>
              r.log[|log|].status == Failed(delivery.send.error)
    ensures r.outcome == delivery.send
  {
    var email := Email(to, Subject(template), Body(template, data));
    var status := if delivery.send.Success? then Sent else Failed(delivery.send.error);
    var logged := if delivery.logInsert.Success? then log + [LogEntry(template, to, status, data)] else log;
    SendResult(email, logged, delivery.send)
  }

  /** Repeated sends only ever extend the log: earlier entries are never
      rewritten, each accepted log insert adds one entry, and each entry
      records its own send's status. */
  lemma {:induction false} LogIsAppendOnly(log: seq<LogEntry>, template: EmailTemplate, to: string,
                                           data: TemplateData, first: Delivery, second: Delivery)
    ensures var r1 := SendEmail(log, template, to, data, first);
            var r2 := SendEmail(r1.log, template, to, data, second);
            var n1 := if first.logInsert.Success? then 1 else 0;
            var n2 := if second.logInsert.Success? then 1 else 0;
            |r2.log| == |log| + n1 + n2 && r2.log[..|log|] == log
            && (n1 == 1 ==> (r2.log[|log|].status == Sent <==> first.send.Success?))
            && (n2 == 1 ==> (r2.log[|log| + n1].status == Sent <==> second.send.Success?))
  {
    var r1 := SendEmail(log, template, to, data, first);
    var r2 := SendEmail(r1.log, template, to, data, second);
    assert r1.log[..|log|] == log;
    assert r2.log[..|r1.log|] == r1.log;
    assert r2.log[..|log|] == r2.log[..|r1.log|][..|log|];
    if first.logInsert.Success? {
      assert r2.log[|log|] == r1.log[|log|];
    }
  }
}
