/**
 * The decision of `POST /api/appointments/confirm`: validate the identifier,
 * look the appointment up, require a recipient address, build the e-mail
 * payload, hand it to the mail service once, and report the delivery outcome
 * as a field of a 200 answer.
 *
 * The mail call is a foreign network call; only its outcome is modelled, as
 * the parameter `mailAccepted` (the POST returned a success status).
 */
module Confirmation {
  import opened Wrappers
  import opened ObjectIds
  import opened Appointments

  const InvalidIdError: string := "Invalid appointment ID format"
  const NotFoundError: string := "Appointment not found"
  const MissingEmailError: string := "Customer email not found in appointment"
  const ConfirmMessage: string := "Confirmation sent to notification service"
  const ConfirmSubject: string := "Your appointment is confirmed!"
  const BodyPrefix: string := "Your appointment (ID: "
  const BodySuffix: string := ") has been confirmed."
  const StatusSent: string := "sent"
  const StatusFailed: string := "failed"

  /** The JSON value of "appointment_id" in the request body. */
  datatype IdArg =
    | Absent              // missing or null
    | Text(text: string)  // a string
    | NotText             // a number, boolean, list or object

  datatype EmailPayload = EmailPayload(recipients: seq<string>, subjectLine: string, body: string, isHtml: bool)

  datatype ConfirmResponse =
    | InvalidId(error: string)
    | NotFound(error: string)
    | NoRecipient(error: string)
    | Accepted(message: string, appointmentId: string, notificationStatus: string)
  {
    /** The HTTP status code the handler answers with. */
    function Code(): nat {
      match this
      case InvalidId(_) => 400
      case NotFound(_) => 404
      case NoRecipient(_) => 400
      case Accepted(_, _, _) => 200
    }
  }

  /** The answer, and the payload handed to the mail service (None: no mail call was made). */
  datatype ConfirmOutcome = ConfirmOutcome(response: ConfirmResponse, mailed: Option<EmailPayload>)

  /** Python truthiness of the stored `customer_email`: present and non-empty. */
  predicate HasRecipient(email: Field) {
    email.Some? && email.value != ""
  }

  /** The appointment identifier embedded in a confirmation body, if the body has that shape. */
  function BodyId(body: string): Option<string> {
    if |body| >= |BodyPrefix| + |BodySuffix| &&
       body[..|BodyPrefix|] == BodyPrefix && body[|body| - |BodySuffix|..] == BodySuffix
    then Some(body[|BodyPrefix|..|body| - |BodySuffix|])
    else None
  }

  /** The confirmation e-mail for the identifier text `appointmentId` sent to `email`. */
  function ConfirmationEmail(appointmentId: string, email: string): (p: EmailPayload)
    ensures p.recipients == [email]
    ensures p.subjectLine == ConfirmSubject
    ensures !p.isHtml
    ensures BodyId(p.body) == Some(appointmentId)
  {
    var body := BodyPrefix + appointmentId + BodySuffix;
    assert body[..|BodyPrefix|] == BodyPrefix;
    assert body[|body| - |BodySuffix|..] == BodySuffix;
    assert body[|BodyPrefix|..|body| - |BodySuffix|] == appointmentId;
    EmailPayload([email], ConfirmSubject, body, false)
  }

  /**
   * The confirmation decision over a snapshot of the collection. It reads the
   * collection and changes nothing.
   */
  function ConfirmDecision(records: seq<Appointment>, arg: IdArg, mailAccepted: bool): (r: ConfirmOutcome)
    // a mail call is made exactly on the 200 path
    ensures r.mailed.Some? <==> r.response.Code() == 200
    ensures r.response.Code() == 200 <==> r.response.Accepted?
    // 400 for an identifier ObjectId rejects
    ensures r.response.InvalidId? <==> arg.NotText? || (arg.Text? && !WellFormedId(arg.text))
    ensures r.response.InvalidId? ==> r.response.error == InvalidIdError
    // 404 when no record carries the identifier; an absent identifier becomes a brand-new ObjectId
    ensures r.response.NotFound? <==>
      arg.Absent? ||
      (arg.Text? && WellFormedId(arg.text) && forall a :: a in records ==> Some(a.id) != ParseId(arg.text))
    ensures r.response.NotFound? ==> r.response.error == NotFoundError
    // 400 when the record found has no recipient address
    ensures r.response.NoRecipient? ==>
      r.response.error == MissingEmailError &&
      arg.Text? && exists a :: a in records && Some(a.id) == ParseId(arg.text) && !HasRecipient(a.customerEmail)
    // 200 otherwise, whatever the mail service did
    ensures r.response.Accepted? ==>
      arg.Text? &&
      r.response.message == ConfirmMessage &&
      r.response.appointmentId == arg.text &&
      (r.response.notificationStatus == if mailAccepted then StatusSent else StatusFailed) &&
      exists a :: a in records && Some(a.id) == ParseId(arg.text) && HasRecipient(a.customerEmail) &&
                  r.mailed == Some(ConfirmationEmail(arg.text, a.customerEmail.value))
  {
    match arg
    case NotText => ConfirmOutcome(InvalidId(InvalidIdError), None)
    case Absent => ConfirmOutcome(NotFound(NotFoundError), None)
    case Text(s) =>
      match ParseId(s)
      case None => ConfirmOutcome(InvalidId(InvalidIdError), None)
      case Some(id) =>
        match FindById(records, id)
        case None => ConfirmOutcome(NotFound(NotFoundError), None)
        case Some(a) =>
          if !HasRecipient(a.customerEmail) then ConfirmOutcome(NoRecipient(MissingEmailError), None)
          else
            var status := if mailAccepted then StatusSent else StatusFailed;
            ConfirmOutcome(Accepted(ConfirmMessage, s, status),
                           Some(ConfirmationEmail(s, a.customerEmail.value)))
  }

  /**
   * A stored appointment with an address, named by any text that parses to its
   * identifier, is always confirmed with 200; the status is "sent" exactly when
   * the mail service accepted the payload.
   */
  lemma ConfirmFoundAppointment(records: seq<Appointment>, a: Appointment, s: string, mailAccepted: bool)
    requires DistinctIds(records)
    requires a in records
    requires ParseId(s) == Some(a.id)
    requires HasRecipient(a.customerEmail)
    ensures var r := ConfirmDecision(records, Text(s), mailAccepted);
            r.response == Accepted(ConfirmMessage, s, if mailAccepted then StatusSent else StatusFailed) &&
            r.mailed == Some(ConfirmationEmail(s, a.customerEmail.value))
  {
  }

  /** A stored appointment without an address is refused with 400 before any mail call. */
  lemma ConfirmWithoutRecipient(records: seq<Appointment>, a: Appointment, s: string, mailAccepted: bool)
    requires DistinctIds(records)
    requires a in records
    requires ParseId(s) == Some(a.id)
    requires !HasRecipient(a.customerEmail)
    ensures ConfirmDecision(records, Text(s), mailAccepted) == ConfirmOutcome(NoRecipient(MissingEmailError), None)
  {
  }

  /**
   * The mail outcome changes nothing but the notification status: the status
   * code, the payload sent and every other field are the same either way.
   */
  lemma MailOutcomeOnlySetsStatus(records: seq<Appointment>, arg: IdArg)
    ensures var sent := ConfirmDecision(records, arg, true);
            var failed := ConfirmDecision(records, arg, false);
            sent.response.Code() == failed.response.Code() &&
            sent.mailed == failed.mailed &&
            (sent.response.Accepted? ==>
               sent.response.notificationStatus == StatusSent &&
               failed.response == sent.response.(notificationStatus := StatusFailed)) &&
            (!sent.response.Accepted? ==> sent.response == failed.response)
  {
  }
}
