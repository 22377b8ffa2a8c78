/** The two classes of lib/modules/email.js. `Email` holds the six values of
    a request and its plain-text body; `EmailSender` holds an `Email` and the
    provider settings, and sends the e-mail through exactly one provider. The
    network is a `transport` function from a request to its outcome, and a
    ghost log records every request handed to it. */
module Mail {
  import opened Wrappers
  import opened Schema
  import opened Exceptions
  import opened Payloads

  /** The outcome of `sendMail`: it completes, or it throws one of the two
      exceptions. */
  datatype SendResult =
    | Sent
    | ValidationFailed(validationError: EmailValidationException)
    | SendFailed(sendError: EmailSendException)

  /** What a send does: its outcome and the provider requests it made, in order. */
  datatype Dispatch = Dispatch(result: SendResult, calls: seq<ProviderRequest>)

  /** `await request(options)` inside an adapter's try/catch: a rejection
      becomes an `EmailSendException` tagged with the provider's name. */
  function Deliver(req: ProviderRequest, transport: ProviderRequest -> Outcome<TransportError>): (r: Outcome<EmailSendException>)
    ensures r.Pass? <==> transport(req).Pass?
    ensures r.Fail? ==> r.error.details == transport(req).error && r.error.emailSenderBackend == req.Backend()
    ensures r.Fail? ==> r.error.name == "EmailSendException"
  {
    match transport(req)
    case Pass => Pass
    case Fail(error) => Fail(NewEmailSendException(error, req.Backend()))
  }

  /** The provider request `sendMail` makes: Mailgun's when the selector is
      exactly the string "mailgun", Mandrill's for every other value. */
  function SelectRequest(config: Config, e: EmailFields, plainTextBody: string): (r: ProviderRequest)
    ensures r.MailgunCall? <==> config.primaryEmailBackend == "mailgun"
    ensures r.MailgunCall? ==> r.mailgun == MailgunPost(config, e, plainTextBody)
    ensures r.MandrillCall? ==> r.mandrill == MandrillPost(config, e, plainTextBody)
  {
    if config.primaryEmailBackend == "mailgun" then MailgunCall(MailgunPost(config, e, plainTextBody))
    else MandrillCall(MandrillPost(config, e, plainTextBody))
  }

  /** What `sendMail` does with a given e-mail, settings and network: it
      validates first, and an invalid e-mail reaches no provider; a valid one
      is handed to exactly one provider, the selected one, whose failure is
      reported without trying the other. */
  function SendMailSpec(e: EmailFields, plainTextBody: string, config: Config, joi: Joi,
                        transport: ProviderRequest -> Outcome<TransportError>): (d: Dispatch)
    ensures !Valid(e, joi.isEmail) ==> d.calls == []
    ensures !Valid(e, joi.isEmail) ==>
      d.result == ValidationFailed(NewEmailValidationException(Validate(e, joi).value))
    ensures Valid(e, joi.isEmail) ==> d.calls == [SelectRequest(config, e, plainTextBody)]
    ensures d.result.Sent? <==> Valid(e, joi.isEmail) && transport(d.calls[0]).Pass?
    ensures d.result.SendFailed? ==>
      && |d.calls| == 1
      && d.result.sendError.details == transport(d.calls[0]).error
      && d.result.sendError.emailSenderBackend == d.calls[0].Backend()
      && (d.result.sendError.emailSenderBackend == "Mailgun" <==> config.primaryEmailBackend == "mailgun")
    ensures d.result.ValidationFailed? <==> !Valid(e, joi.isEmail)
  {
    match Validate(e, joi)
    case Some(error) => Dispatch(ValidationFailed(NewEmailValidationException(error)), [])
    case None =>
      var req := SelectRequest(config, e, plainTextBody);
      match Deliver(req, transport)
      case Pass => Dispatch(Sent, [req])
      case Fail(error) => Dispatch(SendFailed(error), [req])
  }

  /** The requests a send makes do not depend on what the providers answer:
      there is no retry and no fallback to the other provider. */
  lemma NoFallback(e: EmailFields, plainTextBody: string, config: Config, joi: Joi,
                   t1: ProviderRequest -> Outcome<TransportError>, t2: ProviderRequest -> Outcome<TransportError>)
    ensures SendMailSpec(e, plainTextBody, config, joi, t1).calls == SendMailSpec(e, plainTextBody, config, joi, t2).calls
    ensures |SendMailSpec(e, plainTextBody, config, joi, t1).calls| <= 1
  {
  }

  /** An `Email` (email.js:13-47). The tests assign its fields after
      construction, so they are mutable; `plainTextBody` is computed once, in
      the constructor, and is not recomputed when `body` changes. */
  class Email {
    var to: Option<string>
    var toName: Option<string>
    var from: Option<string>
    var fromName: Option<string>
    var subject: Option<string>
    var body: Option<string>
    var plainTextBody: string

    /** `htmlToText` is the html-to-text library's `fromString`. */
    constructor (to: Option<string>, toName: Option<string>, from: Option<string>,
                 fromName: Option<string>, subject: Option<string>, body: Option<string>,
                 htmlToText: Option<string> -> string)
      ensures this.to == to && this.toName == toName && this.from == from
      ensures this.fromName == fromName && this.subject == subject && this.body == body
      ensures plainTextBody == htmlToText(body)
    {
      this.to := to;
      this.toName := toName;
      this.from := from;
      this.fromName := fromName;
      this.subject := subject;
      this.body := body;
      this.plainTextBody := htmlToText(body);
    }

    /** The object `validate` hands to Joi: the six current field values. */
    function Fields(): (e: EmailFields)
      reads this
    {
      EmailFields(to, toName, from, fromName, subject, body)
    }

    /** `validate()`: the Joi error for the current fields, `None` for null. */
    function Validate(joi: Joi): (r: Option<ValidationError>)
      reads this
      ensures r.None? <==> Valid(Fields(), joi.isEmail)
      ensures r.Some? ==> r.value.details == Violations(Fields(), joi.isEmail)
    {
      Schema.Validate(Fields(), joi)
    }

    /** `validateOrThrow()`: throws exactly when `validate` reports an error,
        and then throws that error wrapped as an `EmailValidationException`. */
    method ValidateOrThrow(joi: Joi) returns (r: Outcome<EmailValidationException>)
      ensures r.Fail? <==> !Valid(Fields(), joi.isEmail)
      ensures r.Fail? ==> r.error == NewEmailValidationException(Validate(joi).value)
    {
      var result := Validate(joi);
      if result.Some? {
        r := Fail(NewEmailValidationException(result.value));
      } else {
        r := Pass;
      }
    }
  }

  /** An `EmailSender` (email.js:49-120). */
  class EmailSender {
    var email: Email
    var mailgunApiKey: string
    var mailgunDomain: string
    var mandrillApiKey: string
    var primaryEmailBackend: string
    /** Every request handed to the network so far, oldest first. */
    ghost var calls: seq<ProviderRequest>

    /** The settings come from lib/constants.js; here they are a parameter. */
    constructor (email: Email, config: Config)
      ensures this.email == email && Settings() == config && calls == []
    {
      this.email := email;
      this.mailgunApiKey := config.mailgunApiKey;
      this.mailgunDomain := config.mailgunDomain;
      this.mandrillApiKey := config.mandrillApiKey;
      this.primaryEmailBackend := config.primaryEmailBackend;
      this.calls := [];
    }

    function Settings(): (c: Config)
      reads this
    {
      Config(mailgunApiKey, mailgunDomain, mandrillApiKey, primaryEmailBackend)
    }

    /** `sendMailViaMailgun()`: one Mailgun request built from the current
        fields, whose failure is thrown as an `EmailSendException` tagged
        "Mailgun". No validation happens here. */
    method SendMailViaMailgun(transport: ProviderRequest -> Outcome<TransportError>)
      returns (r: Outcome<EmailSendException>)
      modifies this`calls
      ensures calls == old(calls) + [MailgunCall(MailgunPost(Settings(), email.Fields(), email.plainTextBody))]
      ensures r == Deliver(MailgunCall(MailgunPost(Settings(), email.Fields(), email.plainTextBody)), transport)
    {
      var req := MailgunCall(MailgunPost(Settings(), email.Fields(), email.plainTextBody));
      calls := calls + [req];
      var outcome := transport(req);
      match outcome
      case Pass => r := Pass;
      case Fail(error) => r := Fail(NewEmailSendException(error, "Mailgun"));
    }

    /** `sendMailViaMandrill()`: the same with one Mandrill request, tagged
        "Mandrill". */
    method SendMailViaMandrill(transport: ProviderRequest -> Outcome<TransportError>)
      returns (r: Outcome<EmailSendException>)
      modifies this`calls
      ensures calls == old(calls) + [MandrillCall(MandrillPost(Settings(), email.Fields(), email.plainTextBody))]
      ensures r == Deliver(MandrillCall(MandrillPost(Settings(), email.Fields(), email.plainTextBody)), transport)
    {
      var req := MandrillCall(MandrillPost(Settings(), email.Fields(), email.plainTextBody));
      calls := calls + [req];
      var outcome := transport(req);
      match outcome
      case Pass => r := Pass;
      case Fail(error) => r := Fail(NewEmailSendException(error, "Mandrill"));
    }

    /** `sendMail()`: validate, then send through the selected provider only. */
    method SendMail(joi: Joi, transport: ProviderRequest -> Outcome<TransportError>) returns (r: SendResult)
      modifies this`calls
      ensures var d := SendMailSpec(email.Fields(), email.plainTextBody, Settings(), joi, transport);
        r == d.result && calls == old(calls) + d.calls
    {
      var checked := email.ValidateOrThrow(joi);
      if checked.Fail? {
        r := ValidationFailed(checked.error);
        return;
      }
      var outcome;
      if primaryEmailBackend == "mailgun" {
        outcome := SendMailViaMailgun(transport);
      } else {
        outcome := SendMailViaMandrill(transport);
      }
      r := if outcome.Pass? then Sent else SendFailed(outcome.error);
    }
  }
}
