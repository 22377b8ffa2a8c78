/** The request options the two provider adapters of lib/modules/email.js
    build (`sendMailViaMailgun`, lines 58-73, and `sendMailViaMandrill`, lines
    82-103). Both are POST requests; Mailgun's is form-encoded, Mandrill's is
    a JSON body. */
module Payloads {
  import opened Wrappers
  import opened Bytes
  import Base64
  import Utf8
  import opened Schema

  /** The process-wide settings read from lib/constants.js. */
  datatype Config = Config(
    mailgunApiKey: string, mailgunDomain: string, mandrillApiKey: string, primaryEmailBackend: string)

  /** How a template literal renders a property: "undefined" when it is absent. */
  function Interpolate(v: Option<string>): (r: string)
    ensures v.Some? ==> r == v.value
    ensures v.None? ==> r == "undefined"
  {
    match v
    case None => "undefined"
    case Some(s) => s
  }

  /** The `Name <address>` form of a mailbox. */
  function FormatMailbox(name: string, address: string): (r: string)
  {
    name + " <" + address + ">"
  }

  /** The first position of `c` in `s`. */
  function IndexOf(s: string, c: char): (r: Option<nat>)
    ensures r.Some? ==> r.value < |s| && s[r.value] == c && c !in s[..r.value]
    ensures r.None? ==> c !in s
  {
    if s == [] then None
    else if s[0] == c then Some(0)
    else match IndexOf(s[1..], c)
      case None => None
      case Some(i) => assert s[..i + 1] == [s[0]] + s[1..][..i]; Some(i + 1)
  }

  /** Reads a mailbox back: the name ends at the first " <", the address
      runs from there to a closing ">" at the end. */
  function ParseMailbox(s: string): (r: Option<(string, string)>)
  {
    match IndexOf(s, '<')
    case None => None
    case Some(i) =>
      if 1 <= i && s[i - 1] == ' ' && s[|s| - 1] == '>' && i < |s| - 1
      then Some((s[..i - 1], s[i + 1..|s| - 1]))
      else None
  }

  /** A mailbox whose name has no '<' reads back as the name and address it
      was formatted from. */
  lemma ParseFormat(name: string, address: string)
    requires '<' !in name
    ensures ParseMailbox(FormatMailbox(name, address)) == Some((name, address))
  {
    var s := FormatMailbox(name, address);
    var n := |name|;
    assert s[..n + 1] == name + " ";
    assert '<' !in s[..n + 1];
    assert s[n + 1] == '<';
    assert IndexOf(s, '<') == Some(n + 1);
    assert s[..n] == name;
    assert s[n + 2..|s| - 1] == address;
  }

  /** A name accepted by the schema contains no '<'. */
  lemma NameHasNoAngle(s: string)
    requires IsName(s)
    ensures '<' !in s
  {
  }

  /** The value of the Authorization header: "Basic " and the base64 form of
      the key's UTF-8 bytes. */
  function BasicAuthorization(apiKey: string): (r: string)
    ensures |r| >= 6 && r[..6] == "Basic "
    ensures Base64.Decode(r[6..]) == Some(Utf8.Encode(apiKey))
    ensures Utf8.Decode(Base64.Decode(r[6..]).value) == Some(apiKey)
  {
    var encoded := Base64.Encode(Utf8.Encode(apiKey));
    Base64.DecodeEncode(Utf8.Encode(apiKey));
    Utf8.DecodeEncode(apiKey);
    assert ("Basic " + encoded)[6..] == encoded;
    "Basic " + encoded
  }

  function MailgunUri(domain: string): (r: string) {
    "https://api.mailgun.net/v3/" + domain + "/messages"
  }

  const MandrillUri: string := "https://mandrillapp.com/api/1.0/messages/send.json"

  /** The form fields of a Mailgun message; `subject` is `None` when the
      property is undefined. */
  datatype MailgunForm = MailgunForm(from: string, to: string, subject: Option<string>, text: string)

  datatype MailgunRequest = MailgunRequest(uri: string, form: MailgunForm, authorization: string)

  /** One entry of Mandrill's `to` list; `recipientType` is the JSON key `type`. */
  datatype MandrillRecipient = MandrillRecipient(email: Option<string>, name: Option<string>, recipientType: string)

  /** The `message` object of a Mandrill request; absent properties are `None`. */
  datatype MandrillMessage = MandrillMessage(
    fromEmail: Option<string>, fromName: Option<string>, to: seq<MandrillRecipient>,
    subject: Option<string>, text: string)

  datatype MandrillRequest = MandrillRequest(uri: string, key: string, message: MandrillMessage)

  /** A request to one of the two providers. */
  datatype ProviderRequest = MailgunCall(mailgun: MailgunRequest) | MandrillCall(mandrill: MandrillRequest) {
    /** The provider name an `EmailSendException` is tagged with. */
    function Backend(): (name: string) {
      if MailgunCall? then "Mailgun" else "Mandrill"
    }
  }

  /** The options `sendMailViaMailgun` posts (email.js:59-73). */
  function MailgunPost(config: Config, e: EmailFields, plainTextBody: string): (r: MailgunRequest)
  {
    MailgunRequest(
      MailgunUri(config.mailgunDomain),
      MailgunForm(
        FormatMailbox(Interpolate(e.fromName), Interpolate(e.from)),
        FormatMailbox(Interpolate(e.toName), Interpolate(e.to)),
        e.subject,
        plainTextBody),
      BasicAuthorization(config.mailgunApiKey))
  }

  /** The options `sendMailViaMandrill` posts (email.js:83-103). */
  function MandrillPost(config: Config, e: EmailFields, plainTextBody: string): (r: MandrillRequest)
  {
    MandrillRequest(
      MandrillUri,
      config.mandrillApiKey,
      MandrillMessage(e.from, e.fromName, [MandrillRecipient(e.to, e.toName, "to")], e.subject, plainTextBody))
  }

  /** For an e-mail that passed validation, the Mailgun form carries exactly
      the sender's and the recipient's name and address (each can be read back
      from its `Name <address>` field), the subject, and the plain-text body as
      `text`; the Authorization header decodes to the configured key. */
  lemma MailgunCarriesEmail(config: Config, e: EmailFields, plainTextBody: string, isEmail: string -> bool)
    requires Valid(e, isEmail)
    ensures var r := MailgunPost(config, e, plainTextBody);
      && ParseMailbox(r.form.from) == Some((e.fromName.value, e.from.value))
      && ParseMailbox(r.form.to) == Some((e.toName.value, e.to.value))
      && r.form.subject == e.subject && r.form.text == plainTextBody
      && r.uri == MailgunUri(config.mailgunDomain)
      && r.authorization[..6] == "Basic "
      && Base64.Decode(r.authorization[6..]).Some?
      && Utf8.Decode(Base64.Decode(r.authorization[6..]).value) == Some(config.mailgunApiKey)
  {
    NameHasNoAngle(e.fromName.value);
    NameHasNoAngle(e.toName.value);
    ParseFormat(e.fromName.value, e.from.value);
    ParseFormat(e.toName.value, e.to.value);
  }

  /** The Mandrill message has exactly one recipient, of type "to", holding
      the recipient's address and name; sender, subject and plain-text body
      are passed through, and the key travels in the body. */
  lemma MandrillCarriesEmail(config: Config, e: EmailFields, plainTextBody: string)
    ensures var r := MandrillPost(config, e, plainTextBody);
      && |r.message.to| == 1
      && r.message.to[0] == MandrillRecipient(e.to, e.toName, "to")
      && r.message.fromEmail == e.from && r.message.fromName == e.fromName
      && r.message.subject == e.subject && r.message.text == plainTextBody
      && r.key == config.mandrillApiKey && r.uri == MandrillUri
  {
  }
}
