/** The repository's tests (test/modules/email-tests.js, test/apps/api-tests.js)
    replayed against the model's contracts. What the tests rely on from the
    foreign libraries (which addresses Joi accepts, what html-to-text makes of
    the test body, how the mocked provider answers) enters as preconditions
    and transport functions. */
module Scenarios {
  import opened Wrappers
  import opened Schema
  import opened Exceptions
  import opened Payloads
  import opened Mail
  import Base64

  /** The names used by the tests are accepted by `[a-zA-Z.\s]*`. */
  lemma TestNamesAccepted()
    ensures IsName("Mr. Fake") && IsName("Brightwheel")
  {
    var a: string := "Mr. Fake";
    assert forall i :: 0 <= i < |a| ==> IsNameChar(a[i]) by {
      assert a[0] == 'M' && a[1] == 'r' && a[2] == '.' && a[3] == ' ';
      assert a[4] == 'F' && a[5] == 'a' && a[6] == 'k' && a[7] == 'e';
    }
    var b: string := "Brightwheel";
    assert forall i :: 0 <= i < |b| ==> IsNameChar(b[i]) by {
      assert b[0] == 'B' && b[1] == 'r' && b[2] == 'i' && b[3] == 'g' && b[4] == 'h' && b[5] == 't';
      assert b[6] == 'w' && b[7] == 'h' && b[8] == 'e' && b[9] == 'e' && b[10] == 'l';
    }
  }

  /** email-tests.js:7-43: a clean e-mail validates with a null error; after
      `to` is set to "fake" and `from` to undefined, both are reported, the
      bad address first and the missing sender second. */
  method ValidationTest(joi: Joi, htmlToText: Option<string> -> string)
    returns (good: Option<ValidationError>, plain: string, bad: Option<ValidationError>)
    requires joi.isEmail("fake@example.com") && joi.isEmail("noreply@mybrightwheel.com") && !joi.isEmail("fake")
    requires htmlToText(Some("<h1>Your Bill</h1><p>$10</p>")) == "YOUR BILL\n$10"
    ensures good.None?
    ensures plain == "YOUR BILL\n$10"
    ensures bad.Some?
    ensures bad.value.details == [Violation(To, EmailRule, Some("fake")), Violation(From, Required, None)]
  {
    var email := new Email(Some("fake@example.com"), Some("Mr. Fake"), Some("noreply@mybrightwheel.com"),
                           Some("Brightwheel"), Some("A Message from Brightwheel"),
                           Some("<h1>Your Bill</h1><p>$10</p>"), htmlToText);
    ghost var clean := email.Fields();
    CleanTestEmail(joi.isEmail);
    good := email.Validate(joi);
    plain := email.plainTextBody;
    email.to := Some("fake");
    email.from := None;
    ghost var broken := email.Fields();
    assert broken == clean.(to := Some("fake"), from := None);
    BrokenTestEmail(joi);
    bad := email.Validate(joi);
  }

  /** The test's e-mail after `to = 'fake'` and `from = undefined`. */
  lemma BrokenTestEmail(joi: Joi)
    requires !joi.isEmail("fake")
    ensures var r := Schema.Validate(EmailFields(Some("fake"), Some("Mr. Fake"), None, Some("Brightwheel"),
                                                 Some("A Message from Brightwheel"),
                                                 Some("<h1>Your Bill</h1><p>$10</p>")), joi);
      r.Some? && r.value.details == [Violation(To, EmailRule, Some("fake")), Violation(From, Required, None)]
  {
    TestNamesAccepted();
    BadToMissingFrom(EmailFields(Some("fake"), Some("Mr. Fake"), None, Some("Brightwheel"),
                                 Some("A Message from Brightwheel"), Some("<h1>Your Bill</h1><p>$10</p>")),
                     joi.isEmail);
  }

  /** The e-mail the validation test starts from is valid. */
  lemma CleanTestEmail(isEmail: string -> bool)
    requires isEmail("fake@example.com") && isEmail("noreply@mybrightwheel.com")
    ensures Valid(EmailFields(Some("fake@example.com"), Some("Mr. Fake"), Some("noreply@mybrightwheel.com"),
                              Some("Brightwheel"), Some("A Message from Brightwheel"),
                              Some("<h1>Your Bill</h1><p>$10</p>")), isEmail)
  {
    TestNamesAccepted();
  }

  /** The situation of email-tests.js:23-40 in general: an address the
      grammar rejects in `to` and nothing in `from`, every other key valid. */
  lemma BadToMissingFrom(e: EmailFields, isEmail: string -> bool)
    requires e.to.Some? && e.to.value != "" && !isEmail(e.to.value) && e.from.None?
    requires e.toName.Some? && e.toName.value != "" && IsName(e.toName.value)
    requires e.fromName.Some? && e.fromName.value != "" && IsName(e.fromName.value)
    requires e.subject.Some? && e.subject.value != "" && e.body.Some? && e.body.value != ""
    ensures Violations(e, isEmail) == [Violation(To, EmailRule, e.to), Violation(From, Required, None)]
  {
    ViolationsUnfold(e, isEmail);
    KeysOfBadToMissingFrom(e, isEmail);
    assert [Violation(To, EmailRule, e.to)] + ([] + ([Violation(From, Required, None)] + ([] + ([] + []))))
        == [Violation(To, EmailRule, e.to), Violation(From, Required, None)];
  }

  /** Each key's own entries in that situation. */
  lemma KeysOfBadToMissingFrom(e: EmailFields, isEmail: string -> bool)
    requires e.to.Some? && e.to.value != "" && !isEmail(e.to.value) && e.from.None?
    requires e.toName.Some? && e.toName.value != "" && IsName(e.toName.value)
    requires e.fromName.Some? && e.fromName.value != "" && IsName(e.fromName.value)
    requires e.subject.Some? && e.subject.value != "" && e.body.Some? && e.body.value != ""
    ensures Check(To, e.to, isEmail) == [Violation(To, EmailRule, e.to)]
    ensures Check(ToName, e.toName, isEmail) == [] && Check(FromName, e.fromName, isEmail) == []
    ensures Check(From, e.from, isEmail) == [Violation(From, Required, None)]
    ensures Check(Subject, e.subject, isEmail) == [] && Check(Body, e.body, isEmail) == []
  {
    PassingKey(ToName, e.toName, isEmail);
    PassingKey(FromName, e.fromName, isEmail);
    PassingKey(Subject, e.subject, isEmail);
    PassingKey(Body, e.body, isEmail);
    RuleOnly(To, e.to, isEmail);
  }

  /** A key that passes has no entry. */
  lemma PassingKey(f: Field, value: Option<string>, isEmail: string -> bool)
    requires value.Some? && value.value != "" && RuleHolds(f, value.value, isEmail)
    ensures Check(f, value, isEmail) == []
  {
  }

  /** A present, non-empty value that breaks its key's rule is reported once,
      under that rule. */
  lemma RuleOnly(f: Field, value: Option<string>, isEmail: string -> bool)
    requires value.Some? && value.value != "" && f.Rule() != NoRule && !RuleHolds(f, value.value, isEmail)
    ensures Check(f, value, isEmail) == [Violation(f, f.Rule().Reported(), value)]
  {
  }

  /** email-tests.js:46-77 and 79-110: a 201 completes silently; when the
      request is rejected (the tests' mock replies with an error object, which
      the request library hands on wrapped in its own error), the adapter
      throws an `EmailSendException` tagged with its provider and carrying
      that rejection `err` and its message, whatever they are. */
  method SendingTest(config: Config, htmlToText: Option<string> -> string, err: TransportError)
    returns (mailgunOk: Outcome<EmailSendException>, mailgunBad: Outcome<EmailSendException>,
             mandrillOk: Outcome<EmailSendException>, mandrillBad: Outcome<EmailSendException>)
    ensures mailgunOk == Pass && mandrillOk == Pass
    ensures mailgunBad.Fail? && mailgunBad.error.name == "EmailSendException"
    ensures mailgunBad.error.emailSenderBackend == "Mailgun" && mailgunBad.error.details == err
    ensures mandrillBad.Fail? && mandrillBad.error.name == "EmailSendException"
    ensures mandrillBad.error.emailSenderBackend == "Mandrill" && mandrillBad.error.details == err
    ensures mailgunBad.error.message == err.message && mandrillBad.error.message == err.message
  {
    var email := new Email(Some("example@example.com"), Some("John Doe"), Some("fake@domain.mailgun.org"),
                           Some("Mailgun Fake"), Some("A Message from yours truly"),
                           Some("<h1>Wowza!</h1><p>I love testing.</p>"), htmlToText);
    var client := new EmailSender(email, config);
    mailgunOk := client.SendMailViaMailgun(_ => Pass);
    mailgunBad := client.SendMailViaMailgun(_ => Fail(err));
    mandrillOk := client.SendMailViaMandrill(_ => Pass);
    mandrillBad := client.SendMailViaMandrill(_ => Fail(err));
  }

  /** api-tests.js:19-35: a request with a bad address and no `toName`
      fails with an error named "EmailValidationException", and no provider
      is called, whichever the network would have answered. The missing
      `toName` is enough on its own, so nothing is assumed about how the
      e-mail grammar judges "bademail". */
  method ApiValidationTest(config: Config, joi: Joi, htmlToText: Option<string> -> string,
                           transport: ProviderRequest -> Outcome<TransportError>)
    returns (r: SendResult, ghost requests: seq<ProviderRequest>)
    ensures r.ValidationFailed? && r.validationError.name == "EmailValidationException"
    ensures requests == []
  {
    var email := new Email(Some("bademail"), None, Some("fake@fake.com"), Some("fakeeee"),
                           Some("fake"), Some("fake"), htmlToText);
    var client := new EmailSender(email, config);
    r := client.SendMail(joi, transport);
    requests := client.calls;
  }

  /** The selector is compared case-sensitively: "Mailgun" selects Mandrill. */
  lemma SelectorIsExact(e: EmailFields, plainTextBody: string, key: string, domain: string, mkey: string)
    ensures SelectRequest(Config(key, domain, mkey, "Mailgun"), e, plainTextBody).MandrillCall?
    ensures SelectRequest(Config(key, domain, mkey, "mailgun"), e, plainTextBody).MailgunCall?
  {
  }

  /** Two test vectors of section 10 of RFC 4648. */
  lemma Base64Vectors()
    ensures Base64.Encode([0x66, 0x6F, 0x6F]) == "Zm9v"
    ensures Base64.Encode([0x66, 0x6F, 0x6F, 0x62]) == "Zm9vYg=="
  {
  }
}
