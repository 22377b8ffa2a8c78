# Verified model of the e-mail relay's validation and dispatch core

The system is a small HTTP relay. It accepts a request to send one e-mail
(`to`, `toName`, `from`, `fromName`, `subject`, `body`), validates it, and
forwards it to exactly one of two transactional-mail providers, Mailgun or
Mandrill. A static setting picks the provider. This project models the core
in `lib/modules/email.js` and `lib/modules/exceptions.js` in Dafny and
proves what that code promises:

- **Validation.** The Joi schema becomes an explicit check per key.
  `Schema.Validate` collects every failing key, in schema order, and never
  stops at the first (`abortEarly: false`). Each entry carries the key, the
  rule that failed (`any.required`, `any.empty`, `string.email`, the name
  regex) and the value. Every key is a `Joi.string()`, so a present empty
  string fails as `any.empty`. Since `abortEarly: false` also lets the key's
  own rule run on it, an empty address is reported twice: `any.empty`, then
  `string.email` when the grammar rejects the empty string. An undefined key
  is reported once, as `any.required`. The name rule `^[a-zA-Z.\s]*$` is
  written out character by character, with `\s` as ECMAScript defines it. Joi's e-mail grammar and
  the text of its messages are foreign, so they enter as the two functions
  of a `Joi` value.
- **Dispatch.** `Email` and `EmailSender` are classes, because the tests
  assign an `Email`'s fields after construction. `EmailSender.SendMail`
  validates first. It then hands exactly one request to the network: to
  Mailgun when the selector is exactly `"mailgun"`, to Mandrill otherwise.
  There is no retry and no fallback. The network is a `transport` function
  from a request to its outcome, so it is a parameter. A ghost field
  `calls` logs every request handed to it. The pure function
  `Mail.SendMailSpec` states what a send does (its outcome and the requests
  it makes), and `SendMail` is proved to follow it.
- **Payloads.** Both adapters' request options are pure record builders:
  the `Name <address>` form fields, the one-recipient Mandrill list with
  `type: "to"`, `text` set to the plain-text body, and the
  `Authorization: Basic <base64>` header. Node's `Buffer.from(key)` (UTF-8)
  and `toString('base64')` (section 4 of RFC 4648) are written out. Each
  comes with a decoder and a proof that decoding undoes encoding. So the
  header is shown to carry the configured key, and the Mailgun address
  fields are shown to carry the validated name and address.
- **Errors.** `EmailSendException` and `EmailValidationException` are
  datatypes built by functions that copy their arguments into fixed fields.
  `Scenarios` replays the repository's tests against the contracts.

Modules: `Wrappers` and `Bytes` (helpers), `Utf8`, `Base64`, `Schema`
(email.js:22-41), `Exceptions` (exceptions.js), `Payloads` (email.js:58-110),
`Mail` (the two classes), `Scenarios` (the tests).

Two consequences of the code are worth stating:
- A key fails unless it is present and non-empty. This holds for the names
  too, although the pattern `^[a-zA-Z.\s]*$` alone would match the empty string
  (`Schema.EmptyRejected`).
- Every selector value other than the exact string `"mailgun"` selects
  Mandrill (`Scenarios.SelectorIsExact`).

## Model

| member | source | states |
|---|---|---|
| `Schema.IsNameChar` | lib/modules/email.js:24-26 | the character class `[a-zA-Z.\s]`, with `\s` the ECMAScript white space and line terminators; a predicate, whose consequences `Schema.BadNameReported`, `Payloads.NameHasNoAngle` and `Scenarios.TestNamesAccepted` state |
| `Schema.IsName` | lib/modules/email.js:24-26 | the anchored pattern `^[a-zA-Z.\s]*$`: every character is in the class; a predicate, used by the same lemmas |
| `Schema.Check` | lib/modules/email.js:23-28 | one key's rule chain `string().required().<rule>()` with `abortEarly: false`: no entry exactly when the key is present, non-empty and satisfies its rule; a missing key gives exactly `any.required`; a present value gets `any.empty` exactly when it is empty, and its key's rule entry exactly when that rule fails, empty or not, with `any.empty` first; every entry names the key and carries the value |
| `Schema.Field.Rule` | lib/modules/email.js:23-28 | what each key checks after `required()`: `email()` for `to` and `from`, the name pattern for `toName` and `fromName`, nothing more for `subject` and `body`; its use is stated by `Schema.Check` |
| `Schema.Rule.Reported` | lib/modules/email.js:23-26 | a failing `email()` or name pattern is reported under its own kind, never as `any.required` or `any.empty` |
| `Schema.Kind.Type` | test/modules/email-tests.js:30-36 | the `type` string of each kind of entry: "any.required" and "string.email" as the test expects, "any.empty" and "string.regex.base" after Joi's naming |
| `Schema.KeyAt` | lib/modules/email.js:22-29 | the schema's keys in declaration order; position `k` holds the key of rank `k` |
| `Schema.Collect` | lib/modules/email.js:33-40 | the walk over the keys without stopping: every reported entry is one of its key's entries, every entry of every key from position `k` on is reported, and the report is in schema order |
| `Schema.CollectStep` | lib/modules/email.js:33-40 | the report from position `k` is key `k`'s entries followed by the report from the next position |
| `Schema.Violations` | lib/modules/email.js:33-40 | `error.details`: exactly the entries of every key, in schema order |
| `Schema.ViolationsUnfold` | lib/modules/email.js:22-40 | the report is `to`'s entries, then `toName`'s, `from`'s, `fromName`'s, `subject`'s and `body`'s |
| `Schema.Valid` | lib/modules/email.js:22-29 | the reference definition of what the schema accepts: all six keys present and non-empty, both addresses e-mail shaped, both names in `[a-zA-Z.\s]*`; `Schema.ValidIffAllPass` ties it to the per-key rules and `Schema.Validate` to the error |
| `Schema.Validate` | lib/modules/email.js:32-41 | the error is null exactly when all six keys are present and non-empty, both addresses are e-mail shaped and both names are in `[a-zA-Z.\s]*`; otherwise `details` is the full non-empty violation list and `message` Joi's text for it |
| `Schema.ValidIffAllPass` | lib/modules/email.js:22-29 | the conjunction `Valid` equals "every key passes its rule" |
| `Schema.ViolationsEmpty` | lib/modules/email.js:40 | the report is empty exactly when every key passes |
| `Schema.MissingFieldRequired` | lib/modules/email.js:23-28 | an undefined key is reported as `any.required` with path exactly `[key]`, and nothing else is reported for it |
| `Schema.EmptyRejected` | lib/modules/email.js:23-28 | an empty string in any key is reported as `any.empty`. For `to` and `from`, `string.email` is reported as well exactly when the grammar rejects the empty string, and nothing else is. For the other keys nothing else is reported |
| `Schema.BadNameReported` | lib/modules/email.js:24-26 | a `toName`/`fromName` holding a character outside `[a-zA-Z.\s]` is reported as a regex violation carrying that name |
| `Schema.ViolationsLocal` | lib/modules/email.js:22-40 | changing one key does not change what is reported about any other key |
| `Schema.ReportsEveryFailure` | lib/modules/email.js:40 | with `abortEarly: false`, two failing keys are both reported, and every entry of the earlier schema key comes before every entry of the later one |
| `Exceptions.NewEmailSendException` | lib/modules/exceptions.js:2-7 | `details` stored unchanged, `message` is `details.message`, `emailSenderBackend` is the argument, `name` is always "EmailSendException" |
| `Exceptions.NewEmailValidationException` | lib/modules/exceptions.js:11-15 | `details` and `message` copied verbatim from Joi's error, `name` always "EmailValidationException" |
| `Utf8.EncodeChar` | lib/modules/email.js:59 | `Buffer.from` on one character: 1 to 4 bytes, one byte (its code) exactly for ASCII, continuation bytes after the first |
| `Utf8.Encode` | lib/modules/email.js:59 | a string of n characters takes between n and 4n bytes |
| `Utf8.DecodeChar` | lib/modules/email.js:59 | the inverse for one character consumes 1 to 4 bytes |
| `Utf8.DecodeEncodeChar` | lib/modules/email.js:59 | one character's encoding decodes back to it, whatever bytes follow |
| `Utf8.DecodeEncode` | lib/modules/email.js:59 | decoding the UTF-8 bytes of any string gives the string back |
| `Utf8.EncodeAscii` | lib/modules/email.js:59 | an ASCII key encodes to its character codes, one byte each |
| `Base64.Char` | lib/modules/email.js:60 | the 64-character alphabet of RFC 4648 never yields the pad character |
| `Base64.Value` | lib/modules/email.js:60 | the alphabet lookup is the inverse of `Char` |
| `Base64.EncodeTriple` | lib/modules/email.js:60 | three octets become four characters |
| `Base64.Encode` | lib/modules/email.js:60 | `toString('base64')`, a function whose properties `Base64.DecodeEncode` (it decodes back), `Base64.EncodeLength` (its length) and `Scenarios.Base64Vectors` (two RFC 4648 vectors) state |
| `Base64.DecodeGroup` | lib/modules/email.js:60 | a four-character group decodes to one to three octets |
| `Base64.DecodeTriple` | lib/modules/email.js:60 | a full quantum decodes back to its three octets |
| `Base64.DecodeEncode` | lib/modules/email.js:60 | decoding the base64 text of any octet sequence gives the octets back, padding included |
| `Base64.EncodeLength` | lib/modules/email.js:60 | the text is 4 characters per started quantum of 3 octets |
| `Payloads.Interpolate` | lib/modules/email.js:65-66 | a template literal renders a present value as itself |
| `Payloads.IndexOf` | lib/modules/email.js:65-66 | the first position of a character, or none when it does not occur |
| `Payloads.FormatMailbox` | lib/modules/email.js:65-66 | the `${name} <${address}>` template, which `Payloads.ParseFormat` reads back |
| `Payloads.ParseFormat` | lib/modules/email.js:65-66 | a `Name <address>` string whose name has no '<' reads back as exactly that name and address |
| `Payloads.NameHasNoAngle` | lib/modules/email.js:24-26 | a name the schema accepts contains no '<' |
| `Payloads.BasicAuthorization` | lib/modules/email.js:59-60 | the header value starts with "Basic " and the rest base64-decodes to the key's UTF-8 bytes, which decode to the key |
| `Payloads.MailgunUri` | lib/modules/email.js:63 | the messages endpoint under the configured domain; `Payloads.MailgunCarriesEmail` states that the Mailgun request uses it |
| `Payloads.MailgunPost` | lib/modules/email.js:59-73 | the Mailgun request options, whose content `Payloads.MailgunCarriesEmail` states |
| `Payloads.MandrillPost` | lib/modules/email.js:83-103 | the Mandrill request options, whose content `Payloads.MandrillCarriesEmail` states |
| `Payloads.MailgunCarriesEmail` | lib/modules/email.js:61-73 | for a validated e-mail the Mailgun form's `from`/`to` read back as the sender's and recipient's name and address, `subject` is passed through, `text` is the plain-text body, the URI names the domain, and the header decodes to the API key |
| `Payloads.MandrillCarriesEmail` | lib/modules/email.js:83-103 | the Mandrill message has exactly one recipient `{email: to, name: toName, type: "to"}`, passes sender, subject and plain-text body as `text`, and carries the key |
| `Payloads.ProviderRequest.Backend` | lib/modules/email.js:78 | the provider name an `EmailSendException` is tagged with: "Mailgun" for a Mailgun request, "Mandrill" for a Mandrill one (line 108); `Mail.Deliver` states that the tag is this name |
| `Mail.Deliver` | lib/modules/email.js:75-79 | the adapter's try/catch: it completes exactly when the transport succeeds; a failure becomes an `EmailSendException` holding the transport error and tagged with that provider's name |
| `Mail.SelectRequest` | lib/modules/email.js:114-118 | Mailgun's request exactly when the selector equals "mailgun", Mandrill's for every other value, built from the e-mail |
| `Mail.SendMailSpec` | lib/modules/email.js:112-119 | an invalid e-mail makes no provider call and fails with the validation exception; a valid one makes exactly one call, to the selected provider; it completes exactly when that call succeeds; a send failure names the provider called and holds its error |
| `Mail.NoFallback` | lib/modules/email.js:114-118 | the requests made do not depend on the providers' answers (no retry, no fallback), and there is at most one |
| `Mail.Email.constructor` | lib/modules/email.js:14-21 | the six fields are stored as given and `plainTextBody` is html-to-text of `body`, computed once |
| `Mail.Email.Fields` | lib/modules/email.js:33-40 | the object of the six current field values handed to Joi; `Mail.Email.Validate` states what is decided about it |
| `Mail.Email.Validate` | lib/modules/email.js:32-41 | `validate()` on the current fields: null exactly when they are valid, otherwise the full violation list |
| `Mail.Email.ValidateOrThrow` | lib/modules/email.js:43-46 | throws exactly when `validate` reports an error, and then throws that error as an `EmailValidationException` |
| `Mail.EmailSender.constructor` | lib/modules/email.js:50-56 | the e-mail and the four settings are stored; no request made yet |
| `Mail.EmailSender.Settings` | lib/modules/email.js:52-55 | the four provider settings the sender holds, read back as one `Config` |
| `Mail.EmailSender.SendMailViaMailgun` | lib/modules/email.js:58-80 | appends the one Mailgun request built from the current fields to the log; the outcome is `Deliver` of it |
| `Mail.EmailSender.SendMailViaMandrill` | lib/modules/email.js:82-110 | appends the one Mandrill request built from the current fields to the log; the outcome is `Deliver` of it |
| `Mail.EmailSender.SendMail` | lib/modules/email.js:112-119 | the outcome and the requests appended to the log are those of `SendMailSpec` for the current fields and settings |
| `Scenarios.TestNamesAccepted` | test/modules/email-tests.js:8-15 | the tests' names satisfy the name rule |
| `Scenarios.ValidationTest` | test/modules/email-tests.js:7-44 | the clean test e-mail validates with a null error; after `to = 'fake'` and `from = undefined` the details are exactly the `string.email` entry for `to`, then the `any.required` entry for `from` |
| `Scenarios.CleanTestEmail` | test/modules/email-tests.js:8-19 | the test's e-mail is valid once the grammar accepts its two addresses |
| `Scenarios.BrokenTestEmail` | test/modules/email-tests.js:23-40 | after `to = 'fake'` and `from = undefined` the error lists exactly the `string.email` entry for `to`, then the `any.required` entry for `from` |
| `Scenarios.BadToMissingFrom` | test/modules/email-tests.js:23-40 | any rejected `to` with a missing `from` and otherwise valid keys gives exactly those two entries in that order |
| `Scenarios.SendingTest` | test/modules/email-tests.js:46-110 | a 201 completes silently; for any rejection `err` of the request, each adapter throws an error named "EmailSendException", tagged "Mailgun" or "Mandrill", whose `details` is `err` and whose `message` is `err.message` |
| `Scenarios.ApiValidationTest` | test/apps/api-tests.js:19-35 | a request with a bad address fails with an error named "EmailValidationException" and no provider request is made |
| `Scenarios.SelectorIsExact` | lib/modules/email.js:114 | the selector comparison is exact: "Mailgun" selects Mandrill, "mailgun" selects Mailgun |
| `Scenarios.Base64Vectors` | lib/modules/email.js:60 | the encoder agrees with two test vectors of section 10 of RFC 4648 |

## Left out

- HTTP transport (`request-promise-native`) and `async`/`await`: the network is a total function from a request to success or a transport error. Nothing about timing, status codes beyond the error object, or response bodies is modelled.
- The html-to-text conversion is foreign. It is a function parameter of the `Email` constructor, applied once there. The test's `'YOUR BILL\n$10'` result is a precondition of `Scenarios.ValidationTest`, not something proved.
- Joi's e-mail grammar and its message texts (`'"to" must be a valid email'`, `context.label`) are foreign. They are the functions `isEmail` and `describe` of a `Joi` value.
- Values that are not strings (numbers, objects in the request body) are not modelled: every field is an optional string. Joi's conversion and `string.base` errors are left out with them.
- `Schema.Check`: which entries one key gets, and in which order, follows Joi's own validation with `abortEarly: false`. Joi's code is not part of this model. Joi's message texts and `context` objects are likewise left out.
- `Scenarios.SendingTest`: what the request library rejects with is a parameter. Its wrapping of the mock's error object (its own error type, whose message is the object's string form) is not modelled.
- `Schema.Kind.Type`: the type strings "any.empty" and "string.regex.base" follow Joi's naming; neither the code nor the tests show them.
- A JavaScript string is a sequence of UTF-16 code units and may hold a lone surrogate, which `Buffer.from` replaces by EF BF BD. A Dafny `char` is a Unicode scalar value, so `Utf8.DecodeEncode` and `Payloads.BasicAuthorization` cover well-formed keys only.
- `Validate` returns only the `error` part of Joi's result; the `value` part is not used by the code and is left out.
- Form encoding and JSON serialisation of the payloads are not modelled. Absent properties are `None` in the records; the `method: 'POST'` and `json: true` options are implied by the record kind.
- `lib/constants.js` is not part of this model: the provider settings are a `Config` parameter of the `EmailSender` constructor.
- `lib/apps/api.js` (Express routing, URL formatting, the 201/400 response mapping), authentication and server start-up are framework glue and left out.
- The `schema` field of `Email` is a constant object in the source; the model has no field for it and uses the `Schema` module.
