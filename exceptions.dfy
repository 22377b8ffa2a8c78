/** The two error records of lib/modules/exceptions.js. Their constructors
    only copy arguments into fixed fields, so they are functions building
    datatype values. */
module Exceptions {
  import opened Wrappers
  import Schema

  /** The error a failed provider request is rejected with (a request error
      or a non-2xx status error); only the parts this system reads or the
      tests inspect. `message` is `None` when the error has no message. */
  datatype TransportError = TransportError(name: string, message: Option<string>, statusCode: Option<int>)

  /** `new EmailSendException(details, emailSenderBackend)`. */
  datatype EmailSendException = EmailSendException(
    details: TransportError, message: Option<string>, emailSenderBackend: string, name: string)

  /** `new EmailValidationException(joiException)`. */
  datatype EmailValidationException = EmailValidationException(
    details: seq<Schema.Violation>, message: string, name: string)

  /** The send error stores the transport error unchanged, takes its message
      from it, records the backend given, and is always named
      "EmailSendException". */
  function NewEmailSendException(details: TransportError, emailSenderBackend: string): (e: EmailSendException)
    ensures e.name == "EmailSendException"
    ensures e.details == details && e.message == details.message
    ensures e.emailSenderBackend == emailSenderBackend
  {
    EmailSendException(details, details.message, emailSenderBackend, "EmailSendException")
  }

  /** The validation error copies Joi's details and message verbatim and is
      always named "EmailValidationException". */
  function NewEmailValidationException(joiException: Schema.ValidationError): (e: EmailValidationException)
    ensures e.name == "EmailValidationException"
    ensures e.details == joiException.details && e.message == joiException.message
  {
    EmailValidationException(joiException.details, joiException.message, "EmailValidationException")
  }
}
