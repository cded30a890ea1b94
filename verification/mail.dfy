/**
  The mail sender the notifiers hand their message to, as the test doubles
  of the sender record it: every `send_email` call appends one message.
  Connecting to the SMTP server and assembling the MIME message are not
  part of this model.
 */
module Mail {
  import opened Wrappers

  /** One `send_email(recipient, subject, body)` call. */
  datatype Email = Email(recipient: string, subject: string, body: string)

  class Outbox {
    /** The messages sent so far, oldest first. */
    var sent: seq<Email>

    constructor ()
      ensures sent == []
    {
      sent := [];
    }

    method SendEmail(recipient: string, subject: string, body: string)
      modifies this
      ensures sent == old(sent) + [Email(recipient, subject, body)]
    {
      sent := sent + [Email(recipient, subject, body)];
    }
  }

  /** The messages a call that sends at most one message sends. */
  function Mails(m: Option<Email>): seq<Email>
  {
    if m.Some? then [m.value] else []
  }
}
