/**
 * The mail gateway (service/SendGridGateway.kt) as an outbox: every mail the bookkeeping hands to
 * it is appended, in order.
 */
module SendGridGateway {

  /** One mail: subject, body, whether the body is HTML, and the recipient. */
  datatype Mail = Mail(subject: string, body: string, isHtml: bool, to: string)

  class SendGridGateway {
    var sent: seq<Mail>

    constructor ()
      ensures sent == []
    {
      sent := [];
    }

    method SendMail(subject: string, body: string, isHtml: bool, to: string)
      modifies this
      ensures sent == old(sent) + [Mail(subject, body, isHtml, to)]
    {
      sent := sent + [Mail(subject, body, isHtml, to)];
    }
  }
}
