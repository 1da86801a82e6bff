/**
 * The page's code request as the delivery endpoint receives it: the
 * `fetch` of `handleContactVerification` posts `{contactType, contact,
 * code}` as JSON to backend/send-code/index.py.
 */
module Wire {
  import opened Wrappers
  import opened Codes
  import Records
  import Flow
  import SendCode

  function ContactTypeName(t: Records.ContactType): string {
    match t
    case Email => "email"
    case Phone => "phone"
  }

  /** The POST event the page's request becomes. */
  function ToEvent(request: Flow.CodeRequest): SendCode.Event {
    SendCode.Event(Some("POST"), SendCode.Fields(
      Some(ContactTypeName(request.contactType)), Some(request.contact), Some(request.code)))
  }

  /**
   * A request the page can send (non-empty contact, a session code) is
   * never turned away by the endpoint: it is answered 200 exactly when the
   * sender chosen by its contact type reports success, and 500 otherwise.
   */
  lemma PageRequestIsAccepted(contactType: Records.ContactType, contact: string, draw: nat,
                              env: SendCode.Env,
                              smtp: SendCode.Email -> SendCode.SendResult,
                              provider: SendCode.SmsQuery -> SendCode.SendResult)
    requires contact != "" && draw < 900000
    ensures var request := Flow.CodeRequest(contactType, contact, SessionCode(draw));
      var r := SendCode.Handle(ToEvent(request), env, smtp, provider);
      var sent := if contactType.Email?
        then SendCode.SendEmail(env, contact, SessionCode(draw), smtp)
        else SendCode.SendSms(env, contact, SessionCode(draw), provider);
      r.statusCode in {200, 500} && (r.statusCode == 200 <==> sent.Sent?)
  {
    var request := Flow.CodeRequest(contactType, contact, SessionCode(draw));
    assert SendCode.HasRequiredFields(ToEvent(request).body);
  }
}
