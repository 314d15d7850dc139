/**
 * `sendTemplateEmail` (backend/src/controllers/templateController.js), the
 * handler behind `POST /api/templates/send`: two request checks, a template
 * lookup, rendering, and one send. It performs no role or authorisation
 * check: it is given no user at all.
 *
 * The lookup reads `Templates`, which the file never declares, so as written
 * the lookup throws; `SendTemplateEmail` models that, `SendTemplateEmailWith`
 * the handler with a working lookup over a list of templates.
 */
module TemplateController {
  import opened Wrappers
  import opened EmailService
  import opened Placeholders
  import opened TemplateRender
  import opened Http

  /** The two request checks in order; `None` when both pass. */
  function CheckRequest(b: SendBody): (r: Option<Reply>)
    ensures r.None? <==> RecipientWithAt(b.to) && Truthy(b.templateId)
    ensures !RecipientWithAt(b.to) ==> r == Some(Reply(400, ErrorJson("Valid 'to' email required")))
    ensures RecipientWithAt(b.to) && !Truthy(b.templateId)
            ==> r == Some(Reply(400, ErrorJson("templateId is required")))
  {
    if !RecipientWithAt(b.to) then Some(Reply(400, ErrorJson("Valid 'to' email required")))
    else if !Truthy(b.templateId) then Some(Reply(400, ErrorJson("templateId is required")))
    else None
  }

  /** The reply for any thrown error: a fixed text, no message or stack. */
  const Failed := Reply(500, ErrorJson("Failed to send email"))

  /**
   * The handler as written. A missing body makes the destructuring throw;
   * past the checks, reading the undeclared `Templates` throws. Either way
   * the catch answers 500 and nothing is sent.
   */
  function SendTemplateEmail(body: Option<SendBody>): (o: Outcome)
    ensures o.sent.None?
    ensures o.reply.status == 400 <==> body.Some? && CheckRequest(body.value).Some?
    ensures o.reply.status != 400 ==> o.reply == Failed
  {
    match body
    case None => Outcome(Failed, None)
    case Some(b) =>
      match CheckRequest(b)
      case Some(reply) => Outcome(reply, None)
      case None => Outcome(Failed, None)
  }

  /** `subject || title || 'Document'`. */
  function Subject(subject: Option<string>, title: string): (s: string)
    ensures s != ""
    ensures Truthy(subject) ==> s == subject.value
    ensures !Truthy(subject) && title != "" ==> s == title
    ensures !Truthy(subject) && title == "" ==> s == "Document"
  {
    if Truthy(subject) then subject.value else if title != "" then title else "Document"
  }

  /** The message sent for a template: the rendered body and its collapsed text. */
  function TemplateMail(b: SendBody, t: StoredTemplate): (m: MailRequest)
    requires b.to.Some?
    ensures m.to == b.to.value && m.subject == Subject(b.subject, t.title)
    ensures m.html == RenderTemplate(t.templateBody, ValuesOrEmpty(b.values))
    ensures m.text == StripHtml(m.html)
  {
    var html := RenderTemplate(t.templateBody, ValuesOrEmpty(b.values));
    MailRequest(b.to.value, Subject(b.subject, t.title), html, StripHtml(html))
  }

  /**
   * The handler with a working lookup: `templates` stands for `Templates`,
   * `sendMail` for the mail service's `sendMail`.
   */
  function SendTemplateEmailWith(body: Option<SendBody>, templates: seq<StoredTemplate>,
                                 sendMail: MailRequest -> Result<Info>): (o: Outcome)
    ensures body.None? ==> o == Outcome(Failed, None)
    ensures o.reply.status == 400 <==> body.Some? && CheckRequest(body.value).Some?
    ensures o.reply.status == 404 <==> body.Some? && CheckRequest(body.value).None?
                                       && FindById(templates, body.value.templateId.value).None?
    ensures o.reply.status == 404 ==> o.reply.body == ErrorJson("Template not found")
    ensures o.sent.Some? <==> body.Some? && CheckRequest(body.value).None?
                              && FindById(templates, body.value.templateId.value).Some?
    ensures o.sent.Some? ==>
              o.sent.value == TemplateMail(body.value, FindById(templates, body.value.templateId.value).value)
    ensures o.sent.Some? && sendMail(o.sent.value).Success? ==>
              o.reply == Reply(200, SentJson("Email sent", TruthyPreview(sendMail(o.sent.value).value)))
    ensures o.sent.Some? && sendMail(o.sent.value).Failure? ==> o.reply == Failed
  {
    match body
    case None => Outcome(Failed, None)
    case Some(b) =>
      match CheckRequest(b)
      case Some(reply) => Outcome(reply, None)
      case None =>
        match FindById(templates, b.templateId.value)
        case None => Outcome(Reply(404, ErrorJson("Template not found")), None)
        case Some(t) =>
          var mail := TemplateMail(b, t);
          match sendMail(mail)
          case Failure(_) => Outcome(Failed, Some(mail))
          case Success(info) => Outcome(Reply(200, SentJson("Email sent", TruthyPreview(info))), Some(mail))
  }

  /** Whenever the checks pass, the handler as written fails where the intended one sends. */
  lemma UndeclaredTemplatesNeverSend(b: SendBody, templates: seq<StoredTemplate>,
                                     sendMail: MailRequest -> Result<Info>)
    requires CheckRequest(b).None? && FindById(templates, b.templateId.value).Some?
    ensures SendTemplateEmail(Some(b)).reply == Failed
    ensures SendTemplateEmail(Some(b)).sent.None?
    ensures SendTemplateEmailWith(Some(b), templates, sendMail).sent.Some?
  {
  }

  /** A concrete request: a valid recipient and a known template id. */
  lemma UndeclaredTemplatesExample(sendMail: MailRequest -> Result<Info>)
    ensures var b := SendBody(Some("a@b.co"), None, Some("quotation"), None, None, None);
            var ts := [StoredTemplate("quotation", "QUOTATION", "<p>{{date}}</p>")];
            SendTemplateEmail(Some(b)) == Outcome(Failed, None)
            && SendTemplateEmailWith(Some(b), ts, sendMail).sent.Some?
            && SendTemplateEmailWith(Some(b), ts, sendMail).sent.value.subject == "QUOTATION"
  {
    var b := SendBody(Some("a@b.co"), None, Some("quotation"), None, None, None);
    var ts := [StoredTemplate("quotation", "QUOTATION", "<p>{{date}}</p>")];
    assert "a@b.co"[1] == '@';
    assert CheckRequest(b).None?;
    assert FindById(ts, "quotation") == Some(ts[0]);
  }
}
