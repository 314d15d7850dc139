/**
 * `sendTemplateController` (backend/src/controllers/sendcontroller.js), the
 * handler behind `POST /api/send/send` after `protect`: recipient and
 * template checks, a role allow-list, the template lookup, rendering, and
 * one send. The checks throw with a status set, which Express turns into
 * its error page.
 *
 * `isEmail` stands for `validator.isEmail`, `templates` for the template
 * collection, `sendMail` for the mail service's `sendMail`.
 */
module SendController {
  import opened Wrappers
  import opened JsStrings
  import opened EmailService
  import opened TemplateRender
  import opened Http
  import Html
  import AuthMiddleware
  import AuthController

  /** The role of `req.user`, lower-cased, or `""` without one. */
  function RoleOf(user: Option<AuthMiddleware.Principal>): string {
    if user.Some? && user.value.role.Some? then ToLower(user.value.role.value) else ""
  }

  /** Only `shipper` and `admin`, in any ASCII case, may send. */
  predicate RoleAllowed(user: Option<AuthMiddleware.Principal>) {
    RoleOf(user) == "shipper" || RoleOf(user) == "admin"
  }

  /** The text part: the rendered html with every `<…>` run removed, then trimmed. */
  function PlainText(html: string): (t: string)
    ensures t == [] || (!IsSpace(t[0]) && !IsSpace(t[|t| - 1]))
    ensures forall c :: c in t ==> c in html
  {
    var r := Html.RemoveTags(html);
    TrimChars(r);
    Trim(r)
  }

  /** Apart from whitespace at the ends, the text part is exactly the html with its tags removed. */
  lemma PlainTextKeepsText(html: string)
    ensures NonSpace(PlainText(html)) == NonSpace(Html.RemoveTags(html))
    ensures exists a, b :: Html.RemoveTags(html) == a + PlainText(html) + b && AllSpace(a) && AllSpace(b)
  {
    TrimKeepsNonSpace(Html.RemoveTags(html));
    TrimDropsOnlySpace(Html.RemoveTags(html));
  }

  /** A text wrapped in an element keeps only the text: `<p>Hello world</p>` gives `Hello world`. */
  lemma PlainTextElement(t: string, x: string, u: string)
    requires '>' !in t && '>' !in u && '<' !in x
    requires x == [] || (!IsSpace(x[0]) && !IsSpace(x[|x| - 1]))
    ensures PlainText("<" + t + ">" + x + "<" + u + ">") == x
  {
    var p := "<" + t + ">";
    var b := x + "<" + u + ">";
    Associative(p, x + "<" + u, ">");
    Associative(p, x + "<", u);
    Associative(p, x, "<");
    Html.RemoveTagsLeadingTag(t, b);
    var e: string := "";
    Html.RemoveTagsTag(x, u, e);
    assert b + e == b && x + e == x;
    TrimOfTrimmed(x);
  }

  /** The message for a found template. */
  function TemplateMail(to: string, subject: Option<string>, values: Option<map<string, Value>>,
                        tpl: StoredTemplate): (m: MailRequest)
    ensures m.to == to
    ensures m.subject != ""
    ensures Truthy(subject) ==> m.subject == subject.value
    ensures !Truthy(subject) && tpl.title != "" ==> m.subject == tpl.title
    ensures m.html == RenderTemplate(tpl.templateBody, ValuesOrEmpty(values))
    ensures m.text == PlainText(m.html)
  {
    var html := RenderTemplate(tpl.templateBody, ValuesOrEmpty(values));
    var subject := if Truthy(subject) then subject.value else if tpl.title != "" then tpl.title else "Document";
    MailRequest(to, subject, html, PlainText(html))
  }

  /** Whether the guards before the lookup pass. */
  predicate Admitted(b: SendBody, user: Option<AuthMiddleware.Principal>, isEmail: string -> bool) {
    Truthy(b.to) && isEmail(b.to.value) && Truthy(b.templateId) && RoleAllowed(user)
  }

  /** `sendTemplateController`; a missing body reads as `{}`. */
  function SendTemplate(body: Option<SendBody>, user: Option<AuthMiddleware.Principal>, isEmail: string -> bool,
                        templates: seq<StoredTemplate>, sendMail: MailRequest -> Result<Info>): (o: Outcome)
    ensures var b := if body.Some? then body.value else SendBody(None, None, None, None, None, None);
      && (!(Truthy(b.to) && isEmail(b.to.value))
          ==> o == Outcome(Reply(400, ErrorPage("Valid 'to' email is required")), None))
      && (Truthy(b.to) && isEmail(b.to.value) && !Truthy(b.templateId)
          ==> o == Outcome(Reply(400, ErrorPage("templateId is required")), None))
      && (Truthy(b.to) && isEmail(b.to.value) && Truthy(b.templateId) && !RoleAllowed(user)
          ==> o == Outcome(Reply(403, ErrorPage("Not authorized to send templates")), None))
      && (Admitted(b, user, isEmail) && FindById(templates, b.templateId.value).None?
          ==> o == Outcome(Reply(404, ErrorPage("Template not found")), None))
      && (o.sent.Some? <==> Admitted(b, user, isEmail) && FindById(templates, b.templateId.value).Some?)
      && (o.sent.Some? ==>
            o.sent.value == TemplateMail(b.to.value, b.subject, b.values, FindById(templates, b.templateId.value).value))
    ensures o.sent.None? <==> o.reply.status in {400, 403, 404}
    ensures o.sent.Some? && sendMail(o.sent.value).Success?
            ==> o.reply == Reply(200, InfoJson(sendMail(o.sent.value).value))
    ensures o.sent.Some? && sendMail(o.sent.value).Failure?
            ==> o.reply.status == 502 && o.reply.body.ErrorJson? && o.reply.body.error != ""
    ensures o.sent.Some? && sendMail(o.sent.value).Failure? && sendMail(o.sent.value).error != ""
            ==> o.reply.body == ErrorJson(sendMail(o.sent.value).error)
  {
    var b := if body.Some? then body.value else SendBody(None, None, None, None, None, None);
    if !(Truthy(b.to) && isEmail(b.to.value)) then
      Outcome(Reply(400, ErrorPage("Valid 'to' email is required")), None)
    else if !Truthy(b.templateId) then
      Outcome(Reply(400, ErrorPage("templateId is required")), None)
    else if !RoleAllowed(user) then
      Outcome(Reply(403, ErrorPage("Not authorized to send templates")), None)
    else
      match FindById(templates, b.templateId.value)
      case None => Outcome(Reply(404, ErrorPage("Template not found")), None)
      case Some(tpl) =>
        var mail := TemplateMail(b.to.value, b.subject, b.values, tpl);
        match sendMail(mail)
        case Success(info) => Outcome(Reply(200, InfoJson(info)), Some(mail))
        case Failure(e) => Outcome(Reply(502, ErrorJson(if e != "" then e else "Mail provider error")), Some(mail))
  }

  /**
   * The tokens `login` and `register` issue carry only the user's id, so
   * `protect` yields a user without a role, and a request that passes the
   * first two checks is refused with 403 before any template is read.
   */
  lemma IssuedTokensCannotSend(header: Option<string>, verify: string -> Option<AuthMiddleware.Claims>, id: string,
                               b: SendBody, isEmail: string -> bool,
                               templates: seq<StoredTemplate>, sendMail: MailRequest -> Result<Info>)
    requires AuthMiddleware.Protect(header, verify).Proceed?
    requires verify(AuthMiddleware.BearerToken(header).value) == Some(AuthController.TokenClaims(id))
    requires Truthy(b.to) && isEmail(b.to.value) && Truthy(b.templateId)
    ensures SendTemplate(Some(b), Some(AuthMiddleware.Protect(header, verify).user), isEmail, templates, sendMail)
            == Outcome(Reply(403, ErrorPage("Not authorized to send templates")), None)
  {
    AuthMiddleware.IdOnlyClaimsHaveNoRole(id);
  }
}
