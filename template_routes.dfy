/**
 * The template routes (backend/src/routes/templateRoutes.js): a second
 * placeholder renderer that escapes only `<` and `>`, a tag remover, two
 * built-in templates, and a `POST /send` handler taking either an uploaded
 * HTML file or JSON.
 *
 * Two handlers are registered for `POST /send`; Express runs them in
 * registration order, and the first (`sendTemplateEmail`) answers every
 * request, so the second is never reached on that path.
 */
module TemplateRoutes {
  import opened Wrappers
  import opened JsStrings
  import opened Placeholders
  import opened EmailService
  import opened TemplateRender
  import opened Http
  import Html
  import TemplateController

  /** What one match is replaced by: `String` of the stored value (even `null`), `""` for an absent key; angle brackets escaped. */
  function ServerReplacement(values: map<string, Value>, raw: string): (r: string)
    ensures Capture(raw) !in values ==> r == ""
    ensures Capture(raw) in values && values[Capture(raw)] == Null ==> r == "null"
    ensures Capture(raw) in values && '&' !in ToText(values[Capture(raw)])
            ==> Html.UnescapeAngles(r) == ToText(values[Capture(raw)])
    ensures '<' !in r && '>' !in r
  {
    var key := Capture(raw);
    var text := if key in values then ToText(values[key]) else "";
    var r := Html.EscapeAngles(text);
    assert '&' !in text ==> Html.UnescapeAngles(r) == text by {
      if '&' !in text {
        Html.EscapeAnglesRoundTrip(text);
      }
    }
    r
  }

  function ServerSubstitution(values: map<string, Value>): string -> string {
    raw => ServerReplacement(values, raw)
  }

  /** `renderTemplateServer(body, values)`. */
  function RenderTemplateServer(body: string, values: map<string, Value>): (r: string)
    ensures body == "" ==> r == ""
  {
    if body == "" then "" else Expand(Tokenize(body), ServerSubstitution(values))
  }

  /** A body in which the scan finds no placeholder is returned unchanged. */
  lemma RenderServerUnmatched(body: string, values: map<string, Value>)
    requires NoMatch(Tokenize(body))
    ensures RenderTemplateServer(body, values) == body
  {
    ExpandUnmatchedBody(body, ServerSubstitution(values));
  }

  /** Literal text is copied, a placeholder replaced, and the replacement never scanned again. */
  lemma RenderServerStep(a: string, raw: string, rest: string, values: map<string, Value>)
    requires '{' !in a && IsRaw(raw)
    ensures RenderTemplateServer(a + Verbatim(raw) + rest, values)
         == a + ServerReplacement(values, raw) + RenderTemplateServer(rest, values)
  {
    var sub := ServerSubstitution(values);
    ExpandStep(a, raw, rest, sub);
    assert sub(raw) == ServerReplacement(values, raw);
    if rest == "" {
      assert Tokenize(rest) == [];
    }
  }

  /** A body that is one placeholder renders as its replacement. */
  lemma RenderServerSingle(raw: string, values: map<string, Value>)
    requires IsRaw(raw)
    ensures RenderTemplateServer(Verbatim(raw), values) == ServerReplacement(values, raw)
  {
    var sub := ServerSubstitution(values);
    TokenizeHole(raw, "");
    assert Verbatim(raw) + "" == Verbatim(raw);
    assert Tokenize("") == [];
    ExpandHole(raw, [], sub);
    assert sub(raw) == ServerReplacement(values, raw);
  }

  /** A key present with the value `null` renders as the text `null`. */
  lemma RenderServerNull(key: string, values: map<string, Value>)
    requires IsCleanKey(key) && key in values && values[key] == Null
    ensures RenderTemplateServer(Verbatim(key), values) == "null"
  {
    RenderServerSingle(key, values);
    CaptureClean(key);
  }

  /** An absent key renders as the empty string. */
  lemma RenderServerAbsent(raw: string, values: map<string, Value>)
    requires IsRaw(raw) && Capture(raw) !in values
    ensures RenderTemplateServer(Verbatim(raw), values) == ""
  {
    RenderServerSingle(raw, values);
  }

  /** A `&` in a value is emitted raw, not as `&amp;`. */
  lemma RenderServerKeepsAmpersand(key: string, s: string, values: map<string, Value>)
    requires IsCleanKey(key) && key in values && values[key] == Str("&" + s)
    ensures RenderTemplateServer(Verbatim(key), values) == "&" + Html.EscapeAngles(s)
  {
    RenderServerSingle(key, values);
    CaptureClean(key);
    Html.EscapeAnglesKeepsAmpersand(s);
  }

  /** `stripHtml`: every `<…>` run deleted; nothing else changes. */
  function StripHtml(html: string): (r: string)
    ensures html == "" ==> r == ""
    ensures '<' !in html ==> r == html
    ensures forall c :: c in r ==> c in html
  {
    if html == "" then ""
    else
      RemoveTagsPlain(html);
      Html.RemoveTags(html)
  }

  lemma RemoveTagsPlain(s: string)
    ensures '<' !in s ==> Html.RemoveTags(s) == s
  {
    if '<' !in s {
      Html.RemoveTagsNoTag(s);
    }
  }

  /** Whitespace around a tag survives: there is no collapsing and no trimming. */
  lemma StripHtmlKeepsWhitespace(a: string, t: string, b: string)
    requires '<' !in a && '>' !in t && '<' !in b
    ensures StripHtml(a + "<" + t + ">" + b) == a + b
  {
    Html.RemoveTagsTag(a, t, b);
    Html.RemoveTagsNoTag(b);
  }

  // The literal parts of the two built-in bodies, in order.
  const Q0: Plain := "<h2>Quotation</h2>\n       <p>Date: "
  const Q1: Plain := "</p>\n       <p>To: <strong>"
  const Q2: Plain := "</strong> \U{2014} "
  const Q3: Plain := "</p>\n       <p>Items: "
  const Q4: Plain := "</p>\n       <p>Total: "
  const Q5: Plain := "</p>\n       <p>Notes: "
  const Q6: Plain := "</p>"
  const I0: Plain := "<h2>Invoice</h2>\n       <p>Date: "
  const I1: Plain := "</p>\n       <p>Invoice No: "
  const I2: Plain := "</p>\n       <p>Bill To: "
  const I3: Plain := "</p>\n       <pre style=" + "\"white-space:pre-wrap;\">"
  const I4: Plain := "</pre>\n       <p>Subtotal: "
  const I5: Plain := "</p>\n       <p>Tax: "
  const I6: Plain := "</p>\n       <p><strong>Total: "
  const I7: Plain := "</strong></p>"

  const QuotationBody: seq<Segment> := [
    Lit(Q0), Field("date"), Lit(Q1), Field("to"), Lit(Q2), Field("company"), Lit(Q3), Field("items"),
    Lit(Q4), Field("total"), Lit(Q5), Field("notes"), Lit(Q6)]

  const InvoiceBody: seq<Segment> := [
    Lit(I0), Field("date"), Lit(I1), Field("invoiceNo"), Lit(I2), Field("billTo"), Lit(I3), Field("items"),
    Lit(I4), Field("subtotal"), Lit(I5), Field("tax"), Lit(I6), Field("total"), Lit(I7)]

  /** `TEMPLATES`. */
  const Templates: seq<StoredTemplate> := [
    StoredTemplate("quotation", "QUOTATION", Assemble(QuotationBody)),
    StoredTemplate("invoice", "INVOICE", Assemble(InvoiceBody))]

  /** The placeholders of the quotation body name exactly its fields. */
  lemma QuotationNames()
    ensures forall n :: Mentions(QuotationBody, n) <==> n in ["date", "to", "company", "items", "total", "notes"]
  {
    var q := QuotationBody;
    assert q[1].name == "date" && q[3].name == "to" && q[5].name == "company";
    assert q[7].name == "items" && q[9].name == "total" && q[11].name == "notes";
  }

  /** The placeholders of the invoice body name exactly its fields. */
  lemma InvoiceNames()
    ensures forall n :: Mentions(InvoiceBody, n)
                        <==> n in ["date", "invoiceNo", "billTo", "items", "subtotal", "tax", "total"]
  {
    var v := InvoiceBody;
    assert v[1].name == "date" && v[3].name == "invoiceNo" && v[5].name == "billTo";
    assert v[7].name == "items" && v[9].name == "subtotal" && v[11].name == "tax" && v[13].name == "total";
  }

  /** Each built-in template renders as its literal parts with its fields filled in, never as the empty string. */
  lemma RenderBuiltIn(k: nat, values: map<string, Value>)
    requires k < |Templates|
    ensures var segs := if k == 0 then QuotationBody else InvoiceBody;
            RenderTemplateServer(Templates[k].templateBody, values) == Fill(segs, ServerSubstitution(values))
    ensures RenderTemplateServer(Templates[k].templateBody, values) != ""
  {
    var segs := if k == 0 then QuotationBody else InvoiceBody;
    assert Templates[k].templateBody == Assemble(segs);
    assert Assemble(segs) != "" by {
      assert Assemble(segs) == segs[0].text + Assemble(segs[1..]);
    }
    ExpandAssembled(segs, ServerSubstitution(values));
    assert Fill(segs, ServerSubstitution(values)) == segs[0].text + Fill(segs[1..], ServerSubstitution(values));
  }

  /** An uploaded file as multer hands it over, its bytes read as text. */
  datatype UploadedFile = UploadedFile(text: string, originalname: Option<string>, mimetype: Option<string>)

  /** A request: the parsed body, if any, and the uploaded file, if any. */
  datatype SendRequest = SendRequest(body: Option<SendBody>, file: Option<UploadedFile>)

  /** `(req.body && req.body.to) || ""`. */
  function Recipient(req: SendRequest): string {
    if req.body.Some? then OrElse(req.body.value.to, "") else ""
  }

  /** The subject: the request's when non-empty, otherwise `Document`. */
  function RouteSubject(req: SendRequest): (s: string)
    ensures req.body.Some? && Truthy(req.body.value.subject) ==> s == req.body.value.subject.value
    ensures !(req.body.Some? && Truthy(req.body.value.subject)) ==> s == "Document"
  {
    var chosen :=
      if req.body.None? then ""
      else
        var sub := req.body.value.subject;
        if Truthy(sub) || sub == Some("") then sub.value else "Document";
    if chosen != "" then chosen else "Document"
  }

  /** The message of the upload path: the file as both body and sole attachment, from the forced sender. */
  function AttachmentMail(env: Env, file: UploadedFile, to: string, subject: string): (m: MailOptions)
    ensures m.from == ForcedFrom(env) && m.to == to && m.subject == subject && m.html == file.text && m.text == ""
    ensures |m.attachments| == 1 && m.attachments[0].content == file.text
    ensures m.attachments[0].filename == OrElse(file.originalname, "document.html")
    ensures m.attachments[0].contentType == OrElse(file.mimetype, "text/html")
  {
    MailOptions(ForcedFrom(env), to, subject, "", file.text,
                [Attachment(OrElse(file.originalname, "document.html"), file.text, OrElse(file.mimetype, "text/html"))])
  }

  /**
   * The upload path builds its message itself and hands it to the
   * transport directly, so it sends even where the mail service's
   * `sendMail` refuses for want of `MAIL_FROM` in production.
   */
  lemma AttachmentSkipsProductionCheck(env: Env, file: UploadedFile, to: string, subject: string)
    requires IsProduction(env) && !Truthy(env.mailFrom)
    ensures ComposeMail(env, MailRequest(to, subject, file.text, "")).Failure?
    ensures AttachmentMail(env, file, to, subject).from == "no-reply@example.com"
  {
  }

  /** `err?.message || "send failed"`. */
  function ErrorText(e: string): (m: string)
    ensures m != ""
    ensures e != "" ==> m == e
  {
    if e != "" then e else "send failed"
  }

  /** Where a message went: straight to a transport, or through the mail service. */
  datatype Outbound = ViaTransport(options: MailOptions) | ViaSendMail(request: MailRequest)

  /** The body a request carries, `{}` when there is none. */
  function BodyOf(req: SendRequest): SendBody {
    if req.body.Some? then req.body.value else SendBody(None, None, None, None, None, None)
  }

  /**
   * The second `POST /send` handler. `transport` is what `getTransporter`
   * gives, `deliver` the transport's `sendMail`, `sendMail` the mail
   * service's. `sent` is the message handed on, if any.
   */
  method SendRoute(env: Env, req: SendRequest, transport: Result<TransportConfig>,
                   deliver: (TransportConfig, MailOptions) -> Result<Info>,
                   sendMail: MailRequest -> Result<Info>)
    returns (reply: Reply, sent: Option<Outbound>)
    ensures !HasAt(Recipient(req)) ==> reply == Reply(400, FailJson("Valid recipient required")) && sent.None?
    ensures HasAt(Recipient(req)) && req.file.Some? && transport.Failure?
            ==> reply == Reply(500, FailJson(ErrorText(transport.error))) && sent.None?
    ensures HasAt(Recipient(req)) && req.file.Some? && transport.Success?
            ==> sent == Some(ViaTransport(AttachmentMail(env, req.file.value, Recipient(req), RouteSubject(req))))
    ensures sent.Some? && sent.value.ViaTransport?
            ==> transport.Success? && match deliver(transport.value, sent.value.options)
                case Success(info) => reply == Reply(200, SentJson("Email sent (with attachment)", TruthyPreview(info)))
                case Failure(e) => reply == Reply(500, FailJson(ErrorText(e)))
    // The JSON path: client html wins and no template is consulted.
    ensures HasAt(Recipient(req)) && req.file.None? && Truthy(BodyOf(req).html)
            ==> sent == Some(ViaSendMail(MailRequest(Recipient(req), RouteSubject(req),
                                                     BodyOf(req).html.value, OrElse(BodyOf(req).text, ""))))
    // A known template replaces both html and text.
    ensures HasAt(Recipient(req)) && req.file.None? && !Truthy(BodyOf(req).html)
            && Truthy(BodyOf(req).templateId) && FindById(Templates, BodyOf(req).templateId.value).Some?
            ==> var html := RenderTemplateServer(FindById(Templates, BodyOf(req).templateId.value).value.templateBody,
                                                 ValuesOrEmpty(BodyOf(req).values));
                sent == Some(ViaSendMail(MailRequest(Recipient(req), RouteSubject(req), html, StripHtml(html))))
    // No html and no known template: the client text alone, or 400.
    ensures HasAt(Recipient(req)) && req.file.None? && !Truthy(BodyOf(req).html)
            && !(Truthy(BodyOf(req).templateId) && FindById(Templates, BodyOf(req).templateId.value).Some?)
            ==> if Truthy(BodyOf(req).text)
                then sent == Some(ViaSendMail(MailRequest(Recipient(req), RouteSubject(req), "", BodyOf(req).text.value)))
                else reply == Reply(400, FailJson("No content to send")) && sent.None?
    ensures sent.Some? && sent.value.ViaSendMail?
            ==> match sendMail(sent.value.request)
                case Success(info) => reply == Reply(200, SentJson("Email sent", TruthyPreview(info)))
                case Failure(e) => reply == Reply(500, FailJson(ErrorText(e)))
  {
    var to := Recipient(req);
    var subject := RouteSubject(req);
    if !HasAt(to) {
      return Reply(400, FailJson("Valid recipient required")), None;
    }
    if req.file.Some? {
      if transport.Failure? {
        return Reply(500, FailJson(ErrorText(transport.error))), None;
      }
      var options := AttachmentMail(env, req.file.value, to, subject);
      sent := Some(ViaTransport(options));
      match deliver(transport.value, options) {
        case Success(info) => reply := Reply(200, SentJson("Email sent (with attachment)", TruthyPreview(info)));
        case Failure(e) => reply := Reply(500, FailJson(ErrorText(e)));
      }
      return;
    }
    var b := BodyOf(req);
    var finalHtml := OrElse(b.html, "");
    var finalText := OrElse(b.text, "");
    if finalHtml == "" && Truthy(b.templateId) {
      var tmpl := FindById(Templates, b.templateId.value);
      if tmpl.Some? {
        finalHtml := RenderTemplateServer(tmpl.value.templateBody, ValuesOrEmpty(b.values));
        finalText := StripHtml(finalHtml);
        assert tmpl.value in Templates;
        var k :| 0 <= k < |Templates| && Templates[k] == tmpl.value;
        RenderBuiltIn(k, ValuesOrEmpty(b.values));
      }
    }
    if finalHtml == "" && finalText == "" {
      return Reply(400, FailJson("No content to send")), None;
    }
    var mail := MailRequest(to, subject, finalHtml, finalText);
    sent := Some(ViaSendMail(mail));
    match sendMail(mail) {
      case Success(info) => reply := Reply(200, SentJson("Email sent", TruthyPreview(info)));
      case Failure(e) => reply := Reply(500, FailJson(ErrorText(e)));
    }
  }

  /**
   * The handler registered first on `POST /send` answers every request,
   * with 400 or 500 and without sending, so `SendRoute` never runs there.
   */
  lemma FirstHandlerAnswersAll(body: Option<SendBody>)
    ensures TemplateController.SendTemplateEmail(body).reply.status in {400, 500}
    ensures TemplateController.SendTemplateEmail(body).sent.None?
  {
  }

  /** An unknown template id with no html and no text is a 400, not a 404. */
  lemma UnknownTemplateIsNoContent(id: string)
    ensures FindById(Templates, id).None? <==> id != "quotation" && id != "invoice"
  {
  }
}
