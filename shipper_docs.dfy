/**
 * The shipper's documentation page
 * (frontend/src/pages/dashboards/shipper/DocumentationDashboard.jsx): six
 * built-in templates, a renderer that looks keys up untrimmed, the form
 * state, and `sendByEmail`, which hands the rendered document to the
 * context's `sendTemplate` and falls back on the mail client.
 */
module ShipperDocs {
  import opened Wrappers
  import opened JsStrings
  import opened Placeholders
  import opened DocTemplates
  import Html
  import AuthContext

  // The built-in bodies and fields, template by template.

  const QuotationText0: Plain := "<h2>Quotation</h2>\n       <p>Date: "
  const QuotationText1: Plain := "</p>\n       <p>To: <strong>"
  const QuotationText2: Plain := "</strong> \U{2014} "
  const QuotationText3: Plain := "</p>\n       <p>Items: "
  const QuotationText4: Plain := "</p>\n       <p>Total: "
  const QuotationText5: Plain := "</p>\n       <p>Notes: "
  const QuotationText6: Plain := "</p>"
  const QuotationGaps0: seq<Gap> := [
    Gap("date", QuotationText1),
    Gap("to", QuotationText2),
    Gap("company", QuotationText3),
    Gap("items", QuotationText4)]
  const QuotationGaps1: seq<Gap> := [
    Gap("total", QuotationText5),
    Gap("notes", QuotationText6)]
  const Quotation: Body := Body(QuotationText0, QuotationGaps0 + QuotationGaps1)

  const QuotationFields: seq<FieldSpec> := [
    FieldSpec("date", "date"),
    FieldSpec("to", "text"),
    FieldSpec("company", "text"),
    FieldSpec("items", "textarea"),
    FieldSpec("total", "text"),
    FieldSpec("notes", "textarea")]

  const ConfirmationText0Part0: Plain := "<h2>Confirmation Letter</h2>\n       "
  const ConfirmationText0Part1: Plain := "<p>Date: "
  const ConfirmationText0: Plain :=
    ConfirmationText0Part0 +
    ConfirmationText0Part1
  const ConfirmationText1: Plain := "</p>\n       <p>Ref: "
  const ConfirmationText2: Plain := "</p>\n       <p>To: "
  const ConfirmationText3: Plain := "</p>\n       <p>"
  const ConfirmationText4: Plain := "</p>\n       <p>Sincerely, <br/>"
  const ConfirmationText5: Plain := "</p>"
  const ConfirmationGaps0: seq<Gap> := [
    Gap("date", ConfirmationText1),
    Gap("ref", ConfirmationText2),
    Gap("party", ConfirmationText3),
    Gap("details", ConfirmationText4)]
  const ConfirmationGaps1: seq<Gap> := [
    Gap("signoff", ConfirmationText5)]
  const Confirmation: Body := Body(ConfirmationText0, ConfirmationGaps0 + ConfirmationGaps1)

  const ConfirmationFields: seq<FieldSpec> := [
    FieldSpec("date", "date"),
    FieldSpec("ref", "text"),
    FieldSpec("party", "text"),
    FieldSpec("details", "textarea"),
    FieldSpec("signoff", "text")]

  const TripartyText0Part0: Plain := "<h2>Tri-Party Agreement</h2>\n       "
  const TripartyText0Part1: Plain := "<p>Date: "
  const TripartyText0: Plain :=
    TripartyText0Part0 +
    TripartyText0Part1
  const TripartyText1: Plain := "</p>\n       <p>Between: "
  const TripartyText2: Plain := ", "
  const TripartyText3: Plain := " and "
  const TripartyText4: Plain := "</p>\n       <p>Subject: "
  const TripartyText5: Plain := "</p>\n       <p>Term: "
  const TripartyText6: Plain := "</p>"
  const TripartyGaps0: seq<Gap> := [
    Gap("date", TripartyText1),
    Gap("partyA", TripartyText2),
    Gap("partyB", TripartyText3),
    Gap("partyC", TripartyText4)]
  const TripartyGaps1: seq<Gap> := [
    Gap("subject", TripartyText5),
    Gap("term", TripartyText6)]
  const Triparty: Body := Body(TripartyText0, TripartyGaps0 + TripartyGaps1)

  const TripartyFields: seq<FieldSpec> := [
    FieldSpec("date", "date"),
    FieldSpec("partyA", "text"),
    FieldSpec("partyB", "text"),
    FieldSpec("partyC", "text"),
    FieldSpec("subject", "textarea"),
    FieldSpec("term", "text")]

  const LabelText0Part0: Plain := "<div style=\"border:1px solid #222; "
  const LabelText0Part1: Plain := "padding:12px; width:320px;\">\n       "
  const LabelText0Part2: Plain := "  <h3>"
  const LabelText0: Plain :=
    LabelText0Part0 +
    LabelText0Part1 +
    LabelText0Part2
  const LabelText1: Plain := "</h3>\n         <p>SKU/HS: "
  const LabelText2: Plain := "</p>\n         <p>Weight: "
  const LabelText3: Plain := "</p>\n         <p>Origin: "
  const LabelText4: Plain := "</p>\n         <p>Batch: "
  const LabelText5: Plain := "</p>\n       </div>"
  const LabelGaps0: seq<Gap> := [
    Gap("productName", LabelText1),
    Gap("sku", LabelText2),
    Gap("weight", LabelText3),
    Gap("origin", LabelText4)]
  const LabelGaps1: seq<Gap> := [
    Gap("batch", LabelText5)]
  const Label: Body := Body(LabelText0, LabelGaps0 + LabelGaps1)

  const LabelFields: seq<FieldSpec> := [
    FieldSpec("productName", "text"),
    FieldSpec("sku", "text"),
    FieldSpec("weight", "text"),
    FieldSpec("origin", "text"),
    FieldSpec("batch", "text")]

  const InvoiceText0: Plain := "<h2>Invoice</h2>\n       <p>Date: "
  const InvoiceText1: Plain := "</p>\n       <p>Invoice No: "
  const InvoiceText2: Plain := "</p>\n       <p>Bill To: "
  const InvoiceText3Part0: Plain := "</p>\n       <pre "
  const InvoiceText3Part1: Plain := "style=\"white-space:pre-wrap;\">"
  const InvoiceText3: Plain :=
    InvoiceText3Part0 +
    InvoiceText3Part1
  const InvoiceText4: Plain := "</pre>\n       <p>Subtotal: "
  const InvoiceText5: Plain := "</p>\n       <p>Tax: "
  const InvoiceText6: Plain := "</p>\n       <p><strong>Total: "
  const InvoiceText7: Plain := "</strong></p>"
  const InvoiceGaps0: seq<Gap> := [
    Gap("date", InvoiceText1),
    Gap("invoiceNo", InvoiceText2),
    Gap("billTo", InvoiceText3),
    Gap("items", InvoiceText4)]
  const InvoiceGaps1: seq<Gap> := [
    Gap("subtotal", InvoiceText5),
    Gap("tax", InvoiceText6),
    Gap("total", InvoiceText7)]
  const Invoice: Body := Body(InvoiceText0, InvoiceGaps0 + InvoiceGaps1)

  const InvoiceFields: seq<FieldSpec> := [
    FieldSpec("date", "date"),
    FieldSpec("invoiceNo", "text"),
    FieldSpec("billTo", "text"),
    FieldSpec("items", "textarea"),
    FieldSpec("subtotal", "text"),
    FieldSpec("tax", "text"),
    FieldSpec("total", "text")]

  const PackingText0Part0: Plain := "<h2>Packing List</h2>\n       "
  const PackingText0Part1: Plain := "<p>Date: "
  const PackingText0: Plain :=
    PackingText0Part0 +
    PackingText0Part1
  const PackingText1: Plain := "</p>\n       <p>Shipment Ref: "
  const PackingText2Part0: Plain := "</p>\n       <pre "
  const PackingText2Part1: Plain := "style=\"white-space:pre-wrap;\">"
  const PackingText2: Plain :=
    PackingText2Part0 +
    PackingText2Part1
  const PackingText3: Plain := "</pre>\n       <p>Gross Weight: "
  const PackingText4: Plain := "</p>\n       <p>Dimensions: "
  const PackingText5: Plain := "</p>"
  const PackingGaps0: seq<Gap> := [
    Gap("date", PackingText1),
    Gap("shipmentRef", PackingText2),
    Gap("packages", PackingText3),
    Gap("grossWeight", PackingText4)]
  const PackingGaps1: seq<Gap> := [
    Gap("dimensions", PackingText5)]
  const Packing: Body := Body(PackingText0, PackingGaps0 + PackingGaps1)

  const PackingFields: seq<FieldSpec> := [
    FieldSpec("date", "date"),
    FieldSpec("shipmentRef", "text"),
    FieldSpec("packages", "textarea"),
    FieldSpec("grossWeight", "text"),
    FieldSpec("dimensions", "text")]

  const Templates: seq<DocTemplate> := [
    DocTemplate("quotation", "QUOTATION",
      QuotationFields, Assemble(Segments(Quotation))),
    DocTemplate("confirmation", "CONFIRMATION LETTER",
      ConfirmationFields, Assemble(Segments(Confirmation))),
    DocTemplate("triparty", "TRI PARTY AGREEMENT",
      TripartyFields, Assemble(Segments(Triparty))),
    DocTemplate("label", "LABEL FOR PRODUCT",
      LabelFields, Assemble(Segments(Label))),
    DocTemplate("invoice", "INVOICE",
      InvoiceFields, Assemble(Segments(Invoice))),
    DocTemplate("packing", "PACKING LIST",
      PackingFields, Assemble(Segments(Packing)))]

  // Each built-in body names exactly the fields of its template.
  lemma QuotationPlaceholders()
    ensures forall n :: Mentions(Segments(Quotation), n) <==> n in FieldNames(QuotationFields)
  {
    assert GapNames(Quotation) == ["date", "to", "company", "items", "total", "notes"];
    assert FieldNames(QuotationFields) == ["date", "to", "company", "items", "total", "notes"];
    forall n ensures Mentions(Segments(Quotation), n) <==> n in FieldNames(QuotationFields) {
      MentionsGapNames(Quotation, n);
    }
  }

  lemma ConfirmationPlaceholders()
    ensures forall n :: Mentions(Segments(Confirmation), n) <==> n in FieldNames(ConfirmationFields)
  {
    assert GapNames(Confirmation) == ["date", "ref", "party", "details", "signoff"];
    assert FieldNames(ConfirmationFields) == ["date", "ref", "party", "details", "signoff"];
    forall n ensures Mentions(Segments(Confirmation), n) <==> n in FieldNames(ConfirmationFields) {
      MentionsGapNames(Confirmation, n);
    }
  }

  lemma TripartyPlaceholders()
    ensures forall n :: Mentions(Segments(Triparty), n) <==> n in FieldNames(TripartyFields)
  {
    assert GapNames(Triparty) == ["date", "partyA", "partyB", "partyC", "subject", "term"];
    assert FieldNames(TripartyFields) == ["date", "partyA", "partyB", "partyC", "subject", "term"];
    forall n ensures Mentions(Segments(Triparty), n) <==> n in FieldNames(TripartyFields) {
      MentionsGapNames(Triparty, n);
    }
  }

  lemma LabelPlaceholders()
    ensures forall n :: Mentions(Segments(Label), n) <==> n in FieldNames(LabelFields)
  {
    assert GapNames(Label) == ["productName", "sku", "weight", "origin", "batch"];
    assert FieldNames(LabelFields) == ["productName", "sku", "weight", "origin", "batch"];
    forall n ensures Mentions(Segments(Label), n) <==> n in FieldNames(LabelFields) {
      MentionsGapNames(Label, n);
    }
  }

  lemma InvoicePlaceholders()
    ensures forall n :: Mentions(Segments(Invoice), n) <==> n in FieldNames(InvoiceFields)
  {
    assert GapNames(Invoice) == ["date", "invoiceNo", "billTo", "items", "subtotal", "tax", "total"];
    assert FieldNames(InvoiceFields) == ["date", "invoiceNo", "billTo", "items", "subtotal", "tax", "total"];
    forall n ensures Mentions(Segments(Invoice), n) <==> n in FieldNames(InvoiceFields) {
      MentionsGapNames(Invoice, n);
    }
  }

  lemma PackingPlaceholders()
    ensures forall n :: Mentions(Segments(Packing), n) <==> n in FieldNames(PackingFields)
  {
    assert GapNames(Packing) == ["date", "shipmentRef", "packages", "grossWeight", "dimensions"];
    assert FieldNames(PackingFields) == ["date", "shipmentRef", "packages", "grossWeight", "dimensions"];
    forall n ensures Mentions(Segments(Packing), n) <==> n in FieldNames(PackingFields) {
      MentionsGapNames(Packing, n);
    }
  }


  /** The built-in bodies, in table order. */
  const Bodies: seq<Body> := [Quotation, Confirmation, Triparty, Label, Invoice, Packing]

  /** Each built-in body's placeholders are exactly its template's field names. */
  lemma TemplatePlaceholders(k: nat)
    requires k < |Templates|
    ensures k < |Bodies| && Templates[k].templateBody == Assemble(Segments(Bodies[k]))
    ensures forall n :: Mentions(Segments(Bodies[k]), n) <==> n in FieldNames(Templates[k].fields)
  {
    if k == 0 { QuotationPlaceholders(); }
    else if k == 1 { ConfirmationPlaceholders(); }
    else if k == 2 { TripartyPlaceholders(); }
    else if k == 3 { LabelPlaceholders(); }
    else if k == 4 { InvoicePlaceholders(); }
    else { PackingPlaceholders(); }
  }

  /** The six template ids are distinct. */
  lemma IdsDistinct()
    ensures forall i, j | 0 <= i < j < |Templates| :: Templates[i].id != Templates[j].id
  {
  }

  /** `safeEscapeValue`: nothing for a missing value, otherwise the text with `<` and `>` escaped. */
  function SafeEscapeValue(v: Option<string>): (r: string)
    ensures v.None? ==> r == ""
    ensures '<' !in r && '>' !in r
    ensures v.Some? && '<' !in v.value && '>' !in v.value ==> r == v.value
    ensures v.Some? && '&' !in v.value ==> Html.UnescapeAngles(r) == v.value
  {
    match v
    case None => ""
    case Some(s) =>
      var r := Html.EscapeAngles(s);
      assert '&' !in s ==> Html.UnescapeAngles(r) == s by {
        if '&' !in s {
          Html.EscapeAnglesRoundTrip(s);
        }
      }
      r
  }

  /** What one match is replaced by: the escaped value of the captured key, looked up as captured. */
  function Replacement(values: map<string, string>, raw: string): (r: string)
    ensures Capture(raw) !in values ==> r == ""
    ensures Capture(raw) in values ==> r == SafeEscapeValue(Some(values[Capture(raw)]))
  {
    var key := Capture(raw);
    SafeEscapeValue(Some(if key in values then values[key] else ""))
  }

  function Substitution(values: map<string, string>): string -> string {
    raw => Replacement(values, raw)
  }

  /** `renderTemplate(body, values)`. */
  function RenderTemplate(body: string, values: map<string, string>): (r: string)
    ensures body == "" ==> r == ""
  {
    if body == "" then "" else Expand(Tokenize(body), Substitution(values))
  }

  /** Literal text is copied, a placeholder becomes its replacement, and the replacement is never scanned again. */
  lemma RenderStep(a: string, raw: string, rest: string, values: map<string, string>)
    requires '{' !in a && IsRaw(raw)
    ensures RenderTemplate(a + Verbatim(raw) + rest, values)
         == a + Replacement(values, raw) + RenderTemplate(rest, values)
  {
    var sub := Substitution(values);
    ExpandStep(a, raw, rest, sub);
    assert sub(raw) == Replacement(values, raw);
    if rest == "" {
      assert Tokenize(rest) == [];
    }
  }

  /** A body that is one placeholder renders as its replacement. */
  lemma RenderSingle(raw: string, values: map<string, string>)
    requires IsRaw(raw)
    ensures RenderTemplate(Verbatim(raw), values) == Replacement(values, raw)
  {
    var sub := Substitution(values);
    TokenizeHole(raw, "");
    assert Verbatim(raw) + "" == Verbatim(raw);
    assert Tokenize("") == [];
    ExpandHole(raw, [], sub);
    assert sub(raw) == Replacement(values, raw);
  }

  /** A placeholder whose key is not in the form renders as the empty string. */
  lemma RenderMissingKey(raw: string, values: map<string, string>)
    requires IsRaw(raw) && Capture(raw) !in values
    ensures RenderTemplate(Verbatim(raw), values) == ""
  {
    RenderSingle(raw, values);
  }

  /**
   * The key is not trimmed: `{{ k }}` looks up `k` followed by the trailing
   * blanks, so it renders empty even when `k` has a value.
   */
  lemma RenderUntrimmedKey(w1: string, k: string, w2: string, values: map<string, string>)
    requires AllSpace(w1) && AllSpace(w2) && w2 != [] && IsCleanKey(k) && '}' !in w1 && '}' !in w2
    requires k + w2 !in values
    ensures RenderTemplate(Verbatim(w1 + k + w2), values) == ""
  {
    assert w1 + k + w2 == w1 + (k + w2);
    CaptureLeadingSpace(w1, k + w2);
    RenderMissingKey(w1 + k + w2, values);
  }

  /** A value that looks like a placeholder is emitted as it is, never expanded. */
  lemma RenderNoRescan(key: string, inner: string, values: map<string, string>)
    requires IsCleanKey(key) && IsRaw(inner) && '<' !in inner && '>' !in inner
    requires key in values && values[key] == Verbatim(inner)
    ensures RenderTemplate(Verbatim(key), values) == Verbatim(inner)
  {
    var v := Verbatim(inner);
    VerbatimFree(inner, '<');
    VerbatimFree(inner, '>');
    assert SafeEscapeValue(Some(v)) == v;
    CaptureClean(key);
    RenderSingle(key, values);
  }

  /** A built-in template renders as its literal text with each field's escaped value in place. */
  lemma RenderBuiltIn(k: nat, values: map<string, string>)
    requires k < |Templates|
    ensures k < |Bodies|
    ensures RenderTemplate(Templates[k].templateBody, values) == Fill(Segments(Bodies[k]), Substitution(values))
  {
    TemplatePlaceholders(k);
    var segs := Segments(Bodies[k]);
    ExpandAssembled(segs, Substitution(values));
    if Assemble(segs) == "" {
      assert Tokenize(Assemble(segs)) == [];
    }
  }

  /** `finalSubject`: the subject as typed when it has a non-blank character, else the title, else `Document`. */
  function FinalSubject(subject: string, selected: Option<DocTemplate>): (s: string)
    ensures Trim(subject) != "" ==> s == subject
    ensures Trim(subject) == "" && selected.Some? && selected.value.title != "" ==> s == selected.value.title
    ensures Trim(subject) == "" && (selected.None? || selected.value.title == "") ==> s == "Document"
    ensures s != ""
  {
    if subject != "" && Trim(subject) != "" then subject
    else Or(if selected.Some? then selected.value.title else "", "Document")
  }

  /** `selectedTemplate?.templateBody || ''`. */
  function SelectedBody(selected: Option<DocTemplate>): string {
    if selected.Some? then selected.value.templateBody else ""
  }

  /** `selectedTemplate?.title`, with a missing template as the empty string. */
  function SelectedTitle(selected: Option<DocTemplate>): string {
    if selected.Some? then selected.value.title else ""
  }

  /** The argument of `sendTemplate`. */
  datatype Request = Request(to: string, subject: string, templateId: Option<string>, templateHtml: string, values: map<string, string>)

  /** How the call to `sendTemplate` ends: it throws, or resolves to a response. */
  datatype Reply = Threw | Replied(ok: bool, status: int, error: Option<string>)

  /** The request `sendByEmail` makes, or none when the recipient is rejected. */
  function SendRequest(to: string, subject: string, selected: Option<DocTemplate>, values: map<string, string>): (r: Option<Request>)
    ensures r.None? <==> !ValidRecipient(to)
    ensures r.Some? ==> r.value.to == to && r.value.subject == FinalSubject(subject, selected)
                        && r.value.templateHtml == RenderTemplate(SelectedBody(selected), values) && r.value.values == values
  {
    if !ValidRecipient(to) then None
    else
      Some(Request(to, FinalSubject(subject, selected), if selected.Some? then Some(selected.value.id) else None,
                   RenderTemplate(SelectedBody(selected), values), values))
  }

  /**
   * How `sendByEmail` ends: a rejected recipient stops with an error; a
   * response that is ok is a success, a 403 opens the mail client with the
   * final subject, any other status shows the server's error; a thrown call
   * opens the mail client with `subject || title || ''`.
   */
  function SendOutcome(to: string, subject: string, selected: Option<DocTemplate>, values: map<string, string>, reply: Reply): (o: Outcome)
    ensures !ValidRecipient(to) ==> o == Outcome(Notice("error", "Please enter a valid recipient email."), None)
    ensures ValidRecipient(to) && reply.Replied? && reply.ok ==> o.notice.kind == "success" && o.mail.None?
    ensures ValidRecipient(to) && reply.Replied? && !reply.ok && reply.status != 403 ==> o.notice.kind == "error" && o.mail.None?
    ensures o.mail.Some? <==> ValidRecipient(to) && (reply.Threw? || (!reply.ok && reply.status == 403))
    ensures o.mail.Some? ==> o.mail.value.to == to && o.mail.value.html == RenderTemplate(SelectedBody(selected), values)
  {
    var html := RenderTemplate(SelectedBody(selected), values);
    if !ValidRecipient(to) then Outcome(Notice("error", "Please enter a valid recipient email."), None)
    else match reply
      case Threw =>
        Outcome(Notice("warning", "Network error \U{2014} opened mail client as fallback."),
                Some(Mail(to, Or(subject, Or(SelectedTitle(selected), "")), html)))
      case Replied(ok, status, error) =>
        if ok then Outcome(Notice("success", "Email queued / sent (server)."), None)
        else if status == 403 then
          Outcome(Notice("warning", "Permission denied on server \U{2014} opened mail client (fallback)."),
                  Some(Mail(to, FinalSubject(subject, selected), html)))
        else Outcome(Notice("error", Or(if error.Some? then error.value else "", "Server rejected email. Not sent from client.")), None)
  }

  /** Calling `sendTemplate` from the context: a context without it makes the call throw. */
  function CallSendTemplate(provided: set<string>, reply: Reply): (r: Reply)
    ensures "sendTemplate" !in provided ==> r == Threw
    ensures "sendTemplate" in provided ==> r == reply
  {
    if "sendTemplate" in provided then reply else Threw
  }

  /**
   * The context offers no `sendTemplate`, so with a valid recipient every
   * send ends in the mail client, with the subject as typed (even a blank
   * one) or else the title.
   */
  lemma SendAlwaysOpensMailClient(to: string, subject: string, selected: Option<DocTemplate>, values: map<string, string>, reply: Reply)
    requires ValidRecipient(to)
    ensures var o := SendOutcome(to, subject, selected, values, CallSendTemplate(AuthContext.ContextKeys, reply));
            o.notice.kind == "warning" && o.mail == Some(Mail(to, Or(subject, SelectedTitle(selected)), RenderTemplate(SelectedBody(selected), values)))
  {
    AuthContext.NoSendTemplate();
    assert Or(SelectedTitle(selected), "") == SelectedTitle(selected);
  }

  /** A blank but non-empty subject is replaced by the title in the request, yet kept in the network fallback. */
  lemma BlankSubjectKeptOnFallback(to: string, subject: string, selected: Option<DocTemplate>, values: map<string, string>)
    requires ValidRecipient(to) && subject != "" && AllSpace(subject)
    ensures SendRequest(to, subject, selected, values).value.subject == Or(SelectedTitle(selected), "Document")
    ensures SendOutcome(to, subject, selected, values, Threw).mail.value.subject == subject
  {
    BlankTrim(subject);
  }

  lemma {:induction false} BlankTrim(s: string)
    requires AllSpace(s)
    ensures Trim(s) == ""
  {
    if s != [] {
      BlankTrim(s[1..]);
    }
  }

  /** The page state: the templates, the selected id, the form values, the preview and the message. */
  class DocsPage {
    var templates: seq<DocTemplate>
    var selectedId: string
    var formValues: map<string, string>
    var previewHtml: string
    var message: Option<Notice>

    /** The template list is never empty: it starts with the built-ins and is only replaced by a non-empty list. */
    predicate Valid()
      reads this
    {
      |templates| > 0
    }

    /** `selectedTemplate`: the template with the selected id, if any. */
    function Selected(): (t: Option<DocTemplate>)
      reads this
      ensures t.Some? ==> t.value in templates && t.value.id == selectedId
    {
      Find(templates, selectedId)
    }

    /** The state before the first effects; the selection effect then fills the form (`ApplySelection`). */
    constructor()
      ensures Valid() && templates == Templates && selectedId == "quotation" && Selected() == Some(Templates[0])
      ensures formValues == map[] && previewHtml == "" && message == None
    {
      templates := Templates;
      selectedId := Templates[0].id;
      formValues := map[];
      previewHtml := "";
      message := None;
    }

    /** The effect that runs when the selected template changes: fresh defaults, their preview, no message. */
    method ApplySelection(today: string)
      modifies this
      ensures templates == old(templates) && selectedId == old(selectedId)
      ensures old(Selected()).None? ==> formValues == old(formValues) && previewHtml == old(previewHtml) && message == old(message)
      ensures old(Selected()).Some? ==>
        (formValues == InitialValues(old(Selected()).value.fields, today)
         && previewHtml == RenderTemplate(old(Selected()).value.templateBody, formValues) && message == None)
    {
      var selected := Selected();
      if selected.Some? {
        var defaults := Defaults(selected.value.fields, today);
        formValues := defaults;
        previewHtml := RenderTemplate(selected.value.templateBody, defaults);
        message := None;
      }
    }

    /**
     * Choosing a template in the list. The effect depends on the selected
     * template, so it runs only when the choice changes that template: picking
     * the one already shown keeps the form as it is.
     */
    method Select(id: string, today: string)
      requires Valid()
      modifies this
      ensures Valid() && templates == old(templates) && selectedId == id
      ensures Selected() == old(Selected()) || Selected().None? ==>
        formValues == old(formValues) && previewHtml == old(previewHtml) && message == old(message)
      ensures Selected() != old(Selected()) && Selected().Some? ==>
        (formValues == InitialValues(Selected().value.fields, today)
         && previewHtml == RenderTemplate(Selected().value.templateBody, formValues) && message == None)
    {
      var before := Selected();
      selectedId := id;
      if Selected() != before {
        ApplySelection(today);
      }
    }

    /**
     * `loadTemplates`: a 2xx response whose body is a non-empty list replaces
     * the templates and selects the first; otherwise the list is kept, and
     * the built-ins are restored only when it is empty, which a valid page
     * never is.
     * A body that is not a list, or a failed fetch, is `None`.
     */
    method Load(status: int, body: Option<seq<DocTemplate>>, today: string)
      modifies this
      ensures Valid()
      ensures Ok(status) && body.Some? && |body.value| > 0 ==>
        (templates == body.value && selectedId == body.value[0].id && Selected() == Some(body.value[0])
         && formValues == InitialValues(body.value[0].fields, today)
         && previewHtml == RenderTemplate(body.value[0].templateBody, formValues) && message == None)
      ensures !(Ok(status) && body.Some? && |body.value| > 0) && old(Valid()) ==>
        (templates == old(templates) && selectedId == old(selectedId)
         && formValues == old(formValues) && previewHtml == old(previewHtml) && message == old(message))
      ensures !(Ok(status) && body.Some? && |body.value| > 0) && !old(Valid()) ==>
        templates == Templates && selectedId == "quotation"
    {
      if Ok(status) && body.Some? && |body.value| > 0 {
        templates := body.value;
        selectedId := Or(body.value[0].id, "");
        ApplySelection(today);
      } else if |templates| == 0 {
        templates := Templates;
        selectedId := Templates[0].id;
        ApplySelection(today);
      }
    }

    /** `handleChange`: only the named key changes, and the preview is the render of the new values. */
    method HandleChange(name: string, value: string)
      modifies this
      ensures formValues == old(formValues)[name := value]
      ensures forall k | k in old(formValues) && k != name :: k in formValues && formValues[k] == old(formValues)[k]
      ensures templates == old(templates) && selectedId == old(selectedId) && message == old(message)
      ensures Selected().Some? ==> previewHtml == RenderTemplate(Selected().value.templateBody, formValues)
      ensures Selected().None? ==> previewHtml == old(previewHtml)
    {
      formValues := formValues[name := value];
      var selected := Selected();
      if selected.Some? {
        previewHtml := RenderTemplate(selected.value.templateBody, formValues);
      }
    }

    /** `sendByEmail`: the request made, if any, and the message shown once the reply is in. */
    method SendByEmail(to: string, subject: string, reply: Reply) returns (request: Option<Request>, outcome: Outcome)
      modifies this
      ensures request == SendRequest(to, subject, old(Selected()), old(formValues))
      ensures outcome == SendOutcome(to, subject, old(Selected()), old(formValues), reply)
      ensures message == Some(outcome.notice)
      ensures templates == old(templates) && selectedId == old(selectedId) && formValues == old(formValues) && previewHtml == old(previewHtml)
    {
      var selected := Selected();
      request := SendRequest(to, subject, selected, formValues);
      outcome := SendOutcome(to, subject, selected, formValues, reply);
      message := Some(outcome.notice);
    }
  }

  /**
   * The page as first shown: the state the constructor sets up, then the
   * selection effect that fills the form with the first template's defaults.
   */
  method Mount(today: string) returns (p: DocsPage)
    ensures fresh(p) && p.Valid() && p.templates == Templates && p.selectedId == "quotation"
    ensures p.formValues == InitialValues(Templates[0].fields, today)
    ensures p.previewHtml == RenderTemplate(Templates[0].templateBody, p.formValues) && p.message == None
  {
    p := new DocsPage();
    p.ApplySelection(today);
  }

  /** With the built-in templates, the starting form has a value for every placeholder of the selected body. */
  lemma DefaultsCoverPlaceholders(k: nat, today: string, n: string)
    requires k < |Templates| && Mentions(Segments(Bodies[k]), n)
    ensures n in InitialValues(Templates[k].fields, today)
  {
    TemplatePlaceholders(k);
    InitialValuesKeys(Templates[k].fields, today);
    var i :| 0 <= i < |Templates[k].fields| && FieldNames(Templates[k].fields)[i] == n;
    assert Templates[k].fields[i] in Templates[k].fields;
  }
}
