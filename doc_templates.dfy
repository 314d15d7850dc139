/**
 * What the two documentation pages share: a template's fields and body, the
 * form values a template starts with, the recipient check and the
 * notices and mail-client fallbacks a send can end in.
 */
module DocTemplates {
  import opened Wrappers
  import opened JsStrings
  import opened Placeholders

  /** A form field of a template: its name (the placeholder it fills) and its input type. */
  datatype FieldSpec = FieldSpec(name: string, kind: string)

  /** A template as the pages hold it, whether built in or fetched from `/api/templates`. */
  datatype DocTemplate = DocTemplate(id: string, title: string, fields: seq<FieldSpec>, templateBody: string)

  /** A placeholder of a built-in body and the literal text that follows it. */
  datatype Gap = Gap(name: Key, after: Plain)

  /** A built-in body: literal text, then placeholders each followed by literal text. */
  datatype Body = Body(head: Plain, gaps: seq<Gap>)

  function GapSegments(gaps: seq<Gap>): (segs: seq<Segment>)
    ensures |segs| == 2 * |gaps|
    ensures forall i | 0 <= i < |gaps| :: segs[2 * i] == Field(gaps[i].name) && segs[2 * i + 1] == Lit(gaps[i].after)
  {
    if gaps == [] then []
    else [Field(gaps[0].name), Lit(gaps[0].after)] + GapSegments(gaps[1..])
  }

  /** The body as the segments the renderers work on. */
  function Segments(b: Body): (segs: seq<Segment>)
    ensures |segs| == 1 + 2 * |b.gaps| && segs[0] == Lit(b.head)
    ensures forall i | 0 <= i < |b.gaps| :: segs[2 * i + 1] == Field(b.gaps[i].name) && segs[2 * i + 2] == Lit(b.gaps[i].after)
  {
    [Lit(b.head)] + GapSegments(b.gaps)
  }

  /** The placeholder names of a body, in reading order. */
  function GapNames(b: Body): seq<string> {
    seq(|b.gaps|, i requires 0 <= i < |b.gaps| => b.gaps[i].name)
  }

  /** Even positions of a body's segments hold literal text, odd ones its placeholders in order. */
  lemma SegmentAt(b: Body, k: nat)
    requires k < |Segments(b)|
    ensures k % 2 == 0 ==> Segments(b)[k].Lit?
    ensures k % 2 == 1 ==> (k - 1) / 2 < |b.gaps| && Segments(b)[k] == Field(b.gaps[(k - 1) / 2].name)
  {
    if k % 2 == 1 {
      var i := (k - 1) / 2;
      assert 2 * i + 1 == k;
    } else if k > 0 {
      var j := k / 2 - 1;
      assert 2 * j + 2 == k;
      assert Segments(b)[2 * j + 2] == Lit(b.gaps[j].after);
    }
  }

  /** The names a body's scan replaces are exactly the names of its gaps. */
  lemma MentionsGapNames(b: Body, n: string)
    ensures Mentions(Segments(b), n) <==> n in GapNames(b)
  {
    var segs := Segments(b);
    if Mentions(segs, n) {
      var k :| 0 <= k < |segs| && segs[k].Field? && segs[k].name == n;
      SegmentAt(b, k);
      assert GapNames(b)[(k - 1) / 2] == n;
    }
    if n in GapNames(b) {
      var i :| 0 <= i < |b.gaps| && GapNames(b)[i] == n;
      assert segs[2 * i + 1].Field? && segs[2 * i + 1].name == n;
    }
  }

  /** The field names of a template, in form order. */
  function FieldNames(fields: seq<FieldSpec>): (names: seq<string>)
    ensures |names| == |fields|
    ensures forall i | 0 <= i < |fields| :: names[i] == fields[i].name
  {
    seq(|fields|, i requires 0 <= i < |fields| => fields[i].name)
  }

  /** The starting value of a field: today's date for a date field, the empty string otherwise. */
  function DefaultFor(f: FieldSpec, today: string): (v: string)
    ensures f.kind == "date" ==> v == today
    ensures f.kind != "date" ==> v == ""
  {
    if f.kind == "date" then today else ""
  }

  /** The map the `forEach` over the fields builds: each field in turn sets its own key. */
  function InitialValues(fields: seq<FieldSpec>, today: string): map<string, string>
    decreases |fields|
  {
    if fields == [] then map[]
    else
      var f := fields[|fields| - 1];
      InitialValues(fields[..|fields| - 1], today)[f.name := DefaultFor(f, today)]
  }

  /** The initial map has exactly one key per field name. */
  lemma {:induction false} InitialValuesKeys(fields: seq<FieldSpec>, today: string)
    ensures InitialValues(fields, today).Keys == set f | f in fields :: f.name
    decreases |fields|
  {
    if fields != [] {
      var init := fields[..|fields| - 1];
      InitialValuesKeys(init, today);
      assert fields == init + [fields[|fields| - 1]];
    }
  }

  /** With distinct field names, each field's key holds that field's default. */
  lemma {:induction false} InitialValuesEntry(fields: seq<FieldSpec>, today: string, i: nat)
    requires i < |fields|
    requires forall a, b | 0 <= a < b < |fields| :: fields[a].name != fields[b].name
    ensures fields[i].name in InitialValues(fields, today)
    ensures InitialValues(fields, today)[fields[i].name] == DefaultFor(fields[i], today)
    decreases |fields|
  {
    var last := |fields| - 1;
    if i < last {
      InitialValuesEntry(fields[..last], today, i);
      assert fields[i].name != fields[last].name;
    }
  }

  /** Every value a field starts with is today's date or the empty string. */
  lemma {:induction false} InitialValuesBlankOrToday(fields: seq<FieldSpec>, today: string, key: string)
    requires key in InitialValues(fields, today)
    ensures InitialValues(fields, today)[key] in {today, ""}
    decreases |fields|
  {
    var last := |fields| - 1;
    if fields[last].name != key {
      InitialValuesBlankOrToday(fields[..last], today, key);
    }
  }

  /** The `forEach` loop that builds the starting values of a template's form. */
  method Defaults(fields: seq<FieldSpec>, today: string) returns (values: map<string, string>)
    ensures values == InitialValues(fields, today)
    ensures values.Keys == set f | f in fields :: f.name
  {
    values := map[];
    var i := 0;
    while i < |fields|
      invariant 0 <= i <= |fields|
      invariant values == InitialValues(fields[..i], today)
    {
      assert fields[..i + 1][..i] == fields[..i];
      values := values[fields[i].name := DefaultFor(fields[i], today)];
      i := i + 1;
    }
    assert fields[..|fields|] == fields;
    InitialValuesKeys(fields, today);
  }

  /** `templates.find(t => t.id === id)`: the first template with that id. */
  function Find(templates: seq<DocTemplate>, id: string): (r: Option<DocTemplate>)
    ensures r.None? <==> forall i | 0 <= i < |templates| :: templates[i].id != id
    ensures r.Some? ==> r.value in templates && r.value.id == id
  {
    if templates == [] then None
    else if templates[0].id == id then Some(templates[0])
    else Find(templates[1..], id)
  }

  /** The template found is the first one carrying the id. */
  lemma {:induction false} FindFirst(templates: seq<DocTemplate>, id: string, i: nat)
    requires i < |templates| && templates[i].id == id
    requires forall j | 0 <= j < i :: templates[j].id != id
    ensures Find(templates, id) == Some(templates[i])
  {
    if i > 0 {
      FindFirst(templates[1..], id, i - 1);
    }
  }

  /** `a || b` on strings: `a` unless it is empty. */
  function Or(a: string, b: string): (r: string)
    ensures a != "" ==> r == a
    ensures a == "" ==> r == b
  {
    if a != "" then a else b
  }

  /** The recipient check both pages make before sending: non-empty and containing `@`. */
  predicate ValidRecipient(to: string) {
    to != "" && '@' in to
  }

  /** The message a page shows: its kind (`success`, `warning`, `error`) and its text. */
  datatype Notice = Notice(kind: string, text: string)

  /** A `mailto:` link opened in a new window: recipient, subject and the HTML whose text becomes the body. */
  datatype Mail = Mail(to: string, subject: string, html: string)

  /** How a send ends: the notice shown and the mail-client window opened, if any. */
  datatype Outcome = Outcome(notice: Notice, mail: Option<Mail>)

  /** Whether a 2xx status: `res.ok`. */
  predicate Ok(status: int) {
    200 <= status < 300
  }
}
