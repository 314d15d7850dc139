/**
 * What the backend handlers share: the request body of a send, the replies
 * they answer with, and the stored template records they look up.
 */
module Http {
  import opened Wrappers
  import opened EmailService
  import TemplateRender

  /**
   * The JSON fields a send request may carry; `None` is an absent field.
   * The values object maps keys to JSON values.
   */
  datatype SendBody = SendBody(
    to: Option<string>,
    subject: Option<string>,
    templateId: Option<string>,
    values: Option<map<string, TemplateRender.Value>>,
    html: Option<string>,
    text: Option<string>)

  /** A reply body. */
  datatype Body =
    | ErrorJson(error: string)                            // `{ ok: false, error }`
    | FailJson(message: string)                           // `{ ok: false, message }`
    | SentJson(message: string, previewUrl: Option<string>) // `{ ok: true, message, previewUrl }`
    | InfoJson(info: Info)                                // `{ ok: true, info }`
    | ErrorPage(message: string)                          // Express's page for an uncaught error

  datatype Reply = Reply(status: int, body: Body)

  /** A reply and the message handed to the mailer, if any. */
  datatype Outcome = Outcome(reply: Reply, sent: Option<MailRequest>)

  /** A template record: a logical id, a title and a body with placeholders. */
  datatype StoredTemplate = StoredTemplate(id: string, title: string, templateBody: string)

  /** `values || {}`. */
  function ValuesOrEmpty(values: Option<map<string, TemplateRender.Value>>): (m: map<string, TemplateRender.Value>)
    ensures values.None? ==> m == map[]
    ensures values.Some? ==> m == values.value
  {
    if values.Some? then values.value else map[]
  }

  /** A recipient that is present, non-empty and holds `@`. */
  predicate RecipientWithAt(to: Option<string>) {
    to.Some? && HasAt(to.value)
  }

  /** The first template with the given id, as `find` and `findOne` return it. */
  function FindById(templates: seq<StoredTemplate>, id: string): (r: Option<StoredTemplate>)
    ensures r.None? <==> forall k :: 0 <= k < |templates| ==> templates[k].id != id
    ensures r.Some? ==> exists k :: 0 <= k < |templates| && templates[k] == r.value
                                    && r.value.id == id
                                    && forall j :: 0 <= j < k ==> templates[j].id != id
  {
    if templates == [] then None
    else if templates[0].id == id then Some(templates[0])
    else
      var r := FindById(templates[1..], id);
      FirstMatchShift(templates, id, r);
      r
  }

  lemma FirstMatchShift(templates: seq<StoredTemplate>, id: string, r: Option<StoredTemplate>)
    requires templates != [] && templates[0].id != id
    requires r.Some? ==> exists k :: 0 <= k < |templates[1..]| && templates[1..][k] == r.value
                                     && r.value.id == id
                                     && forall j :: 0 <= j < k ==> templates[1..][j].id != id
    ensures r.Some? ==> exists k :: 0 <= k < |templates| && templates[k] == r.value
                                    && r.value.id == id
                                    && forall j :: 0 <= j < k ==> templates[j].id != id
  {
    if r.Some? {
      var k :| 0 <= k < |templates[1..]| && templates[1..][k] == r.value
               && r.value.id == id && forall j :: 0 <= j < k ==> templates[1..][j].id != id;
      assert templates[k + 1] == r.value;
      forall j | 0 <= j < k + 1 ensures templates[j].id != id {
        if j > 0 { assert templates[j] == templates[1..][j - 1]; }
      }
    }
  }

  /** `info.previewUrl` when it is a non-empty string, and nothing otherwise. */
  function TruthyPreview(info: Info): (p: Option<string>)
    ensures p.Some? <==> Truthy(info.previewUrl)
    ensures p.Some? ==> p == info.previewUrl
  {
    if Truthy(info.previewUrl) then info.previewUrl else None
  }
}
