/**
 * The "new update" form of the LabBridge app (ANGUS/components/new-update-form.tsx):
 * the attachment-list editors, the filter applied at submit time, the submit-enabled
 * condition, and the form's state across one submission.
 */
module NewUpdateForm {
  import opened Wrappers
  import opened Json
  import opened Domain
  import Seqs
  import Schemas

  /** `{ type: string; url: string }`: the same record the API schema reads. */
  type FormAttachment = Schemas.Attachment

  /** `keyof Attachment`. */
  datatype AttachmentKey = TypeKey | UrlKey

  /** `{ ...item, [key]: value }`. */
  function SetKey(a: FormAttachment, key: AttachmentKey, value: string): (r: FormAttachment)
    ensures key == TypeKey ==> r.kind == value && r.url == a.url
    ensures key == UrlKey ==> r.url == value && r.kind == a.kind
  {
    match key
    case TypeKey => a.(kind := value)
    case UrlKey => a.(url := value)
  }

  /** `updateAttachment(index, key, value)`: entry `index` gets the new value under `key`;
      the length and every other entry stay the same (an out-of-range index changes nothing). */
  function UpdateAttachment(xs: seq<FormAttachment>, index: int, key: AttachmentKey, value: string): (r: seq<FormAttachment>)
    ensures |r| == |xs|
    ensures forall i :: 0 <= i < |xs| && i != index ==> r[i] == xs[i]
    ensures 0 <= index < |xs| ==> r[index] == SetKey(xs[index], key, value)
    ensures !(0 <= index < |xs|) ==> r == xs
  {
    seq(|xs|, i requires 0 <= i < |xs| => if i == index then SetKey(xs[i], key, value) else xs[i])
  }

  const EmptyAttachment := Schemas.Attachment("", "")

  /** `addAttachment`: one more entry, blank, at the end. */
  function AddAttachment(xs: seq<FormAttachment>): (r: seq<FormAttachment>)
    ensures |r| == |xs| + 1 && r[..|xs|] == xs && r[|xs|] == EmptyAttachment
  {
    xs + [EmptyAttachment]
  }

  /** `removeAttachment(index)`: `prev.filter((_, i) => i !== index)`. */
  function RemoveAttachment(xs: seq<FormAttachment>, index: int): (r: seq<FormAttachment>)
    ensures 0 <= index < |xs| ==> r == xs[..index] + xs[index + 1..]
    ensures 0 <= index < |xs| ==> |r| == |xs| - 1
    ensures !(0 <= index < |xs|) ==> r == xs
  {
    Seqs.WithoutPositionSpec(xs, index, 0);
    Seqs.WithoutPosition(xs, index, 0)
  }

  /** `item.type && item.url`. */
  predicate Complete(a: FormAttachment) {
    a.kind != "" && a.url != ""
  }

  /** The attachments sent with the request: the complete entries, in order. */
  function SubmittedAttachments(xs: seq<FormAttachment>): (r: seq<FormAttachment>)
    ensures Seqs.IsSubsequence(r, xs)
    ensures forall i :: 0 <= i < |r| ==> Complete(r[i])
    ensures forall a :: a in r <==> a in xs && Complete(a)
    ensures forall a :: multiset(r)[a] == if Complete(a) then multiset(xs)[a] else 0
  {
    Seqs.Filter(xs, Complete)
  }

  /** `disabled={!messyText || loading}`, negated. */
  predicate SubmitEnabled(messyText: string, loading: bool) {
    messyText != "" && !loading
  }

  /** The JSON body `handleSubmit` posts. */
  function RequestBody(projectId: string, mode: Mode, projectDescription: string, messyText: string,
                       attachments: seq<FormAttachment>): Json
  {
    JObj(map[
      "project_id" := JStr(projectId),
      "author_mode" := JStr(ModeName(mode)),
      "project_description" := JStr(projectDescription),
      "messy_text" := JStr(messyText),
      "attachments" := JArr(Schemas.EncodeList(SubmittedAttachments(attachments), Schemas.AttachmentToJson))])
  }

  /** A body built from a UUID project id, a description of at least 4 characters, a
      text of at least 10, and attachments whose complete entries have URLs the URL check
      accepts, passes the API's schema with exactly those values and the complete entries. */
  lemma RequestBodyAccepted(g: Schemas.Grammar, projectId: string, mode: Mode, projectDescription: string,
                            messyText: string, attachments: seq<FormAttachment>)
    requires g.isUuid(projectId) && |projectDescription| >= 4 && |messyText| >= 10
    requires forall a :: a in attachments && Complete(a) ==> g.isUrl(a.url)
    ensures Schemas.ParseCreateUpdate(g, RequestBody(projectId, mode, projectDescription, messyText, attachments))
      == Success(Schemas.CreateUpdateInput(projectId, mode, projectDescription, messyText,
        SubmittedAttachments(attachments)))
  {
    var sent := SubmittedAttachments(attachments);
    var input := Schemas.CreateUpdateInput(projectId, mode, projectDescription, messyText, sent);
    assert Schemas.ValidUpdateInput(g, input);
    assert RequestBody(projectId, mode, projectDescription, messyText, attachments) == Schemas.UpdateInputToJson(input);
    Schemas.UpdateInputRoundTrip(g, input);
  }

  /** The button only checks that the text is not empty: every enabled submit with a
      text shorter than 10 characters is still refused by the API's schema. */
  lemma EnabledSubmitCanBeRefused(g: Schemas.Grammar, projectId: string, mode: Mode, projectDescription: string,
                                  messyText: string, attachments: seq<FormAttachment>)
    requires 0 < |messyText| < 10
    ensures SubmitEnabled(messyText, false)
    ensures Schemas.ParseCreateUpdate(g, RequestBody(projectId, mode, projectDescription, messyText, attachments)).Failure?
  {
  }

  /** How the request ended: the response's `ok` flag and parsed payload, an `Error`
      thrown on the way (network failure, unreadable body), or some other thrown value. */
  datatype SubmitOutcome = Responded(ok: bool, payload: Json) | ThrewError(message: string) | ThrewOther

  /** JavaScript truthiness of a JSON value (`undefined` is an absent key). */
  predicate Truthy(v: Json) {
    match v
    case JNull => false
    case JBool(b) => b
    case JNum(n) => n != 0.0
    case JStr(s) => s != ""
    case JArr(_) => true
    case JObj(_) => true
  }

  /** `new Error(payload.error || "Failed to create update.").message`; `None` when the
      payload is `null`, where reading `payload.error` throws a `TypeError` instead. */
  function ErrorMessage(payload: Json, render: Json -> string): (m: Option<string>)
    ensures m.None? <==> payload.JNull?
    ensures (payload.JObj? && "error" in payload.fields && payload.fields["error"].JStr?
      && payload.fields["error"].s != "") ==> m == Some(payload.fields["error"].s)
    ensures !payload.JNull? && !(payload.JObj? && "error" in payload.fields && Truthy(payload.fields["error"])) ==>
      m == Some("Failed to create update.")
  {
    if payload.JNull? then None
    else if payload.JObj? && "error" in payload.fields && Truthy(payload.fields["error"]) then
      Some(Show(payload.fields["error"], render))
    else Some("Failed to create update.")
  }

  /** `/app/updates/${payload.id}`; an absent id prints as `undefined`; `None` when the
      payload is `null`, where reading `payload.id` throws a `TypeError` instead. */
  function UpdatePage(payload: Json, render: Json -> string): (path: Option<string>)
    ensures path.None? <==> payload.JNull?
    ensures payload.JObj? && "id" in payload.fields && payload.fields["id"].JStr? ==>
      path == Some("/app/updates/" + payload.fields["id"].s)
    ensures !payload.JNull? && !(payload.JObj? && "id" in payload.fields) ==> path == Some("/app/updates/undefined")
  {
    if payload.JNull? then None
    else if payload.JObj? && "id" in payload.fields then Some("/app/updates/" + Show(payload.fields["id"], render))
    else Some("/app/updates/undefined")
  }

  /** The component's state. */
  class Form {
    const projectId: string
    const projectDescription: string
    var authorMode: Mode
    var messyText: string
    var attachments: seq<FormAttachment>
    var status: Option<string>
    var loading: bool

    constructor (projectId: string, projectDescription: string)
      ensures this.projectId == projectId && this.projectDescription == projectDescription
      ensures authorMode == Wet && messyText == "" && attachments == [] && status.None? && !loading
    {
      this.projectId := projectId;
      this.projectDescription := projectDescription;
      authorMode := Wet;
      messyText := "";
      attachments := [];
      status := None;
      loading := false;
    }

    method EditAttachment(index: int, key: AttachmentKey, value: string)
      modifies this
      ensures attachments == UpdateAttachment(old(attachments), index, key, value)
      ensures messyText == old(messyText) && status == old(status) && loading == old(loading)
      ensures authorMode == old(authorMode)
    {
      attachments := UpdateAttachment(attachments, index, key, value);
    }

    method AppendAttachment()
      modifies this
      ensures attachments == AddAttachment(old(attachments))
      ensures messyText == old(messyText) && status == old(status) && loading == old(loading)
      ensures authorMode == old(authorMode)
    {
      attachments := AddAttachment(attachments);
    }

    method DropAttachment(index: int)
      modifies this
      ensures attachments == RemoveAttachment(old(attachments), index)
      ensures messyText == old(messyText) && status == old(status) && loading == old(loading)
      ensures authorMode == old(authorMode)
    {
      attachments := RemoveAttachment(attachments, index);
    }

    /** `handleSubmit`: clears the status and sets `loading` while the request runs, posts
        the body, then either navigates to the new update's page (returned) or records the
        error message; `loading` is false again at the end. The fields are not changed.
        `typeError(key)` is the message of the `TypeError` thrown by reading property `key`
        of a `null` payload, which the `catch` records like any other `Error`. */
    method Submit(outcome: SubmitOutcome, render: Json -> string, typeError: string -> string)
      returns (body: Json, navigate: Option<string>)
      modifies this
      ensures body == RequestBody(projectId, authorMode, projectDescription, messyText, attachments)
      ensures !loading
      ensures attachments == old(attachments) && messyText == old(messyText) && authorMode == old(authorMode)
      ensures outcome.Responded? && outcome.ok && !outcome.payload.JNull? ==>
        navigate == UpdatePage(outcome.payload, render) && navigate.Some? && status.None?
      ensures outcome.Responded? && outcome.ok && outcome.payload.JNull? ==>
        navigate.None? && status == Some(typeError("id"))
      ensures outcome.Responded? && !outcome.ok && !outcome.payload.JNull? ==>
        navigate.None? && status == ErrorMessage(outcome.payload, render) && status.Some?
      ensures outcome.Responded? && !outcome.ok && outcome.payload.JNull? ==>
        navigate.None? && status == Some(typeError("error"))
      ensures outcome.ThrewError? ==> navigate.None? && status == Some(outcome.message)
      ensures outcome.ThrewOther? ==> navigate.None? && status == Some("Something went wrong.")
    {
      loading := true;
      status := None;
      body := RequestBody(projectId, authorMode, projectDescription, messyText, attachments);
      navigate := None;
      match outcome {
        case Responded(ok, payload) =>
          if !ok {
            match ErrorMessage(payload, render) {
              case Some(message) => status := Some(message);
              case None => status := Some(typeError("error"));
            }
          } else {
            match UpdatePage(payload, render) {
              case Some(path) => navigate := Some(path);
              case None => status := Some(typeError("id"));
            }
          }
        case ThrewError(message) =>
          status := Some(message);
        case ThrewOther =>
          status := Some("Something went wrong.");
      }
      loading := false;
    }
  }
}
