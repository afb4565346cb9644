/**
 * The zod schemas of the LabBridge app (ANGUS/lib/schemas.ts) as parsers from a JSON
 * value to a typed record. `z.object` keeps only the keys it names; a missing key, a
 * value of the wrong kind or a failed length, enum or bound check rejects the input.
 * The URL and UUID grammars behind `.url()` and `.uuid()` are parameters.
 */
module Schemas {
  import opened Wrappers
  import opened Json
  import opened Domain

  /** The string checks zod performs for `.url()` and `.uuid()`. */
  datatype Grammar = Grammar(isUrl: string -> bool, isUuid: string -> bool)

  /** A rejected input: not an object at all (zod's form error), or the top-level keys
      whose values failed, in schema order (the keys of `error.flatten().fieldErrors`). */
  datatype SchemaError = NotAnObject | InvalidFields(fields: seq<string>)

  /** `z.string()`. */
  function AsString(v: Json): (r: Option<string>)
    ensures r.Some? <==> v.JStr?
    ensures r.Some? ==> v == JStr(r.value)
  {
    if v.JStr? then Some(v.s) else None
  }

  /** `z.number()`. */
  function AsNumber(v: Json): (r: Option<real>)
    ensures r.Some? <==> v.JNum?
    ensures r.Some? ==> v == JNum(r.value)
  {
    if v.JNum? then Some(v.n) else None
  }

  /** `z.enum(["wet", "dry"])`. */
  function AsMode(v: Json): (r: Option<Mode>)
    ensures r.Some? <==> v == JStr("wet") || v == JStr("dry")
    ensures r.Some? ==> v == JStr(ModeName(r.value))
  {
    if v.JStr? then ModeFromString(v.s) else None
  }

  /** `z.array(item)`: every element must parse; the parsed elements in order. */
  function ParseList<T>(items: seq<Json>, parse: Json -> Option<T>): (r: Option<seq<T>>)
    ensures r.Some? <==> forall i :: 0 <= i < |items| ==> parse(items[i]).Some?
    ensures r.Some? ==> |r.value| == |items|
    ensures r.Some? ==> forall i :: 0 <= i < |items| ==> r.value[i] == parse(items[i]).value
  {
    if items == [] then Some([])
    else
      match (parse(items[0]), ParseList(items[1..], parse))
      case (Some(x), Some(xs)) => Some([x] + xs)
      case (None, _) => None
      case (_, None) =>
        assert forall i :: 0 <= i < |items| - 1 ==> items[1..][i] == items[i + 1];
        None
  }

  function EncodeList<T>(xs: seq<T>, encode: T -> Json): (r: seq<Json>)
    ensures |r| == |xs|
    ensures forall i :: 0 <= i < |xs| ==> r[i] == encode(xs[i])
  {
    seq(|xs|, i requires 0 <= i < |xs| => encode(xs[i]))
  }

  /** A list whose elements each read back through `parse` reads back as a whole. */
  lemma ListRoundTrip<T>(xs: seq<T>, encode: T -> Json, parse: Json -> Option<T>)
    requires forall i :: 0 <= i < |xs| ==> parse(encode(xs[i])) == Some(xs[i])
    ensures ParseList(EncodeList(xs, encode), parse) == Some(xs)
  {
    var r := ParseList(EncodeList(xs, encode), parse);
    assert r.Some?;
    assert r.value == xs;
  }

  /** `z.array(z.string())`. */
  function ParseStrings(v: Json): (r: Option<seq<string>>)
    ensures r.Some? ==> v.JArr? && v.items == EncodeList(r.value, s => JStr(s))
  {
    if v.JArr? then
      match ParseList(v.items, AsString)
      case Some(ss) =>
        assert v.items == EncodeList(ss, s => JStr(s));
        Some(ss)
      case None => None
    else None
  }

  function StringsToJson(ss: seq<string>): Json {
    JArr(EncodeList(ss, s => JStr(s)))
  }

  lemma StringsRoundTrip(ss: seq<string>)
    ensures ParseStrings(StringsToJson(ss)) == Some(ss)
  {
    ListRoundTrip(ss, s => JStr(s), AsString);
  }

  // ---------------------------------------------------------------------------
  // attachmentSchema

  datatype Attachment = Attachment(kind: string, url: string)

  /** `type: z.string().min(1)` and `url: z.string().url()`. */
  predicate ValidAttachment(g: Grammar, a: Attachment) {
    |a.kind| >= 1 && g.isUrl(a.url)
  }

  function AttachmentToJson(a: Attachment): Json {
    JObj(map["type" := JStr(a.kind), "url" := JStr(a.url)])
  }

  /** `attachmentSchema.parse(v)`: an object with a non-empty string `type` and a `url`
      string the URL check accepts; other keys are dropped. */
  function ParseAttachment(g: Grammar, v: Json): (r: Option<Attachment>)
    ensures r.Some? <==> (v.JObj? && "type" in v.fields && v.fields["type"].JStr?
      && "url" in v.fields && v.fields["url"].JStr?
      && ValidAttachment(g, Attachment(v.fields["type"].s, v.fields["url"].s)))
    ensures r.Some? ==> r.value == Attachment(v.fields["type"].s, v.fields["url"].s)
    ensures r.Some? ==> ValidAttachment(g, r.value)
  {
    if !v.JObj? then None
    else
      var kind :- Get(v.fields, "type");
      var url :- Get(v.fields, "url");
      if kind.JStr? && url.JStr? && ValidAttachment(g, Attachment(kind.s, url.s)) then
        Some(Attachment(kind.s, url.s))
      else None
  }

  /** A valid attachment reads back as itself. */
  lemma AttachmentRoundTrip(g: Grammar, a: Attachment)
    requires ValidAttachment(g, a)
    ensures ParseAttachment(g, AttachmentToJson(a)) == Some(a)
  {
  }

  /** `z.array(attachmentSchema)`. */
  function ParseAttachments(g: Grammar, items: seq<Json>): (r: Option<seq<Attachment>>)
    ensures r.Some? <==> forall i :: 0 <= i < |items| ==> ParseAttachment(g, items[i]).Some?
    ensures r.Some? ==> |r.value| == |items|
    ensures r.Some? ==> forall i :: 0 <= i < |items| ==> r.value[i] == ParseAttachment(g, items[i]).value
  {
    if items == [] then Some([])
    else
      match (ParseAttachment(g, items[0]), ParseAttachments(g, items[1..]))
      case (Some(x), Some(xs)) => Some([x] + xs)
      case (None, _) => None
      case (_, None) =>
        assert forall i :: 0 <= i < |items| - 1 ==> items[1..][i] == items[i + 1];
        None
  }

  lemma {:induction false} AttachmentsRoundTrip(g: Grammar, xs: seq<Attachment>)
    requires forall i :: 0 <= i < |xs| ==> ValidAttachment(g, xs[i])
    ensures ParseAttachments(g, EncodeList(xs, AttachmentToJson)) == Some(xs)
  {
    var items := EncodeList(xs, AttachmentToJson);
    forall i | 0 <= i < |xs|
      ensures ParseAttachment(g, items[i]) == Some(xs[i])
    {
      AttachmentRoundTrip(g, xs[i]);
    }
    assert ParseAttachments(g, items).value == xs;
  }

  // ---------------------------------------------------------------------------
  // createProjectSchema

  datatype CreateProjectInput = CreateProjectInput(name: string, description: string)

  /** `name: z.string().min(2)`, `description: z.string().min(4)`. */
  predicate ValidProject(p: CreateProjectInput) {
    |p.name| >= 2 && |p.description| >= 4
  }

  /** A string of at least `n` characters under `key`. */
  function StringAtLeast(fields: map<string, Json>, key: string, n: nat): (r: Option<string>)
    ensures r.Some? <==> key in fields && fields[key].JStr? && |fields[key].s| >= n
    ensures r.Some? ==> fields[key] == JStr(r.value)
  {
    match Get(fields, key)
    case Some(JStr(s)) => if |s| >= n then Some(s) else None
    case _ => None
  }

  /** `key` when `ok` is false: one entry of the failing-keys list. */
  function FailedKey(ok: bool, key: string): (r: seq<string>)
    ensures forall k :: k in r <==> !ok && k == key
  {
    if ok then [] else [key]
  }

  function ProjectToJson(p: CreateProjectInput): Json {
    JObj(map["name" := JStr(p.name), "description" := JStr(p.description)])
  }

  /** `createProjectSchema.safeParse(v)`. */
  function ParseCreateProject(v: Json): (r: Result<CreateProjectInput, SchemaError>)
    ensures !v.JObj? ==> r == Failure(NotAnObject)
    ensures r.Success? ==> ValidProject(r.value)
    ensures r.Success? ==> v.JObj? && Get(v.fields, "name") == Some(JStr(r.value.name))
    ensures r.Success? ==> v.JObj? && Get(v.fields, "description") == Some(JStr(r.value.description))
    ensures v.JObj? && r.Failure? ==> r.error.InvalidFields? && r.error.fields != []
    ensures v.JObj? && r.Failure? ==>
      ("name" in r.error.fields <==> StringAtLeast(v.fields, "name", 2).None?)
    ensures v.JObj? && r.Failure? ==>
      ("description" in r.error.fields <==> StringAtLeast(v.fields, "description", 4).None?)
    ensures v.JObj? ==>
      (r.Success? <==> StringAtLeast(v.fields, "name", 2).Some? && StringAtLeast(v.fields, "description", 4).Some?)
    ensures v.JObj? && r.Failure? ==> forall k :: k in r.error.fields ==> k == "name" || k == "description"
  {
    if !v.JObj? then Failure(NotAnObject)
    else
      var name := StringAtLeast(v.fields, "name", 2);
      var description := StringAtLeast(v.fields, "description", 4);
      if name.Some? && description.Some? then Success(CreateProjectInput(name.value, description.value))
      else Failure(InvalidFields(FailedKey(name.Some?, "name") + FailedKey(description.Some?, "description")))
  }

  /** A valid project reads back as itself. */
  lemma ProjectRoundTrip(p: CreateProjectInput)
    requires ValidProject(p)
    ensures ParseCreateProject(ProjectToJson(p)) == Success(p)
  {
  }

  // ---------------------------------------------------------------------------
  // createUpdateSchema

  datatype CreateUpdateInput = CreateUpdateInput(
    projectId: string,
    authorMode: Mode,
    projectDescription: string,
    messyText: string,
    attachments: seq<Attachment>)

  /** `project_id` a UUID, `project_description` at least 4 characters, `messy_text` at
      least 10, and every attachment valid. */
  predicate ValidUpdateInput(g: Grammar, u: CreateUpdateInput) {
    && g.isUuid(u.projectId)
    && |u.projectDescription| >= 4
    && |u.messyText| >= 10
    && forall i :: 0 <= i < |u.attachments| ==> ValidAttachment(g, u.attachments[i])
  }

  /** `attachments: z.array(attachmentSchema).default([])`: an absent key is `[]`. */
  function ParseAttachmentsField(g: Grammar, fields: map<string, Json>): (r: Option<seq<Attachment>>)
    ensures "attachments" !in fields ==> r == Some([])
    ensures "attachments" in fields ==>
      r == if fields["attachments"].JArr? then ParseAttachments(g, fields["attachments"].items) else None
  {
    match Get(fields, "attachments")
    case None => Some([])
    case Some(JArr(items)) => ParseAttachments(g, items)
    case Some(_) => None
  }

  function UpdateInputToJson(u: CreateUpdateInput): Json {
    JObj(map[
      "project_id" := JStr(u.projectId),
      "author_mode" := JStr(ModeName(u.authorMode)),
      "project_description" := JStr(u.projectDescription),
      "messy_text" := JStr(u.messyText),
      "attachments" := JArr(EncodeList(u.attachments, AttachmentToJson))])
  }

  /** The `project_id` check: a string the UUID check accepts. */
  function ProjectIdField(g: Grammar, fields: map<string, Json>): (r: Option<string>)
    ensures r.Some? <==> "project_id" in fields && fields["project_id"].JStr? && g.isUuid(fields["project_id"].s)
    ensures r.Some? ==> fields["project_id"] == JStr(r.value)
  {
    match Get(fields, "project_id")
    case Some(JStr(s)) => if g.isUuid(s) then Some(s) else None
    case _ => None
  }

  /** The keys `createUpdateSchema` checks. */
  const UpdateKeys: seq<string> := ["project_id", "author_mode", "project_description", "messy_text", "attachments"]

  /** The `author_mode` check: exactly "wet" or "dry". */
  function ModeField(fields: map<string, Json>): (r: Option<Mode>)
    ensures r.Some? <==> "author_mode" in fields && AsMode(fields["author_mode"]).Some?
    ensures r.Some? ==> fields["author_mode"] == JStr(ModeName(r.value))
  {
    match Get(fields, "author_mode")
    case Some(m) => AsMode(m)
    case None => None
  }

  /** The five keys are pairwise different. */
  lemma UpdateKeysDistinct()
    ensures "project_id" != "author_mode" && "project_id" != "project_description"
    ensures "project_id" != "messy_text" && "project_id" != "attachments"
    ensures "author_mode" != "project_description" && "author_mode" != "messy_text"
    ensures "author_mode" != "attachments"
    ensures "project_description" != "messy_text" && "project_description" != "attachments"
    ensures "messy_text" != "attachments"
  {
    assert "project_id"[0] == 'p' && "project_description"[0] == 'p';
    assert "author_mode"[0] == 'a' && "attachments"[0] == 'a' && "messy_text"[0] == 'm';
    assert "author_mode"[1] == 'u' && "attachments"[1] == 't';
    assert |"project_id"| == 10 && |"project_description"| == 19;
  }

  /** The failing keys, in the schema's order, given the outcome of each of the five checks. */
  function FailedUpdateKeys(idOk: bool, modeOk: bool, descriptionOk: bool, textOk: bool, attachmentsOk: bool)
    : (r: seq<string>)
    ensures forall k :: k in r ==> k in UpdateKeys
    ensures "project_id" in r <==> !idOk
    ensures "author_mode" in r <==> !modeOk
    ensures "project_description" in r <==> !descriptionOk
    ensures "messy_text" in r <==> !textOk
    ensures "attachments" in r <==> !attachmentsOk
  {
    UpdateKeysDistinct();
    FailedKey(idOk, "project_id") + FailedKey(modeOk, "author_mode")
    + FailedKey(descriptionOk, "project_description") + FailedKey(textOk, "messy_text")
    + FailedKey(attachmentsOk, "attachments")
  }

  /** The keys of `fields` that fail their check, in the schema's order. */
  function FailingUpdateKeys(g: Grammar, fields: map<string, Json>): (r: seq<string>)
    ensures forall k :: k in r ==> k in UpdateKeys
    ensures "project_id" in r <==> ProjectIdField(g, fields).None?
    ensures "author_mode" in r <==> ModeField(fields).None?
    ensures "project_description" in r <==> StringAtLeast(fields, "project_description", 4).None?
    ensures "messy_text" in r <==> StringAtLeast(fields, "messy_text", 10).None?
    ensures "attachments" in r <==> ParseAttachmentsField(g, fields).None?
  {
    FailedUpdateKeys(
      ProjectIdField(g, fields).Some?,
      ModeField(fields).Some?,
      StringAtLeast(fields, "project_description", 4).Some?,
      StringAtLeast(fields, "messy_text", 10).Some?,
      ParseAttachmentsField(g, fields).Some?)
  }

  /** `createUpdateSchema.safeParse(v)`. */
  function ParseCreateUpdate(g: Grammar, v: Json): (r: Result<CreateUpdateInput, SchemaError>)
    ensures !v.JObj? ==> r == Failure(NotAnObject)
    ensures r.Success? ==> ValidUpdateInput(g, r.value)
    ensures r.Success? ==> v.JObj? && Get(v.fields, "author_mode") == Some(JStr(ModeName(r.value.authorMode)))
    ensures r.Success? ==> v.JObj? && Get(v.fields, "messy_text") == Some(JStr(r.value.messyText))
    ensures r.Success? ==> v.JObj? && Get(v.fields, "project_description") == Some(JStr(r.value.projectDescription))
    ensures r.Success? ==> v.JObj? && Get(v.fields, "project_id") == Some(JStr(r.value.projectId))
    ensures r.Success? && "attachments" !in v.fields ==> r.value.attachments == []
    ensures r.Success? ==> v.JObj? && ParseAttachmentsField(g, v.fields) == Some(r.value.attachments)
    ensures v.JObj? ==> (r.Success? <==> FailingUpdateKeys(g, v.fields) == [])
    ensures v.JObj? && r.Failure? ==> r.error == InvalidFields(FailingUpdateKeys(g, v.fields))
    ensures v.JObj? && r.Failure? ==> r.error.InvalidFields? && r.error.fields != []
    ensures v.JObj? && r.Failure? ==>
      ("author_mode" in r.error.fields <==> !("author_mode" in v.fields && AsMode(v.fields["author_mode"]).Some?))
    ensures v.JObj? && r.Failure? ==>
      ("messy_text" in r.error.fields <==> StringAtLeast(v.fields, "messy_text", 10).None?)
  {
    if !v.JObj? then Failure(NotAnObject)
    else
      var projectId := ProjectIdField(g, v.fields);
      var mode := ModeField(v.fields);
      var description := StringAtLeast(v.fields, "project_description", 4);
      var messyText := StringAtLeast(v.fields, "messy_text", 10);
      var attachments := ParseAttachmentsField(g, v.fields);
      if projectId.Some? && mode.Some? && description.Some? && messyText.Some? && attachments.Some? then
        Success(CreateUpdateInput(projectId.value, mode.value, description.value, messyText.value, attachments.value))
      else
        Failure(InvalidFields(FailingUpdateKeys(g, v.fields)))
  }

  /** An object is accepted exactly when all five checks pass; a refused object lists
      exactly the failing keys, and only keys the schema checks. */
  lemma {:induction false} CreateUpdateAcceptsValid(g: Grammar, fields: map<string, Json>)
    ensures ParseCreateUpdate(g, JObj(fields)).Success? <==>
      && ProjectIdField(g, fields).Some?
      && "author_mode" in fields && AsMode(fields["author_mode"]).Some?
      && StringAtLeast(fields, "project_description", 4).Some?
      && StringAtLeast(fields, "messy_text", 10).Some?
      && ParseAttachmentsField(g, fields).Some?
  {
    var keys := FailingUpdateKeys(g, fields);
    if keys == [] {
      assert "project_id" !in keys && "author_mode" !in keys && "project_description" !in keys;
      assert "messy_text" !in keys && "attachments" !in keys;
    }
  }

  /** A valid update input reads back as itself. */
  lemma UpdateInputRoundTrip(g: Grammar, u: CreateUpdateInput)
    requires ValidUpdateInput(g, u)
    ensures ParseCreateUpdate(g, UpdateInputToJson(u)) == Success(u)
  {
    AttachmentsRoundTrip(g, u.attachments);
  }

  // ---------------------------------------------------------------------------
  // geminiOutputSchema

  datatype Translated = Translated(forWet: string, forDry: string)
  datatype Inputs = Inputs(samples: seq<string>, files: seq<string>, reagentsOrStrains: seq<string>)
  datatype MethodStep = MethodStep(name: string, params: map<string, string>)
  datatype Results = Results(keyNumbers: map<string, real>, notes: string)
  datatype RequestedAction = RequestedAction(ownerRole: Mode, task: string, due: Option<string>)
  datatype Handoff = Handoff(requestedActions: seq<RequestedAction>, neededFromOtherSide: seq<string>)
  datatype Structured = Structured(
    objective: string,
    inputs: Inputs,
    methods: seq<MethodStep>,
    results: Results,
    handoff: Handoff,
    tags: seq<string>)
  datatype GeminiOutput = GeminiOutput(
    title: string,
    mode: Mode,
    translated: Translated,
    structured: Structured,
    confidence: real,
    followups: seq<string>)

  /** `confidence: z.number().min(0).max(1)`, both bounds included; every other
      constraint of the schema is carried by the types above. */
  predicate ValidGeminiOutput(o: GeminiOutput) {
    0.0 <= o.confidence <= 1.0
  }

  function StringField(fields: map<string, Json>, key: string): Option<string> {
    var v :- Get(fields, key);
    AsString(v)
  }

  function ObjectField(fields: map<string, Json>, key: string): Option<map<string, Json>> {
    var v :- Get(fields, key);
    if v.JObj? then Some(v.fields) else None
  }

  /** The value under `key`, read with `parse`. */
  function Nested<T>(fields: map<string, Json>, key: string, parse: Json -> Option<T>): Option<T> {
    var v :- Get(fields, key);
    parse(v)
  }

  function StringsField(fields: map<string, Json>, key: string): Option<seq<string>> {
    var v :- Get(fields, key);
    ParseStrings(v)
  }

  /** `z.record(z.string(), z.string())`. */
  function ParseStringRecord(v: Json): (r: Option<map<string, string>>)
    ensures r.Some? <==> v.JObj? && forall k :: k in v.fields ==> v.fields[k].JStr?
    ensures r.Some? ==> r.value.Keys == v.fields.Keys
    ensures r.Some? ==> forall k :: k in r.value ==> v.fields[k] == JStr(r.value[k])
  {
    if v.JObj? && forall k :: k in v.fields ==> v.fields[k].JStr? then
      Some(map k | k in v.fields :: v.fields[k].s)
    else None
  }

  function StringRecordToJson(m: map<string, string>): Json {
    JObj(map k | k in m :: JStr(m[k]))
  }

  /** `z.record(z.string(), z.number())`. */
  function ParseNumberRecord(v: Json): (r: Option<map<string, real>>)
    ensures r.Some? <==> v.JObj? && forall k :: k in v.fields ==> v.fields[k].JNum?
    ensures r.Some? ==> r.value.Keys == v.fields.Keys
    ensures r.Some? ==> forall k :: k in r.value ==> v.fields[k] == JNum(r.value[k])
  {
    if v.JObj? && forall k :: k in v.fields ==> v.fields[k].JNum? then
      Some(map k | k in v.fields :: v.fields[k].n)
    else None
  }

  function NumberRecordToJson(m: map<string, real>): Json {
    JObj(map k | k in m :: JNum(m[k]))
  }

  lemma RecordsRoundTrip(ms: map<string, string>, mn: map<string, real>)
    ensures ParseStringRecord(StringRecordToJson(ms)) == Some(ms)
    ensures ParseNumberRecord(NumberRecordToJson(mn)) == Some(mn)
  {
    assert ParseStringRecord(StringRecordToJson(ms)).value == ms;
    assert ParseNumberRecord(NumberRecordToJson(mn)).value == mn;
  }

  function ParseMethodStep(v: Json): Option<MethodStep> {
    if !v.JObj? then None
    else
      var name :- StringField(v.fields, "name");
      var paramsJson :- Get(v.fields, "params");
      var params :- ParseStringRecord(paramsJson);
      Some(MethodStep(name, params))
  }

  function MethodStepToJson(m: MethodStep): Json {
    JObj(map["name" := JStr(m.name), "params" := StringRecordToJson(m.params)])
  }

  /** `due: z.string().nullable()`. */
  function ParseDue(v: Json): Option<Option<string>> {
    if v.JNull? then Some(None) else if v.JStr? then Some(Some(v.s)) else None
  }

  function DueToJson(due: Option<string>): Json {
    match due
    case None => JNull
    case Some(s) => JStr(s)
  }

  /** One requested action: `owner_role` is `"wet"` or `"dry"`, `task` a string and
      `due` a string or null. */
  function ParseAction(v: Json): (r: Option<RequestedAction>)
    ensures r.Some? ==> v.JObj? && "owner_role" in v.fields && "due" in v.fields
    ensures r.Some? ==> v.fields["owner_role"] == JStr(ModeName(r.value.ownerRole))
    ensures r.Some? ==> v.fields["due"] == DueToJson(r.value.due)
  {
    if !v.JObj? then None
    else
      var roleJson :- Get(v.fields, "owner_role");
      var role :- AsMode(roleJson);
      var task :- StringField(v.fields, "task");
      var dueJson :- Get(v.fields, "due");
      var due :- ParseDue(dueJson);
      Some(RequestedAction(role, task, due))
  }

  function ActionToJson(a: RequestedAction): Json {
    JObj(map["owner_role" := JStr(ModeName(a.ownerRole)), "task" := JStr(a.task), "due" := DueToJson(a.due)])
  }

  /** The `inputs` object: three string lists. */
  function ParseInputs(v: Json): Option<Inputs> {
    if !v.JObj? then None
    else
      var samples :- StringsField(v.fields, "samples");
      var files :- StringsField(v.fields, "files");
      var reagents :- StringsField(v.fields, "reagents_or_strains");
      Some(Inputs(samples, files, reagents))
  }

  function InputsToJson(i: Inputs): Json {
    JObj(map[
      "samples" := StringsToJson(i.samples),
      "files" := StringsToJson(i.files),
      "reagents_or_strains" := StringsToJson(i.reagentsOrStrains)])
  }

  /** The `methods` array: every step must parse. */
  function ParseMethods(v: Json): Option<seq<MethodStep>> {
    if v.JArr? then ParseList(v.items, ParseMethodStep) else None
  }

  /** The `results` object: a record of numbers and the notes. */
  function ParseResults(v: Json): Option<Results> {
    if !v.JObj? then None
    else
      var keyNumbers :- Nested(v.fields, "key_numbers", ParseNumberRecord);
      var notes :- StringField(v.fields, "notes");
      Some(Results(keyNumbers, notes))
  }

  function ResultsToJson(r: Results): Json {
    JObj(map["key_numbers" := NumberRecordToJson(r.keyNumbers), "notes" := JStr(r.notes)])
  }

  /** The `handoff` object: the requested actions and what is needed from the other side. */
  function ParseHandoff(v: Json): Option<Handoff> {
    if !v.JObj? then None
    else
      var actionsJson :- Get(v.fields, "requested_actions");
      var actions :- if actionsJson.JArr? then ParseList(actionsJson.items, ParseAction) else None;
      var needed :- StringsField(v.fields, "needed_from_other_side");
      Some(Handoff(actions, needed))
  }

  function HandoffToJson(h: Handoff): Json {
    JObj(map[
      "requested_actions" := JArr(EncodeList(h.requestedActions, ActionToJson)),
      "needed_from_other_side" := StringsToJson(h.neededFromOtherSide)])
  }

  function ParseStructured(v: Json): Option<Structured> {
    if !v.JObj? then None
    else
      var objective := StringField(v.fields, "objective");
      var inputs := Nested(v.fields, "inputs", ParseInputs);
      var methods := Nested(v.fields, "methods", ParseMethods);
      var results := Nested(v.fields, "results", ParseResults);
      var handoff := Nested(v.fields, "handoff", ParseHandoff);
      var tags := StringsField(v.fields, "tags");
      if && objective.Some? && inputs.Some? && methods.Some? && results.Some?
         && handoff.Some? && tags.Some?
      then
        Some(Structured(objective.value, inputs.value, methods.value, results.value, handoff.value,
          tags.value))
      else None
  }

  function StructuredToJson(s: Structured): Json {
    JObj(map[
      "objective" := JStr(s.objective),
      "inputs" := InputsToJson(s.inputs),
      "methods" := JArr(EncodeList(s.methods, MethodStepToJson)),
      "results" := ResultsToJson(s.results),
      "handoff" := HandoffToJson(s.handoff),
      "tags" := StringsToJson(s.tags)])
  }

  function ParseTranslated(v: Json): Option<Translated> {
    if !v.JObj? then None
    else
      var forWet :- StringField(v.fields, "for_wet");
      var forDry :- StringField(v.fields, "for_dry");
      Some(Translated(forWet, forDry))
  }

  function TranslatedToJson(t: Translated): Json {
    JObj(map["for_wet" := JStr(t.forWet), "for_dry" := JStr(t.forDry)])
  }

  /** `geminiOutputSchema.parse(v)`, with `None` where zod throws. */
  function ParseGeminiOutput(v: Json): (r: Option<GeminiOutput>)
    ensures r.Some? ==> ValidGeminiOutput(r.value)
    ensures r.Some? ==> v.JObj? && "confidence" in v.fields && v.fields["confidence"] == JNum(r.value.confidence)
    ensures (v.JObj? && "confidence" in v.fields && v.fields["confidence"].JNum?
      && !(0.0 <= v.fields["confidence"].n <= 1.0)) ==> r.None?
  {
    if !v.JObj? then None
    else
      var title := StringField(v.fields, "title");
      var mode := Nested(v.fields, "mode", AsMode);
      var translated := Nested(v.fields, "translated", ParseTranslated);
      var structured := Nested(v.fields, "structured", ParseStructured);
      var confidence := Nested(v.fields, "confidence", AsNumber);
      var followups := StringsField(v.fields, "followups");
      if && title.Some? && mode.Some? && translated.Some? && structured.Some?
         && confidence.Some? && followups.Some? && 0.0 <= confidence.value <= 1.0
      then
        Some(GeminiOutput(title.value, mode.value, translated.value, structured.value, confidence.value,
          followups.value))
      else None
  }

  function GeminiOutputToJson(o: GeminiOutput): Json {
    JObj(map[
      "title" := JStr(o.title),
      "mode" := JStr(ModeName(o.mode)),
      "translated" := TranslatedToJson(o.translated),
      "structured" := StructuredToJson(o.structured),
      "confidence" := JNum(o.confidence),
      "followups" := StringsToJson(o.followups)])
  }

  lemma MethodsRoundTrip(ms: seq<MethodStep>)
    ensures ParseList(EncodeList(ms, MethodStepToJson), ParseMethodStep) == Some(ms)
  {
    forall i | 0 <= i < |ms|
      ensures ParseMethodStep(MethodStepToJson(ms[i])) == Some(ms[i])
    {
      RecordsRoundTrip(ms[i].params, map[]);
    }
    ListRoundTrip(ms, MethodStepToJson, ParseMethodStep);
  }

  lemma ActionsRoundTrip(actions: seq<RequestedAction>)
    ensures ParseList(EncodeList(actions, ActionToJson), ParseAction) == Some(actions)
  {
    forall i | 0 <= i < |actions|
      ensures ParseAction(ActionToJson(actions[i])) == Some(actions[i])
    {
    }
    ListRoundTrip(actions, ActionToJson, ParseAction);
  }

  lemma InputsRoundTrip(i: Inputs)
    ensures ParseInputs(InputsToJson(i)) == Some(i)
  {
    StringsRoundTrip(i.samples);
    StringsRoundTrip(i.files);
    StringsRoundTrip(i.reagentsOrStrains);
  }

  lemma ResultsRoundTrip(r: Results)
    ensures ParseResults(ResultsToJson(r)) == Some(r)
  {
    RecordsRoundTrip(map[], r.keyNumbers);
    assert Nested(ResultsToJson(r).fields, "key_numbers", ParseNumberRecord) == Some(r.keyNumbers);
  }

  lemma HandoffRoundTrip(h: Handoff)
    ensures ParseHandoff(HandoffToJson(h)) == Some(h)
  {
    ActionsRoundTrip(h.requestedActions);
    StringsRoundTrip(h.neededFromOtherSide);
  }

  /** The entries of the encoded `structured` object, one key at a time. */
  lemma StructuredEntries(s: Structured)
    ensures var f := StructuredToJson(s).fields;
      && Get(f, "objective") == Some(JStr(s.objective))
      && Get(f, "inputs") == Some(InputsToJson(s.inputs))
      && Get(f, "methods") == Some(JArr(EncodeList(s.methods, MethodStepToJson)))
      && Get(f, "results") == Some(ResultsToJson(s.results))
      && Get(f, "handoff") == Some(HandoffToJson(s.handoff))
      && Get(f, "tags") == Some(StringsToJson(s.tags))
  {
  }

  lemma StructuredRoundTrip(s: Structured)
    ensures ParseStructured(StructuredToJson(s)) == Some(s)
  {
    var f := StructuredToJson(s).fields;
    StructuredEntries(s);
    InputsRoundTrip(s.inputs);
    MethodsRoundTrip(s.methods);
    ResultsRoundTrip(s.results);
    HandoffRoundTrip(s.handoff);
    StringsRoundTrip(s.tags);
    assert StringField(f, "objective") == Some(s.objective);
    assert Nested(f, "inputs", ParseInputs) == Some(s.inputs);
    assert Nested(f, "methods", ParseMethods) == Some(s.methods);
    assert Nested(f, "results", ParseResults) == Some(s.results);
    assert Nested(f, "handoff", ParseHandoff) == Some(s.handoff);
    assert StringsField(f, "tags") == Some(s.tags);
  }

  /** The entries of the encoded output object, one key at a time. */
  lemma GeminiOutputEntries(o: GeminiOutput)
    ensures var f := GeminiOutputToJson(o).fields;
      && Get(f, "title") == Some(JStr(o.title))
      && Get(f, "mode") == Some(JStr(ModeName(o.mode)))
      && Get(f, "translated") == Some(TranslatedToJson(o.translated))
      && Get(f, "structured") == Some(StructuredToJson(o.structured))
      && Get(f, "confidence") == Some(JNum(o.confidence))
      && Get(f, "followups") == Some(StringsToJson(o.followups))
  {
  }

  /** An output whose confidence lies in [0, 1] reads back as itself. */
  lemma GeminiOutputRoundTrip(o: GeminiOutput)
    requires ValidGeminiOutput(o)
    ensures ParseGeminiOutput(GeminiOutputToJson(o)) == Some(o)
  {
    var f := GeminiOutputToJson(o).fields;
    GeminiOutputEntries(o);
    assert StringField(f, "title") == Some(o.title);
    assert Nested(f, "mode", AsMode) == Some(o.mode);
    assert Nested(f, "translated", ParseTranslated) == Some(o.translated);
    StructuredRoundTrip(o.structured);
    assert Nested(f, "structured", ParseStructured) == Some(o.structured);
    assert Nested(f, "confidence", AsNumber) == Some(o.confidence);
    StringsRoundTrip(o.followups);
    assert StringsField(f, "followups") == Some(o.followups);
  }
}
