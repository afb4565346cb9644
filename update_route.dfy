/**
 * `POST /api/updates` of the LabBridge app (ANGUS/app/api/updates/route.ts): check the
 * caller, validate the body, insert a row with status "processing", ask Gemini for a
 * translation, then move the row to "ready" or "error". The caller's identity, the
 * database's answers and Gemini's answer are inputs; the `updates` table is a map
 * from row id to row.
 */
module UpdateRoute {
  import opened Wrappers
  import opened Json
  import opened Domain
  import opened Schemas

  /** One row of the `updates` table; the columns the handler never sets are left out,
      and a column that is still null is `None`. */
  datatype UpdateRow = UpdateRow(
    projectId: string,
    authorId: string,
    authorMode: Mode,
    projectDescription: string,
    messyText: string,
    attachments: seq<Attachment>,
    status: Status,
    title: Option<string>,
    structuredJson: Option<Structured>,
    translationForWet: Option<string>,
    translationForDry: Option<string>,
    confidence: Option<real>,
    followups: Option<seq<string>>,
    errorMessage: Option<string>)

  /** The columns the author supplied, which no later step may change. */
  predicate SameSubmission(a: UpdateRow, b: UpdateRow) {
    && a.projectId == b.projectId
    && a.authorId == b.authorId
    && a.authorMode == b.authorMode
    && a.projectDescription == b.projectDescription
    && a.messyText == b.messyText
    && a.attachments == b.attachments
  }

  /** What each status promises about the other columns: a processing row has no AI
      output yet, a ready row has all of it with a confidence in [0, 1], and an error row
      has a message. */
  predicate WellFormed(row: UpdateRow) {
    && (row.status == Processing ==>
      row.title.None? && row.translationForWet.None? && row.translationForDry.None? && row.errorMessage.None?)
    && (row.status == Ready ==>
      && row.title.Some? && row.structuredJson.Some? && row.translationForWet.Some?
      && row.translationForDry.Some? && row.followups.Some?
      && row.confidence.Some? && 0.0 <= row.confidence.value <= 1.0)
    && (row.status == Error ==> row.errorMessage.Some?)
  }

  /** The row the handler inserts: the validated input, the caller as author, status
      "processing". */
  function InitialRow(input: CreateUpdateInput, authorId: string): (r: UpdateRow)
    ensures WellFormed(r) && r.status == Processing
    ensures r.authorId == authorId && r.projectId == input.projectId && r.authorMode == input.authorMode
    ensures r.messyText == input.messyText && r.projectDescription == input.projectDescription
    ensures r.attachments == input.attachments
  {
    UpdateRow(input.projectId, authorId, input.authorMode, input.projectDescription, input.messyText,
      input.attachments, Processing, None, None, None, None, None, None, None)
  }

  /** The "ready" update: title, structured record, both translations, confidence and
      follow-ups copied from the AI output. */
  function ReadyRow(row: UpdateRow, out: GeminiOutput): (r: UpdateRow)
    requires ValidGeminiOutput(out)
    ensures WellFormed(r) && r.status == Ready && SameSubmission(r, row)
    ensures r.title == Some(out.title) && r.structuredJson == Some(out.structured)
    ensures r.translationForWet == Some(out.translated.forWet)
    ensures r.translationForDry == Some(out.translated.forDry)
    ensures r.confidence == Some(out.confidence) && r.followups == Some(out.followups)
  {
    row.(title := Some(out.title), structuredJson := Some(out.structured),
      translationForWet := Some(out.translated.forWet), translationForDry := Some(out.translated.forDry),
      confidence := Some(out.confidence), followups := Some(out.followups), status := Ready)
  }

  /** The "error" update: status and message, nothing else. */
  function ErrorRow(row: UpdateRow, message: string): (r: UpdateRow)
    ensures WellFormed(r) && r.status == Error && SameSubmission(r, row)
    ensures r.errorMessage == Some(message)
    ensures r.title == row.title && r.confidence == row.confidence
    ensures r.structuredJson == row.structuredJson && r.followups == row.followups
    ensures r.translationForWet == row.translationForWet && r.translationForDry == row.translationForDry
  {
    row.(status := Error, errorMessage := Some(message))
  }

  /** `{ data: inserted, error: insertError }` of the insert. */
  datatype InsertOutcome = InsertOk(id: string) | InsertError(message: string) | InsertNoRow

  /** How `translateUpdate` ended. It returns `geminiOutputSchema.parse(...)`, so a
      returned output satisfies the schema. */
  datatype AiOutcome = AiOk(output: GeminiOutput) | AiThrewError(message: string) | AiThrewOther

  /** `{ error: updateError }` of the "ready" update. */
  datatype WriteOutcome = WriteOk | WriteError(message: string)

  datatype PostResponse =
    | Unauthorized
    | BadRequest(issues: SchemaError)
    | InsertFailed(message: string)
    | Created(id: string, status: Status, error: Option<string>)

  function StatusCode(r: PostResponse): (code: int)
    ensures r.Unauthorized? <==> code == 401
    ensures r.BadRequest? <==> code == 400
    ensures r.InsertFailed? <==> code == 500
    ensures r.Created? <==> code == 201
  {
    match r
    case Unauthorized => 401
    case BadRequest(_) => 400
    case InsertFailed(_) => 500
    case Created(_, _, _) => 201
  }

  /** `insertError?.message || "Insert failed"`: an empty message counts as none. */
  function InsertErrorMessage(insert: InsertOutcome): (m: string)
    requires !insert.InsertOk?
    ensures m != ""
    ensures insert.InsertError? && insert.message != "" ==> m == insert.message
    ensures !(insert.InsertError? && insert.message != "") ==> m == "Insert failed"
  {
    if insert.InsertError? && insert.message != "" then insert.message else "Insert failed"
  }

  /** The message the `catch` block records, or `None` when the row became ready. */
  function FailureMessage(ai: AiOutcome, write: WriteOutcome): (m: Option<string>)
    ensures m.None? <==> ai.AiOk? && write.WriteOk?
    ensures ai.AiThrewOther? ==> m == Some("Gemini processing failed")
    ensures ai.AiThrewError? ==> m == Some(ai.message)
    ensures ai.AiOk? && write.WriteError? ==> m == Some(write.message)
  {
    match ai
    case AiOk(_) => if write.WriteOk? then None else Some(write.message)
    case AiThrewError(message) => Some(message)
    case AiThrewOther => Some("Gemini processing failed")
  }

  /** The `updates` table. */
  class UpdatesTable {
    var rows: map<string, UpdateRow>

    predicate Valid()
      reads this
    {
      forall id :: id in rows ==> WellFormed(rows[id])
    }

    constructor ()
      ensures Valid() && rows == map[]
    {
      rows := map[];
    }

    /** `.insert(row)` under the id the database chose. */
    method Insert(id: string, row: UpdateRow)
      requires Valid() && WellFormed(row)
      modifies this
      ensures Valid()
      ensures rows == old(rows)[id := row]
    {
      rows := rows[id := row];
    }

    /** `.update({... status: "ready"}).eq("id", id)`: applied when the database reports
        no error, which is then `None`; otherwise nothing changes and the message is returned. */
    method SetReady(id: string, out: GeminiOutput, outcome: WriteOutcome) returns (err: Option<string>)
      requires Valid() && ValidGeminiOutput(out)
      modifies this
      ensures Valid()
      ensures outcome.WriteError? ==> err == Some(outcome.message) && rows == old(rows)
      ensures outcome.WriteOk? && id in old(rows) ==> err.None? && rows == old(rows)[id := ReadyRow(old(rows)[id], out)]
      ensures outcome.WriteOk? && id !in old(rows) ==> err.None? && rows == old(rows)
    {
      if outcome.WriteError? {
        return Some(outcome.message);
      }
      if id in rows {
        rows := rows[id := ReadyRow(rows[id], out)];
      }
      err := None;
    }

    /** `.update({ status: "error", error_message: message }).eq("id", id)`. */
    method SetError(id: string, message: string)
      requires Valid()
      modifies this
      ensures Valid()
      ensures id in old(rows) ==> rows == old(rows)[id := ErrorRow(old(rows)[id], message)]
      ensures id !in old(rows) ==> rows == old(rows)
    {
      if id in rows {
        rows := rows[id := ErrorRow(rows[id], message)];
      }
    }
  }

  /** `POST(request)`. `caller` is the authenticated user's id, if any; `insert`, `ai`
      and `write` are the answers of the insert, of `translateUpdate` and of the "ready"
      update. */
  method Post(table: UpdatesTable, caller: Option<string>, g: Grammar, body: Json,
              insert: InsertOutcome, ai: AiOutcome, write: WriteOutcome) returns (r: PostResponse)
    requires table.Valid()
    requires ai.AiOk? ==> ValidGeminiOutput(ai.output)
    modifies table
    ensures table.Valid()
    ensures caller.None? ==> r == Unauthorized && table.rows == old(table.rows)
    ensures caller.Some? && ParseCreateUpdate(g, body).Failure? ==>
      r == BadRequest(ParseCreateUpdate(g, body).error) && table.rows == old(table.rows)
    ensures caller.Some? && ParseCreateUpdate(g, body).Success? && !insert.InsertOk? ==>
      r == InsertFailed(InsertErrorMessage(insert)) && table.rows == old(table.rows)
    ensures caller.Some? && ParseCreateUpdate(g, body).Success? && insert.InsertOk? ==>
      var initial := InitialRow(ParseCreateUpdate(g, body).value, caller.value);
      match FailureMessage(ai, write)
      case None =>
        r == Created(insert.id, Ready, None)
        && table.rows == old(table.rows)[insert.id := ReadyRow(initial, ai.output)]
      case Some(m) =>
        r == Created(insert.id, Error, Some(m))
        && table.rows == old(table.rows)[insert.id := ErrorRow(initial, m)]
  {
    if caller.None? {
      return Unauthorized;
    }
    var parsed := ParseCreateUpdate(g, body);
    if parsed.Failure? {
      return BadRequest(parsed.error);
    }
    if !insert.InsertOk? {
      return InsertFailed(InsertErrorMessage(insert));
    }
    var initial := InitialRow(parsed.value, caller.value);
    table.Insert(insert.id, initial);
    assert table.rows[insert.id] == initial;
    r := Finalise(table, insert.id, ai, write);
  }

  /** The `try`/`catch` after a successful insert: the row `id` becomes "ready" with the
      AI output when the translation and the write both succeed, and "error" with the
      message of whatever failed otherwise; either way the answer is 201. */
  method Finalise(table: UpdatesTable, id: string, ai: AiOutcome, write: WriteOutcome) returns (r: PostResponse)
    requires table.Valid() && id in table.rows
    requires ai.AiOk? ==> ValidGeminiOutput(ai.output)
    modifies table
    ensures table.Valid()
    ensures match FailureMessage(ai, write)
      case None =>
        r == Created(id, Ready, None)
        && table.rows == old(table.rows)[id := ReadyRow(old(table.rows)[id], ai.output)]
      case Some(m) =>
        r == Created(id, Error, Some(m))
        && table.rows == old(table.rows)[id := ErrorRow(old(table.rows)[id], m)]
  {
    var failure: Option<string>;
    match ai {
      case AiOk(out) =>
        failure := table.SetReady(id, out, write);
      case AiThrewError(message) =>
        failure := Some(message);
      case AiThrewOther =>
        failure := Some("Gemini processing failed");
    }
    if failure.None? {
      return Created(id, Ready, None);
    }
    table.SetError(id, failure.value);
    r := Created(id, Error, failure);
  }

  /** Every row the handler leaves behind is in a state it allows: "ready" or "error"
      after a successful insert, with the author's columns as submitted. */
  lemma PostLeavesFinalState(input: CreateUpdateInput, caller: string, ai: AiOutcome, write: WriteOutcome)
    requires ai.AiOk? ==> ValidGeminiOutput(ai.output)
    ensures var initial := InitialRow(input, caller);
      var final := match FailureMessage(ai, write)
        case None => ReadyRow(initial, ai.output)
        case Some(m) => ErrorRow(initial, m);
      && final.status != Processing && WellFormed(final)
      && final.messyText == input.messyText && final.projectId == input.projectId
      && final.authorId == caller && final.authorMode == input.authorMode
  {
  }
}
