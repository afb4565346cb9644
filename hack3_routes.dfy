/**
 * The HTTP handlers of the second Flask back end (hack_3/routes.py): two pure
 * validation helpers that return an ok flag with either an error response or the
 * cleaned record, and handlers that answer 404 for an unknown user before anything else.
 */
module Hack3Routes {
  import opened Wrappers
  import opened Json
  import opened Flask
  import opened Store
  import opened Hack3User
  import Text

  const UserNotFound := ErrorResponse("User not found", 404)
  const DataRequired := "Field 'Data' (non-empty string) is required"
  const TextRequired := "Field 'Text_Update' (non-empty string) is required"

  /** `_require_json_object`: `(True, None)` for an object, otherwise `(False, 400 response)`. */
  function RequireJsonObject(payload: Json): (r: (bool, Option<Response>))
    ensures r.0 <==> payload.JObj?
    ensures r.0 ==> r.1 == None
    ensures !r.0 ==> r.1 == Some(ErrorResponse("JSON body must be an object", 400))
  {
    if !payload.JObj? then (false, Some(ErrorResponse("JSON body must be an object", 400)))
    else (true, None)
  }

  /** `_validate_update_obj`: `Data` is checked before `Text_Update`; on success exactly
      those two keys, stripped. */
  function ValidateUpdateObj(payload: map<string, Json>): (r: (bool, Result<map<string, Json>, Response>))
    ensures r.0 <==> r.1.Success?
    ensures NonBlankField(payload, "Data").None? ==>
      r.1 == Failure(ErrorResponse(DataRequired, 400))
    ensures (NonBlankField(payload, "Data").Some? && NonBlankField(payload, "Text_Update").None?) ==>
      r.1 == Failure(ErrorResponse(TextRequired, 400))
    ensures r.0 <==> NonBlankField(payload, "Data").Some? && NonBlankField(payload, "Text_Update").Some?
    ensures r.0 ==> r.1.value == map[
      "Data" := JStr(Text.Strip(payload["Data"].s)),
      "Text_Update" := JStr(Text.Strip(payload["Text_Update"].s))]
  {
    match CheckFields(payload, [FieldCheck("Data", DataRequired), FieldCheck("Text_Update", TextRequired)])
    case Failure(m) => (false, Failure(ErrorResponse(m, 400)))
    case Success(vs) => (true, Success(map["Data" := JStr(vs[0]), "Text_Update" := JStr(vs[1])]))
  }

  /** `get_project`: 404 for an unknown user, 404 when there is no project object,
      otherwise 200 with it. */
  function GetProject(lab: Lab, fs: FileSystem, userId: string): (r: Response)
    reads lab, fs
    ensures userId !in lab.users ==> r == UserNotFound
    ensures userId in lab.users && lab.users[userId].LoadProject(fs.files).None? ==>
      r == ErrorResponse("Project not found", 404)
    ensures r.status == 200 <==> userId in lab.users && lab.users[userId].LoadProject(fs.files).Some?
    ensures r.status == 200 ==> r.body == JObj(map[
      "user_id" := JStr(userId),
      "project" := JObj(lab.users[userId].LoadProject(fs.files).value)])
  {
    match lab.GetUser(userId)
    case None => UserNotFound
    case Some(user) =>
      match user.LoadProject(fs.files)
      case None => ErrorResponse("Project not found", 404)
      case Some(project) => Response(200, JObj(map["user_id" := JStr(userId), "project" := JObj(project)]))
  }

  /** `get_wet`: 404 for an unknown user, otherwise 200 with the wet summary (`{}` if none). */
  function GetWet(lab: Lab, fs: FileSystem, userId: string): (r: Response)
    reads lab, fs
    ensures userId !in lab.users ==> r == UserNotFound
    ensures userId in lab.users ==> r == Response(200, JObj(map[
      "user_id" := JStr(userId), "wet_update" := JObj(lab.users[userId].LoadWet(fs.files))]))
  {
    match lab.GetUser(userId)
    case None => UserNotFound
    case Some(user) =>
      Response(200, JObj(map["user_id" := JStr(userId), "wet_update" := JObj(user.LoadWet(fs.files))]))
  }

  /** `get_dry`: 404 for an unknown user, otherwise 200 with the dry summary (`{}` if none). */
  function GetDry(lab: Lab, fs: FileSystem, userId: string): (r: Response)
    reads lab, fs
    ensures userId !in lab.users ==> r == UserNotFound
    ensures userId in lab.users ==> r == Response(200, JObj(map[
      "user_id" := JStr(userId), "dry_update" := JObj(lab.users[userId].LoadDry(fs.files))]))
  {
    match lab.GetUser(userId)
    case None => UserNotFound
    case Some(user) =>
      Response(200, JObj(map["user_id" := JStr(userId), "dry_update" := JObj(user.LoadDry(fs.files))]))
  }

  /** `get_dashboard`: 404 for an unknown user, otherwise 200 with the project (null when
      there is none), wet and dry values. */
  function GetDashboard(lab: Lab, fs: FileSystem, userId: string): (r: Response)
    reads lab, fs
    ensures userId !in lab.users ==> r == UserNotFound
    ensures userId in lab.users ==> r.status == 200 && r.body.JObj?
    ensures userId in lab.users ==> var user := lab.users[userId];
      r.body.fields == map[
        "user_id" := JStr(userId),
        "project" := match user.LoadProject(fs.files)
          case Some(p) => JObj(p)
          case None => JNull,
        "wet_update" := JObj(user.LoadWet(fs.files)),
        "dry_update" := JObj(user.LoadDry(fs.files))]
  {
    match lab.GetUser(userId)
    case None => UserNotFound
    case Some(user) =>
      var project := match user.LoadProject(fs.files)
        case Some(p) => JObj(p)
        case None => JNull;
      Response(200, JObj(map[
        "user_id" := JStr(userId),
        "project" := project,
        "wet_update" := JObj(user.LoadWet(fs.files)),
        "dry_update" := JObj(user.LoadDry(fs.files))]))
  }

  /** `post_update`: 404 for an unknown user and 400 for a bad body, both writing nothing;
      otherwise the cleaned record is appended to the log, the `NotImplementedError` of
      `compute_wet_and_dry` is swallowed, and the answer is 201 echoing the record. */
  method PostUpdate(lab: Lab, fs: FileSystem, userId: string, payload: Json) returns (r: Response)
    requires lab.Valid()
    modifies fs
    ensures userId !in lab.users ==> r == UserNotFound && fs.files == old(fs.files)
    ensures (userId in lab.users && !payload.JObj?) ==>
      r == ErrorResponse("JSON body must be an object", 400) && fs.files == old(fs.files)
    ensures (userId in lab.users && payload.JObj? && !ValidateUpdateObj(payload.fields).0) ==>
      r == ValidateUpdateObj(payload.fields).1.error && r.status == 400 && fs.files == old(fs.files)
    ensures (userId in lab.users && payload.JObj? && ValidateUpdateObj(payload.fields).0) ==>
      var cleaned := ValidateUpdateObj(payload.fields).1.value;
      && r == Response(201, JObj(map["status" := JStr("ok"), "update" := JObj(cleaned)]))
      && fs.files == old(fs.files)[UpdateLogPath(userId) :=
        JArr(old(lab.users[userId].StoredUpdates(fs.files)) + [JObj(cleaned)])]
  {
    var user := lab.GetUser(userId);
    if user.None? {
      return UserNotFound;
    }
    var (ok, err) := RequireJsonObject(payload);
    if !ok {
      return err.value;
    }
    var (valid, cleanedOrErr) := ValidateUpdateObj(payload.fields);
    if !valid {
      return cleanedOrErr.error;
    }
    assert user.value == lab.users[userId];
    user.value.AddUpdate(fs, JObj(cleanedOrErr.value));
    var computed := user.value.ComputeWetAndDry();
    // A NotImplementedError from the computation is caught and ignored.
    r := Response(201, JObj(map["status" := JStr("ok"), "update" := JObj(cleanedOrErr.value)]));
  }
}
