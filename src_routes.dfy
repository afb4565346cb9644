/**
 * The HTTP handlers of the "BioLab Portal" Flask back end (src/user/routes.py).
 * Each handler answers 404 for an unknown user before it looks at the body, 400 for
 * a body that is not an object or lacks a required non-blank string field, and
 * otherwise performs its read or write. Stored strings are stripped.
 */
module SrcRoutes {
  import opened Wrappers
  import opened Json
  import opened Flask
  import opened Store
  import opened SrcUser
  import Text

  const UserNotFound := ErrorResponse("User not found", 404)
  const StatusOk := Response(201, JObj(map["status" := JStr("ok")]))

  /** The object check followed by a chain of field checks, as each POST handler does. */
  function ValidateBody(payload: Json, checks: seq<FieldCheck>): (r: Result<seq<string>, Response>)
    ensures !payload.JObj? ==> r == Failure(ErrorResponse("JSON body required", 400))
    ensures payload.JObj? ==> match CheckFields(payload.fields, checks)
      case Success(vs) => r == Success(vs)
      case Failure(m) => r == Failure(ErrorResponse(m, 400))
  {
    if !payload.JObj? then Failure(ErrorResponse("JSON body required", 400))
    else
      match CheckFields(payload.fields, checks)
      case Success(vs) => Success(vs)
      case Failure(m) => Failure(ErrorResponse(m, 400))
  }

  const NameRequired := "Field 'Name' (non-empty string) is required"
  const DescriptionRequired := "Field 'Description' (non-empty string) is required"
  const DateRequired := "Field 'date' (non-empty string) is required"

  /** The body checks of `post_project`: `Name`, then `Description`; on success the
      record to store, with both values stripped. */
  function ValidateProject(payload: Json): (r: Result<map<string, Json>, Response>)
    ensures !payload.JObj? ==> r == Failure(ErrorResponse("JSON body required", 400))
    ensures payload.JObj? && NonBlankField(payload.fields, "Name").None? ==>
      r == Failure(ErrorResponse(NameRequired, 400))
    ensures (payload.JObj? && NonBlankField(payload.fields, "Name").Some?
      && NonBlankField(payload.fields, "Description").None?) ==>
      r == Failure(ErrorResponse(DescriptionRequired, 400))
    ensures r.Success? <==> (payload.JObj?
      && NonBlankField(payload.fields, "Name").Some? && NonBlankField(payload.fields, "Description").Some?)
    ensures r.Success? ==> r.value == map[
      "Name" := JStr(Text.Strip(payload.fields["Name"].s)),
      "Description" := JStr(Text.Strip(payload.fields["Description"].s))]
  {
    var checks := [FieldCheck("Name", NameRequired), FieldCheck("Description", DescriptionRequired)];
    match ValidateBody(payload, checks)
    case Failure(resp) => Failure(resp)
    case Success(vs) => Success(map["Name" := JStr(vs[0]), "Description" := JStr(vs[1])])
  }

  /** The body checks of `post_user_update`: `date`, then `Description`; on success the
      record to append, with both values stripped. */
  function ValidateUserUpdate(payload: Json): (r: Result<map<string, Json>, Response>)
    ensures !payload.JObj? ==> r == Failure(ErrorResponse("JSON body required", 400))
    ensures payload.JObj? && NonBlankField(payload.fields, "date").None? ==>
      r == Failure(ErrorResponse(DateRequired, 400))
    ensures (payload.JObj? && NonBlankField(payload.fields, "date").Some?
      && NonBlankField(payload.fields, "Description").None?) ==>
      r == Failure(ErrorResponse(DescriptionRequired, 400))
    ensures r.Success? <==> (payload.JObj?
      && NonBlankField(payload.fields, "date").Some? && NonBlankField(payload.fields, "Description").Some?)
    ensures r.Success? ==> r.value == map[
      "date" := JStr(Text.Strip(payload.fields["date"].s)),
      "Description" := JStr(Text.Strip(payload.fields["Description"].s))]
  {
    var checks := [FieldCheck("date", DateRequired), FieldCheck("Description", DescriptionRequired)];
    match ValidateBody(payload, checks)
    case Failure(resp) => Failure(resp)
    case Success(vs) => Success(map["date" := JStr(vs[0]), "Description" := JStr(vs[1])])
  }

  /** The body checks of `create_user`: `user_id`, `name`, then `role`; on success the
      three stripped values. */
  function ValidateNewUser(payload: Json): (r: Result<(string, string, string), Response>)
    ensures !payload.JObj? ==> r == Failure(ErrorResponse("JSON body required", 400))
    ensures payload.JObj? && NonBlankField(payload.fields, "user_id").None? ==>
      r == Failure(ErrorResponse("user_id is required", 400))
    ensures (payload.JObj? && NonBlankField(payload.fields, "user_id").Some?
      && NonBlankField(payload.fields, "name").None?) ==>
      r == Failure(ErrorResponse("name is required", 400))
    ensures (payload.JObj? && NonBlankField(payload.fields, "user_id").Some?
      && NonBlankField(payload.fields, "name").Some? && NonBlankField(payload.fields, "role").None?) ==>
      r == Failure(ErrorResponse("role is required", 400))
    ensures r.Success? <==> (payload.JObj? && NonBlankField(payload.fields, "user_id").Some?
      && NonBlankField(payload.fields, "name").Some? && NonBlankField(payload.fields, "role").Some?)
    ensures r.Success? ==> r.value == (
      Text.Strip(payload.fields["user_id"].s),
      Text.Strip(payload.fields["name"].s),
      Text.Strip(payload.fields["role"].s))
  {
    var checks := [
      FieldCheck("user_id", "user_id is required"),
      FieldCheck("name", "name is required"),
      FieldCheck("role", "role is required")];
    assert (payload.JObj? && NonBlankField(payload.fields, "user_id").Some?
      && NonBlankField(payload.fields, "name").None?) ==> FirstFailing(payload.fields, checks, 1);
    assert (payload.JObj? && NonBlankField(payload.fields, "user_id").Some?
      && NonBlankField(payload.fields, "name").Some? && NonBlankField(payload.fields, "role").None?) ==>
      FirstFailing(payload.fields, checks, 2);
    match ValidateBody(payload, checks)
    case Failure(resp) => Failure(resp)
    case Success(vs) => Success((vs[0], vs[1], vs[2]))
  }

  /** `get_user_dashboard`: 404 for an unknown user, otherwise 200 with the user's
      project description (null when there is none) and wet and dry summaries. */
  function GetUserDashboard(lab: Lab, fs: FileSystem, userId: string): (r: Response)
    reads lab, fs
    ensures userId !in lab.users ==> r == UserNotFound
    ensures userId in lab.users ==> r.status == 200 && r.body.JObj?
    ensures userId in lab.users ==> var user := lab.users[userId];
      r.body.fields == map[
        "user_id" := JStr(userId),
        "project_description" := match user.LoadProjectDescription(fs.files)
          case Some(p) => JObj(p)
          case None => JNull,
        "wet_updates" := JObj(user.LoadUpdate(fs.files, "wet")),
        "dry_updates" := JObj(user.LoadUpdate(fs.files, "dry"))]
  {
    match lab.GetUser(userId)
    case None => UserNotFound
    case Some(user) =>
      var project := match user.LoadProjectDescription(fs.files)
        case Some(p) => JObj(p)
        case None => JNull;
      Response(200, JObj(map[
        "user_id" := JStr(userId),
        "project_description" := project,
        "wet_updates" := JObj(user.LoadUpdate(fs.files, "wet")),
        "dry_updates" := JObj(user.LoadUpdate(fs.files, "dry"))]))
  }

  /** `get_user_updates`: 404 for an unknown user, otherwise 200 with the whole log. */
  function GetUserUpdates(lab: Lab, fs: FileSystem, userId: string): (r: Response)
    reads lab, fs
    ensures userId !in lab.users ==> r == UserNotFound
    ensures userId in lab.users ==> r == Response(200, JObj(map[
      "user_id" := JStr(userId),
      "updates" := JArr(lab.users[userId].LoadPastUpdates(fs.files))]))
  {
    match lab.GetUser(userId)
    case None => UserNotFound
    case Some(user) =>
      Response(200, JObj(map["user_id" := JStr(userId), "updates" := JArr(user.LoadPastUpdates(fs.files))]))
  }

  /** `post_project`: 404, then 400 with nothing written, else the stripped record
      overwrites the user's project file and the answer is 201. */
  method PostProject(lab: Lab, fs: FileSystem, userId: string, payload: Json) returns (r: Response)
    requires lab.Valid()
    modifies fs
    ensures userId !in lab.users ==> r == UserNotFound && fs.files == old(fs.files)
    ensures userId in lab.users && ValidateProject(payload).Failure? ==>
      r == ValidateProject(payload).error && r.status == 400 && fs.files == old(fs.files)
    ensures userId in lab.users && ValidateProject(payload).Success? ==>
      && r == StatusOk
      && fs.files == old(fs.files)[ProjectPath(userId) := JObj(ValidateProject(payload).value)]
  {
    var user := lab.GetUser(userId);
    if user.None? {
      return UserNotFound;
    }
    match ValidateProject(payload)
    case Failure(resp) =>
      r := resp;
    case Success(project) =>
      user.value.AddProject(fs, project);
      r := StatusOk;
  }

  /** `post_user_update`: 404, then 400 with nothing written, else the stripped record
      is appended to the user's log and the answer is 201. */
  method PostUserUpdate(lab: Lab, fs: FileSystem, userId: string, payload: Json) returns (r: Response)
    requires lab.Valid()
    modifies fs
    ensures userId !in lab.users ==> r == UserNotFound && fs.files == old(fs.files)
    ensures userId in lab.users && ValidateUserUpdate(payload).Failure? ==>
      r == ValidateUserUpdate(payload).error && r.status == 400 && fs.files == old(fs.files)
    ensures userId in lab.users && ValidateUserUpdate(payload).Success? ==>
      && r == StatusOk
      && fs.files == old(fs.files)[UpdateLogPath(userId) :=
        JArr(old(lab.users[userId].LoadPastUpdates(fs.files)) + [JObj(ValidateUserUpdate(payload).value)])]
  {
    var user := lab.GetUser(userId);
    if user.None? {
      return UserNotFound;
    }
    var checked := ValidateUserUpdate(payload);
    if checked.Failure? {
      return checked.error;
    }
    assert user.value == lab.users[userId];
    user.value.AddUpdate(fs, JObj(checked.value));
    r := StatusOk;
  }

  /** `create_user` (POST /users): 400 for a bad body, 409 with the registry unchanged
      for a taken (stripped) id, else 201 and the user is stored with stripped fields.
      The answer echoes `user_id` as it was sent, before stripping. */
  method CreateUser(lab: Lab, payload: Json) returns (r: Response)
    requires lab.Valid()
    modifies lab
    ensures lab.Valid()
    ensures ValidateNewUser(payload).Failure? ==>
      r == ValidateNewUser(payload).error && r.status == 400 && lab.users == old(lab.users)
    ensures ValidateNewUser(payload).Success? && ValidateNewUser(payload).value.0 in old(lab.users) ==>
      r == ErrorResponse("User already exists", 409) && lab.users == old(lab.users)
    ensures ValidateNewUser(payload).Success? && ValidateNewUser(payload).value.0 !in old(lab.users) ==>
      var (id, name, role) := ValidateNewUser(payload).value;
      && r == Response(201, JObj(map["status" := JStr("ok"), "user_id" := payload.fields["user_id"]]))
      && id in lab.users && lab.users == old(lab.users)[id := lab.users[id]]
      && lab.users[id].name == name && lab.users[id].role == role
  {
    match ValidateNewUser(payload)
    case Failure(resp) =>
      r := resp;
    case Success((id, name, role)) =>
      var created := lab.CreateUser(id, name, role);
      if created.Failure? {
        r := ErrorResponse("User already exists", 409);
      } else {
        r := Response(201, JObj(map["status" := JStr("ok"), "user_id" := payload.fields["user_id"]]));
      }
  }
}
