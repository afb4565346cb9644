/**
 * The user registry and per-user files of the "BioLab Portal" Flask back end
 * (src/user/user_class.py). A `User` is a handle whose methods read and write
 * JSON files named after its id; a `Lab` maps ids to users and refuses duplicates.
 */
module SrcUser {
  import opened Wrappers
  import opened Json
  import opened Store

  /** `Data/project_descriptions/{user_id}_projects.json`. */
  function ProjectPath(userId: string): string {
    "Data/project_descriptions/" + userId + "_projects.json"
  }

  /** `Data/updates/{user_id}_{update_type}_updates.json`. */
  function SummaryPath(userId: string, updateType: string): string {
    "Data/updates/" + userId + "_" + updateType + "_updates.json"
  }

  /** `Data/updates/{user_id}_updates.json`, the append-only update log. */
  function UpdateLogPath(userId: string): string {
    "Data/updates/" + userId + "_updates.json"
  }

  /** A path built as prefix + id + suffix determines the id. */
  lemma FramedInjective(prefix: string, a: string, b: string, suffix: string)
    requires prefix + a + suffix == prefix + b + suffix
    ensures a == b
  {
    var s := prefix + a + suffix;
    assert |a| == |b|;
    assert a == s[|prefix|..|prefix| + |a|];
    assert b == (prefix + b + suffix)[|prefix|..|prefix| + |b|];
  }

  /** Different users have different project files and different update logs. */
  lemma PathsInjective(a: string, b: string)
    requires a != b
    ensures ProjectPath(a) != ProjectPath(b)
    ensures UpdateLogPath(a) != UpdateLogPath(b)
  {
    if ProjectPath(a) == ProjectPath(b) {
      FramedInjective("Data/project_descriptions/", a, b, "_projects.json");
    }
    if UpdateLogPath(a) == UpdateLogPath(b) {
      FramedInjective("Data/updates/", a, b, "_updates.json");
    }
  }

  /** A project file is never an update file: the directories differ. */
  lemma ProjectPathIsNotUpdatePath(a: string, b: string, t: string)
    ensures ProjectPath(a) != UpdateLogPath(b)
    ensures ProjectPath(a) != SummaryPath(b, t)
  {
    assert ProjectPath(a)[5] == 'p';
    assert UpdateLogPath(b)[5] == 'u';
    assert SummaryPath(b, t)[5] == 'u';
  }

  /** The update log of a user whose id is `a + "_" + t` is the same file as the
      `t` summary of user `a`: the file names do not keep the two apart. */
  lemma UpdateLogAliasesSummary(a: string, t: string)
    ensures UpdateLogPath(a + "_" + t) == SummaryPath(a, t)
  {
  }

  class User {
    const userId: string
    const name: string
    const role: string

    constructor (userId: string, name: string, role: string)
      ensures this.userId == userId && this.name == name && this.role == role
    {
      this.userId := userId;
      this.name := name;
      this.role := role;
    }

    /** `load_project_description`: the stored object, or `None` when the file is
        missing or holds something other than an object. */
    function LoadProjectDescription(files: map<string, Json>): (r: Option<map<string, Json>>)
      ensures r.Some? <==> ProjectPath(userId) in files && files[ProjectPath(userId)].JObj?
      ensures r.Some? ==> JObj(r.value) == files[ProjectPath(userId)]
    {
      ReadObject(files, ProjectPath(userId))
    }

    /** `load_update(update_type)`: the stored object, or `{}` when the file is missing
        or holds something other than an object. */
    function LoadUpdate(files: map<string, Json>, updateType: string): (r: map<string, Json>)
      ensures var path := SummaryPath(userId, updateType);
        if path in files && files[path].JObj? then JObj(r) == files[path] else r == map[]
    {
      ReadObjectOrEmpty(files, SummaryPath(userId, updateType))
    }

    /** `load_past_updates`: the stored list, or `[]` when the file is missing or holds
        something other than a list. */
    function LoadPastUpdates(files: map<string, Json>): (r: seq<Json>)
      ensures var path := UpdateLogPath(userId);
        if path in files && files[path].JArr? then JArr(r) == files[path] else r == []
    {
      ReadList(files, UpdateLogPath(userId))
    }

    /** `add_project`: overwrites the project file; nothing else changes, and the
        description reads back as exactly `project`. */
    method AddProject(fs: FileSystem, project: map<string, Json>)
      modifies fs
      ensures fs.files == old(fs.files)[ProjectPath(userId) := JObj(project)]
      ensures LoadProjectDescription(fs.files) == Some(project)
    {
      fs.Write(ProjectPath(userId), JObj(project));
    }

    /** `add_update`: reads the log (a missing or non-list file counts as `[]`), appends
        `update` and writes the log back; no other file changes. */
    method AddUpdate(fs: FileSystem, update: Json)
      modifies fs
      ensures fs.files == old(fs.files)[UpdateLogPath(userId) := JArr(old(LoadPastUpdates(fs.files)) + [update])]
      ensures LoadPastUpdates(fs.files) == old(LoadPastUpdates(fs.files)) + [update]
    {
      var path := UpdateLogPath(userId);
      var updates := ReadList(fs.files, path);
      updates := updates + [update];
      fs.Write(path, JArr(updates));
    }
  }

  /** Appending to one user's log leaves every other user's log and every project
      file as they were. */
  lemma AddUpdateIsolated(u: User, v: User, files: map<string, Json>, log: seq<Json>)
    requires u.userId != v.userId
    ensures var after := files[UpdateLogPath(u.userId) := JArr(log)];
      v.LoadPastUpdates(after) == v.LoadPastUpdates(files)
      && v.LoadProjectDescription(after) == v.LoadProjectDescription(files)
  {
    PathsInjective(u.userId, v.userId);
    ProjectPathIsNotUpdatePath(v.userId, u.userId, "");
  }

  /** The error `create_user` raises. */
  datatype LabError = UserAlreadyExists

  class Lab {
    var users: map<string, User>

    /** Every user is registered under its own id. */
    predicate Valid()
      reads this
    {
      forall id :: id in users ==> users[id].userId == id
    }

    constructor ()
      ensures Valid() && users == map[]
    {
      users := map[];
    }

    /** `get_user`: the registered user, or `None`. */
    function GetUser(userId: string): (r: Option<User>)
      reads this
      ensures r.Some? <==> userId in users
      ensures r.Some? ==> r.value == users[userId]
    {
      if userId in users then Some(users[userId]) else None
    }

    /** `create_user`: a taken id raises and changes nothing; a fresh id gets a new user
        with the given fields, and every other entry stays as it was. */
    method CreateUser(userId: string, name: string, role: string) returns (r: Result<User, LabError>)
      requires Valid()
      modifies this
      ensures Valid()
      ensures old(userId in users) ==> r == Failure(UserAlreadyExists) && users == old(users)
      ensures old(userId !in users) ==>
        && r.Success? && fresh(r.value)
        && r.value.userId == userId && r.value.name == name && r.value.role == role
        && users == old(users)[userId := r.value]
      ensures r.Success? ==> GetUser(userId) == Some(r.value)
    {
      if userId in users {
        return Failure(UserAlreadyExists);
      }
      var user := new User(userId, name, role);
      users := users[userId := user];
      r := Success(user);
    }
  }
}
