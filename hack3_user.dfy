/**
 * The user registry and per-user files of the second Flask back end
 * (hack_3/user_class.py). Unlike src/user/user_class.py, `Lab.add_user` takes a
 * ready-made user and silently replaces any user already stored under its id.
 */
module Hack3User {
  import opened Wrappers
  import opened Json
  import opened Store

  /** `Data/project_descriptions/{user_id}_projects.json`. */
  function ProjectPath(userId: string): string {
    "Data/project_descriptions/" + userId + "_projects.json"
  }

  /** `Data/updates/{user_id}_wet_updates.json`. */
  function WetPath(userId: string): string {
    "Data/updates/" + userId + "_wet_updates.json"
  }

  /** `Data/updates/{user_id}_dry_updates.json`. */
  function DryPath(userId: string): string {
    "Data/updates/" + userId + "_dry_updates.json"
  }

  /** `Data/updates/{user_id}_updates.json`, the append-only update log. */
  function UpdateLogPath(userId: string): string {
    "Data/updates/" + userId + "_updates.json"
  }

  /** The update log is never a user's own wet or dry file: the names differ in
      length for the same id. */
  lemma UpdateLogIsNotOwnSummary(userId: string)
    ensures UpdateLogPath(userId) != WetPath(userId)
    ensures UpdateLogPath(userId) != DryPath(userId)
  {
    assert |UpdateLogPath(userId)| < |WetPath(userId)|;
    assert |UpdateLogPath(userId)| < |DryPath(userId)|;
  }

  /** The update log of user `a + "_wet"` is the wet file of user `a`: the file names do
      not keep the two apart. */
  lemma UpdateLogAliasesWetFile(a: string)
    ensures UpdateLogPath(a + "_wet") == WetPath(a)
  {
  }

  /** The error `compute_wet_and_dry` raises. */
  datatype ComputeError = NotImplementedError

  class User {
    const userId: string
    const name: string
    const role: string

    constructor (userId: string, name: string, role: string)
      ensures this.userId == userId && this.name == name && this.role == role
    {
      this.userId := userId;
      this.name := name;
      this.role := role;
    }

    /** `load_project`: the stored object, or `None` when the file is missing or holds
        something other than an object. */
    function LoadProject(files: map<string, Json>): (r: Option<map<string, Json>>)
      ensures r.Some? <==> ProjectPath(userId) in files && files[ProjectPath(userId)].JObj?
      ensures r.Some? ==> JObj(r.value) == files[ProjectPath(userId)]
    {
      ReadObject(files, ProjectPath(userId))
    }

    /** `load_wet`: the wet summary object, or `{}` when it is missing or not an object. */
    function LoadWet(files: map<string, Json>): (r: map<string, Json>)
      ensures var path := WetPath(userId);
        if path in files && files[path].JObj? then JObj(r) == files[path] else r == map[]
    {
      ReadObjectOrEmpty(files, WetPath(userId))
    }

    /** `load_dry`: the dry summary object, or `{}` when it is missing or not an object. */
    function LoadDry(files: map<string, Json>): (r: map<string, Json>)
      ensures var path := DryPath(userId);
        if path in files && files[path].JObj? then JObj(r) == files[path] else r == map[]
    {
      ReadObjectOrEmpty(files, DryPath(userId))
    }

    /** What `add_update` reads back before appending: the stored list, or `[]` when the
        file is missing or holds something other than a list. */
    function StoredUpdates(files: map<string, Json>): (r: seq<Json>)
      ensures var path := UpdateLogPath(userId);
        if path in files && files[path].JArr? then JArr(r) == files[path] else r == []
    {
      ReadList(files, UpdateLogPath(userId))
    }

    /** `add_update`: reads the log (a missing or non-list file counts as `[]`), appends
        `update` and writes the log back; no other file changes. */
    method AddUpdate(fs: FileSystem, update: Json)
      modifies fs
      ensures fs.files == old(fs.files)[UpdateLogPath(userId) := JArr(old(StoredUpdates(fs.files)) + [update])]
      ensures StoredUpdates(fs.files) == old(StoredUpdates(fs.files)) + [update]
    {
      var path := UpdateLogPath(userId);
      var updates := ReadList(fs.files, path);
      updates := updates + [update];
      fs.Write(path, JArr(updates));
    }

    /** `compute_wet_and_dry`: not written yet; it always raises `NotImplementedError`
        and writes nothing. */
    method ComputeWetAndDry() returns (r: Option<ComputeError>)
      ensures r == Some(NotImplementedError)
    {
      r := Some(NotImplementedError);
    }
  }

  /** Appending to the log leaves the user's wet and dry files as they were. */
  lemma AddUpdateKeepsSummaries(u: User, files: map<string, Json>, log: seq<Json>)
    ensures var after := files[UpdateLogPath(u.userId) := JArr(log)];
      u.LoadWet(after) == u.LoadWet(files) && u.LoadDry(after) == u.LoadDry(files)
  {
    UpdateLogIsNotOwnSummary(u.userId);
  }

  class Lab {
    var users: map<string, User>

    /** Every user is registered under its own id. */
    predicate Valid()
      reads this
    {
      forall id :: id in users ==> users[id].userId == id
    }

    constructor ()
      ensures Valid() && users == map[]
    {
      users := map[];
    }

    /** `get_user`: the registered user, or `None`. */
    function GetUser(userId: string): (r: Option<User>)
      reads this
      ensures r.Some? <==> userId in users
      ensures r.Some? ==> r.value == users[userId]
    {
      if userId in users then Some(users[userId]) else None
    }

    /** `add_user`: stores `user` under its own id, replacing without complaint any user
        already registered there; every other entry stays as it was. */
    method AddUser(user: User)
      requires Valid()
      modifies this
      ensures Valid()
      ensures users == old(users)[user.userId := user]
      ensures GetUser(user.userId) == Some(user)
    {
      users := users[user.userId := user];
    }
  }
}
