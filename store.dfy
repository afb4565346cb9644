/** The files the Python back ends read and write, as a map from path to the JSON
    value the file holds. */
module Store {
  import opened Wrappers
  import opened Json

  /** `json.load` of `path` kept only when it is an object: `None` when the file is
      missing or holds something else. */
  function ReadObject(files: map<string, Json>, path: string): (r: Option<map<string, Json>>)
    ensures r.Some? <==> path in files && files[path].JObj?
    ensures r.Some? ==> JObj(r.value) == files[path]
  {
    if path in files && files[path].JObj? then Some(files[path].fields) else None
  }

  /** The object stored at `path`, or `{}` when the file is missing or is not an object. */
  function ReadObjectOrEmpty(files: map<string, Json>, path: string): (r: map<string, Json>)
    ensures path in files && files[path].JObj? ==> JObj(r) == files[path]
    ensures !(path in files && files[path].JObj?) ==> r == map[]
  {
    match ReadObject(files, path)
    case Some(fields) => fields
    case None => map[]
  }

  /** The list stored at `path`, or `[]` when the file is missing or is not a list. */
  function ReadList(files: map<string, Json>, path: string): (r: seq<Json>)
    ensures path in files && files[path].JArr? ==> JArr(r) == files[path]
    ensures !(path in files && files[path].JArr?) ==> r == []
  {
    if path in files && files[path].JArr? then files[path].items else []
  }

  class FileSystem {
    var files: map<string, Json>

    constructor (initial: map<string, Json>)
      ensures files == initial
    {
      files := initial;
    }

    /** `open(path, "w")` followed by `json.dump(value, file)`: the file now holds
        `value` and no other file changes. */
    method Write(path: string, value: Json)
      modifies this
      ensures files == old(files)[path := value]
    {
      files := files[path := value];
    }
  }
}
