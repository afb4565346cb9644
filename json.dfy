/** JSON values as the Python and TypeScript code see them after parsing. */
module Json {
  import opened Wrappers

  /** A parsed JSON value. A key that is absent from an object is JavaScript's `undefined`. */
  datatype Json =
    | JNull
    | JBool(b: bool)
    | JNum(n: real)
    | JStr(s: string)
    | JArr(items: seq<Json>)
    | JObj(fields: map<string, Json>)

  /** Python's `d.get(key)`, and JavaScript's `obj[key]`: the value under `key`, or `None`
      when the key is absent (JavaScript's `undefined`). */
  function Get(fields: map<string, Json>, key: string): (r: Option<Json>)
    ensures r.Some? <==> key in fields
    ensures r.Some? ==> r.value == fields[key]
  {
    if key in fields then Some(fields[key]) else None
  }

  /** Python's `str(v)` or JavaScript's `String(v)`. A string is returned as it is;
      `render` stands for the language's text rendering of every other kind of value. */
  function Show(v: Json, render: Json -> string): (r: string)
    ensures v.JStr? ==> r == v.s
  {
    if v.JStr? then v.s else render(v)
  }
}
