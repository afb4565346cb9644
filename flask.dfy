/** What the Flask handlers of both back ends share: the response they return and
    the "non-empty string after stripping" check they apply to request fields. */
module Flask {
  import opened Wrappers
  import opened Json
  import Text

  /** `jsonify(body), status`. */
  datatype Response = Response(status: int, body: Json)

  /** `jsonify({"error": message}), status`. */
  function ErrorResponse(message: string, status: int): Response {
    Response(status, JObj(map["error" := JStr(message)]))
  }

  /** `isinstance(v, str) and v.strip()` on `payload.get(key)`: the stripped string when
      the field is a string with something other than whitespace in it, `None` otherwise. */
  function NonBlankField(payload: map<string, Json>, key: string): (r: Option<string>)
    ensures r.Some? <==> key in payload && payload[key].JStr? && Text.Strip(payload[key].s) != ""
    ensures r.Some? ==> r.value == Text.Strip(payload[key].s)
    ensures r.Some? ==> r.value != "" && Text.Strip(r.value) == r.value
  {
    match Get(payload, key)
    case Some(JStr(s)) =>
      var t := Text.Strip(s);
      Text.TrimIdempotent(s, Text.IsPyWhitespace);
      if t != "" then Some(t) else None
    case _ => None
  }

  /** One step of an early-return validation chain: the field to check and the error
      message returned when it is not a non-blank string. */
  datatype FieldCheck = FieldCheck(key: string, message: string)

  /** Check `i` is the first one in the chain that fails. */
  predicate FirstFailing(payload: map<string, Json>, checks: seq<FieldCheck>, i: int) {
    && 0 <= i < |checks|
    && NonBlankField(payload, checks[i].key).None?
    && forall j :: 0 <= j < i ==> NonBlankField(payload, checks[j].key).Some?
  }

  /** A chain of `if not isinstance(v, str) or not v.strip(): return error` checks run in
      order: the stripped values when all pass, else the message of the first that fails. */
  function CheckFields(payload: map<string, Json>, checks: seq<FieldCheck>): (r: Result<seq<string>, string>)
    ensures r.Success? <==> forall i :: 0 <= i < |checks| ==> NonBlankField(payload, checks[i].key).Some?
    ensures r.Success? ==> |r.value| == |checks|
    ensures r.Success? ==> forall i :: 0 <= i < |checks| ==> r.value[i] == NonBlankField(payload, checks[i].key).value
    ensures r.Failure? ==> exists i :: FirstFailing(payload, checks, i) && r.error == checks[i].message
    ensures forall i :: FirstFailing(payload, checks, i) ==> r == Failure(checks[i].message)
  {
    if checks == [] then Success([])
    else
      match NonBlankField(payload, checks[0].key)
      case None =>
        assert FirstFailing(payload, checks, 0);
        Failure(checks[0].message)
      case Some(v) =>
        match CheckFields(payload, checks[1..])
        case Success(vs) =>
          assert forall i :: 1 <= i < |checks| ==> checks[i] == checks[1..][i - 1];
          Success([v] + vs)
        case Failure(e) =>
          assert forall i :: FirstFailing(payload, checks, i) ==> i >= 1 && FirstFailing(payload, checks[1..], i - 1);
          var i :| FirstFailing(payload, checks[1..], i) && e == checks[1..][i].message;
          assert FirstFailing(payload, checks, i + 1);
          Failure(e)
  }

  /** The first failing check is unique, so the error message is determined. */
  lemma FirstFailingUnique(payload: map<string, Json>, checks: seq<FieldCheck>, i: int, j: int)
    requires FirstFailing(payload, checks, i) && FirstFailing(payload, checks, j)
    ensures i == j
  {
  }
}
