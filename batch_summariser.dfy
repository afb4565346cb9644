/**
 * The batch script that turns a list of dated lab updates into two "latest" summaries,
 * one for wet-lab and one for dry-lab readers (api_call/generate_wet_dry_json.py).
 * The script validates the list, sorts it by date, asks Gemini for a wet and a dry
 * summary of every update, picks the most recent summary that is not the "nothing
 * reported" sentinel, and writes one output file per audience. Gemini, date parsing
 * and Python's text rendering of non-string values are parameters.
 */
module BatchSummariser {
  import opened Wrappers
  import opened Json
  import opened Store
  import Text
  import Seqs

  const NoWet := "No wet-lab work reported this period."
  const NoDry := "No dry-lab work reported this period."

  // ---------------------------------------------------------------------------
  // require_updates

  datatype RequireError = NotArrayOfObjects | MissingKeys(index: nat)

  predicate HasRequiredKeys(u: map<string, Json>) {
    "date" in u && "text" in u && "project_id" in u
  }

  predicate AllObjects(items: seq<Json>) {
    forall i :: 0 <= i < |items| ==> items[i].JObj?
  }

  /** Element `i` is the first, in index order, that lacks one of the required keys. */
  predicate FirstMissing(items: seq<Json>, i: int)
    requires AllObjects(items)
  {
    && 0 <= i < |items|
    && !HasRequiredKeys(items[i].fields)
    && forall j :: 0 <= j < i ==> HasRequiredKeys(items[j].fields)
  }

  /** The `for i, u in enumerate(payload)` scan from position `from`. */
  function FindMissing(items: seq<Json>, from: nat): (r: Option<nat>)
    requires AllObjects(items) && from <= |items|
    requires forall j :: 0 <= j < from ==> HasRequiredKeys(items[j].fields)
    ensures r.None? <==> forall j :: 0 <= j < |items| ==> HasRequiredKeys(items[j].fields)
    ensures r.Some? ==> FirstMissing(items, r.value)
    decreases |items| - from
  {
    if from == |items| then None
    else if !HasRequiredKeys(items[from].fields) then Some(from)
    else FindMissing(items, from + 1)
  }

  /** `require_updates`: the payload itself when it is a list of objects that all have
      `date`, `text` and `project_id`; otherwise the error it raises. */
  function RequireUpdates(payload: Json): (r: Result<seq<map<string, Json>>, RequireError>)
    ensures r == Failure(NotArrayOfObjects) <==> !(payload.JArr? && AllObjects(payload.items))
    ensures r.Failure? && r.error.MissingKeys? ==>
      payload.JArr? && AllObjects(payload.items) && FirstMissing(payload.items, r.error.index)
    ensures r.Success? <==> (payload.JArr? && AllObjects(payload.items)
      && forall i :: 0 <= i < |payload.items| ==> HasRequiredKeys(payload.items[i].fields))
    ensures r.Success? ==> |r.value| == |payload.items|
    ensures r.Success? ==> forall i :: 0 <= i < |r.value| ==>
      payload.items[i] == JObj(r.value[i]) && HasRequiredKeys(r.value[i])
  {
    if !(payload.JArr? && AllObjects(payload.items)) then Failure(NotArrayOfObjects)
    else
      match FindMissing(payload.items, 0)
      case Some(i) => Failure(MissingKeys(i))
      case None => Success(seq(|payload.items|, i requires 0 <= i < |payload.items| => payload.items[i].fields))
  }

  // ---------------------------------------------------------------------------
  // The date sort: sorted(updates, key=lambda u: parse_date_yyyy_mm_dd(str(u["date"])))

  /** A parsed `%Y-%m-%d` date. */
  datatype Date = Date(year: int, month: int, day: int)

  /** Calendar order: year, then month, then day. */
  predicate DateLe(a: Date, b: Date) {
    a.year < b.year || (a.year == b.year && (a.month < b.month || (a.month == b.month && a.day <= b.day)))
  }

  /** An update with its sort key. */
  datatype Keyed = Keyed(date: Date, update: map<string, Json>)

  /** The sort key of `u`, or `None` where `strptime` raises. `u` has a `date`, since it
      passed `require_updates`. */
  function DateOf(u: map<string, Json>, parse: string -> Option<Date>, render: Json -> string): Option<Date>
    requires HasRequiredKeys(u)
  {
    parse(Show(u["date"], render))
  }

  /** Key computation in list order from position `from`: the keyed list, or the first
      position whose date does not parse. */
  function KeyAll(us: seq<map<string, Json>>, from: nat, parse: string -> Option<Date>, render: Json -> string)
    : (r: Result<seq<Keyed>, nat>)
    requires from <= |us| && forall i :: 0 <= i < |us| ==> HasRequiredKeys(us[i])
    requires forall j :: 0 <= j < from ==> DateOf(us[j], parse, render).Some?
    ensures r.Success? <==> forall i :: 0 <= i < |us| ==> DateOf(us[i], parse, render).Some?
    ensures r.Success? ==> |r.value| == |us| - from
    ensures r.Success? ==> forall i :: from <= i < |us| ==>
      r.value[i - from] == Keyed(DateOf(us[i], parse, render).value, us[i])
    ensures r.Failure? ==> from <= r.error < |us| && DateOf(us[r.error], parse, render).None?
    ensures r.Failure? ==> forall j :: 0 <= j < r.error ==> DateOf(us[j], parse, render).Some?
    decreases |us| - from
  {
    if from == |us| then Success([])
    else
      match DateOf(us[from], parse, render)
      case None => Failure(from)
      case Some(d) =>
        match KeyAll(us, from + 1, parse, render)
        case Failure(i) => Failure(i)
        case Success(rest) => Success([Keyed(d, us[from])] + rest)
  }

  predicate SortedByDate(xs: seq<Keyed>) {
    forall i, j :: 0 <= i < j < |xs| ==> DateLe(xs[i].date, xs[j].date)
  }

  /** Puts `x` before the first element whose date is not earlier than its own. */
  function Insert(x: Keyed, ys: seq<Keyed>): (r: seq<Keyed>)
    ensures |r| == |ys| + 1
    ensures multiset(r) == multiset(ys) + multiset{x}
  {
    if ys == [] || DateLe(x.date, ys[0].date) then [x] + ys
    else
      assert ys == [ys[0]] + ys[1..];
      [ys[0]] + Insert(x, ys[1..])
  }

  /** Inserting into a sorted list keeps it sorted. */
  lemma {:induction false} InsertSorted(x: Keyed, ys: seq<Keyed>)
    requires SortedByDate(ys)
    ensures SortedByDate(Insert(x, ys))
  {
    if ys != [] && !DateLe(x.date, ys[0].date) {
      var rest := Insert(x, ys[1..]);
      InsertSorted(x, ys[1..]);
      forall k | 0 <= k < |rest|
        ensures DateLe(ys[0].date, rest[k].date)
      {
        assert rest[k] in multiset(rest);
        if rest[k] != x {
          assert rest[k] in multiset(ys[1..]);
          var j :| 0 <= j < |ys[1..]| && ys[1..][j] == rest[k];
          assert ys[j + 1] == rest[k];
        }
      }
    }
  }

  /** Python's `sorted` by date, which is stable. */
  function SortByDate(xs: seq<Keyed>): (r: seq<Keyed>)
    ensures SortedByDate(r)
    ensures multiset(r) == multiset(xs)
    ensures |r| == |xs|
  {
    if xs == [] then []
    else
      assert xs == [xs[0]] + xs[1..];
      var rest := SortByDate(xs[1..]);
      InsertSorted(xs[0], rest);
      Insert(xs[0], rest)
  }

  /** The entries dated `d`, in order. */
  function WithDate(xs: seq<Keyed>, d: Date): seq<Keyed> {
    if xs == [] then []
    else (if xs[0].date == d then [xs[0]] else []) + WithDate(xs[1..], d)
  }

  lemma {:induction false} InsertStable(x: Keyed, ys: seq<Keyed>, d: Date)
    ensures WithDate(Insert(x, ys), d) == WithDate([x] + ys, d)
  {
    if ys != [] && !DateLe(x.date, ys[0].date) {
      InsertStable(x, ys[1..], d);
      assert ([ys[0]] + Insert(x, ys[1..]))[1..] == Insert(x, ys[1..]);
      assert ([x] + ys[1..])[1..] == ys[1..];
      assert ([x] + ys)[1..] == ys;
      assert ys[0].date != x.date;
    }
  }

  /** Stability: the updates that share a date keep their input order. */
  lemma {:induction false} SortStable(xs: seq<Keyed>, d: Date)
    ensures WithDate(SortByDate(xs), d) == WithDate(xs, d)
  {
    if xs != [] {
      SortStable(xs[1..], d);
      InsertStable(xs[0], SortByDate(xs[1..]), d);
      assert ([xs[0]] + SortByDate(xs[1..]))[1..] == SortByDate(xs[1..]);
    }
  }

  function UpdatesOf(xs: seq<Keyed>): (r: seq<map<string, Json>>)
    ensures |r| == |xs| && forall i :: 0 <= i < |xs| ==> r[i] == xs[i].update
  {
    seq(|xs|, i requires 0 <= i < |xs| => xs[i].update)
  }

  // ---------------------------------------------------------------------------
  // The per-update summary loop

  datatype Audience = WetAudience | DryAudience

  /** `str(u.get("text", "")).strip()`. */
  function TextOf(u: map<string, Json>, render: Json -> string): string {
    var v := match Get(u, "text")
      case Some(t) => t
      case None => JStr("");
    Text.Strip(Show(v, render))
  }

  /** The stripped texts of the updates, in order. */
  function Texts(us: seq<map<string, Json>>, render: Json -> string): (r: seq<string>)
    ensures |r| == |us|
    ensures forall i :: 0 <= i < |us| && "text" !in us[i] ==> r[i] == ""
    ensures forall i :: 0 <= i < |us| && "text" in us[i] && us[i]["text"].JStr? ==>
      r[i] == Text.Strip(us[i]["text"].s)
    ensures forall i :: 0 <= i < |us| && "text" in us[i] ==> r[i] == Text.Strip(Show(us[i]["text"], render))
  {
    seq(|us|, i requires 0 <= i < |us| => TextOf(us[i], render))
  }

  /** Both Gemini calls for a text return a summary; `translate` is `gemini_text` with
      its retries, `None` where it raises. */
  predicate Succeeds(text: string, translate: (Audience, string) -> Option<string>) {
    translate(WetAudience, text).Some? && translate(DryAudience, text).Some?
  }

  /** `gemini_text` raised for update `index` (in sorted order) and this audience. */
  datatype SummariseError = GeminiFailed(index: nat, audience: Audience)

  /** The summaries for one audience, one per text, aligned by position. */
  function Summaries(texts: seq<string>, audience: Audience, translate: (Audience, string) -> Option<string>)
    : (r: seq<string>)
    requires forall i :: 0 <= i < |texts| ==> Succeeds(texts[i], translate)
    ensures |r| == |texts|
    ensures forall i :: 0 <= i < |texts| ==> Some(r[i]) == translate(audience, texts[i])
  {
    seq(|texts|, i requires 0 <= i < |texts| => Summary(texts[i], audience, translate))
  }

  /** The summary of one text for one audience, when both calls for it succeed. */
  function Summary(text: string, audience: Audience, translate: (Audience, string) -> Option<string>)
    : (r: string)
    requires Succeeds(text, translate)
    ensures Some(r) == translate(audience, text)
  {
    match audience
    case WetAudience => translate(WetAudience, text).value
    case DryAudience => translate(DryAudience, text).value
  }

  /** The first failing call from position `from`, the wet call of an update coming
      before its dry call. */
  function FirstFailedCall(texts: seq<string>, from: nat, translate: (Audience, string) -> Option<string>)
    : (r: Option<SummariseError>)
    requires from <= |texts|
    ensures r.None? <==> forall i :: from <= i < |texts| ==> Succeeds(texts[i], translate)
    ensures r.Some? ==> from <= r.value.index < |texts|
    ensures r.Some? ==> !Succeeds(texts[r.value.index], translate)
    ensures r.Some? ==> forall j :: from <= j < r.value.index ==> Succeeds(texts[j], translate)
    ensures r.Some? ==> (r.value.audience == WetAudience <==> translate(WetAudience, texts[r.value.index]).None?)
    decreases |texts| - from
  {
    if from == |texts| then None
    else if translate(WetAudience, texts[from]).None? then Some(GeminiFailed(from, WetAudience))
    else if translate(DryAudience, texts[from]).None? then Some(GeminiFailed(from, DryAudience))
    else FirstFailedCall(texts, from + 1, translate)
  }

  /** What the loop produces: both summary lists, or the first call that raised. */
  function SummariseSpec(texts: seq<string>, translate: (Audience, string) -> Option<string>)
    : Result<(seq<string>, seq<string>), SummariseError>
  {
    match FirstFailedCall(texts, 0, translate)
    case Some(e) => Failure(e)
    case None => Success((Summaries(texts, WetAudience, translate), Summaries(texts, DryAudience, translate)))
  }

  /** The loop of `main`: for each sorted update, a wet then a dry summary of its
      stripped text, appended to `wet_summaries` and `dry_summaries`; the first call
      that raises ends the run. Here `texts` holds the stripped texts in sorted order. */
  method SummariseAll(texts: seq<string>, translate: (Audience, string) -> Option<string>)
    returns (r: Result<(seq<string>, seq<string>), SummariseError>)
    ensures r == SummariseSpec(texts, translate)
    ensures r.Success? ==> |r.value.0| == |texts| && |r.value.1| == |texts|
  {
    var wetSummaries: seq<string> := [];
    var drySummaries: seq<string> := [];
    var i := 0;
    while i < |texts|
      invariant 0 <= i <= |texts|
      invariant |wetSummaries| == i && |drySummaries| == i
      invariant forall j :: 0 <= j < i ==> Succeeds(texts[j], translate)
      invariant forall j :: 0 <= j < i ==> Some(wetSummaries[j]) == translate(WetAudience, texts[j])
      invariant forall j :: 0 <= j < i ==> Some(drySummaries[j]) == translate(DryAudience, texts[j])
      invariant FirstFailedCall(texts, 0, translate) == FirstFailedCall(texts, i, translate)
    {
      var wet := translate(WetAudience, texts[i]);
      if wet.None? {
        return Failure(GeminiFailed(i, WetAudience));
      }
      var dry := translate(DryAudience, texts[i]);
      if dry.None? {
        return Failure(GeminiFailed(i, DryAudience));
      }
      wetSummaries := wetSummaries + [wet.value];
      drySummaries := drySummaries + [dry.value];
      i := i + 1;
    }
    r := Success((wetSummaries, drySummaries));
    assert wetSummaries == Summaries(texts, WetAudience, translate);
    assert drySummaries == Summaries(texts, DryAudience, translate);
  }

  // ---------------------------------------------------------------------------
  // pick_latest_relevant and the output records

  /** The summary says something: stripped, it is not the sentinel. */
  predicate Relevant(summary: string, sentinel: string) {
    Text.Strip(summary) != sentinel
  }

  /** `Relevant` as a test on summaries, for one sentinel. */
  function RelevantTo(sentinel: string): string -> bool {
    s => Relevant(s, sentinel)
  }

  /** The position of the last relevant summary, or `None` when every summary is the
      sentinel once stripped. */
  function LastRelevant(summaries: seq<string>, sentinel: string): (r: Option<nat>)
    ensures r.Some? ==> r.value < |summaries| && Relevant(summaries[r.value], sentinel)
    ensures r.Some? ==> forall j :: r.value < j < |summaries| ==> !Relevant(summaries[j], sentinel)
    ensures r.None? <==> forall i :: 0 <= i < |summaries| ==> !Relevant(summaries[i], sentinel)
  {
    Seqs.LastWhere(summaries, RelevantTo(sentinel))
  }

  /** `pick_latest_relevant`: `zip(reversed(updates), reversed(summaries))`, scanned from
      the end, stops at the first stripped summary that is not the sentinel and returns it
      with its update. For lists of equal length that is the update at the last relevant
      position, and `None` means no summary is relevant. */
  function PickLatestRelevant(updates: seq<map<string, Json>>, summaries: seq<string>, sentinel: string)
    : (r: Option<(map<string, Json>, string)>)
    ensures r.Some? ==> r.value.1 != sentinel
    ensures |updates| == |summaries| ==>
      r == match LastRelevant(summaries, sentinel)
        case None => None
        case Some(i) => Some((updates[i], Text.Strip(summaries[i])))
    decreases |updates|
  {
    if updates == [] || summaries == [] then None
    else
      var s := Text.Strip(summaries[|summaries| - 1]);
      if s != sentinel then Some((updates[|updates| - 1], s))
      else
        var r := PickLatestRelevant(updates[..|updates| - 1], summaries[..|summaries| - 1], sentinel);
        assert |updates| == |summaries| && r.Some? ==>
          updates[..|updates| - 1][LastRelevant(summaries, sentinel).value] == updates[LastRelevant(summaries, sentinel).value];
        r
  }

  /** The summary that is picked is already stripped: stripping it again changes nothing. */
  lemma PickedIsStripped(updates: seq<map<string, Json>>, summaries: seq<string>, sentinel: string)
    requires |updates| == |summaries|
    ensures var r := PickLatestRelevant(updates, summaries, sentinel);
      r.Some? ==> Text.Strip(r.value.1) == r.value.1
  {
    var last := LastRelevant(summaries, sentinel);
    if last.Some? {
      Text.TrimIdempotent(summaries[last.value], Text.IsPyWhitespace);
    }
  }

  /** `{"latest": {...}}`: an empty date, the sentinel and no projects when nothing was
      picked; otherwise the picked update's `date`, the stripped summary and a list holding
      its `project_id`. */
  function BuildOutput(pick: Option<(map<string, Json>, string)>, sentinel: string): (out: Json)
    requires pick.Some? ==> HasRequiredKeys(pick.value.0)
  {
    var latest := match pick
      case None => map["date" := JStr(""), "summary" := JStr(sentinel), "projects" := JArr([])]
      case Some((u, s)) => map["date" := u["date"], "summary" := JStr(s), "projects" := JArr([u["project_id"]])];
    JObj(map["latest" := JObj(latest)])
  }

  /** The output says "nothing reported" exactly when no summary is relevant, and then
      names no project; otherwise it reports the date, the project and the stripped
      summary of the last update whose summary is relevant. */
  lemma OutputReportsPick(us: seq<map<string, Json>>, summaries: seq<string>, sentinel: string)
    requires |us| == |summaries| && forall i :: 0 <= i < |us| ==> HasRequiredKeys(us[i])
    ensures var latest := BuildOutput(PickLatestRelevant(us, summaries, sentinel), sentinel).fields["latest"].fields;
      && (latest["summary"] == JStr(sentinel) <==> forall i :: 0 <= i < |summaries| ==> !Relevant(summaries[i], sentinel))
      && (latest["projects"] == JArr([]) <==> LastRelevant(summaries, sentinel).None?)
    ensures var latest := BuildOutput(PickLatestRelevant(us, summaries, sentinel), sentinel).fields["latest"].fields;
      var last := LastRelevant(summaries, sentinel);
      last.Some? ==>
        && latest["date"] == us[last.value]["date"]
        && latest["projects"] == JArr([us[last.value]["project_id"]])
        && latest["summary"] == JStr(Text.Strip(summaries[last.value]))
  {
  }

  // ---------------------------------------------------------------------------
  // main

  datatype RunError =
    | MissingApiKey
    | UpdatesFileMissing
    | InvalidUpdates(requireError: RequireError)
    | BadDate(position: nat)
    | Gemini(summariseError: SummariseError)

  /** `return 2` for a missing key; any exception leaves Python with status 1. */
  function ExitCode(e: RunError): (code: int)
    ensures code == 2 <==> e == MissingApiKey
    ensures code != 0
  {
    if e == MissingApiKey then 2 else 1
  }

  /** Everything `main` computes after the API-key check: the validated, sorted updates
      and the two output records, or the error that stops it. */
  function Pipeline(files: map<string, Json>, updatesPath: string, parse: string -> Option<Date>,
                    render: Json -> string, translate: (Audience, string) -> Option<string>)
    : Result<(Json, Json), RunError>
  {
    if updatesPath !in files then Failure(UpdatesFileMissing)
    else
      match RequireUpdates(files[updatesPath])
      case Failure(e) => Failure(InvalidUpdates(e))
      case Success(us) =>
        match KeyAll(us, 0, parse, render)
        case Failure(i) => Failure(BadDate(i))
        case Success(keyed) =>
          var sorted := UpdatesOf(SortByDate(keyed));
          assert forall i :: 0 <= i < |keyed| ==> keyed[i].update == us[i];
          SortedKeysKept(keyed);
          match SummariseSpec(Texts(sorted, render), translate)
          case Failure(e) => Failure(Gemini(e))
          case Success((wet, dry)) =>
            Success((
              BuildOutput(PickLatestRelevant(sorted, wet, NoWet), NoWet),
              BuildOutput(PickLatestRelevant(sorted, dry, NoDry), NoDry)))
  }

  /** Sorting keeps every update one of the validated ones, so each still has its keys. */
  lemma SortedKeysKept(keyed: seq<Keyed>)
    requires forall i :: 0 <= i < |keyed| ==> HasRequiredKeys(keyed[i].update)
    ensures forall i :: 0 <= i < |SortByDate(keyed)| ==> HasRequiredKeys(UpdatesOf(SortByDate(keyed))[i])
  {
    var sorted := SortByDate(keyed);
    forall i | 0 <= i < |sorted|
      ensures HasRequiredKeys(sorted[i].update)
    {
      assert sorted[i] in multiset(keyed);
      var j :| 0 <= j < |keyed| && keyed[j] == sorted[i];
    }
  }

  /** `main`: exit 2 without a `GEMINI_API_KEY`, 1 when anything raises, both leaving the
      files as they were; otherwise 0 with the wet output, then the dry output, written. */
  method Run(fs: FileSystem, apiKey: Option<string>, updatesPath: string, wetOut: string, dryOut: string,
             parse: string -> Option<Date>, render: Json -> string,
             translate: (Audience, string) -> Option<string>) returns (code: int)
    modifies fs
    ensures (apiKey.None? || apiKey.value == "") ==> code == 2 && fs.files == old(fs.files)
    ensures apiKey.Some? && apiKey.value != "" ==>
      match Pipeline(old(fs.files), updatesPath, parse, render, translate)
      case Failure(e) => code == ExitCode(e) && fs.files == old(fs.files)
      case Success((wetOutput, dryOutput)) =>
        code == 0 && fs.files == old(fs.files)[wetOut := wetOutput][dryOut := dryOutput]
  {
    if apiKey.None? || apiKey.value == "" {
      return ExitCode(MissingApiKey);
    }
    if updatesPath !in fs.files {
      return ExitCode(UpdatesFileMissing);
    }
    var required := RequireUpdates(fs.files[updatesPath]);
    if required.Failure? {
      return ExitCode(InvalidUpdates(required.error));
    }
    var updates := required.value;
    var keyed := KeyAll(updates, 0, parse, render);
    if keyed.Failure? {
      return ExitCode(BadDate(keyed.error));
    }
    var updatesSorted := UpdatesOf(SortByDate(keyed.value));
    assert forall i :: 0 <= i < |keyed.value| ==> keyed.value[i].update == updates[i];
    SortedKeysKept(keyed.value);
    var summaries := SummariseAll(Texts(updatesSorted, render), translate);
    if summaries.Failure? {
      return ExitCode(Gemini(summaries.error));
    }
    var (wetSummaries, drySummaries) := summaries.value;
    var latestWet := PickLatestRelevant(updatesSorted, wetSummaries, NoWet);
    var latestDry := PickLatestRelevant(updatesSorted, drySummaries, NoDry);
    var wetOutput := BuildOutput(latestWet, NoWet);
    var dryOutput := BuildOutput(latestDry, NoDry);
    fs.Write(wetOut, wetOutput);
    fs.Write(dryOut, dryOutput);
    code := 0;
  }
}
