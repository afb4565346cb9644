/**
 * The project timeline of the LabBridge app (ANGUS/components/project-timeline.tsx):
 * the search filter over a project's updates, the translation chosen by the viewer
 * mode, the follow-up count, and the viewer-mode state mirrored to `localStorage`.
 */
module ProjectTimeline {
  import opened Wrappers
  import opened Domain
  import Text
  import Seqs

  /** `UpdateSummary`: the columns of an update row the timeline shows. */
  datatype UpdateSummary = UpdateSummary(
    id: string,
    createdAt: string,
    authorMode: Mode,
    title: Option<string>,
    messyText: string,
    translationForWet: Option<string>,
    translationForDry: Option<string>,
    status: Status,
    followups: Option<seq<string>>)

  /** `[title, messy_text, translation_for_wet, translation_for_dry]`, null as `None`. */
  function SearchFields(u: UpdateSummary): seq<Option<string>> {
    [u.title, Some(u.messyText), u.translationForWet, u.translationForDry]
  }

  /** The strings of `values`, each wrapped as a present field. */
  function Present(values: seq<string>): (r: seq<Option<string>>)
    ensures |r| == |values| && forall i :: 0 <= i < |values| ==> r[i] == Some(values[i])
  {
    seq(|values|, i requires 0 <= i < |values| => Some(values[i]))
  }

  /** `.filter(Boolean)` on those fields: the non-null, non-empty strings. */
  function Truthy(fields: seq<Option<string>>): (r: seq<string>)
    ensures |r| <= |fields|
    ensures forall i :: 0 <= i < |r| ==> r[i] != "" && Some(r[i]) in fields
    ensures forall i :: 0 <= i < |fields| && fields[i].Some? && fields[i].value != "" ==> fields[i].value in r
  {
    if fields == [] then []
    else if fields[0].Some? && fields[0].value != "" then [fields[0].value] + Truthy(fields[1..])
    else Truthy(fields[1..])
  }

  /** `Truthy` keeps the fields' order. */
  lemma {:induction false} TruthyKeepsOrder(fields: seq<Option<string>>)
    ensures Seqs.IsSubsequence(Present(Truthy(fields)), fields)
  {
    if fields != [] {
      var rest := Truthy(fields[1..]);
      TruthyKeepsOrder(fields[1..]);
      if fields[0].Some? && fields[0].value != "" {
        assert Present(Truthy(fields))[1..] == Present(rest);
      }
    }
  }

  /** `Truthy` keeps every repetition of a non-empty string, and no empty string. */
  lemma {:induction false} TruthyCounts(fields: seq<Option<string>>)
    ensures forall s :: multiset(Truthy(fields))[s] == if s == "" then 0 else multiset(fields)[Some(s)]
  {
    if fields != [] {
      assert fields == [fields[0]] + fields[1..];
      TruthyCounts(fields[1..]);
    }
  }

  /** `.some((value) => value.toLowerCase().includes(q))`. */
  predicate AnyContains(values: seq<string>, q: string) {
    values != [] && (Text.Contains(Text.Lower(values[0]), q) || AnyContains(values[1..], q))
  }

  /** The filter callback with `q` already lower-cased. */
  predicate Keep(u: UpdateSummary, q: string) {
    AnyContains(Truthy(SearchFields(u)), q)
  }

  /** One field matches: it is present, non-empty, and contains `q` once lower-cased. */
  predicate FieldMatches(f: Option<string>, q: string) {
    f.Some? && f.value != "" && Text.Contains(Text.Lower(f.value), q)
  }

  /** The filter condition stated field by field. */
  predicate Matches(u: UpdateSummary, q: string) {
    || FieldMatches(u.title, q)
    || FieldMatches(Some(u.messyText), q)
    || FieldMatches(u.translationForWet, q)
    || FieldMatches(u.translationForDry, q)
  }

  lemma {:induction false} AnyContainsIff(values: seq<string>, q: string)
    ensures AnyContains(values, q) <==> exists i :: 0 <= i < |values| && Text.Contains(Text.Lower(values[i]), q)
  {
    if values != [] {
      AnyContainsIff(values[1..], q);
      if !Text.Contains(Text.Lower(values[0]), q) && AnyContains(values[1..], q) {
        var i :| 0 <= i < |values[1..]| && Text.Contains(Text.Lower(values[1..][i]), q);
        assert Text.Contains(Text.Lower(values[i + 1]), q);
      }
      if exists i :: 0 <= i < |values| && Text.Contains(Text.Lower(values[i]), q) {
        var i :| 0 <= i < |values| && Text.Contains(Text.Lower(values[i]), q);
        if i > 0 {
          assert values[1..][i - 1] == values[i];
        }
      }
    }
  }

  /** A kept update has a matching field. */
  lemma KeptMatches(u: UpdateSummary, q: string)
    requires Keep(u, q)
    ensures Matches(u, q)
  {
    var fields := SearchFields(u);
    var values := Truthy(fields);
    AnyContainsIff(values, q);
    var i :| 0 <= i < |values| && Text.Contains(Text.Lower(values[i]), q);
    var j :| 0 <= j < |fields| && fields[j] == Some(values[i]);
    assert FieldMatches(fields[j], q);
  }

  /** An update with a matching field is kept. */
  lemma MatchingKept(u: UpdateSummary, q: string)
    requires Matches(u, q)
    ensures Keep(u, q)
  {
    var fields := SearchFields(u);
    var values := Truthy(fields);
    var j :=
      if FieldMatches(u.title, q) then 0
      else if FieldMatches(Some(u.messyText), q) then 1
      else if FieldMatches(u.translationForWet, q) then 2
      else 3;
    assert FieldMatches(fields[j], q);
    assert fields[j].value in values;
    var i :| 0 <= i < |values| && values[i] == fields[j].value;
    AnyContainsIff(values, q);
  }

  /** The callback keeps an update exactly when one of its four fields matches. */
  lemma KeepIff(u: UpdateSummary, q: string)
    ensures Keep(u, q) <==> Matches(u, q)
  {
    if Keep(u, q) {
      KeptMatches(u, q);
    }
    if Matches(u, q) {
      MatchingKept(u, q);
    }
  }

  /** The filter callback for the lower-cased query `q`. */
  function KeepFor(q: string): UpdateSummary -> bool {
    u => Keep(u, q)
  }

  /** The field-by-field condition for the lower-cased query `q`. */
  function MatchesFor(q: string): UpdateSummary -> bool {
    u => Matches(u, q)
  }

  /** `filtered`: all updates for a blank query; otherwise, in order and with their
      repetitions, exactly those with a field containing the lower-cased, untrimmed query. */
  function Filtered(updates: seq<UpdateSummary>, query: string): (r: seq<UpdateSummary>)
    ensures Text.Trim(query) == "" ==> r == updates
    ensures Seqs.IsSubsequence(r, updates)
    ensures Text.Trim(query) != "" ==> r == Seqs.Filter(updates, MatchesFor(Text.Lower(query)))
    ensures Text.Trim(query) != "" ==>
      forall u :: u in r <==> u in updates && Matches(u, Text.Lower(query))
  {
    if Text.Trim(query) == "" then
      assert Seqs.IsSubsequence(updates, updates) by { SubsequenceReflexive(updates); }
      updates
    else
      var q := Text.Lower(query);
      forall i | 0 <= i < |updates|
        ensures KeepFor(q)(updates[i]) == MatchesFor(q)(updates[i])
      {
        KeepIff(updates[i], q);
      }
      Seqs.FilterAgree(updates, KeepFor(q), MatchesFor(q));
      Seqs.Filter(updates, KeepFor(q))
  }

  lemma {:induction false} SubsequenceReflexive<T>(s: seq<T>)
    ensures Seqs.IsSubsequence(s, s)
  {
    if s != [] {
      SubsequenceReflexive(s[1..]);
    }
  }

  /** The two queries of the example below: neither is blank, and lower-casing leaves
      them as they are. */
  lemma ExampleQueries()
    ensures Text.Trim("ax") != "" && Text.Trim("ax ") != ""
    ensures Text.Lower("ax") == "ax" && Text.Lower("ax ") == "ax "
  {
  }

  /** An update titled "ax" with an empty body and no translations. */
  function ExampleUpdate(): UpdateSummary {
    UpdateSummary("1", "", Wet, Some("ax"), "", None, None, Ready, None)
  }

  lemma ExampleMatches()
    ensures Matches(ExampleUpdate(), "ax") && !Matches(ExampleUpdate(), "ax ")
  {
  }

  /** The query is trimmed only for the blank test: a title "ax" matches "ax" but not
      "ax " with its trailing space. */
  lemma UntrimmedQueryMatters()
    ensures Filtered([ExampleUpdate()], "ax") == [ExampleUpdate()]
    ensures Filtered([ExampleUpdate()], "ax ") == []
  {
    var u := ExampleUpdate();
    ExampleQueries();
    ExampleMatches();
    var r := Filtered([u], "ax");
    assert u in r;
    assert |r| <= 1;
    assert r == [u];
  }

  /** The translation a card shows: for wet viewers `translation_for_wet`, for dry
      viewers `translation_for_dry`. */
  function Translation(u: UpdateSummary, viewer: Mode): (r: Option<string>)
    ensures viewer == Wet ==> r == u.translationForWet
    ensures viewer == Dry ==> r == u.translationForDry
  {
    if viewer == Wet then u.translationForWet else u.translationForDry
  }

  /** `update.followups?.length || 0`. */
  function FollowupsCount(u: UpdateSummary): (n: nat)
    ensures u.followups.None? ==> n == 0
    ensures u.followups.Some? ==> n == |u.followups.value|
  {
    match u.followups
    case None => 0
    case Some(fs) => |fs|
  }

  const ViewerKey := "labbridge.viewerMode"

  /** The viewer mode stored in `localStorage`, when it is exactly `"wet"` or `"dry"`. */
  function StoredMode(storage: map<string, string>): (r: Option<Mode>)
    ensures r.Some? <==> ViewerKey in storage && (storage[ViewerKey] == "wet" || storage[ViewerKey] == "dry")
    ensures r.Some? ==> storage[ViewerKey] == ModeName(r.value)
  {
    if ViewerKey in storage then ModeFromString(storage[ViewerKey]) else None
  }

  /** What the persisting effect writes reads back as the same mode. */
  lemma PersistedModeReadsBack(storage: map<string, string>, m: Mode)
    ensures StoredMode(storage[ViewerKey := ModeName(m)]) == Some(m)
  {
  }

  /** The component's state cells and the browser's `localStorage`. */
  class TimelineView {
    var viewerMode: Mode
    var query: string
    var storage: map<string, string>

    /** `useState("wet")`, `useState("")`. */
    constructor (storage: map<string, string>)
      ensures viewerMode == Wet && query == "" && this.storage == storage
    {
      viewerMode := Wet;
      query := "";
      this.storage := storage;
    }

    /** The mount effect: adopt the stored mode only when it is `"wet"` or `"dry"`. */
    method RestoreViewerMode()
      modifies this
      ensures StoredMode(storage).Some? ==> viewerMode == StoredMode(storage).value
      ensures StoredMode(storage).None? ==> viewerMode == old(viewerMode)
      ensures storage == old(storage) && query == old(query)
    {
      var stored := StoredMode(storage);
      if stored.Some? {
        viewerMode := stored.value;
      }
    }

    /** The toggle's `onValueChange`: any other value, including the empty string the
        toggle sends when deselected, leaves the mode as it is. */
    method OnValueChange(value: string)
      modifies this
      ensures ModeFromString(value).Some? ==> viewerMode == ModeFromString(value).value
      ensures ModeFromString(value).None? ==> viewerMode == old(viewerMode)
      ensures viewerMode != old(viewerMode) ==> value == ModeName(viewerMode)
      ensures storage == old(storage) && query == old(query)
    {
      var m := ModeFromString(value);
      if m.Some? {
        viewerMode := m.value;
      }
    }

    /** The effect that runs whenever the mode changes: store it under the viewer key. */
    method PersistViewerMode()
      modifies this
      ensures storage == old(storage)[ViewerKey := ModeName(viewerMode)]
      ensures StoredMode(storage) == Some(viewerMode)
      ensures viewerMode == old(viewerMode) && query == old(query)
    {
      storage := storage[ViewerKey := ModeName(viewerMode)];
    }

    /** The search box's `onChange`. */
    method SetQuery(value: string)
      modifies this
      ensures query == value && viewerMode == old(viewerMode) && storage == old(storage)
    {
      query := value;
    }

    /** The list the component renders. */
    function Shown(updates: seq<UpdateSummary>): seq<UpdateSummary>
      reads this
    {
      Filtered(updates, query)
    }
  }
}
