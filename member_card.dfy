/**
 * The lab-member card of the lab-connect front end
 * (Andrew/lab-connect-main/src/components/MemberCard.tsx): the avatar initials and
 * the wet/dry badge label.
 */
module MemberCard {

  /** `parts.join(sep)`. */
  function Join(parts: seq<string>, sep: char): string {
    if parts == [] then ""
    else if |parts| == 1 then parts[0]
    else parts[0] + [sep] + Join(parts[1..], sep)
  }

  /** `s.split(sep)` for a one-character separator: the maximal runs between separators,
      empty runs included, so there is always at least one part. */
  function Split(s: string, sep: char): (parts: seq<string>)
    ensures |parts| >= 1
    ensures forall i :: 0 <= i < |parts| ==> sep !in parts[i]
    ensures Join(parts, sep) == s
  {
    if s == [] then [""]
    else
      var rest := Split(s[1..], sep);
      if s[0] == sep then
        assert Join([""] + rest, sep) == [sep] + Join(rest, sep);
        [""] + rest
      else
        var parts := [[s[0]] + rest[0]] + rest[1..];
        assert Join(parts, sep) == [s[0]] + Join(rest, sep) by {
          if |rest| > 1 {
            assert parts[1..] == rest[1..];
          }
        }
        parts
  }

  /** `parts.map((n) => n[0]).join('')`: an empty part contributes nothing, since `n[0]`
      is `undefined` and joins as the empty string. */
  function FirstChars(parts: seq<string>): string {
    if parts == [] then ""
    else (if parts[0] == "" then "" else [parts[0][0]]) + FirstChars(parts[1..])
  }

  /** `.slice(0, 2)`. */
  function Take2(s: string): (r: string)
    ensures |r| == if |s| < 2 then |s| else 2
    ensures r == s[..|r|]
  {
    if |s| <= 2 then s else s[..2]
  }

  /** The initials shown in the avatar. */
  function Initials(name: string): (r: string)
    ensures |r| <= 2
  {
    Take2(FirstChars(Split(name, ' ')))
  }

  /** Reference definition: the characters of `s` that are not spaces and stand at the
      start or right after a space; `atStart` says whether the character before `s` was a
      space (or there was none). */
  function WordStarts(s: string, atStart: bool): string {
    if s == [] then ""
    else (if s[0] != ' ' && atStart then [s[0]] else "") + WordStarts(s[1..], s[0] == ' ')
  }

  lemma {:induction false} FirstCharsSplit(s: string)
    ensures FirstChars(Split(s, ' ')) == WordStarts(s, true)
    ensures FirstChars(Split(s, ' ')[1..]) == WordStarts(s, false)
  {
    if s != [] {
      var rest := Split(s[1..], ' ');
      FirstCharsSplit(s[1..]);
      if s[0] == ' ' {
        assert Split(s, ' ') == [""] + rest;
        assert ([""] + rest)[1..] == rest;
      } else {
        var parts := [[s[0]] + rest[0]] + rest[1..];
        assert Split(s, ' ') == parts;
        assert parts[1..] == rest[1..];
      }
    }
  }

  /** The initials are the first two word-initial letters of the name: the first letter
      of each space-separated word, in order, with empty words skipped. */
  lemma InitialsAreWordStarts(name: string)
    ensures Initials(name) == Take2(WordStarts(name, true))
  {
    FirstCharsSplit(name);
  }

  lemma {:induction false} WordStartsNoSpace(s: string, atStart: bool)
    ensures forall i :: 0 <= i < |WordStarts(s, atStart)| ==> WordStarts(s, atStart)[i] != ' '
  {
    if s != [] {
      WordStartsNoSpace(s[1..], s[0] == ' ');
    }
  }

  /** No initial is a space, and an empty or all-space name has no initials. */
  lemma InitialsShape(name: string)
    ensures forall i :: 0 <= i < |Initials(name)| ==> Initials(name)[i] != ' '
    ensures (forall i :: 0 <= i < |name| ==> name[i] == ' ') ==> Initials(name) == ""
  {
    InitialsAreWordStarts(name);
    WordStartsNoSpace(name, true);
    if forall i :: 0 <= i < |name| ==> name[i] == ' ' {
      AllSpacesNoStarts(name, true);
    }
  }

  lemma {:induction false} AllSpacesNoStarts(s: string, atStart: bool)
    requires forall i :: 0 <= i < |s| ==> s[i] == ' '
    ensures WordStarts(s, atStart) == ""
  {
    if s != [] {
      AllSpacesNoStarts(s[1..], true);
    }
  }

  /** `isWet ? 'Wet Lab' : 'Dry Lab'` with `isWet = member.labType === 'wet'`. */
  function BadgeLabel(labType: string): (badge: string)
    ensures badge == "Wet Lab" <==> labType == "wet"
    ensures badge == "Dry Lab" <==> labType != "wet"
  {
    if labType == "wet" then "Wet Lab" else "Dry Lab"
  }
}
