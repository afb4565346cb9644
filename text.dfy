/**
 * String helpers shared by the Python and TypeScript code:
 * Python's `str.strip()`, JavaScript's `String.prototype.trim()`,
 * lower-casing and JavaScript's `String.prototype.includes()`.
 */
module Text {

  /** The characters for which Python's `str.isspace()` holds; `str.strip()` removes them. */
  predicate IsPyWhitespace(c: char) {
    ('\t' <= c <= '\r') || ('\U{1C}' <= c <= ' ') || c == '\U{85}' || c == '\U{A0}'
    || c == '\U{1680}' || ('\U{2000}' <= c <= '\U{200A}') || c == '\U{2028}' || c == '\U{2029}'
    || c == '\U{202F}' || c == '\U{205F}' || c == '\U{3000}'
  }

  /** The WhiteSpace and LineTerminator characters of ECMAScript, which `trim()` removes. */
  predicate IsJsWhitespace(c: char) {
    ('\t' <= c <= '\r') || c == ' ' || c == '\U{A0}' || c == '\U{1680}'
    || ('\U{2000}' <= c <= '\U{200A}') || c == '\U{2028}' || c == '\U{2029}'
    || c == '\U{202F}' || c == '\U{205F}' || c == '\U{3000}' || c == '\U{FEFF}'
  }

  /** Drops the leading characters that satisfy `ws`. */
  function TrimStart(s: string, ws: char -> bool): string {
    if s != [] && ws(s[0]) then TrimStart(s[1..], ws) else s
  }

  /** Drops the trailing characters that satisfy `ws`. */
  function TrimEnd(s: string, ws: char -> bool): string {
    if s != [] && ws(s[|s| - 1]) then TrimEnd(s[..|s| - 1], ws) else s
  }

  /** `TrimStart` returns the longest suffix of `s` that does not start with a
      character satisfying `ws`. */
  lemma {:induction false} TrimStartSpec(s: string, ws: char -> bool)
    ensures var r := TrimStart(s, ws);
      && |r| <= |s| && r == s[|s| - |r|..]
      && (forall k :: 0 <= k < |s| - |r| ==> ws(s[k]))
      && (r != [] ==> !ws(r[0]))
  {
    if s != [] && ws(s[0]) {
      TrimStartSpec(s[1..], ws);
      var r := TrimStart(s, ws);
      assert forall k :: 1 <= k < |s| - |r| ==> s[k] == s[1..][k - 1];
    }
  }

  /** `TrimEnd` returns the longest prefix of `s` that does not end with a character
      satisfying `ws`. */
  lemma {:induction false} TrimEndSpec(s: string, ws: char -> bool)
    ensures var r := TrimEnd(s, ws);
      && |r| <= |s| && r == s[..|r|]
      && (forall k :: |r| <= k < |s| ==> ws(s[k]))
      && (r != [] ==> !ws(r[|r| - 1]))
  {
    if s != [] && ws(s[|s| - 1]) {
      TrimEndSpec(s[..|s| - 1], ws);
    }
  }

  function TrimBy(s: string, ws: char -> bool): string {
    TrimEnd(TrimStart(s, ws), ws)
  }

  /** Python's `s.strip()`. */
  function Strip(s: string): string {
    TrimBy(s, IsPyWhitespace)
  }

  /** JavaScript's `s.trim()`. */
  function Trim(s: string): string {
    TrimBy(s, IsJsWhitespace)
  }

  predicate AllWhitespace(s: string, ws: char -> bool) {
    forall k :: 0 <= k < |s| ==> ws(s[k])
  }

  /** Trimming leaves the empty string exactly when every character is whitespace,
      which is what `not s.strip()` and `!s.trim()` test. */
  lemma TrimEmptyIff(s: string, ws: char -> bool)
    ensures TrimBy(s, ws) == "" <==> AllWhitespace(s, ws)
  {
    var t := TrimStart(s, ws);
    TrimStartSpec(s, ws);
    TrimEndSpec(t, ws);
    if t != "" {
      assert !ws(s[|s| - |t|]);
    }
  }

  /** The trimmed string is a contiguous slice of the input with only whitespace cut off
      on either side, and it neither starts nor ends with whitespace. */
  lemma TrimIsInnerSlice(s: string, ws: char -> bool)
    ensures var r := TrimBy(s, ws);
      exists i :: 0 <= i <= |s| - |r| && r == s[i..i + |r|]
        && AllWhitespace(s[..i], ws) && AllWhitespace(s[i + |r|..], ws)
        && (r != [] ==> !ws(r[0]) && !ws(r[|r| - 1]))
  {
    var t := TrimStart(s, ws);
    var r := TrimEnd(t, ws);
    TrimStartSpec(s, ws);
    TrimEndSpec(t, ws);
    var i := |s| - |t|;
    assert r == s[i..i + |r|];
    assert AllWhitespace(s[..i], ws);
    assert forall k :: i + |r| <= k < |s| ==> s[k] == t[k - i];
    assert AllWhitespace(s[i + |r|..], ws);
    if r != [] {
      assert r[0] == t[0];
    }
  }

  /** Trimming twice is the same as trimming once. */
  lemma TrimIdempotent(s: string, ws: char -> bool)
    ensures TrimBy(TrimBy(s, ws), ws) == TrimBy(s, ws)
  {
    var r := TrimBy(s, ws);
    TrimStartSpec(s, ws);
    TrimEndSpec(TrimStart(s, ws), ws);
    assert TrimStart(r, ws) == r;
    assert TrimEnd(r, ws) == r;
  }

  function LowerChar(c: char): char {
    if 'A' <= c <= 'Z' then (c as int + 32) as char else c
  }

  /** `toLowerCase()` / `lower()` on the ASCII letters. */
  function Lower(s: string): (r: string)
    ensures |r| == |s|
    ensures forall i :: 0 <= i < |s| ==> r[i] == LowerChar(s[i])
  {
    seq(|s|, i requires 0 <= i < |s| => LowerChar(s[i]))
  }

  predicate IsPrefix(p: string, s: string) {
    |p| <= |s| && s[..|p|] == p
  }

  /** JavaScript's `s.includes(q)`: `q` occurs somewhere in `s` (the empty string occurs everywhere). */
  predicate Contains(s: string, q: string) {
    IsPrefix(q, s) || (s != [] && Contains(s[1..], q))
  }

  /** `q` occurs in `s` starting at position `i`. */
  predicate OccursAt(s: string, q: string, i: int) {
    0 <= i <= |s| - |q| && s[i..i + |q|] == q
  }

  /** An occurrence at a position after the first is an occurrence in the tail. */
  lemma OccursInTail(s: string, q: string, i: int)
    requires s != [] && 1 <= i
    ensures OccursAt(s, q, i) <==> OccursAt(s[1..], q, i - 1)
  {
    if i <= |s| - |q| {
      assert s[1..][i - 1..i - 1 + |q|] == s[i..i + |q|];
    }
  }

  /** `Contains` agrees with the definition by position: some slice of `s` equals `q`. */
  lemma {:induction false} ContainsIff(s: string, q: string)
    ensures Contains(s, q) <==> exists i :: OccursAt(s, q, i)
  {
    if s == [] {
      if q == [] {
        assert OccursAt(s, q, 0);
      }
    } else {
      ContainsIff(s[1..], q);
      if Contains(s, q) {
        if IsPrefix(q, s) {
          assert OccursAt(s, q, 0);
        } else {
          var i :| OccursAt(s[1..], q, i);
          OccursInTail(s, q, i + 1);
        }
      } else {
        forall i | 1 <= i
          ensures OccursAt(s, q, i) <==> OccursAt(s[1..], q, i - 1)
        {
          OccursInTail(s, q, i);
        }
      }
    }
  }
}
