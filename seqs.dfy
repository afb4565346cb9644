/** List operations the components use: JavaScript's `filter`, filtering by index, and
    the last entry satisfying a test. */
module Seqs {
  import opened Wrappers

  /** `s` is an order-preserving sub-list of `t`: `s` is `t` with some entries left out. */
  predicate IsSubsequence<T(==)>(s: seq<T>, t: seq<T>) {
    s == [] || (t != [] && ((s[0] == t[0] && IsSubsequence(s[1..], t[1..])) || IsSubsequence(s, t[1..])))
  }

  /** `xs.filter(p)`: the entries that satisfy `p`, in their original order. */
  function Filter<T(==,!new)>(xs: seq<T>, p: T -> bool): (r: seq<T>)
    ensures |r| <= |xs|
    ensures forall i :: 0 <= i < |r| ==> r[i] in xs && p(r[i])
    ensures forall i :: 0 <= i < |xs| && p(xs[i]) ==> xs[i] in r
    ensures IsSubsequence(r, xs)
    ensures forall x :: multiset(r)[x] == if p(x) then multiset(xs)[x] else 0
  {
    if xs == [] then []
    else
      assert xs == [xs[0]] + xs[1..];
      if p(xs[0]) then [xs[0]] + Filter(xs[1..], p)
      else Filter(xs[1..], p)
  }

  /** Two tests that agree on every entry of `xs` filter it the same way. */
  lemma {:induction false} FilterAgree<T(!new)>(xs: seq<T>, p: T -> bool, q: T -> bool)
    requires forall i :: 0 <= i < |xs| ==> p(xs[i]) == q(xs[i])
    ensures Filter(xs, p) == Filter(xs, q)
  {
    if xs != [] {
      FilterAgree(xs[1..], p, q);
    }
  }

  /** Filtering with a predicate every entry satisfies returns the list unchanged. */
  lemma {:induction false} FilterKeepsAll<T(!new)>(xs: seq<T>, p: T -> bool)
    requires forall i :: 0 <= i < |xs| ==> p(xs[i])
    ensures Filter(xs, p) == xs
  {
    if xs != [] {
      FilterKeepsAll(xs[1..], p);
    }
  }

  /** `xs.filter((_, i) => i !== index)` where the first entry of `xs` has position `from`. */
  function WithoutPosition<T>(xs: seq<T>, index: int, from: int): (r: seq<T>)
    decreases |xs|
  {
    if xs == [] then []
    else if from == index then WithoutPosition(xs[1..], index, from + 1)
    else [xs[0]] + WithoutPosition(xs[1..], index, from + 1)
  }

  /** Removing by position drops exactly the entry at `index - from` when that is a valid
      position, and otherwise returns the list unchanged. */
  lemma {:induction false} WithoutPositionSpec<T>(xs: seq<T>, index: int, from: int)
    ensures WithoutPosition(xs, index, from)
      == if from <= index < from + |xs| then xs[..index - from] + xs[index - from + 1..] else xs
  {
    if xs != [] {
      var rest := WithoutPosition(xs[1..], index, from + 1);
      WithoutPositionSpec(xs[1..], index, from + 1);
      if from == index {
        assert xs[index - from + 1..] == xs[1..];
      } else if from < index < from + |xs| {
        var k := index - from;
        assert rest == xs[1..][..k - 1] + xs[1..][k..];
        assert xs[..k] == [xs[0]] + xs[1..][..k - 1];
        assert xs[k + 1..] == xs[1..][k..];
      } else {
        assert rest == xs[1..];
        assert xs == [xs[0]] + xs[1..];
      }
    }
  }

  /** The position of the last entry of `xs` that satisfies `p`, or `None` when none does. */
  function LastWhere<T>(xs: seq<T>, p: T -> bool): (r: Option<nat>)
    ensures r.Some? ==> r.value < |xs| && p(xs[r.value])
    ensures r.Some? ==> forall j :: r.value < j < |xs| ==> !p(xs[j])
    ensures r.None? <==> forall i :: 0 <= i < |xs| ==> !p(xs[i])
  {
    if xs == [] then None
    else if p(xs[|xs| - 1]) then Some(|xs| - 1)
    else LastWhere(xs[..|xs| - 1], p)
  }
}
