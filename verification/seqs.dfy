/** Order-preserving selection over sequences: the shape shared by every
    filtering loop of the weather service (`for x in xs: if p(x): out.append(x)`). */
module Seqs {

  /** The elements of `s` that satisfy `p`, in their original order.
      Defined from the back so that it follows a left-to-right loop that
      appends to an accumulator. */
  function Filter<T>(p: T -> bool, s: seq<T>): (r: seq<T>)
    ensures |r| <= |s|
    ensures forall i :: 0 <= i < |r| ==> p(r[i])
    decreases |s|
  {
    if |s| == 0 then []
    else
      var init := Filter(p, s[..|s| - 1]);
      if p(s[|s| - 1]) then init + [s[|s| - 1]] else init
  }

  /** The indices of `s` whose elements satisfy `p`, ascending. */
  function Positions<T>(p: T -> bool, s: seq<T>): (idx: seq<int>)
    ensures forall k :: 0 <= k < |idx| ==> 0 <= idx[k] < |s| && p(s[idx[k]])
    ensures forall k, l :: 0 <= k < l < |idx| ==> idx[k] < idx[l]
    ensures forall j :: 0 <= j < |s| && p(s[j]) ==> j in idx
    decreases |s|
  {
    if |s| == 0 then []
    else
      var init := Positions(p, s[..|s| - 1]);
      assert forall j :: 0 <= j < |s| - 1 ==> s[..|s| - 1][j] == s[j];
      if p(s[|s| - 1]) then init + [|s| - 1] else init
  }

  /** `idx` is a strictly increasing list of positions of `s` at which the
      elements of `r` stand, in order: `r` is a subsequence of `s` via `idx`. */
  ghost predicate Embeds<T>(r: seq<T>, s: seq<T>, idx: seq<int>) {
    && |idx| == |r|
    && (forall k :: 0 <= k < |idx| ==> 0 <= idx[k] < |s| && r[k] == s[idx[k]])
    && (forall k, l :: 0 <= k < l < |idx| ==> idx[k] < idx[l])
  }

  /** `r` consists of exactly the elements of `s` that satisfy `p`, in the
      order they have in `s`: every position satisfying `p` is selected, and
      no other. */
  ghost predicate SelectsExactly<T>(r: seq<T>, s: seq<T>, p: T -> bool) {
    exists idx ::
      && Embeds(r, s, idx)
      && (forall j :: 0 <= j < |s| ==> (p(s[j]) <==> j in idx))
  }

  /** The positions chosen by `Positions` are where `Filter` takes its
      elements from. */
  lemma {:induction false} FilterPositions<T>(p: T -> bool, s: seq<T>)
    ensures |Filter(p, s)| == |Positions(p, s)|
    ensures forall k :: 0 <= k < |Positions(p, s)| ==> Filter(p, s)[k] == s[Positions(p, s)[k]]
    decreases |s|
  {
    if |s| > 0 {
      var s' := s[..|s| - 1];
      FilterPositions(p, s');
      assert forall j :: 0 <= j < |s'| ==> s'[j] == s[j];
    }
  }

  /** `Filter` selects exactly the elements satisfying its predicate, in
      order. */
  lemma FilterSelectsExactly<T>(p: T -> bool, s: seq<T>)
    ensures SelectsExactly(Filter(p, s), s, p)
  {
    FilterPositions(p, s);
    var idx := Positions(p, s);
    assert Embeds(Filter(p, s), s, idx);
    assert forall j :: 0 <= j < |s| && j in idx ==> p(s[j]);
  }

  /** Filtering a filtered sequence is filtering by the conjunction `r` of
      the two predicates. */
  lemma {:induction false} FilterFilter<T>(p: T -> bool, q: T -> bool, r: T -> bool, s: seq<T>)
    requires forall x :: r(x) == (p(x) && q(x))
    ensures Filter(q, Filter(p, s)) == Filter(r, s)
    decreases |s|
  {
    if |s| > 0 {
      var s' := s[..|s| - 1];
      FilterFilter(p, q, r, s');
      var f := Filter(p, s');
      var x := s[|s| - 1];
      if p(x) {
        assert (f + [x])[..|f + [x]| - 1] == f;
      }
    }
  }

  /** Extending the input by one element extends `Filter`'s result by that
      element exactly when it satisfies the predicate. */
  lemma FilterSnoc<T>(p: T -> bool, s: seq<T>, x: T)
    ensures Filter(p, s + [x]) == if p(x) then Filter(p, s) + [x] else Filter(p, s)
  {
    assert (s + [x])[..|s + [x]| - 1] == s;
  }

  /** `FilterSnoc` stated on the prefixes of one sequence, one case per
      outcome of the test. */
  lemma FilterPrefix<T>(p: T -> bool, s: seq<T>, i: nat)
    requires i < |s|
    ensures p(s[i]) ==> Filter(p, s[..i + 1]) == Filter(p, s[..i]) + [s[i]]
    ensures !p(s[i]) ==> Filter(p, s[..i + 1]) == Filter(p, s[..i])
  {
    assert s[..i + 1] == s[..i] + [s[i]];
    FilterSnoc(p, s[..i], s[i]);
  }
}
