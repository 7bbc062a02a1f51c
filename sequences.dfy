/** Sequence helpers shared by the store and the statistics: JavaScript's
    `Array.prototype.filter`, stated as a left-to-right pass over a sequence. */
module Sequences {

  /** `r` is obtained from `s` by dropping some elements and keeping the rest
      in their original relative order. */
  ghost predicate IsSubsequence<T>(r: seq<T>, s: seq<T>)
    decreases |s|
  {
    if r == [] then true
    else if s == [] then false
    else if r[|r| - 1] == s[|s| - 1] then IsSubsequence(r[..|r| - 1], s[..|s| - 1])
    else IsSubsequence(r, s[..|s| - 1])
  }

  /** `s.filter(keep)`: the elements of `s` that satisfy `keep`, in order. */
  function Filter<T(!new)>(s: seq<T>, keep: T -> bool): (r: seq<T>)
    ensures |r| <= |s|
    ensures forall x :: x in r <==> x in s && keep(x)
    ensures IsSubsequence(r, s)
    ensures (forall x :: x in s ==> keep(x)) ==> r == s
  {
    if s == [] then []
    else
      var init, last := s[..|s| - 1], s[|s| - 1];
      assert s == init + [last];
      var r := Filter(init, keep);
      if keep(last) then
        assert r + [last] == Filter(init, keep) + [last];
        assert (r + [last])[..|r|] == r;
        r + [last]
      else
        r
  }

  /** Filtering keeps every occurrence of a kept value and none of a dropped one. */
  lemma {:induction false} FilterMultiplicity<T(!new)>(s: seq<T>, keep: T -> bool, x: T)
    ensures multiset(Filter(s, keep))[x] == if keep(x) then multiset(s)[x] else 0
    decreases |s|
  {
    if s != [] {
      var init, last := s[..|s| - 1], s[|s| - 1];
      assert s == init + [last];
      FilterMultiplicity(init, keep, x);
    }
  }

  /** A filtered sequence and its complement together account for every element. */
  lemma {:induction false} FilterSplitsLength<T(!new)>(s: seq<T>, keep: T -> bool, drop: T -> bool)
    requires forall x :: keep(x) <==> !drop(x)
    ensures |Filter(s, keep)| + |Filter(s, drop)| == |s|
    decreases |s|
  {
    if s != [] {
      FilterSplitsLength(s[..|s| - 1], keep, drop);
    }
  }

  /** Filtering twice with the same test gives the same result as filtering once. */
  lemma FilterIdempotent<T(!new)>(s: seq<T>, keep: T -> bool)
    ensures Filter(Filter(s, keep), keep) == Filter(s, keep)
  {
    var r := Filter(s, keep);
    assert forall x :: x in r ==> keep(x);
  }
}
