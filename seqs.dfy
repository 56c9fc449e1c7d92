/** The array helpers the engine borrows from JavaScript: `find`, `filter` and a numeric
    ascending `sort`, as functions on sequences. */
module Seqs {
  import opened Types

  /** The index of the first element that satisfies `p` (the element `find` returns),
      or None when no element does. */
  function FindIndex<T>(s: seq<T>, p: T -> bool): (r: Option<nat>)
    ensures r.Some? ==> r.value < |s| && p(s[r.value])
    ensures r.Some? ==> forall j :: 0 <= j < r.value ==> !p(s[j])
    ensures r.None? <==> forall j :: 0 <= j < |s| ==> !p(s[j])
  {
    if |s| == 0 then None
    else if p(s[0]) then Some(0)
    else match FindIndex(s[1..], p)
      case None => None
      case Some(k) => Some(k + 1)
  }

  /** The elements that satisfy `p`, in their original order. */
  function Filter<T(!new)>(s: seq<T>, p: T -> bool): (r: seq<T>)
    ensures |r| <= |s|
    ensures forall x :: x in r <==> x in s && p(x)
    ensures multiset(r) <= multiset(s)
  {
    if |s| == 0 then []
    else
      var rest := Filter(s[1..], p);
      assert s == [s[0]] + s[1..];
      if p(s[0]) then [s[0]] + rest
      else
        assert forall x :: x in s <==> x == s[0] || x in s[1..];
        rest
  }

  /** Every copy of an element that satisfies `p` is kept, and no copy of one that fails it. */
  lemma {:induction false} FilterCounts<T(!new)>(s: seq<T>, p: T -> bool)
    ensures forall x :: multiset(Filter(s, p))[x] == if p(x) then multiset(s)[x] else 0
  {
    if |s| > 0 {
      FilterCounts(s[1..], p);
      assert s == [s[0]] + s[1..];
      assert multiset(s) == multiset{s[0]} + multiset(s[1..]);
    }
  }

  /** Filtering works piece by piece and keeps the order: the filter of a concatenation is
      the concatenation of the filters. */
  lemma {:induction false} FilterAppend<T(!new)>(a: seq<T>, b: seq<T>, p: T -> bool)
    ensures Filter(a + b, p) == Filter(a, p) + Filter(b, p)
  {
    if |a| == 0 {
      assert a + b == b;
    } else {
      assert (a + b)[0] == a[0] && (a + b)[1..] == a[1..] + b;
      FilterAppend(a[1..], b, p);
    }
  }

  /** `filter(p)[0]` is what `find(p)` returns: the first element satisfying `p`. */
  lemma {:induction false} FilterHeadIsFound<T(!new)>(s: seq<T>, p: T -> bool)
    ensures Filter(s, p) != [] <==> FindIndex(s, p).Some?
    ensures Filter(s, p) != [] ==> Filter(s, p)[0] == s[FindIndex(s, p).value]
  {
    if |s| > 0 && !p(s[0]) {
      FilterHeadIsFound(s[1..], p);
    }
  }

  predicate SortedAsc(s: seq<real>) {
    forall i, j :: 0 <= i < j < |s| ==> s[i] <= s[j]
  }

  /** `x` put into its place in the ascending sequence `s`. */
  function InsertAsc(x: real, s: seq<real>): (r: seq<real>)
    requires SortedAsc(s)
    ensures SortedAsc(r)
    ensures multiset(r) == multiset(s) + multiset{x}
  {
    if |s| == 0 || x <= s[0] then [x] + s
    else
      var rest := InsertAsc(x, s[1..]);
      assert s == [s[0]] + s[1..];
      LowerBoundOfShuffle(s[0], s[1..] + [x], rest);
      SortedCons(s[0], rest);
      [s[0]] + rest
  }

  lemma SortedCons(b: real, rest: seq<real>)
    requires SortedAsc(rest) && forall k :: 0 <= k < |rest| ==> b <= rest[k]
    ensures SortedAsc([b] + rest)
  {
    var r := [b] + rest;
    forall i, j | 0 <= i < j < |r| ensures r[i] <= r[j] {
      assert r[j] == rest[j - 1];
      if i > 0 {
        assert r[i] == rest[i - 1];
      }
    }
  }

  /** A lower bound of every element is one of every element of any rearrangement. */
  lemma LowerBoundOfShuffle(b: real, t: seq<real>, r: seq<real>)
    requires multiset(r) == multiset(t) && forall k :: 0 <= k < |t| ==> b <= t[k]
    ensures forall k :: 0 <= k < |r| ==> b <= r[k]
  {
    forall k | 0 <= k < |r| ensures b <= r[k] {
      assert r[k] in multiset(t);
    }
  }

  /** An ascending arrangement of the same values. */
  function SortAsc(s: seq<real>): (r: seq<real>)
    ensures SortedAsc(r)
    ensures multiset(r) == multiset(s) && |r| == |s|
  {
    if |s| == 0 then []
    else
      assert s == [s[0]] + s[1..];
      var r := InsertAsc(s[0], SortAsc(s[1..]));
      assert |multiset(r)| == |multiset(s)|;
      r
  }
}
