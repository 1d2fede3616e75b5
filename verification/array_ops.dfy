/** The two JavaScript array queries the service is built from:
    `find` (first element satisfying a predicate, if any) and `filter`
    (every element satisfying it, in order). */
module ArrayOps {
  import opened Models

  /** Position of the first element satisfying `p`. */
  function FindIndex<T>(s: seq<T>, p: T -> bool): (r: Option<nat>)
    ensures r.Some? ==> r.value < |s| && p(s[r.value])
    ensures r.Some? ==> forall k :: 0 <= k < r.value ==> !p(s[k])
    ensures r.None? ==> forall k :: 0 <= k < |s| ==> !p(s[k])
  {
    if |s| == 0 then None
    else if p(s[0]) then Some(0)
    else match FindIndex(s[1..], p)
      case None => None
      case Some(i) => Some(i + 1)
  }

  /** `Array.prototype.find`: the first element satisfying `p`, or nothing. */
  function Find<T>(s: seq<T>, p: T -> bool): (r: Option<T>)
    ensures r.None? <==> forall k :: 0 <= k < |s| ==> !p(s[k])
    ensures r.Some? ==> exists i :: 0 <= i < |s| && s[i] == r.value && p(s[i]) && forall k :: 0 <= k < i ==> !p(s[k])
  {
    match FindIndex(s, p)
    case None => None
    case Some(i) => Some(s[i])
  }

  /** `Array.prototype.filter`: the elements satisfying `p`, in their original order. */
  function Filter<T>(s: seq<T>, p: T -> bool): (r: seq<T>)
    ensures |r| <= |s|
    ensures forall k :: 0 <= k < |r| ==> r[k] in s && p(r[k])
    ensures forall k :: 0 <= k < |s| && p(s[k]) ==> s[k] in r
  {
    if |s| == 0 then []
    else
      var rest := Filter(s[1..], p);
      assert s == [s[0]] + s[1..];
      if p(s[0]) then [s[0]] + rest else rest
  }

  /** Filtering keeps every matching element as often as it occurs and drops every other. */
  lemma {:induction false} FilterMultiplicity<T>(s: seq<T>, p: T -> bool, x: T)
    ensures multiset(Filter(s, p))[x] == if p(x) then multiset(s)[x] else 0
  {
    if |s| != 0 {
      FilterMultiplicity(s[1..], p, x);
      assert s == [s[0]] + s[1..];
    }
  }

  /** Filtering distributes over concatenation, so it keeps insertion order. */
  lemma {:induction false} FilterConcat<T>(a: seq<T>, b: seq<T>, p: T -> bool)
    ensures Filter(a + b, p) == Filter(a, p) + Filter(b, p)
  {
    if |a| == 0 {
      assert a + b == b;
    } else {
      assert (a + b)[1..] == a[1..] + b;
      FilterConcat(a[1..], b, p);
    }
  }

  /** Appending one element extends the filtered sequence by that element exactly when it matches. */
  lemma FilterAppend<T>(s: seq<T>, x: T, p: T -> bool)
    ensures Filter(s + [x], p) == Filter(s, p) + (if p(x) then [x] else [])
  {
    FilterConcat(s, [x], p);
    assert [x][1..] == [];
  }

  /** The conjunction of two predicates. */
  function Both<T>(p: T -> bool, q: T -> bool): T -> bool
  {
    x => p(x) && q(x)
  }

  /** Filtering twice is filtering by the conjunction. */
  lemma {:induction false} FilterFilter<T>(s: seq<T>, p: T -> bool, q: T -> bool)
    ensures Filter(Filter(s, p), q) == Filter(s, Both(p, q))
  {
    if |s| != 0 {
      FilterFilter(s[1..], p, q);
    }
  }

  /** The positions of `s` whose element satisfies `p`. */
  ghost function MatchingIndices<T>(s: seq<T>, p: T -> bool): set<int>
  {
    set i | 0 <= i < |s| && p(s[i])
  }

  /** Appending one element adds its position to the matches exactly when it matches. */
  lemma MatchingIndicesAppend<T>(init: seq<T>, x: T, p: T -> bool)
    ensures |MatchingIndices(init + [x], p)| == |MatchingIndices(init, p)| + (if p(x) then 1 else 0)
  {
    var s := init + [x];
    var front := MatchingIndices(init, p);
    assert front == set i | 0 <= i < |init| && p(s[i]) by {
      forall i | 0 <= i < |init| ensures s[i] == init[i] { }
    }
    if p(x) {
      assert MatchingIndices(s, p) == front + {|init|};
    } else {
      assert MatchingIndices(s, p) == front;
    }
  }

  /** The length of a filter is the number of positions that match. */
  lemma {:induction false} FilterLengthCountsMatches<T>(s: seq<T>, p: T -> bool)
    ensures |Filter(s, p)| == |MatchingIndices(s, p)|
  {
    if |s| == 0 {
      assert MatchingIndices(s, p) == {};
    } else {
      var init, x := s[..|s| - 1], s[|s| - 1];
      assert s == init + [x];
      FilterLengthCountsMatches(init, p);
      FilterAppend(init, x, p);
      MatchingIndicesAppend(init, x, p);
    }
  }
}
