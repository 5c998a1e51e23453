/** Filtering a list, as `Array.filter` does, and what the accounting models need of it. */
module Filters {
  function Filter<T>(keep: T -> bool, s: seq<T>): seq<T> {
    if s == [] then []
    else
      var sooner := Filter(keep, s[..|s| - 1]);
      if keep(s[|s| - 1]) then sooner + [s[|s| - 1]] else sooner
  }

  /** One test selects exactly what the other leaves. */
  ghost predicate Opposite<T(!new)>(p: T -> bool, r: T -> bool) {
    forall x: T :: r(x) == !p(x)
  }

  lemma {:induction false} FilterSplits<T>(p: T -> bool, r: T -> bool, s: seq<T>)
    requires forall k :: 0 <= k < |s| ==> r(s[k]) == !p(s[k])
    ensures multiset(Filter(p, s)) + multiset(Filter(r, s)) == multiset(s)
    ensures |Filter(p, s)| + |Filter(r, s)| == |s|
  {
    if s != [] {
      FilterSplits(p, r, s[..|s| - 1]);
      assert s == s[..|s| - 1] + [s[|s| - 1]];
    }
  }

  /** `at` lists, in order, the positions in `s` of the entries of `chosen`, which are those `p` holds of. */
  ghost predicate Positions<T>(p: T -> bool, s: seq<T>, chosen: seq<T>, at: seq<nat>) {
    && |at| == |chosen|
    && (forall k :: 0 <= k < |at| ==> at[k] < |s| && chosen[k] == s[at[k]])
    && (forall k, l :: 0 <= k < l < |at| ==> at[k] < at[l])
    && (forall i :: 0 <= i < |s| ==> (i in at <==> p(s[i])))
  }

  lemma PositionsGrow<T>(p: T -> bool, s: seq<T>, x: T, chosen: seq<T>, at: seq<nat>)
    requires Positions(p, s, chosen, at)
    ensures if p(x) then Positions(p, s + [x], chosen + [x], at + [|s|]) else Positions(p, s + [x], chosen, at)
  {
  }

  /** A filter's result is the chosen entries in their old order. */
  lemma {:induction false} FilterPositions<T>(p: T -> bool, s: seq<T>) returns (at: seq<nat>)
    ensures Positions(p, s, Filter(p, s), at)
  {
    if s == [] {
      at := [];
    } else {
      var (init, x) := (s[..|s| - 1], s[|s| - 1]);
      at := FilterPositions(p, init);
      PositionsGrow(p, init, x, Filter(p, init), at);
      assert s == init + [x];
      if p(x) {
        at := at + [|init|];
      }
    }
  }

  /** The positions of the entries a test holds of. */
  ghost function Where<T>(p: T -> bool, s: seq<T>): set<int> {
    set i | 0 <= i < |s| && p(s[i])
  }

  lemma WhereGrows<T>(p: T -> bool, s: seq<T>, x: T)
    ensures Where(p, s + [x]) == if p(x) then Where(p, s) + {|s|} else Where(p, s)
  {
    assert forall i :: 0 <= i < |s| ==> (s + [x])[i] == s[i];
    assert (s + [x])[|s|] == x;
  }

  /** A filter's result is as long as there are positions it chooses. */
  lemma {:induction false} FilterCounts<T>(p: T -> bool, s: seq<T>)
    ensures |Filter(p, s)| == |Where(p, s)|
  {
    if s == [] {
      assert Where(p, s) == {};
    } else {
      var (init, x) := (s[..|s| - 1], s[|s| - 1]);
      FilterCounts(p, init);
      WhereGrows(p, init, x);
      assert s == init + [x];
      assert |init| !in Where(p, init);
    }
  }

  lemma {:induction false} FiltersCommute<T>(p: T -> bool, r: T -> bool, s: seq<T>)
    ensures Filter(p, Filter(r, s)) == Filter(r, Filter(p, s))
  {
    if s != [] {
      var (init, x) := (s[..|s| - 1], s[|s| - 1]);
      FiltersCommute(p, r, init);
      FilterSnoc(p, Filter(r, init), x);
      FilterSnoc(r, Filter(p, init), x);
    }
  }

  lemma FilterSnoc<T>(p: T -> bool, s: seq<T>, x: T)
    ensures Filter(p, s + [x]) == if p(x) then Filter(p, s) + [x] else Filter(p, s)
  {
    assert (s + [x])[..|s|] == s;
  }

  lemma {:induction false} SameTestSameFilter<T>(p: T -> bool, r: T -> bool, s: seq<T>)
    requires forall k :: 0 <= k < |s| ==> p(s[k]) == r(s[k])
    ensures Filter(p, s) == Filter(r, s)
  {
    if s != [] {
      SameTestSameFilter(p, r, s[..|s| - 1]);
    }
  }

  lemma {:induction false} FilterMembers<T>(p: T -> bool, s: seq<T>)
    ensures forall x :: x in Filter(p, s) <==> x in s && p(x)
  {
    if s != [] {
      var (init, x) := (s[..|s| - 1], s[|s| - 1]);
      FilterMembers(p, init);
      assert forall y :: y in s <==> y in init || y == x;
    }
  }

  lemma {:induction false} FilterAll<T>(p: T -> bool, s: seq<T>)
    requires forall k :: 0 <= k < |s| ==> p(s[k])
    ensures Filter(p, s) == s
  {
    if s != [] {
      FilterAll(p, s[..|s| - 1]);
      assert s == s[..|s| - 1] + [s[|s| - 1]];
    }
  }

  lemma {:induction false} FilterNone<T>(p: T -> bool, s: seq<T>)
    requires forall k :: 0 <= k < |s| ==> !p(s[k])
    ensures Filter(p, s) == []
  {
    if s != [] {
      FilterNone(p, s[..|s| - 1]);
    }
  }

  /** Filtering by a wider test first changes nothing. */
  lemma {:induction false} FilterNarrows<T>(p: T -> bool, wide: T -> bool, s: seq<T>)
    requires forall k :: 0 <= k < |s| && p(s[k]) ==> wide(s[k])
    ensures Filter(p, Filter(wide, s)) == Filter(p, s)
  {
    if s != [] {
      var (init, x) := (s[..|s| - 1], s[|s| - 1]);
      FilterNarrows(p, wide, init);
      if wide(x) {
        FilterSnoc(p, Filter(wide, init), x);
      }
    }
  }
}
