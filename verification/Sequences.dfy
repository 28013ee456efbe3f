/** Permutations, sums and sorting of sequences. A permutation is equality of multisets. */
module Sequences {

  function RemoveAt<T>(s: seq<T>, i: nat): (r: seq<T>)
    requires i < |s|
    ensures |r| == |s| - 1
  {
    s[..i] + s[i + 1..]
  }

  lemma RemoveAtMultiset<T>(s: seq<T>, i: nat)
    requires i < |s|
    ensures multiset(s) == multiset(RemoveAt(s, i)) + multiset{s[i]}
  {
    assert s == s[..i] + [s[i]] + s[i + 1..];
  }

  /** Removing the last element of one sequence and a matching one of a permutation of it. */
  lemma MatchLast<T>(s: seq<T>, t: seq<T>) returns (i: nat)
    requires s != [] && multiset(s) == multiset(t)
    ensures i < |t| && t[i] == s[|s| - 1] && multiset(RemoveAt(t, i)) == multiset(s[..|s| - 1])
  {
    var x := s[|s| - 1];
    assert s == s[..|s| - 1] + [x];
    assert x in multiset(s);
    assert x in t;
    i :| 0 <= i < |t| && t[i] == x;
    RemoveAtMultiset(t, i);
    assert multiset(t) == multiset(s[..|s| - 1]) + multiset{x};
    assert multiset(RemoveAt(t, i)) + multiset{x} - multiset{x} == multiset(RemoveAt(t, i));
  }

  // ----- sums -----

  function Sum<T>(s: seq<T>, f: T -> int): int {
    if s == [] then 0 else Sum(s[..|s| - 1], f) + f(s[|s| - 1])
  }

  lemma {:induction false} SumConcat<T>(s: seq<T>, t: seq<T>, f: T -> int)
    ensures Sum(s + t, f) == Sum(s, f) + Sum(t, f)
  {
    if t == [] {
      assert s + t == s;
    } else {
      assert (s + t)[..|s + t| - 1] == s + t[..|t| - 1];
      SumConcat(s, t[..|t| - 1], f);
    }
  }

  lemma SumPush<T>(s: seq<T>, x: T, f: T -> int)
    ensures Sum(s + [x], f) == Sum(s, f) + f(x)
  {
    assert (s + [x])[..|s|] == s;
  }

  lemma SumSplit<T>(before: seq<T>, x: T, after: seq<T>, f: T -> int)
    ensures Sum(before + [x] + after, f) == Sum(before + after, f) + f(x)
  {
    hide Sum;
    SumConcat(before, after, f);
    SumConcat(before + [x], after, f);
    SumPush(before, x, f);
  }

  lemma SplitAround<T>(s: seq<T>, i: nat)
    requires i < |s|
    ensures s == s[..i] + [s[i]] + s[i + 1..]
  {
  }

  lemma SumRemoveAt<T>(s: seq<T>, i: nat, f: T -> int)
    requires i < |s|
    ensures Sum(s, f) == Sum(RemoveAt(s, i), f) + f(s[i])
  {
    hide Sum;
    SplitAround(s, i);
    SumSplit(s[..i], s[i], s[i + 1..], f);
  }

  /** A sum does not depend on the order of its terms. */
  lemma {:induction false} SumPermuted<T>(s: seq<T>, t: seq<T>, f: T -> int)
    requires multiset(s) == multiset(t)
    ensures Sum(s, f) == Sum(t, f)
  {
    if s == [] {
      assert |multiset(t)| == 0;
    } else {
      var i := MatchLast(s, t);
      SumRemoveAt(t, i, f);
      SumPermuted(s[..|s| - 1], RemoveAt(t, i), f);
    }
  }

  lemma {:induction false} SumSame<T>(s: seq<T>, f: T -> int, g: T -> int)
    requires forall x :: x in s ==> f(x) == g(x)
    ensures Sum(s, f) == Sum(s, g)
  {
    if s != [] { SumSame(s[..|s| - 1], f, g); }
  }

  lemma {:induction false} SumBound<T>(s: seq<T>, f: T -> int, lo: int, hi: int)
    requires forall x :: x in s ==> lo <= f(x) <= hi
    ensures lo * |s| <= Sum(s, f) <= hi * |s|
  {
    if s != [] { SumBound(s[..|s| - 1], f, lo, hi); }
  }

  lemma {:induction false} SumNonNegative<T>(s: seq<T>, f: T -> int)
    requires forall x :: x in s ==> 0 <= f(x)
    ensures 0 <= Sum(s, f)
  {
    if s != [] { SumNonNegative(s[..|s| - 1], f); }
  }

  // ----- distinct elements and pairs -----

  predicate Distinct<T(==)>(s: seq<T>) {
    forall i, j :: 0 <= i < j < |s| ==> s[i] != s[j]
  }

  lemma {:induction false} DistinctCounts<T>(s: seq<T>, x: T)
    requires Distinct(s)
    ensures multiset(s)[x] == if x in s then 1 else 0
  {
    if s != [] {
      assert s == s[..|s| - 1] + [s[|s| - 1]];
      DistinctCounts(s[..|s| - 1], x);
    }
  }

  /** Distinct sequences with the same elements are permutations of each other. */
  lemma DistinctSameElements<T>(s: seq<T>, t: seq<T>)
    requires Distinct(s) && Distinct(t) && forall x :: x in s <==> x in t
    ensures multiset(s) == multiset(t)
  {
    forall x ensures multiset(s)[x] == multiset(t)[x] {
      DistinctCounts(s, x);
      DistinctCounts(t, x);
    }
  }

  lemma DistinctPermuted<T>(s: seq<T>, t: seq<T>)
    requires multiset(s) == multiset(t) && Distinct(s)
    ensures Distinct(t)
  {
    forall i, j | 0 <= i < j < |t| ensures t[i] != t[j] {
      if t[i] == t[j] {
        assert t == t[..i] + [t[i]] + t[i + 1..j] + [t[j]] + t[j + 1..];
        assert multiset(t)[t[i]] >= 2;
        DistinctCounts(s, t[i]);
      }
    }
  }

  lemma TwoPlaces<T>(s: seq<T>, x: T) returns (i: nat, j: nat)
    requires multiset(s)[x] >= 2
    ensures i < j < |s| && s[i] == x && s[j] == x
  {
    assert x in multiset(s);
    j :| 0 <= j < |s| && s[j] == x;
    RemoveAtMultiset(s, j);
    assert x in multiset(RemoveAt(s, j));
    i :| 0 <= i < |RemoveAt(s, j)| && RemoveAt(s, j)[i] == x;
    if i < j { i, j := i, j; } else { i, j := j, i + 1; }
  }

  /** A symmetric relation on all pairs of a sequence holds on all pairs of a permutation. */
  lemma PairsPermuted<T>(s: seq<T>, t: seq<T>, related: (T, T) -> bool, i: nat, j: nat)
    requires multiset(s) == multiset(t)
    requires forall k, l :: 0 <= k < l < |s| ==> related(s[k], s[l]) && related(s[l], s[k])
    requires i < j < |t|
    ensures related(t[i], t[j])
  {
    var x, y := t[i], t[j];
    assert x in multiset(t) && y in multiset(t);
    assert x in s && y in s;
    if x != y {
      var k :| 0 <= k < |s| && s[k] == x;
      var l :| 0 <= l < |s| && s[l] == y;
    } else {
      assert t == t[..i] + [x] + t[i + 1..j] + [y] + t[j + 1..];
      assert multiset(t)[x] >= 2;
      var k, l := TwoPlaces(s, x);
    }
  }

  lemma SameElements<T>(s: seq<T>, t: seq<T>, x: T)
    requires multiset(s) == multiset(t)
    ensures x in s <==> x in t
  {
    assert x in s <==> x in multiset(s);
    assert x in t <==> x in multiset(t);
  }

  lemma SameLength<T>(s: seq<T>, t: seq<T>)
    requires multiset(s) == multiset(t)
    ensures |s| == |t|
  {
    assert |multiset(s)| == |s| && |multiset(t)| == |t|;
  }

  lemma {:induction false} MapPermuted<T, U>(s: seq<T>, t: seq<T>, f: T -> U)
    requires multiset(s) == multiset(t)
    ensures multiset(Map(s, f)) == multiset(Map(t, f))
  {
    SameLength(s, t);
    if s == [] {
    } else {
      var i := MatchLast(s, t);
      MapPermuted(s[..|s| - 1], RemoveAt(t, i), f);
      assert Map(RemoveAt(t, i), f) == RemoveAt(Map(t, f), i);
      RemoveAtMultiset(Map(t, f), i);
      assert Map(s, f) == Map(s[..|s| - 1], f) + [f(s[|s| - 1])];
    }
  }

  function Map<T, U>(s: seq<T>, f: T -> U): (r: seq<U>)
    ensures |r| == |s| && forall i :: 0 <= i < |s| ==> r[i] == f(s[i])
  {
    seq(|s|, i requires 0 <= i < |s| => f(s[i]))
  }

  // ----- sorting -----

  function InsertBy<T>(s: seq<T>, x: T, le: (T, T) -> bool): seq<T> {
    if s == [] || le(s[|s| - 1], x) then s + [x] else InsertBy(s[..|s| - 1], x, le) + [s[|s| - 1]]
  }

  /** A stable sort: equal elements keep their order. */
  function SortBy<T>(s: seq<T>, le: (T, T) -> bool): seq<T> {
    if s == [] then [] else InsertBy(SortBy(s[..|s| - 1], le), s[|s| - 1], le)
  }

  ghost predicate SortedBy<T>(s: seq<T>, le: (T, T) -> bool) {
    forall i, j :: 0 <= i < j < |s| ==> le(s[i], s[j])
  }

  ghost predicate TotalOn<T>(s: seq<T>, le: (T, T) -> bool) {
    && (forall x, y :: x in s && y in s ==> le(x, y) || le(y, x))
    && (forall x, y, z :: x in s && y in s && z in s && le(x, y) && le(y, z) ==> le(x, z))
  }

  lemma {:induction false} InsertPermutes<T>(s: seq<T>, x: T, le: (T, T) -> bool)
    ensures multiset(InsertBy(s, x, le)) == multiset(s) + multiset{x}
  {
    if s == [] || le(s[|s| - 1], x) {
    } else {
      InsertPermutes(s[..|s| - 1], x, le);
      assert s == s[..|s| - 1] + [s[|s| - 1]];
    }
  }

  lemma {:induction false} InsertSorted<T>(s: seq<T>, x: T, le: (T, T) -> bool)
    requires SortedBy(s, le) && TotalOn(s + [x], le)
    ensures SortedBy(InsertBy(s, x, le), le)
  {
    if s == [] {
    } else if le(s[|s| - 1], x) {
      var all := s + [x];
      forall i | 0 <= i < |s| ensures le(s[i], x) {
        if i < |s| - 1 { assert s[i] in all && s[|s| - 1] in all && x in all && le(s[i], s[|s| - 1]); }
      }
    } else {
      var init, last := s[..|s| - 1], s[|s| - 1];
      assert last in s + [x] && x in s + [x] && le(x, last);
      assert TotalOn(init + [x], le) by {
        assert forall y :: y in init + [x] ==> y in s + [x];
      }
      InsertSorted(init, x, le);
      InsertPermutes(init, x, le);
      var r := InsertBy(init, x, le);
      forall i | 0 <= i < |r| ensures le(r[i], last) {
        assert r[i] in multiset(r);
        assert r[i] == x || r[i] in init;
      }
    }
  }

  lemma {:induction false} SortPermutes<T>(s: seq<T>, le: (T, T) -> bool)
    ensures multiset(SortBy(s, le)) == multiset(s)
  {
    if s != [] {
      SortPermutes(s[..|s| - 1], le);
      InsertPermutes(SortBy(s[..|s| - 1], le), s[|s| - 1], le);
      assert s == s[..|s| - 1] + [s[|s| - 1]];
    }
  }

  lemma {:induction false} SortSorts<T>(s: seq<T>, le: (T, T) -> bool)
    requires TotalOn(s, le)
    ensures SortedBy(SortBy(s, le), le)
  {
    if s != [] {
      var init, last := s[..|s| - 1], s[|s| - 1];
      assert TotalOn(init, le) by { assert forall y :: y in init ==> y in s; }
      SortSorts(init, le);
      SortPermutes(init, le);
      assert TotalOn(SortBy(init, le) + [last], le) by {
        forall y | y in SortBy(init, le) + [last] ensures y in s {
          if y in SortBy(init, le) { SameElements(SortBy(init, le), init, y); }
        }
      }
      InsertSorted(SortBy(init, le), last, le);
    }
  }

  lemma {:induction false} SortedStays<T>(s: seq<T>, le: (T, T) -> bool)
    requires SortedBy(s, le)
    ensures SortBy(s, le) == s
  {
    if s != [] {
      var init, last := s[..|s| - 1], s[|s| - 1];
      SortedStays(init, le);
      assert s == init + [last];
      assert init != [] ==> le(init[|init| - 1], last);
    }
  }

  /** Sorted by a relation that never holds both ways, so without equal elements. */
  ghost predicate StrictlySorted<T>(s: seq<T>, lt: (T, T) -> bool) {
    SortedBy(s, lt) && forall x, y :: x in s && y in s && lt(x, y) ==> !lt(y, x)
  }

  lemma StrictTail<T>(s: seq<T>, lt: (T, T) -> bool)
    requires s != [] && StrictlySorted(s, lt)
    ensures StrictlySorted(s[1..], lt)
    ensures multiset(s[1..]) == multiset(s) - multiset{s[0]}
    ensures s == [s[0]] + s[1..]
  {
    assert s == [s[0]] + s[1..];
  }

  /** The first elements of two strictly sorted permutations agree. */
  lemma StrictHeads<T>(s: seq<T>, t: seq<T>, lt: (T, T) -> bool)
    requires s != [] && t != [] && multiset(s) == multiset(t)
    requires StrictlySorted(s, lt) && SortedBy(t, lt)
    ensures s[0] == t[0]
  {
    SameElements(s, t, s[0]);
    SameElements(s, t, t[0]);
    var i :| 0 <= i < |t| && t[i] == s[0];
    var j :| 0 <= j < |s| && s[j] == t[0];
  }

  /** Two strictly sorted permutations of each other are equal. */
  lemma {:induction false} StrictSortUnique<T>(s: seq<T>, t: seq<T>, lt: (T, T) -> bool)
    requires multiset(s) == multiset(t)
    requires StrictlySorted(s, lt) && StrictlySorted(t, lt)
    ensures s == t
    decreases |s|
  {
    SameLength(s, t);
    if s != [] {
      StrictHeads(s, t, lt);
      hide StrictlySorted, SortedBy;
      StrictTail(s, lt);
      StrictTail(t, lt);
      StrictSortUnique(s[1..], t[1..], lt);
    }
  }

  // ----- sizes of sets -----

  lemma SubsetSize<T>(s: set<T>, t: set<T>)
    requires s <= t
    ensures |s| <= |t|
  {
    assert t == s + (t - s);
  }

  lemma SameSize<T>(s: set<T>, t: set<T>)
    requires s <= t && |s| == |t|
    ensures s == t
  {
    assert t == s + (t - s);
    assert |t - s| == 0;
  }

  // ----- sets in ascending order -----

  lemma {:induction false} LeastOf(s: set<nat>) returns (m: nat)
    requires s != {}
    ensures m in s && forall x :: x in s ==> m <= x
    decreases |s|
  {
    m :| m in s;
    var rest := s - {m};
    if rest != {} {
      var least := LeastOf(rest);
      assert forall x :: x in s ==> x == m || x in rest;
      if least < m { m := least; }
    } else {
      assert forall x :: x in s ==> x == m || x in rest;
    }
  }

  lemma LeastExists(s: set<nat>)
    requires s != {}
    ensures exists m :: m in s && forall x :: x in s ==> m <= x
  {
    var m := LeastOf(s);
  }

  function Least(s: set<nat>): (m: nat)
    requires s != {}
    ensures m in s && forall x :: x in s ==> m <= x
  {
    LeastExists(s);
    var m :| m in s && forall x | x in s :: m <= x;
    m
  }

  function Ascending(s: set<nat>): seq<nat>
    decreases |s|
  {
    if s == {} then [] else [Least(s)] + Ascending(s - {Least(s)})
  }

  ghost predicate IsAscending(s: seq<nat>) { forall i, j :: 0 <= i < j < |s| ==> s[i] < s[j] }

  lemma {:induction false} AscendingMeaning(s: set<nat>)
    ensures IsAscending(Ascending(s))
    ensures forall x :: x in Ascending(s) <==> x in s
    decreases |s|
  {
    if s != {} {
      var m, rest := Least(s), s - {Least(s)};
      AscendingMeaning(rest);
      AscendingCons(m, Ascending(rest), s);
    }
  }

  lemma AscendingCons(m: nat, t: seq<nat>, s: set<nat>)
    requires m in s && IsAscending(t) && forall x :: x in t <==> x in s && x != m
    requires forall x :: x in s ==> m <= x
    ensures IsAscending([m] + t)
    ensures forall x :: x in [m] + t <==> x in s
  {
    forall i, j | 0 <= i < j < |[m] + t| ensures ([m] + t)[i] < ([m] + t)[j] {
      assert t[j - 1] in t;
    }
  }

  lemma AscendingDistinct(s: seq<nat>)
    requires IsAscending(s)
    ensures Distinct(s)
  {
  }

  lemma {:induction false} AscendingUnique(s: seq<nat>, t: seq<nat>)
    requires IsAscending(s) && IsAscending(t) && forall x :: x in s <==> x in t
    ensures s == t
    decreases |s|
  {
    if s != [] {
      SameFirst(s, t);
      assert s == [s[0]] + s[1..] && t == [t[0]] + t[1..];
      forall x ensures x in s[1..] <==> x in t[1..] {
        assert x in s <==> x in t;
      }
      AscendingUnique(s[1..], t[1..]);
    } else if t != [] {
      SameFirst(t, s);
    }
  }

  lemma SameFirst(s: seq<nat>, t: seq<nat>)
    requires IsAscending(s) && IsAscending(t) && forall x :: x in s <==> x in t
    requires s != []
    ensures t != [] && s[0] == t[0]
  {
    assert s[0] in s;
    var i :| 0 <= i < |t| && t[i] == s[0];
    assert t[0] in t;
    var j :| 0 <= j < |s| && s[j] == t[0];
  }
}
