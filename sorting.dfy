/**
 * Python's `sorted` over a total preorder given as a comparison `le`:
 * the result is ordered and is a permutation of the input. When `le` is also
 * antisymmetric and transitive (a total order) the sorted arrangement of a
 * multiset is unique, so it does not matter in which order the input came.
 */
module Sorting {

  ghost predicate IsTotal<T(!new)>(le: (T, T) -> bool) {
    forall a, b :: le(a, b) || le(b, a)
  }

  ghost predicate IsAntisymmetric<T(!new)>(le: (T, T) -> bool) {
    forall a, b :: le(a, b) && le(b, a) ==> a == b
  }

  ghost predicate IsTransitive<T(!new)>(le: (T, T) -> bool) {
    forall a, b, c :: le(a, b) && le(b, c) ==> le(a, c)
  }

  /** Every element is `le` its successor. */
  predicate Sorted<T>(s: seq<T>, le: (T, T) -> bool) {
    forall i :: 0 < i < |s| ==> le(s[i - 1], s[i])
  }

  function Insert<T(!new)>(x: T, s: seq<T>, le: (T, T) -> bool): (r: seq<T>)
    requires IsTotal(le) && Sorted(s, le)
    ensures Sorted(r, le)
    ensures multiset(r) == multiset(s) + multiset{x}
    ensures r[0] == x || (s != [] && r[0] == s[0])
  {
    if s == [] || le(x, s[0]) then
      [x] + s
    else
      assert s == [s[0]] + s[1..];
      [s[0]] + Insert(x, s[1..], le)
  }

  /** `sorted(s)`: ordered by `le`, the same elements with the same multiplicities. */
  function Sort<T(!new)>(s: seq<T>, le: (T, T) -> bool): (r: seq<T>)
    requires IsTotal(le)
    ensures Sorted(r, le)
    ensures multiset(r) == multiset(s)
  {
    if s == [] then []
    else
      assert s == [s[0]] + s[1..];
      Insert(s[0], Sort(s[1..], le), le)
  }

  lemma {:induction false} SortedHeadIsLeast<T(!new)>(s: seq<T>, le: (T, T) -> bool, j: nat)
    requires IsTransitive(le) && Sorted(s, le)
    requires 0 < j < |s|
    ensures le(s[0], s[j])
  {
    if j > 1 {
      SortedHeadIsLeast(s, le, j - 1);
    }
  }

  /** Two ordered arrangements of one multiset under a total order start alike. */
  lemma SortedHeadsAgree<T(!new)>(r1: seq<T>, r2: seq<T>, le: (T, T) -> bool)
    requires IsAntisymmetric(le) && IsTransitive(le)
    requires Sorted(r1, le) && Sorted(r2, le)
    requires multiset(r1) == multiset(r2) && r1 != []
    ensures r2 != [] && r1[0] == r2[0]
  {
    assert r1[0] in multiset(r2) && r1[0] in r2;
    assert r2 != [] && r2[0] in multiset(r1) && r2[0] in r1;
    var j1 :| 0 <= j1 < |r2| && r2[j1] == r1[0];
    var j2 :| 0 <= j2 < |r1| && r1[j2] == r2[0];
    if j1 > 0 && j2 > 0 {
      SortedHeadIsLeast(r2, le, j1);
      SortedHeadIsLeast(r1, le, j2);
      assert le(r1[0], r2[0]) && le(r2[0], r1[0]);
    }
  }

  /** Two ordered arrangements of the same multiset under a total order are equal. */
  lemma {:induction false} SortedUnique<T(!new)>(r1: seq<T>, r2: seq<T>, le: (T, T) -> bool)
    requires IsAntisymmetric(le) && IsTransitive(le)
    requires Sorted(r1, le) && Sorted(r2, le)
    requires multiset(r1) == multiset(r2)
    ensures r1 == r2
    decreases |r1|
  {
    if r1 == [] {
      assert |multiset(r2)| == 0;
    } else {
      SortedHeadsAgree(r1, r2, le);
      TailMultiset(r1);
      TailMultiset(r2);
      SortedUnique(r1[1..], r2[1..], le);
      assert r1 == [r1[0]] + r1[1..] && r2 == [r2[0]] + r2[1..];
    }
  }

  lemma TailMultiset<T>(s: seq<T>)
    requires s != []
    ensures multiset(s[1..]) == multiset(s) - multiset{s[0]}
  {
    assert s == [s[0]] + s[1..];
  }
}
