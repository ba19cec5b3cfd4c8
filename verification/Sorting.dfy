/** A stable sort by an integer key, as the platform's array sort is. */
module Sorting {

  predicate SortedBy<T>(key: T -> int, s: seq<T>) {
    forall i, j :: 0 <= i < j < |s| ==> key(s[i]) <= key(s[j])
  }

  /** Puts `x` behind every element of a sorted list whose key is not greater. */
  function InsertBehind<T>(key: T -> int, s: seq<T>, x: T): seq<T> {
    if s == [] then [x]
    else if key(x) < key(s[0]) then [x] + s
    else [s[0]] + InsertBehind(key, s[1..], x)
  }

  lemma {:induction false} InsertAddsOne<T>(key: T -> int, s: seq<T>, x: T)
    ensures multiset(InsertBehind(key, s, x)) == multiset(s) + multiset{x}
  {
    if s != [] && key(x) >= key(s[0]) {
      InsertAddsOne(key, s[1..], x);
      assert s == [s[0]] + s[1..];
    }
  }

  lemma SortedWithHead<T>(key: T -> int, head: T, tail: seq<T>)
    requires SortedBy(key, tail) && forall y :: y in tail ==> key(head) <= key(y)
    ensures SortedBy(key, [head] + tail)
  {
    var all := [head] + tail;
    forall i, j | 0 <= i < j < |all| ensures key(all[i]) <= key(all[j]) {
      assert all[j] == tail[j - 1] && tail[j - 1] in tail;
      if i > 0 { assert all[i] == tail[i - 1]; }
    }
  }

  lemma {:induction false} InsertKeepsSorted<T>(key: T -> int, s: seq<T>, x: T)
    requires SortedBy(key, s)
    ensures SortedBy(key, InsertBehind(key, s, x))
    ensures forall y :: y in InsertBehind(key, s, x) ==> y == x || y in s
  {
    if s != [] {
      if key(x) < key(s[0]) {
        SortedWithHead(key, x, s);
      } else {
        InsertKeepsSorted(key, s[1..], x);
        SortedWithHead(key, s[0], InsertBehind(key, s[1..], x));
      }
    }
  }

  lemma {:induction false} InsertOfGreatestAppends<T>(key: T -> int, s: seq<T>, x: T)
    requires forall y :: y in s ==> key(y) <= key(x)
    ensures InsertBehind(key, s, x) == s + [x]
  {
    if s != [] {
      InsertOfGreatestAppends(key, s[1..], x);
    }
  }

  function SortBy<T>(key: T -> int, s: seq<T>): seq<T> {
    if s == [] then [] else InsertBehind(key, SortBy(key, s[..|s| - 1]), s[|s| - 1])
  }

  lemma {:induction false} SortSorts<T>(key: T -> int, s: seq<T>)
    ensures SortedBy(key, SortBy(key, s)) && multiset(SortBy(key, s)) == multiset(s)
    ensures |SortBy(key, s)| == |s|
  {
    if s != [] {
      SortSorts(key, s[..|s| - 1]);
      InsertKeepsSorted(key, SortBy(key, s[..|s| - 1]), s[|s| - 1]);
      InsertAddsOne(key, SortBy(key, s[..|s| - 1]), s[|s| - 1]);
      assert s == s[..|s| - 1] + [s[|s| - 1]];
    }
    assert |SortBy(key, s)| == |multiset(SortBy(key, s))|;
    assert |s| == |multiset(s)|;
  }

  lemma LastIsGreatest<T>(key: T -> int, s: seq<T>)
    requires SortedBy(key, s) && s != []
    ensures SortedBy(key, s[..|s| - 1]) && forall y :: y in s[..|s| - 1] ==> key(y) <= key(s[|s| - 1])
  {
  }

  lemma {:induction false} SortKeepsSorted<T>(key: T -> int, s: seq<T>)
    requires SortedBy(key, s)
    ensures SortBy(key, s) == s
  {
    if s != [] {
      LastIsGreatest(key, s);
      SortKeepsSorted(key, s[..|s| - 1]);
      InsertOfGreatestAppends(key, s[..|s| - 1], s[|s| - 1]);
    }
  }

  /** Sorting leaves a list as it is exactly when its keys never decrease. */
  lemma SortIsIdentityOnSorted<T>(key: T -> int, s: seq<T>)
    ensures SortBy(key, s) == s <==> SortedBy(key, s)
  {
    SortSorts(key, s);
    if SortedBy(key, s) { SortKeepsSorted(key, s); }
  }

  lemma SameMembers<T>(a: seq<T>, b: seq<T>)
    requires multiset(a) == multiset(b)
    ensures forall x :: x in a <==> x in b
  {
    forall x ensures x in a <==> x in b {
      assert x in a <==> x in multiset(a);
    }
  }

  lemma TwoPlacesCountTwice<T>(s: seq<T>, i: nat, j: nat)
    requires i < j < |s| && s[i] == s[j]
    ensures multiset(s)[s[i]] >= 2
  {
    assert s == s[..j] + [s[j]] + s[j + 1..];
    assert s[i] in s[..j];
  }

  lemma {:induction false} DistinctCountOnce<T>(s: seq<T>, x: T)
    requires forall i, j :: 0 <= i < j < |s| ==> s[i] != s[j]
    ensures multiset(s)[x] <= 1
  {
    if s != [] {
      DistinctCountOnce(s[1..], x);
      assert s == [s[0]] + s[1..];
      assert s[0] !in s[1..];
    }
  }
}
