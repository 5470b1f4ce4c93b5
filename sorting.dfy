/** A stable sort of a sequence by a real-valued key, largest key first.  The journal
    (newest date first), the top-crops ranking (largest quantity first) and, through a
    negated key, the date-ordered weather window all use it. */
module Sorting {
  import opened Wrappers

  /** Keys never increase from left to right. */
  ghost predicate NonIncreasing<T>(s: seq<T>, key: T -> real)
  {
    forall i, j :: 0 <= i < j < |s| ==> key(s[i]) >= key(s[j])
  }

  /** Inserts x before the first element of s whose key is not larger than x's, so
      that x precedes the elements that tie with it. */
  function Insert<T>(x: T, s: seq<T>, key: T -> real): (r: seq<T>)
    ensures multiset(r) == multiset(s) + multiset{x}
    ensures |r| == |s| + 1
  {
    if s == [] then [x]
    else if key(s[0]) > key(x) then
      assert s == [s[0]] + s[1..];
      [s[0]] + Insert(x, s[1..], key)
    else
      [x] + s
  }

  /** An upper bound on every key survives insertion of an element that respects it. */
  lemma {:induction false} InsertBounded<T>(x: T, s: seq<T>, key: T -> real, b: real)
    requires key(x) <= b
    requires forall k :: 0 <= k < |s| ==> key(s[k]) <= b
    ensures forall k :: 0 <= k < |Insert(x, s, key)| ==> key(Insert(x, s, key)[k]) <= b
  {
    if s != [] && key(s[0]) > key(x) {
      InsertBounded(x, s[1..], key, b);
      var t := Insert(x, s[1..], key);
      assert Insert(x, s, key) == [s[0]] + t;
    }
  }

  /** Insertion keeps a sorted sequence sorted. */
  lemma {:induction false} InsertSorted<T>(x: T, s: seq<T>, key: T -> real)
    requires NonIncreasing(s, key)
    ensures NonIncreasing(Insert(x, s, key), key)
  {
    if s != [] && key(s[0]) > key(x) {
      var t := Insert(x, s[1..], key);
      InsertSorted(x, s[1..], key);
      InsertBounded(x, s[1..], key, key(s[0]));
      assert Insert(x, s, key) == [s[0]] + t;
    }
  }

  /** Insertion sort by key, largest first, stable. */
  function SortByKey<T>(s: seq<T>, key: T -> real): (r: seq<T>)
    ensures multiset(r) == multiset(s)
    ensures |r| == |s|
  {
    if s == [] then []
    else
      assert s == [s[0]] + s[1..];
      Insert(s[0], SortByKey(s[1..], key), key)
  }

  /** The sort's output is ordered by key, largest first. */
  lemma {:induction false} SortByKeySorted<T>(s: seq<T>, key: T -> real)
    ensures NonIncreasing(SortByKey(s, key), key)
  {
    if s != [] {
      SortByKeySorted(s[1..], key);
      InsertSorted(s[0], SortByKey(s[1..], key), key);
    }
  }

  /** The first n elements of s, or all of s when it is shorter (Python's `s[:n]`). */
  function Take<T>(s: seq<T>, n: nat): (r: seq<T>)
    ensures |r| == if |s| < n then |s| else n
    ensures forall i :: 0 <= i < |r| ==> r[i] == s[i]
  {
    if |s| <= n then s else s[..n]
  }

  /** The element with the largest key, the earliest one among ties; None for an empty
      sequence (an `order_by('-key').first()` query). */
  function Latest<T>(s: seq<T>, key: T -> real): (r: Option<T>)
    ensures r.None? <==> s == []
    ensures r.Some? ==> r.value in s && forall i :: 0 <= i < |s| ==> key(s[i]) <= key(r.value)
  {
    if s == [] then None
    else
      var rest := Latest(s[1..], key);
      if rest.None? || key(s[0]) >= key(rest.value) then Some(s[0]) else rest
  }

  /** The first n of a sorted sequence: drawn from s, ordered, and no element of s left
      out has a larger key than one that was kept. */
  lemma {:induction false} TopOfSorted<T>(s: seq<T>, key: T -> real, n: nat)
    ensures forall x :: x in Take(SortByKey(s, key), n) ==> x in s
    ensures NonIncreasing(Take(SortByKey(s, key), n), key)
    ensures forall c, d :: c in Take(SortByKey(s, key), n) && d in s && d !in Take(SortByKey(s, key), n) ==>
      key(d) <= key(c)
    ensures |s| <= n ==> Take(SortByKey(s, key), n) == SortByKey(s, key)
  {
    var sorted := SortByKey(s, key);
    var top := Take(sorted, n);
    SortByKeySorted(s, key);
    SortByKeyMembers(s, key);
    forall c | c in top ensures c in s {
      var i :| 0 <= i < |top| && top[i] == c;
      assert sorted[i] == c;
    }
    TakeOfSortedBeatsRest(sorted, key, n);
  }

  /** The sort keeps exactly the elements it was given. */
  lemma SortByKeyMembers<T>(s: seq<T>, key: T -> real)
    ensures forall x :: x in SortByKey(s, key) <==> x in s
  {
    var sorted := SortByKey(s, key);
    forall x ensures x in sorted <==> x in s {
      assert x in sorted <==> x in multiset(sorted);
      assert x in s <==> x in multiset(s);
    }
  }

  /** In an ordered sequence nothing after the first n has a larger key than one of them. */
  lemma TakeOfSortedBeatsRest<T>(sorted: seq<T>, key: T -> real, n: nat)
    requires NonIncreasing(sorted, key)
    ensures forall c, d :: c in Take(sorted, n) && d in sorted && d !in Take(sorted, n) ==> key(d) <= key(c)
  {
    var top := Take(sorted, n);
    forall c, d | c in top && d in sorted && d !in top ensures key(d) <= key(c) {
      var i :| 0 <= i < |top| && top[i] == c;
      var j :| 0 <= j < |sorted| && sorted[j] == d;
      assert j >= |top|;
      assert top[i] == sorted[i];
    }
  }
}
