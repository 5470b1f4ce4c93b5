/** Sequence filtering (Python list comprehensions with a condition, JavaScript's
    `filter`) and its properties. */
module Lists {

  /** The elements of s that satisfy keep, in their original order. */
  function Filter<T(!new)>(s: seq<T>, keep: T -> bool): (r: seq<T>)
    ensures |r| <= |s|
  {
    if s == [] then []
    else
      assert s == s[..|s| - 1] + [s[|s| - 1]];
      Filter(s[..|s| - 1], keep) + (if keep(s[|s| - 1]) then [s[|s| - 1]] else [])
  }

  /** An element is kept exactly when it occurs and satisfies the condition. */
  lemma {:induction false} FilterMembers<T(!new)>(s: seq<T>, keep: T -> bool)
    ensures forall x :: x in Filter(s, keep) <==> x in s && keep(x)
  {
    if s != [] {
      var init, last := s[..|s| - 1], s[|s| - 1];
      FilterMembers(init, keep);
      assert s == init + [last];
    }
  }

  /** Filtering one more element at the end. */
  lemma FilterSnoc<T(!new)>(s: seq<T>, x: T, keep: T -> bool)
    ensures Filter(s + [x], keep) == Filter(s, keep) + (if keep(x) then [x] else [])
  {
    assert (s + [x])[..|s|] == s;
  }

  /** The filtered sequence is empty exactly when no element satisfies the condition. */
  lemma FilterEmpty<T(!new)>(s: seq<T>, keep: T -> bool)
    ensures Filter(s, keep) == [] <==> forall i :: 0 <= i < |s| ==> !keep(s[i])
  {
    var r := Filter(s, keep);
    FilterMembers(s, keep);
    if r != [] {
      assert r[0] in r;
    }
  }

  /** Filtering keeps distinct keys distinct. */
  lemma {:induction false} FilterKeepsDistinct<T(!new)>(s: seq<T>, keep: T -> bool, key: T -> int)
    requires forall i, j :: 0 <= i < j < |s| ==> key(s[i]) != key(s[j])
    ensures forall i, j :: 0 <= i < j < |Filter(s, keep)| ==> key(Filter(s, keep)[i]) != key(Filter(s, keep)[j])
  {
    if s != [] {
      var init, last := s[..|s| - 1], s[|s| - 1];
      FilterKeepsDistinct(init, keep, key);
      FilterMembers(init, keep);
      var fi := Filter(init, keep);
      forall x | x in fi
        ensures key(x) != key(last)
      {
        var k :| 0 <= k < |init| && init[k] == x;
        assert s[k] == x;
      }
      if keep(last) {
        var r := fi + [last];
        forall i, j | 0 <= i < j < |r|
          ensures key(r[i]) != key(r[j])
        {
          assert r[i] == fi[i];
          if j == |fi| {
            assert r[j] == last;
            assert fi[i] in fi;
          } else {
            assert r[j] == fi[j];
          }
        }
      }
    }
  }

  /** Filtering one more element at the front. */
  lemma {:induction false} FilterCons<T(!new)>(x: T, s: seq<T>, keep: T -> bool)
    ensures Filter([x] + s, keep) == (if keep(x) then [x] else []) + Filter(s, keep)
    decreases |s|
  {
    if s == [] {
      assert [x] + s == [] + [x];
      FilterSnoc([], x, keep);
    } else {
      var init, last := s[..|s| - 1], s[|s| - 1];
      assert [x] + s == ([x] + init) + [last];
      assert s == init + [last];
      FilterSnoc([x] + init, last, keep);
      FilterSnoc(init, last, keep);
      FilterCons(x, init, keep);
    }
  }

  /** A filter that keeps every element returns the sequence unchanged. */
  lemma {:induction false} FilterKeepsAll<T(!new)>(s: seq<T>, keep: T -> bool)
    requires forall i :: 0 <= i < |s| ==> keep(s[i])
    ensures Filter(s, keep) == s
  {
    if s != [] {
      var init := s[..|s| - 1];
      assert forall i :: 0 <= i < |init| ==> init[i] == s[i];
      FilterKeepsAll(init, keep);
      assert init + [s[|s| - 1]] == s;
    }
  }

  /** Filtering a concatenation filters each part. */
  lemma {:induction false} FilterAppend<T(!new)>(a: seq<T>, b: seq<T>, keep: T -> bool)
    ensures Filter(a + b, keep) == Filter(a, keep) + Filter(b, keep)
    decreases |b|
  {
    if b == [] {
      assert a + b == a;
    } else {
      var init, last := b[..|b| - 1], b[|b| - 1];
      assert a + b == (a + init) + [last];
      assert b == init + [last];
      FilterSnoc(a + init, last, keep);
      FilterSnoc(init, last, keep);
      FilterAppend(a, init, keep);
    }
  }

  /** Adds x at the end when absent; removes every copy of x when present (a toggle). */
  function Toggle<T(==,!new)>(s: seq<T>, x: T): (r: seq<T>)
    ensures x in s ==> r == Filter(s, (y: T) => y != x) && x !in r
    ensures x !in s ==> r == s + [x]
    ensures forall y :: y != x ==> (y in r <==> y in s)
  {
    FilterMembers(s, (y: T) => y != x);
    if x in s then Filter(s, (y: T) => y != x) else s + [x]
  }

  /** Toggling an absent element twice restores the sequence. */
  lemma ToggleTwice<T(!new)>(s: seq<T>, x: T)
    requires x !in s
    ensures Toggle(Toggle(s, x), x) == s
  {
    var keep := (y: T) => y != x;
    FilterSnoc(s, x, keep);
    FilterKeepsAll(s, keep);
  }

  /** Toggling off an element that occurs once, at k, removes just that position: the
      others keep their order. */
  lemma ToggleRemovesOne<T(!new)>(s: seq<T>, x: T, k: nat)
    requires k < |s| && s[k] == x
    requires forall i :: 0 <= i < |s| && i != k ==> s[i] != x
    ensures Toggle(s, x) == s[..k] + s[k + 1..]
  {
    var keep := (y: T) => y != x;
    assert x in s;
    assert Toggle(s, x) == Filter(s, keep);
    FilterDropsOne(s, keep, k);
  }

  /** Filtering out the one element that fails the condition removes just its position. */
  lemma {:induction false} FilterDropsOne<T(!new)>(s: seq<T>, keep: T -> bool, k: nat)
    requires k < |s| && !keep(s[k])
    requires forall i :: 0 <= i < |s| && i != k ==> keep(s[i])
    ensures Filter(s, keep) == s[..k] + s[k + 1..]
    decreases |s|
  {
    var init, last := s[..|s| - 1], s[|s| - 1];
    assert s == init + [last];
    FilterSnoc(init, last, keep);
    if k == |s| - 1 {
      forall i | 0 <= i < |init| ensures keep(init[i]) {
        assert init[i] == s[i];
      }
      FilterKeepsAll(init, keep);
      assert s[k + 1..] == [];
    } else {
      forall i | 0 <= i < |init| && i != k ensures keep(init[i]) {
        assert init[i] == s[i];
      }
      assert init[k] == s[k];
      FilterDropsOne(init, keep, k);
      assert s[..k] == init[..k];
      assert s[k + 1..] == init[k + 1..] + [last];
    }
  }
}
