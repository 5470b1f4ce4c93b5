/** Grouping a sequence by a string key and summing a real value per group, as a
    `values(key).annotate(total=Sum(value))` query does, and the fact that the group
    totals add up to the overall total. */
module Grouping {

  /** Sum of value over s; 0 for the empty sequence (an aggregate `Sum(...) or 0`). */
  function SumOf<T>(s: seq<T>, value: T -> real): real
  {
    if s == [] then 0.0 else SumOf(s[..|s| - 1], value) + value(s[|s| - 1])
  }

  lemma SumOfSnoc<T>(s: seq<T>, x: T, value: T -> real)
    ensures SumOf(s + [x], value) == SumOf(s, value) + value(x)
  {
    assert (s + [x])[..|s|] == s;
  }

  /** One more element at the front adds its value. */
  lemma {:induction false} SumOfCons<T>(x: T, s: seq<T>, value: T -> real)
    ensures SumOf([x] + s, value) == value(x) + SumOf(s, value)
    decreases |s|
  {
    if s == [] {
      assert ([x] + s)[..0] == [];
    } else {
      var init := s[..|s| - 1];
      assert ([x] + s)[..|s|] == [x] + init;
      SumOfCons(x, init, value);
    }
  }

  /** Every value at least lo makes the sum at least |s|·lo. */
  lemma {:induction false} SumOfAtLeast<T>(s: seq<T>, value: T -> real, lo: real)
    requires forall i :: 0 <= i < |s| ==> value(s[i]) >= lo
    ensures SumOf(s, value) >= (|s| as real) * lo
  {
    if s != [] {
      var init := s[..|s| - 1];
      assert forall i :: 0 <= i < |init| ==> init[i] == s[i];
      SumOfAtLeast(init, value, lo);
    }
  }

  /** The distinct keys of s, in order of first appearance. */
  function Keys<T, K(==,!new)>(s: seq<T>, key: T -> K): (ks: seq<K>)
    ensures forall k :: k in ks <==> exists i :: 0 <= i < |s| && key(s[i]) == k
    ensures forall i, j :: 0 <= i < j < |ks| ==> ks[i] != ks[j]
  {
    if s == [] then []
    else
      var init, last := s[..|s| - 1], s[|s| - 1];
      var ks := Keys(init, key);
      assert forall i :: 0 <= i < |init| ==> init[i] == s[i];
      if key(last) in ks then ks else ks + [key(last)]
  }

  lemma KeysSnoc<T, K(!new)>(s: seq<T>, x: T, key: T -> K)
    ensures Keys(s + [x], key) == if key(x) in Keys(s, key) then Keys(s, key) else Keys(s, key) + [key(x)]
  {
    assert (s + [x])[..|s|] == s;
  }

  /** The total of value over the elements whose key is k. */
  function GroupTotal<T>(s: seq<T>, key: T -> string, value: T -> real, k: string): real
  {
    if s == [] then 0.0
    else GroupTotal(s[..|s| - 1], key, value, k) + (if key(s[|s| - 1]) == k then value(s[|s| - 1]) else 0.0)
  }

  lemma GroupTotalSnoc<T>(s: seq<T>, x: T, key: T -> string, value: T -> real, k: string)
    ensures GroupTotal(s + [x], key, value, k) == GroupTotal(s, key, value, k) + (if key(x) == k then value(x) else 0.0)
  {
    assert (s + [x])[..|s|] == s;
  }

  /** A key that no element carries has total 0. */
  lemma {:induction false} GroupTotalAbsent<T>(s: seq<T>, key: T -> string, value: T -> real, k: string)
    requires k !in Keys(s, key)
    ensures GroupTotal(s, key, value, k) == 0.0
  {
    if s != [] {
      var init := s[..|s| - 1];
      assert init + [s[|s| - 1]] == s;
      KeysSnoc(init, s[|s| - 1], key);
      GroupTotalAbsent(init, key, value, k);
    }
  }

  /** The sum of the group totals of the keys ks. */
  function SumGroups<T>(s: seq<T>, key: T -> string, value: T -> real, ks: seq<string>): real
  {
    if ks == [] then 0.0
    else SumGroups(s, key, value, ks[..|ks| - 1]) + GroupTotal(s, key, value, ks[|ks| - 1])
  }

  /** One more element adds its value to exactly the group of its key, if that key is listed. */
  lemma {:induction false} SumGroupsSnoc<T>(s: seq<T>, x: T, key: T -> string, value: T -> real, ks: seq<string>)
    requires forall i, j :: 0 <= i < j < |ks| ==> ks[i] != ks[j]
    ensures SumGroups(s + [x], key, value, ks) == SumGroups(s, key, value, ks) + (if key(x) in ks then value(x) else 0.0)
  {
    if ks != [] {
      var init, k := ks[..|ks| - 1], ks[|ks| - 1];
      assert ks == init + [k];
      assert key(x) in init ==> key(x) != k;
      SumGroupsSnoc(s, x, key, value, init);
      GroupTotalSnoc(s, x, key, value, k);
      assert key(x) in ks <==> key(x) in init || key(x) == k;
    }
  }

  /** The totals of all groups add up to the overall total. */
  lemma {:induction false} GroupsAddUp<T>(s: seq<T>, key: T -> string, value: T -> real)
    ensures SumGroups(s, key, value, Keys(s, key)) == SumOf(s, value)
  {
    if s != [] {
      var init, x := s[..|s| - 1], s[|s| - 1];
      assert s == init + [x];
      GroupsAddUp(init, key, value);
      GroupsAddUpSnoc(init, x, key, value);
    }
  }

  /** One more element keeps the group totals adding up to the overall total. */
  lemma GroupsAddUpSnoc<T>(s: seq<T>, x: T, key: T -> string, value: T -> real)
    requires SumGroups(s, key, value, Keys(s, key)) == SumOf(s, value)
    ensures SumGroups(s + [x], key, value, Keys(s + [x], key)) == SumOf(s + [x], value)
  {
    var ks := Keys(s, key);
    KeysSnoc(s, x, key);
    SumOfSnoc(s, x, value);
    SumGroupsSnoc(s, x, key, value, ks);
    if key(x) !in ks {
      var ks' := ks + [key(x)];
      assert ks'[..|ks'| - 1] == ks;
      GroupTotalSnoc(s, x, key, value, key(x));
      GroupTotalAbsent(s, key, value, key(x));
    }
  }
}
