/** Grouping a list into a plain JavaScript object keyed by some field, and
    reading the object back with `Object.keys`/`Object.values`. Keys are
    collected in the order they are first seen; the object then lists its
    array-index keys (canonical decimal integers below 2^32 - 1) first in
    ascending order and its other keys in insertion order. */
module Grouping {
  import opened Common
  import opened Seqs

  /** The keys of `s` in the order they first occur. */
  function FirstKeys<T, K(==)>(s: seq<T>, key: T -> K): (r: seq<K>)
    ensures Distinct(r)
  {
    if s == [] then []
    else
      var p := FirstKeys(s[..|s| - 1], key);
      var k := key(s[|s| - 1]);
      if k in p then p else p + [k]
  }

  /** `k` is the key of some element of `s`. */
  ghost predicate KeyOccurs<T, K>(s: seq<T>, key: T -> K, k: K) {
    exists i :: 0 <= i < |s| && key(s[i]) == k
  }

  /** The elements of `s` with key `k`, in their order in `s`. */
  function GroupOf<T, K(==)>(s: seq<T>, key: T -> K, k: K): seq<T> {
    Filter(s, x => key(x) == k)
  }

  /** The groups of the keys `ks`, in the order of `ks`. */
  function Groups<T, K(==)>(s: seq<T>, key: T -> K, ks: seq<K>): (r: seq<seq<T>>)
    ensures |r| == |ks|
    ensures forall i :: 0 <= i < |ks| ==> r[i] == GroupOf(s, key, ks[i])
  {
    if ks == [] then [] else [GroupOf(s, key, ks[0])] + Groups(s, key, ks[1..])
  }

  /** The order in which a JavaScript object enumerates the keys `ks`
      (given in insertion order), where `index(k)` is the array index a key
      stands for, if any. */
  function PropertyOrder<K>(ks: seq<K>, index: K -> Option<nat>): seq<K> {
    SortBy(Filter(ks, k => index(k).Some?), k => index(k).GetOr(0))
    + Filter(ks, k => index(k).None?)
  }

  // ---------------------------------------------------------------------
  // First keys

  /** The first keys are exactly the keys that occur. */
  lemma {:induction false} FirstKeysMembers<T, K>(s: seq<T>, key: T -> K, k: K)
    ensures k in FirstKeys(s, key) <==> KeyOccurs(s, key, k)
  {
    if s != [] {
      var init := s[..|s| - 1];
      FirstKeysMembers(init, key, k);
      if KeyOccurs(init, key, k) {
        var i :| 0 <= i < |init| && key(init[i]) == k;
        assert key(s[i]) == k;
      }
      if KeyOccurs(s, key, k) && key(s[|s| - 1]) != k {
        var i :| 0 <= i < |s| && key(s[i]) == k;
        assert key(init[i]) == k;
      }
    }
  }

  // ---------------------------------------------------------------------
  // Groups

  /** A group holds only elements with its key, in their original order. */
  lemma GroupOfSpec<T, K>(s: seq<T>, key: T -> K, k: K)
    ensures forall x :: x in GroupOf(s, key, k) ==> key(x) == k
    ensures Subsequence(GroupOf(s, key, k), s)
    ensures KeyOccurs(s, key, k) ==> GroupOf(s, key, k) != []
  {
    FilterIsSubsequence(s, x => key(x) == k);
    if KeyOccurs(s, key, k) {
      var i :| 0 <= i < |s| && key(s[i]) == k;
      FilterMembership(s, x => key(x) == k, s[i]);
    }
  }

  /** Appending to the list appends to each group. */
  lemma GroupOfAppend<T, K>(s: seq<T>, t: seq<T>, key: T -> K, k: K)
    ensures GroupOf(s + t, key, k) == GroupOf(s, key, k) + GroupOf(t, key, k)
  {
    FilterAppend(s, t, x => key(x) == k);
  }

  /** The group of one element. */
  lemma GroupOfSingleton<T, K>(x: T, key: T -> K, k: K)
    ensures GroupOf([x], key, k) == if key(x) == k then [x] else []
  {
    assert [x][1..] == [];
  }

  /** The last element of a group is the last element of `s` with that key. */
  lemma GroupOfLast<T, K>(s: seq<T>, key: T -> K, k: K)
    requires GroupOf(s, key, k) != []
    ensures exists i :: (0 <= i < |s| && key(s[i]) == k
      && s[i] == GroupOf(s, key, k)[|GroupOf(s, key, k)| - 1]
      && forall j :: i < j < |s| ==> key(s[j]) != k)
  {
    FilterLast(s, x => key(x) == k);
  }

  /** A key that has not occurred has an empty group. */
  lemma GroupOfAbsent<T, K>(s: seq<T>, key: T -> K, k: K)
    requires k !in FirstKeys(s, key)
    ensures GroupOf(s, key, k) == []
  {
    FirstKeysMembers(s, key, k);
    FilterNone(s, x => key(x) == k);
  }

  /** The groups of distinct keys hold, together, each element whose key is
      among them exactly as often as `s` does. */
  lemma {:induction false} GroupsPartition<T, K>(s: seq<T>, key: T -> K, ks: seq<K>)
    requires Distinct(ks)
    ensures multiset(Flatten(Groups(s, key, ks))) == multiset(Filter(s, x => key(x) in ks))
  {
    if ks == [] {
      FilterNone(s, x => key(x) in ks);
    } else {
      var rest := ks[1..];
      GroupsPartition(s, key, rest);
      assert Groups(s, key, ks) == [GroupOf(s, key, ks[0])] + Groups(s, key, rest);
      assert ks[0] !in rest by {
        assert forall j :: 0 <= j < |rest| ==> rest[j] == ks[j + 1];
      }
      FilterDisjointUnion(s, x => key(x) == ks[0], x => key(x) in rest, x => key(x) in ks);
    }
  }

  /** Groups over a list of distinct keys that covers every key of `s`
      contain every element of `s` exactly once. */
  lemma GroupsCover<T, K>(s: seq<T>, key: T -> K, ks: seq<K>)
    requires Distinct(ks)
    requires forall i :: 0 <= i < |s| ==> key(s[i]) in ks
    ensures multiset(Flatten(Groups(s, key, ks))) == multiset(s)
    ensures |Flatten(Groups(s, key, ks))| == |s|
  {
    GroupsPartition(s, key, ks);
    FilterAll(s, x => key(x) in ks);
    assert |multiset(Flatten(Groups(s, key, ks)))| == |multiset(s)|;
  }

  /** Every key of `s` is among its first keys. */
  lemma FirstKeysCover<T, K>(s: seq<T>, key: T -> K)
    ensures forall i :: 0 <= i < |s| ==> key(s[i]) in FirstKeys(s, key)
  {
    forall i | 0 <= i < |s| ensures key(s[i]) in FirstKeys(s, key) {
      FirstKeysMembers(s, key, key(s[i]));
    }
  }

  // ---------------------------------------------------------------------
  // Property order

  /** Enumeration lists every key once, neither adding nor dropping any. */
  lemma PropertyOrderPermutation<K>(ks: seq<K>, index: K -> Option<nat>)
    ensures multiset(PropertyOrder(ks, index)) == multiset(ks)
    ensures Distinct(ks) ==> Distinct(PropertyOrder(ks, index))
  {
    var isIndex := k => index(k).Some?;
    var notIndex := k => index(k).None?;
    FilterPartition(ks, isIndex, notIndex);
    PermutationDistinct(PropertyOrder(ks, index), ks);
  }

  /** Array-index keys come first, in ascending order. */
  lemma PropertyOrderIndicesFirst<K>(ks: seq<K>, index: K -> Option<nat>)
    ensures forall i, j :: 0 <= i < j < |PropertyOrder(ks, index)| && index(PropertyOrder(ks, index)[j]).Some? ==>
      index(PropertyOrder(ks, index)[i]).Some?
      && index(PropertyOrder(ks, index)[i]).value <= index(PropertyOrder(ks, index)[j]).value
  {
    var isIndex := k => index(k).Some?;
    var notIndex := k => index(k).None?;
    var a := Filter(ks, isIndex);
    var sorted := SortBy(a, k => index(k).GetOr(0));
    var b := Filter(ks, notIndex);
    SortBySorted(a, k => index(k).GetOr(0));
    IndexPartHasIndices(ks, index);
    var r := sorted + b;
    assert forall j :: |sorted| <= j < |r| ==> r[j] in b;
    forall i, j | 0 <= i < j < |r| && index(r[j]).Some?
      ensures index(r[i]).Some? && index(r[i]).value <= index(r[j]).value
    {
      assert j < |sorted|;
      assert r[i] == sorted[i] && r[j] == sorted[j];
      assert sorted[i] in sorted && sorted[j] in sorted;
    }
  }

  /** The other keys keep their insertion order. */
  lemma PropertyOrderKeepsInsertionOrder<K>(ks: seq<K>, index: K -> Option<nat>)
    ensures Filter(PropertyOrder(ks, index), k => index(k).None?) == Filter(ks, k => index(k).None?)
  {
    var notIndex := k => index(k).None?;
    var sorted := SortBy(Filter(ks, k => index(k).Some?), k => index(k).GetOr(0));
    var b := Filter(ks, notIndex);
    FilterAppend(sorted, b, notIndex);
    SortedPartHasNoOther(ks, index);
    OtherPartKept(ks, index);
    assert Filter(sorted + b, notIndex) == [] + b;
  }

  lemma SortedPartHasNoOther<K>(ks: seq<K>, index: K -> Option<nat>)
    ensures Filter(SortBy(Filter(ks, k => index(k).Some?), k => index(k).GetOr(0)), k => index(k).None?) == []
  {
    var sorted := SortBy(Filter(ks, k => index(k).Some?), k => index(k).GetOr(0));
    IndexPartHasIndices(ks, index);
    assert forall i :: 0 <= i < |sorted| ==> sorted[i] in sorted;
    FilterNone(sorted, k => index(k).None?);
  }

  lemma OtherPartKept<K>(ks: seq<K>, index: K -> Option<nat>)
    ensures Filter(Filter(ks, k => index(k).None?), k => index(k).None?) == Filter(ks, k => index(k).None?)
  {
    var b := Filter(ks, k => index(k).None?);
    assert forall i :: 0 <= i < |b| ==> b[i] in b;
    FilterAll(b, k => index(k).None?);
  }

  /** The sorted front part holds only array-index keys. */
  lemma IndexPartHasIndices<K>(ks: seq<K>, index: K -> Option<nat>)
    ensures forall x :: x in SortBy(Filter(ks, k => index(k).Some?), k => index(k).GetOr(0)) ==> index(x).Some?
  {
    var a := Filter(ks, k => index(k).Some?);
    var sorted := SortBy(a, k => index(k).GetOr(0));
    forall x | x in sorted ensures index(x).Some? {
      assert x in multiset(sorted);
      assert x in a;
    }
  }

  /** With no array-index key, the keys come out in insertion order. */
  lemma PropertyOrderNoIndex<K>(ks: seq<K>, index: K -> Option<nat>)
    requires forall i :: 0 <= i < |ks| ==> index(ks[i]).None?
    ensures PropertyOrder(ks, index) == ks
  {
    FilterNone(ks, k => index(k).Some?);
    FilterAll(ks, k => index(k).None?);
  }
}
