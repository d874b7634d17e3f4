/**
 * The source's `Array.prototype.sort` calls use comparators that compare a
 * primary number and then a secondary one. Such a comparator is the
 * lexicographic order on a pair of integers; ECMAScript sorting is stable,
 * so the model sorts with a stable insertion sort on that key.
 */
module Sorting {
  import opened Seqs

  /** Sort key: ascending on `major`, then ascending on `minor`. */
  datatype Key = Key(major: int, minor: int)

  predicate KeyLe(a: Key, b: Key) {
    a.major < b.major || (a.major == b.major && a.minor <= b.minor)
  }

  ghost predicate SortedBy<T>(s: seq<T>, key: T -> Key) {
    forall i, j :: 0 <= i < j < |s| ==> KeyLe(key(s[i]), key(s[j]))
  }

  /** Puts `x` in front of the first element whose key is not below `x`'s. */
  function Insert<T>(x: T, s: seq<T>, key: T -> Key): (r: seq<T>)
    ensures |r| == |s| + 1
    ensures multiset(r) == multiset(s) + multiset{x}
  {
    if s == [] then [x]
    else if KeyLe(key(x), key(s[0])) then [x] + s
    else
      assert s == [s[0]] + s[1..];
      [s[0]] + Insert(x, s[1..], key)
  }

  /** Sorts by `key`; elements with equal keys keep their relative order. */
  function SortBy<T>(s: seq<T>, key: T -> Key): (r: seq<T>)
    ensures |r| == |s|
    ensures multiset(r) == multiset(s)
  {
    if s == [] then []
    else
      assert s == [s[0]] + s[1..];
      Insert(s[0], SortBy(s[1..], key), key)
  }

  lemma {:induction false} InsertSorted<T>(x: T, s: seq<T>, key: T -> Key)
    requires SortedBy(s, key)
    ensures SortedBy(Insert(x, s, key), key)
  {
    if s != [] && !KeyLe(key(x), key(s[0])) {
      var t := Insert(x, s[1..], key);
      InsertSorted(x, s[1..], key);
      forall j | 0 <= j < |t| ensures KeyLe(key(s[0]), key(t[j])) {
        assert t[j] in multiset(t);
        if t[j] != x {
          assert t[j] in multiset(s[1..]);
          var k :| 0 <= k < |s[1..]| && s[1..][k] == t[j];
          assert s[1..][k] == s[k + 1];
        }
      }
    }
  }

  /** The result of SortBy is sorted by the key. */
  lemma {:induction false} SortBySorted<T>(s: seq<T>, key: T -> Key)
    ensures SortedBy(SortBy(s, key), key)
  {
    if s != [] {
      SortBySorted(s[1..], key);
      InsertSorted(s[0], SortBy(s[1..], key), key);
    }
  }

  /** An element of a sorted filter-then-map pipeline is the image of an input element that passes the filter. */
  lemma SortedPipelineMember<T, U>(f: T -> U, s: seq<T>, p: T -> bool, key: U -> Key, y: U)
    requires y in SortBy(Map(f, Filter(s, p)), key)
    ensures exists x :: x in s && p(x) && y == f(x)
  {
    var m := Map(f, Filter(s, p));
    assert y in multiset(SortBy(m, key));
    assert y in multiset(m);
    var j :| 0 <= j < |m| && m[j] == y;
    var x := Filter(s, p)[j];
    assert x in s && p(x) && y == f(x);
  }

  /**
   * Top-k selection: the elements of `s` left out of the first k of the sorted
   * sequence are exactly its tail, and each of them has a key no smaller than
   * every element kept.
   */
  lemma SortedPrefixIsTop<T>(s: seq<T>, key: T -> Key, k: nat)
    requires k <= |s|
    ensures var t := SortBy(s, key);
      && multiset(s) - multiset(t[..k]) == multiset(t[k..])
      && forall x, y :: x in t[k..] && y in t[..k] ==> KeyLe(key(y), key(x))
  {
    var t := SortBy(s, key);
    SortBySorted(s, key);
    SplitMultiset(t, k);
    PrefixIsTop(t, key, k);
  }

  lemma SplitMultiset<T>(t: seq<T>, k: nat)
    requires k <= |t|
    ensures multiset(t) - multiset(t[..k]) == multiset(t[k..])
    ensures multiset(t[..k]) <= multiset(t)
  {
    assert t == t[..k] + t[k..];
  }

  /** In a sorted sequence, no element of a prefix has a larger key than one after it. */
  lemma PrefixIsTop<T>(t: seq<T>, key: T -> Key, k: nat)
    requires SortedBy(t, key) && k <= |t|
    ensures forall x, y :: x in t[k..] && y in t[..k] ==> KeyLe(key(y), key(x))
  {
    forall x, y | x in t[k..] && y in t[..k]
      ensures KeyLe(key(y), key(x))
    {
      var i :| 0 <= i < k && t[..k][i] == y;
      var j :| 0 <= j < |t| - k && t[k..][j] == x;
      assert t[i] == y && t[k + j] == x;
    }
  }

  lemma {:induction false} InsertMap<T, U>(f: T -> U, x: T, s: seq<T>, k1: T -> Key, k2: U -> Key)
    requires forall y :: k2(f(y)) == k1(y)
    ensures Map(f, Insert(x, s, k1)) == Insert(f(x), Map(f, s), k2)
  {
    if s != [] && !KeyLe(k1(x), k1(s[0])) {
      InsertMap(f, x, s[1..], k1, k2);
      assert Map(f, s)[1..] == Map(f, s[1..]);
    }
  }

  /** Sorting commutes with a map that carries the key over. */
  lemma {:induction false} SortByMap<T, U>(f: T -> U, s: seq<T>, k1: T -> Key, k2: U -> Key)
    requires forall y :: k2(f(y)) == k1(y)
    ensures Map(f, SortBy(s, k1)) == SortBy(Map(f, s), k2)
  {
    if s != [] {
      SortByMap(f, s[1..], k1, k2);
      InsertMap(f, s[0], SortBy(s[1..], k1), k1, k2);
      assert Map(f, s)[1..] == Map(f, s[1..]);
    }
  }
}
