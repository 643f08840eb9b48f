/**
 * The engine sorts with JavaScript's `Array.prototype.sort`, which is stable.
 * Every comparator it passes orders by at most two integer criteria, so each
 * one is modelled as a key `Key(major, minor)` compared lexicographically, and
 * the sort itself as a stable insertion sort by that key. Because a stable
 * sort by a total preorder has exactly one possible outcome, this function
 * is the sort the source calls (SortByUnique).
 */
module Sorting {

  datatype Key = Key(major: int, minor: int)

  predicate KeyLe(a: Key, b: Key) {
    a.major < b.major || (a.major == b.major && a.minor <= b.minor)
  }

  predicate SortedBy<T>(s: seq<T>, key: T -> Key) {
    forall i, j :: 0 <= i < j < |s| ==> KeyLe(key(s[i]), key(s[j]))
  }

  /** The elements of `s` whose key is `k`, in their order in `s`. */
  function WithKey<T>(s: seq<T>, key: T -> Key, k: Key): (r: seq<T>)
    ensures |r| <= |s|
  {
    if s == [] then []
    else if key(s[0]) == k then [s[0]] + WithKey(s[1..], key, k)
    else WithKey(s[1..], key, k)
  }

  /** Puts `x` before the first element whose key is not smaller than its own. */
  function Insert<T>(x: T, s: seq<T>, key: T -> Key): (r: seq<T>)
    ensures |r| == |s| + 1
  {
    if s == [] || KeyLe(key(x), key(s[0])) then [x] + s
    else [s[0]] + Insert(x, s[1..], key)
  }

  /** The stable sort of `s` by ascending key. */
  function SortBy<T(==)>(s: seq<T>, key: T -> Key): (r: seq<T>)
    ensures |r| == |s|
    ensures multiset(r) == multiset(s)
    ensures SortedBy(r, key)
  {
    if s == [] then []
    else
      var t := SortBy(s[1..], key);
      InsertKeepsOrder(s[0], t, key);
      assert s == [s[0]] + s[1..];
      Insert(s[0], t, key)
  }

  lemma {:induction false} InsertKeepsOrder<T>(x: T, s: seq<T>, key: T -> Key)
    requires SortedBy(s, key)
    ensures multiset(Insert(x, s, key)) == multiset(s) + multiset{x}
    ensures SortedBy(Insert(x, s, key), key)
  {
    InsertPermutes(x, s, key);
    InsertSorted(x, s, key);
  }

  lemma {:induction false} InsertPermutes<T>(x: T, s: seq<T>, key: T -> Key)
    ensures multiset(Insert(x, s, key)) == multiset(s) + multiset{x}
  {
    if s != [] && !KeyLe(key(x), key(s[0])) {
      InsertPermutes(x, s[1..], key);
      assert s == [s[0]] + s[1..];
    }
  }

  lemma {:induction false} InsertSorted<T>(x: T, s: seq<T>, key: T -> Key)
    requires SortedBy(s, key)
    ensures SortedBy(Insert(x, s, key), key)
  {
    if s != [] && !KeyLe(key(x), key(s[0])) {
      var tail := s[1..];
      var u := Insert(x, tail, key);
      InsertSorted(x, tail, key);
      InsertPermutes(x, tail, key);
      forall j | 0 <= j < |u| ensures KeyLe(key(s[0]), key(u[j])) {
        assert u[j] in multiset(u);
        if u[j] != x {
          assert u[j] in tail;
          var m :| 0 <= m < |tail| && tail[m] == u[j];
          assert s[m + 1] == u[j];
        }
      }
      ConsSorted(s[0], u, key);
    }
  }

  lemma ConsSorted<T>(a: T, u: seq<T>, key: T -> Key)
    requires SortedBy(u, key)
    requires forall j :: 0 <= j < |u| ==> KeyLe(key(a), key(u[j]))
    ensures SortedBy([a] + u, key)
  {
    var r := [a] + u;
    forall i, j | 0 <= i < j < |r| ensures KeyLe(key(r[i]), key(r[j])) {
      assert r[j] == u[j - 1];
      if i > 0 {
        assert r[i] == u[i - 1];
      }
    }
  }

  lemma {:induction false} InsertWithKey<T>(x: T, s: seq<T>, key: T -> Key, k: Key)
    ensures WithKey(Insert(x, s, key), key, k) ==
      if key(x) == k then [x] + WithKey(s, key, k) else WithKey(s, key, k)
  {
    if s == [] || KeyLe(key(x), key(s[0])) {
      assert Insert(x, s, key) == [x] + s;
      assert ([x] + s)[1..] == s;
    } else {
      InsertWithKey(x, s[1..], key, k);
      assert Insert(x, s, key)[1..] == Insert(x, s[1..], key);
    }
  }

  /** Stability: the elements sharing a key keep their relative order. */
  lemma {:induction false} SortByStable<T>(s: seq<T>, key: T -> Key, k: Key)
    ensures WithKey(SortBy(s, key), key, k) == WithKey(s, key, k)
  {
    if s != [] {
      SortByStable(s[1..], key, k);
      InsertWithKey(s[0], SortBy(s[1..], key), key, k);
    }
  }

  lemma WithKeyOwnHead<T>(s: seq<T>, key: T -> Key)
    requires s != []
    ensures WithKey(s, key, key(s[0])) != []
  {
  }

  lemma {:induction false} WithKeyEmpty<T>(s: seq<T>, key: T -> Key, k: Key)
    requires forall i :: 0 <= i < |s| ==> key(s[i]) != k
    ensures WithKey(s, key, k) == []
  {
    if s != [] {
      WithKeyEmpty(s[1..], key, k);
    }
  }

  /**
   * A sequence that is sorted by the key and keeps, for every key, the order
   * of the elements of `s` with that key, IS SortBy(s, key): whichever stable
   * sorting algorithm the runtime uses, its result is this one.
   */
  lemma {:induction false} SortByUnique<T>(s: seq<T>, r: seq<T>, key: T -> Key)
    requires SortedBy(r, key)
    requires forall k :: WithKey(r, key, k) == WithKey(s, key, k)
    ensures r == SortBy(s, key)
  {
    var t := SortBy(s, key);
    forall k ensures WithKey(t, key, k) == WithKey(r, key, k) {
      SortByStable(s, key, k);
    }
    SortedSameGroupsEqual(r, t, key);
  }

  lemma {:induction false} SortedSameGroupsEqual<T>(r: seq<T>, t: seq<T>, key: T -> Key)
    requires SortedBy(r, key) && SortedBy(t, key)
    requires forall k :: WithKey(r, key, k) == WithKey(t, key, k)
    ensures r == t
    decreases |r| + |t|
  {
    if r == [] && t == [] {
    } else if r == [] {
      WithKeyOwnHead(t, key);
      assert false;
    } else if t == [] {
      WithKeyOwnHead(r, key);
      assert false;
    } else {
      var kr, kt := key(r[0]), key(t[0]);
      if kr != kt {
        if KeyLe(kr, kt) {
          // r's first key has no element in t
          assert WithKey(r, key, kr) != [];
          forall i | 0 <= i < |t| ensures key(t[i]) != kr {
            if i > 0 { assert KeyLe(kt, key(t[i])); }
          }
          WithKeyEmpty(t, key, kr);
        } else {
          assert WithKey(t, key, kt) != [];
          forall i | 0 <= i < |r| ensures key(r[i]) != kt {
            if i > 0 { assert KeyLe(kr, key(r[i])); }
          }
          WithKeyEmpty(r, key, kt);
        }
      } else {
        assert WithKey(r, key, kr)[0] == r[0];
        assert WithKey(t, key, kt)[0] == t[0];
        forall k ensures WithKey(r[1..], key, k) == WithKey(t[1..], key, k) {
          assert WithKey(r, key, k) == WithKey(t, key, k);
          if k == kr {
            assert WithKey(r, key, k)[1..] == WithKey(r[1..], key, k);
            assert WithKey(t, key, k)[1..] == WithKey(t[1..], key, k);
          }
        }
        SortedSameGroupsEqual(r[1..], t[1..], key);
        assert r == [r[0]] + r[1..] && t == [t[0]] + t[1..];
      }
    }
  }
}
