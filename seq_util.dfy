/** Option, the value that Kotlin writes as a nullable type `T?`. */
module Optional {
  datatype Option<+T> = None | Some(value: T) {
    function GetOr(default: T): T {
      match this
      case Some(v) => v
      case None => default
    }
  }
}

/**
 * List operations of the Kotlin standard library that the modelled code
 * uses: `filter`, `sortedBy` (a stable sort), `distinctBy`.
 */
module SeqUtil {
  import opened Optional

  /** Elements of `s` that satisfy `p`, in their original order (Kotlin `filter`). */
  function Filter<T>(s: seq<T>, p: T -> bool): (r: seq<T>)
    ensures |r| <= |s|
    ensures forall x :: x in r ==> x in s && p(x)
  {
    if s == [] then []
    else
      assert s == [s[0]] + s[1..];
      (if p(s[0]) then [s[0]] else []) + Filter(s[1..], p)
  }

  lemma {:induction false} FilterKeeps<T>(s: seq<T>, p: T -> bool, x: T)
    requires x in s && p(x)
    ensures x in Filter(s, p)
  {
    if s[0] != x {
      FilterKeeps(s[1..], p, x);
    }
  }

  /** Every element of a filter satisfies the predicate. */
  lemma FilterAt<T>(s: seq<T>, p: T -> bool, i: nat)
    requires i < |Filter(s, p)|
    ensures p(Filter(s, p)[i])
  {
    assert Filter(s, p)[i] in Filter(s, p);
  }

  /** Filtering keeps each element at most as often as the list has it. */
  lemma {:induction false} FilterSubMultiset<T>(s: seq<T>, p: T -> bool)
    ensures multiset(Filter(s, p)) <= multiset(s)
  {
    if s != [] {
      FilterSubMultiset(s[1..], p);
      assert s == [s[0]] + s[1..];
    }
  }

  /** Filter of a concatenation is the concatenation of the filters. */
  lemma {:induction false} FilterAppend<T>(a: seq<T>, b: seq<T>, p: T -> bool)
    ensures Filter(a + b, p) == Filter(a, p) + Filter(b, p)
  {
    if a == [] {
      assert a + b == b;
    } else {
      assert (a + b)[1..] == a[1..] + b;
      FilterAppend(a[1..], b, p);
    }
  }

  /**
   * Filtering by a predicate and by its negation splits the list: together
   * the two parts hold every element exactly as often as the list does.
   */
  lemma {:induction false} FilterComplement<T>(s: seq<T>, p: T -> bool, q: T -> bool)
    requires forall x :: q(x) <==> !p(x)
    ensures multiset(Filter(s, p)) + multiset(Filter(s, q)) == multiset(s)
    ensures |Filter(s, p)| + |Filter(s, q)| == |s|
  {
    if s != [] {
      FilterComplement(s[1..], p, q);
      assert s == [s[0]] + s[1..];
    }
  }

  /** Kotlin `map`. */
  function Map<T, U>(s: seq<T>, f: T -> U): (r: seq<U>)
    ensures |r| == |s|
    ensures forall i :: 0 <= i < |s| ==> r[i] == f(s[i])
  {
    if s == [] then [] else [f(s[0])] + Map(s[1..], f)
  }

  /** Filtering after a map is mapping after filtering by the composed test. */
  lemma {:induction false} FilterMap<T, U>(s: seq<T>, f: T -> U, p: U -> bool, q: T -> bool)
    requires forall x :: q(x) == p(f(x))
    ensures Filter(Map(s, f), p) == Map(Filter(s, q), f)
  {
    if s != [] {
      FilterMap(s[1..], f, p, q);
      var ms := Map(s, f);
      assert ms[0] == f(s[0]) && ms[1..] == Map(s[1..], f);
      var rest := Filter(s[1..], q);
      if q(s[0]) {
        assert Filter(s, q) == [s[0]] + rest;
        assert ([s[0]] + rest)[1..] == rest;
      } else {
        assert Filter(s, q) == rest;
      }
    }
  }

  /** A filtered sorted list is sorted. */
  lemma {:induction false} FilterSorted<T>(s: seq<T>, p: T -> bool, key: T -> int)
    requires SortedBy(s, key)
    ensures SortedBy(Filter(s, p), key)
  {
    if s != [] {
      FilterSorted(s[1..], p, key);
      var rest := Filter(s[1..], p);
      forall j | 0 <= j < |rest| ensures key(s[0]) <= key(rest[j]) {
        assert rest[j] in s[1..];
      }
    }
  }

  /** No two positions of `s` share a key. */
  ghost predicate DistinctKeys<T, K>(s: seq<T>, key: T -> K) {
    forall i, j :: 0 <= i < j < |s| ==> key(s[i]) != key(s[j])
  }

  /** A filtered list with distinct keys has distinct keys. */
  lemma {:induction false} FilterDistinct<T, K>(s: seq<T>, p: T -> bool, key: T -> K)
    requires DistinctKeys(s, key)
    ensures DistinctKeys(Filter(s, p), key)
  {
    if s != [] {
      FilterDistinct(s[1..], p, key);
      var rest := Filter(s[1..], p);
      forall j | 0 <= j < |rest| ensures key(s[0]) != key(rest[j]) {
        assert rest[j] in s[1..];
        var k :| 0 <= k < |s[1..]| && s[1..][k] == rest[j];
        assert s[k + 1] == rest[j];
      }
    }
  }

  // ---------------------------------------------------------------------
  // Stable sort by an integer key (Kotlin `sortedBy`, `sortedByDescending`)
  // ---------------------------------------------------------------------

  ghost predicate SortedBy<T>(s: seq<T>, key: T -> int) {
    forall i, j :: 0 <= i < j < |s| ==> key(s[i]) <= key(s[j])
  }

  /** The elements of `s` whose key is `k`, in their original order. */
  function WithKey<T>(s: seq<T>, key: T -> int, k: int): seq<T>
  {
    if s == [] then []
    else (if key(s[0]) == k then [s[0]] else []) + WithKey(s[1..], key, k)
  }

  /** Places `x` in front of the first element whose key is not smaller. */
  function Insert<T>(x: T, s: seq<T>, key: T -> int): seq<T> {
    if s == [] || key(x) <= key(s[0]) then [x] + s
    else [s[0]] + Insert(x, s[1..], key)
  }

  /** A stable sort by `key`: insertion sort from the back of the list. */
  function SortBy<T>(s: seq<T>, key: T -> int): seq<T> {
    if s == [] then [] else Insert(s[0], SortBy(s[1..], key), key)
  }

  lemma {:induction false} InsertPermutes<T>(x: T, s: seq<T>, key: T -> int)
    ensures multiset(Insert(x, s, key)) == multiset{x} + multiset(s)
  {
    if s == [] || key(x) <= key(s[0]) {
    } else {
      InsertPermutes(x, s[1..], key);
      assert s == [s[0]] + s[1..];
    }
  }

  lemma {:induction false} InsertSorted<T>(x: T, s: seq<T>, key: T -> int)
    requires SortedBy(s, key)
    ensures SortedBy(Insert(x, s, key), key)
  {
    if s == [] || key(x) <= key(s[0]) {
    } else {
      InsertSorted(x, s[1..], key);
      InsertPermutes(x, s[1..], key);
      var t := Insert(x, s[1..], key);
      forall j | 0 <= j < |t| ensures key(s[0]) <= key(t[j]) {
        assert t[j] in multiset(t);
        assert t[j] == x || t[j] in multiset(s[1..]);
      }
    }
  }

  lemma {:induction false} InsertWithKey<T>(x: T, s: seq<T>, key: T -> int, k: int)
    ensures WithKey(Insert(x, s, key), key, k)
         == (if key(x) == k then [x] else []) + WithKey(s, key, k)
  {
    if s == [] || key(x) <= key(s[0]) {
      assert ([x] + s)[1..] == s;
    } else {
      var rest := Insert(x, s[1..], key);
      InsertWithKey(x, s[1..], key, k);
      assert ([s[0]] + rest)[1..] == rest;
      assert WithKey(Insert(x, s, key), key, k) == (if key(s[0]) == k then [s[0]] else []) + WithKey(rest, key, k);
      assert key(x) != k || key(s[0]) != k;
    }
  }

  /** `SortBy` returns a permutation of its input. */
  lemma {:induction false} SortByPermutes<T>(s: seq<T>, key: T -> int)
    ensures multiset(SortBy(s, key)) == multiset(s)
    ensures |SortBy(s, key)| == |s|
  {
    if s != [] {
      SortByPermutes(s[1..], key);
      InsertPermutes(s[0], SortBy(s[1..], key), key);
      assert s == [s[0]] + s[1..];
    }
  }

  /** `SortBy` returns a list whose keys do not decrease. */
  lemma {:induction false} SortBySorted<T>(s: seq<T>, key: T -> int)
    ensures SortedBy(SortBy(s, key), key)
  {
    if s != [] {
      SortBySorted(s[1..], key);
      InsertSorted(s[0], SortBy(s[1..], key), key);
    }
  }

  /** `SortBy` is stable: elements with equal keys keep their input order. */
  lemma {:induction false} SortByStable<T>(s: seq<T>, key: T -> int, k: int)
    ensures WithKey(SortBy(s, key), key, k) == WithKey(s, key, k)
  {
    if s != [] {
      SortByStable(s[1..], key, k);
      InsertWithKey(s[0], SortBy(s[1..], key), key, k);
    }
  }

  lemma {:induction false} InsertDistinct<T, K>(x: T, s: seq<T>, key: T -> int, dkey: T -> K)
    requires DistinctKeys(s, dkey)
    requires forall y :: y in s ==> dkey(y) != dkey(x)
    ensures DistinctKeys(Insert(x, s, key), dkey)
  {
    if s == [] || key(x) <= key(s[0]) {
    } else {
      InsertDistinct(x, s[1..], key, dkey);
      InsertPermutes(x, s[1..], key);
      var t := Insert(x, s[1..], key);
      forall j | 0 <= j < |t| ensures dkey(s[0]) != dkey(t[j]) {
        assert t[j] in multiset(t);
        assert t[j] == x || t[j] in multiset(s[1..]);
      }
    }
  }

  /** Sorting keeps another key distinct when it was. */
  lemma {:induction false} SortByDistinct<T, K>(s: seq<T>, key: T -> int, dkey: T -> K)
    requires DistinctKeys(s, dkey)
    ensures DistinctKeys(SortBy(s, key), dkey)
  {
    if s != [] {
      SortByDistinct(s[1..], key, dkey);
      SortByPermutes(s[1..], key);
      forall y | y in SortBy(s[1..], key) ensures dkey(y) != dkey(s[0]) {
        assert y in multiset(s[1..]);
        var k :| 0 <= k < |s[1..]| && s[1..][k] == y;
        assert s[k + 1] == y;
      }
      InsertDistinct(s[0], SortBy(s[1..], key), key, dkey);
    }
  }

  /** Sorting neither adds nor drops an element. */
  lemma SortByMembers<T>(s: seq<T>, key: T -> int)
    ensures forall x :: x in SortBy(s, key) <==> x in s
  {
    SortByPermutes(s, key);
    forall x ensures x in SortBy(s, key) <==> x in s {
      assert x in SortBy(s, key) <==> x in multiset(SortBy(s, key));
      assert x in s <==> x in multiset(s);
    }
  }

  // ---------------------------------------------------------------------
  // distinctBy: keep the first element for each key
  // ---------------------------------------------------------------------

  /** The first element of `s` whose key is `k`, if any. */
  function FirstOf<T, K(==)>(s: seq<T>, key: T -> K, k: K): Option<T> {
    if s == [] then None
    else if key(s[0]) == k then Some(s[0])
    else FirstOf(s[1..], key, k)
  }

  function DistinctByFrom<T, K(==)>(s: seq<T>, key: T -> K, seen: set<K>): seq<T> {
    if s == [] then []
    else if key(s[0]) in seen then DistinctByFrom(s[1..], key, seen)
    else [s[0]] + DistinctByFrom(s[1..], key, seen + {key(s[0])})
  }

  /** Kotlin `distinctBy`: the first element for each key, in list order. */
  function DistinctBy<T, K(==)>(s: seq<T>, key: T -> K): seq<T> {
    DistinctByFrom(s, key, {})
  }

  /**
   * `DistinctByFrom` keeps a sub-multiset of the list, with no key already
   * seen, no key twice, and for each key the first element that has it.
   */
  lemma {:induction false} DistinctByFromProps<T, K>(s: seq<T>, key: T -> K, seen: set<K>)
    ensures var r := DistinctByFrom(s, key, seen);
      && multiset(r) <= multiset(s)
      && (forall i :: 0 <= i < |r| ==> key(r[i]) !in seen)
      && (forall i, j :: 0 <= i < j < |r| ==> key(r[i]) != key(r[j]))
      && (forall i :: 0 <= i < |r| ==> FirstOf(s, key, key(r[i])) == Some(r[i]))
  {
    if s != [] {
      assert s == [s[0]] + s[1..];
      if key(s[0]) in seen {
        DistinctByFromProps(s[1..], key, seen);
      } else {
        var seen' := seen + {key(s[0])};
        var rest := DistinctByFrom(s[1..], key, seen');
        DistinctByFromProps(s[1..], key, seen');
        var r := [s[0]] + rest;
        assert r[0] == s[0];
        forall i | 0 < i < |r| ensures FirstOf(s, key, key(r[i])) == Some(r[i]) {
          assert r[i] == rest[i - 1];
          assert key(rest[i - 1]) !in seen';
        }
      }
    }
  }

  /** A key of the list not seen before has an element in `DistinctByFrom`. */
  lemma {:induction false} DistinctByFromCovers<T, K>(s: seq<T>, key: T -> K, seen: set<K>, x: T)
    requires x in s && key(x) !in seen
    ensures exists i :: 0 <= i < |DistinctByFrom(s, key, seen)| && key(DistinctByFrom(s, key, seen)[i]) == key(x)
  {
    var r := DistinctByFrom(s, key, seen);
    if key(s[0]) in seen {
      assert x != s[0] && x in s[1..];
      DistinctByFromCovers(s[1..], key, seen, x);
      assert r == DistinctByFrom(s[1..], key, seen);
    } else if key(x) == key(s[0]) {
      assert key(r[0]) == key(x);
    } else {
      var seen' := seen + {key(s[0])};
      var rest := DistinctByFrom(s[1..], key, seen');
      assert x != s[0] && x in s[1..];
      DistinctByFromCovers(s[1..], key, seen', x);
      var i :| 0 <= i < |rest| && key(rest[i]) == key(x);
      assert r == [s[0]] + rest;
      assert r[i + 1] == rest[i];
    }
  }

  /**
   * What Kotlin `distinctBy` promises: a sub-multiset of the input with no
   * key twice, holding for each key the first element that has it, and no
   * key of the input lost.
   */
  lemma DistinctByProps<T, K>(s: seq<T>, key: T -> K)
    ensures var r := DistinctBy(s, key);
      && |r| <= |s|
      && multiset(r) <= multiset(s)
      && (forall i, j :: 0 <= i < j < |r| ==> key(r[i]) != key(r[j]))
      && (forall i :: 0 <= i < |r| ==> FirstOf(s, key, key(r[i])) == Some(r[i]))
      && (forall x :: x in s ==> exists i :: 0 <= i < |r| && key(r[i]) == key(x))
  {
    DistinctByFromProps(s, key, {});
    forall x | x in s
      ensures exists i :: 0 <= i < |DistinctBy(s, key)| && key(DistinctBy(s, key)[i]) == key(x)
    {
      DistinctByFromCovers(s, key, {}, x);
      assert DistinctBy(s, key) == DistinctByFrom(s, key, {});
    }
    var r := DistinctBy(s, key);
    assert |multiset(r)| <= |multiset(s)| by {
      MultisetSubsetCard(multiset(r), multiset(s));
    }
  }

  lemma MultisetSubsetCard<T>(a: multiset<T>, b: multiset<T>)
    requires a <= b
    ensures |a| <= |b|
  {
    assert b == a + (b - a);
  }
}
