// A stable sort by an integer key: the behaviour of
// `stream().sorted(Comparator.comparing(key))` on an ordered stream.
module Sorting {

  predicate SortedBy<T>(s: seq<T>, key: T -> int)
  {
    forall i, j :: 0 <= i < j < |s| ==> key(s[i]) <= key(s[j])
  }

  /** Inserts `x` in front of the first element whose key is not smaller. */
  function InsertBy<T>(x: T, s: seq<T>, key: T -> int): (r: seq<T>)
    requires SortedBy(s, key)
    ensures SortedBy(r, key)
    ensures multiset(r) == multiset(s) + multiset{x}
    ensures |r| == |s| + 1
    ensures r[0] == x || (|s| > 0 && r[0] == s[0])
  {
    if |s| == 0 then [x]
    else if key(x) <= key(s[0]) then [x] + s
    else
      SortedTail(s, key);
      var rest := InsertBy(x, s[1..], key);
      assert |s| > 1 ==> s[1..][0] == s[1];
      ConsSorted(s[0], rest, key);
      assert s == [s[0]] + s[1..];
      [s[0]] + rest
  }

  /** A sorted sequence stays sorted when an element with a key not above its first key is put in front. */
  lemma ConsSorted<T>(y: T, rest: seq<T>, key: T -> int)
    requires SortedBy(rest, key)
    requires |rest| > 0 ==> key(y) <= key(rest[0])
    ensures SortedBy([y] + rest, key)
  {
    var r := [y] + rest;
    forall i, j | 0 <= i < j < |r| ensures key(r[i]) <= key(r[j]) {
      if i == 0 {
        assert r[j] == rest[j - 1];
        assert key(rest[0]) <= key(rest[j - 1]) || j == 1;
      } else {
        assert r[i] == rest[i - 1] && r[j] == rest[j - 1];
      }
    }
  }

  /** Insertion sort: sorted by `key`, and a permutation of `s`; `SortByStable` shows it is stable. */
  function SortBy<T>(s: seq<T>, key: T -> int): (r: seq<T>)
    ensures SortedBy(r, key)
    ensures multiset(r) == multiset(s)
    ensures |r| == |s|
  {
    if |s| == 0 then []
    else
      assert s == [s[0]] + s[1..];
      InsertBy(s[0], SortBy(s[1..], key), key)
  }

  /** The elements of `s` whose key is `k`, in the order of `s`. */
  function WithKey<T>(s: seq<T>, key: T -> int, k: int): seq<T>
  {
    if |s| == 0 then []
    else (if key(s[0]) == k then [s[0]] else []) + WithKey(s[1..], key, k)
  }

  lemma WithKeyCons<T>(y: T, t: seq<T>, key: T -> int, k: int)
    ensures WithKey([y] + t, key, k) == (if key(y) == k then [y] else []) + WithKey(t, key, k)
  {
    assert ([y] + t)[1..] == t;
  }

  /** Inserting `x` puts it in front of every element that has its key. */
  lemma {:induction false} InsertByStable<T>(x: T, s: seq<T>, key: T -> int, k: int)
    requires SortedBy(s, key)
    ensures WithKey(InsertBy(x, s, key), key, k) == (if key(x) == k then [x] else []) + WithKey(s, key, k)
    decreases |s|
  {
    if |s| > 0 && key(x) > key(s[0]) {
      SortedTail(s, key);
      InsertByStable(x, s[1..], key, k);
      assert s == [s[0]] + s[1..];
      InsertBehindHead(x, s[0], s[1..], InsertBy(x, s[1..], key), key, k);
    } else {
      assert InsertBy(x, s, key) == [x] + s;
      WithKeyCons(x, s, key, k);
    }
  }

  /** The step of `InsertByStable` past a head with a smaller key. */
  lemma InsertBehindHead<T>(x: T, y: T, t: seq<T>, rest: seq<T>, key: T -> int, k: int)
    requires key(x) > key(y)
    requires WithKey(rest, key, k) == (if key(x) == k then [x] else []) + WithKey(t, key, k)
    ensures WithKey([y] + rest, key, k) == (if key(x) == k then [x] else []) + WithKey([y] + t, key, k)
  {
    WithKeyCons(y, rest, key, k);
    WithKeyCons(y, t, key, k);
    if key(x) == k {
      assert key(y) != k;
    }
  }

  /**
   * The sort is stable: the elements of any one key come out in the order
   * they went in, as with `sorted()` on an ordered stream.
   */
  lemma {:induction false} SortByStable<T>(s: seq<T>, key: T -> int, k: int)
    ensures WithKey(SortBy(s, key), key, k) == WithKey(s, key, k)
    decreases |s|
  {
    if |s| > 0 {
      SortByStable(s[1..], key, k);
      InsertByStable(s[0], SortBy(s[1..], key), key, k);
    }
  }

  /** Sorting a sequence that is already sorted leaves it as it is. */
  lemma {:induction false} SortByKeepsSorted<T>(s: seq<T>, key: T -> int)
    requires SortedBy(s, key)
    ensures SortBy(s, key) == s
    decreases |s|
  {
    if |s| > 0 {
      var t := s[1..];
      SortedTail(s, key);
      SortByKeepsSorted(t, key);
      assert |t| > 0 ==> t[0] == s[1] && key(s[0]) <= key(s[1]);
      InsertAtFront(s[0], t, key);
      assert s == [s[0]] + t;
    }
  }

  /** An element whose key is not above the first key is inserted in front. */
  lemma InsertAtFront<T>(x: T, t: seq<T>, key: T -> int)
    requires SortedBy(t, key)
    requires |t| > 0 ==> key(x) <= key(t[0])
    ensures InsertBy(x, t, key) == [x] + t
  {
  }

  /** No two elements share a key, and no element occurs twice. */
  ghost predicate KeysUnique<T>(m: multiset<T>, key: T -> int)
  {
    forall x, y :: x in m && y in m && key(x) == key(y) ==> x == y && m[x] == 1
  }

  /** When keys are unique, the sorted order is fixed by the elements alone. */
  lemma {:induction false} SortedPermutationsEqual<T>(a: seq<T>, b: seq<T>, key: T -> int)
    requires SortedBy(a, key) && SortedBy(b, key)
    requires multiset(a) == multiset(b)
    requires KeysUnique(multiset(a), key)
    ensures a == b
    decreases |a|
  {
    if |a| == 0 {
      assert |b| == |multiset(b)| == 0;
    } else {
      SortedHeadsEqual(a, b, key);
      SortedTail(a, key);
      SortedTail(b, key);
      KeysUniqueShrinks(multiset(a), multiset(a[1..]), key);
      SortedPermutationsEqual(a[1..], b[1..], key);
      assert |a| == |a[1..]| + 1 == |b[1..]| + 1 == |b|;
      forall k | 0 <= k < |a| ensures a[k] == b[k] {
        if k > 0 { assert a[k] == a[1..][k - 1]; assert b[k] == b[1..][k - 1]; }
      }
    }
  }

  lemma SortedHeadsEqual<T>(a: seq<T>, b: seq<T>, key: T -> int)
    requires SortedBy(a, key) && SortedBy(b, key)
    requires |a| > 0 && multiset(a) == multiset(b)
    requires KeysUnique(multiset(a), key)
    ensures |b| > 0 && a[0] == b[0]
  {
    assert a[0] in multiset(a);
    assert a[0] in multiset(b);
    var j :| 0 <= j < |b| && b[j] == a[0];
    assert b[0] in multiset(a);
    var i :| 0 <= i < |a| && a[i] == b[0];
    assert key(b[0]) <= key(a[0]) <= key(b[0]);
  }

  lemma SortedTail<T>(a: seq<T>, key: T -> int)
    requires SortedBy(a, key) && |a| > 0
    ensures SortedBy(a[1..], key)
    ensures multiset(a[1..]) == multiset(a) - multiset{a[0]}
    ensures multiset(a[1..]) <= multiset(a)
  {
    assert a == [a[0]] + a[1..];
  }

  lemma KeysUniqueShrinks<T>(m: multiset<T>, m': multiset<T>, key: T -> int)
    requires KeysUnique(m, key) && m' <= m
    ensures KeysUnique(m', key)
  {
    forall x, y | x in m' && y in m' && key(x) == key(y)
      ensures x == y && m'[x] == 1
    {
      assert x in m && y in m;
      assert m'[x] <= m[x];
    }
  }

  /** Sorting a reordering of a collection with unique keys gives the same sequence. */
  lemma SortByIgnoresInputOrder<T>(a: seq<T>, b: seq<T>, key: T -> int)
    requires multiset(a) == multiset(b)
    requires KeysUnique(multiset(a), key)
    ensures SortBy(a, key) == SortBy(b, key)
  {
    SortedPermutationsEqual(SortBy(a, key), SortBy(b, key), key);
  }
}
