// Sequence operations shared by the entities and the services: a sum over a
// projection (Java's `stream().map(f).reduce(ZERO, add)`), first-match
// lookup (`stream().filter(..).findFirst()`), `List.remove(Object)` and
// `Collection.removeIf`.
module Collections {
  import opened Wrappers

  /** Sum of `f` over `s`, folded from the left as a Java stream reduction is. */
  function Sum<T>(s: seq<T>, f: T -> int): int
  {
    if |s| == 0 then 0 else Sum(s[..|s| - 1], f) + f(s[|s| - 1])
  }

  lemma SumAppend<T>(s: seq<T>, x: T, f: T -> int)
    ensures Sum(s + [x], f) == Sum(s, f) + f(x)
  {
    assert (s + [x])[..|s + [x]| - 1] == s;
  }

  lemma {:induction false} SumConcat<T>(a: seq<T>, b: seq<T>, f: T -> int)
    ensures Sum(a + b, f) == Sum(a, f) + Sum(b, f)
    decreases |b|
  {
    if |b| == 0 {
      assert a + b == a;
    } else {
      var b' := b[..|b| - 1];
      assert a + b == (a + b') + [b[|b| - 1]];
      assert b == b' + [b[|b| - 1]];
      SumConcat(a, b', f);
      SumAppend(a + b', b[|b| - 1], f);
      SumAppend(b', b[|b| - 1], f);
    }
  }

  lemma ConcatAssociative<T>(a: seq<T>, b: seq<T>, c: seq<T>)
    ensures a + (b + c) == (a + b) + c
  {
  }

  /** Taking one element out of a sum. */
  lemma SumRemoveAt<T>(s: seq<T>, k: nat, f: T -> int)
    requires k < |s|
    ensures Sum(s, f) == Sum(s[..k] + s[k + 1..], f) + f(s[k])
  {
    var front, x, back := s[..k], s[k], s[k + 1..];
    assert s == front + ([x] + back);
    SumConcat(front, [x] + back, f);
    SumConcat([x], back, f);
    SumConcat(front, back, f);
    SumSingle(x, f);
  }

  /** Element `k` of a sequence with `h` put in front. */
  lemma ConsIndex<T>(h: T, t: seq<T>, k: nat)
    requires k <= |t|
    ensures ([h] + t)[k] == if k == 0 then h else t[k - 1]
  {
  }

  lemma SumSingle<T>(x: T, f: T -> int)
    ensures Sum([x], f) == f(x)
  {
    assert [x][..0] == [];
  }

  /** A sum does not depend on the order of the summands. */
  lemma {:induction false} SumPermutation<T>(a: seq<T>, b: seq<T>, f: T -> int)
    requires multiset(a) == multiset(b)
    ensures Sum(a, f) == Sum(b, f)
    decreases |a|
  {
    if |a| == 0 {
      assert |b| == |multiset(b)| == 0;
    } else {
      var x := a[|a| - 1];
      var a' := a[..|a| - 1];
      MultisetRemoveAt(a, |a| - 1);
      assert x in multiset(b);
      var k :| 0 <= k < |b| && b[k] == x;
      var b' := b[..k] + b[k + 1..];
      MultisetRemoveAt(b, k);
      SumPermutation(a', b', f);
      SumRemoveAt(b, k, f);
    }
  }

  /** Taking out the element at `k` takes one copy of it out of the multiset. */
  lemma MultisetRemoveAt<T>(s: seq<T>, k: nat)
    requires k < |s|
    ensures multiset(s[..k] + s[k + 1..]) == multiset(s) - multiset{s[k]}
  {
    assert s == s[..k] + [s[k]] + s[k + 1..];
    assert multiset(s) == multiset(s[..k]) + multiset{s[k]} + multiset(s[k + 1..]);
  }

  lemma {:induction false} SumNonNegative<T>(s: seq<T>, f: T -> int)
    requires forall k :: 0 <= k < |s| ==> f(s[k]) >= 0
    ensures Sum(s, f) >= 0
    decreases |s|
  {
    if |s| > 0 {
      SumNonNegative(s[..|s| - 1], f);
      assert f(s[|s| - 1]) >= 0;
    }
  }

  lemma {:induction false} SumMonotone<T>(s: seq<T>, f: T -> int, g: T -> int)
    requires forall k :: 0 <= k < |s| ==> f(s[k]) <= g(s[k])
    ensures Sum(s, f) <= Sum(s, g)
    decreases |s|
  {
    if |s| > 0 {
      SumMonotone(s[..|s| - 1], f, g);
      assert f(s[|s| - 1]) <= g(s[|s| - 1]);
    }
  }

  /** Two projections that agree on every element have the same sum. */
  lemma {:induction false} SumCongruent<T, U>(s: seq<T>, f: T -> int, t: seq<U>, g: U -> int)
    requires |s| == |t|
    requires forall k :: 0 <= k < |s| ==> f(s[k]) == g(t[k])
    ensures Sum(s, f) == Sum(t, g)
    decreases |s|
  {
    if |s| > 0 {
      SumCongruent(s[..|s| - 1], f, t[..|t| - 1], g);
    }
  }

  /** `stream().map(f).toList()`: same length, element by element. */
  function MapSeq<T, U>(s: seq<T>, f: T -> U): (r: seq<U>)
    ensures |r| == |s|
    ensures forall k :: 0 <= k < |s| ==> r[k] == f(s[k])
  {
    if |s| == 0 then [] else [f(s[0])] + MapSeq(s[1..], f)
  }

  /** Index of the first element whose key is `k`. */
  function IndexOfKey<T>(s: seq<T>, key: T -> nat, k: nat): (r: Option<nat>)
    ensures r.Some? ==> r.value < |s| && key(s[r.value]) == k
    ensures r.Some? ==> forall j :: 0 <= j < r.value ==> key(s[j]) != k
    ensures r.None? <==> forall j :: 0 <= j < |s| ==> key(s[j]) != k
  {
    if |s| == 0 then None
    else if key(s[0]) == k then Some(0)
    else match IndexOfKey(s[1..], key, k)
      case None => None
      case Some(i) => Some(i + 1)
  }

  /** `stream().filter(e -> key(e) == k).findFirst()`. */
  function FindByKey<T>(s: seq<T>, key: T -> nat, k: nat): (r: Option<T>)
    ensures r.Some? ==> r.value in s && key(r.value) == k
    ensures r.Some? ==> r.value == s[IndexOfKey(s, key, k).value]
    ensures r.None? <==> forall j :: 0 <= j < |s| ==> key(s[j]) != k
  {
    match IndexOfKey(s, key, k)
    case None => None
    case Some(i) => Some(s[i])
  }

  /** Every two elements at different positions are related by `p`. */
  predicate Pairwise<T>(s: seq<T>, p: (T, T) -> bool)
  {
    forall i, j {:trigger p(s[i], s[j])} :: 0 <= i < j < |s| ==> p(s[i], s[j])
  }

  /** Two different positions of a pairwise related sequence, in their order. */
  lemma PairwiseAt<T>(s: seq<T>, p: (T, T) -> bool, i: nat, j: nat)
    requires Pairwise(s, p) && i < |s| && j < |s| && i != j
    ensures if i < j then p(s[i], s[j]) else p(s[j], s[i])
  {
  }

  /** A pairwise property of a sequence holds of its tail. */
  lemma PairwiseTail<T>(s: seq<T>, p: (T, T) -> bool)
    requires Pairwise(s, p) && |s| > 0
    ensures Pairwise(s[1..], p)
  {
    var t := s[1..];
    forall i, j | 0 <= i < j < |t| ensures p(t[i], t[j]) {
      assert t[i] == s[i + 1] && t[j] == s[j + 1];
    }
  }

  /** An element found at two positions occurs at least twice. */
  lemma SameAtTwoPlaces<T>(s: seq<T>, i: nat, j: nat)
    requires i < j < |s| && s[i] == s[j]
    ensures multiset(s)[s[i]] >= 2
  {
    assert s == s[..j] + s[j..];
    assert s[i] == s[..j][i] && s[j] == s[j..][0];
    assert multiset(s) == multiset(s[..j]) + multiset(s[j..]);
  }

  /** Appending an element related to every earlier one keeps a pairwise property. */
  lemma PairwiseAppend<T>(s: seq<T>, x: T, p: (T, T) -> bool)
    requires Pairwise(s, p)
    requires forall k :: 0 <= k < |s| ==> p(s[k], x)
    ensures Pairwise(s + [x], p)
  {
    var t := s + [x];
    forall i, j | 0 <= i < j < |t| ensures p(t[i], t[j]) {
      if j < |s| {
        assert t[i] == s[i] && t[j] == s[j];
      } else {
        assert t[i] == s[i] && t[j] == x;
      }
    }
  }

  /** Dropping one element keeps a pairwise property. */
  lemma PairwiseRemoveAt<T>(s: seq<T>, k: nat, p: (T, T) -> bool)
    requires k < |s| && Pairwise(s, p)
    ensures Pairwise(s[..k] + s[k + 1..], p)
  {
    var t := s[..k] + s[k + 1..];
    forall i, j | 0 <= i < j < |t| ensures p(t[i], t[j]) {
      var i' := if i < k then i else i + 1;
      var j' := if j < k then j else j + 1;
      assert t[i] == s[i'] && t[j] == s[j'];
    }
  }

  /** Java's `List.remove(Object)`: drops the first element equal to `x`. */
  function RemoveFirst<T(==)>(s: seq<T>, x: T): (r: seq<T>)
    ensures x !in s ==> r == s
    ensures x in s ==> |r| == |s| - 1
  {
    if |s| == 0 then []
    else if s[0] == x then
      s[1..]
    else
      assert s == [s[0]] + s[1..];
      [s[0]] + RemoveFirst(s[1..], x)
  }

  /** `remove` takes out exactly one occurrence of `x`, when there is one, and nothing else. */
  lemma {:induction false} RemoveFirstMultiset<T>(s: seq<T>, x: T)
    ensures multiset(RemoveFirst(s, x)) == multiset(s) - multiset{x}
    decreases |s|
  {
    if |s| > 0 {
      assert s == [s[0]] + s[1..];
      if s[0] != x {
        RemoveFirstMultiset(s[1..], x);
      }
    }
  }

  /** Removing the element at the first index carrying a key removes exactly that slot. */
  lemma {:induction false} RemoveFirstAtKey<T>(s: seq<T>, key: T -> nat, k: nat)
    requires IndexOfKey(s, key, k).Some?
    ensures var i := IndexOfKey(s, key, k).value;
      RemoveFirst(s, s[i]) == s[..i] + s[i + 1..]
  {
    var i := IndexOfKey(s, key, k).value;
    RemoveFirstAtFirstOccurrence(s, i);
  }

  lemma {:induction false} RemoveFirstAtFirstOccurrence<T>(s: seq<T>, i: nat)
    requires i < |s|
    requires forall j :: 0 <= j < i ==> s[j] != s[i]
    ensures RemoveFirst(s, s[i]) == s[..i] + s[i + 1..]
    decreases i
  {
    if i == 0 {
      assert s[..0] + s[1..] == s[1..];
    } else {
      var t := s[1..];
      assert RemoveFirst(s, s[i]) == [s[0]] + RemoveFirst(t, t[i - 1]) by {
        assert t[i - 1] == s[i] && s[0] != s[i];
      }
      assert RemoveFirst(t, t[i - 1]) == t[..i - 1] + t[i..] by {
        RemoveFirstAtFirstOccurrence(t, i - 1);
      }
      assert [s[0]] + (t[..i - 1] + t[i..]) == s[..i] + s[i + 1..] by {
        assert t[..i - 1] == s[1..i] && t[i..] == s[i + 1..];
        assert s[..i] == [s[0]] + s[1..i];
        ConcatAssociative([s[0]], s[1..i], s[i + 1..]);
      }
    }
  }

  /** Overwriting the first element with a key by one of the same key leaves it the first. */
  lemma IndexOfKeyAfterUpdate<T>(s: seq<T>, key: T -> nat, k: nat, x: T)
    requires IndexOfKey(s, key, k).Some? && key(x) == k
    ensures IndexOfKey(s[IndexOfKey(s, key, k).value := x], key, k) == IndexOfKey(s, key, k)
  {
    var i := IndexOfKey(s, key, k).value;
    var t := s[i := x];
    var j := IndexOfKey(t, key, k);
    assert key(t[i]) == k;
    assert j.Some?;
    assert forall m :: 0 <= m < i ==> t[m] == s[m];
  }

  /** An element appended with a key no earlier element has is found at the end. */
  lemma IndexOfKeyAfterAppend<T>(s: seq<T>, key: T -> nat, x: T)
    requires forall j :: 0 <= j < |s| ==> key(s[j]) != key(x)
    ensures IndexOfKey(s + [x], key, key(x)) == Some(|s|)
  {
    var t := s + [x];
    assert key(t[|s|]) == key(x);
    assert forall m :: 0 <= m < |s| ==> t[m] == s[m];
  }

  /** Java's `Collection.removeIf(e -> key(e) == k)`: keeps, in order, the elements with another key. */
  function RemoveWhereKey<T>(s: seq<T>, key: T -> nat, k: nat): (r: seq<T>)
    ensures |r| <= |s|
    ensures forall j :: 0 <= j < |r| ==> key(r[j]) != k && r[j] in s
    ensures (forall j :: 0 <= j < |s| ==> key(s[j]) != k) ==> r == s
    ensures (exists j :: 0 <= j < |s| && key(s[j]) == k) ==> |r| < |s|
  {
    if |s| == 0 then []
    else if key(s[0]) == k then RemoveWhereKey(s[1..], key, k)
    else [s[0]] + RemoveWhereKey(s[1..], key, k)
  }

  /**
   * `removeIf` works element by element and keeps the order: on a
   * concatenation it is the concatenation of its results, and a single
   * element stays exactly when its key differs.
   */
  lemma {:induction false} RemoveWhereKeyConcat<T>(a: seq<T>, b: seq<T>, key: T -> nat, k: nat, x: T)
    ensures RemoveWhereKey(a + b, key, k) == RemoveWhereKey(a, key, k) + RemoveWhereKey(b, key, k)
    ensures RemoveWhereKey([x], key, k) == if key(x) == k then [] else [x]
    decreases |a|
  {
    if |a| > 0 {
      assert (a + b)[1..] == a[1..] + b;
      RemoveWhereKeyConcat(a[1..], b, key, k, x);
    } else {
      assert a + b == b;
    }
  }

  /** `removeIf` keeps a subsequence, so a pairwise property survives it. */
  lemma {:induction false} RemoveWhereKeyPairwise<T>(s: seq<T>, key: T -> nat, k: nat, p: (T, T) -> bool)
    requires Pairwise(s, p)
    ensures Pairwise(RemoveWhereKey(s, key, k), p)
    decreases |s|
  {
    if |s| > 0 {
      var t := s[1..];
      assert Pairwise(t, p) by {
        forall i, j | 0 <= i < j < |t| ensures p(t[i], t[j]) {
          assert t[i] == s[i + 1] && t[j] == s[j + 1];
        }
      }
      RemoveWhereKeyPairwise(t, key, k, p);
      if key(s[0]) != k {
        var rest := RemoveWhereKey(t, key, k);
        var r := [s[0]] + rest;
        forall i, j | 0 <= i < j < |r| ensures p(r[i], r[j]) {
          if i == 0 {
            assert r[j] == rest[j - 1] && rest[j - 1] in t;
            var m :| 0 <= m < |t| && t[m] == rest[j - 1];
            assert s[m + 1] == t[m];
          } else {
            assert r[i] == rest[i - 1] && r[j] == rest[j - 1];
          }
        }
      }
    }
  }

  /** `removeIf` keeps every element of another key, with its multiplicity. */
  lemma {:induction false} RemoveWhereKeyKeepsOthers<T>(s: seq<T>, key: T -> nat, k: nat, x: T)
    requires key(x) != k
    ensures multiset(RemoveWhereKey(s, key, k))[x] == multiset(s)[x]
    decreases |s|
  {
    if |s| > 0 {
      RemoveWhereKeyKeepsOthers(s[1..], key, k, x);
      assert s == [s[0]] + s[1..];
    }
  }
}
