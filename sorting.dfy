/**
 * Python's `list.sort(key=..., reverse=...)` and `sorted(...)`: a stable sort
 * by a numeric key. With `reverse=True` Python keeps equal-key elements in
 * their original order, so both directions are stable.
 *
 * The sort is an insertion sort; its specification is that the result is
 * ordered by the key, is a permutation of the input, and keeps, for every
 * key value, the elements having that key in their original order.
 */
module Sorting {

  /** Inserts `x` in front of the first element whose key is not above the key of `x`. */
  function Insert<T>(x: T, s: seq<T>, key: T -> real): seq<T>
    decreases |s|
  {
    if s == [] || key(s[0]) <= key(x) then [x] + s else [s[0]] + Insert(x, s[1..], key)
  }

  /** `sorted(s, key=key, reverse=True)`: largest key first, stable. */
  function SortDescending<T>(s: seq<T>, key: T -> real): seq<T>
    decreases |s|
  {
    if s == [] then [] else Insert(s[0], SortDescending(s[1..], key), key)
  }

  function Negated<T>(key: T -> real): T -> real {
    x => -key(x)
  }

  /** `sorted(s, key=key)`: smallest key first, stable. */
  function SortAscending<T>(s: seq<T>, key: T -> real): seq<T> {
    SortDescending(s, Negated(key))
  }

  ghost predicate NonIncreasing<T>(s: seq<T>, key: T -> real) {
    forall i, j :: 0 <= i < j < |s| ==> key(s[i]) >= key(s[j])
  }

  ghost predicate NonDecreasing<T>(s: seq<T>, key: T -> real) {
    forall i, j :: 0 <= i < j < |s| ==> key(s[i]) <= key(s[j])
  }

  /** The elements of `s` whose key equals `k`, in their order in `s`. */
  function WithKey<T>(s: seq<T>, key: T -> real, k: real): seq<T>
    decreases |s|
  {
    if s == [] then [] else (if key(s[0]) == k then [s[0]] else []) + WithKey(s[1..], key, k)
  }

  /** `r` is `s` sorted stably by `key`, largest first. */
  ghost predicate IsStableSortDescending<T>(s: seq<T>, r: seq<T>, key: T -> real) {
    && NonIncreasing(r, key)
    && multiset(r) == multiset(s)
    && forall k :: WithKey(r, key, k) == WithKey(s, key, k)
  }

  lemma {:induction false} WithKeyConcat<T>(a: seq<T>, b: seq<T>, key: T -> real, k: real)
    ensures WithKey(a + b, key, k) == WithKey(a, key, k) + WithKey(b, key, k)
    decreases |a|
  {
    if a == [] {
      assert a + b == b;
    } else {
      var head := if key(a[0]) == k then [a[0]] else [];
      assert (a + b)[0] == a[0] && (a + b)[1..] == a[1..] + b;
      assert WithKey(a + b, key, k) == head + WithKey(a[1..] + b, key, k);
      WithKeyConcat(a[1..], b, key, k);
      assert WithKey(a, key, k) == head + WithKey(a[1..], key, k);
    }
  }

  /** Prepending an element no smaller than the head keeps the order. */
  lemma SortedCons<T>(h: T, t: seq<T>, key: T -> real)
    requires NonIncreasing(t, key)
    requires t == [] || key(h) >= key(t[0])
    ensures NonIncreasing([h] + t, key)
  {
    var r := [h] + t;
    forall i, j | 0 <= i < j < |r| ensures key(r[i]) >= key(r[j]) {
      if i == 0 {
        assert r[j] == t[j - 1];
        assert key(t[0]) >= key(t[j - 1]) || j == 1;
      } else {
        assert r[i] == t[i - 1] && r[j] == t[j - 1];
      }
    }
  }

  lemma {:induction false} InsertHead<T>(x: T, s: seq<T>, key: T -> real)
    ensures |Insert(x, s, key)| == |s| + 1
    ensures Insert(x, s, key)[0] == x || (s != [] && Insert(x, s, key)[0] == s[0])
    decreases |s|
  {
    if s != [] && key(s[0]) > key(x) {
      InsertHead(x, s[1..], key);
    }
  }

  lemma {:induction false} InsertSorted<T>(x: T, s: seq<T>, key: T -> real)
    requires NonIncreasing(s, key)
    ensures NonIncreasing(Insert(x, s, key), key)
    decreases |s|
  {
    if s == [] || key(s[0]) <= key(x) {
      SortedCons(x, s, key);
    } else {
      var t := Insert(x, s[1..], key);
      assert NonIncreasing(s[1..], key) by {
        forall i, j | 0 <= i < j < |s[1..]| ensures key(s[1..][i]) >= key(s[1..][j]) {
          assert s[1..][i] == s[i + 1] && s[1..][j] == s[j + 1];
        }
      }
      InsertSorted(x, s[1..], key);
      InsertHead(x, s[1..], key);
      assert t[0] != x ==> key(s[0]) >= key(s[1]);
      SortedCons(s[0], t, key);
    }
  }

  lemma {:induction false} InsertPermutes<T>(x: T, s: seq<T>, key: T -> real)
    ensures multiset(Insert(x, s, key)) == multiset(s) + multiset{x}
    decreases |s|
  {
    if s != [] && key(s[0]) > key(x) {
      InsertPermutes(x, s[1..], key);
      assert s == [s[0]] + s[1..];
    }
  }

  lemma {:induction false} InsertKeepsKeyOrder<T>(x: T, s: seq<T>, key: T -> real, k: real)
    ensures WithKey(Insert(x, s, key), key, k) == WithKey([x] + s, key, k)
    decreases |s|
  {
    if s != [] && key(s[0]) > key(x) {
      InsertKeepsKeyOrder(x, s[1..], key, k);
      var t := Insert(x, s[1..], key);
      assert ([s[0]] + t)[0] == s[0] && ([s[0]] + t)[1..] == t;
      assert ([x] + s)[0] == x && ([x] + s)[1..] == s;
      assert ([x] + s[1..])[0] == x && ([x] + s[1..])[1..] == s[1..];
    }
  }

  lemma {:induction false} SortDescendingSorted<T>(s: seq<T>, key: T -> real)
    ensures NonIncreasing(SortDescending(s, key), key)
    decreases |s|
  {
    if s != [] {
      SortDescendingSorted(s[1..], key);
      InsertSorted(s[0], SortDescending(s[1..], key), key);
    }
  }

  lemma {:induction false} SortDescendingPermutes<T>(s: seq<T>, key: T -> real)
    ensures multiset(SortDescending(s, key)) == multiset(s)
    ensures |SortDescending(s, key)| == |s|
    decreases |s|
  {
    if s != [] {
      SortDescendingPermutes(s[1..], key);
      InsertPermutes(s[0], SortDescending(s[1..], key), key);
      InsertHead(s[0], SortDescending(s[1..], key), key);
      assert s == [s[0]] + s[1..];
    }
  }

  lemma {:induction false} SortDescendingStable<T>(s: seq<T>, key: T -> real, k: real)
    ensures WithKey(SortDescending(s, key), key, k) == WithKey(s, key, k)
    decreases |s|
  {
    if s != [] {
      var t := SortDescending(s[1..], key);
      SortDescendingStable(s[1..], key, k);
      InsertKeepsKeyOrder(s[0], t, key, k);
      assert ([s[0]] + t)[0] == s[0] && ([s[0]] + t)[1..] == t;
    }
  }

  /** The sort is stable, ordered largest first, and a permutation. */
  lemma SortDescendingCorrect<T>(s: seq<T>, key: T -> real)
    ensures IsStableSortDescending(s, SortDescending(s, key), key)
    ensures |SortDescending(s, key)| == |s|
  {
    SortDescendingSorted(s, key);
    SortDescendingPermutes(s, key);
    forall k ensures WithKey(SortDescending(s, key), key, k) == WithKey(s, key, k) {
      SortDescendingStable(s, key, k);
    }
  }

  /** The ascending sort is stable, ordered smallest first, and a permutation. */
  lemma SortAscendingCorrect<T>(s: seq<T>, key: T -> real)
    ensures NonDecreasing(SortAscending(s, key), key)
    ensures multiset(SortAscending(s, key)) == multiset(s)
    ensures |SortAscending(s, key)| == |s|
    ensures forall k :: WithKey(SortAscending(s, key), Negated(key), k) == WithKey(s, Negated(key), k)
  {
    SortDescendingCorrect(s, Negated(key));
    var r := SortAscending(s, key);
    forall i, j | 0 <= i < j < |r| ensures key(r[i]) <= key(r[j]) {
      assert Negated(key)(r[i]) >= Negated(key)(r[j]);
    }
  }

  /** Sorting a sequence that is already ordered leaves it as it is. */
  lemma {:induction false} SortDescendingOfSorted<T>(s: seq<T>, key: T -> real)
    requires NonIncreasing(s, key)
    ensures SortDescending(s, key) == s
    decreases |s|
  {
    if s != [] {
      SortDescendingOfSorted(s[1..], key);
      assert s == [s[0]] + s[1..];
    }
  }

  /** The head of a sequence sorted largest first has the largest key. */
  lemma HeadIsMaximal<T>(s: seq<T>, r: seq<T>, key: T -> real)
    requires IsStableSortDescending(s, r, key) && s != []
    ensures r != [] && forall x :: x in s ==> key(x) <= key(r[0])
  {
    assert |r| == |multiset(r)| == |multiset(s)| == |s|;
    forall x | x in s ensures key(x) <= key(r[0]) {
      assert x in multiset(s);
      assert x in multiset(r);
      var j :| 0 <= j < |r| && r[j] == x;
      assert j == 0 || key(r[0]) >= key(r[j]);
    }
  }

  lemma TailSorted<T>(r: seq<T>, key: T -> real)
    requires NonIncreasing(r, key) && r != []
    ensures NonIncreasing(r[1..], key)
  {
    forall i, j | 0 <= i < j < |r[1..]| ensures key(r[1..][i]) >= key(r[1..][j]) {
      assert r[1..][i] == r[i + 1] && r[1..][j] == r[j + 1];
    }
  }

  lemma HeadAbove<T>(r: seq<T>, x: T, key: T -> real)
    requires NonIncreasing(r, key) && x in multiset(r)
    ensures r != [] && key(x) <= key(r[0])
  {
    var j :| 0 <= j < |r| && r[j] == x;
    assert j == 0 || key(r[0]) >= key(r[j]);
  }

  /** The stable sort is unique: ordering and per-key order determine the result. */
  lemma StableSortUnique<T>(s: seq<T>, r1: seq<T>, r2: seq<T>, key: T -> real)
    requires IsStableSortDescending(s, r1, key) && IsStableSortDescending(s, r2, key)
    ensures r1 == r2
  {
    SameOrderUnique(r1, r2, key);
  }

  lemma {:induction false} SameOrderUnique<T>(r1: seq<T>, r2: seq<T>, key: T -> real)
    requires NonIncreasing(r1, key) && NonIncreasing(r2, key)
    requires multiset(r1) == multiset(r2)
    requires forall k :: WithKey(r1, key, k) == WithKey(r2, key, k)
    ensures r1 == r2
    decreases |r1|
  {
    assert |r1| == |multiset(r1)| == |multiset(r2)| == |r2|;
    if r1 != [] {
      HeadAbove(r2, r1[0], key);
      HeadAbove(r1, r2[0], key);
      var k := key(r1[0]);
      assert WithKey(r1, key, k)[0] == r1[0];
      assert key(r2[0]) == k;
      assert WithKey(r2, key, k)[0] == r2[0];
      assert WithKey(r1, key, k) == WithKey(r2, key, k);
      var h := r1[0];
      assert r2[0] == h;
      assert r1 == [h] + r1[1..] && r2 == [h] + r2[1..];
      MultisetTail(r1, r2);
      forall k' ensures WithKey(r1[1..], key, k') == WithKey(r2[1..], key, k') {
        var p := if key(h) == k' then [h] else [];
        var a, b := WithKey(r1[1..], key, k'), WithKey(r2[1..], key, k');
        assert WithKey(r1, key, k') == WithKey(r2, key, k');
        assert WithKey(r1, key, k') == p + a;
        assert WithKey(r2, key, k') == p + b;
        assert (p + a)[|p|..] == a && (p + b)[|p|..] == b;
      }
      TailSorted(r1, key);
      TailSorted(r2, key);
      SameOrderUnique(r1[1..], r2[1..], key);
    }
  }

  lemma MultisetTail<T>(r1: seq<T>, r2: seq<T>)
    requires r1 != [] && r2 != [] && r1[0] == r2[0] && multiset(r1) == multiset(r2)
    ensures multiset(r1[1..]) == multiset(r2[1..])
  {
    assert r1 == [r1[0]] + r1[1..] && r2 == [r2[0]] + r2[1..];
    assert multiset(r1) == multiset{r1[0]} + multiset(r1[1..]);
    assert multiset(r2) == multiset{r2[0]} + multiset(r2[1..]);
    assert multiset(r1[1..]) == multiset(r1) - multiset{r1[0]};
  }

  /** `p` is a prefix of `s`. */
  ghost predicate IsPrefix<T>(p: seq<T>, s: seq<T>) {
    |p| <= |s| && s[..|p|] == p
  }

  /**
   * `u` is what a stable descending sort of `s` puts first: it is ordered,
   * drawn from `s`, nothing left out ranks above anything taken, and elements
   * with equal keys come in the order they have in `s`.
   */
  ghost predicate IsTopOfStableSort<T>(s: seq<T>, u: seq<T>, key: T -> real) {
    && NonIncreasing(u, key)
    && multiset(u) <= multiset(s)
    && (forall x, y :: x in multiset(s) - multiset(u) && y in u ==> key(x) <= key(y))
    && forall k :: IsPrefix(WithKey(u, key, k), WithKey(s, key, k))
  }

  /** Cutting a stable sort to its first `n` elements keeps the top `n`. */
  lemma PrefixOfStableSort<T>(s: seq<T>, r: seq<T>, key: T -> real, n: nat)
    requires IsStableSortDescending(s, r, key) && n <= |r|
    ensures IsTopOfStableSort(s, r[..n], key)
  {
    assert r == r[..n] + r[n..];
    PrefixSorted(r, key, n);
    PrefixRanksAbove(r, key, n);
    forall k ensures IsPrefix(WithKey(r[..n], key, k), WithKey(s, key, k)) {
      PrefixKeyOrder(r, key, k, n);
    }
  }

  lemma PrefixSorted<T>(r: seq<T>, key: T -> real, n: nat)
    requires NonIncreasing(r, key) && n <= |r|
    ensures NonIncreasing(r[..n], key)
  {
    forall i, j | 0 <= i < j < n ensures key(r[..n][i]) >= key(r[..n][j]) {
      assert r[..n][i] == r[i] && r[..n][j] == r[j];
    }
  }

  /** What a sorted sequence keeps in its first `n` ranks at least as high as what it leaves. */
  lemma PrefixRanksAbove<T>(r: seq<T>, key: T -> real, n: nat)
    requires NonIncreasing(r, key) && n <= |r|
    ensures multiset(r[..n]) <= multiset(r)
    ensures forall x, y :: x in multiset(r) - multiset(r[..n]) && y in r[..n] ==> key(x) <= key(y)
  {
    var u, rest := r[..n], r[n..];
    assert r == u + rest;
    assert multiset(r) == multiset(u) + multiset(rest);
    forall x, y | x in multiset(r) - multiset(u) && y in u ensures key(x) <= key(y) {
      assert x in multiset(rest);
      var j :| 0 <= j < |rest| && rest[j] == x;
      var i :| 0 <= i < |u| && u[i] == y;
      assert r[i] == y && r[n + j] == x;
    }
  }

  lemma PrefixKeyOrder<T>(r: seq<T>, key: T -> real, k: real, n: nat)
    requires n <= |r|
    ensures IsPrefix(WithKey(r[..n], key, k), WithKey(r, key, k))
  {
    assert r == r[..n] + r[n..];
    WithKeyConcat(r[..n], r[n..], key, k);
    var a, b := WithKey(r[..n], key, k), WithKey(r[n..], key, k);
    assert (a + b)[..|a|] == a;
  }

  /** Ordered smallest first is ordered largest first under the negated key. */
  lemma NonDecreasingNegated<T>(s: seq<T>, key: T -> real)
    ensures NonDecreasing(s, key) <==> NonIncreasing(s, Negated(key))
  {
    if NonDecreasing(s, key) {
      forall i, j | 0 <= i < j < |s| ensures Negated(key)(s[i]) >= Negated(key)(s[j]) {
        assert key(s[i]) <= key(s[j]);
      }
    }
    if NonIncreasing(s, Negated(key)) {
      forall i, j | 0 <= i < j < |s| ensures key(s[i]) <= key(s[j]) {
        assert Negated(key)(s[i]) >= Negated(key)(s[j]);
      }
    }
  }
}
