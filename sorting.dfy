/**
 * Python's `list.sort(key=...)` and `sorted(..., key=...)` for integer keys:
 * a stable sort. Insertion sort is used as the reference; a stable sort's
 * output is determined by its input, so this is the same list Python's sort
 * produces. `reverse=True` is the same stable sort on the negated key.
 */
module Sorting {
  import opened Wrappers

  predicate SortedBy<T>(s: seq<T>, key: T -> int)
  {
    forall i, j :: 0 <= i < j < |s| ==> key(s[i]) <= key(s[j])
  }

  /** The elements of `s` whose key is `k`, in their order in `s`. */
  function WithKey<T>(s: seq<T>, key: T -> int, k: int): (r: seq<T>)
    ensures |r| <= |s|
  {
    if s == [] then []
    else (if key(s[0]) == k then [s[0]] else []) + WithKey(s[1..], key, k)
  }

  /** Insert `x` before the first element whose key is not smaller. */
  function Insert<T>(x: T, s: seq<T>, key: T -> int): (r: seq<T>)
    ensures |r| == |s| + 1
    ensures multiset(r) == multiset(s) + multiset{x}
  {
    if s == [] then [x]
    else if key(x) <= key(s[0]) then [x] + s
    else
      assert s == [s[0]] + s[1..];
      [s[0]] + Insert(x, s[1..], key)
  }

  /** The stable sort of `s` by `key`. */
  function SortBy<T>(s: seq<T>, key: T -> int): (r: seq<T>)
    ensures |r| == |s|
    ensures multiset(r) == multiset(s)
  {
    if s == [] then []
    else
      assert s == [s[0]] + s[1..];
      Insert(s[0], SortBy(s[1..], key), key)
  }

  lemma {:induction false} InsertSorted<T>(x: T, s: seq<T>, key: T -> int)
    requires SortedBy(s, key)
    ensures SortedBy(Insert(x, s, key), key)
    decreases |s|
  {
    if s != [] && key(x) > key(s[0]) {
      InsertSorted(x, s[1..], key);
      var r := Insert(x, s[1..], key);
      forall k | 0 <= k < |r| ensures key(s[0]) <= key(r[k]) {
        assert r[k] in multiset(r);
        if r[k] != x {
          assert r[k] in multiset(s[1..]);
          var m :| 0 <= m < |s[1..]| && s[1..][m] == r[k];
          assert s[m + 1] == r[k];
        }
      }
    }
  }

  /** The sort's output is in ascending key order. */
  lemma {:induction false} SortBySorted<T>(s: seq<T>, key: T -> int)
    ensures SortedBy(SortBy(s, key), key)
    decreases |s|
  {
    if s != [] {
      SortBySorted(s[1..], key);
      InsertSorted(s[0], SortBy(s[1..], key), key);
    }
  }

  lemma {:induction false} WithKeyAppend<T>(a: seq<T>, b: seq<T>, key: T -> int, k: int)
    ensures WithKey(a + b, key, k) == WithKey(a, key, k) + WithKey(b, key, k)
    decreases |a|
  {
    if a == [] {
      assert a + b == b;
    } else {
      var c := a + b;
      assert c[0] == a[0] && c[1..] == a[1..] + b;
      var head: seq<T> := if key(a[0]) == k then [a[0]] else [];
      WithKeyAppend(a[1..], b, key, k);
      calc {
        WithKey(c, key, k);
        head + WithKey(a[1..] + b, key, k);
        head + (WithKey(a[1..], key, k) + WithKey(b, key, k));
        (head + WithKey(a[1..], key, k)) + WithKey(b, key, k);
      }
    }
  }

  /** The elements with key `k` of `[h] + t`. */
  lemma WithKeyCons<T>(h: T, t: seq<T>, key: T -> int, k: int)
    ensures WithKey([h] + t, key, k) == (if key(h) == k then [h] else []) + WithKey(t, key, k)
  {
    var c := [h] + t;
    assert c[0] == h && c[1..] == t;
  }

  lemma {:induction false} InsertWithKey<T>(x: T, s: seq<T>, key: T -> int, k: int)
    ensures WithKey(Insert(x, s, key), key, k)
         == (if key(x) == k then [x] else []) + WithKey(s, key, k)
    decreases |s|
  {
    if s == [] {
      assert Insert(x, s, key) == [x] + s;
      WithKeyCons(x, s, key, k);
    } else if key(x) <= key(s[0]) {
      assert Insert(x, s, key) == [x] + s;
      WithKeyCons(x, s, key, k);
    } else {
      InsertWithKey(x, s[1..], key, k);
      InsertWithKeyStep(x, s, key, k);
    }
  }

  /** The step of `InsertWithKey` where `x` goes after the head of `s`. */
  lemma InsertWithKeyStep<T>(x: T, s: seq<T>, key: T -> int, k: int)
    requires s != [] && key(x) > key(s[0])
    requires WithKey(Insert(x, s[1..], key), key, k) == (if key(x) == k then [x] else []) + WithKey(s[1..], key, k)
    ensures WithKey(Insert(x, s, key), key, k) == (if key(x) == k then [x] else []) + WithKey(s, key, k)
  {
    var r := Insert(x, s[1..], key);
    var rest := WithKey(s[1..], key, k);
    assert Insert(x, s, key) == [s[0]] + r;
    WithKeyCons(s[0], r, key, k);
    assert s == [s[0]] + s[1..];
    WithKeyCons(s[0], s[1..], key, k);
    if key(x) == k {
      // s[0] has a smaller key than x, so it does not carry key k
      assert WithKey(r, key, k) == [x] + rest;
      assert WithKey(Insert(x, s, key), key, k) == [] + ([x] + rest);
      assert WithKey(s, key, k) == [] + rest;
      assert [] + ([x] + rest) == [x] + rest && [] + rest == rest;
    } else {
      var h0: seq<T> := if key(s[0]) == k then [s[0]] else [];
      assert WithKey(r, key, k) == [] + rest;
      assert [] + rest == rest;
      assert WithKey(Insert(x, s, key), key, k) == h0 + rest;
      assert WithKey(s, key, k) == h0 + rest;
      assert [] + (h0 + rest) == h0 + rest;
    }
  }

  /**
   * Stability: for every key, the elements carrying that key appear in the
   * output in the same order as in the input.
   */
  lemma {:induction false} SortByStable<T>(s: seq<T>, key: T -> int, k: int)
    ensures WithKey(SortBy(s, key), key, k) == WithKey(s, key, k)
    decreases |s|
  {
    if s != [] {
      SortBySorted(s[1..], key);
      SortByStable(s[1..], key, k);
      InsertWithKey(s[0], SortBy(s[1..], key), key, k);
    }
  }

  ghost predicate NoDuplicates<T>(s: seq<T>)
  {
    forall i, j :: 0 <= i < j < |s| ==> s[i] != s[j]
  }

  lemma {:induction false} NoDuplicatesCount<T>(s: seq<T>, v: T)
    requires NoDuplicates(s)
    ensures multiset(s)[v] <= 1
    decreases |s|
  {
    if s != [] {
      var p := s[..|s| - 1];
      assert s == p + [s[|s| - 1]];
      NoDuplicatesCount(p, v);
      if v == s[|s| - 1] {
        assert v !in p;
      }
    }
  }

  /** A permutation of a list without repeated elements has none either. */
  lemma PermutationNoDuplicates<T>(s: seq<T>, t: seq<T>)
    requires multiset(s) == multiset(t) && NoDuplicates(s)
    ensures NoDuplicates(t)
  {
    forall i, j | 0 <= i < j < |t| ensures t[i] != t[j] {
      if t[i] == t[j] {
        assert t == t[..i] + [t[i]] + t[i + 1..j] + [t[j]] + t[j + 1..];
        assert multiset(t)[t[i]] >= 2;
        NoDuplicatesCount(s, t[i]);
      }
    }
  }

  /** The key that makes an ascending stable sort a descending one (`reverse=True`, or a comparator `b - a`). */
  function Negate<T>(key: T -> int): T -> int
  {
    x => -key(x)
  }

  /** Sorted by the negated key is non-increasing in the key. */
  lemma SortedByNegate<T>(s: seq<T>, key: T -> int)
    requires SortedBy(s, Negate(key))
    ensures forall i, j :: 0 <= i < j < |s| ==> key(s[i]) >= key(s[j])
  {
    forall i, j | 0 <= i < j < |s| ensures key(s[i]) >= key(s[j]) {
      assert Negate(key)(s[i]) <= Negate(key)(s[j]);
    }
  }

  /** The elements satisfying `p`, in order. */
  function Filter<T>(s: seq<T>, p: T -> bool): (r: seq<T>)
    ensures |r| <= |s|
    ensures forall x :: x in r ==> x in s && p(x)
  {
    if s == [] then [] else (if p(s[0]) then [s[0]] else []) + Filter(s[1..], p)
  }

  lemma {:induction false} FilterAppend<T>(a: seq<T>, b: seq<T>, p: T -> bool)
    ensures Filter(a + b, p) == Filter(a, p) + Filter(b, p)
    decreases |a|
  {
    if a == [] {
      assert a + b == b;
    } else {
      assert (a + b)[0] == a[0];
      assert (a + b)[1..] == a[1..] + b;
      FilterAppend(a[1..], b, p);
    }
  }

  /** Every element satisfying `p` is kept. */
  lemma {:induction false} FilterKeeps<T>(s: seq<T>, p: T -> bool, i: int)
    requires 0 <= i < |s| && p(s[i])
    ensures s[i] in Filter(s, p)
    decreases |s|
  {
    if i > 0 {
      FilterKeeps(s[1..], p, i - 1);
    }
  }

  /** The values of the elements `f` accepts, in order (a loop that appends what parses). */
  function Collect<A, B>(s: seq<A>, f: A -> Option<B>): seq<B>
    decreases |s|
  {
    if s == [] then []
    else Collect(s[..|s| - 1], f) + (if f(s[|s| - 1]).Some? then [f(s[|s| - 1]).value] else [])
  }

  /** One more element: its value is appended when `f` accepts it. */
  lemma CollectPrefix<A, B>(s: seq<A>, f: A -> Option<B>, i: int)
    requires 0 <= i < |s|
    ensures Collect(s[..i + 1], f) == Collect(s[..i], f) + (if f(s[i]).Some? then [f(s[i]).value] else [])
  {
    assert s[..i + 1][..i] == s[..i];
  }

  /** A value is collected exactly when some element is accepted with it. */
  lemma {:induction false} CollectFrom<A, B>(s: seq<A>, f: A -> Option<B>, y: B)
    ensures y in Collect(s, f) <==> exists i :: 0 <= i < |s| && f(s[i]) == Some(y)
    decreases |s|
  {
    if s != [] {
      var p := s[..|s| - 1];
      CollectFrom(p, f, y);
      assert forall i :: 0 <= i < |p| ==> p[i] == s[i];
      if exists i :: 0 <= i < |s| && f(s[i]) == Some(y) {
        var i :| 0 <= i < |s| && f(s[i]) == Some(y);
        if i < |p| {
          assert f(p[i]) == Some(y);
        }
      }
    }
  }

  lemma MultisetRemove<T>(t: seq<T>, i: int)
    requires 0 <= i < |t|
    ensures multiset(t) == multiset(t[..i] + t[i + 1..]) + multiset{t[i]}
  {
    assert t == t[..i] + [t[i]] + t[i + 1..];
  }

  /** The head of `s` sits somewhere in a rearrangement `t`; the rest of `s` rearranges what `t` keeps without it. */
  lemma HeadIn<T>(s: seq<T>, t: seq<T>) returns (i: int)
    requires s != [] && multiset(s) == multiset(t)
    ensures 0 <= i < |t| && t[i] == s[0]
    ensures multiset(s[1..]) == multiset(t[..i] + t[i + 1..])
  {
    assert s[0] in multiset(t);
    i :| 0 <= i < |t| && t[i] == s[0];
    MultisetRemove(t, i);
    assert s == [s[0]] + s[1..];
    Cancel(multiset(s[1..]), multiset(t[..i] + t[i + 1..]), s[0]);
  }

  lemma Cancel<T>(a: multiset<T>, b: multiset<T>, x: T)
    requires a + multiset{x} == b + multiset{x}
    ensures a == b
  {
    assert a == (a + multiset{x}) - multiset{x};
    assert b == (b + multiset{x}) - multiset{x};
  }

  lemma FilterRemove<T>(t: seq<T>, i: int, p: T -> bool)
    requires 0 <= i < |t|
    ensures multiset(Filter(t, p)) == multiset(Filter(t[..i] + t[i + 1..], p)) + multiset(Filter([t[i]], p))
  {
    var a, x, b := t[..i], t[i], t[i + 1..];
    assert t == a + ([x] + b);
    FilterAppend(a, [x] + b, p);
    FilterAppend([x], b, p);
    FilterAppend(a, b, p);
    var fa, fx, fb := Filter(a, p), Filter([x], p), Filter(b, p);
    assert Filter(t, p) == fa + (fx + fb);
    assert Filter(a + b, p) == fa + fb;
    MiddleOut(fa, fx, fb);
  }

  /** Taking the middle out of a sequence takes its elements out of the multiset. */
  lemma MiddleOut<T>(a: seq<T>, x: seq<T>, b: seq<T>)
    ensures multiset(a + (x + b)) == multiset(a + b) + multiset(x)
  {
    calc {
      multiset(a + (x + b));
      multiset(a) + (multiset(x) + multiset(b));
      (multiset(a) + multiset(b)) + multiset(x);
      multiset(a + b) + multiset(x);
    }
  }

  /** Filtering two arrangements of the same elements keeps the same elements. */
  lemma {:induction false} FilterPermutation<T>(s: seq<T>, t: seq<T>, p: T -> bool)
    requires multiset(s) == multiset(t)
    ensures multiset(Filter(s, p)) == multiset(Filter(t, p))
    decreases |s|
  {
    if s == [] {
      assert |t| == |multiset(t)| == 0;
    } else {
      var x := s[0];
      var i := HeadIn(s, t);
      var rest := t[..i] + t[i + 1..];
      FilterPermutation(s[1..], rest, p);
      FilterAppend([x], s[1..], p);
      FilterRemove(t, i, p);
    }
  }

  /** `f` applied to every element, in order. */
  function Map<A, B>(s: seq<A>, f: A -> B): (r: seq<B>)
    ensures |r| == |s| && forall i :: 0 <= i < |s| ==> r[i] == f(s[i])
  {
    if s == [] then [] else [f(s[0])] + Map(s[1..], f)
  }

  lemma MapAppend<A, B>(a: seq<A>, b: seq<A>, f: A -> B)
    ensures Map(a + b, f) == Map(a, f) + Map(b, f)
  {
  }

  lemma MapPrefix<A, B>(s: seq<A>, i: int, f: A -> B)
    requires 0 <= i < |s|
    ensures Map(s[..i + 1], f) == Map(s[..i], f) + [f(s[i])]
  {
    assert s[..i + 1] == s[..i] + [s[i]];
    MapAppend(s[..i], [s[i]], f);
  }

  lemma MapRemove<A, B>(t: seq<A>, i: int, f: A -> B)
    requires 0 <= i < |t|
    ensures multiset(Map(t, f)) == multiset(Map(t[..i] + t[i + 1..], f)) + multiset{f(t[i])}
  {
    var a, x, b := t[..i], t[i], t[i + 1..];
    assert t == a + ([x] + b);
    MapAppend(a, [x] + b, f);
    MapAppend([x], b, f);
    MapAppend(a, b, f);
    var ma, mx, mb := Map(a, f), Map([x], f), Map(b, f);
    assert mx == [f(x)];
    assert Map(t, f) == ma + (mx + mb);
    assert Map(a + b, f) == ma + mb;
    MiddleOut(ma, mx, mb);
  }

  /** Mapping two arrangements of the same elements gives two arrangements of the same images. */
  lemma {:induction false} MapPermutation<A, B>(s: seq<A>, t: seq<A>, f: A -> B)
    requires multiset(s) == multiset(t)
    ensures multiset(Map(s, f)) == multiset(Map(t, f))
    decreases |s|
  {
    if s == [] {
      assert |t| == |multiset(t)| == 0;
    } else {
      var x := s[0];
      var i := HeadIn(s, t);
      var rest := t[..i] + t[i + 1..];
      MapPermutation(s[1..], rest, f);
      MapAppend([x], s[1..], f);
      MapRemove(t, i, f);
    }
  }

  /** Python's `s[:n]`: a negative bound counts from the end; the result is clamped to `s`. */
  function SliceTo<T>(s: seq<T>, n: int): (r: seq<T>)
    ensures |r| <= |s| && r == s[..|r|]
    ensures 0 <= n ==> |r| == if n < |s| then n else |s|
    ensures n < 0 ==> |r| == if -n < |s| then |s| + n else 0
  {
    if n >= |s| then s
    else if n >= 0 then s[..n]
    else if -n < |s| then s[..|s| + n]
    else []
  }
}
