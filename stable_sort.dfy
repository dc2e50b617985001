/**
 * Python's `list.sort(key=...)` on an integer key. The sort is stable, so its
 * result is fully determined: ordered by key, and for every key value the
 * elements carrying it keep their input order. `SortBy` is an insertion sort
 * with these properties, and `StableSortIsUnique` shows that any ordering with
 * them is `SortBy`'s.
 */
module StableSort {

  ghost predicate SortedBy<T>(s: seq<T>, key: T -> int) {
    forall i, j :: 0 <= i < j < |s| ==> key(s[i]) <= key(s[j])
  }

  /** The elements of `s` whose key is `d`, in their order in `s`. */
  function WithKey<T>(s: seq<T>, key: T -> int, d: int): (r: seq<T>)
    ensures |r| <= |s|
  {
    if |s| == 0 then []
    else WithKey(s[..|s| - 1], key, d) + (if key(s[|s| - 1]) == d then [s[|s| - 1]] else [])
  }

  /** Places `x` after every element of `s` whose key is at most `x`'s. */
  function Insert<T>(s: seq<T>, x: T, key: T -> int): (r: seq<T>)
    ensures |r| == |s| + 1
    ensures multiset(r) == multiset(s) + multiset{x}
    ensures r[|r| - 1] == x || (|s| > 0 && r[|r| - 1] == s[|s| - 1])
    ensures SortedBy(s, key) ==> SortedBy(r, key)
  {
    if |s| == 0 || key(s[|s| - 1]) <= key(x) then s + [x]
    else
      var init := s[..|s| - 1];
      assert s == init + [s[|s| - 1]];
      Insert(init, x, key) + [s[|s| - 1]]
  }

  /** The stable sort of `s` by `key`. */
  function SortBy<T>(s: seq<T>, key: T -> int): (r: seq<T>)
    ensures |r| == |s|
    ensures multiset(r) == multiset(s)
    ensures SortedBy(r, key)
  {
    if |s| == 0 then []
    else
      assert s == s[..|s| - 1] + [s[|s| - 1]];
      Insert(SortBy(s[..|s| - 1], key), s[|s| - 1], key)
  }

  lemma WithKeyAppend<T>(s: seq<T>, x: T, key: T -> int, d: int)
    ensures WithKey(s + [x], key, d) == WithKey(s, key, d) + (if key(x) == d then [x] else [])
  {
    assert (s + [x])[..|s|] == s;
  }

  lemma {:induction false} InsertWithKey<T>(s: seq<T>, x: T, key: T -> int, d: int)
    requires SortedBy(s, key)
    ensures WithKey(Insert(s, x, key), key, d) == WithKey(s, key, d) + (if key(x) == d then [x] else [])
  {
    if |s| == 0 || key(s[|s| - 1]) <= key(x) {
      WithKeyAppend(s, x, key, d);
    } else {
      var init, last := s[..|s| - 1], s[|s| - 1];
      assert s == init + [last];
      InsertWithKey(init, x, key, d);
      WithKeyAppend(Insert(init, x, key), last, key, d);
      WithKeyAppend(init, last, key, d);
    }
  }

  /** Stability: for every key value, the elements carrying it keep their input order. */
  lemma {:induction false} SortByStable<T>(s: seq<T>, key: T -> int, d: int)
    ensures WithKey(SortBy(s, key), key, d) == WithKey(s, key, d)
  {
    if |s| > 0 {
      var init, last := s[..|s| - 1], s[|s| - 1];
      assert s == init + [last];
      SortByStable(init, key, d);
      InsertWithKey(SortBy(init, key), last, key, d);
      WithKeyAppend(init, last, key, d);
    }
  }

  /** An element of `WithKey(s, key, d)` is an element of `s` with key `d`. */
  lemma {:induction false} WithKeyMember<T>(s: seq<T>, key: T -> int, d: int, x: T)
    requires x in WithKey(s, key, d)
    ensures x in s && key(x) == d
  {
    if x != s[|s| - 1] || key(x) != d {
      WithKeyMember(s[..|s| - 1], key, d, x);
    }
  }

  /** In a sequence sorted by key, every element's key is at most the last one's. */
  lemma LastIsLargest<T>(s: seq<T>, key: T -> int, x: T)
    requires SortedBy(s, key) && x in s
    ensures key(x) <= key(s[|s| - 1])
  {
    var j :| 0 <= j < |s| && s[j] == x;
    if j < |s| - 1 {
      assert key(s[j]) <= key(s[|s| - 1]);
    }
  }

  /** Orderings that are sorted and agree key by key have the same length and the same last element. */
  lemma LastsAgree<T>(r1: seq<T>, r2: seq<T>, key: T -> int)
    requires SortedBy(r1, key) && SortedBy(r2, key)
    requires forall d :: WithKey(r1, key, d) == WithKey(r2, key, d)
    requires |r1| > 0
    ensures |r2| > 0 && r1[|r1| - 1] == r2[|r2| - 1]
  {
    var x1 := r1[|r1| - 1];
    assert x1 in WithKey(r1, key, key(x1));
    assert x1 in WithKey(r2, key, key(x1));
    WithKeyMember(r2, key, key(x1), x1);
    var x2 := r2[|r2| - 1];
    assert x2 in WithKey(r2, key, key(x2));
    assert x2 in WithKey(r1, key, key(x2));
    WithKeyMember(r1, key, key(x2), x2);
    LastIsLargest(r2, key, x1);
    LastIsLargest(r1, key, x2);
    var k := key(x1);
    var w1, w2 := WithKey(r1, key, k), WithKey(r2, key, k);
    assert w1 == w2;
    assert w1[|w1| - 1] == x1;
    assert w2[|w2| - 1] == x2;
  }

  /** Removing the same last element from two orderings that agree on key `d` keeps them in agreement. */
  lemma InitsAgree<T>(r1: seq<T>, r2: seq<T>, key: T -> int, d: int)
    requires |r1| > 0 && |r2| > 0 && r1[|r1| - 1] == r2[|r2| - 1]
    requires WithKey(r1, key, d) == WithKey(r2, key, d)
    ensures WithKey(r1[..|r1| - 1], key, d) == WithKey(r2[..|r2| - 1], key, d)
  {
    var x := r1[|r1| - 1];
    var a, b := WithKey(r1[..|r1| - 1], key, d), WithKey(r2[..|r2| - 1], key, d);
    var tail := if key(x) == d then [x] else [];
    assert a + tail == b + tail;
    assert (a + tail)[..|a|] == a;
    assert (b + tail)[..|b|] == b;
  }

  /** Two orderings that are both sorted by key and agree key by key are the same ordering. */
  lemma {:induction false} StableSortIsUnique<T>(r1: seq<T>, r2: seq<T>, key: T -> int)
    requires SortedBy(r1, key) && SortedBy(r2, key)
    requires forall d :: WithKey(r1, key, d) == WithKey(r2, key, d)
    ensures r1 == r2
  {
    if |r1| == 0 {
      if |r2| > 0 {
        LastsAgree(r2, r1, key);
      }
    } else {
      LastsAgree(r1, r2, key);
      var init1, init2 := r1[..|r1| - 1], r2[..|r2| - 1];
      forall d
        ensures WithKey(init1, key, d) == WithKey(init2, key, d)
      {
        InitsAgree(r1, r2, key, d);
      }
      StableSortIsUnique(init1, init2, key);
      assert r1 == init1 + [r1[|r1| - 1]];
      assert r2 == init2 + [r2[|r2| - 1]];
    }
  }

  /** Any sorted, key-by-key order-preserving rearrangement of `s` is `SortBy(s, key)`. */
  lemma SortByIsTheStableSort<T>(s: seq<T>, r: seq<T>, key: T -> int)
    requires SortedBy(r, key)
    requires forall d :: WithKey(r, key, d) == WithKey(s, key, d)
    ensures r == SortBy(s, key)
  {
    forall d
      ensures WithKey(r, key, d) == WithKey(SortBy(s, key), key, d)
    {
      SortByStable(s, key, d);
    }
    StableSortIsUnique(r, SortBy(s, key), key);
  }
}
