/** A stable sort by an integer key, the behaviour `Array.prototype.sort` guarantees for a
    comparator of the form `key(a) - key(b)`. It is written as insertion from the back:
    each element is placed after every earlier element whose key is not larger. */
module StableSort {

  predicate SortedBy<T>(s: seq<T>, key: T -> int) {
    forall i, j :: 0 <= i < j < |s| ==> key(s[i]) <= key(s[j])
  }

  /** Places `x` behind the last element of `s` whose key is at most `key(x)`. */
  function InsertBy<T>(s: seq<T>, x: T, key: T -> int): (r: seq<T>)
    ensures |r| == |s| + 1
  {
    if s == [] then [x]
    else if key(s[|s| - 1]) <= key(x) then s + [x]
    else InsertBy(s[..|s| - 1], x, key) + [s[|s| - 1]]
  }

  /** Insertion adds `x` and keeps every element of `s`. */
  lemma {:induction false} InsertByPermutes<T>(s: seq<T>, x: T, key: T -> int)
    ensures multiset(InsertBy(s, x, key)) == multiset(s) + multiset{x}
  {
    if s != [] && key(s[|s| - 1]) > key(x) {
      var init, last := s[..|s| - 1], s[|s| - 1];
      assert s == init + [last];
      InsertByPermutes(init, x, key);
    }
  }

  function SortBy<T>(s: seq<T>, key: T -> int): (r: seq<T>)
    ensures |r| == |s|
  {
    if s == [] then []
    else InsertBy(SortBy(s[..|s| - 1], key), s[|s| - 1], key)
  }

  /** Sorting is a permutation. */
  lemma {:induction false} SortByPermutes<T>(s: seq<T>, key: T -> int)
    ensures multiset(SortBy(s, key)) == multiset(s)
  {
    if s != [] {
      var init, last := s[..|s| - 1], s[|s| - 1];
      assert s == init + [last];
      SortByPermutes(init, key);
      InsertByPermutes(SortBy(init, key), last, key);
    }
  }

  /** The elements of `s` whose key is `k`, in their order in `s`. */
  function WithKey<T>(s: seq<T>, key: T -> int, k: int): (r: seq<T>)
    ensures |r| <= |s|
  {
    if s == [] then []
    else WithKey(s[..|s| - 1], key, k) + (if key(s[|s| - 1]) == k then [s[|s| - 1]] else [])
  }

  lemma {:induction false} WithKeyAppend<T>(a: seq<T>, b: seq<T>, key: T -> int, k: int)
    ensures WithKey(a + b, key, k) == WithKey(a, key, k) + WithKey(b, key, k)
  {
    if b != [] {
      var init, last := b[..|b| - 1], b[|b| - 1];
      assert (a + b)[..|a + b| - 1] == a + init;
      WithKeyAppend(a, init, key, k);
    } else {
      assert a + b == a;
    }
  }

  /** Inserting into a sorted sequence keeps it sorted. */
  lemma {:induction false} InsertBySorted<T>(s: seq<T>, x: T, key: T -> int)
    requires SortedBy(s, key)
    ensures SortedBy(InsertBy(s, x, key), key)
  {
    if s != [] && key(s[|s| - 1]) > key(x) {
      var init, last := s[..|s| - 1], s[|s| - 1];
      InsertBySorted(init, x, key);
      InsertByPermutes(init, x, key);
      var r' := InsertBy(init, x, key);
      forall i | 0 <= i < |r'| ensures key(r'[i]) <= key(last) {
        assert r'[i] in multiset(r');
        assert r'[i] in multiset(init) || r'[i] == x;
      }
    }
  }

  /** Sorting yields a sorted permutation. */
  lemma {:induction false} SortBySorted<T>(s: seq<T>, key: T -> int)
    ensures SortedBy(SortBy(s, key), key)
  {
    if s != [] {
      SortBySorted(s[..|s| - 1], key);
      InsertBySorted(SortBy(s[..|s| - 1], key), s[|s| - 1], key);
    }
  }

  lemma WithKeySingleton<T>(y: T, key: T -> int, k: int)
    ensures WithKey([y], key, k) == if key(y) == k then [y] else []
  {
    assert [y][..0] == [];
  }

  /** Insertion puts `x` behind every element with its key. */
  lemma {:induction false} InsertByStable<T>(s: seq<T>, x: T, key: T -> int, k: int)
    ensures WithKey(InsertBy(s, x, key), key, k)
         == WithKey(s, key, k) + (if key(x) == k then [x] else [])
  {
    if s == [] {
      assert InsertBy(s, x, key) == [x];
      WithKeySingleton(x, key, k);
    } else if key(s[|s| - 1]) <= key(x) {
      WithKeyAppend(s, [x], key, k);
      WithKeySingleton(x, key, k);
    } else {
      var init, last := s[..|s| - 1], s[|s| - 1];
      InsertByStable(init, x, key, k);
      WithKeyAppend(InsertBy(init, x, key), [last], key, k);
      WithKeySingleton(last, key, k);
      if key(x) == k {
        assert key(last) != k;
      }
    }
  }

  /** Stability: elements with equal keys keep their relative order. */
  lemma {:induction false} SortByStable<T>(s: seq<T>, key: T -> int, k: int)
    ensures WithKey(SortBy(s, key), key, k) == WithKey(s, key, k)
  {
    if s != [] {
      var init, last := s[..|s| - 1], s[|s| - 1];
      SortByStable(init, key, k);
      InsertByStable(SortBy(init, key), last, key, k);
    }
  }

  /** Where `InsertBy` puts `x`: behind the last element whose key is at most `key(x)`. */
  function InsertionPoint<T>(s: seq<T>, x: T, key: T -> int): (n: nat)
    ensures n <= |s|
  {
    if s == [] then 0
    else if key(s[|s| - 1]) <= key(x) then |s|
    else InsertionPoint(s[..|s| - 1], x, key)
  }

  /** Insertion splits the sequence at the insertion point and keeps the old order. */
  lemma {:induction false} InsertBySplits<T>(s: seq<T>, x: T, key: T -> int)
    ensures InsertBy(s, x, key)
         == s[..InsertionPoint(s, x, key)] + [x] + s[InsertionPoint(s, x, key)..]
  {
    if s == [] {
    } else if key(s[|s| - 1]) <= key(x) {
      assert s[..|s|] == s;
    } else {
      var init, last := s[..|s| - 1], s[|s| - 1];
      var n := InsertionPoint(init, x, key);
      InsertBySplits(init, x, key);
      assert init[..n] == s[..n];
      assert init[n..] + [last] == s[n..];
    }
  }

  /** Every element behind the insertion point has a larger key than `x`. */
  lemma {:induction false} InsertionPointBehind<T>(s: seq<T>, x: T, key: T -> int)
    ensures forall i :: InsertionPoint(s, x, key) <= i < |s| ==> key(x) < key(s[i])
  {
    if s != [] && key(s[|s| - 1]) > key(x) {
      InsertionPointBehind(s[..|s| - 1], x, key);
    }
  }

  /** In a sorted sequence every element in front of the insertion point has a key up to
      `key(x)`, so `x` lands behind all equal keys. */
  lemma {:induction false} InsertionPointInFront<T>(s: seq<T>, x: T, key: T -> int)
    requires SortedBy(s, key)
    ensures forall i :: 0 <= i < InsertionPoint(s, x, key) ==> key(s[i]) <= key(x)
  {
    if s != [] && key(s[|s| - 1]) > key(x) {
      var init := s[..|s| - 1];
      assert SortedBy(init, key);
      InsertionPointInFront(init, x, key);
    }
  }

  /** A sorted sequence is its own stable sort. */
  lemma {:induction false} SortBySortedIdentity<T>(s: seq<T>, key: T -> int)
    requires SortedBy(s, key)
    ensures SortBy(s, key) == s
  {
    if s != [] {
      var init, last := s[..|s| - 1], s[|s| - 1];
      assert SortedBy(init, key);
      SortBySortedIdentity(init, key);
      assert s == init + [last];
    }
  }
}
