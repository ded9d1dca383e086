/**
 * Python's `sorted(xs, key=k)` on integer keys: a stable sort. It is written
 * as insertion of the last element after every element whose key is not
 * greater, so that equal keys keep their input order.
 * `sorted(xs, key=k, reverse=True)` also keeps equal keys in input order, so
 * it is `SortBy` with the negated key.
 */
module Sorting {
  predicate SortedBy<T>(s: seq<T>, key: T -> int) {
    forall i, j :: 0 <= i < j < |s| ==> key(s[i]) <= key(s[j])
  }

  /** Insert x in front of the first element whose key is strictly greater. */
  function InsertBy<T>(x: T, s: seq<T>, key: T -> int): seq<T> {
    if s == [] then [x]
    else if key(x) < key(s[0]) then [x] + s
    else [s[0]] + InsertBy(x, s[1..], key)
  }

  function SortBy<T>(s: seq<T>, key: T -> int): seq<T>
    decreases |s|
  {
    if s == [] then [] else InsertBy(s[|s| - 1], SortBy(s[..|s| - 1], key), key)
  }

  /** The elements of s whose key is k, in their order in s. */
  function WithKey<T>(s: seq<T>, key: T -> int, k: int): seq<T>
    decreases |s|
  {
    if s == [] then []
    else WithKey(s[..|s| - 1], key, k) + (if key(s[|s| - 1]) == k then [s[|s| - 1]] else [])
  }

  lemma {:induction false} WithKeyAppend<T>(a: seq<T>, b: seq<T>, key: T -> int, k: int)
    ensures WithKey(a + b, key, k) == WithKey(a, key, k) + WithKey(b, key, k)
    decreases |b|
  {
    if b == [] {
      assert a + b == a;
    } else {
      var b' := b[..|b| - 1];
      assert (a + b)[..|a + b| - 1] == a + b';
      assert (a + b)[|a + b| - 1] == b[|b| - 1];
      WithKeyAppend(a, b', key, k);
    }
  }

  lemma WithKeySingleton<T>(x: T, key: T -> int, k: int)
    ensures WithKey([x], key, k) == if key(x) == k then [x] else []
  {
    assert [x][..0] == [];
  }

  lemma {:induction false} InsertByMultiset<T>(x: T, s: seq<T>, key: T -> int)
    ensures multiset(InsertBy(x, s, key)) == multiset(s) + multiset{x}
    decreases |s|
  {
    if s != [] && key(s[0]) <= key(x) {
      InsertByMultiset(x, s[1..], key);
      assert s == [s[0]] + s[1..];
    }
  }

  /** Inserting keeps every key at or above a bound that x and all of s respect. */
  lemma {:induction false} InsertByAbove<T>(x: T, s: seq<T>, key: T -> int, lo: int)
    requires key(x) >= lo
    requires forall i :: 0 <= i < |s| ==> key(s[i]) >= lo
    ensures forall i :: 0 <= i < |InsertBy(x, s, key)| ==> key(InsertBy(x, s, key)[i]) >= lo
    decreases |s|
  {
    if s != [] && key(s[0]) <= key(x) {
      InsertByAbove(x, s[1..], key, lo);
    }
  }

  lemma {:induction false} InsertBySorted<T>(x: T, s: seq<T>, key: T -> int)
    requires SortedBy(s, key)
    ensures SortedBy(InsertBy(x, s, key), key)
    decreases |s|
  {
    if s == [] {
    } else if key(x) < key(s[0]) {
      var q := [x] + s;
      forall i, j | 0 <= i < j < |q| ensures key(q[i]) <= key(q[j]) {
        assert q[j] == s[j - 1];
        if i > 0 {
          assert q[i] == s[i - 1];
        } else {
          assert key(s[0]) <= key(s[j - 1]);
        }
      }
    } else {
      var t := s[1..];
      assert SortedBy(t, key) by {
        forall i, j | 0 <= i < j < |t| ensures key(t[i]) <= key(t[j]) {
          assert t[i] == s[i + 1] && t[j] == s[j + 1];
        }
      }
      InsertBySorted(x, t, key);
      var r := InsertBy(x, t, key);
      assert forall i :: 0 <= i < |t| ==> key(t[i]) >= key(s[0]) by {
        forall i | 0 <= i < |t| ensures key(t[i]) >= key(s[0]) {
          assert t[i] == s[i + 1];
        }
      }
      InsertByAbove(x, t, key, key(s[0]));
      var q := [s[0]] + r;
      forall i, j | 0 <= i < j < |q| ensures key(q[i]) <= key(q[j]) {
        assert q[j] == r[j - 1];
        if i > 0 {
          assert q[i] == r[i - 1];
        }
      }
    }
  }

  lemma {:induction false} InsertByWithKey<T>(x: T, s: seq<T>, key: T -> int, k: int)
    requires SortedBy(s, key)
    ensures WithKey(InsertBy(x, s, key), key, k) == WithKey(s, key, k) + WithKey([x], key, k)
    decreases |s|
  {
    WithKeySingleton(x, key, k);
    if s == [] {
    } else if key(x) < key(s[0]) {
      assert InsertBy(x, s, key) == [x] + s;
      WithKeyAppend([x], s, key, k);
      if key(x) == k {
        WithKeyNone(s, key, k);
      }
    } else {
      var t := s[1..];
      assert s == [s[0]] + t;
      assert InsertBy(x, s, key) == [s[0]] + InsertBy(x, t, key);
      assert SortedBy(t, key);
      InsertByWithKey(x, t, key, k);
      WithKeyAppend([s[0]], InsertBy(x, t, key), key, k);
      WithKeyAppend([s[0]], t, key, k);
    }
  }

  /** In a sorted sequence whose first key exceeds k, no element has key k. */
  lemma {:induction false} WithKeyNone<T>(s: seq<T>, key: T -> int, k: int)
    requires SortedBy(s, key) && s != [] && k < key(s[0])
    ensures WithKey(s, key, k) == []
    decreases |s|
  {
    if |s| > 1 {
      WithKeyNone(s[..|s| - 1], key, k);
    } else {
      assert s[..0] == [];
    }
  }

  /**
   * `sorted` returns an ascending permutation of its input in which elements
   * with equal keys keep their input order.
   */
  lemma {:induction false} SortByFacts<T>(s: seq<T>, key: T -> int)
    ensures SortedBy(SortBy(s, key), key)
    ensures multiset(SortBy(s, key)) == multiset(s)
    ensures forall k :: WithKey(SortBy(s, key), key, k) == WithKey(s, key, k)
    decreases |s|
  {
    if s != [] {
      var init, last := s[..|s| - 1], s[|s| - 1];
      assert s == init + [last];
      SortByFacts(init, key);
      InsertBySorted(last, SortBy(init, key), key);
      InsertByMultiset(last, SortBy(init, key), key);
      forall k ensures WithKey(SortBy(s, key), key, k) == WithKey(s, key, k) {
        InsertByWithKey(last, SortBy(init, key), key, k);
        WithKeyAppend(init, [last], key, k);
      }
    }
  }

  /** Inserting an element whose key is not below any other's appends it. */
  lemma {:induction false} InsertByLast<T>(x: T, s: seq<T>, key: T -> int)
    requires forall i :: 0 <= i < |s| ==> key(s[i]) <= key(x)
    ensures InsertBy(x, s, key) == s + [x]
    decreases |s|
  {
    if s != [] {
      InsertByLast(x, s[1..], key);
      assert s == [s[0]] + s[1..];
    }
  }

  /** Sorting an already sorted sequence gives it back unchanged. */
  lemma {:induction false} SortBySorted<T>(s: seq<T>, key: T -> int)
    requires SortedBy(s, key)
    ensures SortBy(s, key) == s
    decreases |s|
  {
    if s != [] {
      var init := s[..|s| - 1];
      SortBySorted(init, key);
      InsertByLast(s[|s| - 1], init, key);
      assert init + [s[|s| - 1]] == s;
    }
  }

  /** When every key is the same the sort is the identity. */
  lemma SortByEqualKeys<T>(s: seq<T>, key: T -> int, k: int)
    requires forall i :: 0 <= i < |s| ==> key(s[i]) == k
    ensures SortBy(s, key) == s
  {
    SortBySorted(s, key);
  }
}
