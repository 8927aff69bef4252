/** Python's `sorted(s, key=key, reverse=True)`: a stable sort into
    non-increasing key order. Stable means that elements with equal keys keep
    their input order, which Python guarantees even with `reverse=True`. */
module Sorting {

  predicate SortedDesc<T>(s: seq<T>, key: T -> real)
  {
    forall i, j :: 0 <= i < j < |s| ==> key(s[i]) >= key(s[j])
  }

  /** Inserts `x` after every leading element whose key is at least `key(x)`. */
  function InsertDesc<T>(s: seq<T>, x: T, key: T -> real): (r: seq<T>)
    ensures |r| == |s| + 1
    decreases |s|
  {
    if s == [] then [x]
    else if key(s[0]) >= key(x) then [s[0]] + InsertDesc(s[1..], x, key)
    else [x] + s
  }

  /** Insertion sort taking the input from left to right. */
  function SortDesc<T>(s: seq<T>, key: T -> real): (r: seq<T>)
    ensures |r| == |s|
    decreases |s|
  {
    if s == [] then [] else InsertDesc(SortDesc(s[..|s| - 1], key), s[|s| - 1], key)
  }

  /** The elements of `s` whose key is `k`, in their order in `s`. */
  function WithKey<T>(s: seq<T>, key: T -> real, k: real): seq<T>
    decreases |s|
  {
    if s == [] then []
    else WithKey(s[..|s| - 1], key, k) + (if key(s[|s| - 1]) == k then [s[|s| - 1]] else [])
  }

  lemma {:induction false} InsertDescPerm<T>(s: seq<T>, x: T, key: T -> real)
    ensures multiset(InsertDesc(s, x, key)) == multiset(s) + multiset{x}
    decreases |s|
  {
    if s != [] && key(s[0]) >= key(x) {
      InsertDescPerm(s[1..], x, key);
      assert s == [s[0]] + s[1..];
    }
  }

  /** Inserting keeps every key under a common bound. */
  lemma {:induction false} InsertDescBounded<T>(s: seq<T>, x: T, key: T -> real, b: real)
    requires key(x) <= b && forall i :: 0 <= i < |s| ==> key(s[i]) <= b
    ensures forall j :: 0 <= j < |InsertDesc(s, x, key)| ==> key(InsertDesc(s, x, key)[j]) <= b
    decreases |s|
  {
    if s != [] && key(s[0]) >= key(x) {
      InsertDescBounded(s[1..], x, key, b);
      var r := InsertDesc(s, x, key);
      forall j | 0 <= j < |r|
        ensures key(r[j]) <= b
      {
        if j > 0 {
          assert r[j] == InsertDesc(s[1..], x, key)[j - 1];
        }
      }
    }
  }

  lemma {:induction false} InsertDescSorted<T>(s: seq<T>, x: T, key: T -> real)
    requires SortedDesc(s, key)
    ensures SortedDesc(InsertDesc(s, x, key), key)
    decreases |s|
  {
    if s == [] {
    } else if key(s[0]) >= key(x) {
      var t := InsertDesc(s[1..], x, key);
      InsertDescSorted(s[1..], x, key);
      InsertDescBounded(s[1..], x, key, key(s[0]));
      var r := [s[0]] + t;
      forall i, j | 0 <= i < j < |r|
        ensures key(r[i]) >= key(r[j])
      {
        assert r[j] == t[j - 1];
        if i > 0 {
          assert r[i] == t[i - 1];
        }
      }
    } else {
      var r := [x] + s;
      forall i, j | 0 <= i < j < |r|
        ensures key(r[i]) >= key(r[j])
      {
        if i == 0 {
          assert r[j] == s[j - 1];
          assert key(s[0]) >= key(s[j - 1]);
        } else {
          assert r[i] == s[i - 1] && r[j] == s[j - 1];
        }
      }
    }
  }

  lemma {:induction false} SortDescSorted<T>(s: seq<T>, key: T -> real)
    ensures SortedDesc(SortDesc(s, key), key)
    ensures multiset(SortDesc(s, key)) == multiset(s)
    decreases |s|
  {
    if s != [] {
      SortDescSorted(s[..|s| - 1], key);
      InsertDescSorted(SortDesc(s[..|s| - 1], key), s[|s| - 1], key);
      InsertDescPerm(SortDesc(s[..|s| - 1], key), s[|s| - 1], key);
      assert s == s[..|s| - 1] + [s[|s| - 1]];
    }
  }

  lemma {:induction false} WithKeyAppend<T>(a: seq<T>, b: seq<T>, key: T -> real, k: real)
    ensures WithKey(a + b, key, k) == WithKey(a, key, k) + WithKey(b, key, k)
    decreases |b|
  {
    if b != [] {
      WithKeyAppend(a, b[..|b| - 1], key, k);
      assert (a + b)[..|a + b| - 1] == a + b[..|b| - 1];
      assert (a + b)[|a + b| - 1] == b[|b| - 1];
    } else {
      assert a + b == a;
    }
  }

  lemma {:induction false} WithKeyNone<T>(s: seq<T>, key: T -> real, k: real)
    requires forall i :: 0 <= i < |s| ==> key(s[i]) < k
    ensures WithKey(s, key, k) == []
    decreases |s|
  {
    if s != [] {
      WithKeyNone(s[..|s| - 1], key, k);
    }
  }

  lemma SortedTail<T>(s: seq<T>, key: T -> real)
    requires s != [] && SortedDesc(s, key)
    ensures SortedDesc(s[1..], key)
  {
    forall i, j | 0 <= i < j < |s| - 1
      ensures key(s[1..][i]) >= key(s[1..][j])
    {
      assert s[1..][i] == s[i + 1] && s[1..][j] == s[j + 1];
    }
  }

  /** The elements carrying key `k` of a one-element list. */
  lemma WithKeySingle<T>(x: T, key: T -> real, k: real)
    ensures WithKey([x], key, k) == Tagged(x, key, k)
  {
    assert [x][..0] == [];
  }

  /** The elements with key `k` that `x` contributes. */
  function Tagged<T>(x: T, key: T -> real, k: real): seq<T>
  {
    if key(x) == k then [x] else []
  }

  /** Stability of an insertion that passes the first element. */
  lemma InsertDescStablePast<T>(s: seq<T>, x: T, key: T -> real, k: real)
    requires s != [] && key(s[0]) >= key(x)
    requires WithKey(InsertDesc(s[1..], x, key), key, k) == WithKey(s[1..], key, k) + Tagged(x, key, k)
    ensures WithKey(InsertDesc(s, x, key), key, k) == WithKey(s, key, k) + Tagged(x, key, k)
  {
    var t := InsertDesc(s[1..], x, key);
    assert InsertDesc(s, x, key) == [s[0]] + t;
    WithKeyAppend([s[0]], t, key, k);
    WithKeyAppend([s[0]], s[1..], key, k);
    assert s == [s[0]] + s[1..];
  }

  /** Stability of an insertion in front: nothing after `x` has its key. */
  lemma InsertDescStableFront<T>(s: seq<T>, x: T, key: T -> real, k: real)
    requires SortedDesc(s, key) && s != [] && key(s[0]) < key(x)
    ensures WithKey(InsertDesc(s, x, key), key, k) == WithKey(s, key, k) + Tagged(x, key, k)
  {
    assert InsertDesc(s, x, key) == [x] + s;
    WithKeyAppend([x], s, key, k);
    WithKeySingle(x, key, k);
    if key(x) == k {
      forall i | 0 <= i < |s|
        ensures key(s[i]) < k
      {
        assert key(s[0]) >= key(s[i]);
      }
      WithKeyNone(s, key, k);
    }
  }

  lemma {:induction false} InsertDescStable<T>(s: seq<T>, x: T, key: T -> real, k: real)
    requires SortedDesc(s, key)
    ensures WithKey(InsertDesc(s, x, key), key, k) == WithKey(s, key, k) + Tagged(x, key, k)
    decreases |s|
  {
    if s == [] {
      WithKeySingle(x, key, k);
      assert WithKey(s, key, k) == [];
    } else if key(s[0]) >= key(x) {
      SortedTail(s, key);
      InsertDescStable(s[1..], x, key, k);
      InsertDescStablePast(s, x, key, k);
    } else {
      InsertDescStableFront(s, x, key, k);
    }
  }

  /** Stability: for every key value, the elements carrying it appear in the
      sorted list in the same order as in the input. */
  lemma {:induction false} SortDescStable<T>(s: seq<T>, key: T -> real, k: real)
    ensures WithKey(SortDesc(s, key), key, k) == WithKey(s, key, k)
    decreases |s|
  {
    if s != [] {
      SortDescStable(s[..|s| - 1], key, k);
      SortDescSorted(s[..|s| - 1], key);
      InsertDescStable(SortDesc(s[..|s| - 1], key), s[|s| - 1], key, k);
    }
  }

  /** Top-n: every input element is among the first `n` of the sorted list
      or has a key no larger than the `n`-th one's. */
  lemma SortDescPrefixDominates<T>(s: seq<T>, key: T -> real, n: nat, x: T)
    requires 0 < n <= |s| && x in s
    ensures x in SortDesc(s, key)[..n] || key(x) <= key(SortDesc(s, key)[n - 1])
  {
    var t := SortDesc(s, key);
    SortDescSorted(s, key);
    assert x in multiset(s);
    assert x in t;
    var j :| 0 <= j < |t| && t[j] == x;
    if j < n {
      assert t[..n][j] == x;
    }
  }
}
