/** The list windows the source takes: Mongo's `skip`/`limit` on a cursor,
    Python's tail slice `s[-n:]`, and Python's `reversed`. */
module Seqs {

  /** Mongo's `cursor.skip(n)` and Python's `s[n:]`. */
  function Drop<T>(s: seq<T>, n: nat): seq<T>
  {
    if n <= |s| then s[n..] else []
  }

  /** Mongo's `cursor.limit(n)`, where a limit of 0 means "no limit". */
  function Limit<T>(s: seq<T>, n: nat): seq<T>
  {
    if n == 0 || |s| <= n then s else s[..n]
  }

  /** Skip, then limit, as a Mongo cursor applies them. */
  function Page<T>(s: seq<T>, skip: nat, limit: nat): (r: seq<T>)
    ensures limit > 0 ==> |r| <= limit
    ensures forall i :: 0 <= i < |r| ==> skip + i < |s| && r[i] == s[skip + i]
  {
    Limit(Drop(s, skip), limit)
  }

  /** Python's `s[-n:]`; for `n == 0` that slice is `s[0:]`, the whole list. */
  function LastN<T>(s: seq<T>, n: nat): seq<T>
  {
    if n == 0 || |s| <= n then s else s[|s| - n..]
  }

  /** Python's `list(reversed(s))`. */
  function Reverse<T>(s: seq<T>): (r: seq<T>)
    ensures |r| == |s|
  {
    if s == [] then [] else [s[|s| - 1]] + Reverse(s[..|s| - 1])
  }

  lemma {:induction false} ReverseAt<T>(s: seq<T>, k: nat)
    requires k < |s|
    ensures Reverse(s)[k] == s[|s| - 1 - k]
  {
    if k > 0 {
      ReverseAt(s[..|s| - 1], k - 1);
    }
  }

  lemma ReverseReverse<T>(s: seq<T>)
    ensures Reverse(Reverse(s)) == s
  {
    var r := Reverse(s);
    forall k | 0 <= k < |s|
      ensures Reverse(r)[k] == s[k]
    {
      ReverseAt(r, k);
      ReverseAt(s, |s| - 1 - k);
    }
  }

  lemma {:induction false} ReverseAppend<T>(a: seq<T>, b: seq<T>)
    ensures Reverse(a + b) == Reverse(b) + Reverse(a)
    decreases |b|
  {
    if b == [] {
      assert a + b == a;
    } else {
      var c, init, last := a + b, b[..|b| - 1], b[|b| - 1];
      assert c[..|c| - 1] == a + init;
      assert c[|c| - 1] == last;
      ReverseAppend(a, init);
      assert Reverse(c) == [last] + (Reverse(init) + Reverse(a));
      assert Reverse(b) == [last] + Reverse(init);
    }
  }

  /** Reading a list newest-first with a limit and reversing the page (what
      `get_recent_messages` does) yields the tail slice of the oldest-first
      list: the two orders agree. */
  lemma RecentIsTail<T>(s: seq<T>, n: nat)
    ensures Reverse(Limit(Reverse(s), n)) == LastN(s, n)
  {
    if n == 0 || |s| <= n {
      ReverseReverse(s);
    } else {
      var t := Reverse(s)[..n];
      forall k | 0 <= k < n
        ensures Reverse(t)[k] == s[|s| - n + k]
      {
        ReverseAt(t, k);
        ReverseAt(s, n - 1 - k);
      }
    }
  }

  /** The last `m` of the last `n` are the last `m`, for `0 < m <= n`. */
  lemma LastNOfLastN<T>(s: seq<T>, n: nat, m: nat)
    requires 0 < m <= n
    ensures LastN(LastN(s, n), m) == LastN(s, m)
  {
  }
}
