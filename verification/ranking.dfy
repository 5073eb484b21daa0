/**
 * A best-times table: push a new entry, sort ascending by time with the
 * stable `Array.prototype.sort`, then pop from the end while the table is
 * longer than its capacity. Both the server's leaderboard (completeLevel) and
 * the retro variant's local leaderboard (pushTime) are kept this way.
 */
module Ranking {

  function Min(a: nat, b: nat): nat { if a <= b then a else b }

  /** Ascending by `key`. */
  predicate Sorted<T>(s: seq<T>, key: T -> real) {
    forall i, j :: 0 <= i < j < |s| ==> key(s[i]) <= key(s[j])
  }

  /**
   * How many leading entries of `s` are no slower than `x`: the position
   * before the first entry with a strictly greater key.
   */
  function InsertionPoint<T>(s: seq<T>, x: T, key: T -> real): (k: nat)
    ensures k <= |s|
    ensures forall i :: 0 <= i < k ==> key(s[i]) <= key(x)
    ensures k < |s| ==> key(x) < key(s[k])
  {
    if s == [] || key(x) < key(s[0]) then 0
    else 1 + InsertionPoint(s[1..], x, key)
  }

  /**
   * Inserts `x` into `s` before the first entry with a strictly greater key,
   * so that `x` lands after every entry whose key equals its own.
   */
  function Insert<T>(s: seq<T>, x: T, key: T -> real): (r: seq<T>)
    ensures |r| == |s| + 1
    ensures multiset(r) == multiset(s) + multiset{x}
  {
    var k := InsertionPoint(s, x, key);
    assert s == s[..k] + s[k..];
    s[..k] + [x] + s[k..]
  }

  /** Inserting into a sorted table keeps it sorted. */
  lemma InsertSorted<T>(s: seq<T>, x: T, key: T -> real)
    requires Sorted(s, key)
    ensures Sorted(Insert(s, x, key), key)
  {
    var k := InsertionPoint(s, x, key);
    var r := s[..k] + [x] + s[k..];
    forall i, j | 0 <= i < j < |r| ensures key(r[i]) <= key(r[j]) {
      if j < k {
        assert r[i] == s[i] && r[j] == s[j];
      } else if j == k {
        assert r[i] == s[i] && r[j] == x;
      } else if i < k {
        assert r[i] == s[i] && r[j] == s[j - 1];
      } else if i == k {
        assert r[i] == x && r[j] == s[j - 1];
      } else {
        assert r[i] == s[i - 1] && r[j] == s[j - 1];
      }
    }
  }

  /** The insertion point is the only position that fits `x`. */
  lemma {:induction false} InsertionPointUnique<T>(s: seq<T>, x: T, key: T -> real, k: nat)
    requires k <= |s|
    requires forall i :: 0 <= i < k ==> key(s[i]) <= key(x)
    requires k < |s| ==> key(x) < key(s[k])
    ensures InsertionPoint(s, x, key) == k
  {
    if k > 0 {
      assert key(s[0]) <= key(x);
      InsertionPointUnique(s[1..], x, key, k - 1);
    }
  }

  /**
   * The stable ascending sort of `s`: the element order the comparator
   * `(a, b) => a.key - b.key` gives, equal keys keeping their input order.
   */
  function SortByKey<T>(s: seq<T>, key: T -> real): (r: seq<T>)
    ensures |r| == |s|
    ensures Sorted(r, key)
    ensures multiset(r) == multiset(s)
  {
    if s == [] then []
    else
      assert s == s[..|s| - 1] + [s[|s| - 1]];
      var sortedInit := SortByKey(s[..|s| - 1], key);
      InsertSorted(sortedInit, s[|s| - 1], key);
      Insert(sortedInit, s[|s| - 1], key)
  }

  /** The entries of `s` whose key is `v`, in their order in `s`. */
  function WithKey<T>(s: seq<T>, key: T -> real, v: real): (r: seq<T>)
    ensures |r| <= |s|
  {
    if s == [] then []
    else WithKey(s[..|s| - 1], key, v) + (if key(s[|s| - 1]) == v then [s[|s| - 1]] else [])
  }

  lemma {:induction false} WithKeyAppend<T>(a: seq<T>, b: seq<T>, key: T -> real, v: real)
    ensures WithKey(a + b, key, v) == WithKey(a, key, v) + WithKey(b, key, v)
    decreases |b|
  {
    if b == [] {
      assert a + b == a;
    } else {
      var n := |b| - 1;
      assert (a + b)[..|a + b| - 1] == a + b[..n];
      WithKeyAppend(a, b[..n], key, v);
    }
  }

  lemma {:induction false} WithKeyNone<T>(s: seq<T>, key: T -> real, v: real)
    requires forall i :: 0 <= i < |s| ==> key(s[i]) != v
    ensures WithKey(s, key, v) == []
    decreases |s|
  {
    if s != [] {
      WithKeyNone(s[..|s| - 1], key, v);
    }
  }

  /**
   * Inserting into a sorted table adds `x` after every entry with its key, so
   * among the entries with any one key it comes last.
   */
  lemma InsertWithKey<T>(s: seq<T>, x: T, key: T -> real, v: real)
    requires Sorted(s, key)
    ensures WithKey(Insert(s, x, key), key, v)
         == WithKey(s, key, v) + (if key(x) == v then [x] else [])
  {
    var k := InsertionPoint(s, x, key);
    AfterInsertionPoint(s, x, key);
    WithKeySplice(s, k, x, key, v);
  }

  /**
   * Splicing `x` in at `k` adds it to the entries with key `v` after all of
   * them, provided none of those sits at or beyond `k`.
   */
  lemma WithKeySplice<T>(s: seq<T>, k: nat, x: T, key: T -> real, v: real)
    requires k <= |s|
    requires key(x) == v ==> forall i :: k <= i < |s| ==> key(s[i]) != v
    ensures WithKey(s[..k] + [x] + s[k..], key, v) == WithKey(s, key, v) + (if key(x) == v then [x] else [])
  {
    var front, back := s[..k], s[k..];
    var A, X, B := WithKey(front, key, v), WithKey([x], key, v), WithKey(back, key, v);
    assert WithKey(s, key, v) == A + B by {
      assert s == front + back;
      WithKeyAppend(front, back, key, v);
    }
    assert WithKey(front + [x], key, v) == A + X by {
      WithKeyAppend(front, [x], key, v);
    }
    assert WithKey(front + [x] + back, key, v) == A + X + B by {
      WithKeyAppend(front + [x], back, key, v);
    }
    assert X == if key(x) == v then [x] else [] by {
      WithKeySingle(x, key, v);
    }
    assert key(x) == v ==> B == [] by {
      if key(x) == v {
        WithKeyNone(back, key, v);
      }
    }
  }

  lemma WithKeySingle<T>(x: T, key: T -> real, v: real)
    ensures WithKey([x], key, v) == if key(x) == v then [x] else []
  {
    assert [x][..0] == [];
  }

  /** In a sorted table, every entry from the insertion point on is slower than `x`. */
  lemma AfterInsertionPoint<T>(s: seq<T>, x: T, key: T -> real)
    requires Sorted(s, key)
    ensures forall i :: InsertionPoint(s, x, key) <= i < |s| ==> key(x) < key(s[i])
  {
    var k := InsertionPoint(s, x, key);
    forall i | k <= i < |s| ensures key(x) < key(s[i]) {
      assert key(s[k]) <= key(s[i]);
    }
  }

  /**
   * The sort is stable: for every key, the entries carrying it come out in
   * the order they went in.
   */
  lemma {:induction false} SortStable<T>(s: seq<T>, key: T -> real, v: real)
    ensures WithKey(SortByKey(s, key), key, v) == WithKey(s, key, v)
    decreases |s|
  {
    if s != [] {
      var init := s[..|s| - 1];
      SortStable(init, key, v);
      InsertWithKey(SortByKey(init, key), s[|s| - 1], key, v);
    }
  }

  /**
   * Pushes `entry`, sorts, and pops while longer than `cap`; the result is
   * the first `cap` entries of the sorted whole.
   */
  method Record<T>(entries: seq<T>, entry: T, key: T -> real, cap: nat) returns (board: seq<T>)
    ensures |board| == Min(cap, |entries| + 1)
    ensures board == SortByKey(entries + [entry], key)[..|board|]
    ensures Sorted(board, key)
  {
    board := entries + [entry];
    board := SortByKey(board, key);
    ghost var all := board;
    while |board| > cap
      invariant Min(cap, |all|) <= |board| <= |all|
      invariant board == all[..|board|]
    {
      board := board[..|board| - 1];
    }
  }

  /**
   * A table cut from the sorted whole keeps the best entries: it is sorted,
   * every entry in it came from the whole, and no entry left out is faster
   * than any entry kept.
   */
  lemma {:induction false} PrefixKeepsBest<T>(all: seq<T>, key: T -> real, n: nat)
    requires n <= |all|
    ensures Sorted(SortByKey(all, key)[..n], key)
    ensures multiset(SortByKey(all, key)[..n]) <= multiset(all)
    ensures multiset(SortByKey(all, key)[..n]) + multiset(SortByKey(all, key)[n..]) == multiset(all)
    ensures forall i, j :: 0 <= i < n <= j < |all| ==> key(SortByKey(all, key)[i]) <= key(SortByKey(all, key)[j])
  {
    var s := SortByKey(all, key);
    assert s == s[..n] + s[n..];
    assert multiset(s) == multiset(s[..n]) + multiset(s[n..]);
    forall i, j | 0 <= i < j < n ensures key(s[..n][i]) <= key(s[..n][j]) {
      assert s[..n][i] == s[i] && s[..n][j] == s[j];
    }
  }

  /** Every entry a cut of the sorted whole drops is at least as slow as every entry it keeps. */
  lemma PrefixDropsSlower<T>(all: seq<T>, key: T -> real, n: nat)
    requires n <= |all|
    ensures var kept := SortByKey(all, key)[..n];
      forall x, y :: x in multiset(all) - multiset(kept) && y in kept ==> key(y) <= key(x)
  {
    var s := SortByKey(all, key);
    assert multiset(s) == multiset(all);
    PrefixKeepsBest(all, key, n);
    CutDropsSlower(s, key, n);
  }

  /** A cut of `s` whose kept entries are no slower than its dropped ones: every dropped entry is at least as slow as every kept one. */
  lemma CutDropsSlower<T>(s: seq<T>, key: T -> real, n: nat)
    requires n <= |s|
    requires forall i, j :: 0 <= i < n <= j < |s| ==> key(s[i]) <= key(s[j])
    ensures forall x, y :: x in multiset(s) - multiset(s[..n]) && y in s[..n] ==> key(y) <= key(x)
  {
    assert s == s[..n] + s[n..];
    assert multiset(s) - multiset(s[..n]) == multiset(s[n..]);
    forall x, y | x in multiset(s) - multiset(s[..n]) && y in s[..n]
      ensures key(y) <= key(x)
    {
      assert x in s[n..];
      var j :| n <= j < |s| && s[j] == x;
      var i :| 0 <= i < n && s[i] == y;
    }
  }

  /** Appending an entry no faster than every entry of `s` puts it at the end. */
  lemma InsertLast<T>(s: seq<T>, x: T, key: T -> real)
    requires forall i :: 0 <= i < |s| ==> key(s[i]) <= key(x)
    ensures Insert(s, x, key) == s + [x]
  {
    InsertionPointUnique(s, x, key, |s|);
  }

  /** Sorting a table that is already sorted leaves it as it is. */
  lemma {:induction false} SortSortedIsIdentity<T>(s: seq<T>, key: T -> real)
    requires Sorted(s, key)
    ensures SortByKey(s, key) == s
  {
    if s != [] {
      var init := s[..|s| - 1];
      SortSortedIsIdentity(init, key);
      InsertLast(init, s[|s| - 1], key);
      assert init + [s[|s| - 1]] == s;
    }
  }

  lemma SpliceTake<T>(s: seq<T>, x: T, k: nat)
    requires k < |s|
    ensures (s[..k] + [x] + s[k..])[..|s|] == s[..k] + [x] + s[k..|s| - 1]
  {
    var r := s[..k] + [x] + s[k..];
    var t := s[..k] + [x] + s[k..|s| - 1];
    assert |r[..|s|]| == |t|;
    forall i | 0 <= i < |t| ensures r[..|s|][i] == t[i] {
      if i < k { } else if i == k { } else { }
    }
  }

  /**
   * Recording into a full, sorted table an entry strictly faster than its
   * last one keeps the new entry and evicts the old last entry.
   */
  lemma FasterEntryEvictsLast<T>(s: seq<T>, x: T, key: T -> real, k: nat)
    requires Sorted(s, key) && |s| > 0
    requires k < |s|
    requires forall i :: 0 <= i < k ==> key(s[i]) <= key(x)
    requires key(x) < key(s[k])
    ensures SortByKey(s + [x], key)[..|s|] == s[..k] + [x] + s[k..|s| - 1]
  {
    SortSortedIsIdentity(s, key);
    assert (s + [x])[..|s|] == s;
    assert SortByKey(s + [x], key) == Insert(s, x, key);
    InsertionPointUnique(s, x, key, k);
    SpliceTake(s, x, k);
  }
}
