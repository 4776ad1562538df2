/** Newest-first ordering as the caches and the store queries use it: a stable
    sort by a timestamp, descending, followed by a take of the first few. */
module Ordering {
  import opened Common

  /** Every element's key is at least that of every later element. */
  ghost predicate Descending<T>(s: seq<T>, key: T -> int)
  {
    forall i, j :: 0 <= i < j < |s| ==> key(s[i]) >= key(s[j])
  }

  /** An element at least as large as every element of a descending list
      may go in front of it. */
  lemma ConsDescending<T>(y: T, s: seq<T>, key: T -> int)
    requires Descending(s, key)
    requires forall j :: 0 <= j < |s| ==> key(s[j]) <= key(y)
    ensures Descending([y] + s, key)
  {
    var r := [y] + s;
    forall i, j | 0 <= i < j < |r| ensures key(r[i]) >= key(r[j]) {
      assert r[j] == s[j - 1];
      if i > 0 {
        assert r[i] == s[i - 1];
      }
    }
  }

  /** Every slice of a descending list is descending. */
  lemma SliceDescending<T>(s: seq<T>, lo: int, hi: int, key: T -> int)
    requires 0 <= lo <= hi <= |s| && Descending(s, key)
    ensures Descending(s[lo..hi], key)
  {
    var r := s[lo..hi];
    forall i, j | 0 <= i < j < |r| ensures key(r[i]) >= key(r[j]) {
      assert r[i] == s[lo + i] && r[j] == s[lo + j];
    }
  }

  /** Puts `x` into an already descending list, in front of every element
      whose key does not exceed its own, so that it precedes the later-listed
      elements it ties with. */
  function InsertBy<T>(x: T, s: seq<T>, key: T -> int): (r: seq<T>)
    requires Descending(s, key)
    ensures Descending(r, key)
    ensures multiset(r) == multiset(s) + multiset{x}
    ensures |r| == |s| + 1
    ensures forall y <- r :: y == x || y in s
  {
    if |s| == 0 then [x]
    else if key(s[0]) <= key(x) then
      ConsDescending(x, s, key);
      [x] + s
    else
      var tail := s[1..];
      SliceDescending(s, 1, |s|, key);
      var rest := InsertBy(x, tail, key);
      assert s == [s[0]] + tail;
      assert forall j :: 0 <= j < |rest| ==> key(rest[j]) <= key(s[0]) by {
        forall j | 0 <= j < |rest| ensures key(rest[j]) <= key(s[0]) {
          var y := rest[j];
          assert y in rest;
          if y != x {
            assert y in tail;
            var i :| 0 <= i < |tail| && tail[i] == y;
            assert s[i + 1] == y;
          }
        }
      }
      ConsDescending(s[0], rest, key);
      [s[0]] + rest
  }

  /** `list.sort((a, b) => key(b) - key(a))`: descending by key, ties kept in
      list order (the sort is stable). */
  function SortBy<T>(s: seq<T>, key: T -> int): (r: seq<T>)
    ensures Descending(r, key)
    ensures multiset(r) == multiset(s)
    ensures |r| == |s|
  {
    if |s| == 0 then []
    else
      assert s == [s[0]] + s[1..];
      InsertBy(s[0], SortBy(s[1..], key), key)
  }

  /** The elements of `s` whose key is `k`, in list order. */
  function WithKey<T>(s: seq<T>, key: T -> int, k: int): seq<T>
  {
    if |s| == 0 then []
    else (if key(s[0]) == k then [s[0]] else []) + WithKey(s[1..], key, k)
  }

  /** WithKey of a list with one element in front. */
  lemma WithKeyCons<T>(a: T, t: seq<T>, key: T -> int, k: int)
    ensures WithKey([a] + t, key, k) == (if key(a) == k then [a] else []) + WithKey(t, key, k)
  {
    assert ([a] + t)[1..] == t;
  }

  /** The inserted element goes in front of the elements it ties with. */
  lemma {:induction false} InsertAheadOfTies<T>(x: T, s: seq<T>, key: T -> int, k: int)
    requires Descending(s, key)
    ensures WithKey(InsertBy(x, s, key), key, k) == (if key(x) == k then [x] else []) + WithKey(s, key, k)
  {
    if |s| == 0 || key(s[0]) <= key(x) {
      assert InsertBy(x, s, key) == [x] + s;
      WithKeyCons(x, s, key, k);
    } else {
      SliceDescending(s, 1, |s|, key);
      assert InsertBy(x, s, key) == [s[0]] + InsertBy(x, s[1..], key);
      InsertAheadOfTies(x, s[1..], key, k);
      WithKeyCons(s[0], InsertBy(x, s[1..], key), key, k);
      WithKeyCons(s[0], s[1..], key, k);
      assert s == [s[0]] + s[1..];
      SwapPart(if key(s[0]) == k then [s[0]] else [], if key(x) == k then [x] else [], WithKey(s[1..], key, k));
    }
  }

  /** Of two parts at most one of which is non-empty, either may go first. */
  lemma SwapPart<T>(a: seq<T>, b: seq<T>, w: seq<T>)
    requires a == [] || b == []
    ensures a + (b + w) == b + (a + w)
  {
    if a == [] {
      assert a + (b + w) == b + w == b + (a + w);
    } else {
      assert a + (b + w) == a + w == b + (a + w);
    }
  }

  /** The sort is stable: the elements sharing a key keep their list order. */
  lemma {:induction false} SortStable<T>(s: seq<T>, key: T -> int, k: int)
    ensures WithKey(SortBy(s, key), key, k) == WithKey(s, key, k)
  {
    if |s| > 0 {
      SortStable(s[1..], key, k);
      InsertAheadOfTies(s[0], SortBy(s[1..], key), key, k);
    }
  }

  /** Sorting neither adds nor drops an element. */
  lemma SortedMembers<T>(s: seq<T>, key: T -> int)
    ensures forall x :: x in SortBy(s, key) <==> x in s
  {
    var sorted := SortBy(s, key);
    forall x ensures x in sorted <==> x in s {
      assert x in sorted <==> multiset(sorted)[x] > 0;
      assert x in s <==> multiset(s)[x] > 0;
    }
  }

  /** `list.sort(newest first).slice(0, n)`. */
  function NewestBy<T>(s: seq<T>, key: T -> int, n: nat): (r: seq<T>)
    ensures |r| == Min(|s|, n)
    ensures Descending(r, key)
    ensures forall x <- r :: x in s
  {
    var sorted := SortBy(s, key);
    SliceDescending(sorted, 0, Min(|s|, n), key);
    var r := sorted[..Min(|s|, n)];
    assert sorted == r + sorted[Min(|s|, n)..];
    assert multiset(sorted) == multiset(r) + multiset(sorted[Min(|s|, n)..]);
    assert forall x <- r :: x in s by {
      forall x <- r ensures x in s {
        assert multiset(r)[x] > 0;
        assert multiset(sorted)[x] > 0;
      }
    }
    r
  }

  /** The take keeps elements of `s` no more often than `s` holds them, and
      keeps all of `s` when `s` is no longer than the take. */
  lemma NewestFrom<T>(s: seq<T>, key: T -> int, n: nat)
    ensures multiset(NewestBy(s, key, n)) <= multiset(s)
    ensures |s| <= n ==> multiset(NewestBy(s, key, n)) == multiset(s)
  {
    var sorted := SortBy(s, key);
    var m := Min(|s|, n);
    assert NewestBy(s, key, n) == sorted[..m];
    assert sorted == sorted[..m] + sorted[m..];
    assert multiset(sorted) == multiset(sorted[..m]) + multiset(sorted[m..]);
  }

  /** A sub-multiset is no larger, and one of the same size is the whole. */
  lemma SubMultisetSize<T>(a: multiset<T>, b: multiset<T>)
    requires a <= b
    ensures |a| <= |b|
    ensures |a| == |b| ==> a == b
  {
    var d := b - a;
    assert b == a + d;
    if |a| == |b| {
      assert |d| == 0;
      assert d == multiset{};
    }
  }

  /** When `s` holds at least `n` elements (counted with repetition) whose key
      is at least `t`, every element the take of `n` keeps has a key of at
      least `t`. */
  lemma {:induction false} TakeDominates<T>(s: seq<T>, key: T -> int, n: nat, w: seq<T>, t: int)
    requires multiset(w) <= multiset(s) && |w| >= n
    requires forall y <- w :: key(y) >= t
    ensures forall y <- NewestBy(s, key, n) :: key(y) >= t
  {
    var sorted := SortBy(s, key);
    var r := NewestBy(s, key, n);
    assert r == sorted[..Min(|s|, n)];
    NewestFrom(s, key, n);
    forall y <- r ensures key(y) >= t {
      var j :| 0 <= j < |r| && r[j] == y;
      if key(y) < t {
        AboveCut(sorted, key, j, w, t);
        assert false;
      }
    }
  }

  /** In a list sorted newest first, the elements at least as new as `t`
      all sit before the first one older than `t`. */
  lemma AboveCut<T>(sorted: seq<T>, key: T -> int, j: nat, w: seq<T>, t: int)
    requires Descending(sorted, key) && j < |sorted| && key(sorted[j]) < t
    requires multiset(w) <= multiset(sorted)
    requires forall y <- w :: key(y) >= t
    ensures |w| <= j
  {
    var front, back := sorted[..j], sorted[j..];
    assert sorted == front + back;
    assert multiset(sorted) == multiset(front) + multiset(back);
    assert forall z <- back :: key(z) < t by {
      forall z <- back ensures key(z) < t {
        var i :| 0 <= i < |back| && back[i] == z;
        assert sorted[j + i] == z;
      }
    }
    forall x ensures multiset(w)[x] <= multiset(front)[x] {
      if x in w {
        assert x !in back;
      }
    }
    SubMultisetSize(multiset(w), multiset(front));
  }

  /** The take keeps the newest: an element left out is no newer than any
      element kept. */
  lemma NewestKept<T>(s: seq<T>, key: T -> int, n: nat)
    ensures forall x <- s :: x in NewestBy(s, key, n) || forall y <- NewestBy(s, key, n) :: key(x) <= key(y)
  {
    var sorted := SortBy(s, key);
    var r := NewestBy(s, key, n);
    assert r == sorted[..Min(|s|, n)];
    forall x <- s | x !in r ensures forall y <- r :: key(x) <= key(y) {
      assert multiset(sorted)[x] > 0;
      var j :| 0 <= j < |sorted| && sorted[j] == x;
      assert j >= |r|;
      forall y <- r ensures key(x) <= key(y) {
        var i :| 0 <= i < |r| && r[i] == y;
        assert sorted[i] == y;
      }
    }
  }
}
