/** Values shared by every part of the model: optional values, the outcome of a
    throwing check, JavaScript numbers as the handlers receive them, a user
    record, and the array primitives (indexOf, splice, filter-count) the
    handlers use on their in-memory lists. */
module Common {

  datatype Option<+T> = None | Some(value: T)

  /** The outcome of a check that either returns or throws an error. */
  datatype Outcome<+E> = Pass | Fail(error: E)

  datatype Result<+T, +E> = Ok(value: T) | Err(error: E)

  /** A JavaScript number read from a request: `NaN` also stands for a missing
      (undefined or null) field, which `isNaN` treats the same way. */
  datatype Num = NaN | Finite(v: real)

  /** A user row as the store returns it. `balance` is present on a full row and
      absent on a public projection of it. */
  datatype Profile = Profile(
    id: string,
    username: Option<string>,
    avatar: Option<string>,
    rank: string,
    anonymous: bool,
    balance: Option<int>)

  function Min(a: int, b: int): int { if a <= b then a else b }

  /** `Math.floor` of a finite number. */
  function Floor(x: real): (r: int)
    ensures r as real <= x < r as real + 1.0
  {
    x.Floor
  }

  /** `list.indexOf(x)`: the first position of `x`, or -1. */
  function IndexOf<T(==)>(s: seq<T>, x: T): (r: int)
    ensures -1 <= r < |s|
    ensures r == -1 <==> x !in s
    ensures 0 <= r ==> s[r] == x && x !in s[..r]
  {
    if |s| == 0 then -1
    else if s[0] == x then 0
    else
      var k := IndexOf(s[1..], x);
      if k == -1 then -1
      else
        assert s[..k + 1] == [s[0]] + s[1..][..k];
        k + 1
  }

  /** `list.splice(start, 1)`: a negative start counts from the end (so -1 is
      the last element); a start past the end removes nothing. */
  function SpliceOne<T>(s: seq<T>, start: int): (r: seq<T>)
    ensures 0 <= start < |s| ==> r == s[..start] + s[start + 1..]
    ensures start == -1 && |s| > 0 ==> r == s[..|s| - 1]
    ensures start >= |s| || |s| == 0 ==> r == s
    ensures multiset(r) <= multiset(s)
    ensures forall x <- r :: x in s
  {
    var k := if start < 0 then (if |s| + start < 0 then 0 else |s| + start) else start;
    if k < |s| then
      assert s == s[..k] + [s[k]] + s[k + 1..];
      s[..k] + s[k + 1..]
    else s
  }

  /** `list.splice(list.indexOf(x), 1)`: how every guard list and the active
      game list release an entry. */
  function Release<T(==)>(s: seq<T>, x: T): seq<T>
  {
    SpliceOne(s, IndexOf(s, x))
  }

  /** `list.filter(y => y === x).length`. */
  function Count<T(==)>(s: seq<T>, x: T): (r: nat)
    ensures r == multiset(s)[x]
  {
    if |s| == 0 then 0
    else
      assert s == [s[0]] + s[1..];
      (if s[0] == x then 1 else 0) + Count(s[1..], x)
  }

  /** Releasing an id that is held removes exactly one occurrence of it and
      nothing else. */
  lemma ReleaseHeld<T>(s: seq<T>, x: T)
    requires x in s
    ensures multiset(Release(s, x)) == multiset(s) - multiset{x}
    ensures |Release(s, x)| == |s| - 1
  {
    var k := IndexOf(s, x);
    assert s == s[..k] + [s[k]] + s[k + 1..];
    assert Release(s, x) == s[..k] + s[k + 1..];
  }

  /** Releasing an id that is not held removes the LAST entry of a non-empty
      list, an entry that belongs to another operation. */
  lemma ReleaseNotHeldDropsLast<T>(s: seq<T>, x: T)
    requires x !in s && |s| > 0
    ensures Release(s, x) == s[..|s| - 1]
    ensures s[|s| - 1] != x
  {
  }

  /** Acquiring an id that is not held and releasing it again leaves the guard
      list exactly as it was. */
  lemma AcquireRelease<T>(s: seq<T>, x: T)
    requires x !in s
    ensures Release(s + [x], x) == s
  {
    assert IndexOf(s + [x], x) == |s| by {
      assert x !in (s + [x])[..|s|] by { assert (s + [x])[..|s|] == s; }
    }
  }
}
