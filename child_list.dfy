/**
 * The edit `childDidFinish` makes to a coordinator's child list: remove the
 * first entry identical to the finished child, keep everything else in order.
 * Elements are compared with `==`, which on class instances is reference
 * identity (Swift's `===`).
 */
module ChildList {

  /** The position of the first entry of `s` that is `x`. */
  function FirstIndex<T(==)>(s: seq<T>, x: T): (i: nat)
    requires x in s
    ensures i < |s| && s[i] == x
    ensures forall k :: 0 <= k < i ==> s[k] != x
  {
    if s[0] == x then 0 else 1 + FirstIndex(s[1..], x)
  }

  /** `s` with its first occurrence of `x` taken out; `s` itself when `x` does not occur. */
  function RemoveFirst<T(==)>(s: seq<T>, x: T): (r: seq<T>)
    ensures |r| == if x in s then |s| - 1 else |s|
  {
    if s == [] then []
    else if s[0] == x then s[1..]
    else [s[0]] + RemoveFirst(s[1..], x)
  }

  /** When `x` occurs, the result is the prefix before its first occurrence followed by the suffix after it. */
  lemma {:induction false} RemoveFirstSplices<T>(s: seq<T>, x: T)
    requires x in s
    ensures RemoveFirst(s, x) == s[..FirstIndex(s, x)] + s[FirstIndex(s, x) + 1..]
  {
    if s[0] != x {
      RemoveFirstSplices(s[1..], x);
      var i := FirstIndex(s, x);
      assert s[..i] == [s[0]] + s[1..][..i - 1];
      assert s[i + 1..] == s[1..][i..];
    }
  }

  /** When `x` does not occur, nothing is removed. */
  lemma {:induction false} RemoveFirstAbsent<T>(s: seq<T>, x: T)
    requires x !in s
    ensures RemoveFirst(s, x) == s
  {
    if s != [] {
      RemoveFirstAbsent(s[1..], x);
      assert s == [s[0]] + s[1..];
    }
  }

  /** Exactly one copy of `x` goes when there is one, and no other element changes its count. */
  lemma {:induction false} RemoveFirstMultiset<T>(s: seq<T>, x: T)
    ensures multiset(RemoveFirst(s, x)) == multiset(s) - multiset{x}
  {
    if s != [] {
      assert s == [s[0]] + s[1..];
      if s[0] != x {
        RemoveFirstMultiset(s[1..], x);
      }
    }
  }

  /** An element other than `x`, however alike it may be, stays exactly when it was there. */
  lemma RemoveFirstKeepsOthers<T>(s: seq<T>, x: T, y: T)
    requires y != x
    ensures y in RemoveFirst(s, x) <==> y in s
    ensures multiset(RemoveFirst(s, x))[y] == multiset(s)[y]
  {
    RemoveFirstMultiset(s, x);
  }

  /** A later duplicate of `x` survives: only the first occurrence is removed. */
  lemma RemoveFirstKeepsLaterDuplicate<T>(s: seq<T>, x: T, j: nat)
    requires x in s
    requires FirstIndex(s, x) < j < |s| && s[j] == x
    ensures x in RemoveFirst(s, x)
    ensures RemoveFirst(s, x)[j - 1] == x
  {
    RemoveFirstSplices(s, x);
    var i := FirstIndex(s, x);
    var r := s[..i] + s[i + 1..];
    assert r[j - 1] == s[i + 1..][j - 1 - i] == s[j];
  }

  /** Removing an entry that was appended last gives the list back as it was before the append. */
  lemma {:induction false} RemoveFirstUndoesAppend<T>(s: seq<T>, x: T)
    requires x !in s
    ensures RemoveFirst(s + [x], x) == s
  {
    assert x in s + [x];
    assert (s + [x])[|s|] == x;
    RemoveFirstSplices(s + [x], x);
    assert (s + [x])[..|s|] == s;
  }

  /** Removing an entry that occurs at most once a second time changes nothing. */
  lemma RemoveFirstTwiceIsOnce<T>(s: seq<T>, x: T)
    requires multiset(s)[x] <= 1
    ensures RemoveFirst(RemoveFirst(s, x), x) == RemoveFirst(s, x)
  {
    RemoveFirstMultiset(s, x);
    assert x !in multiset(RemoveFirst(s, x));
    RemoveFirstAbsent(RemoveFirst(s, x), x);
  }
}
