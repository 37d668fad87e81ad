/**
 * Stable sorting, as Python's `sorted(..., reverse=True)` and `list.sort(..., reverse=True)` do it.
 *
 * The order is given by `ge`, a total preorder: `ge(a, b)` holds when `a` may come before `b`.
 * Elements that are equivalent under `ge` (each `ge` the other: equal scores) keep their relative
 * input order.
 */
module Sorting {
  import opened Tables

  ghost predicate TotalPreorder<T(!new)>(ge: (T, T) -> bool) {
    && (forall a, b :: ge(a, b) || ge(b, a))
    && (forall a, b, c :: ge(a, b) && ge(b, c) ==> ge(a, c))
  }

  ghost predicate Sorted<T>(s: seq<T>, ge: (T, T) -> bool) {
    forall i, j :: 0 <= i < j < |s| ==> ge(s[i], s[j])
  }

  /** `a` and `b` are equivalent: neither may be placed strictly before the other. */
  predicate Equivalent<T>(a: T, b: T, ge: (T, T) -> bool) {
    ge(a, b) && ge(b, a)
  }

  /** The elements of `s` equivalent to `z`, in their order in `s`. */
  function Peers<T>(s: seq<T>, z: T, ge: (T, T) -> bool): seq<T> {
    if s == [] then []
    else (if Equivalent(s[0], z, ge) then [s[0]] else []) + Peers(s[1..], z, ge)
  }

  /** Inserts `x` after every element that may precede it. */
  function Insert<T>(s: seq<T>, x: T, ge: (T, T) -> bool): seq<T> {
    if s == [] then [x]
    else if ge(s[0], x) then [s[0]] + Insert(s[1..], x, ge)
    else [x] + s
  }

  /** Stable insertion sort: the functional reference of every stable sort in the model. */
  function Sort<T>(s: seq<T>, ge: (T, T) -> bool): seq<T> {
    if s == [] then [] else Insert(Sort(s[..|s| - 1], ge), s[|s| - 1], ge)
  }

  // ---------------------------------------------------------------- permutation

  lemma {:induction false} InsertMultiset<T>(s: seq<T>, x: T, ge: (T, T) -> bool)
    ensures multiset(Insert(s, x, ge)) == multiset(s) + multiset{x}
  {
    if s != [] && ge(s[0], x) {
      InsertMultiset(s[1..], x, ge);
      assert s == [s[0]] + s[1..];
    }
  }

  /** The sorted sequence is a permutation of the input. */
  lemma {:induction false} SortPermutation<T>(s: seq<T>, ge: (T, T) -> bool)
    ensures multiset(Sort(s, ge)) == multiset(s)
    ensures |Sort(s, ge)| == |s|
  {
    if s != [] {
      var init := s[..|s| - 1];
      SortPermutation(init, ge);
      InsertMultiset(Sort(init, ge), s[|s| - 1], ge);
      assert s == init + [s[|s| - 1]];
    }
  }

  // ---------------------------------------------------------------- sortedness

  lemma {:induction false} InsertSorted<T(!new)>(s: seq<T>, x: T, ge: (T, T) -> bool)
    requires TotalPreorder(ge) && Sorted(s, ge)
    ensures Sorted(Insert(s, x, ge), ge)
    ensures multiset(Insert(s, x, ge)) == multiset(s) + multiset{x}
  {
    InsertMultiset(s, x, ge);
    if s != [] && ge(s[0], x) {
      var tail := s[1..];
      InsertSorted(tail, x, ge);
      var r := Insert(tail, x, ge);
      InsertMultiset(tail, x, ge);
      forall k | 0 <= k < |r| ensures ge(s[0], r[k]) {
        assert r[k] in multiset(r);
        assert r[k] in multiset(tail) || r[k] == x;
        if r[k] != x {
          var m :| 0 <= m < |tail| && tail[m] == r[k];
          assert tail[m] == s[m + 1];
        }
      }
    }
  }

  /** The sorted sequence is in `ge` order. */
  lemma {:induction false} SortSorted<T(!new)>(s: seq<T>, ge: (T, T) -> bool)
    requires TotalPreorder(ge)
    ensures Sorted(Sort(s, ge), ge)
  {
    if s != [] {
      SortSorted(s[..|s| - 1], ge);
      InsertSorted(Sort(s[..|s| - 1], ge), s[|s| - 1], ge);
    }
  }

  // ---------------------------------------------------------------- stability

  lemma {:induction false} PeersAppend<T>(a: seq<T>, b: seq<T>, z: T, ge: (T, T) -> bool)
    ensures Peers(a + b, z, ge) == Peers(a, z, ge) + Peers(b, z, ge)
  {
    if a == [] {
      assert a + b == b;
    } else {
      var head := if Equivalent(a[0], z, ge) then [a[0]] else [];
      assert (a + b)[0] == a[0] && (a + b)[1..] == a[1..] + b;
      PeersUnfold(a + b, z, ge);
      PeersUnfold(a, z, ge);
      PeersAppend(a[1..], b, z, ge);
      assert head + (Peers(a[1..], z, ge) + Peers(b, z, ge)) == (head + Peers(a[1..], z, ge)) + Peers(b, z, ge);
    }
  }

  /** No element that must follow `x` is equivalent to an element equivalent to `x`. */
  lemma {:induction false} PeersNone<T(!new)>(s: seq<T>, x: T, z: T, ge: (T, T) -> bool)
    requires TotalPreorder(ge) && Equivalent(x, z, ge)
    requires forall k :: 0 <= k < |s| ==> !ge(s[k], x)
    ensures Peers(s, z, ge) == []
  {
    if s != [] {
      PeersNone(s[1..], x, z, ge);
    }
  }

  lemma {:induction false} InsertPeers<T(!new)>(s: seq<T>, x: T, z: T, ge: (T, T) -> bool)
    requires TotalPreorder(ge) && Sorted(s, ge)
    ensures Peers(Insert(s, x, ge), z, ge) == Peers(s, z, ge) + Peers([x], z, ge)
  {
    var px := Peers([x], z, ge);
    if s == [] {
      assert Insert(s, x, ge) == [x];
      assert Peers(s, z, ge) + px == [] + px == px;
    } else if ge(s[0], x) {
      var tail := s[1..];
      var head := if Equivalent(s[0], z, ge) then [s[0]] else [];
      assert Sorted(tail, ge) by {
        forall i, j | 0 <= i < j < |tail| ensures ge(tail[i], tail[j]) {
          assert tail[i] == s[i + 1] && tail[j] == s[j + 1];
        }
      }
      InsertPeers(tail, x, z, ge);
      var r := Insert(s, x, ge);
      assert r[0] == s[0] && r[1..] == Insert(tail, x, ge);
      PeersUnfold(r, z, ge);
      PeersUnfold(s, z, ge);
      assert head + (Peers(tail, z, ge) + px) == (head + Peers(tail, z, ge)) + px;
    } else {
      assert Insert(s, x, ge) == [x] + s;
      PeersAppend([x], s, z, ge);
      if Equivalent(x, z, ge) {
        forall k | 0 <= k < |s| ensures !ge(s[k], x) {
          if k > 0 {
            assert ge(s[0], s[k]);
          }
        }
        PeersNone(s, x, z, ge);
        assert px + [] == [] + px;
      } else {
        PeersUnfold([x], z, ge);
        assert [x][1..] == [];
        assert px == [];
        assert Peers(s, z, ge) + [] == [] + Peers(s, z, ge);
      }
    }
  }

  lemma PeersUnfold<T>(s: seq<T>, z: T, ge: (T, T) -> bool)
    requires s != []
    ensures Peers(s, z, ge) == (if Equivalent(s[0], z, ge) then [s[0]] else []) + Peers(s[1..], z, ge)
  {
  }

  /** Stability: the sort keeps every class of equivalent elements in input order. */
  lemma {:induction false} SortStable<T(!new)>(s: seq<T>, z: T, ge: (T, T) -> bool)
    requires TotalPreorder(ge)
    ensures Peers(Sort(s, ge), z, ge) == Peers(s, z, ge)
  {
    if s != [] {
      var init, x := s[..|s| - 1], s[|s| - 1];
      SortStable(init, z, ge);
      SortSorted(init, ge);
      InsertPeers(Sort(init, ge), x, z, ge);
      assert s == init + [x];
      PeersAppend(init, [x], z, ge);
    }
  }

  // ---------------------------------------------------------------- in place

  /** A sorted sequence splits around the insertion point of `x`. */
  lemma {:induction false} InsertAt<T>(s: seq<T>, x: T, j: nat, ge: (T, T) -> bool)
    requires j <= |s|
    requires forall k :: 0 <= k < j ==> ge(s[k], x)
    requires j < |s| ==> !ge(s[j], x)
    ensures Insert(s, x, ge) == s[..j] + [x] + s[j..]
  {
    if j > 0 {
      InsertAt(s[1..], x, j - 1, ge);
      assert s[1..][..j - 1] == s[1..j];
      assert s[..j] == [s[0]] + s[1..j];
      assert s[1..][j - 1..] == s[j..];
    }
  }

  /** The elements of `s[..j] + [x] + s[j..]`, position by position. */
  lemma SpliceIndex<T>(s: seq<T>, x: T, j: nat)
    requires j <= |s|
    ensures var r := s[..j] + [x] + s[j..];
      && |r| == |s| + 1 && r[j] == x
      && (forall k :: 0 <= k < j ==> r[k] == s[k])
      && (forall k :: j < k < |r| ==> r[k] == s[k - 1])
  {
  }

  /** Moves `a[i]` left past the elements of the sorted prefix `a[..i]` that it must precede. */
  method InsertInPlace<T(!new)>(a: array<T>, i: nat, ge: (T, T) -> bool)
    requires TotalPreorder(ge)
    requires i < a.Length && Sorted(a[..i], ge)
    modifies a
    ensures a[..i + 1] == Insert(old(a[..i]), old(a[i]), ge)
    ensures a[i + 1..] == old(a[i + 1..])
  {
    ghost var sorted := a[..i];
    var x := a[i];
    var j := i;
    while j > 0 && !ge(a[j - 1], x)
      invariant 0 <= j <= i
      invariant forall k :: 0 <= k < j ==> a[k] == sorted[k]
      invariant forall k :: j < k <= i ==> a[k] == sorted[k - 1]
      invariant forall k :: i < k < a.Length ==> a[k] == old(a[k])
      invariant j < i ==> !ge(sorted[j], x)
    {
      a[j] := a[j - 1];
      j := j - 1;
    }
    a[j] := x;
    ShiftedIsInsert(a[..], sorted, x, i, j, ge);
  }

  /** The prefix left by the shifting loop of `InsertInPlace` is the insertion of `x`. */
  lemma ShiftedIsInsert<T(!new)>(b: seq<T>, sorted: seq<T>, x: T, i: nat, j: nat, ge: (T, T) -> bool)
    requires TotalPreorder(ge) && Sorted(sorted, ge) && |sorted| == i && j <= i < |b|
    requires forall k :: 0 <= k < j ==> b[k] == sorted[k]
    requires b[j] == x
    requires forall k :: j < k <= i ==> b[k] == sorted[k - 1]
    requires j > 0 ==> ge(sorted[j - 1], x)
    requires j < i ==> !ge(sorted[j], x)
    ensures b[..i + 1] == Insert(sorted, x, ge)
  {
    forall k | 0 <= k < j ensures ge(sorted[k], x) {
      assert ge(sorted[k], sorted[j - 1]) || k == j - 1;
    }
    InsertAt(sorted, x, j, ge);
    SpliceIndex(sorted, x, j);
    assert b[..i + 1] == sorted[..j] + [x] + sorted[j..];
  }

  /**
   * `list.sort(key=..., reverse=True)` on an array: insertion sort that shifts each element
   * left past the elements it must precede. The result is the stable sort of the input.
   */
  method SortInPlace<T(!new)>(a: array<T>, ge: (T, T) -> bool)
    requires TotalPreorder(ge)
    modifies a
    ensures a[..] == Sort(old(a[..]), ge)
  {
    ghost var input := a[..];
    var i := 0;
    while i < a.Length
      invariant 0 <= i <= a.Length
      invariant a[..i] == Sort(input[..i], ge)
      invariant a[i..] == input[i..]
    {
      SortSorted(input[..i], ge);
      assert a[i] == input[i];
      InsertInPlace(a, i, ge);
      assert input[..i + 1][..i] == input[..i];
      i := i + 1;
    }
    assert input[..a.Length] == input;
  }

  /** Filtering a sorted sequence leaves it sorted. */
  lemma {:induction false} WhereKeepsSorted<T(!new)>(s: seq<T>, p: T -> bool, ge: (T, T) -> bool)
    requires Sorted(s, ge)
    ensures Sorted(Where(s, p), ge)
  {
    if s != [] {
      var tail := Where(s[1..], p);
      WhereKeepsSorted(s[1..], p, ge);
      if p(s[0]) {
        var r := Where(s, p);
        assert r == [s[0]] + tail;
        forall j | 1 <= j < |r| ensures ge(r[0], r[j]) {
          assert r[j] in s[1..];
        }
      }
    }
  }
}
