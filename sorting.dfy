/**
 * `slices.SortFunc(xs, func(a, b) int { return cmp.Compare(a.ID, b.ID) })`:
 * sorting a slice in place, ascending by an integer key.
 *
 * `SortBy` is the specification (insertion into a sorted prefix);
 * `SortInPlace` sorts an array and is proved to produce exactly `SortBy`.
 * Only sortedness and permutation are claimed as properties, because the
 * Go sort is not stable: the order of equal keys is one of those it allows.
 */
module Sorting {

  ghost predicate SortedBy<T>(s: seq<T>, key: T -> int)
  {
    forall i, j :: 0 <= i < j < |s| ==> key(s[i]) <= key(s[j])
  }

  /** `x` placed after the last element of `s` whose key is not greater. */
  function Insert<T>(s: seq<T>, x: T, key: T -> int): (r: seq<T>)
    decreases |s|
  {
    if s == [] || key(s[|s| - 1]) <= key(x) then s + [x]
    else Insert(s[..|s| - 1], x, key) + [s[|s| - 1]]
  }

  function SortBy<T>(s: seq<T>, key: T -> int): (r: seq<T>)
    decreases |s|
  {
    if s == [] then [] else Insert(SortBy(s[..|s| - 1], key), s[|s| - 1], key)
  }

  lemma {:induction false} InsertPermutation<T>(s: seq<T>, x: T, key: T -> int)
    ensures multiset(Insert(s, x, key)) == multiset(s) + multiset{x}
    ensures |Insert(s, x, key)| == |s| + 1
    decreases |s|
  {
    if s != [] && key(s[|s| - 1]) > key(x) {
      var s' := s[..|s| - 1];
      assert s == s' + [s[|s| - 1]];
      InsertPermutation(s', x, key);
    }
  }

  lemma SortedSnoc<T>(r: seq<T>, y: T, key: T -> int)
    requires SortedBy(r, key)
    requires forall k :: 0 <= k < |r| ==> key(r[k]) <= key(y)
    ensures SortedBy(r + [y], key)
  {
  }

  lemma {:induction false} InsertSorted<T>(s: seq<T>, x: T, key: T -> int)
    requires SortedBy(s, key)
    ensures SortedBy(Insert(s, x, key), key)
    decreases |s|
  {
    if s == [] || key(s[|s| - 1]) <= key(x) {
      SortedSnoc(s, x, key);
    } else {
      var s', last := s[..|s| - 1], s[|s| - 1];
      InsertSorted(s', x, key);
      InsertPermutation(s', x, key);
      var r := Insert(s', x, key);
      forall k | 0 <= k < |r| ensures key(r[k]) <= key(last) {
        assert r[k] in multiset(r);
        assert r[k] == x || r[k] in multiset(s');
      }
      SortedSnoc(r, last, key);
    }
  }

  /** The sort returns its input, rearranged into ascending key order. */
  lemma {:induction false} SortBySortedPermutation<T>(s: seq<T>, key: T -> int)
    ensures SortedBy(SortBy(s, key), key)
    ensures multiset(SortBy(s, key)) == multiset(s)
    ensures |SortBy(s, key)| == |s|
    decreases |s|
  {
    if s != [] {
      var s' := s[..|s| - 1];
      assert s == s' + [s[|s| - 1]];
      SortBySortedPermutation(s', key);
      InsertSorted(SortBy(s', key), s[|s| - 1], key);
      InsertPermutation(SortBy(s', key), s[|s| - 1], key);
    }
  }

  /** Insertion at a known position: the shape the in-place sort produces. */
  lemma {:induction false} InsertAt<T>(s: seq<T>, x: T, key: T -> int, j: nat)
    requires j <= |s|
    requires j == 0 || key(s[j - 1]) <= key(x)
    requires forall k :: j <= k < |s| ==> key(s[k]) > key(x)
    ensures Insert(s, x, key) == s[..j] + [x] + s[j..]
    decreases |s|
  {
    if j < |s| {
      var s' := s[..|s| - 1];
      InsertAt(s', x, key, j);
      assert s'[..j] == s[..j];
      assert s'[j..] + [s[|s| - 1]] == s[j..];
    }
  }

  /** Sorts `a` in place by `key`, moving each element left past the
      greater keys before it. */
  method SortInPlace<T>(a: array<T>, key: T -> int)
    modifies a
    ensures a[..] == SortBy(old(a[..]), key)
  {
    ghost var input := a[..];
    var i := 0;
    while i < a.Length
      invariant 0 <= i <= a.Length
      invariant a[..i] == SortBy(input[..i], key)
      invariant a[i..] == input[i..]
    {
      assert a[i + 1..] == a[i..][1..] == input[i..][1..] == input[i + 1..];
      InsertLast(a, i, key);
      assert input[..i + 1][..i] == input[..i];
      i := i + 1;
    }
    assert input[..a.Length] == input;
  }

  /** One step of `SortInPlace`: inserts `a[i]` into the prefix `a[..i]`. */
  method InsertLast<T>(a: array<T>, i: nat, key: T -> int)
    requires i < a.Length
    modifies a
    ensures a[..i + 1] == Insert(old(a[..i]), old(a[i]), key)
    ensures a[i + 1..] == old(a[i + 1..])
  {
    ghost var prefix := a[..i];
    var x := a[i];
    var j := i;
    while j > 0 && key(a[j - 1]) > key(x)
      invariant 0 <= j <= i
      invariant forall k :: 0 <= k < j ==> a[k] == prefix[k]
      invariant forall k :: j < k <= i ==> a[k] == prefix[k - 1]
      invariant forall k :: j <= k < i ==> key(prefix[k]) > key(x)
      invariant a[i + 1..] == old(a[i + 1..])
    {
      a[j] := a[j - 1];
      j := j - 1;
    }
    a[j] := x;
    InsertAt(prefix, x, key, j);
    assert a[..i + 1] == prefix[..j] + [x] + prefix[j..];
  }
}
