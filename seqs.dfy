/**
 * List transformations the service is built from (flattening, mapping,
 * foreign-key selection) and the facts that make them independent of the
 * order in which a channel delivered their input.
 */
module Seqs {

  /** The concatenation of `g(x)` for every `x` of `s`, left to right. */
  function FlatMap<A, B>(g: A -> seq<B>, s: seq<A>): (r: seq<B>)
    decreases |s|
  {
    if s == [] then [] else FlatMap(g, s[..|s| - 1]) + g(s[|s| - 1])
  }

  lemma {:induction false} FlatMapAppend<A, B>(g: A -> seq<B>, a: seq<A>, b: seq<A>)
    ensures FlatMap(g, a + b) == FlatMap(g, a) + FlatMap(g, b)
    decreases |b|
  {
    if b == [] {
      assert a + b == a;
    } else {
      var b' := b[..|b| - 1];
      assert (a + b)[..|a + b| - 1] == a + b';
      FlatMapAppend(g, a, b');
    }
  }

  /** Flattening a permutation yields a permutation: the multiset of what is
      collected depends only on the multiset of inputs, not on their order. */
  lemma {:induction false} FlatMapPermutation<A, B>(g: A -> seq<B>, a: seq<A>, b: seq<A>)
    requires multiset(a) == multiset(b)
    ensures multiset(FlatMap(g, a)) == multiset(FlatMap(g, b))
    decreases |a|
  {
    if a == [] {
      assert |b| == |multiset(b)| == 0;
    } else {
      var x := a[|a| - 1];
      var a' := a[..|a| - 1];
      var j := RemoveOne(a, b);
      var left, right := b[..j], b[j + 1..];
      FlatMapPermutation(g, a', left + right);
      FlatMapSplit(g, left, x, right);
      assert b == left + [x] + right;
      calc {
        multiset(FlatMap(g, a));
        multiset(FlatMap(g, a') + g(x));
        multiset(FlatMap(g, a')) + multiset(g(x));
        multiset(FlatMap(g, left + right)) + multiset(g(x));
        { FlatMapAppend(g, left, right); }
        multiset(FlatMap(g, left)) + multiset(FlatMap(g, right)) + multiset(g(x));
        multiset(FlatMap(g, b));
      }
    }
  }

  /** Where the last element of `a` sits in its permutation `b`, and that
      removing it from both leaves a permutation. */
  lemma RemoveOne<T>(a: seq<T>, b: seq<T>) returns (j: nat)
    requires a != [] && multiset(a) == multiset(b)
    ensures j < |b| && b[j] == a[|a| - 1]
    ensures multiset(a[..|a| - 1]) == multiset(b[..j] + b[j + 1..])
  {
    var x := a[|a| - 1];
    assert a == a[..|a| - 1] + [x];
    assert x in multiset(b);
    j :| 0 <= j < |b| && b[j] == x;
    assert b == b[..j] + [x] + b[j + 1..];
    assert multiset(b) == multiset(b[..j] + b[j + 1..]) + multiset{x};
    assert multiset(a) == multiset(a[..|a| - 1]) + multiset{x};
    assert multiset(a[..|a| - 1]) == multiset(a) - multiset{x};
  }

  lemma FlatMapSplit<A, B>(g: A -> seq<B>, left: seq<A>, x: A, right: seq<A>)
    ensures FlatMap(g, left + [x] + right) == FlatMap(g, left) + g(x) + FlatMap(g, right)
  {
    FlatMapAppend(g, left, [x]);
    FlatMapAppend(g, left + [x], right);
    assert FlatMap(g, [x]) == g(x) by {
      assert [x][..0] == [];
    }
  }

  /** Nothing is collected exactly when every element contributes nothing. */
  lemma {:induction false} FlatMapEmpty<A, B>(g: A -> seq<B>, s: seq<A>)
    ensures FlatMap(g, s) == [] <==> forall i :: 0 <= i < |s| ==> g(s[i]) == []
    decreases |s|
  {
    if s != [] {
      var s' := s[..|s| - 1];
      FlatMapEmpty(g, s');
      assert forall i :: 0 <= i < |s'| ==> s'[i] == s[i];
    }
  }

  /** Everything collected was contributed by some element. */
  lemma {:induction false} FlatMapMembers<A, B>(g: A -> seq<B>, s: seq<A>, y: B)
    requires y in FlatMap(g, s)
    ensures exists i :: 0 <= i < |s| && y in g(s[i])
    decreases |s|
  {
    var s' := s[..|s| - 1];
    if y !in g(s[|s| - 1]) {
      FlatMapMembers(g, s', y);
      var i :| 0 <= i < |s'| && y in g(s'[i]);
      assert s'[i] == s[i];
    }
  }

  /** What a prefix collects is part of what the whole collects. */
  lemma FlatMapPrefix<A, B>(g: A -> seq<B>, s: seq<A>, n: nat)
    requires n <= |s|
    ensures multiset(FlatMap(g, s[..n])) <= multiset(FlatMap(g, s))
  {
    assert s == s[..n] + s[n..];
    FlatMapAppend(g, s[..n], s[n..]);
  }

  lemma FlatMapPair<A, B>(g: A -> seq<B>, a: A, b: A)
    ensures FlatMap(g, [a, b]) == g(a) + g(b)
  {
    assert [a, b][..1] == [a];
    assert [a][..0] == [];
    assert FlatMap(g, [a]) == g(a);
    assert FlatMap(g, [a, b]) == FlatMap(g, [a]) + g(b);
  }

  lemma FilterByKeyPair<T>(a: T, b: T, key: T -> int, k: int)
    ensures FilterByKey([a, b], key, k) == (if key(a) == k then [a] else []) + (if key(b) == k then [b] else [])
  {
    FlatMapPair(x => if key(x) == k then [x] else [], a, b);
  }

  /** `f` applied to every element, order kept. */
  function Map<A, B>(f: A -> B, s: seq<A>): (r: seq<B>)
    ensures |r| == |s|
    ensures forall i :: 0 <= i < |s| ==> r[i] == f(s[i])
  {
    seq(|s|, i requires 0 <= i < |s| => f(s[i]))
  }

  lemma {:induction false} MapIsFlatMap<A, B>(f: A -> B, s: seq<A>)
    ensures Map(f, s) == FlatMap(x => [f(x)], s)
    decreases |s|
  {
    if s != [] {
      var s' := s[..|s| - 1];
      MapIsFlatMap(f, s');
      assert Map(f, s) == Map(f, s') + [f(s[|s| - 1])];
    }
  }

  lemma MapPermutation<A, B>(f: A -> B, a: seq<A>, b: seq<A>)
    requires multiset(a) == multiset(b)
    ensures multiset(Map(f, a)) == multiset(Map(f, b))
  {
    MapIsFlatMap(f, a);
    MapIsFlatMap(f, b);
    FlatMapPermutation(x => [f(x)], a, b);
  }

  /** The elements of `s` whose foreign key `key(x)` equals `k`, order kept:
      the scan-and-match of a join. */
  function FilterByKey<T>(s: seq<T>, key: T -> int, k: int): (r: seq<T>)
  {
    FlatMap(x => if key(x) == k then [x] else [], s)
  }

  /** Selecting by key keeps exactly the occurrences whose key matches. */
  lemma {:induction false} FilterByKeyCount<T>(s: seq<T>, key: T -> int, k: int, x: T)
    ensures multiset(FilterByKey(s, key, k))[x] == if key(x) == k then multiset(s)[x] else 0
    decreases |s|
  {
    if s != [] {
      var s' := s[..|s| - 1];
      assert s == s' + [s[|s| - 1]];
      FilterByKeyCount(s', key, k, x);
    }
  }

  lemma FilterByKeyMembers<T>(s: seq<T>, key: T -> int, k: int)
    ensures forall x :: x in FilterByKey(s, key, k) <==> x in s && key(x) == k
  {
    forall x ensures x in FilterByKey(s, key, k) <==> x in s && key(x) == k {
      FilterByKeyCount(s, key, k, x);
      assert x in FilterByKey(s, key, k) <==> x in multiset(FilterByKey(s, key, k));
      assert x in s <==> x in multiset(s);
    }
  }

  lemma FilterByKeyPermutation<T>(a: seq<T>, b: seq<T>, key: T -> int, k: int)
    requires multiset(a) == multiset(b)
    ensures multiset(FilterByKey(a, key, k)) == multiset(FilterByKey(b, key, k))
  {
    FlatMapPermutation(x => if key(x) == k then [x] else [], a, b);
  }

  /** Selecting by key commutes with a map that keeps the key. */
  lemma {:induction false} FilterByKeyMap<A, B>(f: A -> B, s: seq<A>, keyA: A -> int, keyB: B -> int, k: int)
    requires forall x :: keyB(f(x)) == keyA(x)
    ensures FilterByKey(Map(f, s), keyB, k) == Map(f, FilterByKey(s, keyA, k))
    decreases |s|
  {
    if s != [] {
      var s' := s[..|s| - 1];
      var x := s[|s| - 1];
      FilterByKeyMap(f, s', keyA, keyB, k);
      assert Map(f, s)[..|s| - 1] == Map(f, s');
      FlatMapAppend(x => if keyA(x) == k then [x] else [], s', [x]);
      assert FilterByKey([x], keyA, k) == if keyA(x) == k then [x] else [] by {
        assert [x][..0] == [];
      }
      assert FilterByKey(s, keyA, k) == FilterByKey(s', keyA, k) + FilterByKey([x], keyA, k) by {
        assert s == s' + [x];
      }
      assert Map(f, FilterByKey(s, keyA, k))
          == Map(f, FilterByKey(s', keyA, k)) + Map(f, FilterByKey([x], keyA, k));
    }
  }

  /** One more element scanned: it is selected after the others exactly when
      its key matches. */
  lemma FilterByKeyStep<T>(s: seq<T>, key: T -> int, k: int, i: nat)
    requires i < |s|
    ensures FilterByKey(s[..i + 1], key, k)
         == FilterByKey(s[..i], key, k) + (if key(s[i]) == k then [s[i]] else [])
  {
    assert s[..i + 1][..i] == s[..i];
  }

  /** The scan-and-match loop of a join: keeps, in order, the elements whose
      key is `k`. */
  method Filter<T>(s: seq<T>, key: T -> int, k: int) returns (r: seq<T>)
    ensures r == FilterByKey(s, key, k)
  {
    r := [];
    for i := 0 to |s|
      invariant r == FilterByKey(s[..i], key, k)
    {
      FilterByKeyStep(s, key, k, i);
      if key(s[i]) == k {
        r := r + [s[i]];
      }
    }
    assert s[..|s|] == s;
  }
}
