/**
 * Package tpl: the task envelope carried on branch channels, the bounded
 * `ForEach`, the pool wrapper, and the three-branch `Zip` combinator of
 * `Pool41`, run one branch after the other.
 */
module Tpl {
  import opened Common
  import opened Seqs

  /** One message on a result channel: what a fetch returned, and its error. */
  datatype Task<T> = Task(result: T, err: Errs)

  /** Calls `f` once and carries its result and its error unchanged. */
  function ToTask<T>(f: () -> (T, Errs)): (t: Task<T>)
    ensures (t.result, t.err) == f()
  {
    var (result, err) := f();
    Task(result, err)
  }

  /** `ForEach(input, f, maxGoroutines...)`. The degree starts at
      `NumCPU() - 1` (`numCPU` stands for `runtime.NumCPU()`) and is replaced
      by the first optional argument when that argument exists and is
      positive. `sent` holds what `f` produced for each input, in input order;
      the order in which the messages reach a channel is chosen by the
      receiving branch. */
  method ForEach<T, R>(input: seq<T>, f: T -> R, numCPU: int, maxGoroutines: seq<int>)
    returns (degree: int, sent: seq<R>)
    ensures |maxGoroutines| > 0 && maxGoroutines[0] > 0 ==> degree == maxGoroutines[0]
    ensures |maxGoroutines| == 0 || maxGoroutines[0] <= 0 ==> degree == numCPU - 1
    ensures sent == Map(f, input)
  {
    degree := numCPU - 1;
    if |maxGoroutines| > 0 && maxGoroutines[0] > 0 {
      degree := maxGoroutines[0];
    }
    sent := [];
    var i := 0;
    while i < |input|
      invariant 0 <= i <= |input|
      invariant sent == Map(f, input[..i])
    {
      sent := sent + [f(input[i])];
      i := i + 1;
    }
  }

  /** The pool wrapper: `None` is the unbounded pool `pool.New()` makes. */
  class Pool {
    var maxGoroutines: Option<int>

    constructor ()
      ensures maxGoroutines == None
    {
      maxGoroutines := None;
    }

    /** Bounds the pool and returns the same pool, so calls can be chained. */
    method WithMaxGoroutines(n: int) returns (r: Pool)
      modifies this
      ensures r == this && maxGoroutines == Some(n)
    {
      maxGoroutines := Some(n);
      r := this;
    }
  }

  /** What a branch contributes to the combinator: its output if it
      succeeded, nothing if it failed. */
  function Collected<T>(o: Task<seq<T>>): (r: seq<T>)
  {
    if o.err == [] then o.result else []
  }

  /** `Pool41.Zip`: the three branch outcomes `o1`, `o2`, `o3` (what `f1`,
      `f2`, `f3` returned) are collected one after the other, the combinator
      `f` is applied once to the collected outputs and the aggregated error,
      and the final error is chosen. */
  method Zip<T1, T2, T3>(o1: Task<seq<T1>>, o2: Task<seq<T2>>, o3: Task<seq<T3>>,
                         f: (seq<T1>, seq<T2>, seq<T3>, Errs) -> Task<seq<T1>>)
    returns (result: seq<T1>, err: Errs)
    ensures var called := f(Collected(o1), Collected(o2), Collected(o3), o1.err + o2.err + o3.err);
      && (called.err != [] ==> result == [] && err == called.err)
      && (called.err == [] ==> result == called.result && err == o1.err + o2.err + o3.err)
    ensures err == [] <==>
      o1.err == [] && o2.err == [] && o3.err == []
      && f(o1.result, o2.result, o3.result, []).err == []
  {
    var aggErr: Errs := [];

    var r1: seq<T1> := [];
    if o1.err != [] {
      aggErr := Append(aggErr, o1.err);
    } else {
      r1 := r1 + o1.result;
    }

    var r2: seq<T2> := [];
    if o2.err != [] {
      aggErr := Append(aggErr, o2.err);
    } else {
      r2 := r2 + o2.result;
    }

    var r3: seq<T3> := [];
    if o3.err != [] {
      aggErr := Append(aggErr, o3.err);
    } else {
      r3 := r3 + o3.result;
    }

    assert r1 == Collected(o1) && r2 == Collected(o2) && r3 == Collected(o3);
    assert aggErr == o1.err + o2.err + o3.err;
    var called := f(r1, r2, r3, aggErr);
    if called.err != [] {
      return [], called.err;
    }
    return called.result, aggErr;
  }

  /** The sum of the results a consumer reads, in the order it reads them. */
  function SumResults(ts: seq<Task<int>>): int
    decreases |ts|
  {
    if ts == [] then 0 else SumResults(ts[..|ts| - 1]) + ts[|ts| - 1].result
  }

  /** The consumer of the package's test: reads every message and adds its
      result to an accumulator. */
  method Accumulate(arrivals: seq<Task<int>>) returns (accum: int)
    ensures accum == SumResults(arrivals)
  {
    accum := 0;
    var i := 0;
    while i < |arrivals|
      invariant 0 <= i <= |arrivals|
      invariant accum == SumResults(arrivals[..i])
    {
      assert arrivals[..i + 1][..i] == arrivals[..i];
      accum := accum + arrivals[i].result;
      i := i + 1;
    }
    assert arrivals[..|arrivals|] == arrivals;
  }

  lemma {:induction false} SumResultsAppend(a: seq<Task<int>>, b: seq<Task<int>>)
    ensures SumResults(a + b) == SumResults(a) + SumResults(b)
    decreases |b|
  {
    if b == [] {
      assert a + b == a;
    } else {
      var b' := b[..|b| - 1];
      assert (a + b)[..|a + b| - 1] == a + b';
      assert (a + b)[|a + b| - 1] == b[|b| - 1];
      SumResultsAppend(a, b');
    }
  }

  /** The accumulated sum does not depend on the order of arrival. */
  lemma {:induction false} SumResultsPermutation(a: seq<Task<int>>, b: seq<Task<int>>)
    requires multiset(a) == multiset(b)
    ensures SumResults(a) == SumResults(b)
    decreases |a|
  {
    if a == [] {
      assert |b| == |multiset(b)| == 0;
    } else {
      var j := RemoveOne(a, b);
      var left, right := b[..j], b[j + 1..];
      SumResultsPermutation(a[..|a| - 1], left + right);
      assert b == left + [b[j]] + right;
      SumResultsAppend(left, right);
      SumResultsAppend(left, [b[j]]);
      SumResultsAppend(left + [b[j]], right);
      assert SumResults([b[j]]) == b[j].result by {
        assert [b[j]][..0] == [];
      }
    }
  }

  lemma {:induction false} SumOfIndices(ts: seq<Task<int>>)
    requires forall k :: 0 <= k < |ts| ==> ts[k].result == k
    ensures 2 * SumResults(ts) == |ts| * (|ts| - 1)
    decreases |ts|
  {
    if ts != [] {
      var n := |ts|;
      SumOfIndices(ts[..n - 1]);
      assert 2 * SumResults(ts) == (n - 1) * (n - 2) + 2 * (n - 1);
    }
  }

  /** The package's test: the numbers 0 to 9 sent through `ForEach` and read
      back in any order add up to 45. */
  lemma NumbersAddUpInAnyOrder(arrivals: seq<Task<int>>)
    requires multiset(arrivals) == multiset(Map(n => ToTask(() => (n, [])), [0, 1, 2, 3, 4, 5, 6, 7, 8, 9]))
    ensures SumResults(arrivals) == 45
  {
    var numbers := [0, 1, 2, 3, 4, 5, 6, 7, 8, 9];
    var sent := Map(n => ToTask(() => (n, [])), numbers);
    SumResultsPermutation(arrivals, sent);
    forall k | 0 <= k < |sent| ensures sent[k].result == k {
      assert numbers[k] == k;
    }
    SumOfIndices(sent);
  }
}
