/**
 * Package gpars: a duplicate of the task envelope, `ForEach` and the pool
 * wrapper of package tpl, with the same behaviour.
 */
module Gpars {
  import opened Common
  import opened Seqs

  datatype Task<T> = Task(result: T, err: Errs)

  /** Calls `f` once and carries its result and its error unchanged. */
  function ToTask<T>(f: () -> (T, Errs)): (t: Task<T>)
    ensures (t.result, t.err) == f()
  {
    var (result, err) := f();
    Task(result, err)
  }

  /** `ForEach(input, f, maxGoroutines...)`: degree `NumCPU() - 1`
      (`numCPU` stands for `runtime.NumCPU()`), replaced by the first optional
      argument only when it exists and is positive; `sent` holds what `f`
      produced for each input, in input order. */
  method ForEach<T, R>(input: seq<T>, f: T -> R, numCPU: int, maxGoroutines: seq<int>)
    returns (degree: int, sent: seq<R>)
    ensures |maxGoroutines| > 0 && maxGoroutines[0] > 0 ==> degree == maxGoroutines[0]
    ensures |maxGoroutines| == 0 || maxGoroutines[0] <= 0 ==> degree == numCPU - 1
    ensures sent == Map(f, input)
  {
    degree := numCPU - 1;
    if |maxGoroutines| > 0 && maxGoroutines[0] > 0 {
      degree := maxGoroutines[0];
    }
    sent := [];
    var i := 0;
    while i < |input|
      invariant 0 <= i <= |input|
      invariant sent == Map(f, input[..i])
    {
      sent := sent + [f(input[i])];
      i := i + 1;
    }
  }

  /** The pool wrapper: `None` is the unbounded pool `pool.New()` makes. */
  class Pool {
    var maxGoroutines: Option<int>

    constructor ()
      ensures maxGoroutines == None
    {
      maxGoroutines := None;
    }

    /** Bounds the pool and returns the same pool. */
    method WithMaxGoroutines(n: int) returns (r: Pool)
      modifies this
      ensures r == this && maxGoroutines == Some(n)
    {
      maxGoroutines := Some(n);
      r := this;
    }
  }
}
