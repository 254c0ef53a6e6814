/** Model of `createCounter` from Counter.js: a closure over one integer that
    returns its current value and then increments it. */
module Counters {

  /** The values returned by the first `k` calls of a counter created with `start`. */
  function Outputs(start: int, k: nat): (r: seq<int>)
    ensures |r| == k
    ensures k > 0 ==> r[k - 1] == start + k - 1
    decreases k
  {
    if k == 0 then [] else Outputs(start, k - 1) + [start + k - 1]
  }

  /** The outputs are the consecutive integers from `start`: there are `k` of
      them, the first is `start`, and each is one more than the one before. */
  lemma {:induction false} OutputsConsecutive(start: int, k: nat)
    ensures |Outputs(start, k)| == k
    ensures forall i :: 0 <= i < k ==> Outputs(start, k)[i] == start + i
    decreases k
  {
    if k > 0 {
      OutputsConsecutive(start, k - 1);
    }
  }

  /** The closure `createCounter(n)` returns: the captured `n` is a field. */
  class Counter {
    var n: int

    /** `createCounter(start)`. */
    constructor (start: int)
      ensures n == start
    {
      n := start;
    }

    /** One call of the closure: `return n++`. */
    method Next() returns (r: int)
      modifies this
      ensures r == old(n)
      ensures n == old(n) + 1
    {
      r := n;
      n := n + 1;
    }
  }

  /** `k` calls in a row return the next `k` values of the counter and leave
      it `k` higher. */
  method CallTimes(c: Counter, k: nat) returns (outs: seq<int>)
    modifies c
    ensures outs == Outputs(old(c.n), k)
    ensures c.n == old(c.n) + k
  {
    outs := [];
    var i := 0;
    while i < k
      invariant 0 <= i <= k
      invariant outs == Outputs(old(c.n), i)
      invariant c.n == old(c.n) + i
    {
      var r := c.Next();
      outs := outs + [r];
      i := i + 1;
    }
  }

  /** The usage section: `createCounter(10)` called three times logs 10, 11, 12. */
  method Example() returns (outs: seq<int>)
    ensures outs == [10, 11, 12]
  {
    var counter := new Counter(10);
    outs := CallTimes(counter, 3);
    OutputsConsecutive(10, 3);
  }
}
