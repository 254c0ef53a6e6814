/** The example payloads of function-transformations/Memoize.js and the
    traces its usage section prints. Numbers are unbounded integers, not
    JavaScript doubles. */
module MemoizeExamples {
  import opened Memoization

  /** `sum`: the two-argument addition. */
  function Sum(a: int, b: int): int {
    a + b
  }

  /** `factorial`: 1 for every argument up to 1, otherwise `n * factorial(n - 1)`. */
  function Factorial(n: int): (r: int)
    ensures r >= 1
    ensures n >= 1 ==> r >= n
    decreases n
  {
    if n <= 1 then 1 else n * Factorial(n - 1)
  }

  /** `fib`: 1 for every argument up to 1, otherwise the sum of the two before. */
  function Fib(n: int): (r: int)
    ensures r >= 1
    ensures n >= 2 ==> r >= n
    decreases n
  {
    if n <= 1 then 1 else Fib(n - 1) + Fib(n - 2)
  }

  /** The values the usage section logs for `factorial`. */
  lemma {:induction false} FactorialValues()
    ensures Factorial(2) == 2 && Factorial(3) == 6
  {
    assert Factorial(1) == 1;
  }

  /** The value the usage section logs for `fib(5)`. */
  lemma {:induction false} FibValues()
    ensures Fib(5) == 8
  {
    assert Fib(2) == 2 && Fib(3) == 3 && Fib(4) == 5;
  }

  /** The argument list of `sum` is a pair. */
  function SumOfArgs(args: (int, int)): int {
    Sum(args.0, args.1)
  }

  /** `memoizedSum`: (2, 2), (2, 2), the count, (1, 2), the count, as the
      usage section logs them. */
  method SumDemo() returns (log: seq<int>)
    ensures log == [4, 4, 1, 3, 2]
  {
    var memoizedSum := new MemoizedFn(SumOfArgs);
    var a := memoizedSum.Call((2, 2));
    var b := memoizedSum.Call((2, 2));
    var c := memoizedSum.GetCallCount();
    var d := memoizedSum.Call((1, 2));
    var e := memoizedSum.GetCallCount();
    log := [a, b, c, d, e];
  }

  /** `memoizedFactorial`: (2), (3), (2), the count, (3), the count. The
      recursion inside `factorial` calls the unmemoized function, so only the
      two top-level misses are counted. */
  method FactorialDemo() returns (log: seq<int>)
    ensures log == [2, 6, 2, 2, 6, 2]
  {
    var memoizedFactorial := new MemoizedFn(Factorial);
    FactorialValues();
    var a := memoizedFactorial.Call(2);
    var b := memoizedFactorial.Call(3);
    var c := memoizedFactorial.Call(2);
    var d := memoizedFactorial.GetCallCount();
    var e := memoizedFactorial.Call(3);
    var f := memoizedFactorial.GetCallCount();
    log := [a, b, c, d, e, f];
  }

  /** `memoizedFib`: (5), then the count, which is 1. */
  method FibDemo() returns (log: seq<int>)
    ensures log == [8, 1]
  {
    var memoizedFib := new MemoizedFn(Fib);
    var a := memoizedFib.Call(5);
    FibValues();
    var b := memoizedFib.GetCallCount();
    log := [a, b];
  }

  /** The same `memoizedSum` trace on the value model: four call results and
      two distinct argument lists counted. */
  lemma SumTrace()
    ensures Run(SumOfArgs, Empty(), [(2, 2), (2, 2)]).1 == [4, 4]
    ensures Run(SumOfArgs, Empty(), [(2, 2), (2, 2)]).0.callCount == 1
    ensures Run(SumOfArgs, Empty(), [(2, 2), (2, 2), (1, 2)]).1 == [4, 4, 3]
    ensures Run(SumOfArgs, Empty(), [(2, 2), (2, 2), (1, 2)]).0.callCount == 2
  {
    var calls := [(2, 2), (2, 2), (1, 2)];
    RunConsistent(SumOfArgs, Empty(), calls);
    RunConsistent(SumOfArgs, Empty(), calls[..2]);
    assert (set a | a in calls) == {(2, 2), (1, 2)};
    assert (set a | a in calls[..2]) == {(2, 2)};
  }

  /** The `memoizedSum` calls (2, 2), (2, 2), (1, 2) issued in one go through
      `CallAll` on the object: results 4, 4, 3 and a count of 2, the number of
      distinct argument lists. */
  method SumCallAllDemo() returns (results: seq<int>, count: nat)
    ensures results == [4, 4, 3] && count == 2
  {
    var memoizedSum := new MemoizedFn(SumOfArgs);
    var calls := [(2, 2), (2, 2), (1, 2)];
    results := CallAll(memoizedSum, calls);
    count := memoizedSum.GetCallCount();
    assert (set a | a in calls) == {(2, 2), (1, 2)};
  }
}
