# Memoize, counter and rhombus rows, modelled in Dafny

This project models three small JavaScript exercises and proves what they
promise:

- `memoize` (function-transformations/Memoize.js) wraps a pure function
  with a cache keyed by the argument list and a counter of calls that reached
  the wrapped function. `memoize.dfy` models the returned closure as the class
  `Memoization.MemoizedFn`. Its `cache` is a `map` and its `callCount` a field,
  and both are updated in place. One call on the object (`Call`) is proved
  equal to one `Step` of a value model. A sequence of calls on the object
  (`CallAll`) is proved equal to `Run`, so the lemmas about `Run` hold of the
  object too. The invariant is that every stored value is `fn` of its key and
  that the counter equals the number of stored keys. It holds because the
  wrapped function here always returns; see "Left out" for a throwing one.
  `memoize_examples.dfy` holds the payloads `sum`, `factorial` and `fib` and
  the usage traces the file logs.
- `createCounter` (Counter.js) is a closure over one integer that returns it
  and then increments it. `counter.dfy` models it as the class
  `Counters.Counter` with one field.
- The row builder of patterns/rhombus.js is an outer `for` loop over the rows.
  Its body runs two inner loops one after the other, appending to a string
  started empty for each row. `rhombus.dfy` keeps them as loops
  in `Rhombus.BuildRows`, which is proved equal to the row function
  `Rhombus.Rows`. Lemmas prove each row's shape.

The argument list of a memoized function is the type parameter `A`. The
source turns it into a key with `JSON.stringify`. The model takes that
serialisation to be injective, so two calls share a cache entry exactly when
their argument lists are equal. `memoizedSum` takes a pair `(int, int)`, and
`memoizedFactorial` and `memoizedFib` take one `int`.

## Model

| member | source | states |
|---|---|---|
| `Memoization.MemoizedFn.constructor` | leetcode-30-days-of-javascript/function-transformations/Memoize.js:6-8 | `memoize(fn)` starts with an empty cache and a call count of 0, and the invariant holds |
| `Memoization.MemoizedFn.Call` | leetcode-30-days-of-javascript/function-transformations/Memoize.js:15-24 | the result is always `fn(args)`. On a hit it is the stored value, and the cache and count are unchanged. On a miss the result is stored under `args` and the count rises by exactly 1. The invariant is kept, and the new state is one `Step` of the value model |
| `Memoization.MemoizedFn.GetCallCount` | leetcode-30-days-of-javascript/function-transformations/Memoize.js:30 | returns the call count, which equals the number of keys in the cache |
| `Memoization.Empty` | leetcode-30-days-of-javascript/function-transformations/Memoize.js:7-8 | the state of a fresh memoized function: no keys and a count of 0 |
| `Memoization.Step` | leetcode-30-days-of-javascript/function-transformations/Memoize.js:15-24 | one call as a value. A hit returns the stored value and leaves the state alone. A miss returns `fn(args)` and raises the count by 1. Either way the keys afterwards are the old keys plus `args`, and `args` maps to the returned value |
| `Memoization.Run` | leetcode-30-days-of-javascript/function-transformations/Memoize.js:15-24 | a sequence of calls as a value. It gives one result per call. The keys only grow, and the count rises by at most the number of calls |
| `Memoization.CallAll` | leetcode-30-days-of-javascript/function-transformations/Memoize.js:15-24 | successive calls on the object leave it in the state `Run` gives and keep the invariant. Call `i` returns `fn(calls[i])`, and the cache gains exactly the argument lists called |
| `Memoization.EmptyConsistent` | leetcode-30-days-of-javascript/function-transformations/Memoize.js:7-8 | a fresh state (no entries, count 0, as `Empty` states) satisfies the invariant for every wrapped function |
| `Memoization.StepOnlyAdds` | leetcode-30-days-of-javascript/function-transformations/Memoize.js:17-22 | a call adds at most its own key, and it never overwrites or removes an existing entry |
| `Memoization.StepConsistent` | leetcode-30-days-of-javascript/function-transformations/Memoize.js:15-24 | a call keeps the invariant (count = number of keys, stored values = `fn` of the key), and hit or miss it returns `fn(args)` |
| `Memoization.RunConsistent` | leetcode-30-days-of-javascript/function-transformations/Memoize.js:15-24 | over any sequence of calls the invariant holds and the i-th result is `fn` of the i-th argument list. The final keys are the old keys plus every argument list called |
| `Memoization.RunOnlyAdds` | leetcode-30-days-of-javascript/function-transformations/Memoize.js:17-22 | over any sequence of calls, no stored entry changes or disappears |
| `Memoization.CountIsDistinctCalls` | leetcode-30-days-of-javascript/function-transformations/Memoize.js:17-22 | from a fresh memoized function, the call count is the number of distinct argument lists called |
| `MemoizeExamples.Sum` | leetcode-30-days-of-javascript/function-transformations/Memoize.js:43 | the payload definition `a + b`, with no contract of its own. `SumDemo`, `SumTrace` and `SumCallAllDemo` prove the values the trace logs |
| `MemoizeExamples.Factorial` | leetcode-30-days-of-javascript/function-transformations/Memoize.js:51 | `factorial(n)` is at least 1, and at least `n` when `n >= 1` |
| `MemoizeExamples.Fib` | leetcode-30-days-of-javascript/function-transformations/Memoize.js:59 | `fib(n)` is at least 1, and at least `n` when `n >= 2` |
| `MemoizeExamples.FactorialValues` | leetcode-30-days-of-javascript/function-transformations/Memoize.js:70-71 | `factorial(2)` is 2 and `factorial(3)` is 6, the values the trace logs |
| `MemoizeExamples.FibValues` | leetcode-30-days-of-javascript/function-transformations/Memoize.js:78 | `fib(5)` is 8, the value the trace logs |
| `MemoizeExamples.SumDemo` | leetcode-30-days-of-javascript/function-transformations/Memoize.js:63-67 | the `memoizedSum` trace logs 4, 4, 1, 3, 2 |
| `MemoizeExamples.FactorialDemo` | leetcode-30-days-of-javascript/function-transformations/Memoize.js:70-75 | the `memoizedFactorial` trace logs 2, 6, 2, 2, 6, 2. The recursion calls the unmemoized function, so the count is 2 |
| `MemoizeExamples.FibDemo` | leetcode-30-days-of-javascript/function-transformations/Memoize.js:78-79 | `memoizedFib(5)` is 8, with a call count of 1 |
| `MemoizeExamples.SumTrace` | leetcode-30-days-of-javascript/function-transformations/Memoize.js:63-67 | the same `memoizedSum` trace on the value model: results 4, 4, then 3, with counts 1 and then 2 |
| `MemoizeExamples.SumCallAllDemo` | leetcode-30-days-of-javascript/function-transformations/Memoize.js:63-67 | the `memoizedSum` calls issued through `CallAll` on the object return 4, 4, 3. The count is then 2, the number of distinct argument lists |
| `Counters.Outputs` | leetcode-30-days-of-javascript/Counter.js:9 | the values returned by `k` calls: there are `k` of them, and the last is `start + k - 1` |
| `Counters.Counter.constructor` | leetcode-30-days-of-javascript/Counter.js:7 | `createCounter(n)` stores `n` |
| `Counters.Counter.Next` | leetcode-30-days-of-javascript/Counter.js:8-10 | a call returns the stored value from before the call (post-increment). It raises the stored value by exactly 1 and changes nothing else |
| `Counters.CallTimes` | leetcode-30-days-of-javascript/Counter.js:8-10 | `k` calls return `Outputs(n, k)` and leave the stored value at `n + k` |
| `Counters.OutputsConsecutive` | leetcode-30-days-of-javascript/Counter.js:7-10 | the outputs of `k` calls are `n, n + 1, …, n + k - 1`. The first is `n`, and call `i` returns `n + i - 1` |
| `Counters.Example` | leetcode-30-days-of-javascript/Counter.js:14-17 | `createCounter(10)` called three times returns 10, 11, 12 |
| `Rhombus.Repeat` | patterns/rhombus.js:10-17 | appending a piece `k` times gives `k` times its length |
| `Rhombus.Row` | patterns/rhombus.js:7-17 | the row string built for row `i`. Its length is `2*(i-1) + 2*n` |
| `Rhombus.Rows` | patterns/rhombus.js:6 | there are exactly `n` rows, for `i = 1..n`, and none when `n < 1`. Row `k` is the row for `i = k + 1`, which depends only on `n` and `i`. It is the reference for `BuildRows`; the shape of each row is stated by `RowShape` and `RowNext` |
| `Rhombus.BuildRows` | patterns/rhombus.js:6-21 | the nested loops, with each row started from the empty string, produce exactly `Rows(n)` |
| `Rhombus.IndentIsSpaces` | patterns/rhombus.js:10-12 | the indentation holds only space characters |
| `Rhombus.CellsShape` | patterns/rhombus.js:15-17 | `k` cells are `k` asterisks, each followed by one space |
| `Rhombus.StarCount` | patterns/rhombus.js:10-17 | `k` cells hold exactly `k` asterisks, and indentation holds none |
| `Rhombus.RepeatCommutes` | patterns/rhombus.js:10-12 | adding one more indent at the end is the same as adding it at the front |
| `Rhombus.RowShape` | patterns/rhombus.js:7-17 | row `i` is `2*(i-1)` spaces, then `n` asterisks each followed by a space, and it holds exactly `n` asterisks. Its length `2*(i-1) + 2*n` is stated by `Row` |
| `Rhombus.RowNext` | patterns/rhombus.js:10-17 | row `i + 1` is row `i` with two more spaces in front. The asterisk part is identical |

## Left out

- `JSON.stringify` key construction (Memoize.js line 16) is not modelled. The key is the argument list itself, and the serialisation is taken to be injective. Its collisions on non-integer numbers (NaN, -0) are not modelled.
- Memoization.MemoizedFn.Call: does not model a wrapped function that throws. In Memoize.js line 20 increments `callCount` before line 21 calls `fn`. If `fn` throws, the call is counted but nothing is stored, so the count then exceeds the number of cached keys. A retry with the same arguments is counted again. The model's `fn` always returns, so it proves that the count equals the number of keys, which the source guarantees only while no call has thrown.
- Memoizing an impure `fn` is not modelled. The wrapped function is a pure Dafny function, so the invariant "every stored value is `fn` of its key" holds.
- `sum`, `factorial`, `fib` and the counter use unbounded integers, not JavaScript floating-point numbers. Loss of precision for large values is not modelled.
- `prompt` in rhombus.js is I/O, and `n` is a parameter instead: an `int` for `BuildRows`/`Rows` and a `nat` for `Row`. The source's `n` is the string the prompt returns. The comparisons `i <= n` and `j <= n` at lines 6 and 15 convert it to a number, and the `int` parameter does not model that conversion:
  - a fractional `n` gives the same rows as its floor, in row count and in cells, so the model's `int` covers it;
  - non-numeric input (NaN) or a cancelled prompt (`null`) gives no rows, which is what the model gives for `n < 1`;
  - empty or all-whitespace input converts to 0 and gives no rows, as `n < 1` does in the model.
- The `console.log` output in every file is I/O. The rhombus rows are returned in order, and the usage traces are returned as sequences of the logged values.
