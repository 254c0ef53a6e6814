/** Model of `memoize` from function-transformations/Memoize.js.

    A memoized function keeps a cache keyed by its argument list and counts
    how many calls reached the wrapped function. The argument list is the
    type parameter `A`: its serialisation into a cache key is taken to be
    injective, so two calls share an entry exactly when their argument lists
    are equal. The wrapped function is a pure Dafny function `A -> R`. */
module Memoization {

  /** The state a memoized function closes over: the cache and the call counter. */
  datatype Memo<A, R> = Memo(cache: map<A, R>, callCount: nat)

  /** The state of a freshly memoized function. */
  function Empty<A, R>(): (e: Memo<A, R>)
    ensures e.callCount == |e.cache.Keys| == 0
  {
    Memo(map[], 0)
  }

  /** The invariant every call keeps: each stored value is what `fn` returns
      for its key, and the counter equals the number of stored keys. */
  ghost predicate Consistent<A, R>(fn: A -> R, m: Memo<A, R>) {
    && m.callCount == |m.cache.Keys|
    && forall a :: a in m.cache ==> m.cache[a] == fn(a)
  }

  /** One call of the memoized function on `args`: a hit returns the stored
      value and leaves the state alone; a miss bumps the counter, calls `fn`
      and stores its result. Gives the new state and the returned value. */
  function Step<A, R>(fn: A -> R, m: Memo<A, R>, args: A): (r: (Memo<A, R>, R))
    ensures args in m.cache ==> r == (m, m.cache[args])
    ensures args !in m.cache ==> r.1 == fn(args) && r.0.callCount == m.callCount + 1
    ensures r.0.cache.Keys == m.cache.Keys + {args} && r.0.cache[args] == r.1
  {
    if args in m.cache then
      (m, m.cache[args])
    else
      var result := fn(args);
      (Memo(m.cache[args := result], m.callCount + 1), result)
  }

  /** A sequence of calls on the memoized function, in order: the final state
      and the value returned by each call. */
  function Run<A, R>(fn: A -> R, m: Memo<A, R>, calls: seq<A>): (r: (Memo<A, R>, seq<R>))
    ensures |r.1| == |calls|
    ensures m.cache.Keys <= r.0.cache.Keys
    ensures r.0.callCount - m.callCount <= |calls|
    decreases |calls|
  {
    if calls == [] then
      (m, [])
    else
      var first := Step(fn, m, calls[0]);
      var rest := Run(fn, first.0, calls[1..]);
      (rest.0, [first.1] + rest.1)
  }

  /** A freshly memoized function satisfies the invariant. */
  lemma EmptyConsistent<A, R>(fn: A -> R)
    ensures Consistent(fn, Empty<A, R>())
  {
  }

  /** A call only adds entries: no existing entry is overwritten or removed,
      and the only key that can appear is `args`. */
  lemma StepOnlyAdds<A, R>(fn: A -> R, m: Memo<A, R>, args: A)
    ensures Step(fn, m, args).0.cache.Keys == m.cache.Keys + {args}
    ensures forall a :: a in m.cache ==> Step(fn, m, args).0.cache[a] == m.cache[a]
  {
  }

  /** A call keeps the invariant, and whether it hits or misses it returns `fn(args)`. */
  lemma StepConsistent<A, R>(fn: A -> R, m: Memo<A, R>, args: A)
    requires Consistent(fn, m)
    ensures Consistent(fn, Step(fn, m, args).0)
    ensures Step(fn, m, args).1 == fn(args)
  {
    if args !in m.cache {
      assert Step(fn, m, args).0.cache.Keys == m.cache.Keys + {args};
    }
  }

  /** The argument lists of a non-empty call sequence: the first one and those of the rest. */
  lemma ArgsOfCalls<A>(calls: seq<A>)
    requires calls != []
    ensures (set a | a in calls) == {calls[0]} + (set a | a in calls[1..])
  {
    forall a | a in calls ensures a == calls[0] || a in calls[1..] {
      var i :| 0 <= i < |calls| && calls[i] == a;
      if i > 0 { assert calls[1..][i - 1] == a; }
    }
  }

  /** Over any sequence of calls the invariant is kept, every call returns
      what `fn` returns for its arguments, and the cache ends up holding
      exactly the keys it held before plus every argument list called. */
  lemma {:induction false} RunConsistent<A, R>(fn: A -> R, m: Memo<A, R>, calls: seq<A>)
    requires Consistent(fn, m)
    ensures Consistent(fn, Run(fn, m, calls).0)
    ensures |Run(fn, m, calls).1| == |calls|
    ensures forall i :: 0 <= i < |calls| ==> Run(fn, m, calls).1[i] == fn(calls[i])
    ensures Run(fn, m, calls).0.cache.Keys == m.cache.Keys + (set a | a in calls)
    decreases |calls|
  {
    if calls != [] {
      var first := Step(fn, m, calls[0]);
      var rest := Run(fn, first.0, calls[1..]);
      assert Run(fn, m, calls) == (rest.0, [first.1] + rest.1);
      StepConsistent(fn, m, calls[0]);
      StepOnlyAdds(fn, m, calls[0]);
      RunConsistent(fn, first.0, calls[1..]);
      ArgsOfCalls(calls);
      forall i | 0 < i < |calls|
        ensures ([first.1] + rest.1)[i] == fn(calls[i])
      {
        assert calls[1..][i - 1] == calls[i];
      }
    }
  }

  /** Over any sequence of calls no stored entry changes. */
  lemma {:induction false} RunOnlyAdds<A, R>(fn: A -> R, m: Memo<A, R>, calls: seq<A>)
    ensures forall a :: a in m.cache ==> a in Run(fn, m, calls).0.cache && Run(fn, m, calls).0.cache[a] == m.cache[a]
    decreases |calls|
  {
    if calls != [] {
      StepOnlyAdds(fn, m, calls[0]);
      RunOnlyAdds(fn, Step(fn, m, calls[0]).0, calls[1..]);
    }
  }

  /** Starting from a fresh memoized function, the call count after any
      sequence of calls is the number of distinct argument lists called. */
  lemma CountIsDistinctCalls<A, R>(fn: A -> R, calls: seq<A>)
    ensures Run(fn, Empty(), calls).0.callCount == |set a | a in calls|
  {
    EmptyConsistent<A, R>(fn);
    RunConsistent(fn, Empty(), calls);
  }

  /** A function wrapped by `memoize`: the cache is a map updated in place and
      the counter a field, as in the closure the source returns. */
  class MemoizedFn<A(==), R> {
    const fn: A -> R
    var cache: map<A, R>
    var callCount: nat

    ghost predicate Valid()
      reads this
    {
      Consistent(fn, State())
    }

    /** The closed-over state as a value. */
    function State(): Memo<A, R>
      reads this
    {
      Memo(cache, callCount)
    }

    /** `memoize(fn)`: an empty cache and a counter at zero. */
    constructor (f: A -> R)
      ensures fn == f
      ensures cache == map[] && callCount == 0
      ensures Valid()
    {
      fn := f;
      cache := map[];
      callCount := 0;
    }

    /** `memoizedFn(...args)`. */
    method Call(args: A) returns (r: R)
      requires Valid()
      modifies this
      ensures Valid()
      ensures r == fn(args)
      ensures old(args in cache) ==> r == old(cache[args]) && cache == old(cache) && callCount == old(callCount)
      ensures old(args !in cache) ==> cache == old(cache)[args := r] && callCount == old(callCount) + 1
      ensures (State(), r) == Step(fn, old(State()), args)
    {
      StepConsistent(fn, State(), args);
      if args in cache {
        return cache[args];
      }
      callCount := callCount + 1;
      r := fn(args);
      cache := cache[args := r];
    }

    /** `memoizedFn.getCallCount()`. */
    method GetCallCount() returns (c: nat)
      requires Valid()
      ensures c == callCount
      ensures c == |cache.Keys|
    {
      c := callCount;
    }
  }

  /** Calls on one memoized function, one after another: the object ends in
      the state `Run` gives, each call returns `fn` of its arguments, and the
      cache gains exactly the argument lists called. */
  method CallAll<A(==), R>(m: MemoizedFn<A, R>, calls: seq<A>) returns (rs: seq<R>)
    requires m.Valid()
    modifies m
    ensures m.Valid()
    ensures (m.State(), rs) == Run(m.fn, old(m.State()), calls)
    ensures |rs| == |calls| && forall i :: 0 <= i < |calls| ==> rs[i] == m.fn(calls[i])
    ensures m.cache.Keys == old(m.cache.Keys) + (set a | a in calls)
  {
    ghost var total := Run(m.fn, m.State(), calls);
    RunConsistent(m.fn, m.State(), calls);
    rs := [];
    var i := 0;
    assert calls[i..] == calls && total.1 == rs + total.1;
    while i < |calls|
      invariant 0 <= i <= |calls|
      invariant m.Valid()
      invariant total == (Run(m.fn, m.State(), calls[i..]).0, rs + Run(m.fn, m.State(), calls[i..]).1)
    {
      ghost var before := m.State();
      ghost var after := Run(m.fn, Step(m.fn, before, calls[i]).0, calls[i + 1..]);
      assert calls[i..][1..] == calls[i + 1..];
      assert Run(m.fn, before, calls[i..]) == (after.0, [Step(m.fn, before, calls[i]).1] + after.1);
      var r := m.Call(calls[i]);
      assert rs + Run(m.fn, before, calls[i..]).1 == (rs + [r]) + after.1;
      rs := rs + [r];
      i := i + 1;
    }
    assert calls[i..] == [];
    assert rs + [] == rs;
  }
}
