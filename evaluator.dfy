/** The `AsyncBooleanExpressionEvaluator` class: its configuration (iterator and
    parallel limit), its memo cache of iterator results, and the sequential
    evaluation it performs at a parallel limit of 1. */
module Evaluator {
  import opened Values
  import opened Validation
  import opened Invocation
  import opened Semantics

  const DefaultParallelLimit: int := 1

  /** `Math.trunc` on a finite number. */
  function Trunc(r: real): int {
    if r >= 0.0 then r.Floor else -((-r).Floor)
  }

  /** JavaScript's `n % 1`: the signed fractional part of a finite number, and
      NaN for NaN and the infinities. */
  function RemainderOfOne(n: Number): Number {
    match n
    case Finite(r) => Finite(r - Trunc(r) as real)
    case _ => NaN
  }

  /** JavaScript's `n < 1`; every comparison with NaN is false. */
  predicate LessThanOne(n: Number) {
    match n
    case Finite(r) => r < 1.0
    case NaN => false
    case Infinity(negative) => negative
  }

  /** The test of the `parallelLimit` setter, `typeof v !== 'number' || v < 1 ||
      v % 1 !== 0`, as the limit it stores when the test passes: exactly the
      finite integers of at least 1 are accepted. */
  function ParallelLimitOf(v: Value): (r: Option<int>)
    ensures r.Some? <==> v.Num? && v.n.Finite? && v.n.r >= 1.0 && v.n.r == v.n.r.Floor as real
    ensures r.Some? ==> r.value >= 1 && r.value as real == v.n.r
  {
    if !v.Num? || LessThanOne(v.n) || RemainderOfOne(v.n) != Finite(0.0) then None
    else Some(v.n.r.Floor)
  }

  /** What reaching the operand `x` adds to the cache: the operand itself
      unless it is a function, which bypasses the cache, or the iterator's
      arity is refused, in which case `_invoke` throws before anything is
      stored. */
  function Kept(iter: Fn, x: Value): set<Value> {
    if !x.Function? && Dispatch(iter.arity, 1) != Mismatch then {x} else {}
  }

  /** The operands of a trace that the cache keeps. */
  function Stored(iter: Fn, trace: seq<Value>): set<Value>
    decreases |trace|
  {
    if trace == [] then {} else Kept(iter, trace[0]) + Stored(iter, trace[1..])
  }

  /** The cache keeps exactly the non-function operands reached, and nothing at
      all when the iterator's arity is refused. */
  lemma {:induction false} StoredOperands(iter: Fn, trace: seq<Value>, x: Value)
    ensures x in Stored(iter, trace) <==>
      x in trace && !x.Function? && Dispatch(iter.arity, 1) != Mismatch
    decreases |trace|
  {
    if trace != [] {
      StoredOperands(iter, trace[1..], x);
      assert trace == [trace[0]] + trace[1..];
    }
  }

  /** Reaching `a` and then `b` stores the operands of both. */
  lemma {:induction false} StoredAppend(iter: Fn, a: seq<Value>, b: seq<Value>)
    ensures Stored(iter, a + b) == Stored(iter, a) + Stored(iter, b)
    decreases |a|
  {
    if a == [] {
      assert a + b == b;
    } else {
      assert (a + b)[0] == a[0] && (a + b)[1..] == a[1..] + b;
      StoredAppend(iter, a[1..], b);
    }
  }

  /** The operand reaching `x` passes to the iterator while the cache holds
      `known`, if any. */
  function FreshFor(iter: Fn, known: set<Value>, x: Value): seq<Value> {
    if x in Kept(iter, x) && x !in known then [x] else []
  }

  /** The operands the iterator is invoked on, in order, by an evaluation that
      reaches `trace` while the cache holds `known`: each stored operand the
      first time it is reached, unless it was cached already. */
  function Fresh(iter: Fn, known: set<Value>, trace: seq<Value>): seq<Value>
    decreases |trace|
  {
    if trace == [] then []
    else FreshFor(iter, known, trace[0]) + Fresh(iter, known + Kept(iter, trace[0]), trace[1..])
  }

  /** The calls reaching the operand `x` makes while the cache holds `known`: a
      function operand is called itself, every time; any other operand makes
      `_invoke` call the iterator unless it is cached. */
  function CallsFor(iter: Fn, known: set<Value>, x: Value): seq<Call> {
    if x.Function? then CallsMade(x.fn, [])
    else if x in known then []
    else CallsMade(iter, [x])
  }

  /** The calls made, in order, by an evaluation that reaches `trace` while the
      cache holds `known`. */
  function CallsOf(iter: Fn, known: set<Value>, trace: seq<Value>): seq<Call>
    decreases |trace|
  {
    if trace == [] then []
    else CallsFor(iter, known, trace[0]) + CallsOf(iter, known + Kept(iter, trace[0]), trace[1..])
  }

  /** The iterator is invoked on stored operands that were not cached, each at
      most once. */
  lemma {:induction false} FreshDistinct(iter: Fn, known: set<Value>, trace: seq<Value>)
    ensures forall x | x in Fresh(iter, known, trace) :: x in Stored(iter, trace) && x !in known
    ensures NoDuplicates(Fresh(iter, known, trace))
    decreases |trace|
  {
    if trace != [] {
      var x := trace[0];
      var k := known + Kept(iter, x);
      var head := FreshFor(iter, known, x);
      var rest := Fresh(iter, k, trace[1..]);
      FreshDistinct(iter, k, trace[1..]);
      assert Fresh(iter, known, trace) == head + rest;
      forall i, j | 0 <= i < j < |head + rest|
        ensures (head + rest)[i] != (head + rest)[j]
      {
        if i < |head| {
          assert (head + rest)[j] in rest;
        }
      }
    }
  }

  /** What reaching a single operand stores and calls. */
  lemma ReachOne(iter: Fn, known: set<Value>, x: Value)
    ensures Stored(iter, [x]) == Kept(iter, x)
    ensures CallsOf(iter, known, [x]) ==
      if x.Function? then CallsMade(x.fn, []) else if x in known then [] else CallsMade(iter, [x])
  {
    assert [x][1..] == [];
  }

  /** Reaching `t1` and then `t2` makes the calls of `t1`, then those of `t2`
      with the cache `t1` left behind. */
  lemma {:induction false} CallsOfAppend(iter: Fn, known: set<Value>, t1: seq<Value>, t2: seq<Value>)
    ensures CallsOf(iter, known, t1 + t2) == CallsOf(iter, known, t1) + CallsOf(iter, known + Stored(iter, t1), t2)
    decreases |t1|
  {
    if t1 == [] {
      assert t1 + t2 == t2;
      assert known + Stored(iter, t1) == known;
    } else {
      var x := t1[0];
      var k := known + Kept(iter, x);
      assert (t1 + t2)[0] == x && (t1 + t2)[1..] == t1[1..] + t2;
      CallsOfAppend(iter, k, t1[1..], t2);
      assert k + Stored(iter, t1[1..]) == known + Stored(iter, t1);
    }
  }

  /** Every stored operand of the trace that was not cached is among the fresh
      ones. */
  lemma {:induction false} FreshCoversStored(iter: Fn, known: set<Value>, trace: seq<Value>, x: Value)
    requires x in Stored(iter, trace) && x !in known
    ensures x in Fresh(iter, known, trace)
    decreases |trace|
  {
    var y := trace[0];
    var rest := Fresh(iter, known + Kept(iter, y), trace[1..]);
    var head := FreshFor(iter, known, y);
    assert Fresh(iter, known, trace) == head + rest;
    if x == y {
      if x !in Kept(iter, y) {
        StoredOperands(iter, trace[1..], x);
      }
      assert head == [x];
    } else {
      FreshCoversStored(iter, known + Kept(iter, y), trace[1..], x);
    }
  }

  /** The iterator is called with `x` as often as `x` is among the fresh
      operands. */
  lemma {:induction false} IteratorCallsAreFresh(iter: Fn, known: set<Value>, trace: seq<Value>, x: Value)
    ensures multiset(CallsOf(iter, known, trace))[Call(iter, [x])] == multiset(Fresh(iter, known, trace))[x]
    decreases |trace|
  {
    if trace != [] {
      var y := trace[0];
      var k := known + Kept(iter, y);
      IteratorCallsAreFresh(iter, k, trace[1..], x);
      assert CallsOf(iter, known, trace) == CallsFor(iter, known, y) + CallsOf(iter, k, trace[1..]);
      assert Fresh(iter, known, trace) == FreshFor(iter, known, y) + Fresh(iter, k, trace[1..]);
      assert multiset(CallsFor(iter, known, y))[Call(iter, [x])] == multiset(FreshFor(iter, known, y))[x];
    }
  }

  /** An element of a sequence without repetition occurs in it once. */
  lemma {:induction false} DistinctOccurrence<T>(s: seq<T>, x: T)
    requires NoDuplicates(s) && x in s
    ensures multiset(s)[x] == 1
  {
    assert s == [s[0]] + s[1..];
    if s[0] == x {
      assert x !in s[1..];
    } else {
      DistinctOccurrence(s[1..], x);
    }
  }

  /** The memo cache's promise: an evaluation that reaches `trace` while the
      cache holds `known` calls the iterator with an operand exactly once if the
      operand is stored and was not cached, and otherwise never. */
  lemma IteratorCalledOncePerUncachedOperand(iter: Fn, known: set<Value>, trace: seq<Value>, x: Value)
    ensures multiset(CallsOf(iter, known, trace))[Call(iter, [x])] ==
      if x in Stored(iter, trace) && x !in known then 1 else 0
  {
    IteratorCallsAreFresh(iter, known, trace, x);
    FreshDistinct(iter, known, trace);
    if x in Stored(iter, trace) && x !in known {
      FreshCoversStored(iter, known, trace, x);
      DistinctOccurrence(Fresh(iter, known, trace), x);
    }
  }

  /** From an empty cache, every stored operand reached is passed to the
      iterator exactly once. */
  lemma IteratorCalledOnceFromEmptyCache(iter: Fn, trace: seq<Value>)
    ensures forall x ::
      multiset(CallsOf(iter, {}, trace))[Call(iter, [x])] == if x in Stored(iter, trace) then 1 else 0
  {
    forall x
      ensures multiset(CallsOf(iter, {}, trace))[Call(iter, [x])] == if x in Stored(iter, trace) then 1 else 0
    {
      IteratorCalledOncePerUncachedOperand(iter, {}, trace, x);
    }
  }

  /** How an evaluation that reached the operands `trace` takes the state from
      `(cache0, calls0)` to `(cache, calls)`: the cache gains the stored operands
      of the trace, and the calls made are those `CallsOf` gives. */
  ghost predicate Extends(
    cache0: map<Value, Outcome>, calls0: seq<Call>,
    cache: map<Value, Outcome>, calls: seq<Call>,
    iter: Fn, trace: seq<Value>)
  {
    && cache.Keys == cache0.Keys + Stored(iter, trace)
    && calls == calls0 + CallsOf(iter, cache0.Keys, trace)
  }

  /** Two evaluations in a row extend the state by their traces together. */
  lemma ExtendsTwice(
    cache0: map<Value, Outcome>, calls0: seq<Call>,
    cache1: map<Value, Outcome>, calls1: seq<Call>,
    cache2: map<Value, Outcome>, calls2: seq<Call>,
    iter: Fn, t1: seq<Value>, t2: seq<Value>)
    requires Extends(cache0, calls0, cache1, calls1, iter, t1)
    requires Extends(cache1, calls1, cache2, calls2, iter, t2)
    ensures Extends(cache0, calls0, cache2, calls2, iter, t1 + t2)
  {
    var a, b := CallsOf(iter, cache0.Keys, t1), CallsOf(iter, cache1.Keys, t2);
    assert calls2 == calls0 + a + b;
    StoredAppend(iter, t1, t2);
    CallsOfAppend(iter, cache0.Keys, t1, t2);
    assert calls0 + a + b == calls0 + (a + b);
  }

  class AsyncBooleanExpressionEvaluator {
    /** What the caller's functions do when called. */
    const behaviour: Behaviour
    /** `_iterator`: the function that tests one operand. */
    var iter: Fn
    /** `_parallelLimit`. */
    var parallelLimit: int
    /** `_cache`: the settled result of the iterator for each operand it was
        invoked on since the cache was last emptied. */
    var cache: map<Value, Outcome>
    /** Every call of a caller's function so far, in order. */
    ghost var calls: seq<Call>

    /** The cache holds, for each operand it was filled with, what the current
        iterator settles to on that operand; functions are never cached. */
    ghost predicate Valid()
      reads this
    {
      && parallelLimit >= 1
      && forall x | x in cache :: !x.Function? && cache[x] == Invoke(behaviour, iter, [x])
    }

    /** How an evaluation that reached the operands `trace` changed the state
        since it was `(cache0, calls0)`. */
    ghost predicate Recorded(cache0: map<Value, Outcome>, calls0: seq<Call>, trace: seq<Value>)
      reads this
    {
      Extends(cache0, calls0, cache, calls, iter, trace)
    }

    /** `constructor (iterator)`, given a function; the default parallel limit
        is 1. */
    constructor (behaviour: Behaviour, iter: Fn)
      ensures Valid()
      ensures this.behaviour == behaviour && this.iter == iter
      ensures parallelLimit == DefaultParallelLimit
      ensures cache == map[] && calls == []
    {
      this.behaviour := behaviour;
      this.iter := iter;
      parallelLimit := DefaultParallelLimit;
      cache := map[];
      calls := [];
    }

    /** `clearCache`: a new, empty cache. An empty cache is consistent with any
        iterator, so the only other condition of `Valid` is the limit's. */
    method ClearCache()
      modifies this`cache
      ensures cache == map[]
      ensures parallelLimit >= 1 ==> Valid()
    {
      cache := map[];
    }

    /** `_setIterator`: refuses a value that is not a function; otherwise stores
        it and empties the cache, so that no result of the old iterator is
        reused. */
    method SetIterator(v: Value) returns (s: Status)
      requires Valid()
      modifies this`iter, this`cache
      ensures Valid()
      ensures v.Function? ==> s == Done && iter == v.fn && cache == map[]
      ensures !v.Function? ==>
        && s == Threw(TypeError(IteratorNotFunction))
        && iter == old(iter) && cache == old(cache)
    {
      if !v.Function? {
        return Threw(TypeError(IteratorNotFunction));
      }
      iter := v.fn;
      ClearCache();
      s := Done;
    }

    /** The `parallelLimit` setter: stores a positive integer, and otherwise
        throws and keeps the old limit. */
    method SetParallelLimit(v: Value) returns (s: Status)
      requires Valid()
      modifies this`parallelLimit
      ensures Valid()
      ensures ParallelLimitOf(v).Some? ==> s == Done && parallelLimit == ParallelLimitOf(v).value
      ensures ParallelLimitOf(v).None? ==>
        s == Threw(TypeError(BadParallelLimit)) && parallelLimit == old(parallelLimit)
    {
      var limit := ParallelLimitOf(v);
      if limit.None? {
        return Threw(TypeError(BadParallelLimit));
      }
      parallelLimit := limit.value;
      s := Done;
    }

    /** `getIteratorResult`: a function operand is invoked itself, every time,
        and bypasses the cache. Any other operand is looked up in the cache; only
        when it is absent is the iterator invoked, and its result, failure
        included, is stored. */
    method GetIteratorResult(x: Value) returns (o: Outcome)
      requires Valid()
      modifies this`cache, this`calls
      ensures Valid()
      ensures o == LeafOutcome(behaviour, iter, x)
      ensures x.Function? ==>
        && cache == old(cache)
        && calls == old(calls) + CallsMade(x.fn, [])
      ensures !x.Function? && x in old(cache) ==>
        cache == old(cache) && calls == old(calls)
      ensures !x.Function? && x !in old(cache) ==>
        && calls == old(calls) + CallsMade(iter, [x])
        && if CallsMade(iter, [x]) == [] then cache == old(cache) else cache == old(cache)[x := o]
    {
      if x.Function? {
        o := Invoke(behaviour, x.fn, []);
        calls := calls + CallsMade(x.fn, []);
      } else if x in cache {
        o := cache[x];
      } else {
        o := Invoke(behaviour, iter, [x]);
        if Dispatch(iter.arity, 1) != Mismatch {
          cache := cache[x := o];
        }
        calls := calls + CallsMade(iter, [x]);
      }
    }

    /** `evaluateExpression` at the parallel limit of 1: the outcome is the one
        `Eval` gives, which does not depend on what was cached before; the cache
        gains the operands the evaluation reached, and the iterator is called on
        those of them that were not cached. */
    method EvaluateExpression(v: Value) returns (o: Outcome)
      requires Valid() && parallelLimit == 1 && Evaluable(v)
      modifies this`cache, this`calls
      ensures Valid()
      ensures o == Eval(behaviour, iter, v).outcome
      ensures Recorded(old(cache), old(calls), Eval(behaviour, iter, v).trace)
      decreases v
    {
      if v.Null? {
        o := Err(TypeError(InOperatorOnNull));
      } else if v.Object? && v.not.Some? {
        var inner := EvaluateExpression(v.not.value);
        o := if inner.Ok? then Ok(Bool(!Truthy(inner.value))) else inner;
      } else if v.Object? && v.and.Some? {
        o := EvaluateOperands(v.and.value.items, true);
      } else if v.Object? && v.or.Some? {
        o := EvaluateOperands(v.or.value.items, false);
      } else {
        ReachOne(iter, cache.Keys, v);
        o := GetIteratorResult(v);
      }
    }

    /** The `everyLimit` (every = true, for `and`) or `someLimit` (every =
        false, for `or`) iteration over sibling operands at limit 1. async starts
        the next child from the previous child's `done` callback, so the
        iteration is a recursion over the remaining operands: it stops at the
        first child that rejects (`reject` is called and `done` never is) or
        that decides the node. */
    method EvaluateOperands(items: seq<Value>, every: bool) returns (o: Outcome)
      requires Valid() && parallelLimit == 1
      requires forall i | 0 <= i < |items| :: Evaluable(items[i])
      modifies this`cache, this`calls
      ensures Valid()
      ensures o == EvalSiblings(behaviour, iter, items, every).outcome
      ensures Recorded(old(cache), old(calls), EvalSiblings(behaviour, iter, items, every).trace)
      decreases items
    {
      if items == [] {
        return Ok(Bool(every));
      }
      ghost var cache0, calls0 := cache, calls;
      var r := EvaluateExpression(items[0]);
      if r.Err? || Truthy(r.value) != every {
        return if r.Err? then r else Ok(Bool(!every));
      }
      ghost var cache1, calls1 := cache, calls;
      o := EvaluateOperands(items[1..], every);
      ExtendsTwice(cache0, calls0, cache1, calls1, cache, calls, iter,
        Eval(behaviour, iter, items[0]).trace, EvalSiblings(behaviour, iter, items[1..], every).trace);
    }

    /** `execute`: validates, then evaluates. An invalid expression fails with
        the validation error before any function is called or the cache is
        touched. */
    method Execute(v: Value) returns (o: Outcome)
      requires Valid() && parallelLimit == 1
      modifies this`cache, this`calls
      ensures Valid()
      ensures Validate(v).Invalid? ==>
        && o == Err(TypeError(Validate(v).reason))
        && cache == old(cache) && calls == old(calls)
      ensures Validate(v).Valid? ==>
        && Evaluable(v)
        && o == Eval(behaviour, iter, v).outcome
        && Recorded(old(cache), old(calls), Eval(behaviour, iter, v).trace)
    {
      var verdict := Validate(v);
      if verdict.Invalid? {
        return Err(TypeError(verdict.reason));
      }
      WellFormedIsEvaluable(v);
      o := EvaluateExpression(v);
    }
  }
}
