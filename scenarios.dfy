/** The examples the repository's test suite runs, stated over the model with the
    suite's iterator: a promise-style test that resolves with whether a number is
    even and rejects anything that is not a number. */
module Scenarios {
  import opened Values
  import opened Validation
  import opened Invocation
  import opened Semantics
  import opened Evaluator

  /** `value % 2 === 0` for a number that is not NaN. */
  predicate IsEven(n: Number) {
    n.Finite? && n.r == n.r.Floor as real && n.r.Floor % 2 == 0
  }

  /** An error object standing for the `TypeError` the test iterator rejects
      a non-number with. The suite builds a new one on each call; the model
      uses this one value for all of them. */
  const NotANumber: Value := Object(1000, None, None, None)

  /** The test suite's promise-style iterator. */
  function EvenTest(): Behaviour {
    Behaviour(
      (f: Fn, args: seq<Value>) =>
        if |args| == 1 && args[0].Num? && !args[0].n.NaN? then Resolved(Bool(IsEven(args[0].n)))
        else Rejected(NotANumber),
      (f: Fn, args: seq<Value>) => (Undefined, Undefined))
  }

  /** `function test (value)`: one formal parameter, so promise style. */
  const Test: Fn := Fn(1, 1)

  function N(k: int): Value {
    Num(Finite(k as real))
  }

  function AndOf(items: seq<Value>, ref: nat): Value {
    Object(ref, Some(Array(ref + 1, items)), None, None)
  }

  function OrOf(items: seq<Value>, ref: nat): Value {
    Object(ref, None, Some(Array(ref + 1, items)), None)
  }

  function NotOf(child: Value, ref: nat): Value {
    Object(ref, None, None, Some(child))
  }

  /** The test iterator on a number: even numbers are truthy, odd ones falsy. */
  lemma NumberLeaf(k: int)
    ensures Eval(EvenTest(), Test, N(k)) == Run(Ok(Bool(k % 2 == 0)), [N(k)])
  {
    assert (k as real).Floor == k;
  }

  /** A child that lets the loop go on hands over to its next sibling. */
  lemma Continue(first: Value, rest: seq<Value>, every: bool)
    requires Evaluable(first) && forall i | 0 <= i < |rest| :: Evaluable(rest[i])
    requires Continues(Eval(EvenTest(), Test, first), every)
    ensures EvalSiblings(EvenTest(), Test, [first] + rest, every) ==
      var r := EvalSiblings(EvenTest(), Test, rest, every);
      Run(r.outcome, Eval(EvenTest(), Test, first).trace + r.trace)
  {
    assert ([first] + rest)[0] == first && ([first] + rest)[1..] == rest;
  }

  /** A child that decides the loop ends it. */
  lemma Decide(first: Value, rest: seq<Value>, every: bool)
    requires Evaluable(first) && forall i | 0 <= i < |rest| :: Evaluable(rest[i])
    requires Eval(EvenTest(), Test, first).outcome.Ok? && !Continues(Eval(EvenTest(), Test, first), every)
    ensures EvalSiblings(EvenTest(), Test, [first] + rest, every) ==
      Run(Ok(Bool(!every)), Eval(EvenTest(), Test, first).trace)
  {
    assert ([first] + rest)[0] == first;
  }

  /** `{or: [1, 2, 3]}` is true, and 3 is never reached. */
  lemma OrStopsAtFirstEven()
    ensures Eval(EvenTest(), Test, OrOf([N(1), N(2), N(3)], 1)) == Run(Ok(Bool(true)), [N(1), N(2)])
  {
    NumberLeaf(1);
    NumberLeaf(2);
    Decide(N(2), [N(3)], false);
    Continue(N(1), [N(2), N(3)], false);
    assert [N(1), N(2), N(3)] == [N(1)] + [N(2), N(3)];
    assert [N(2), N(3)] == [N(2)] + [N(3)];
  }

  /** `{and: [2, 3, 6]}` is false, and 6 is never reached. */
  lemma AndStopsAtFirstOdd()
    ensures Eval(EvenTest(), Test, AndOf([N(2), N(3), N(6)], 1)) == Run(Ok(Bool(false)), [N(2), N(3)])
  {
    NumberLeaf(2);
    NumberLeaf(3);
    Decide(N(3), [N(6)], true);
    Continue(N(2), [N(3), N(6)], true);
    assert [N(2), N(3), N(6)] == [N(2)] + [N(3), N(6)];
    assert [N(3), N(6)] == [N(3)] + [N(6)];
  }

  /** `{and: [2, 'a']}` rejects with the iterator's own error. */
  lemma RejectionPropagates()
    ensures Eval(EvenTest(), Test, AndOf([N(2), Str("a")], 1)) == Run(Err(Thrown(NotANumber)), [N(2), Str("a")])
  {
    NumberLeaf(2);
    Continue(N(2), [Str("a")], true);
    assert [N(2), Str("a")] == [N(2)] + [Str("a")];
    assert [Str("a")][1..] == [];
  }

  /** The suite's malformed expressions, each with the TypeError it throws. */
  lemma MalformedExpressionsRejected()
    ensures Validate(Object(1, Some(N(42)), None, None)) == Invalid(OperandsNotArray)
    ensures Validate(AndOf([], 1)) == Invalid(TooFewOperands)
    ensures Validate(AndOf([Str("a")], 1)) == Invalid(TooFewOperands)
    ensures Validate(Object(1, Some(Array(2, [Str("a"), Str("b")])), Some(Array(3, [Str("c"), Str("d")])), None))
         == Invalid(AndWithOr)
    ensures Validate(Object(1, None, Some(Array(2, [Str("c"), Str("d")])), Some(Str("a")))) == Invalid(NotWithAndOr)
    ensures Validate(Object(1, None, Some(Str("something")), None)) == Invalid(OperandsNotArray)
  {
  }

  /** A nested malformed expression fails with the error of the inner one. */
  lemma NestedMalformedExpressionRejected()
    ensures Validate(AndOf([Str("a"), OrOf([Str("b")], 3)], 1)) == Invalid(TooFewOperands)
  {
    assert Validate(OrOf([Str("b")], 3)) == Invalid(TooFewOperands);
  }

  /** The same through a `not`. */
  lemma NestedNotMalformedExpressionRejected()
    ensures Validate(AndOf([Str("a"), OrOf([Str("b"), NotOf(AndOf([], 6), 5)], 3)], 1)) == Invalid(TooFewOperands)
  {
    assert Validate(NotOf(AndOf([], 6), 5)) == Invalid(TooFewOperands);
    var inner := [Str("b"), NotOf(AndOf([], 6), 5)];
    assert inner[1..] == [NotOf(AndOf([], 6), 5)];
    assert Validate(OrOf(inner, 3)) == Invalid(TooFewOperands);
  }

  /** The suite's well-formed flat expressions are accepted. */
  lemma WellFormedExpressionsAccepted()
    ensures Validate(Str("single operand")) == Valid
    ensures Validate(AndOf([Str("a"), Str("b")], 1)) == Valid
    ensures Validate(OrOf([Str("a"), Str("b")], 1)) == Valid
    ensures Validate(NotOf(Str("single operand"), 1)) == Valid
  {
    assert WellFormed(AndOf([Str("a"), Str("b")], 1));
    assert WellFormed(OrOf([Str("a"), Str("b")], 1));
  }

  /** The suite's well-formed nested expressions are accepted. */
  lemma NestedWellFormedExpressionsAccepted()
    ensures Validate(OrOf([Str("a"), AndOf([Str("b"), Str("c"), OrOf([Str("d"), Str("e")], 5)], 3)], 1)) == Valid
    ensures Validate(NotOf(AndOf([Str("a"), Str("b")], 2), 1)) == Valid
    ensures Validate(AndOf([Str("a"), NotOf(Str("b"), 3)], 1)) == Valid
  {
    var de := OrOf([Str("d"), Str("e")], 5);
    assert WellFormed(de);
    var bcde := AndOf([Str("b"), Str("c"), de], 3);
    assert WellFormed(bcde);
    assert WellFormed(OrOf([Str("a"), bcde], 1));
    assert WellFormed(AndOf([Str("a"), Str("b")], 2));
    assert WellFormed(AndOf([Str("a"), NotOf(Str("b"), 3)], 1));
  }

  /** `{and: [2, 4]}`, `{and: [2, {not: {and: [2, 4]}}]}`, `{or: [3, 2]}` and
      `{and: [2, {or: [3, 2]}]}`. */
  function BothEven(): Value {
    AndOf([N(2), N(4)], 3)
  }

  function NotBothEven(): Value {
    AndOf([N(2), NotOf(BothEven(), 5)], 1)
  }

  function SomeEven(): Value {
    OrOf([N(3), N(2)], 12)
  }

  function EvenAndSomeEven(): Value {
    AndOf([N(2), SomeEven()], 10)
  }

  lemma BothEvenIsTrue()
    ensures Evaluable(BothEven())
    ensures Eval(EvenTest(), Test, BothEven()) == Run(Ok(Bool(true)), [N(2), N(4)])
  {
    NumberLeaf(2);
    NumberLeaf(4);
    Continue(N(4), [], true);
    Continue(N(2), [N(4)], true);
    assert [N(2), N(4)] == [N(2)] + [N(4)] && [N(4)] == [N(4)] + [];
  }

  lemma NotBothEvenIsFalse()
    ensures Evaluable(NotBothEven())
    ensures Eval(EvenTest(), Test, NotBothEven()) == Run(Ok(Bool(false)), [N(2), N(2), N(4)])
  {
    BothEvenIsTrue();
    NumberLeaf(2);
    var negated := NotOf(BothEven(), 5);
    assert Eval(EvenTest(), Test, negated) == Run(Ok(Bool(false)), [N(2), N(4)]);
    Decide(negated, [], true);
    Continue(N(2), [negated], true);
    assert [N(2), negated] == [N(2)] + ([negated] + []);
  }

  lemma SomeEvenIsTrue()
    ensures Evaluable(SomeEven())
    ensures Eval(EvenTest(), Test, SomeEven()) == Run(Ok(Bool(true)), [N(3), N(2)])
  {
    NumberLeaf(2);
    NumberLeaf(3);
    Decide(N(2), [], false);
    Continue(N(3), [N(2)], false);
    assert [N(3), N(2)] == [N(3)] + ([N(2)] + []);
  }

  /** `{and: [2, {or: [3, 2]}]}` is true; 2 is reached twice. */
  lemma EvenAndSomeEvenIsTrue()
    ensures Evaluable(EvenAndSomeEven())
    ensures Eval(EvenTest(), Test, EvenAndSomeEven()) == Run(Ok(Bool(true)), [N(2), N(3), N(2)])
  {
    SomeEvenIsTrue();
    NumberLeaf(2);
    Continue(SomeEven(), [], true);
    Continue(N(2), [SomeEven()], true);
    assert [N(2), SomeEven()] == [N(2)] + ([SomeEven()] + []);
  }

  lemma CacheTestExpressionsValid()
    ensures Validate(NotBothEven()) == Valid && Validate(EvenAndSomeEven()) == Valid
  {
    assert WellFormed(BothEven());
    assert WellFormed(NotBothEven());
    assert WellFormed(SomeEven());
    assert WellFormed(EvenAndSomeEven());
  }

  /** In `{and: [2, {not: {and: [2, 4]}}]}`, evaluated on a new evaluator, 2 is
      reached twice but the iterator is called with it once. */
  lemma RepeatedOperandCalledOnce()
    ensures multiset(CallsOf(Test, {}, Eval(EvenTest(), Test, NotBothEven()).trace))[Call(Test, [N(2)])] == 1
  {
    NotBothEvenIsFalse();
    StoredOperands(Test, [N(2), N(2), N(4)], N(2));
    IteratorCalledOncePerUncachedOperand(Test, {}, [N(2), N(2), N(4)], N(2));
  }

  /** Two executions in a row on a new evaluator: each outcome is the one its
      expression's evaluation gives, and the calls made are those of a single
      evaluation reaching both traces from an empty cache (so, by
      `IteratorCalledOnceFromEmptyCache`, the iterator is called exactly once
      with each stored operand the two reach). */
  method ExecuteTwice(b: Behaviour, iter: Fn, v1: Value, v2: Value)
    returns (first: Outcome, second: Outcome, ghost calls: seq<Call>)
    requires WellFormed(v1) && WellFormed(v2)
    ensures Evaluable(v1) && Evaluable(v2)
    ensures first == Eval(b, iter, v1).outcome && second == Eval(b, iter, v2).outcome
    ensures calls == CallsOf(iter, {}, Eval(b, iter, v1).trace + Eval(b, iter, v2).trace)
  {
    WellFormedIsEvaluable(v1);
    WellFormedIsEvaluable(v2);
    var e := new AsyncBooleanExpressionEvaluator(b, iter);
    ghost var empty: map<Value, Outcome> := map[];
    ghost var t1, t2 := Eval(b, iter, v1).trace, Eval(b, iter, v2).trace;
    first := e.Execute(v1);
    ghost var cache1, calls1 := e.cache, e.calls;
    second := e.Execute(v2);
    ExtendsTwice(empty, [], cache1, calls1, e.cache, e.calls, iter, t1, t2);
    calls := e.calls;
    assert empty.Keys == {};
  }

  /** Which operands the two expressions reach together are stored. */
  lemma BothTracesStored()
    ensures N(2) in Stored(Test, [N(2), N(2), N(4)] + [N(2), N(3), N(2)])
    ensures forall x | x != N(2) && x != N(3) && x != N(4) :: x !in Stored(Test, [N(2), N(2), N(4)] + [N(2), N(3), N(2)])
  {
    var t := [N(2), N(2), N(4)] + [N(2), N(3), N(2)];
    StoredOperands(Test, t, N(2));
    forall x | x != N(2) && x != N(3) && x != N(4) ensures x !in Stored(Test, t) {
      StoredOperands(Test, t, x);
    }
  }

  /** The suite's cache test across two executions: the outcomes are false and
      true, and the iterator is called with 2 exactly once and never with an
      operand other than 2, 3 and 4. */
  method CacheSharedAcrossExecutions() returns (first: Outcome, second: Outcome, ghost calls: seq<Call>)
    ensures first == Ok(Bool(false)) && second == Ok(Bool(true))
    ensures multiset(calls)[Call(Test, [N(2)])] == 1
    ensures forall x | x != N(2) && x != N(3) && x != N(4) :: multiset(calls)[Call(Test, [x])] == 0
  {
    CacheTestExpressionsValid();
    NotBothEvenIsFalse();
    EvenAndSomeEvenIsTrue();
    BothTracesStored();
    first, second, calls := ExecuteTwice(EvenTest(), Test, NotBothEven(), EvenAndSomeEven());
    IteratorCalledOnceFromEmptyCache(Test, [N(2), N(2), N(4)] + [N(2), N(3), N(2)]);
  }
}
