/** What `evaluateExpression` computes at the default parallel limit of 1: the
    outcome of an expression and the operands it reaches, in order. The evaluator
    class is proved against these functions; the lemmas below relate them to the
    plain boolean meaning of the expression. */
module Semantics {
  import opened Values
  import opened Invocation
  import opened Validation

  /** A value `evaluateExpression` can walk: every `and`/`or` it reaches holds an
      array. The node kinds are read as the evaluator reads them: `not` first, then
      a bare operand, then `and` before `or`. */
  predicate Evaluable(v: Value)
    decreases v
  {
    match v
    case Object(_, and, or, not) =>
      if not.Some? then Evaluable(not.value)
      else if and.Some? then
        and.value.Array? && forall i | 0 <= i < |and.value.items| :: Evaluable(and.value.items[i])
      else if or.Some? then
        or.value.Array? && forall i | 0 <= i < |or.value.items| :: Evaluable(or.value.items[i])
      else true
    case _ => true
  }

  /** No `null` is reached: the runtime throws on `'not' in null`. */
  predicate NullFree(v: Value)
    requires Evaluable(v)
    decreases v
  {
    match v
    case Null => false
    case Object(_, and, or, not) =>
      if not.Some? then NullFree(not.value)
      else if and.Some? then forall i | 0 <= i < |and.value.items| :: NullFree(and.value.items[i])
      else if or.Some? then forall i | 0 <= i < |or.value.items| :: NullFree(or.value.items[i])
      else true
    case _ => true
  }

  /** The operands of an expression: the values handed to `getIteratorResult`. */
  function Leaves(v: Value): set<Value>
    requires Evaluable(v)
    decreases v
  {
    match v
    case Null => {}
    case Object(_, and, or, not) =>
      if not.Some? then Leaves(not.value)
      else if and.Some? then LeavesOf(and.value.items)
      else if or.Some? then LeavesOf(or.value.items)
      else {v}
    case _ => {v}
  }

  function LeavesOf(items: seq<Value>): set<Value>
    requires forall i | 0 <= i < |items| :: Evaluable(items[i])
    decreases items
  {
    if items == [] then {} else Leaves(items[0]) + LeavesOf(items[1..])
  }

  /** The outcome of one operand: a function operand is itself invoked with no
      arguments; any other operand is passed to the iterator. */
  function LeafOutcome(b: Behaviour, iter: Fn, x: Value): Outcome {
    if x.Function? then Invoke(b, x.fn, []) else Invoke(b, iter, [x])
  }

  /** An evaluation: its settled outcome, and the operands it reached, in the
      order it reached them. */
  datatype Run = Run(outcome: Outcome, trace: seq<Value>)

  /** `evaluateExpression` with the default parallel limit of 1. A `not` negates
      the truthiness of its child's result; an `and` or `or` evaluates its
      children left to right with async's `everyLimit`/`someLimit`; an operand
      settles as `LeafOutcome` says. */
  function Eval(b: Behaviour, iter: Fn, v: Value): Run
    requires Evaluable(v)
    decreases v
  {
    match v
    case Null => Run(Err(TypeError(InOperatorOnNull)), [])
    case Object(_, and, or, not) =>
      if not.Some? then
        var inner := Eval(b, iter, not.value);
        Run(if inner.outcome.Ok? then Ok(Bool(!Truthy(inner.outcome.value))) else inner.outcome, inner.trace)
      else if and.Some? then EvalSiblings(b, iter, and.value.items, true)
      else if or.Some? then EvalSiblings(b, iter, or.value.items, false)
      else Run(LeafOutcome(b, iter, v), [v])
    case _ => Run(LeafOutcome(b, iter, v), [v])
  }

  /** Whether a child's run lets a sibling loop go on: `every` (an `and`) goes on
      while children are truthy, `some` (an `or`) while they are falsy. */
  predicate Continues(r: Run, every: bool) {
    r.outcome.Ok? && Truthy(r.outcome.value) == every
  }

  /** The sibling loop of async 1.x's `everyLimit` (every = true) or `someLimit`
      (every = false) at limit 1: a child that rejects rejects the node and no
      further child is started; a deciding child (falsy for every, truthy for
      some) settles the node; when all children are done the node settles to
      `every`. */
  function EvalSiblings(b: Behaviour, iter: Fn, items: seq<Value>, every: bool): Run
    requires forall i | 0 <= i < |items| :: Evaluable(items[i])
    decreases items
  {
    if items == [] then Run(Ok(Bool(every)), [])
    else
      var first := Eval(b, iter, items[0]);
      if first.outcome.Err? then first
      else if !Continues(first, every) then Run(Ok(Bool(!every)), first.trace)
      else
        var rest := EvalSiblings(b, iter, items[1..], every);
        Run(rest.outcome, first.trace + rest.trace)
  }

  /** An evaluation reaches only operands of the expression. */
  lemma {:induction false} EvalReachesOperands(b: Behaviour, iter: Fn, v: Value)
    requires Evaluable(v)
    ensures forall x | x in Eval(b, iter, v).trace :: x in Leaves(v)
    decreases v
  {
    match v
    case Object(_, and, or, not) =>
      if not.Some? {
        EvalReachesOperands(b, iter, not.value);
      } else if and.Some? {
        SiblingsReachOperands(b, iter, and.value.items, true);
      } else if or.Some? {
        SiblingsReachOperands(b, iter, or.value.items, false);
      }
    case _ =>
  }

  /** A sibling loop reaches only operands of its children. */
  lemma {:induction false} SiblingsReachOperands(b: Behaviour, iter: Fn, items: seq<Value>, every: bool)
    requires forall i | 0 <= i < |items| :: Evaluable(items[i])
    ensures forall x | x in EvalSiblings(b, iter, items, every).trace :: x in LeavesOf(items)
    decreases items
  {
    if items != [] {
      EvalReachesOperands(b, iter, items[0]);
      SiblingsReachOperands(b, iter, items[1..], every);
    }
  }

  /** The operands reached by evaluating each child in full, one after another. */
  function Traces(b: Behaviour, iter: Fn, items: seq<Value>): seq<Value>
    requires forall i | 0 <= i < |items| :: Evaluable(items[i])
    decreases items
  {
    if items == [] then [] else Eval(b, iter, items[0]).trace + Traces(b, iter, items[1..])
  }

  /** The plain boolean meaning of an expression under a truth assignment to its
      operands: `not` negates, `and` holds when every child holds, `or` when some
      child does. */
  ghost predicate Meaning(v: Value, truth: Value -> bool)
    requires Evaluable(v)
    decreases v
  {
    match v
    case Null => false
    case Object(_, and, or, not) =>
      if not.Some? then !Meaning(not.value, truth)
      else if and.Some? then
        forall i | 0 <= i < |and.value.items| :: Meaning(and.value.items[i], truth)
      else if or.Some? then
        exists i | 0 <= i < |or.value.items| :: Meaning(or.value.items[i], truth)
      else truth(v)
    case _ => truth(v)
  }

  /** Short-circuiting. Let k be the first child that does not let the loop go
      on. Then exactly the children up to and including k are evaluated, and the
      node settles to that child's error or to the deciding value; when there is
      no such child, every child is evaluated and the node settles to `every`.
      So an `and` evaluates nothing after its first falsy child and an `or`
      nothing after its first truthy child. */
  lemma {:induction false} SiblingsStopAtFirstDecider(b: Behaviour, iter: Fn, items: seq<Value>, every: bool, k: nat)
    requires forall i | 0 <= i < |items| :: Evaluable(items[i])
    requires k <= |items|
    requires forall j | 0 <= j < k :: Continues(Eval(b, iter, items[j]), every)
    requires k < |items| ==> !Continues(Eval(b, iter, items[k]), every)
    ensures k == |items| ==>
      EvalSiblings(b, iter, items, every) == Run(Ok(Bool(every)), Traces(b, iter, items))
    ensures k < |items| ==>
      && EvalSiblings(b, iter, items, every).trace == Traces(b, iter, items[..k + 1])
      && EvalSiblings(b, iter, items, every).outcome ==
           (var decider := Eval(b, iter, items[k]).outcome;
            if decider.Err? then decider else Ok(Bool(!every)))
    decreases items
  {
    if items == [] {
    } else if k == 0 {
      assert items[..1] == [items[0]];
      assert Traces(b, iter, [items[0]]) == Eval(b, iter, items[0]).trace + Traces(b, iter, []);
    } else {
      assert Continues(Eval(b, iter, items[0]), every);
      var tail := items[1..];
      forall j | 0 <= j < k - 1
        ensures Continues(Eval(b, iter, tail[j]), every)
      {
        assert tail[j] == items[j + 1];
      }
      if k < |items| {
        assert tail[k - 1] == items[k];
      }
      SiblingsStopAtFirstDecider(b, iter, tail, every, k - 1);
      if k < |items| {
        var prefix := items[..k + 1];
        assert prefix[0] == items[0] && prefix[1..] == tail[..k];
      }
    }
  }

  /** Boolean correctness: when the iterator settles every operand of `v` without
      failing, and its results' truthiness is `truth`, evaluation succeeds and
      the truthiness of its result is the boolean meaning of `v`. */
  lemma {:induction false} EvalComputesMeaning(b: Behaviour, iter: Fn, v: Value, truth: Value -> bool)
    requires Evaluable(v) && NullFree(v)
    requires forall x | x in Leaves(v) ::
      LeafOutcome(b, iter, x).Ok? && Truthy(LeafOutcome(b, iter, x).value) == truth(x)
    ensures Eval(b, iter, v).outcome.Ok?
    ensures Truthy(Eval(b, iter, v).outcome.value) == Meaning(v, truth)
    decreases v
  {
    match v
    case Object(_, and, or, not) =>
      if not.Some? {
        EvalComputesMeaning(b, iter, not.value, truth);
      } else if and.Some? {
        SiblingsComputeMeaning(b, iter, and.value.items, true, truth);
      } else if or.Some? {
        SiblingsComputeMeaning(b, iter, or.value.items, false, truth);
      }
    case _ =>
  }

  lemma {:induction false} SiblingsComputeMeaning(b: Behaviour, iter: Fn, items: seq<Value>, every: bool, truth: Value -> bool)
    requires forall i | 0 <= i < |items| :: Evaluable(items[i]) && NullFree(items[i])
    requires forall x | x in LeavesOf(items) ::
      LeafOutcome(b, iter, x).Ok? && Truthy(LeafOutcome(b, iter, x).value) == truth(x)
    ensures EvalSiblings(b, iter, items, every).outcome.Ok?
    ensures Truthy(EvalSiblings(b, iter, items, every).outcome.value) ==
      if every then forall i | 0 <= i < |items| :: Meaning(items[i], truth)
      else exists i | 0 <= i < |items| :: Meaning(items[i], truth)
    decreases items
  {
    if items != [] {
      EvalComputesMeaning(b, iter, items[0], truth);
      var tail := items[1..];
      SiblingsComputeMeaning(b, iter, tail, every, truth);
      forall i | 0 <= i < |tail| ensures tail[i] == items[i + 1] { }
    }
  }

  /** A run stops at its first failing operand: every operand reached before
      the last one settled successfully, and the run fails exactly when the last
      operand reached failed, with that operand's error. */
  predicate StopsAtFirstError(b: Behaviour, iter: Fn, r: Run) {
    && (forall j | 0 <= j < |r.trace| - 1 :: LeafOutcome(b, iter, r.trace[j]).Ok?)
    && (r.outcome.Err? <==> r.trace != [] && LeafOutcome(b, iter, r.trace[|r.trace| - 1]).Err?)
    && (r.outcome.Err? ==> r.outcome == LeafOutcome(b, iter, r.trace[|r.trace| - 1]))
  }

  /** A successful run followed by another run stops at the latter's first
      error. */
  lemma ThenStopsAtFirstError(b: Behaviour, iter: Fn, first: Run, rest: Run)
    requires StopsAtFirstError(b, iter, first) && first.outcome.Ok?
    requires StopsAtFirstError(b, iter, rest)
    ensures StopsAtFirstError(b, iter, Run(rest.outcome, first.trace + rest.trace))
  {
    var t := first.trace + rest.trace;
    if rest.trace == [] {
      assert t == first.trace;
    } else {
      assert t[|t| - 1] == rest.trace[|rest.trace| - 1];
      forall j | 0 <= j < |t| - 1 ensures LeafOutcome(b, iter, t[j]).Ok? {
        if j >= |first.trace| {
          assert t[j] == rest.trace[j - |first.trace|];
        } else {
          assert t[j] == first.trace[j];
        }
      }
    }
  }

  /** Error propagation: the evaluation of a null-free expression stops at the
      first operand whose invocation fails, and then fails with exactly that
      operand's error; it fails only so. */
  lemma {:induction false} EvalFailsWithFirstLeafError(b: Behaviour, iter: Fn, v: Value)
    requires Evaluable(v) && NullFree(v)
    ensures StopsAtFirstError(b, iter, Eval(b, iter, v))
    decreases v
  {
    match v
    case Object(_, and, or, not) =>
      if not.Some? {
        EvalFailsWithFirstLeafError(b, iter, not.value);
      } else if and.Some? {
        SiblingsFailWithFirstLeafError(b, iter, and.value.items, true);
      } else if or.Some? {
        SiblingsFailWithFirstLeafError(b, iter, or.value.items, false);
      }
    case _ =>
  }

  lemma {:induction false} SiblingsFailWithFirstLeafError(b: Behaviour, iter: Fn, items: seq<Value>, every: bool)
    requires forall i | 0 <= i < |items| :: Evaluable(items[i]) && NullFree(items[i])
    ensures StopsAtFirstError(b, iter, EvalSiblings(b, iter, items, every))
    decreases items
  {
    if items != [] {
      var first := Eval(b, iter, items[0]);
      EvalFailsWithFirstLeafError(b, iter, items[0]);
      if first.outcome.Ok? && Continues(first, every) {
        SiblingsFailWithFirstLeafError(b, iter, items[1..], every);
        ThenStopsAtFirstError(b, iter, first, EvalSiblings(b, iter, items[1..], every));
      }
    }
  }

  /** Every expression `validateExpression` accepts can be evaluated and holds
      no `null`. */
  lemma {:induction false} WellFormedIsEvaluable(v: Value)
    requires WellFormed(v)
    ensures Evaluable(v) && NullFree(v)
    decreases v
  {
    match v
    case Object(_, and, or, not) =>
      if not.Some? {
        WellFormedIsEvaluable(not.value);
      } else if and.Some? || or.Some? {
        var operands := if and.Some? then and.value else or.value;
        forall i | 0 <= i < |operands.items|
          ensures Evaluable(operands.items[i]) && NullFree(operands.items[i])
        {
          WellFormedIsEvaluable(operands.items[i]);
        }
      }
    case _ =>
  }
}
