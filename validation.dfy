/** `validateExpression`: the structural check an expression passes before it is
    evaluated. A node is a bare operand unless it is an object carrying one of the
    marker keys `and`, `or` or `not`. */
module Validation {
  import opened Values

  /** `validateExpression` returns true or throws a TypeError of some kind. */
  datatype Verdict = Valid | Invalid(reason: TypeErrorKind)

  /** How many of the three marker keys an object carries. */
  function Markers(v: Value): nat
    requires v.Object?
  {
    (if v.and.Some? then 1 else 0) + (if v.or.Some? then 1 else 0) + (if v.not.Some? then 1 else 0)
  }

  /** The expression grammar, stated declaratively: every non-object value and
      every object without marker keys is an operand; an expression object carries
      exactly one marker; a `not` wraps one expression; an `and` or `or` holds an
      array of at least two expressions. `null` is not a value the grammar admits. */
  predicate WellFormed(v: Value)
    decreases v
  {
    match v
    case Null => false
    case Object(_, and, or, not) =>
      Markers(v) == 0 ||
      (&& Markers(v) == 1
       && (not.Some? ==> WellFormed(not.value))
       && (and.Some? ==> OperandList(and.value))
       && (or.Some? ==> OperandList(or.value)))
    case _ => true
  }

  /** The value of an `and` or `or` key in a well-formed expression. */
  predicate OperandList(f: Value)
    decreases f
  {
    f.Array? && |f.items| >= 2 && forall i | 0 <= i < |f.items| :: WellFormed(f.items[i])
  }

  /** The checks of `validateExpression`, in the source's order, each with the
      TypeError it throws. Accepts exactly the grammar. */
  function Validate(v: Value): (r: Verdict)
    ensures r.Valid? <==> WellFormed(v)
    decreases v
  {
    match v
    case Null => Invalid(InOperatorOnNull)
    case Object(_, and, or, not) =>
      if and.None? && or.None? && not.None? then Valid
      else if not.Some? then
        (if and.Some? || or.Some? then Invalid(NotWithAndOr) else Validate(not.value))
      else if and.Some? && or.Some? then Invalid(AndWithOr)
      else
        var operands := if and.Some? then and.value else or.value;
        if !operands.Array? then Invalid(OperandsNotArray)
        else if |operands.items| < 2 then Invalid(TooFewOperands)
        else ValidateAll(operands.items)
    case _ => Valid
  }

  /** `operands.forEach(validateExpression)`: valid when every operand is, and
      otherwise fails with the error of the first invalid operand. */
  function ValidateAll(items: seq<Value>): (r: Verdict)
    ensures r.Valid? <==> forall i | 0 <= i < |items| :: WellFormed(items[i])
    ensures r.Invalid? ==>
      exists k | 0 <= k < |items| ::
        Validate(items[k]) == r && forall j | 0 <= j < k :: Validate(items[j]).Valid?
    decreases items
  {
    if items == [] then Valid
    else
      var first := Validate(items[0]);
      if first.Invalid? then first else ValidateAll(items[1..])
  }
}
