/** JavaScript values as they cross the evaluator's boundary: operands,
    expression objects, predicate results and thrown errors. */
module Values {

  datatype Option<T> = None | Some(value: T)

  /** A JavaScript number: a finite value, NaN, or one of the two infinities. */
  datatype Number = Finite(r: real) | NaN | Infinity(negative: bool)

  /** A JavaScript function, known by its identity and its declared arity
      (the number of formal parameters, `fn.length`). */
  datatype Fn = Fn(ref: nat, arity: nat)

  /** A JavaScript value. Arrays and objects carry a reference `ref`: two of them
      are the same value exactly when they are the same object, which is how a
      `Map` compares object keys. An object's only properties that matter here
      are the marker keys `and`, `or` and `not`; `Some(x)` means the key is
      present (`'and' in obj`) with value `x`, which may itself be `Undefined`. */
  datatype Value =
    | Undefined
    | Null
    | Bool(b: bool)
    | Num(n: Number)
    | Str(s: string)
    | Function(fn: Fn)
    | Array(ref: nat, items: seq<Value>)
    | Object(ref: nat, and: Option<Value>, or: Option<Value>, not: Option<Value>)

  /** JavaScript truthiness, as used by `!result`, by async's truth tests and
      by the callback adapter's `err ? reject(err) : resolve(result)`. */
  predicate Truthy(v: Value) {
    match v
    case Undefined => false
    case Null => false
    case Bool(b) => b
    case Num(n) => n.Infinity? || (n.Finite? && n.r != 0.0)
    case Str(s) => s != ""
    case Function(_) => true
    case Array(_, _) => true
    case Object(_, _, _, _) => true
  }

  /** The TypeErrors the evaluator throws, one per message in the source. */
  datatype TypeErrorKind =
    | IteratorNotFunction     // the iterator must be a function
    | BadParallelLimit        // the parallelLimit must be a positive integer
    | NotWithAndOr            // a `not` operator must not also have `and` or `or`
    | AndWithOr               // both an `and` and an `or` operator
    | OperandsNotArray        // the operands must be an array
    | TooFewOperands          // at least two operands
    | InOperatorOnNull        // the runtime's TypeError for `'and' in null`
    | ArityMismatch           // iterator accepts neither N nor N+1 arguments

  /** Why an operation failed: a value rejected or passed as an error by a
      caller's function, or a TypeError raised by the evaluator itself. */
  datatype Failure = Thrown(value: Value) | TypeError(kind: TypeErrorKind)

  /** The settled result of an asynchronous operation. */
  datatype Outcome = Ok(value: Value) | Err(error: Failure)

  /** The result of a setter: it either stores the value or throws. */
  datatype Status = Done | Threw(error: Failure)

  predicate NoDuplicates<T(==)>(s: seq<T>) {
    forall i, j | 0 <= i < j < |s| :: s[i] != s[j]
  }
}
