/** `_invoke`: calling a caller-supplied function in whichever of the two
    asynchronous conventions its declared arity selects, and normalising the
    result to one settled outcome. */
module Invocation {
  import opened Values

  /** The calling convention `_invoke` picks. */
  datatype Convention = PromiseStyle | CallbackStyle | Mismatch

  /** The arity test of `_invoke`: exactly the passed arguments means the function
      returns a promise; one more means it takes a trailing `(err, result)`
      callback; any other arity is refused. */
  function Dispatch(arity: nat, argCount: nat): (c: Convention)
    ensures c == PromiseStyle <==> arity == argCount
    ensures c == CallbackStyle <==> arity == argCount + 1
    ensures c == Mismatch <==> arity != argCount && arity != argCount + 1
  {
    if arity == argCount then PromiseStyle
    else if arity == argCount + 1 then CallbackStyle
    else Mismatch
  }

  /** How a promise returned by a promise-style function settles. */
  datatype Settled = Resolved(value: Value) | Rejected(reason: Value)

  /** What the caller's functions do, as deterministic functions of the function
      and its arguments: the settled promise a promise-style call returns, and the
      `(err, result)` pair a callback-style call passes to its callback. The
      functions themselves are outside this model. */
  datatype Behaviour = Behaviour(
    promised: (Fn, seq<Value>) -> Settled,
    calledBack: (Fn, seq<Value>) -> (Value, Value))

  /** The callback adapter: `err ? reject(err) : resolve(result)`. */
  function Settle(err: Value, result: Value): (o: Outcome)
    ensures o.Err? <==> Truthy(err)
    ensures o.Err? ==> o.error == Thrown(err)
    ensures o.Ok? ==> o.value == result
  {
    if Truthy(err) then Err(Thrown(err)) else Ok(result)
  }

  /** The outcome of `_invoke(fn, ...args)`. A function of the wrong arity is not
      called: the TypeError is raised before it runs. */
  function Invoke(b: Behaviour, fn: Fn, args: seq<Value>): (o: Outcome)
    ensures o == Err(TypeError(ArityMismatch)) <==> Dispatch(fn.arity, |args|) == Mismatch
    ensures Dispatch(fn.arity, |args|) == PromiseStyle ==>
      (o.Ok? <==> b.promised(fn, args).Resolved?)
    ensures Dispatch(fn.arity, |args|) == CallbackStyle ==>
      (o.Ok? <==> !Truthy(b.calledBack(fn, args).0))
    ensures Dispatch(fn.arity, |args|) == PromiseStyle ==>
      o == if b.promised(fn, args).Resolved? then Ok(b.promised(fn, args).value)
           else Err(Thrown(b.promised(fn, args).reason))
    ensures Dispatch(fn.arity, |args|) == CallbackStyle ==>
      o == Settle(b.calledBack(fn, args).0, b.calledBack(fn, args).1)
  {
    match Dispatch(fn.arity, |args|)
    case PromiseStyle =>
      (match b.promised(fn, args)
       case Resolved(x) => Ok(x)
       case Rejected(e) => Err(Thrown(e)))
    case CallbackStyle =>
      var (err, result) := b.calledBack(fn, args);
      Settle(err, result)
    case Mismatch => Err(TypeError(ArityMismatch))
  }

  /** One call of a caller's function, with its arguments. */
  datatype Call = Call(fn: Fn, args: seq<Value>)

  /** The calls `_invoke(fn, ...args)` makes: one, unless the arity is refused. */
  function CallsMade(fn: Fn, args: seq<Value>): (cs: seq<Call>)
    ensures cs == [] || cs == [Call(fn, args)]
    ensures forall b :: cs == [] <==> Invoke(b, fn, args) == Err(TypeError(ArityMismatch))
  {
    if Dispatch(fn.arity, |args|) == Mismatch then [] else [Call(fn, args)]
  }
}
