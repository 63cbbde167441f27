# async-boolean-expression-evaluator in Dafny

This project models `AsyncBooleanExpressionEvaluator`, which evaluates boolean
expressions whose operands are judged by a caller-supplied asynchronous iterator.
An expression is either a bare operand, `{not: e}`, `{and: [e1, e2, ...]}` or
`{or: [e1, e2, ...]}`. The evaluator keeps one memo cache per iterator. That
cache maps each operand to the settled result of the iterator on it.

The model has six modules:

- `Values` holds the JavaScript values the library handles, as a datatype.
  Objects and arrays carry an identity (`ref`) and functions carry an identity
  and a declared arity. It also defines JS truthiness and the outcomes: a
  resolved value, a rejection with a thrown value, or a `TypeError` of a named
  kind.
- `Validation` covers `validateExpression`. `WellFormed` is a declarative
  grammar, and `Validate` runs the source's checks in the source's order, each
  with its own `TypeError`.
- `Invocation` covers `_invoke`. It dispatches on the function's arity to a
  promise style, a callback style or a refusal. The callback's `(err, result)`
  pair becomes a single outcome. What a caller's function does is a parameter
  (`Behaviour`).
- `Semantics` covers `evaluateExpression` at a parallel limit of 1. `Eval`
  gives the outcome and the sequence of operands reached (the trace). Lemmas
  prove short-circuiting, boolean correctness and first-error propagation.
- `Evaluator` is the class itself. It holds the iterator, the parallel limit,
  the cache, and a ghost log of every call of a caller's function. Every
  evaluating method is proved against `Semantics`. The class invariant ties each cache
  entry to what the current iterator settles to. `Stored` and `CallsOf` say
  exactly which cache entries and which calls an evaluation adds, given the
  operands it reached. `IteratorCalledOncePerUncachedOperand` is the cache's
  promise: the iterator is called once per operand that was not cached.
  async 1.x starts the next sibling from the previous sibling's `done`
  callback, so the sibling loop is a recursive method over the remaining
  operands.
- `Scenarios` states the repository's test cases over the model.

## Model

| member | source | states |
|---|---|---|
| Values.Truthy | lib/async-boolean-expression-evaluator.js:152 | JavaScript truthiness, as `!result` at line 152, the callback adapter at line 217 and async's truth tests read it: false exactly for `undefined`, `null`, `false`, `0`, `NaN` and the empty string. It has no contract of its own; `Settle` and the `Semantics` lemmas state what depends on it. |
| Validation.Validate | lib/async-boolean-expression-evaluator.js:100-140 | An expression is accepted exactly when it is well formed. A non-object or a marker-less object is an operand. An object carries exactly one of `and`/`or`/`not`. A `not` wraps a well-formed expression. An `and`/`or` holds an array of at least two well-formed expressions. `null` is refused. |
| Validation.ValidateAll | lib/async-boolean-expression-evaluator.js:137 | An operand list is valid iff every operand is well formed. Otherwise the verdict is the error of the first invalid operand, and every operand before it was valid. |
| Invocation.Dispatch | lib/async-boolean-expression-evaluator.js:212-222 | Promise style iff the arity equals the argument count. Callback style iff the arity is one more. Refused iff it is neither. |
| Invocation.Settle | lib/async-boolean-expression-evaluator.js:216-218 | The callback adapter rejects with `err` exactly when `err` is truthy, and otherwise resolves with `result`. |
| Invocation.Invoke | lib/async-boolean-expression-evaluator.js:210-222 | The arity TypeError occurs iff the arity is refused. A promise-style call succeeds iff the function's promise resolves. A callback-style call succeeds iff the error it calls back with is falsy. The result is passed through unchanged: a promise-style call settles to the function's resolved value or rejection reason, and a callback-style call to `Settle(err, result)` of the pair it calls back with. |
| Invocation.CallsMade | lib/async-boolean-expression-evaluator.js:210-222 | `_invoke` makes at most the one call it was asked for. It makes none exactly when it throws the arity TypeError, whatever the functions do. |
| Semantics.LeafOutcome | lib/async-boolean-expression-evaluator.js:190-198 | What an operand settles to: a function operand as `_invoke(operand)` with no arguments, any other operand as `_invoke(iterator, operand)`. It has no contract of its own; `GetIteratorResult` is proved to return it whether or not the operand was cached. |
| Semantics.Eval | lib/async-boolean-expression-evaluator.js:150-173 | The reference semantics of `evaluateExpression` at limit 1: the outcome and the operands reached, in order. `null` raises the `in` TypeError, `not` negates its child's truthiness, `and`/`or` run the sibling loop, and anything else is an operand. It has no contract of its own; its properties are `EvalReachesOperands`, `EvalComputesMeaning` and `EvalFailsWithFirstLeafError`. |
| Semantics.EvalSiblings | lib/async-boolean-expression-evaluator.js:159-173 | The async 1.x `everyLimit`/`someLimit` loop at limit 1: a rejecting child ends it with that error, a deciding child ends it with the deciding boolean, and otherwise it goes on to the next child. It has no contract of its own; its properties are `SiblingsReachOperands`, `SiblingsStopAtFirstDecider`, `SiblingsComputeMeaning` and `SiblingsFailWithFirstLeafError`. |
| Semantics.EvalReachesOperands | lib/async-boolean-expression-evaluator.js:150-173 | Every operand an evaluation reaches is an operand of the expression. |
| Semantics.SiblingsReachOperands | lib/async-boolean-expression-evaluator.js:159-173 | Every operand a sibling loop reaches is an operand of one of its children. |
| Semantics.SiblingsStopAtFirstDecider | lib/async-boolean-expression-evaluator.js:159-172 | Let k be the first child that rejects, or is falsy under `and`, or truthy under `or`. Exactly children 0..k are evaluated, and the node settles to k's error or to the deciding boolean. With no such child, every child is evaluated and the node settles to true for `and` and false for `or`. |
| Semantics.EvalComputesMeaning | lib/async-boolean-expression-evaluator.js:150-172 | For an expression that contains no `null` (every expression validation accepts): if every operand settles successfully with truthiness `truth(x)`, the evaluation succeeds. Its result's truthiness is then the boolean meaning of the expression: `not` negates, `and` is all, `or` is some. |
| Semantics.SiblingsComputeMeaning | lib/async-boolean-expression-evaluator.js:159-172 | The same for a sibling loop whose children contain no `null`: it succeeds, and its result is true iff all children (`and`) or some child (`or`) mean true. |
| Semantics.ThenStopsAtFirstError | lib/async-boolean-expression-evaluator.js:162-172 | A loop whose first child succeeded and whose remaining children stop at their first error stops at its first error as a whole. |
| Semantics.EvalFailsWithFirstLeafError | lib/async-boolean-expression-evaluator.js:150-172 | For an expression that contains no `null` (every expression validation accepts): every operand reached before the last one settled successfully, and the evaluation fails iff the last operand reached fails, and then with exactly that operand's error. |
| Semantics.SiblingsFailWithFirstLeafError | lib/async-boolean-expression-evaluator.js:162-172 | The same first-error property for a sibling loop whose children contain no `null`, where a rejection ends the loop. A `null` is not an operand: `'not' in null` throws inside the loop and rejects the node without any operand failing. |
| Semantics.WellFormedIsEvaluable | lib/async-boolean-expression-evaluator.js:29-31 | Every expression validation accepts can be evaluated, and contains no `null`. |
| Evaluator.ParallelLimitOf | lib/async-boolean-expression-evaluator.js:71-77 | The setter's test accepts exactly the finite integral numbers of at least 1, and the stored limit is that number. |
| Evaluator.Kept | lib/async-boolean-expression-evaluator.js:191-197 | What reaching one operand adds to the cache: the operand, unless it is a function or the iterator's arity makes `_invoke` throw before `set`. |
| Evaluator.Stored | lib/async-boolean-expression-evaluator.js:195-197 | The cache keys an evaluation adds: the kept operands of its trace. `StoredOperands` characterises it. |
| Evaluator.Fresh | lib/async-boolean-expression-evaluator.js:195-197 | The operands the iterator is invoked on, in order: each stored operand the first time it is reached, unless it was cached. `FreshDistinct` and `FreshCoversStored` characterise it. |
| Evaluator.CallsOf | lib/async-boolean-expression-evaluator.js:190-198 | The calls an evaluation makes, in order, given its trace and the keys cached before: a function operand calls itself every time, and any other operand calls the iterator unless cached. `IteratorCalledOncePerUncachedOperand` states the count it gives. |
| Evaluator.StoredOperands | lib/async-boolean-expression-evaluator.js:190-198 | The cache keeps an operand reached iff it is not a function and the iterator's arity is accepted. |
| Evaluator.StoredAppend | lib/async-boolean-expression-evaluator.js:195-197 | Reaching two traces one after the other stores the operands of both. |
| Evaluator.CallsOfAppend | lib/async-boolean-expression-evaluator.js:190-198 | Reaching two traces one after the other makes the calls of the first, then those of the second with the cache the first left behind. |
| Evaluator.FreshDistinct | lib/async-boolean-expression-evaluator.js:195-197 | The iterator is invoked only on stored operands that were not cached, and never twice on the same operand. |
| Evaluator.FreshCoversStored | lib/async-boolean-expression-evaluator.js:195-197 | Every stored operand that was not cached is invoked. |
| Evaluator.IteratorCallsAreFresh | lib/async-boolean-expression-evaluator.js:190-198 | The calls of the iterator with `x` as its argument are exactly the fresh invocations on `x`. A function operand never calls the iterator with an operand. |
| Evaluator.IteratorCalledOncePerUncachedOperand | lib/async-boolean-expression-evaluator.js:195-198 | The iterator is called with an operand exactly once if the operand is stored and was not cached before, and never otherwise, however often the operand is reached. |
| Evaluator.IteratorCalledOnceFromEmptyCache | lib/async-boolean-expression-evaluator.js:195-198 | From an empty cache, the iterator is called exactly once with each stored operand reached, and never with any other. |
| Evaluator.ExtendsTwice | lib/async-boolean-expression-evaluator.js:195-197 | Two evaluations in a row grow the cache and the call log as one evaluation reaching both traces would. |
| Evaluator.AsyncBooleanExpressionEvaluator.Valid | lib/async-boolean-expression-evaluator.js:190-198 | The class invariant: the limit is at least 1 (line 72), and every cache entry is a non-function operand holding what the current iterator settles to on it, so a cache hit returns what a fresh call would. Every method keeps it. |
| Evaluator.AsyncBooleanExpressionEvaluator.constructor | lib/async-boolean-expression-evaluator.js:15-21 | A new evaluator has the given iterator, the default limit 1, an empty cache and no calls, and satisfies the invariant. |
| Evaluator.AsyncBooleanExpressionEvaluator.ClearCache | lib/async-boolean-expression-evaluator.js:90-92 | The cache is emptied. The invariant holds again whenever the limit is positive. |
| Evaluator.AsyncBooleanExpressionEvaluator.SetIterator | lib/async-boolean-expression-evaluator.js:57-64 | A non-function throws `TypeError` and changes nothing. A function is stored and the cache is emptied. The invariant is kept. |
| Evaluator.AsyncBooleanExpressionEvaluator.SetParallelLimit | lib/async-boolean-expression-evaluator.js:71-77 | An accepted value is stored. Any other value throws `TypeError` and keeps the old limit. |
| Evaluator.AsyncBooleanExpressionEvaluator.GetIteratorResult | lib/async-boolean-expression-evaluator.js:190-199 | The result is what the operand settles to. A function operand is called itself, with no arguments, and bypasses the cache. A cached operand changes nothing and calls nothing. An uncached operand calls the iterator once and caches its result, failures included, unless the arity is refused, in which case nothing is called or cached. The invariant is kept. |
| Evaluator.AsyncBooleanExpressionEvaluator.EvaluateExpression | lib/async-boolean-expression-evaluator.js:150-183 | The outcome is `Eval`'s, whatever was cached before. The cache grows by exactly the stored operands reached, and the calls made are exactly `CallsOf` the operands reached, given what was cached. The invariant is kept. |
| Evaluator.AsyncBooleanExpressionEvaluator.EvaluateOperands | lib/async-boolean-expression-evaluator.js:159-173 | The sibling loop's outcome, cache growth and calls are those of `EvalSiblings`'s run. |
| Evaluator.AsyncBooleanExpressionEvaluator.Execute | lib/async-boolean-expression-evaluator.js:29-32 | An invalid expression fails with its validation error before any call is made or the cache is touched. A valid one is evaluable and evaluates as `EvaluateExpression` does. |
| Scenarios.NumberLeaf | test/async-boolean-expression-evaluator.js:128-138 | The suite's iterator settles an integer to whether it is even. |
| Scenarios.OrStopsAtFirstEven | test/async-boolean-expression-evaluator.js:171-178 | `{or: [1, 2, 3]}` is true and never reaches 3. |
| Scenarios.AndStopsAtFirstOdd | test/async-boolean-expression-evaluator.js:192-199 | `{and: [2, 3, 6]}` is false and never reaches 6. |
| Scenarios.RejectionPropagates | test/async-boolean-expression-evaluator.js:257-266 | `{and: [2, 'a']}` rejects with the iterator's own error. |
| Scenarios.MalformedExpressionsRejected | test/async-boolean-expression-evaluator.js:96-114 | Each flat malformed expression of the suite is refused with its TypeError. |
| Scenarios.NestedMalformedExpressionRejected | test/async-boolean-expression-evaluator.js:116-118 | A malformed expression nested in a well-formed one is refused. |
| Scenarios.NestedNotMalformedExpressionRejected | test/async-boolean-expression-evaluator.js:120-122 | A malformed expression nested under a `not` is refused. |
| Scenarios.WellFormedExpressionsAccepted | test/async-boolean-expression-evaluator.js:71-86 | The suite's flat well-formed expressions are accepted. |
| Scenarios.NestedWellFormedExpressionsAccepted | test/async-boolean-expression-evaluator.js:87-94 | The suite's nested well-formed expressions are accepted. |
| Scenarios.BothEvenIsTrue | test/async-boolean-expression-evaluator.js:219-223 | The inner `{and: [2, 4]}` of that test's expression is true and reaches 2 and 4. |
| Scenarios.NotBothEvenIsFalse | test/async-boolean-expression-evaluator.js:219-223 | `{and: [2, {not: {and: [2, 4]}}]}` is false and reaches 2 twice. |
| Scenarios.SomeEvenIsTrue | test/async-boolean-expression-evaluator.js:234-241 | The inner `{or: [3, 2]}` of that test's expression is true and reaches 3, then 2. |
| Scenarios.EvenAndSomeEvenIsTrue | test/async-boolean-expression-evaluator.js:234-241 | `{and: [2, {or: [3, 2]}]}` is true and reaches 2 twice. |
| Scenarios.CacheTestExpressionsValid | test/async-boolean-expression-evaluator.js:243-250 | Both expressions of the cache tests are well formed. |
| Scenarios.RepeatedOperandCalledOnce | test/async-boolean-expression-evaluator.js:225-232 | Evaluating `{and: [2, {not: {and: [2, 4]}}]}` from an empty cache reaches 2 twice, but the iterator is called with 2 exactly once. |
| Scenarios.ExecuteTwice | lib/async-boolean-expression-evaluator.js:29-32 | Two executions on one new evaluator each give their `Eval` outcome. Together they make the calls of one evaluation reaching both traces from an empty cache. |
| Scenarios.BothTracesStored | test/async-boolean-expression-evaluator.js:243-255 | Of the operands the two cache-test expressions reach, 2 is stored, and nothing other than 2, 3 and 4 is. |
| Scenarios.CacheSharedAcrossExecutions | test/async-boolean-expression-evaluator.js:243-255 | After `{and: [2, {not: {and: [2, 4]}}]}` and then `{and: [2, {or: [3, 2]}]}`, the results are false and true. The iterator was called with 2 exactly once, and with no operand other than 2, 3 and 4. The suite's own test expects the opposite of both: the first result truthy, which disagrees with lines 219-223, and the second falsy, which disagrees with lines 234-241. Those assertions run inside a promise the test does not return. |

## Left out

- A parallel limit above 1. `EvaluateExpression`, `EvaluateOperands` and `Execute` require `parallelLimit == 1`. With more siblings in flight, the order of side effects and the in-flight sharing of cached promises depend on promise scheduling, which is not modelled. The setter itself is modelled for every value.
- Promises and their timing. Every call settles at once to an `Outcome`. A synchronous throw inside a caller's function and a rejection are not distinguished.
- GetIteratorResult: does not model a promise-style iterator that throws synchronously (line 213). That throw escapes `_invoke` before the `set` at line 196, so the source caches nothing and calls the iterator again each time the operand is reached. The model treats the throw as a rejection and caches it. A throw inside a callback-style function happens inside the promise executor at line 215, becomes a rejection and is cached, as modelled.
- IteratorCalledOncePerUncachedOperand: the exactly-once count assumes the iterator does not throw synchronously in promise style. Such an operand is called again each time it is reached, so the count can be more than one.
- Execute: an invalid expression makes `execute` throw synchronously at line 30, and no promise is returned. The model gives the same `Err` outcome it gives for a rejection.
- Concurrent `execute` calls on one evaluator, such as the `Promise.all` in the test at test/async-boolean-expression-evaluator.js:243-255. Their evaluations interleave and share pending cache entries. `CacheSharedAcrossExecutions` runs the two executions one after the other; at limit 1 the call counts come out the same, but the interleaving is not modelled.
- The optional `callback` argument of `execute`/`evaluateExpression` (lib/async-boolean-expression-evaluator.js:175-180). On the `and`/`or` path it receives the outcome as `(err, result)`. A callback that is not a function makes the call throw a `TypeError`. That throw comes only after the promise executor at line 162 has already started the first child, so the iterator may already have been called and the cache filled. For a `not` or a bare operand (lines 151-157) the callback is ignored and never called.
- The `iterator` and `parallelLimit` getters, which only read a field.
- The constructor's default `noop` iterator for an `undefined` argument, and a non-function argument. The constructor takes a function; refusing a non-function is the same test as `SetIterator`.
- Evaluating an `and`/`or` whose operand field is not an array, which async 1.x would iterate as an object's keys. `EvaluateExpression` requires `Evaluable`. Every expression that `Validate` accepts is evaluable, so `Execute` has no such requirement.
- JavaScript details outside the core: the prototype chain for `in`, properties other than `and`/`or`/`not`, `this` binding in `apply`, and `-0`.
- A `ref` names one object whose items and marker keys never change. An operand mutated between evaluations is not modelled; the source still finds it under the same Map key (line 195) and reuses its cached result, while the model sees a different key.
- The caller's functions are deterministic functions of their arguments (`Behaviour`). Their side effects and the values they see beyond their arguments are not modelled.
- The call log `calls` is ghost. It records the calls the source makes, to state the cache's promise; the source keeps no such log.
