# LDflex handler core, modelled in Dafny

This project models the core of LDflex. LDflex builds *path expressions*: chains of segments, each naming a `predicate`, that describe a walk through a linked-data graph. The project models three source files:

- **`MutationExpressionCallbackHandler`** (`mutation_expression_callback_handler.dfy`). The handler is built from `{ mutationType, args }`. It checks its preconditions in a fixed order:
  1. the argument list is not empty;
  2. the proxy's `pathExpression` is an array;
  3. that array has at least two segments;
  4. the last segment has a truthy `predicate`.

  It then splits the path expression into a *domain* (every segment but the last) and a *predicate* (the last segment's `predicate`). It emits one `{ mutationType, domainExpression, predicate, rangeExpression }` record per argument, in argument order. An argument whose `pathExpression` is not an array becomes the literal range `[{ subject: '"<arg>"' }]`. Each awaited `pathExpression` is modelled as a plain read. `Execute` also returns the ordered list of reads it performed, so "fails before the proxy is read" and "a failed check reads no argument" can be stated.
- **`ExecuteQueryHandler`** (`execute_query_handler.dfy`). `execute(path)` opens a closure scope in which `results` starts unset. The model makes that scope an explicit `State` and each `next()` a transition `Next` of it. On the first `next()` the handler:
  1. looks up the path's query engine;
  2. compiles the query through the inherited `super.execute(path)`;
  3. calls `queryEngine.execute` once.

  Every `next()` pulls one binding and extracts its single term. Streaming mode returns a factory whose iterators all share one `next`. Single mode performs one `next()` and resolves with its `value`. `State` also counts compilations and engine calls, so the memoisation can be stated as a property.
- **`test/util.js`** (`test_util.dfy`). `deindent` trims a string and then removes exactly six leading spaces from each line that has them. `createQueryEngine` is the reference engine: it yields one single-entry `Map` binding `'?value' ↦ { value }` per result. It is used to state the handler's end-to-end streaming behaviour.

`wrappers.dfy` holds `Option` and `Result`. Thrown errors are `Failure` values.

Notes on the model's behaviour:
- Arguments are told apart by the same duck-typed test as in the code: "is its `pathExpression` an array".
- A `null` or `undefined` argument, or a `null` or `undefined` last segment, makes a property read throw a `TypeError` (`ReadOfNullish`), and the call rejects without records.
- In single mode an empty stream resolves with `undefined` (`Resolved(None)`).
- `results` is set only after the engine returns a stream. A rejected compilation, or an engine whose `execute` throws, leaves it unset, so the next `next()` compiles and calls the engine again. `FailedCompilationIsRetried` and `ThrowingEngineIsCalledAgain` state this. "At most one engine call" (`EngineCalledAtMostOnce`) therefore assumes an engine that does not throw from `execute`. The reference engine is one.

## Model

| member | source | states |
|---|---|---|
| `MutationExpressionCallbackHandler.Execute` | src/MutationExpressionCallbackHandler.js:17-53 | Succeeds exactly when all of these hold: there are arguments; the proxy's `pathExpression` is an array of at least two segments; the last segment is an object with a truthy predicate; no argument is `null` or `undefined`. Otherwise it fails with the first failing check's error: no arguments (with no property read at all; with arguments, the proxy's `pathExpression` is always read first), no path expression, too short, a `TypeError` for a nullish last segment, missing predicate. A failed check reads no argument. Past the checks, the proxy is read first, then the arguments in order. A nullish argument's read throws a `TypeError` after the earlier arguments were read, and the call returns no record. On success there is one record per argument, in order. Each record has the handler's mutation type, a domain equal to the path expression minus exactly its last segment, and that segment's predicate. A path-like argument's range is its own path expression; a raw argument's range is `[{subject: "\"" + text + "\""}]`. |
| `MutationExpressionCallbackHandler.Expand` | src/MutationExpressionCallbackHandler.js:37-51 | The argument loop gives exactly `\|args\|` records. Record i carries the shared type, domain and predicate, and the range of argument i. |
| `MutationExpressionCallbackHandler.RangeExpression` | src/MutationExpressionCallbackHandler.js:40-42 | A path-like argument's range is its own path expression. A raw value gives exactly one segment with a subject and no predicate, and that subject is the value's string form wrapped in double quotes: dropping the first and last character gives the string form back. |
| `MutationExpressionCallbackHandler.FirstNullArgument` | src/MutationExpressionCallbackHandler.js:38-40 | The loop reaches argument i only if every argument before it is neither `null` nor `undefined`. The index returned is that of the first `null` or `undefined` argument, whose read throws, or the argument count if there is none. |
| `MutationExpressionCallbackHandler.RecordsShareDomainAndPredicate` | src/MutationExpressionCallbackHandler.js:44-50 | Any two records of one successful call have the same mutation type, domain expression and predicate. |
| `MutationExpressionCallbackHandler.InsertRawValueExample` | src/MutationExpressionCallbackHandler.js:17-53 | An insert of raw `"Alice"` on `knows.name` gives exactly one record: domain `[knows]`, predicate `name`, range `[{subject: "\"Alice\""}]`. |
| `MutationExpressionCallbackHandler.TwoArgumentsExample` | src/MutationExpressionCallbackHandler.js:38-53 | A raw and a path-like argument give two records in argument order. They share domain and predicate; the first has the literal range and the second the argument's own path expression. |
| `MutationExpressionCallbackHandler.NullArgumentExample` | src/MutationExpressionCallbackHandler.js:38-40 | With a raw first argument and a `null` second one, the proxy and both arguments are read, the second read throws a `TypeError`, and no record is returned. |
| `ExecuteQueryHandler.ExtractTerm` | src/ExecuteQueryHandler.js:37-55 | Fails with the single-variable error exactly when the binding does not have one entry. Otherwise it returns that entry's term with `value` and other fields unchanged. Both `toString` and `toPrimitive` then yield its `value`, whatever they yielded before. |
| `ExecuteQueryHandler.Next` | src/ExecuteQueryHandler.js:14-27 | Without an engine, `next()` rejects with the configuration error and changes nothing: no compilation, no engine call, `results` stays unset. Once `results` is set it is reused with no compilation and no engine call. The engine is called at most once per `next()`, and only while `results` is unset. `results` becomes set only from the stream the engine returned for the compiled query, and that first call replies with the stream's first binding. A rejected compilation, or an engine that throws, rejects `next()` with that error unchanged and leaves `results` unset. |
| `ExecuteQueryHandler.PullsReadOnward` | src/ExecuteQueryHandler.js:15-26 | Once `results` is set, `n` further `next()` calls read the same stream onward from the cursor, one binding each. They never compile again or call the engine again. |
| `ExecuteQueryHandler.FirstNextStarts` | src/ExecuteQueryHandler.js:15-26 | The first `next()` of a fresh scope compiles once, calls the engine once, and replies with the first binding of the returned stream. |
| `ExecuteQueryHandler.StreamInOrder` | src/ExecuteQueryHandler.js:14-26 | In a fresh scope the k-th `next()` gives the term of the k-th binding (or its extraction error). The call after the last binding gives the stream's error if it has one, and every later call gives `{ done }`. The query is compiled once and the engine called once. |
| `ExecuteQueryHandler.EngineCalledAtMostOnce` | src/ExecuteQueryHandler.js:13-23 | However many `next()` calls are made, the engine has been called at most once. It has been called exactly once if `results` is set and never if not. This assumes the engine's `execute` does not throw. |
| `ExecuteQueryHandler.NoEngineNoCalls` | src/ExecuteQueryHandler.js:17-19 | With no query engine every `next()` rejects with the configuration error naming the path. The scope is left exactly as it was. |
| `ExecuteQueryHandler.FailedCompilationIsRetried` | src/ExecuteQueryHandler.js:15-22 | A rejected compilation leaves `results` unset. Each of `n` calls compiles again and rejects with the compiler's error, and the engine is never called. |
| `ExecuteQueryHandler.ThrowingEngineIsCalledAgain` | src/ExecuteQueryHandler.js:15-22 | An engine whose `execute` throws is called again by every `next()`: after `n` calls it has been called `n` times and `results` is still unset. Each of those calls rejects with the engine's own error, unchanged. |
| `ExecuteQueryHandler.Streaming` | src/ExecuteQueryHandler.js:30 | A schedule of factory calls and `next()` calls gives one reply per `next()` call; factory calls give none. |
| `ExecuteQueryHandler.IteratorsShareOneScope` | src/ExecuteQueryHandler.js:30 | Any schedule of factory calls and `next()` calls on any of the produced iterators gives the replies and state of the same number of plain `next()` calls. |
| `ExecuteQueryHandler.FactoryStreamsInOrder` | src/ExecuteQueryHandler.js:12-30 | In streaming mode, from `execute(path)` on, whatever the schedule of factory and `next()` calls, the k-th `next()` gives the k-th reply of the stream the engine returned. The engine is called once as soon as there has been a `next()`. |
| `ExecuteQueryHandler.FactoryCallsEngineAtMostOnce` | src/ExecuteQueryHandler.js:12-30 | However the iterators of one `execute(path)` are used, the engine is called at most once. This assumes the engine's `execute` does not throw. |
| `ExecuteQueryHandler.SingleResolvesFirst` | src/ExecuteQueryHandler.js:12-31 | In single mode, `execute(path)` gives the single-value function, and calling it performs one `next()`. It resolves with the first binding's term, whose string form is its value, or rejects with the single-variable error if that binding is not single-entry. An empty stream resolves with `undefined`, or rejects with the stream's error. The engine is called once. |
| `ExecuteQueryHandler.SingleWithoutEngineRejects` | src/ExecuteQueryHandler.js:12-31 | In single mode without an engine, the function `execute(path)` returns rejects with the configuration error and leaves the scope unchanged. |
| `TestUtil.Trim` | test/util.js:2 | `trim()` returns the contiguous middle of the input. It starts after all leading whitespace, only whitespace follows it, and it neither starts nor ends with whitespace. |
| `TestUtil.Replace` | test/util.js:2 | The `/^ {6}?/mg` replacement shortens its input by a multiple of six. A first character that is not a space, or that is not at a line start, is kept. `ReplaceIsLinewise` states which characters are removed. |
| `TestUtil.ReplaceIsLinewise` | test/util.js:2 | The `/^ {6}?/mg` replacement, scanned character by character, equals per-line outdenting. Started at a line start it outdents every line; started inside a line it leaves that line's rest alone. |
| `TestUtil.ReplaceOutdentsAll` | test/util.js:2 | From the start of the input the replacement outdents every line and rejoins the lines. |
| `TestUtil.Deindent` | test/util.js:1-3 | `deindent(s)` is `s.trim()` shortened by a multiple of six. It is empty exactly when `s` is blank, and otherwise starts with the same non-whitespace character as `s.trim()`. |
| `TestUtil.DeindentLines` | test/util.js:2 | `deindent(s)` has as many lines as `s.trim()`. A line starting with six spaces loses exactly those six; every other line is unchanged. |
| `TestUtil.DeindentKeepsFirstLine` | test/util.js:2 | The first line of `deindent(s)` equals the first line of `s.trim()`. |
| `TestUtil.OutdentRemovesAtMostSix` | test/util.js:2 | A line with n ≥ 6 leading spaces keeps n − 6, so twelve keep six; a line with fewer keeps all of them. |
| `TestUtil.LeadingSpacesIndented` | test/util.js:2 | The regular expression matches on a line exactly when it has six or more leading spaces. |
| `TestUtil.DeindentRemovesOnlyIndents` | test/util.js:2 | `deindent(s)` has as many line feeds as `s.trim()`. Its length is that of `s.trim()` minus six per line that starts with six spaces. |
| `TestUtil.ReferenceBindings` | test/util.js:8-9 | The generator yields one binding per result, in order, each with the single entry `?value` whose term's value is that result. |
| `TestUtil.CreateQueryEngine` | test/util.js:5-11 | Whatever the query, the reference engine returns without throwing a stream of exactly the reference bindings, one per result, that ends normally. |
| `TestUtil.ReferenceEngineStreams` | test/util.js:5-11 | Over the reference engine in streaming mode, from `execute(path)` on, whatever the schedule of factory and `next()` calls, `next()` number k gives a term whose value and string form are result k. After the last result every call gives `{ done }`. The cardinality error never occurs, and the engine is called once. |

## Left out

- `SparqlHandler` and query compilation are not part of this model. `super.execute(path)` is an opaque, possibly rejecting function from path to query string (`Handler.compile`).
- Real query engines and the async-iterator protocol are not modelled. An engine is a function from query to either a thrown error or a stream. A stream is a finite list of bindings, optionally followed by one rejected pull, after which every pull gives `{ done }`, as an async generator does. An iterator that keeps rejecting, or that rejects before its last binding and then goes on, is not modelled.
- `async`/`await` is modelled as sequential steps. Overlapping `next()` calls are not modelled: if a consumer starts a second `next()` before the first has set `results`, both would compile and call the engine.
- EngineCalledAtMostOnce: assumes the engine's `execute` does not throw synchronously, because the source retries a throwing engine on the next `next()` (see `ThrowingEngineIsCalledAgain`).
- FactoryCallsEngineAtMostOnce: assumes the engine's `execute` does not throw, for the same reason as `EngineCalledAtMostOnce`.
- The compile and engine-call counters do not exist in the source. They are bookkeeping that lets the memoisation be stated.
- Jest's `jest.fn` wrapper in `createQueryEngine` is left out; only the bindings it yields are kept.
- The proxy machinery and the exact text of `${path}` are left out. Errors carry the path's display string as given.
- The string form of arguments (`${argument}`) is left out: it is an input (`Argument.text`).
- `extractTerm` changes the term object in place. The model returns the updated term as a value, so object identity is not modelled.
- The difference between `Symbol.toPrimitive` and the plain `toPrimitive` property is left out. A plain `{ value }` object's default conversion is taken to be `"[object Object]"`.
- Streaming: its own contract states only the number of replies; which replies they are is stated by `IteratorsShareOneScope`, because every iterator shares the one `next`.
- Only `null` and `undefined` are modelled among the values whose property reads throw; getters that throw, or a rejecting `pathExpression` promise, are not.
- Of the falsy predicate values, only absence and the empty string are modelled (`predicate: Option<string>`). `null`, `0`, `false` and `NaN` are not.
- `splice` shortens the proxy's own array in place, and every record shares that one array object. The model uses a new prefix value, so this aliasing is left out.
- `trim` is modelled on ASCII whitespace only: tab, line feed, vertical tab, form feed, carriage return and space. Unicode spaces are not included.
- Line starts for `^` with the `m` flag are modelled after `\n` only, not after `\r`, U+2028 or U+2029.
