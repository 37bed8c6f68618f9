/** The query-executing handler: exposes the results of a path's query either
    as an iterator factory (streaming mode) or as a single value (single mode).

    `execute(path)` creates a closure scope holding `results`, unset until the
    first `next()`. The model makes that scope an explicit state record and
    every `next()` a transition of it. Each `await` is a sequential step.
    Besides the source's own state, the record counts how often the query was
    compiled and how often the engine was called, so that "at most one engine
    call" can be stated. */
module ExecuteQueryHandler {
  import opened Wrappers

  /** How a term converts to a string: by the behaviour it already had, which
      yields `text`, or by `Term.prototype.getValue`, which yields its `value`. */
  datatype Conversion = Inherited(text: string) | GetValue

  /** An RDF term as returned by an engine: its `value`, its other fields, and
      the two conversion hooks `extractTerm` overwrites. */
  datatype Term = Term(value: string, fields: map<string, string>, toString: Conversion, toPrimitive: Conversion)

  function Convert(t: Term, c: Conversion): string {
    match c
    case Inherited(text) => text
    case GetValue => t.value
  }

  /** What `String(term)` yields. */
  function ToString(t: Term): string {
    Convert(t, t.toString)
  }

  /** What the term's `toPrimitive` hook yields. */
  function ToPrimitive(t: Term): string {
    Convert(t, t.toPrimitive)
  }

  /** One entry of a binding: a query variable and its term. */
  datatype Entry = Entry(variable: string, term: Term)

  predicate DistinctVariables(entries: seq<Entry>) {
    forall i, j :: 0 <= i < j < |entries| ==> entries[i].variable != entries[j].variable
  }

  /** A result binding: a `Map` from variable to term, entries in insertion order. */
  type Binding = entries: seq<Entry> | DistinctVariables(entries)

  /** The errors `next()` can reject with. `Upstream` is anything thrown by the
      query compiler or the engine, passed on unchanged. */
  datatype QueryError =
    | NoQueryEngine(path: string)   // "No query engine defined in <path>"
    | NotSingleVariable             // "Only single-variable queries are supported"
    | Upstream(message: string)

  /** `extractTerm(binding)`: the binding's sole term, with both conversions
      replaced by `getValue`. */
  function ExtractTerm(b: Binding): (r: Result<Term, QueryError>)
    ensures r.Failure? <==> |b| != 1
    ensures r.Failure? ==> r.error == NotSingleVariable
    ensures r.Success? ==>
      && r.value.value == b[0].term.value
      && r.value.fields == b[0].term.fields
      && ToString(r.value) == b[0].term.value
      && ToPrimitive(r.value) == b[0].term.value
  {
    if |b| != 1 then Failure(NotSingleVariable)
    else Success(b[0].term.(toString := GetValue, toPrimitive := GetValue))
  }

  /** The asynchronous iterator an engine returns: its bindings in order, then
      either completion or, when `failure` is present, one rejected pull. As
      with an async generator, the pull that rejects finishes the iterator:
      every later pull gives `{ done }`. */
  datatype Stream = Stream(bindings: seq<Binding>, failure: Option<string>)

  /** A query engine. `execute` either returns a stream or throws. */
  datatype Engine = Engine(execute: string -> Result<Stream, string>)

  ghost predicate NeverThrows(e: Engine) {
    forall query :: e.execute(query).Success?
  }

  /** The path as far as this handler sees it: its display name and the
      `queryEngine` of its settings. */
  datatype Path = Path(name: string, queryEngine: Option<Engine>)

  /** The handler as constructed: the `single` option and the inherited query
      compilation `super.execute(path)`, which may reject. */
  datatype Handler = Handler(single: bool, compile: Path -> Result<string, string>)

  /** The position reached in a stream. */
  datatype Cursor = Cursor(stream: Stream, position: nat)

  /** The closure scope of one `execute(path)`: `results` plus two call counters. */
  datatype State = State(results: Option<Cursor>, compileCalls: nat, engineCalls: nat)

  const Initial := State(None, 0, 0)

  /** What one `next()` resolves or rejects with: `{ done }`, `{ value: term }`, or an error. */
  datatype Reply = Done | Item(value: Term) | Raised(error: QueryError)

  datatype Step = Step(state: State, reply: Reply)

  /** The reply for one pulled binding. */
  function ReplyFor(b: Binding): Reply {
    match ExtractTerm(b)
    case Success(t) => Item(t)
    case Failure(e) => Raised(e)
  }

  /** How many pulls a stream answers with something other than `{ done }`:
      one per binding, and one more for its failure. */
  function End(s: Stream): nat {
    |s.bindings| + if s.failure.Some? then 1 else 0
  }

  /** The reply the stream gives at `position`: a binding, the failure right
      after the last binding, and `{ done }` from then on. */
  function ReplyAt(s: Stream, position: nat): Reply {
    if position < |s.bindings| then ReplyFor(s.bindings[position])
    else if position == |s.bindings| && s.failure.Some? then Raised(Upstream(s.failure.value))
    else Done
  }

  /** Where a cursor stands after `n` pulls from `position`: one step per
      pull, never past the end. */
  function Advanced(stream: Stream, position: nat, n: nat): nat {
    if position >= End(stream) then position
    else if position + n <= End(stream) then position + n
    else End(stream)
  }

  /** `await results.next()` followed by the extraction. */
  function Pull(c: Cursor): (r: (Cursor, Reply))
    ensures r.0.stream == c.stream
    ensures r.1 == ReplyAt(c.stream, c.position)
    ensures r.0.position == Advanced(c.stream, c.position, 1)
  {
    var reply := ReplyAt(c.stream, c.position);
    if c.position < End(c.stream) then (c.(position := c.position + 1), reply) else (c, reply)
  }

  /** One call of the shared `next` closure. */
  function Next(h: Handler, path: Path, s: State): (r: Step)
    // no engine: nothing is compiled, nothing is called, `results` stays unset
    ensures s.results.None? && path.queryEngine.None? ==>
      r.state == s && r.reply == Raised(NoQueryEngine(path.name))
    // once `results` is set it is reused: no compilation, no engine call, same stream
    ensures s.results.Some? ==>
      && r.state.results.Some?
      && r.state.results.value.stream == s.results.value.stream
      && r.state.compileCalls == s.compileCalls
      && r.state.engineCalls == s.engineCalls
      && r.reply == ReplyAt(s.results.value.stream, s.results.value.position)
      && r.state.results.value.position == Advanced(s.results.value.stream, s.results.value.position, 1)
    // a rejected compilation or a throwing engine rejects `next()` with that error, unchanged,
    // and leaves `results` unset
    ensures s.results.None? && path.queryEngine.Some? && h.compile(path).Failure? ==>
      r.state == s.(compileCalls := s.compileCalls + 1) && r.reply == Raised(Upstream(h.compile(path).error))
    ensures s.results.None? && path.queryEngine.Some? && h.compile(path).Success?
            && path.queryEngine.value.execute(h.compile(path).value).Failure? ==>
      && r.state == s.(compileCalls := s.compileCalls + 1, engineCalls := s.engineCalls + 1)
      && r.reply == Raised(Upstream(path.queryEngine.value.execute(h.compile(path).value).error))
    // the engine is called at most once per `next()`, and only while `results` is unset
    ensures r.state.engineCalls <= s.engineCalls + 1
    ensures r.state.engineCalls == s.engineCalls + 1 ==> s.results.None?
    // `results` becomes set only by an engine call that returned a stream, read from its start
    ensures s.results.None? && r.state.results.Some? ==>
      && r.state.engineCalls == s.engineCalls + 1
      && path.queryEngine.Some?
      && h.compile(path).Success?
      && path.queryEngine.value.execute(h.compile(path).value) == Success(r.state.results.value.stream)
      && r.state.results.value.position == Advanced(r.state.results.value.stream, 0, 1)
      && r.reply == ReplyAt(r.state.results.value.stream, 0)
  {
    match s.results
    case Some(c) =>
      var (c', reply) := Pull(c);
      Step(s.(results := Some(c')), reply)
    case None =>
      match path.queryEngine
      case None => Step(s, Raised(NoQueryEngine(path.name)))
      case Some(engine) =>
        var compiled := s.(compileCalls := s.compileCalls + 1);
        match h.compile(path)
        case Failure(e) => Step(compiled, Raised(Upstream(e)))
        case Success(query) =>
          var called := compiled.(engineCalls := compiled.engineCalls + 1);
          match engine.execute(query)
          case Failure(e) => Step(called, Raised(Upstream(e)))
          case Success(stream) =>
            var (c', reply) := Pull(Cursor(stream, 0));
            Step(called.(results := Some(c')), reply)
  }

  /** The state after `n` calls of `next()` and their replies, in order. */
  datatype Run = Run(state: State, replies: seq<Reply>)

  /** `n` calls of `next()` in a row, from state `s`. */
  function Pulls(h: Handler, path: Path, s: State, n: nat): (r: Run)
    ensures |r.replies| == n
    decreases n
  {
    if n == 0 then Run(s, [])
    else
      var before := Pulls(h, path, s, n - 1);
      var step := Next(h, path, before.state);
      Run(step.state, before.replies + [step.reply])
  }

  /** The value `execute(path)` returns: the iterator factory `() => ({ next })`
      or the single-value function `(resolve, reject) => ...`, each closing
      over the path and a fresh scope. */
  datatype Accessor = IteratorFactory(path: Path, scope: State) | SingleValue(path: Path, scope: State)

  function Execute(h: Handler, path: Path): (a: Accessor)
    ensures a.path == path && a.scope == Initial
    ensures a.SingleValue? <==> h.single
  {
    if !h.single then IteratorFactory(path, Initial) else SingleValue(path, Initial)
  }

  /** What a consumer of the iterator factory does: call the factory, or call
      `next()` on one of the iterators it obtained (by the order they were made).
      Every iterator holds the same `next`, so which one is called does not
      matter; `iteratorIndex` is kept so that a schedule can name it. */
  datatype Op = CallFactory | CallNext(iteratorIndex: nat)

  /** How many `next()` calls a schedule makes. */
  function NextCalls(ops: seq<Op>): nat {
    if ops == [] then 0
    else NextCalls(ops[..|ops| - 1]) + (if ops[|ops| - 1].CallNext? then 1 else 0)
  }

  /** A schedule run against one factory. Every iterator the factory makes is
      `{ next }` with the same closure, so calling the factory changes nothing
      and every `next()` is a transition of the one shared scope. */
  function Streaming(h: Handler, path: Path, s: State, ops: seq<Op>): (r: Run)
    ensures |r.replies| == NextCalls(ops)
    decreases |ops|
  {
    if ops == [] then Run(s, [])
    else
      var before := Streaming(h, path, s, ops[..|ops| - 1]);
      match ops[|ops| - 1]
      case CallFactory => before
      case CallNext(_) =>
        var step := Next(h, path, before.state);
        Run(step.state, before.replies + [step.reply])
  }

  /** The settlement of one call of the single-value function. */
  datatype Settlement = Resolved(value: Option<Term>) | Rejected(error: QueryError)

  /** `(resolve, reject) => next().then(v => resolve(v.value), reject)`: one
      `next()`; `{ done }` resolves with `undefined`, an error goes to `reject`. */
  function Settle(h: Handler, path: Path, s: State): (r: (State, Settlement))
    ensures r.0 == Next(h, path, s).state
    ensures Next(h, path, s).reply.Item? ==> r.1 == Resolved(Some(Next(h, path, s).reply.value))
    ensures Next(h, path, s).reply.Done? ==> r.1 == Resolved(None)
    ensures Next(h, path, s).reply.Raised? ==> r.1 == Rejected(Next(h, path, s).reply.error)
  {
    var step := Next(h, path, s);
    var settlement :=
      match step.reply
      case Done => Resolved(None)
      case Item(t) => Resolved(Some(t))
      case Raised(e) => Rejected(e);
    (step.state, settlement)
  }

  /** Once `results` is set, `n` further `next()` calls read the same stream
      onward from the cursor, one binding each, and neither compile nor call
      the engine again. */
  lemma {:induction false} PullsReadOnward(h: Handler, path: Path, s: State, n: nat)
    requires s.results.Some?
    ensures var r := Pulls(h, path, s, n);
      var c := s.results.value;
      && r.state.results.Some?
      && r.state.results.value.stream == c.stream
      && r.state.results.value.position == Advanced(c.stream, c.position, n)
      && r.state.compileCalls == s.compileCalls
      && r.state.engineCalls == s.engineCalls
      && forall k :: 0 <= k < n ==> r.replies[k] == ReplyAt(c.stream, c.position + k)
    decreases n
  {
    if n > 0 {
      PullsReadOnward(h, path, s, n - 1);
    }
  }

  /** Streaming order: when the engine returns `stream`, the k-th `next()` of a
      fresh scope gives the k-th binding's term (or its extraction error), and
      every call after the last binding gives the end of the stream; the query
      is compiled once and the engine is called once. */
  lemma {:induction false} StreamInOrder(h: Handler, path: Path, stream: Stream, n: nat)
    requires path.queryEngine.Some? && h.compile(path).Success?
    requires path.queryEngine.value.execute(h.compile(path).value) == Success(stream)
    ensures var r := Pulls(h, path, Initial, n);
      && (forall k :: 0 <= k < n ==> r.replies[k] == ReplyAt(stream, k))
      && r.state.compileCalls == (if n == 0 then 0 else 1)
      && r.state.engineCalls == (if n == 0 then 0 else 1)
    decreases n
  {
    if n > 0 {
      var first := Next(h, path, Initial);
      var rest := Pulls(h, path, first.state, n - 1);
      var r := Pulls(h, path, Initial, n);
      FirstNextStarts(h, path, stream);
      PullsReadOnward(h, path, first.state, n - 1);
      assert r == Run(rest.state, [first.reply] + rest.replies) by {
        PullsAfterFirst(h, path, n);
      }
      forall k | 0 < k < n
        ensures r.replies[k] == ReplyAt(stream, k)
      {
        assert r.replies[k] == rest.replies[k - 1];
      }
    }
  }

  /** The first `next()` of a fresh scope compiles once, calls the engine once
      and reads the first binding of the stream it returns. */
  lemma FirstNextStarts(h: Handler, path: Path, stream: Stream)
    requires path.queryEngine.Some? && h.compile(path).Success?
    requires path.queryEngine.value.execute(h.compile(path).value) == Success(stream)
    ensures Next(h, path, Initial).state == State(Some(Cursor(stream, Advanced(stream, 0, 1))), 1, 1)
    ensures Next(h, path, Initial).reply == ReplyAt(stream, 0)
  {
  }

  /** `n` calls of `next()` are the first call followed by `n - 1` more. */
  lemma {:induction false} PullsAfterFirst(h: Handler, path: Path, n: nat)
    requires n > 0
    ensures var first := Next(h, path, Initial);
      var rest := Pulls(h, path, first.state, n - 1);
      Pulls(h, path, Initial, n) == Run(rest.state, [first.reply] + rest.replies)
    decreases n
  {
    if n > 1 {
      PullsAfterFirst(h, path, n - 1);
      var first := Next(h, path, Initial);
      var before := Pulls(h, path, Initial, n - 1);
      var rest := Pulls(h, path, first.state, n - 2);
      var step := Next(h, path, before.state);
      assert before.state == rest.state;
      assert ([first.reply] + rest.replies) + [step.reply] == [first.reply] + (rest.replies + [step.reply]);
    }
  }

  /** The engine has been called exactly once when `results` is set and never
      when it is unset. */
  ghost predicate CalledOnceIfStarted(s: State) {
    s.engineCalls == if s.results.Some? then 1 else 0
  }

  /** At most one engine call per `execute(path)`, however many `next()` calls
      follow, provided the engine's `execute` does not throw. */
  lemma {:induction false} EngineCalledAtMostOnce(h: Handler, path: Path, n: nat)
    requires path.queryEngine.None? || NeverThrows(path.queryEngine.value)
    ensures CalledOnceIfStarted(Pulls(h, path, Initial, n).state)
    ensures Pulls(h, path, Initial, n).state.engineCalls <= 1
    decreases n
  {
    if n > 0 {
      EngineCalledAtMostOnce(h, path, n - 1);
      var before := Pulls(h, path, Initial, n - 1).state;
      if before.results.None? && path.queryEngine.Some? && h.compile(path).Success? {
        assert path.queryEngine.value.execute(h.compile(path).value).Success?;
      }
    }
  }

  /** Without a query engine every `next()` rejects with the configuration
      error, and the scope is left exactly as it was: nothing compiled, no
      engine called, `results` unset. */
  lemma {:induction false} NoEngineNoCalls(h: Handler, path: Path, s: State, n: nat)
    requires path.queryEngine.None? && s.results.None?
    ensures Pulls(h, path, s, n).state == s
    ensures forall k :: 0 <= k < n ==> Pulls(h, path, s, n).replies[k] == Raised(NoQueryEngine(path.name))
    decreases n
  {
    if n > 0 {
      NoEngineNoCalls(h, path, s, n - 1);
    }
  }

  /** A rejected compilation leaves `results` unset, so every later `next()`
      compiles again; the engine is never called. `compile` is a function here,
      so every retry fails the same way; in the source a retried
      `super.execute(path)` may succeed, and then the engine is called. */
  lemma {:induction false} FailedCompilationIsRetried(h: Handler, path: Path, s: State, n: nat)
    requires path.queryEngine.Some? && h.compile(path).Failure? && s.results.None?
    ensures Pulls(h, path, s, n).state == s.(compileCalls := s.compileCalls + n)
    ensures forall k :: 0 <= k < n ==> Pulls(h, path, s, n).replies[k] == Raised(Upstream(h.compile(path).error))
    decreases n
  {
    if n > 0 {
      FailedCompilationIsRetried(h, path, s, n - 1);
    }
  }

  /** An engine whose `execute` throws leaves `results` unset too, so it is
      called again by every `next()`: the at-most-once guarantee needs an
      engine that does not throw. The model's engine is a function, so it
      throws every time; in the source a retried call may succeed. */
  lemma {:induction false} ThrowingEngineIsCalledAgain(h: Handler, path: Path, n: nat)
    requires path.queryEngine.Some? && h.compile(path).Success?
    requires path.queryEngine.value.execute(h.compile(path).value).Failure?
    ensures Pulls(h, path, Initial, n).state == State(None, n, n)
    ensures forall k :: 0 <= k < n ==>
      Pulls(h, path, Initial, n).replies[k] == Raised(Upstream(path.queryEngine.value.execute(h.compile(path).value).error))
    decreases n
  {
    if n > 0 {
      ThrowingEngineIsCalledAgain(h, path, n - 1);
    }
  }

  /** Iterators from one factory share one scope: whatever the interleaving of
      factory calls and `next()` calls, and whichever iterator each `next()`
      goes through, the replies are those of the same number of plain
      `next()` calls. */
  lemma {:induction false} IteratorsShareOneScope(h: Handler, path: Path, s: State, ops: seq<Op>)
    ensures Streaming(h, path, s, ops) == Pulls(h, path, s, NextCalls(ops))
    decreases |ops|
  {
    if ops != [] {
      IteratorsShareOneScope(h, path, s, ops[..|ops| - 1]);
    }
  }

  /** Streaming mode from `execute(path)` on: whatever the schedule of
      factory and `next()` calls, the k-th `next()` gives the k-th reply of the
      stream the engine returned, and the engine is called once. */
  lemma FactoryStreamsInOrder(h: Handler, path: Path, stream: Stream, ops: seq<Op>)
    requires !h.single
    requires path.queryEngine.Some? && h.compile(path).Success?
    requires path.queryEngine.value.execute(h.compile(path).value) == Success(stream)
    ensures var a := Execute(h, path);
      && a.IteratorFactory?
      && var r := Streaming(h, a.path, a.scope, ops);
         && (forall k :: 0 <= k < |r.replies| ==> r.replies[k] == ReplyAt(stream, k))
         && r.state.engineCalls == (if NextCalls(ops) == 0 then 0 else 1)
  {
    IteratorsShareOneScope(h, path, Initial, ops);
    StreamInOrder(h, path, stream, NextCalls(ops));
  }

  /** However the iterators of one factory are used, the engine is called at
      most once, provided its `execute` does not throw. */
  lemma FactoryCallsEngineAtMostOnce(h: Handler, path: Path, ops: seq<Op>)
    requires path.queryEngine.None? || NeverThrows(path.queryEngine.value)
    ensures var a := Execute(h, path);
      Streaming(h, a.path, a.scope, ops).state.engineCalls <= 1
  {
    IteratorsShareOneScope(h, path, Initial, ops);
    EngineCalledAtMostOnce(h, path, NextCalls(ops));
  }

  /** Single mode from `execute(path)` on performs one `next()`: it resolves
      with the first binding's term, whose string form is its value, with
      `undefined` when the stream is empty, and passes every error to
      `reject`; the engine is called once. */
  lemma SingleResolvesFirst(h: Handler, path: Path, stream: Stream)
    requires h.single
    requires path.queryEngine.Some? && h.compile(path).Success?
    requires path.queryEngine.value.execute(h.compile(path).value) == Success(stream)
    ensures var a := Execute(h, path);
      && a.SingleValue?
      && var (after, settlement) := Settle(h, a.path, a.scope);
      && after.engineCalls == 1
      && (|stream.bindings| > 0 && |stream.bindings[0]| == 1 ==>
            && settlement.Resolved? && settlement.value.Some?
            && settlement.value.value.value == stream.bindings[0][0].term.value
            && ToString(settlement.value.value) == stream.bindings[0][0].term.value)
      && (|stream.bindings| > 0 && |stream.bindings[0]| != 1 ==> settlement == Rejected(NotSingleVariable))
      && (|stream.bindings| == 0 && stream.failure.None? ==> settlement == Resolved(None))
      && (|stream.bindings| == 0 && stream.failure.Some? ==>
            settlement == Rejected(Upstream(stream.failure.value)))
  {
  }

  /** Single mode without a query engine rejects with the configuration error. */
  lemma SingleWithoutEngineRejects(h: Handler, path: Path)
    requires h.single && path.queryEngine.None?
    ensures var a := Execute(h, path);
      a.SingleValue? && Settle(h, a.path, a.scope) == (Initial, Rejected(NoQueryEngine(path.name)))
  {
  }
}
