/** The mutation-expression callback handler: turns the path a mutation was
    invoked on, plus the mutation's arguments, into one mutation-expression
    record per argument.

    The handler awaits the `pathExpression` property of the path proxy and of
    every argument. The model treats each await as a plain read of a value that
    is either an array of segments or something else, and records the order of
    those reads so that "fails before reading ..." can be stated. */
module MutationExpressionCallbackHandler {
  import opened Wrappers

  /** One hop of a path expression. Segments are open records in the source;
      the model keeps the two fields this handler reads or creates (`pred` is
      the `predicate` field). A missing field is `None`. `NullSegment` is a
      `null` or `undefined` array element, whose fields cannot be read. */
  datatype Segment = Segment(subject: Option<string>, pred: Option<string>) | NullSegment

  /** What awaiting a `pathExpression` property yields: an array of segments,
      or anything that is not an array (including `undefined`). */
  datatype PathExpressionValue = Segments(segments: seq<Segment>) | NotAnArray

  /** A mutation argument: the value its `pathExpression` property resolves
      to, and its string form `${argument}`, used when it is a raw value.
      `NullArgument` is `null` or `undefined`, whose `pathExpression` cannot be read. */
  datatype Argument = Argument(pathExpression: PathExpressionValue, text: string) | NullArgument

  /** The record handed to the downstream mutation stage. */
  datatype MutationExpression = MutationExpression(
    mutationType: string,
    domainExpression: seq<Segment>,
    pred: string,
    rangeExpression: seq<Segment>)

  /** The errors the handler throws. The first four are its own and name the
      path; `ReadOfNullish` is the `TypeError` of reading a property of `null`
      or `undefined`. */
  datatype MutationError =
    | NoArguments(path: string)        // "Mutation on <path> can not be invoked without arguments"
    | NoPathExpression(path: string)   // "<path> has no pathExpression property"
    | TooShort(path: string)           // "<path> should at least contain a subject and a predicate"
    | MissingPredicate(path: string)   // "Expected predicate in <path>"
    | ReadOfNullish

  /** One awaited property read: the proxy's `pathExpression`, or that of the argument at `index`. */
  datatype Access = ProxyPathExpression | ArgumentPathExpression(index: nat)

  /** The handler as constructed from `{ mutationType, args }`. */
  datatype Handler = Handler(mutationType: string, args: seq<Argument>)

  /** What one call of `execute` does: its result (records or the error thrown)
      and the property reads it performed, in order. A read that throws is
      included. */
  datatype Outcome = Outcome(result: Result<seq<MutationExpression>, MutationError>, accessed: seq<Access>)

  /** JavaScript truthiness of a segment's `predicate`: present and not the empty string. */
  predicate Truthy(p: Option<string>) {
    p.Some? && p.value != ""
  }

  /** The checks made before the argument loop, in source order: there are
      arguments, the path expression is an array of at least two segments, and
      its last segment is an object with a truthy predicate. */
  predicate ChecksPass(h: Handler, proxy: PathExpressionValue) {
    && |h.args| > 0
    && proxy.Segments?
    && |proxy.segments| >= 2
    && proxy.segments[|proxy.segments| - 1].Segment?
    && Truthy(proxy.segments[|proxy.segments| - 1].pred)
  }

  /** The range of one argument: its own path expression when that is an array,
      otherwise a literal segment. A raw value always gives exactly one
      segment, a subject only, from which its string form is recovered by
      dropping the surrounding double quotes. */
  function RangeExpression(arg: Argument): (range: seq<Segment>)
    requires arg.Argument?
    ensures arg.pathExpression.Segments? ==> range == arg.pathExpression.segments
    ensures arg.pathExpression.NotAnArray? ==>
      && |range| == 1
      && range[0].Segment? && range[0].pred.None? && range[0].subject.Some?
      && var quoted := range[0].subject.value;
         && |quoted| == |arg.text| + 2
         && quoted[0] == '"' && quoted[|quoted| - 1] == '"'
         && quoted[1..|quoted| - 1] == arg.text
  {
    match arg.pathExpression
    case Segments(segments) => segments
    case NotAnArray => [Segment(Some("\"" + arg.text + "\""), None)]
  }

  /** The index of the first `null` or `undefined` argument, or the number of
      arguments when there is none. */
  function FirstNullArgument(args: seq<Argument>): (i: nat)
    ensures i <= |args|
    ensures forall k :: 0 <= k < i ==> args[k].Argument?
    ensures i < |args| ==> args[i].NullArgument?
    decreases |args|
  {
    if args == [] || args[0].NullArgument? then 0 else 1 + FirstNullArgument(args[1..])
  }

  /** The argument loop: one record per argument, pushed in argument order.
      Every record shares the same `domainExpression` value; in the source this
      is one array object (the proxy's own array, shortened in place by
      `splice`), which the model represents as a value. */
  function Expand(mutationType: string, domain: seq<Segment>, pred: string, args: seq<Argument>)
    : (records: seq<MutationExpression>)
    requires forall i :: 0 <= i < |args| ==> args[i].Argument?
    ensures |records| == |args|
    ensures forall i :: 0 <= i < |args| ==>
      records[i] == MutationExpression(mutationType, domain, pred, RangeExpression(args[i]))
    decreases |args|
  {
    if args == [] then []
    else
      var last := |args| - 1;
      Expand(mutationType, domain, pred, args[..last])
        + [MutationExpression(mutationType, domain, pred, RangeExpression(args[last]))]
  }

  /** The reads of the first `n` arguments' `pathExpression`, in order. */
  function ArgumentReads(n: nat): (accesses: seq<Access>)
    ensures |accesses| == n
    ensures forall i :: 0 <= i < n ==> accesses[i] == ArgumentPathExpression(i)
  {
    seq(n, (i: int) requires 0 <= i => ArgumentPathExpression(i))
  }

  /** `execute(path, proxy)`: the checks in source order, the split of the path
      expression into domain and predicate, then the per-argument records. */
  function Execute(h: Handler, path: string, proxy: PathExpressionValue): (o: Outcome)
    // it succeeds exactly when the checks pass and no argument is `null` or `undefined`
    ensures o.result.Success? <==>
      ChecksPass(h, proxy) && forall i :: 0 <= i < |h.args| ==> h.args[i].Argument?
    // the argument check comes first, before the proxy is read at all
    ensures |h.args| == 0 ==> o.result == Failure(NoArguments(path)) && o.accessed == []
    ensures |h.args| > 0 && proxy.NotAnArray? ==> o.result == Failure(NoPathExpression(path))
    ensures |h.args| > 0 && proxy.Segments? && |proxy.segments| < 2 ==> o.result == Failure(TooShort(path))
    ensures |h.args| > 0 && proxy.Segments? && |proxy.segments| >= 2
            && proxy.segments[|proxy.segments| - 1].NullSegment?
            ==> o.result == Failure(ReadOfNullish)
    ensures |h.args| > 0 && proxy.Segments? && |proxy.segments| >= 2
            && proxy.segments[|proxy.segments| - 1].Segment?
            && !Truthy(proxy.segments[|proxy.segments| - 1].pred)
            ==> o.result == Failure(MissingPredicate(path))
    // with arguments present, the proxy's `pathExpression` is always read, and read first
    ensures |h.args| > 0 ==> |o.accessed| >= 1 && o.accessed[0] == ProxyPathExpression
    // a failed check reads no argument
    ensures !ChecksPass(h, proxy) ==>
      forall k :: 0 <= k < |o.accessed| ==> o.accessed[k] == ProxyPathExpression
    // past the checks the proxy was read first, then the arguments in order,
    // up to and including the first `null` or `undefined` one, which throws
    ensures ChecksPass(h, proxy) ==>
      var reached := if o.result.Success? then |h.args| else FirstNullArgument(h.args) + 1;
      && |o.accessed| == reached + 1
      && o.accessed[0] == ProxyPathExpression
      && forall i :: 0 <= i < reached ==> o.accessed[i + 1] == ArgumentPathExpression(i)
    ensures ChecksPass(h, proxy) && FirstNullArgument(h.args) < |h.args| ==>
      o.result == Failure(ReadOfNullish)
    // on success: one record per argument, in argument order
    ensures o.result.Success? ==>
      var segments := proxy.segments;
      var last := segments[|segments| - 1];
      var records := o.result.value;
      && |records| == |h.args|
      && forall i :: 0 <= i < |records| ==>
        && records[i].mutationType == h.mutationType
        && records[i].domainExpression + [last] == segments
        && Some(records[i].pred) == last.pred
        && (h.args[i].pathExpression.Segments? ==>
              records[i].rangeExpression == h.args[i].pathExpression.segments)
        && (h.args[i].pathExpression.NotAnArray? ==>
              records[i].rangeExpression == [Segment(Some("\"" + h.args[i].text + "\""), None)])
  {
    if |h.args| == 0 then
      Outcome(Failure(NoArguments(path)), [])
    else if proxy.NotAnArray? then
      Outcome(Failure(NoPathExpression(path)), [ProxyPathExpression])
    else
      var segments := proxy.segments;
      if |segments| < 2 then
        Outcome(Failure(TooShort(path)), [ProxyPathExpression])
      else
        var last := segments[|segments| - 1];
        if last.NullSegment? then
          Outcome(Failure(ReadOfNullish), [ProxyPathExpression])
        else if !Truthy(last.pred) then
          Outcome(Failure(MissingPredicate(path)), [ProxyPathExpression])
        else
          var domain := segments[..|segments| - 1];
          assert domain + [last] == segments;
          var bad := FirstNullArgument(h.args);
          if bad < |h.args| then
            Outcome(Failure(ReadOfNullish), [ProxyPathExpression] + ArgumentReads(bad + 1))
          else
            Outcome(Success(Expand(h.mutationType, domain, last.pred.value, h.args)),
                    [ProxyPathExpression] + ArgumentReads(|h.args|))
  }

  /** All records of one call share the same domain expression and predicate;
      they differ only in their range expression. */
  lemma RecordsShareDomainAndPredicate(h: Handler, path: string, proxy: PathExpressionValue, i: nat, j: nat)
    requires Execute(h, path, proxy).result.Success?
    requires i < |h.args| && j < |h.args|
    ensures var records := Execute(h, path, proxy).result.value;
      && records[i].mutationType == records[j].mutationType
      && records[i].domainExpression == records[j].domainExpression
      && records[i].pred == records[j].pred
  {
    var segments := proxy.segments;
    var last := segments[|segments| - 1];
    var records := Execute(h, path, proxy).result.value;
    assert records[i].domainExpression == segments[..|segments| - 1] by {
      assert records[i].domainExpression + [last] == segments;
    }
    assert records[j].domainExpression == segments[..|segments| - 1] by {
      assert records[j].domainExpression + [last] == segments;
    }
  }

  /** An insert of the raw value "Alice" on the path `knows.name`. */
  lemma InsertRawValueExample()
    ensures
      var knows := Segment(None, Some("knows"));
      var name := Segment(None, Some("name"));
      var alice := Argument(NotAnArray, "Alice");
      Execute(Handler("INSERT", [alice]), "path", Segments([knows, name])).result
        == Success([MutationExpression("INSERT", [knows], "name", [Segment(Some("\"Alice\""), None)])])
  {
    var knows := Segment(None, Some("knows"));
    var name := Segment(None, Some("name"));
    var alice := Argument(NotAnArray, "Alice");
    var record := MutationExpression("INSERT", [knows], "name", [Segment(Some("\"Alice\""), None)]);
    var o := Execute(Handler("INSERT", [alice]), "path", Segments([knows, name]));
    assert [knows, name][..1] == [knows];
    assert "\"" + "Alice" + "\"" == "\"Alice\"";
    assert o.result.value[0] == record;
    assert o.result.value == [record];
  }

  /** A raw and a path-like argument: two records, in argument order, with the
      same domain and predicate and their own range expressions. */
  lemma TwoArgumentsExample(h: Handler, range: seq<Segment>)
    requires |h.args| == 2
    requires h.args[0] == Argument(NotAnArray, "Alice")
    requires h.args[1] == Argument(Segments(range), "[object Object]")
    ensures var knows := Segment(None, Some("knows"));
      var name := Segment(None, Some("name"));
      var o := Execute(h, "path", Segments([knows, name]));
      && o.result.Success?
      && |o.result.value| == 2
      && o.result.value[0] == MutationExpression(h.mutationType, [knows], "name", [Segment(Some("\"Alice\""), None)])
      && o.result.value[1] == MutationExpression(h.mutationType, [knows], "name", range)
  {
    var knows := Segment(None, Some("knows"));
    var name := Segment(None, Some("name"));
    assert [knows, name][..1] == [knows];
    assert "\"" + "Alice" + "\"" == "\"Alice\"";
  }

  /** A `null` second argument: the first argument is read, the read of the
      second throws, and the call rejects without any record. */
  lemma NullArgumentExample(h: Handler)
    requires |h.args| == 2
    requires h.args[0] == Argument(NotAnArray, "Alice")
    requires h.args[1] == NullArgument
    ensures var knows := Segment(None, Some("knows"));
      var name := Segment(None, Some("name"));
      var o := Execute(h, "path", Segments([knows, name]));
      && o.result == Failure(ReadOfNullish)
      && o.accessed == [ProxyPathExpression, ArgumentPathExpression(0), ArgumentPathExpression(1)]
  {
  }
}
