/** The two test helpers: `deindent`, which normalises template-literal
    fixtures, and `createQueryEngine`, the reference engine the handler is
    exercised against.

    Strings are restricted to ASCII whitespace and to `\n` as the only line
    terminator. */
module TestUtil {
  import opened Wrappers
  import opened ExecuteQueryHandler

  /* ---------- deindent ---------- */

  /** The ASCII characters `String.prototype.trim` removes: tab, line feed,
      vertical tab, form feed, carriage return and space. */
  predicate IsWhitespace(c: char) {
    c == '\t' || c == '\n' || c == '\U{B}' || c == '\U{C}' || c == '\r' || c == ' '
  }

  /** The number of whitespace characters `s` starts with. */
  function LeadingWhitespace(s: string): (n: nat)
    ensures n <= |s|
    ensures forall k :: 0 <= k < n ==> IsWhitespace(s[k])
    ensures n < |s| ==> !IsWhitespace(s[n])
    decreases |s|
  {
    if s != [] && IsWhitespace(s[0]) then 1 + LeadingWhitespace(s[1..]) else 0
  }

  function TrimEnd(s: string): (r: string)
    ensures |r| <= |s| && r == s[..|r|]
    ensures forall k :: |r| <= k < |s| ==> IsWhitespace(s[k])
    ensures r != [] ==> !IsWhitespace(r[|r| - 1])
    decreases |s|
  {
    if s != [] && IsWhitespace(s[|s| - 1]) then TrimEnd(s[..|s| - 1]) else s
  }

  /** `string.trim()`: the input with whitespace removed from both ends and
      nothing else changed. */
  function Trim(s: string): (r: string)
    ensures var start := LeadingWhitespace(s);
      && start + |r| <= |s|
      && r == s[start..start + |r|]
      && forall k :: start + |r| <= k < |s| ==> IsWhitespace(s[k])
    ensures r != [] ==> !IsWhitespace(r[0]) && !IsWhitespace(r[|r| - 1])
  {
    var start := LeadingWhitespace(s);
    var r := TrimEnd(s[start..]);
    assert r == s[start..start + |r|];
    r
  }

  /** The lines of `s`, split at every `\n`; there is always at least one. */
  function Lines(s: string): (ls: seq<string>)
    ensures |ls| >= 1
    decreases |s|
  {
    if s == [] then [""]
    else
      var rest := Lines(s[1..]);
      if s[0] == '\n' then [""] + rest
      else [[s[0]] + rest[0]] + rest[1..]
  }

  /** Lines put back together with `\n` between them. */
  function Unlines(ls: seq<string>): string
    decreases |ls|
  {
    if ls == [] then ""
    else if |ls| == 1 then ls[0]
    else ls[0] + "\n" + Unlines(ls[1..])
  }

  const Indent := "      "

  /** A line the regular expression matches on: it starts with six spaces. */
  predicate Indented(line: string) {
    |line| >= 6 && line[..6] == Indent
  }

  /** What `deindent` does to one line. */
  function Outdent(line: string): string {
    if Indented(line) then line[6..] else line
  }

  function OutdentAll(ls: seq<string>): (r: seq<string>)
    ensures |r| == |ls|
    ensures forall k :: 0 <= k < |ls| ==> r[k] == Outdent(ls[k])
    decreases |ls|
  {
    if ls == [] then [] else [Outdent(ls[0])] + OutdentAll(ls[1..])
  }

  /** How many of the lines are indented. */
  function IndentedCount(ls: seq<string>): nat
    decreases |ls|
  {
    if ls == [] then 0 else (if Indented(ls[0]) then 1 else 0) + IndentedCount(ls[1..])
  }

  /** The replacement `.replace(/^ {6}?/mg, '')`, scanning left to right. With
      the `m` flag `^` holds at the start of the input and after every `\n`.
      ` {6}?` is a lazy exact count, so it matches exactly six spaces. After a
      match the scan continues right behind it, which is not a line start. */
  function Replace(t: string, atLineStart: bool): (r: string)
    // characters are removed only in blocks of six
    ensures |r| <= |t| && (|t| - |r|) % 6 == 0
    // a first character that is not a space, or not at a line start, is kept
    ensures t != [] && (!atLineStart || t[0] != ' ') ==> r != [] && r[0] == t[0]
    decreases |t|
  {
    if atLineStart && |t| >= 6 && t[..6] == Indent then Replace(t[6..], false)
    else if t == [] then []
    else [t[0]] + Replace(t[1..], t[0] == '\n')
  }

  /** `deindent(string)`. The trimmed input does not start with a space, so
      its first character survives, and a blank input gives the empty string. */
  function Deindent(s: string): (r: string)
    ensures |r| <= |Trim(s)| && (|Trim(s)| - |r|) % 6 == 0
    ensures r == [] <==> Trim(s) == []
    ensures r != [] ==> r[0] == Trim(s)[0] && !IsWhitespace(r[0])
  {
    Replace(Trim(s), true)
  }

  /** The scan, started at a line start or inside a line, described line by
      line: the first line is outdented only when the scan starts at its
      beginning, every later line is outdented. */
  function Linewise(t: string, atLineStart: bool): string {
    var ls := Lines(t);
    Unlines([if atLineStart then Outdent(ls[0]) else ls[0]] + OutdentAll(ls[1..]))
  }

  /** The scan removes six spaces from the start of every indented line and
      leaves everything else alone. */
  lemma {:induction false} ReplaceIsLinewise(t: string, atLineStart: bool)
    ensures Replace(t, atLineStart) == Linewise(t, atLineStart)
    decreases |t|
  {
    if atLineStart && |t| >= 6 && t[..6] == Indent {
      ReplaceIsLinewise(t[6..], false);
      LinesAfterIndent(t);
    } else if t == [] {
      assert Lines(t) == [""];
      assert !Indented("");
    } else if t[0] == '\n' {
      ReplaceIsLinewise(t[1..], true);
      var rest := Lines(t[1..]);
      assert Lines(t) == [""] + rest;
      assert !Indented("");
      assert ([""] + rest)[1..] == rest;
      assert OutdentAll(rest) == [Outdent(rest[0])] + OutdentAll(rest[1..]);
    } else {
      ReplaceIsLinewise(t[1..], false);
      var rest := Lines(t[1..]);
      var line := [t[0]] + rest[0];
      assert Lines(t) == [line] + rest[1..];
      if atLineStart {
        FirstLineIsPrefix(t);
        assert !Indented(line);
      }
      UnlinesPrepend([t[0]], rest[0], OutdentAll(rest[1..]));
    }
  }

  /** From a line start, `deindent`'s replacement outdents every line. */
  lemma ReplaceOutdentsAll(t: string)
    ensures Replace(t, true) == Unlines(OutdentAll(Lines(t)))
  {
    ReplaceIsLinewise(t, true);
    var ls := Lines(t);
    assert OutdentAll(ls) == [Outdent(ls[0])] + OutdentAll(ls[1..]);
  }

  /** Six leading spaces belong to the first line and are what `Outdent` removes. */
  lemma LinesAfterIndent(t: string)
    requires |t| >= 6 && t[..6] == Indent
    ensures var rest := Lines(t[6..]);
      Lines(t) == [Indent + rest[0]] + rest[1..] && Outdent(Indent + rest[0]) == rest[0]
  {
    assert '\n' !in Indent;
    assert t == Indent + t[6..];
    LinesPrepend(Indent, t[6..]);
    var first := Indent + Lines(t[6..])[0];
    assert first[..6] == Indent && first[6..] == Lines(t[6..])[0];
  }

  /** A prefix without a line feed extends the first line. */
  lemma {:induction false} LinesPrepend(p: string, s: string)
    requires '\n' !in p
    ensures Lines(p + s) == [p + Lines(s)[0]] + Lines(s)[1..]
    decreases |p|
  {
    if p == [] {
      assert p + s == s;
      assert p + Lines(s)[0] == Lines(s)[0];
      assert [Lines(s)[0]] + Lines(s)[1..] == Lines(s);
    } else {
      assert (p + s)[0] == p[0] && (p + s)[1..] == p[1..] + s;
      LinesPrepend(p[1..], s);
      assert [p[0]] + (p[1..] + Lines(s)[0]) == p + Lines(s)[0];
    }
  }

  /** The first line is a prefix of the input. */
  lemma {:induction false} FirstLineIsPrefix(s: string)
    ensures |Lines(s)[0]| <= |s| && Lines(s)[0] == s[..|Lines(s)[0]|]
    decreases |s|
  {
    if s != [] && s[0] != '\n' {
      FirstLineIsPrefix(s[1..]);
    }
  }

  /** Putting characters in front of the first line puts them in front of the join. */
  lemma UnlinesPrepend(c: string, line: string, rest: seq<string>)
    ensures Unlines([c + line] + rest) == c + Unlines([line] + rest)
  {
    if rest != [] {
      assert ([c + line] + rest)[1..] == rest;
      assert ([line] + rest)[1..] == rest;
    }
  }

  /** Splitting undoes joining for lines without line feeds. */
  lemma {:induction false} LinesOfUnlines(ls: seq<string>)
    requires |ls| >= 1
    requires forall k :: 0 <= k < |ls| ==> '\n' !in ls[k]
    ensures Lines(Unlines(ls)) == ls
    decreases |ls|
  {
    if |ls| == 1 {
      LinesPrepend(ls[0], "");
      assert ls[0] + "" == ls[0];
    } else {
      var rest := Unlines(ls[1..]);
      LinesOfUnlines(ls[1..]);
      assert ls[0] + "\n" + rest == ls[0] + ("\n" + rest);
      LinesPrepend(ls[0], "\n" + rest);
      assert ("\n" + rest)[1..] == rest;
      assert Lines("\n" + rest) == [""] + ls[1..];
      assert ls[0] + "" == ls[0];
    }
  }

  /** Joining undoes splitting. */
  lemma {:induction false} UnlinesOfLines(s: string)
    ensures Unlines(Lines(s)) == s
    decreases |s|
  {
    if s != [] {
      UnlinesOfLines(s[1..]);
      var rest := Lines(s[1..]);
      if s[0] == '\n' {
        assert ([""] + rest)[1..] == rest;
      } else {
        UnlinesPrepend([s[0]], rest[0], rest[1..]);
        assert [rest[0]] + rest[1..] == rest;
      }
    }
  }

  /** No line contains a line feed. */
  lemma {:induction false} LinesHaveNoLineFeed(s: string)
    ensures forall k :: 0 <= k < |Lines(s)| ==> '\n' !in Lines(s)[k]
    decreases |s|
  {
    if s != [] {
      LinesHaveNoLineFeed(s[1..]);
      var rest := Lines(s[1..]);
      if s[0] != '\n' {
        assert '\n' !in [s[0]] + rest[0];
        assert forall k :: 1 <= k < |Lines(s)| ==> Lines(s)[k] == rest[k];
      } else {
        assert forall k :: 1 <= k < |Lines(s)| ==> Lines(s)[k] == rest[k - 1];
      }
    }
  }

  /** Outdenting only removes characters from the start of a line. */
  lemma OutdentKeepsNoLineFeed(ls: seq<string>)
    requires forall k :: 0 <= k < |ls| ==> '\n' !in ls[k]
    ensures forall k :: 0 <= k < |ls| ==> '\n' !in OutdentAll(ls)[k]
  {
    forall k | 0 <= k < |ls|
      ensures '\n' !in OutdentAll(ls)[k]
    {
      if Indented(ls[k]) {
        assert ls[k] == ls[k][..6] + ls[k][6..];
      }
    }
  }

  /** The lines of `deindent(s)` are the lines of `s.trim()`, each indented one
      losing exactly six leading spaces and every other one unchanged. */
  lemma DeindentLines(s: string)
    ensures var before := Lines(Trim(s));
      var after := Lines(Deindent(s));
      && |after| == |before|
      && forall k :: 0 <= k < |before| ==>
           (Indented(before[k]) ==> before[k] == Indent + after[k])
           && (!Indented(before[k]) ==> after[k] == before[k])
  {
    var before := Lines(Trim(s));
    ReplaceOutdentsAll(Trim(s));
    var out := OutdentAll(before);
    LinesHaveNoLineFeed(Trim(s));
    OutdentKeepsNoLineFeed(before);
    LinesOfUnlines(out);
    forall k | 0 <= k < |before| && Indented(before[k])
      ensures before[k] == Indent + out[k]
    {
      assert before[k] == before[k][..6] + before[k][6..];
    }
  }

  /** The first line of `deindent(s)` is the first line of `s.trim()`: trimming
      leaves it without leading spaces. */
  lemma DeindentKeepsFirstLine(s: string)
    ensures Lines(Deindent(s))[0] == Lines(Trim(s))[0]
  {
    DeindentLines(s);
    var t := Trim(s);
    FirstLineIsPrefix(t);
    var first := Lines(t)[0];
    assert !Indented(first);
  }

  /** The number of leading spaces of a line. */
  function LeadingSpaces(line: string): nat
    decreases |line|
  {
    if line != [] && line[0] == ' ' then 1 + LeadingSpaces(line[1..]) else 0
  }

  /** At most six spaces come off a line: one with twelve keeps six. */
  lemma OutdentRemovesAtMostSix(line: string)
    ensures LeadingSpaces(Outdent(line)) ==
      if LeadingSpaces(line) >= 6 then LeadingSpaces(line) - 6 else LeadingSpaces(line)
  {
    LeadingSpacesIndented(line);
    if Indented(line) {
      LeadingSpacesDrop(line, 6);
    }
  }

  /** A line is indented exactly when it has six or more leading spaces. */
  lemma {:induction false} LeadingSpacesIndented(line: string)
    ensures Indented(line) <==> LeadingSpaces(line) >= 6
  {
    if Indented(line) {
      LeadingSpacesDrop(line, 6);
    } else if LeadingSpaces(line) >= 6 {
      LeadingSpacesPrefix(line, 6);
    }
  }

  /** Dropping `n` leading spaces lowers the count by `n`. */
  lemma {:induction false} LeadingSpacesDrop(line: string, n: nat)
    requires n <= |line| && forall k :: 0 <= k < n ==> line[k] == ' '
    ensures LeadingSpaces(line[n..]) == LeadingSpaces(line) - n
    decreases n
  {
    if n > 0 {
      LeadingSpacesDrop(line[1..], n - 1);
      assert line[1..][n - 1..] == line[n..];
    }
  }

  /** The first `LeadingSpaces(line)` characters are spaces. */
  lemma {:induction false} LeadingSpacesPrefix(line: string, n: nat)
    requires n <= LeadingSpaces(line)
    ensures n <= |line| && forall k :: 0 <= k < n ==> line[k] == ' '
    decreases n
  {
    if n > 0 {
      LeadingSpacesPrefix(line[1..], n - 1);
    }
  }

  /** The number of occurrences of `c` in `s`. */
  function Occurrences(c: char, s: string): nat
    decreases |s|
  {
    if s == [] then 0 else (if s[0] == c then 1 else 0) + Occurrences(c, s[1..])
  }

  lemma {:induction false} OccurrencesAppend(c: char, a: string, b: string)
    ensures Occurrences(c, a + b) == Occurrences(c, a) + Occurrences(c, b)
    decreases |a|
  {
    if a != [] {
      assert (a + b)[0] == a[0];
      assert (a + b)[1..] == a[1..] + b;
      assert Occurrences(c, a + b) == (if a[0] == c then 1 else 0) + Occurrences(c, (a + b)[1..]);
      OccurrencesAppend(c, a[1..], b);
    } else {
      assert a + b == b;
    }
  }

  lemma {:induction false} OccurrencesAbsent(c: char, s: string)
    requires c !in s
    ensures Occurrences(c, s) == 0
    decreases |s|
  {
    if s != [] {
      OccurrencesAbsent(c, s[1..]);
    }
  }

  /** Joined lines: one line feed between each two, and the lengths added up. */
  lemma {:induction false} UnlinesMeasure(ls: seq<string>)
    requires |ls| >= 1
    requires forall k :: 0 <= k < |ls| ==> '\n' !in ls[k]
    ensures Occurrences('\n', Unlines(ls)) == |ls| - 1
    ensures |Unlines(ls)| == TotalLength(ls) + |ls| - 1
    decreases |ls|
  {
    OccurrencesAbsent('\n', ls[0]);
    if |ls| > 1 {
      UnlinesMeasure(ls[1..]);
      OccurrencesAppend('\n', ls[0], "\n");
      OccurrencesAppend('\n', ls[0] + "\n", Unlines(ls[1..]));
    }
  }

  function TotalLength(ls: seq<string>): nat
    decreases |ls|
  {
    if ls == [] then 0 else |ls[0]| + TotalLength(ls[1..])
  }

  /** Outdenting shortens every indented line by six and no other line. */
  lemma {:induction false} OutdentLength(ls: seq<string>)
    ensures TotalLength(OutdentAll(ls)) == TotalLength(ls) - 6 * IndentedCount(ls)
    decreases |ls|
  {
    if ls != [] {
      OutdentLength(ls[1..]);
      assert OutdentAll(ls)[1..] == OutdentAll(ls[1..]);
    }
  }

  /** Only spaces are removed: `deindent` keeps every line feed of the trimmed
      input, and is shorter by six per indented line. */
  lemma DeindentRemovesOnlyIndents(s: string)
    ensures Occurrences('\n', Deindent(s)) == Occurrences('\n', Trim(s))
    ensures |Deindent(s)| == |Trim(s)| - 6 * IndentedCount(Lines(Trim(s)))
  {
    var t := Trim(s);
    var ls := Lines(t);
    ReplaceOutdentsAll(t);
    UnlinesOfLines(t);
    LinesHaveNoLineFeed(t);
    OutdentKeepsNoLineFeed(ls);
    UnlinesMeasure(ls);
    UnlinesMeasure(OutdentAll(ls));
    OutdentLength(ls);
  }

  /* ---------- createQueryEngine ---------- */

  /** The variable every reference binding uses. */
  const ValueVariable := "?value"

  /** The plain object `{ value }`: no other fields, the default conversions
      of a plain object. */
  function PlainTerm(v: string): Term {
    Term(v, map[], Inherited("[object Object]"), Inherited("[object Object]"))
  }

  /** `new Map([['?value', term]])`. */
  function SingleBinding(v: string): Binding {
    [Entry(ValueVariable, PlainTerm(v))]
  }

  /** The generator's loop: one single-entry binding per result, in order. */
  function ReferenceBindings(results: seq<string>): (bs: seq<Binding>)
    ensures |bs| == |results|
    ensures forall i :: 0 <= i < |results| ==>
      && |bs[i]| == 1
      && bs[i][0].variable == ValueVariable
      && bs[i][0].term.value == results[i]
    decreases |results|
  {
    if results == [] then []
    else ReferenceBindings(results[..|results| - 1]) + [SingleBinding(results[|results| - 1])]
  }

  /** `createQueryEngine(results)`: whatever the query, a stream of the
      reference bindings that completes normally. */
  function CreateQueryEngine(results: seq<string>): (e: Engine)
    ensures NeverThrows(e)
    ensures forall query :: e.execute(query) == Success(Stream(ReferenceBindings(results), None))
  {
    Engine(query => Success(Stream(ReferenceBindings(results), None)))
  }

  /** The handler over the reference engine, in streaming mode from
      `execute(path)` on: whatever the schedule of factory and `next()` calls,
      the k-th `next()` gives a term whose value and string form are result k,
      then `{ done }` for ever; the cardinality error never occurs and the
      engine is called once. */
  lemma ReferenceEngineStreams(h: Handler, name: string, results: seq<string>, ops: seq<Op>)
    requires !h.single
    requires h.compile(Path(name, Some(CreateQueryEngine(results)))).Success?
    ensures var a := Execute(h, Path(name, Some(CreateQueryEngine(results))));
      var r := Streaming(h, a.path, a.scope, ops);
      && r.state.engineCalls == (if NextCalls(ops) == 0 then 0 else 1)
      && forall k :: 0 <= k < |r.replies| ==>
           (k < |results| ==> r.replies[k].Item?
                               && r.replies[k].value.value == results[k]
                               && ToString(r.replies[k].value) == results[k])
           && (k >= |results| ==> r.replies[k] == Done)
  {
    var path := Path(name, Some(CreateQueryEngine(results)));
    var stream := Stream(ReferenceBindings(results), None);
    FactoryStreamsInOrder(h, path, stream, ops);
  }
}
