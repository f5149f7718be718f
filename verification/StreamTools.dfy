/** The tool checks of the receipt, read as a language: each id alternates use and result. */
module StreamTools {
  import opened StreamModel
  import opened StreamEnvelope

  // --- Well-formed streams ----------------------------------------------------------

  predicate WellFormedBody(b: Body) {
    match b
    case ChildStarted(_, _, _) => ChildStartedOk(b)
    case ChildFinished(_, _, _, _) => ChildFinishedOk(b)
    case ToolUse(id, name, _) => id.Some? && name.Some?
    case ToolResult(id, name, status, _, _) => id.Some? && name.Some? && status.Some?
    case _ => true
  }

  predicate WellFormed(line: Line) {
    line.event.Typed? && line.event.schemaOk && WellFormedBody(line.event.body)
  }

  ghost predicate AllWellFormed(lines: seq<Line>) {
    forall i :: 0 <= i < |lines| ==> WellFormed(lines[i])
  }

  /** Well-formed lines raise no schema error, and the event count is their number. */
  lemma {:induction false} WellFormedIsClean(lines: seq<Line>)
    requires AllWellFormed(lines)
    ensures Run(lines).invalidLines == 0 && Run(lines).schemaErrors == 0 && Run(lines).eventCount == |lines|
  {
    if lines != [] {
      var n := |lines| - 1;
      assert forall i :: 0 <= i < n ==> lines[..n][i] == lines[i];
      WellFormedIsClean(lines[..n]);
      assert WellFormed(lines[n]);
    }
  }

  /** A nonempty stream of well-formed lines: its beginning, and its last line. */
  lemma WellFormedSnoc(lines: seq<Line>)
    requires lines != [] && AllWellFormed(lines)
    ensures var before := lines[..|lines| - 1];
            AllWellFormed(before) && Run(before).eventCount == |lines| - 1 && WellFormed(lines[|lines| - 1])
  {
    var before := lines[..|lines| - 1];
    forall i | 0 <= i < |before| ensures WellFormed(before[i]) {
      assert before[i] == lines[i];
    }
    WellFormedIsClean(before);
  }

  /** No schema error and no orphan so far. */
  predicate Clean(r: Receipt) {
    r.invalidLines == 0 && r.schemaErrors == 0 && r.tools.orphans == 0
  }

  lemma CleanStep(r: Receipt, line: Line)
    requires Clean(StreamModel.Step(r, line.event, line.snapshot))
    ensures Clean(r) && WellFormed(line)
  {
  }

  lemma {:induction false} CleanIsWellFormed(lines: seq<Line>)
    requires Clean(Run(lines))
    ensures AllWellFormed(lines)
  {
    if lines != [] {
      var before := lines[..|lines| - 1];
      CleanStep(Run(before), lines[|before|]);
      CleanIsWellFormed(before);
      forall i | 0 <= i < |before| ensures WellFormed(lines[i]) {
        assert before[i] == lines[i];
      }
    }
  }

  // --- Calls of one id -----------------------------------------------------------------

  datatype Call = Use(name: string) | Answer(name: string)

  function CallOf(b: Body, id: string): seq<Call> {
    match b
    case ToolUse(Some(i), Some(name), _) => if i == id then [Use(name)] else []
    case ToolResult(Some(i), Some(name), _, _, _) => if i == id then [Answer(name)] else []
    case _ => []
  }

  /** The uses and results of one tool id, in stream order. */
  function Calls(lines: seq<Line>, id: string): seq<Call> {
    if lines == [] then []
    else
      var n := |lines| - 1;
      Calls(lines[..n], id) + CallOf(BodyOf(lines[n]), id)
  }

  predicate InTurn(calls: seq<Call>, i: nat)
    requires i < |calls|
  {
    if i % 2 == 0 then calls[i].Use? else calls[i].Answer? && calls[i].name == calls[i - 1].name
  }

  /** A use, its result under the same name, a use, its result, and so on. */
  predicate Alternates(calls: seq<Call>) {
    forall i :: 0 <= i < |calls| ==> InTurn(calls, i)
  }

  predicate AlternatesFor(lines: seq<Line>, id: string) {
    Alternates(Calls(lines, id))
  }

  predicate AnsweredFor(lines: seq<Line>, id: string) {
    Alternates(Calls(lines, id)) && |Calls(lines, id)| % 2 == 0
  }

  predicate ToolsClean(t: Tools) {
    t.duplicates == 0 && t.orphans == 0 && t.mismatches == 0
  }

  /** The table of open calls holds exactly the ids with a use still unanswered. */
  predicate OpenMatches(t: Tools, lines: seq<Line>, id: string) {
    var calls := Calls(lines, id);
    && (id in t.started <==> |calls| % 2 == 1)
    && (id in t.started && calls != [] ==> t.started[id].name == calls[|calls| - 1].name)
  }

  ghost predicate Tracks(t: Tools, lines: seq<Line>) {
    && (ToolsClean(t) <==> forall id :: AlternatesFor(lines, id))
    && (ToolsClean(t) ==> forall id :: OpenMatches(t, lines, id))
  }

  lemma AlternatesSnoc(calls: seq<Call>, c: Call)
    ensures Alternates(calls + [c]) <==>
      && Alternates(calls)
      && if |calls| % 2 == 0 then c.Use? else c.Answer? && c.name == calls[|calls| - 1].name
  {
    var all, n := calls + [c], |calls|;
    assert forall i :: 0 <= i < n ==> (InTurn(all, i) <==> InTurn(calls, i));
    assert InTurn(all, n) <==> if n % 2 == 0 then c.Use? else c.Answer? && c.name == calls[n - 1].name;
  }

  // --- One event -----------------------------------------------------------------------------

  /** What a tool event of `id` does to the error counters and to the entry of `id`. */
  lemma OwnCall(t: Tools, index: nat, handedOff: bool, b: Body, id: string, call: Call)
    requires CallOf(b, id) == [call] && WellFormedBody(b)
    ensures var t' := ToolStep(t, index, handedOff, b);
            && (ToolsClean(t') <==>
                  ToolsClean(t) && if call.Use? then id !in t.started
                                   else id in t.started && t.started[id].name == call.name)
            && (ToolsClean(t') ==>
                  (id in t'.started <==> call.Use?) && (call.Use? ==> t'.started[id].name == call.name))
  {
  }

  /** It leaves every other id alone. */
  lemma OtherCall(t: Tools, index: nat, handedOff: bool, b: Body, id: string)
    requires CallOf(b, id) == [] && WellFormedBody(b)
    ensures var t' := ToolStep(t, index, handedOff, b);
            && (id in t'.started <==> id in t.started)
            && (id in t.started ==> t'.started[id] == t.started[id])
  {
  }

  lemma {:induction false} RunTools(lines: seq<Line>)
    requires lines != [] && lines[|lines| - 1].event.Typed?
    ensures var r := Run(lines[..|lines| - 1]);
            Run(lines).tools
            == ToolStep(r.tools, r.eventCount + 1, r.children.firstFinished.Some?, BodyOf(lines[|lines| - 1]))
  {
  }

  lemma OtherTracks(t: Tools, index: nat, handedOff: bool, lines: seq<Line>, id: string)
    requires lines != [] && CallOf(BodyOf(lines[|lines| - 1]), id) == [] && WellFormedBody(BodyOf(lines[|lines| - 1]))
    ensures var t' := ToolStep(t, index, handedOff, BodyOf(lines[|lines| - 1]));
            && (AlternatesFor(lines, id) <==> AlternatesFor(lines[..|lines| - 1], id))
            && (OpenMatches(t', lines, id) <==> OpenMatches(t, lines[..|lines| - 1], id))
  {
    OtherCall(t, index, handedOff, BodyOf(lines[|lines| - 1]), id);
    assert Calls(lines, id) == Calls(lines[..|lines| - 1], id);
  }

  lemma OwnTracks(t: Tools, index: nat, handedOff: bool, lines: seq<Line>, id: string, call: Call)
    requires lines != [] && CallOf(BodyOf(lines[|lines| - 1]), id) == [call]
    requires WellFormedBody(BodyOf(lines[|lines| - 1]))
    requires ToolsClean(t) ==> AlternatesFor(lines[..|lines| - 1], id) && OpenMatches(t, lines[..|lines| - 1], id)
    ensures var t' := ToolStep(t, index, handedOff, BodyOf(lines[|lines| - 1]));
            && (AlternatesFor(lines, id) ==> AlternatesFor(lines[..|lines| - 1], id))
            && (ToolsClean(t') ==> ToolsClean(t))
            && (ToolsClean(t) ==> (ToolsClean(t') <==> AlternatesFor(lines, id)))
            && (ToolsClean(t') ==> OpenMatches(t', lines, id))
  {
    var calls := Calls(lines[..|lines| - 1], id);
    OwnCall(t, index, handedOff, BodyOf(lines[|lines| - 1]), id, call);
    AlternatesSnoc(calls, call);
    assert Calls(lines, id) == calls + [call];
    if calls == [] { assert |calls| % 2 == 0; }
  }

  lemma ToolTracks(t: Tools, index: nat, handedOff: bool, lines: seq<Line>, id: string, call: Call)
    requires lines != [] && CallOf(BodyOf(lines[|lines| - 1]), id) == [call]
    requires WellFormedBody(BodyOf(lines[|lines| - 1]))
    requires Tracks(t, lines[..|lines| - 1])
    ensures Tracks(ToolStep(t, index, handedOff, BodyOf(lines[|lines| - 1])), lines)
  {
    var before := lines[..|lines| - 1];
    OwnTracks(t, index, handedOff, lines, id, call);
    var t' := ToolStep(t, index, handedOff, BodyOf(lines[|lines| - 1]));
    forall other | other != id
      ensures AlternatesFor(lines, other) <==> AlternatesFor(before, other)
      ensures OpenMatches(t', lines, other) <==> OpenMatches(t, before, other)
    {
      OtherTracks(t, index, handedOff, lines, other);
    }
    if !ToolsClean(t) {
      var bad :| !AlternatesFor(before, bad);
      assert !AlternatesFor(lines, bad);
    }
  }

  lemma QuietTracks(t: Tools, index: nat, handedOff: bool, lines: seq<Line>)
    requires lines != [] && !BodyOf(lines[|lines| - 1]).ToolUse? && !BodyOf(lines[|lines| - 1]).ToolResult?
    requires WellFormedBody(BodyOf(lines[|lines| - 1])) && Tracks(t, lines[..|lines| - 1])
    ensures Tracks(ToolStep(t, index, handedOff, BodyOf(lines[|lines| - 1])), lines)
  {
    forall id
      ensures AlternatesFor(lines, id) <==> AlternatesFor(lines[..|lines| - 1], id)
      ensures OpenMatches(t, lines, id) <==> OpenMatches(t, lines[..|lines| - 1], id)
    {
      OtherTracks(t, index, handedOff, lines, id);
    }
    if !ToolsClean(t) {
      var bad :| !AlternatesFor(lines[..|lines| - 1], bad);
      assert !AlternatesFor(lines, bad);
    }
  }

  // --- The language -----------------------------------------------------------------------------

  lemma {:induction false} ToolsTracked(lines: seq<Line>)
    requires AllWellFormed(lines)
    ensures Tracks(Run(lines).tools, lines)
  {
    if lines != [] {
      var n := |lines| - 1;
      var r := Run(lines[..n]);
      assert forall i :: 0 <= i < n ==> lines[..n][i] == lines[i];
      ToolsTracked(lines[..n]);
      assert WellFormed(lines[n]);
      RunTools(lines);
      var index, handedOff := r.eventCount + 1, r.children.firstFinished.Some?;
      match BodyOf(lines[n])
      case ToolUse(id, name, _) => ToolTracks(r.tools, index, handedOff, lines, id.value, Use(name.value));
      case ToolResult(id, name, _, _, _) => ToolTracks(r.tools, index, handedOff, lines, id.value, Answer(name.value));
      case _ => QuietTracks(r.tools, index, handedOff, lines);
    }
  }

  /**
    Over well-formed lines, the duplicate, orphan, name and open-call checks are all clear exactly
    when every tool id alternates use and result under one name and ends with a result.
   */
  lemma ToolLanguage(lines: seq<Line>)
    requires AllWellFormed(lines)
    ensures ToolErrors(Run(lines).tools) == [] <==> forall id :: AnsweredFor(lines, id)
  {
    ToolsTracked(lines);
    var t := Run(lines).tools;
    assert ToolErrors(t) == [] <==> ToolsClean(t) && t.started == map[];
    if ToolErrors(t) == [] {
      forall id ensures AnsweredFor(lines, id) {
        assert AlternatesFor(lines, id) && OpenMatches(t, lines, id);
      }
    }
    if forall id :: AnsweredFor(lines, id) {
      assert forall id :: AnsweredFor(lines, id) ==> AlternatesFor(lines, id);
      forall id ensures id !in t.started {
        assert AnsweredFor(lines, id) && OpenMatches(t, lines, id);
      }
    }
  }
}
