/** Which error a stream gets: each tool code and each child code, as a condition on the events. */
module StreamCodes {
  import opened Basics
  import opened StreamModel
  import opened StreamEnvelope
  import opened StreamTools
  import opened StreamChildren

  // --- Uses and results ---------------------------------------------------------------------

  predicate IsUse(lines: seq<Line>, m: int, id: string) {
    && 0 <= m < |lines| && BodyOf(lines[m]).ToolUse?
    && BodyOf(lines[m]).id == Some(id) && BodyOf(lines[m]).name.Some?
  }

  predicate IsResult(lines: seq<Line>, m: int, id: string) {
    0 <= m < |lines| && BodyOf(lines[m]).ToolResult? && BodyOf(lines[m]).id == Some(id)
  }

  ghost predicate NoResult(lines: seq<Line>, u: int, m: int, id: string) {
    forall r :: u < r < m ==> !IsResult(lines, r, id)
  }

  /** Before line `m` some use of `id` has had no result. */
  ghost predicate IsOpen(lines: seq<Line>, m: int, id: string) {
    exists u :: u < m && IsUse(lines, u, id) && NoResult(lines, u, m, id)
  }

  /** Line `u` is the use that opened `id`, which is still open before line `m`. */
  ghost predicate OpenedBy(lines: seq<Line>, u: int, m: int, id: string) {
    u < m && IsUse(lines, u, id) && !IsOpen(lines, u, id) && NoResult(lines, u, m, id)
  }

  // --- The four conditions ----------------------------------------------------------------------

  ghost predicate UsedTwice(lines: seq<Line>, m: int, id: string) {
    IsUse(lines, m, id) && IsOpen(lines, m, id)
  }

  ghost predicate AnsweredClosed(lines: seq<Line>, m: int, id: string) {
    IsResult(lines, m, id) && !IsOpen(lines, m, id)
  }

  ghost predicate AnsweredAs(lines: seq<Line>, m: int, id: string) {
    && IsResult(lines, m, id) && BodyOf(lines[m]).name.Some?
    && exists u :: OpenedBy(lines, u, m, id) && BodyOf(lines[u]).name != BodyOf(lines[m]).name
  }

  // --- One more line -------------------------------------------------------------------------------

  lemma EarlierLines(lines: seq<Line>, m: int, id: string)
    requires lines != [] && m < |lines|
    ensures var before := lines[..|lines| - 1];
            && (m < |before| ==> (IsUse(lines, m, id) <==> IsUse(before, m, id)))
            && (m < |before| ==> (IsResult(lines, m, id) <==> IsResult(before, m, id)))
  {
  }

  lemma EarlierOpen(lines: seq<Line>, m: int, id: string)
    requires lines != [] && m < |lines|
    ensures IsOpen(lines, m, id) <==> IsOpen(lines[..|lines| - 1], m, id)
  {
    var before := lines[..|lines| - 1];
    forall u | u < m
      ensures IsUse(lines, u, id) <==> IsUse(before, u, id)
      ensures NoResult(lines, u, m, id) <==> NoResult(before, u, m, id)
    {
      EarlierLines(lines, u, id);
      EarlierRange(lines, u, m, id);
    }
  }

  lemma EarlierRange(lines: seq<Line>, u: int, m: int, id: string)
    requires lines != [] && m < |lines|
    ensures NoResult(lines, u, m, id) <==> NoResult(lines[..|lines| - 1], u, m, id)
  {
    var before := lines[..|lines| - 1];
    forall r | u < r < m ensures IsResult(lines, r, id) <==> IsResult(before, r, id) {
      EarlierLines(lines, r, id);
    }
    if NoResult(lines, u, m, id) {
      forall r | u < r < m ensures !IsResult(before, r, id) { assert !IsResult(lines, r, id); }
    }
  }

  lemma EarlierOpened(lines: seq<Line>, u: int, m: int, id: string)
    requires lines != [] && m < |lines|
    ensures OpenedBy(lines, u, m, id) <==> OpenedBy(lines[..|lines| - 1], u, m, id)
  {
    if u < m {
      EarlierLines(lines, u, id);
      EarlierOpen(lines, u, id);
      EarlierRange(lines, u, m, id);
    }
  }

  /** An id is open after a line that uses it, closed after one that answers it, and as before otherwise. */
  lemma OpenAfter(lines: seq<Line>, id: string)
    requires lines != []
    ensures var n := |lines| - 1;
            IsOpen(lines, n + 1, id) <==> IsUse(lines, n, id) || (IsOpen(lines, n, id) && !IsResult(lines, n, id))
  {
    var n := |lines| - 1;
    if IsUse(lines, n, id) { assert NoResult(lines, n, n + 1, id); }
    if IsOpen(lines, n, id) && !IsResult(lines, n, id) {
      var u :| u < n && IsUse(lines, u, id) && NoResult(lines, u, n, id);
      assert NoResult(lines, u, n + 1, id);
    }
    if IsOpen(lines, n + 1, id) && !IsUse(lines, n, id) {
      var u :| u < n + 1 && IsUse(lines, u, id) && NoResult(lines, u, n + 1, id);
      assert NoResult(lines, u, n, id);
    }
  }

  lemma OpenedAfter(lines: seq<Line>, u: int, id: string)
    requires lines != []
    ensures var n := |lines| - 1;
            && (OpenedBy(lines, u, n, id) && !IsResult(lines, n, id) ==> OpenedBy(lines, u, n + 1, id))
            && (IsUse(lines, n, id) && !IsOpen(lines, n, id) ==> OpenedBy(lines, n, n + 1, id))
  {
  }

  // --- The table ------------------------------------------------------------------------------------

  /** The open table holds the open ids, each under the name of the use that opened it. */
  ghost predicate TableFits(lines: seq<Line>, t: Tools, id: string) {
    && (id in t.started <==> IsOpen(lines, |lines|, id))
    && (id in t.started ==> NamedBy(lines, |lines|, id, t.started[id].name))
  }

  ghost predicate NamedBy(lines: seq<Line>, m: int, id: string, name: string) {
    exists u :: OpenedBy(lines, u, m, id) && BodyOf(lines[u]).name == Some(name)
  }

  lemma OpenedOnce(lines: seq<Line>, u: int, v: int, m: int, id: string)
    requires OpenedBy(lines, u, m, id) && OpenedBy(lines, v, m, id)
    ensures u == v
  {
    OpenBetween(lines, u, v, m, id);
    OpenBetween(lines, v, u, m, id);
  }

  lemma OpenBetween(lines: seq<Line>, u: int, v: int, m: int, id: string)
    requires OpenedBy(lines, u, m, id)
    ensures u < v < m ==> IsOpen(lines, v, id)
  {
    if u < v < m { assert NoResult(lines, u, v, id); }
  }

  lemma FitsBefore(lines: seq<Line>, t: Tools, id: string)
    requires lines != [] && TableFits(lines[..|lines| - 1], t, id)
    ensures id in t.started <==> IsOpen(lines, |lines| - 1, id)
    ensures id in t.started ==> NamedBy(lines, |lines| - 1, id, t.started[id].name)
  {
    var n, before := |lines| - 1, lines[..|lines| - 1];
    EarlierOpen(lines, n, id);
    if id in t.started {
      var u :| OpenedBy(before, u, n, id) && BodyOf(before[u]).name == Some(t.started[id].name);
      EarlierOpened(lines, u, n, id);
      assert before[u] == lines[u];
    }
  }

  lemma FitsAfter(lines: seq<Line>, t: Tools, index: nat, handedOff: bool, id: string)
    requires lines != [] && TableFits(lines[..|lines| - 1], t, id)
    ensures TableFits(lines, ToolStep(t, index, handedOff, BodyOf(lines[|lines| - 1])), id)
  {
    var n, t' := |lines| - 1, ToolStep(t, index, handedOff, BodyOf(lines[|lines| - 1]));
    FitsBefore(lines, t, id);
    OpenAfter(lines, id);
    TableStep(lines[n], t, index, handedOff, id);
    if id in t'.started {
      if id in t.started {
        var u :| OpenedBy(lines, u, n, id) && BodyOf(lines[u]).name == Some(t.started[id].name);
        OpenedAfter(lines, u, id);
      } else {
        OpenedAfter(lines, n, id);
      }
    }
  }

  /** What one line does to the entry of `id`. */
  lemma TableStep(line: Line, t: Tools, index: nat, handedOff: bool, id: string)
    ensures var t' := ToolStep(t, index, handedOff, BodyOf(line));
            && (id in t'.started <==> IsUse([line], 0, id) || (id in t.started && !IsResult([line], 0, id)))
            && (id in t'.started && id in t.started ==> t'.started[id] == t.started[id])
            && (id in t'.started && id !in t.started ==> Some(t'.started[id].name) == BodyOf(line).name)
  {
  }

  /** What one line does to the counters. */
  lemma CounterStep(line: Line, t: Tools, index: nat, handedOff: bool)
    ensures var t' := ToolStep(t, index, handedOff, BodyOf(line));
            && (t'.duplicates > t.duplicates <==> exists id :: IsUse([line], 0, id) && id in t.started)
            && (t'.orphans > t.orphans <==> exists id :: IsResult([line], 0, id) && id !in t.started)
            && (t'.mismatches > t.mismatches <==>
                  exists id :: IsResult([line], 0, id) && id in t.started && BodyOf(line).name.Some?
                               && BodyOf(line).name != Some(t.started[id].name))
            && t'.duplicates >= t.duplicates && t'.orphans >= t.orphans && t'.mismatches >= t.mismatches
  {
    match BodyOf(line)
    case ToolUse(Some(id), Some(_), _) =>
      assert IsUse([line], 0, id);
    case ToolResult(Some(id), _, _, _, _) =>
      assert IsResult([line], 0, id);
    case _ =>
  }

  // --- Over every stream ------------------------------------------------------------------------------

  ghost predicate SomeUsedTwice(lines: seq<Line>) {
    exists m, id :: UsedTwice(lines, m, id)
  }

  ghost predicate SomeAnsweredClosed(lines: seq<Line>) {
    exists m, id :: AnsweredClosed(lines, m, id)
  }

  ghost predicate SomeAnsweredAs(lines: seq<Line>) {
    exists m, id :: AnsweredAs(lines, m, id)
  }

  ghost predicate CountersFit(lines: seq<Line>, t: Tools) {
    && (t.duplicates > 0 <==> SomeUsedTwice(lines))
    && (t.orphans > 0 <==> SomeAnsweredClosed(lines))
    && (t.mismatches > 0 <==> SomeAnsweredAs(lines))
  }

  lemma LastLine(lines: seq<Line>, id: string)
    requires lines != []
    ensures var n := |lines| - 1;
            && (IsUse([lines[n]], 0, id) <==> IsUse(lines, n, id))
            && (IsResult([lines[n]], 0, id) <==> IsResult(lines, n, id))
  {
  }

  lemma EarlierConditions(lines: seq<Line>, m: int, id: string)
    requires lines != [] && m < |lines| - 1
    ensures var before := lines[..|lines| - 1];
            && (UsedTwice(lines, m, id) <==> UsedTwice(before, m, id))
            && (AnsweredClosed(lines, m, id) <==> AnsweredClosed(before, m, id))
            && (AnsweredAs(lines, m, id) <==> AnsweredAs(before, m, id))
  {
    EarlierLines(lines, m, id);
    EarlierOpen(lines, m, id);
    var before := lines[..|lines| - 1];
    forall u ensures OpenedBy(lines, u, m, id) <==> OpenedBy(before, u, m, id) {
      EarlierOpened(lines, u, m, id);
    }
    if AnsweredAs(lines, m, id) {
      var u :| OpenedBy(lines, u, m, id) && BodyOf(lines[u]).name != BodyOf(lines[m]).name;
      assert OpenedBy(before, u, m, id) && before[u] == lines[u] && before[m] == lines[m];
    }
    if AnsweredAs(before, m, id) {
      var u :| OpenedBy(before, u, m, id) && BodyOf(before[u]).name != BodyOf(before[m]).name;
      assert OpenedBy(lines, u, m, id) && before[u] == lines[u] && before[m] == lines[m];
    }
  }

  /** Each condition holds of a stream when it holds of its beginning, or at its last line. */
  lemma ConditionsSnoc(lines: seq<Line>)
    requires lines != []
    ensures var before, n := lines[..|lines| - 1], |lines| - 1;
            && (SomeUsedTwice(lines) <==> SomeUsedTwice(before) || exists id :: UsedTwice(lines, n, id))
            && (SomeAnsweredClosed(lines) <==>
                  SomeAnsweredClosed(before) || exists id :: AnsweredClosed(lines, n, id))
            && (SomeAnsweredAs(lines) <==> SomeAnsweredAs(before) || exists id :: AnsweredAs(lines, n, id))
  {
    var before, n := lines[..|lines| - 1], |lines| - 1;
    forall m, id | m < n
      ensures UsedTwice(lines, m, id) <==> UsedTwice(before, m, id)
      ensures AnsweredClosed(lines, m, id) <==> AnsweredClosed(before, m, id)
      ensures AnsweredAs(lines, m, id) <==> AnsweredAs(before, m, id)
    {
      EarlierConditions(lines, m, id);
    }
  }

  lemma LastConditions(lines: seq<Line>, t: Tools, id: string)
    requires lines != [] && TableFits(lines[..|lines| - 1], t, id)
    ensures var n := |lines| - 1;
            && (UsedTwice(lines, n, id) <==> IsUse([lines[n]], 0, id) && id in t.started)
            && (AnsweredClosed(lines, n, id) <==> IsResult([lines[n]], 0, id) && id !in t.started)
            && (AnsweredAs(lines, n, id) <==>
                  && IsResult([lines[n]], 0, id) && id in t.started && BodyOf(lines[n]).name.Some?
                  && BodyOf(lines[n]).name != Some(t.started[id].name))
  {
    var n := |lines| - 1;
    FitsBefore(lines, t, id);
    LastLine(lines, id);
    if id in t.started {
      var u :| OpenedBy(lines, u, n, id) && BodyOf(lines[u]).name == Some(t.started[id].name);
      forall v | OpenedBy(lines, v, n, id) ensures v == u { OpenedOnce(lines, u, v, n, id); }
    }
  }

  lemma ToolsAfter(r: Receipt, line: Line)
    ensures StreamModel.Step(r, line.event, line.snapshot).tools
         == ToolStep(r.tools, r.eventCount + 1, r.children.firstFinished.Some?, BodyOf(line))
  {
  }

  lemma {:induction false} RunTableFits(lines: seq<Line>, id: string)
    ensures TableFits(lines, Run(lines).tools, id)
  {
    if lines != [] {
      var r := Run(lines[..|lines| - 1]);
      RunTableFits(lines[..|lines| - 1], id);
      ToolsAfter(r, lines[|lines| - 1]);
      FitsAfter(lines, r.tools, r.eventCount + 1, r.children.firstFinished.Some?, id);
    }
  }

  ghost predicate AllFit(lines: seq<Line>, t: Tools) {
    forall id :: TableFits(lines, t, id)
  }

  lemma CountersAfter(lines: seq<Line>, t: Tools, index: nat, handedOff: bool)
    requires lines != [] && CountersFit(lines[..|lines| - 1], t)
    requires AllFit(lines[..|lines| - 1], t)
    ensures CountersFit(lines, ToolStep(t, index, handedOff, BodyOf(lines[|lines| - 1])))
  {
    var n := |lines| - 1;
    ConditionsSnoc(lines);
    CounterStep(lines[n], t, index, handedOff);
    forall id
      ensures UsedTwice(lines, n, id) <==> IsUse([lines[n]], 0, id) && id in t.started
      ensures AnsweredClosed(lines, n, id) <==> IsResult([lines[n]], 0, id) && id !in t.started
      ensures AnsweredAs(lines, n, id) <==>
        && IsResult([lines[n]], 0, id) && id in t.started && BodyOf(lines[n]).name.Some?
        && BodyOf(lines[n]).name != Some(t.started[id].name)
    {
      assert TableFits(lines[..n], t, id);
      LastConditions(lines, t, id);
    }
  }

  lemma RunAllFit(lines: seq<Line>)
    ensures AllFit(lines, Run(lines).tools)
  {
    forall id ensures TableFits(lines, Run(lines).tools, id) { RunTableFits(lines, id); }
  }

  lemma CountersNext(lines: seq<Line>, r: Receipt, line: Line)
    requires lines != [] && line == lines[|lines| - 1]
    requires CountersFit(lines[..|lines| - 1], r.tools) && AllFit(lines[..|lines| - 1], r.tools)
    ensures CountersFit(lines, StreamModel.Step(r, line.event, line.snapshot).tools)
  {
    ToolsAfter(r, line);
    CountersAfter(lines, r.tools, r.eventCount + 1, r.children.firstFinished.Some?);
  }

  lemma {:induction false} RunCountersFit(lines: seq<Line>)
    ensures CountersFit(lines, Run(lines).tools)
  {
    if lines != [] {
      var before := lines[..|lines| - 1];
      RunCountersFit(before);
      RunAllFit(before);
      CountersNext(lines, Run(before), lines[|before|]);
    }
  }

  predicate IsToolCode(code: ErrorCode) {
    code == DuplicateToolId || code == OrphanToolResult || code == ToolNameMismatch || code == ToolResultMissing
  }

  predicate IsChildCode(code: ErrorCode) {
    || code == DuplicateChildStarted || code == DuplicateChildFinished
    || code == OrphanChildFinished || code == ChildLifecycleOutOfOrder
  }

  lemma FaultIn(b: bool, c: ErrorCode, code: ErrorCode)
    ensures code in Fault(b, c) <==> b && code == c
  {
  }

  lemma ChildCodes(c: Children, eventCount: nat, code: ErrorCode)
    requires IsToolCode(code)
    ensures code !in ChildErrors(c, eventCount)
  {
    FaultIn(HasRepeats(c.started), DuplicateChildStarted, code);
    FaultIn(HasRepeats(c.finished), DuplicateChildFinished, code);
    FaultIn(OutOfOrder(c, eventCount), ChildLifecycleOutOfOrder, code);
  }

  lemma EnvelopeCodes(v: Envelope, code: ErrorCode)
    requires IsToolCode(code) || IsChildCode(code)
    ensures code !in EnvelopeErrors(v)
  {
    FaultIn(v.terminalCount != 1, TerminalMetadataCount, code);
    FaultIn(v.doneCount != 1, DoneCount, code);
    FaultIn(!v.lastIsDone, DoneNotLast, code);
  }

  /** The tool codes come from the tool checks alone. */
  lemma ToolCodes(r: Receipt, transport: Transport, code: ErrorCode)
    requires IsToolCode(code)
    ensures code in ProtocolErrors(r, transport) <==> code in ToolErrors(r.tools)
  {
    FaultIn(r.invalidLines > 0, InvalidJsonOrShape, code);
    FaultIn(r.schemaErrors > 0, StreamSchemaMismatch, code);
    FaultIn(transport.oversizedLines > 0, StreamLineTooLarge, code);
    FaultIn(transport.overflow, StreamTooLarge, code);
    ChildCodes(r.children, r.eventCount, code);
    EnvelopeCodes(r.envelope, code);
  }

  lemma ToolCodeIff(t: Tools)
    ensures DuplicateToolId in ToolErrors(t) <==> t.duplicates > 0
    ensures OrphanToolResult in ToolErrors(t) <==> t.orphans > 0
    ensures ToolNameMismatch in ToolErrors(t) <==> t.mismatches > 0
    ensures ToolResultMissing in ToolErrors(t) <==> t.started != map[]
  {
  }

  /**
    Over every stream, malformed ones included: the duplicate code is reported exactly when an id is
    used while open, the orphan code when an id is answered while not open, the name code when an id is
    answered under another name than that of the use that opened it, and the missing code when an id is
    left open.
   */
  lemma ToolCodesIff(lines: seq<Line>, transport: Transport)
    ensures var errors := ProtocolErrors(Run(lines), transport);
            && (DuplicateToolId in errors <==> exists m, id :: UsedTwice(lines, m, id))
            && (OrphanToolResult in errors <==> exists m, id :: AnsweredClosed(lines, m, id))
            && (ToolNameMismatch in errors <==> exists m, id :: AnsweredAs(lines, m, id))
            && (ToolResultMissing in errors <==> exists id :: IsOpen(lines, |lines|, id))
  {
    ToolCodes(Run(lines), transport, DuplicateToolId);
    ToolCodes(Run(lines), transport, OrphanToolResult);
    ToolCodes(Run(lines), transport, ToolNameMismatch);
    ToolCodes(Run(lines), transport, ToolResultMissing);
    ToolCodeIff(Run(lines).tools);
    RunCountersFit(lines);
    var t := Run(lines).tools;
    forall id ensures id in t.started <==> IsOpen(lines, |lines|, id) { RunTableFits(lines, id); }
  }

  // --- Child codes -------------------------------------------------------------------------------------

  ghost predicate NeverStarted(lines: seq<Line>, child: Child) {
    forall i :: !Names(lines, StartPhase, i, child)
  }

  ghost predicate StartedAfter(lines: seq<Line>, child: Child, m: int) {
    exists i :: i >= m && Names(lines, StartPhase, i, child)
  }

  /** A finish of a child that never starts. */
  ghost predicate SomeOrphan(lines: seq<Line>) {
    exists m, child :: Names(lines, FinishPhase, m, child) && NeverStarted(lines, child)
  }

  /** A finish of a child that never starts, or that starts later, too. */
  ghost predicate SomeEarly(lines: seq<Line>) {
    exists m, child ::
      Names(lines, FinishPhase, m, child) && (NeverStarted(lines, child) || StartedAfter(lines, child, m))
  }

  /** The place the order check looks up is that of the last start, or one past every event. */
  lemma {:induction false} StartedAtLast(c: Children, eventCount: nat, child: Child, n: nat)
    requires n <= |c.started| == |c.startedAt| && Increasing(c.startedAt)
    ensures child !in c.started[..n] ==> StartedAt(c, eventCount, child, n) == eventCount + 1
    ensures forall k :: 0 <= k < n && c.started[k] == child ==> c.startedAt[k] <= StartedAt(c, eventCount, child, n)
    ensures child in c.started[..n] ==>
      exists k :: 0 <= k < n && c.started[k] == child && StartedAt(c, eventCount, child, n) == c.startedAt[k]
  {
    if n > 0 {
      StartedAtLast(c, eventCount, child, n - 1);
      assert c.started[..n] == c.started[..n - 1] + [c.started[n - 1]];
    }
  }

  lemma StartedInList(lines: seq<Line>, c: Children, child: Child)
    requires Records(lines, StartPhase, c.started, c.startedAt)
    ensures child in c.started <==> !NeverStarted(lines, child)
  {
    if child in c.started {
      var k :| 0 <= k < |c.started| && c.started[k] == child;
      assert Names(lines, StartPhase, c.startedAt[k], c.started[k]);
    }
    if !NeverStarted(lines, child) {
      var i :| Names(lines, StartPhase, i, child);
      var k := Position(lines, StartPhase, c.started, c.startedAt, i, child);
    }
  }

  /** The order check fails on a finish exactly when its child never starts or starts later, too. */
  lemma LateIff(lines: seq<Line>, c: Children, child: Child, m: int)
    requires Records(lines, StartPhase, c.started, c.startedAt) && m <= |lines|
    ensures StartedAt(c, |lines|, child, |c.started|) >= m <==>
      NeverStarted(lines, child) || StartedAfter(lines, child, m)
  {
    StartedAtLast(c, |lines|, child, |c.started|);
    StartedInList(lines, c, child);
    assert c.started[..|c.started|] == c.started;
    if child in c.started && StartedAt(c, |lines|, child, |c.started|) >= m {
      var k :| 0 <= k < |c.started| && c.started[k] == child
            && StartedAt(c, |lines|, child, |c.started|) == c.startedAt[k];
      assert Names(lines, StartPhase, c.startedAt[k], c.started[k]);
    }
    if StartedAfter(lines, child, m) {
      var i :| i >= m && Names(lines, StartPhase, i, child);
      var k := Position(lines, StartPhase, c.started, c.startedAt, i, child);
    }
  }

  lemma OrphanIff(lines: seq<Line>, c: Children)
    requires ChildrenRecorded(lines, c)
    ensures (exists l :: 0 <= l < |c.finished| && c.finished[l] !in c.started) <==> SomeOrphan(lines)
  {
    if l :| 0 <= l < |c.finished| && c.finished[l] !in c.started {
      assert Names(lines, FinishPhase, c.finishedAt[l], c.finished[l]);
      StartedInList(lines, c, c.finished[l]);
    }
    if SomeOrphan(lines) {
      var m, child :| Names(lines, FinishPhase, m, child) && NeverStarted(lines, child);
      var l := Position(lines, FinishPhase, c.finished, c.finishedAt, m, child);
      StartedInList(lines, c, child);
    }
  }

  lemma OutOfOrderIff(lines: seq<Line>, c: Children)
    requires ChildrenRecorded(lines, c)
    ensures OutOfOrder(c, |lines|) <==> SomeEarly(lines)
  {
    if OutOfOrder(c, |lines|) {
      var l :| 0 <= l < |c.finished| && StartedAt(c, |lines|, c.finished[l], |c.started|) >= c.finishedAt[l];
      assert Names(lines, FinishPhase, c.finishedAt[l], c.finished[l]);
      LateIff(lines, c, c.finished[l], c.finishedAt[l]);
    }
    if SomeEarly(lines) {
      var m, child :|
        Names(lines, FinishPhase, m, child) && (NeverStarted(lines, child) || StartedAfter(lines, child, m));
      var l := Position(lines, FinishPhase, c.finished, c.finishedAt, m, child);
      LateIff(lines, c, child, m);
    }
  }

  lemma ChildCodeIff(c: Children, eventCount: nat)
    ensures var errors := ChildErrors(c, eventCount);
            && (DuplicateChildStarted in errors <==> HasRepeats(c.started))
            && (DuplicateChildFinished in errors <==> HasRepeats(c.finished))
            && (OrphanChildFinished in errors <==>
                  exists i :: 0 <= i < |c.finished| && c.finished[i] !in c.started)
            && (ChildLifecycleOutOfOrder in errors <==> OutOfOrder(c, eventCount))
  {
  }

  lemma OtherChildCodes(r: Receipt, transport: Transport, code: ErrorCode)
    requires IsChildCode(code)
    ensures code in ProtocolErrors(r, transport) <==> code in ChildErrors(r.children, r.eventCount)
  {
    FaultIn(r.invalidLines > 0, InvalidJsonOrShape, code);
    FaultIn(r.schemaErrors > 0, StreamSchemaMismatch, code);
    FaultIn(transport.oversizedLines > 0, StreamLineTooLarge, code);
    FaultIn(transport.overflow, StreamTooLarge, code);
    NoToolCode(r.tools, code);
    EnvelopeCodes(r.envelope, code);
  }

  lemma NoToolCode(t: Tools, code: ErrorCode)
    requires IsChildCode(code)
    ensures code !in ToolErrors(t)
  {
    FaultIn(t.duplicates > 0, DuplicateToolId, code);
    FaultIn(t.orphans > 0, OrphanToolResult, code);
    FaultIn(t.mismatches > 0, ToolNameMismatch, code);
    FaultIn(t.started != map[], ToolResultMissing, code);
  }

  /**
    Over well-formed lines each child code is reported exactly when: a child starts twice; finishes
    twice; finishes without ever starting; finishes without ever starting, or with a start after it.
   */
  lemma ChildCodesIff(lines: seq<Line>, transport: Transport)
    requires AllWellFormed(lines)
    ensures var errors := ProtocolErrors(Run(lines), transport);
            && (DuplicateChildStarted in errors <==> !NoRepeats(lines, StartPhase))
            && (DuplicateChildFinished in errors <==> !NoRepeats(lines, FinishPhase))
            && (OrphanChildFinished in errors <==> SomeOrphan(lines))
            && (ChildLifecycleOutOfOrder in errors <==> SomeEarly(lines))
  {
    var r := Run(lines);
    var c := r.children;
    WellFormedIsClean(lines);
    RunRecordsChildren(lines);
    RepeatsIff(lines, StartPhase, c.started, c.startedAt);
    RepeatsIff(lines, FinishPhase, c.finished, c.finishedAt);
    OrphanIff(lines, c);
    OutOfOrderIff(lines, c);
    ChildCodeIff(c, r.eventCount);
    OtherChildCodes(r, transport, DuplicateChildStarted);
    OtherChildCodes(r, transport, DuplicateChildFinished);
    OtherChildCodes(r, transport, OrphanChildFinished);
    OtherChildCodes(r, transport, ChildLifecycleOutOfOrder);
  }
}
