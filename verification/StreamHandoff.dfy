/** What the lane contract says about the events themselves. */
module StreamHandoff {
  import opened Basics
  import opened StreamModel
  import opened StreamEnvelope
  import opened StreamTools
  import opened StreamChildren
  import opened StreamTrace

  // --- Writes before the handoff ---------------------------------------------------

  ghost predicate Below(s: seq<nat>, bound: nat) {
    forall k :: 0 <= k < |s| ==> s[k] < bound
  }

  lemma {:induction false} CountBelowAll(s: seq<nat>, bound: nat)
    requires Below(s, bound)
    ensures CountBelow(s, bound) == |s|
  {
    if s != [] { CountBelowAll(s[..|s| - 1], bound); }
  }

  lemma CountBelowSnoc(s: seq<nat>, x: nat, bound: nat)
    ensures CountBelow(s + [x], bound) == CountBelow(s, bound) + if x < bound then 1 else 0
  {
    assert (s + [x])[..|s|] == s;
  }

  /** Indices never run ahead of the event count, and early writes are counted as early root tools. */
  ghost predicate WritesCounted(r: Receipt) {
    && Below(r.tools.writes, r.eventCount + 1)
    && (r.children.firstFinished.Some? ==> r.children.firstFinished.value <= r.eventCount)
    && WritesBeforeHandoff(r) <= r.tools.preHandoff
  }

  lemma UseKeepsWrites(r: Receipt, r': Receipt, id: string, name: string, input: Input)
    requires WritesCounted(r) && r'.eventCount == r.eventCount + 1 && r'.children == r.children
    requires r'.tools == OnUse(r.tools, r'.eventCount, r.children.firstFinished.Some?, id, name, input)
    ensures WritesCounted(r')
  {
    assert r.tools.writes + [] == r.tools.writes;
    if id !in r.tools.started && name in WRITE_TOOLS {
      assert name != "agent" by { assert |"agent"| == 5; }
      if r.children.firstFinished.Some? {
        CountBelowSnoc(r.tools.writes, r'.eventCount, r.children.firstFinished.value);
      }
    }
  }

  lemma FinishKeepsWrites(r: Receipt, r': Receipt, snapshot: Option<Snapshot>, b: Body)
    requires WritesCounted(r) && r'.eventCount == r.eventCount + 1 && r'.tools == r.tools
    requires r'.children == ChildStep(r.children, r'.eventCount, snapshot, b)
    ensures WritesCounted(r')
  {
    if r.children.firstFinished.None? && r'.children.firstFinished.Some? {
      CountBelowAll(r.tools.writes, r'.eventCount);
    }
  }

  lemma StepKeepsWrites(r: Receipt, e: Event, snapshot: Option<Snapshot>)
    requires WritesCounted(r)
    ensures WritesCounted(Step(r, e, snapshot))
  {
    var r' := Step(r, e, snapshot);
    match e
    case Typed(_, ToolUse(Some(id), Some(name), input)) => UseKeepsWrites(r, r', id, name, input);
    case Typed(_, ToolResult(_, _, _, _, _)) =>
    case Typed(_, b) => FinishKeepsWrites(r, r', snapshot, b);
    case _ =>
  }

  /**
    In every receipt reached by processing events, well formed or not, the writes before the
    handoff are among the root tools before the handoff: the write check never decides alone.
   */
  lemma {:induction false} WritesAreRootTools(lines: seq<Line>)
    ensures WritesCounted(Run(lines))
    ensures WritesBeforeHandoff(Run(lines)) <= Run(lines).tools.preHandoff
  {
    if lines != [] {
      var n := |lines| - 1;
      WritesAreRootTools(lines[..n]);
      StepKeepsWrites(Run(lines[..n]), lines[n].event, lines[n].snapshot);
    }
  }

  // --- Uses before the handoff -----------------------------------------------------------

  predicate IsUse(lines: seq<Line>, m: int) {
    1 <= m <= |lines| && BodyOf(lines[m - 1]).ToolUse?
  }

  /** The use of the agent tool that spawns the canonical read-only explorer. */
  predicate ExplorerUse(lines: seq<Line>, m: int) {
    IsUse(lines, m) && BodyOf(lines[m - 1]).name == Some("agent") && ExplorerSpawn(BodyOf(lines[m - 1]).input)
  }

  predicate EarlyUse(lines: seq<Line>, handoff: Option<nat>, m: int) {
    IsUse(lines, m) && (handoff.Some? ==> m < handoff.value)
  }

  ghost predicate OneEarlyUse(lines: seq<Line>, handoff: Option<nat>) {
    && (forall m :: EarlyUse(lines, handoff, m) ==> ExplorerUse(lines, m))
    && (forall m, k :: EarlyUse(lines, handoff, m) && EarlyUse(lines, handoff, k) ==> m == k)
  }

  ghost predicate EarlyUses(lines: seq<Line>, t: Tools, handoff: Option<nat>) {
    && (t.duplicates == 0 && t.preHandoff == 0 ==> OneEarlyUse(lines, handoff))
    && (t.duplicates == 0 && t.preHandoff == 0 && t.agentCalls == 0 ==> forall m :: !EarlyUse(lines, handoff, m))
    && (handoff.Some? ==> handoff.value <= |lines|)
  }

  lemma EarlyUsePrefix(lines: seq<Line>, handoff: Option<nat>, m: int)
    requires lines != [] && m != |lines|
    ensures EarlyUse(lines, handoff, m) <==> EarlyUse(lines[..|lines| - 1], handoff, m)
    ensures ExplorerUse(lines, m) <==> ExplorerUse(lines[..|lines| - 1], m)
  {
  }

  lemma UseKeepsEarly(lines: seq<Line>, t: Tools, handoff: Option<nat>)
    requires lines != [] && BodyOf(lines[|lines| - 1]).ToolUse? && WellFormedBody(BodyOf(lines[|lines| - 1]))
    requires EarlyUses(lines[..|lines| - 1], t, handoff)
    ensures EarlyUses(lines, ToolStep(t, |lines|, handoff.Some?, BodyOf(lines[|lines| - 1])), handoff)
  {
    var b := BodyOf(lines[|lines| - 1]);
    var t' := ToolStep(t, |lines|, handoff.Some?, b);
    forall m | m != |lines|
      ensures EarlyUse(lines, handoff, m) <==> EarlyUse(lines[..|lines| - 1], handoff, m)
      ensures ExplorerUse(lines, m) <==> ExplorerUse(lines[..|lines| - 1], m)
    {
      EarlyUsePrefix(lines, handoff, m);
    }
    assert t'.duplicates == 0 ==> t' == RecordUse(t.(firstName := t'.firstName, firstIsExplorer := t'.firstIsExplorer),
                                                  |lines|, handoff.Some?, b.id.value, b.name.value, b.input);
  }

  lemma OtherKeepsEarly(lines: seq<Line>, t: Tools, t': Tools, handoff: Option<nat>, handoff': Option<nat>)
    requires lines != [] && !BodyOf(lines[|lines| - 1]).ToolUse? && EarlyUses(lines[..|lines| - 1], t, handoff)
    requires t'.duplicates == t.duplicates && t'.preHandoff == t.preHandoff && t'.agentCalls == t.agentCalls
    requires handoff' == handoff || (handoff.None? && handoff' == Some(|lines|))
    ensures EarlyUses(lines, t', handoff')
  {
    forall m
      ensures EarlyUse(lines, handoff', m) ==> EarlyUse(lines[..|lines| - 1], handoff, m)
      ensures ExplorerUse(lines[..|lines| - 1], m) ==> ExplorerUse(lines, m)
    {
    }
  }

  lemma FirstFinishedStep(c: Children, index: nat, snapshot: Option<Snapshot>, b: Body)
    ensures var c' := ChildStep(c, index, snapshot, b);
            || c'.firstFinished == c.firstFinished
            || (c.firstFinished.None? && c'.firstFinished == Some(index) && b.ChildFinished?)
  {
  }

  lemma EarlyStep(lines: seq<Line>, t: Tools, c: Children)
    requires lines != [] && EarlyUses(lines[..|lines| - 1], t, c.firstFinished)
    requires WellFormedBody(BodyOf(lines[|lines| - 1]))
    ensures var b := BodyOf(lines[|lines| - 1]);
            EarlyUses(lines, ToolStep(t, |lines|, c.firstFinished.Some?, b),
                      ChildStep(c, |lines|, lines[|lines| - 1].snapshot, b).firstFinished)
  {
    var b, snapshot := BodyOf(lines[|lines| - 1]), lines[|lines| - 1].snapshot;
    FirstFinishedStep(c, |lines|, snapshot, b);
    if b.ToolUse? {
      UseKeepsEarly(lines, t, c.firstFinished);
    } else {
      OtherKeepsEarly(lines, t, ToolStep(t, |lines|, c.firstFinished.Some?, b), c.firstFinished,
                      ChildStep(c, |lines|, snapshot, b).firstFinished);
    }
  }

  lemma {:induction false} RunEarlyUses(lines: seq<Line>)
    requires AllWellFormed(lines)
    ensures EarlyUses(lines, Run(lines).tools, Run(lines).children.firstFinished)
  {
    if lines != [] {
      WellFormedSnoc(lines);
      RunEarlyUses(lines[..|lines| - 1]);
      EarlySnoc(lines, Run(lines[..|lines| - 1]));
    }
  }

  lemma EarlySnoc(lines: seq<Line>, r: Receipt)
    requires lines != [] && WellFormed(lines[|lines| - 1]) && r == Run(lines[..|lines| - 1])
    requires r.eventCount == |lines| - 1 && EarlyUses(lines[..|lines| - 1], r.tools, r.children.firstFinished)
    ensures EarlyUses(lines, Run(lines).tools, Run(lines).children.firstFinished)
  {
    RunTools(lines);
    RunChildren(lines);
    EarlyStep(lines, r.tools, r.children);
  }

  // --- Every use has its lifecycle entry -------------------------------------------------

  ghost predicate IsEntered(ls: seq<Lifecycle>, m: int, name: string) {
    exists k :: 0 <= k < |ls| && ls[k].useOrdinal == m && ls[k].name == name
  }

  ghost predicate UsesEntered(lines: seq<Line>, t: Tools) {
    t.duplicates == 0 ==> forall m, id, name :: UseAt(lines, m, id, name) ==> IsEntered(t.lifecycle, m, name)
  }

  /** Entries are added and finished, never renamed or moved. */
  ghost predicate KeepsEntries(ls: seq<Lifecycle>, ls': seq<Lifecycle>) {
    |ls| <= |ls'| && forall k :: 0 <= k < |ls| ==> ls'[k].useOrdinal == ls[k].useOrdinal && ls'[k].name == ls[k].name
  }

  lemma StepKeepsEntries(t: Tools, index: nat, handedOff: bool, b: Body)
    ensures var t' := ToolStep(t, index, handedOff, b);
            && KeepsEntries(t.lifecycle, t'.lifecycle)
            && t.duplicates <= t'.duplicates
            && (b.ToolUse? && WellFormedBody(b) && t'.duplicates == 0 ==>
                  t'.lifecycle == t.lifecycle + [Lifecycle(index, b.name.value, None, None)])
  {
  }

  lemma EnteredStep(lines: seq<Line>, t: Tools, handedOff: bool)
    requires lines != [] && UsesEntered(lines[..|lines| - 1], t) && WellFormedBody(BodyOf(lines[|lines| - 1]))
    ensures UsesEntered(lines, ToolStep(t, |lines|, handedOff, BodyOf(lines[|lines| - 1])))
  {
    var b := BodyOf(lines[|lines| - 1]);
    var t' := ToolStep(t, |lines|, handedOff, b);
    StepKeepsEntries(t, |lines|, handedOff, b);
    if t'.duplicates == 0 {
      forall m, id, name | UseAt(lines, m, id, name) ensures IsEntered(t'.lifecycle, m, name) {
        if m == |lines| {
          assert t'.lifecycle[|t.lifecycle|].useOrdinal == m;
        } else {
          assert UseAt(lines[..|lines| - 1], m, id, name);
          var k :| 0 <= k < |t.lifecycle| && t.lifecycle[k].useOrdinal == m && t.lifecycle[k].name == name;
          assert t'.lifecycle[k].useOrdinal == m;
        }
      }
    }
  }

  lemma {:induction false} RunEntered(lines: seq<Line>)
    requires AllWellFormed(lines)
    ensures UsesEntered(lines, Run(lines).tools)
  {
    if lines != [] {
      var n := |lines| - 1;
      assert forall i :: 0 <= i < n ==> lines[..n][i] == lines[i];
      RunEntered(lines[..n]);
      WellFormedIsClean(lines[..n]);
      assert WellFormed(lines[n]);
      RunTools(lines);
      EnteredStep(lines, Run(lines[..n]).tools, Run(lines[..n]).children.firstFinished.Some?);
    }
  }

  /** When there is one agent entry, every agent entry is that one. */
  lemma {:induction false} OnlyAgent(ls: seq<Lifecycle>, k: nat)
    requires k < |ls| && ls[k].name == "agent"
    ensures |AgentLifecycles(ls)| >= 1 && (|AgentLifecycles(ls)| == 1 ==> AgentLifecycles(ls)[0] == ls[k])
  {
    var n := |ls| - 1;
    if k < n { OnlyAgent(ls[..n], k); }
  }

  // --- Depths, statuses and the first finish ---------------------------------------------

  predicate DepthAt(lines: seq<Line>, m: int, depth: int) {
    1 <= m <= |lines| && BodyOf(lines[m - 1]).ChildStarted? && BodyOf(lines[m - 1]).depth == Some(depth)
  }

  predicate StatusAt(lines: seq<Line>, m: int, status: string) {
    1 <= m <= |lines| && BodyOf(lines[m - 1]).ChildFinished? && BodyOf(lines[m - 1]).status == Some(status)
  }

  ghost predicate ChildFacts(lines: seq<Line>, c: Children) {
    && |c.depths| == |c.startedAt| && (forall k :: 0 <= k < |c.depths| ==> DepthAt(lines, c.startedAt[k], c.depths[k]))
    && |c.statuses| == |c.finishedAt|
    && (forall k :: 0 <= k < |c.statuses| ==> StatusAt(lines, c.finishedAt[k], c.statuses[k]))
    && c.firstFinished == (if c.finishedAt == [] then None else Some(c.finishedAt[0]))
  }

  lemma ChildFactsStep(lines: seq<Line>, c: Children)
    requires lines != [] && ChildFacts(lines[..|lines| - 1], c)
    ensures ChildFacts(lines, ChildStep(c, |lines|, lines[|lines| - 1].snapshot, BodyOf(lines[|lines| - 1])))
  {
    forall k | 0 <= k < |c.depths| ensures DepthAt(lines, c.startedAt[k], c.depths[k]) {
      assert DepthAt(lines[..|lines| - 1], c.startedAt[k], c.depths[k]);
    }
    forall k | 0 <= k < |c.statuses| ensures StatusAt(lines, c.finishedAt[k], c.statuses[k]) {
      assert StatusAt(lines[..|lines| - 1], c.finishedAt[k], c.statuses[k]);
    }
  }

  lemma {:induction false} RunChildFacts(lines: seq<Line>)
    requires AllWellFormed(lines)
    ensures ChildFacts(lines, Run(lines).children)
  {
    if lines != [] {
      WellFormedSnoc(lines);
      RunChildFacts(lines[..|lines| - 1]);
      RunChildren(lines);
      ChildFactsStep(lines, Run(lines[..|lines| - 1]).children);
    }
  }

  // --- The handoff -------------------------------------------------------------------------

  /** Spawn, child start, spawn result and child finish, linked by call id and agent id. */
  datatype Handoff = Handoff(use: int, start: int, answer: int, finish: int, callId: string, agentId: string)

  ghost predicate Linked(lines: seq<Line>, h: Handoff) {
    && h.use < h.start < h.answer < h.finish
    && UseAt(lines, h.use, h.callId, "agent") && ExplorerUse(lines, h.use)
    && Names(lines, StartPhase, h.start, (h.callId, h.agentId)) && DepthAt(lines, h.start, 1)
    && FirstAnswer(lines, h.use, h.answer, h.callId) && SpawnAnswerAt(lines, h.answer, h.agentId)
    && Names(lines, FinishPhase, h.finish, (h.callId, h.agentId)) && StatusAt(lines, h.finish, "completed")
  }

  /** No other child event anywhere, no other agent call anywhere, no other tool use before the finish. */
  ghost predicate Alone(lines: seq<Line>, h: Handoff) {
    && (forall m, child :: Names(lines, StartPhase, m, child) ==> m == h.start)
    && (forall m, child :: Names(lines, FinishPhase, m, child) ==> m == h.finish)
    && (forall m, id :: UseAt(lines, m, id, "agent") ==> m == h.use)
    && (forall m :: IsUse(lines, m) && m < h.finish ==> m == h.use)
  }

  lemma {:induction false} SomeAbove(s: seq<nat>, bound: nat) returns (x: nat)
    requires CountAbove(s, bound) >= 1
    ensures x in s && x > bound
  {
    var n := |s| - 1;
    if s[n] > bound { x := s[n]; } else { x := SomeAbove(s[..n], bound); }
  }

  /** A lane that passes satisfies every condition it lists. */
  lemma MultiPassed(r: Receipt, initial: Option<Snapshot>)
    requires LanePassed(Multi, r, initial)
    ensures r.tools.agentCalls == 1 && r.tools.preHandoff == 0
    ensures ReceiptsMatch(r.tools, r.children) && ReceiptsInOrder(r.tools, r.children)
    ensures r.children.depths == [1] && r.children.statuses == ["completed"]
    ensures UnchangedAtHandoff(r.children, initial) && MutationsAfterHandoff(r) >= 1
  {
  }

  lemma LinkHandoff(lines: seq<Line>, r: Receipt) returns (h: Handoff)
    requires Traced(lines, r.tools) && ChildrenRecorded(lines, r.children) && ChildFacts(lines, r.children)
    requires ReceiptsMatch(r.tools, r.children) && ReceiptsInOrder(r.tools, r.children)
    requires r.children.depths == [1] && r.children.statuses == ["completed"]
    requires OneEarlyUse(lines, r.children.firstFinished)
    ensures Linked(lines, h)
    ensures r.children.firstFinished == Some(h.finish)
    ensures r.children.startedAt == [h.start] && r.children.finishedAt == [h.finish]
    ensures |AgentLifecycles(r.tools.lifecycle)| == 1 && AgentLifecycles(r.tools.lifecycle)[0].useOrdinal == h.use
  {
    var t, c, ls := r.tools, r.children, r.tools.lifecycle;
    var l, id, agent := AgentLifecycles(ls)[0], t.spawnIds[0], t.agentIds[0];
    assert id in t.spawnIds && agent in t.agentIds;
    var k :| SpawnEntry(lines, ls, id, k);
    OnlyAgent(ls, k);
    var j :| AgentEntry(lines, ls, agent, j);
    OnlyAgent(ls, j);
    assert IsJoined(lines, ls[k]);
    var x :| Joined(lines, l, x);
    h := Handoff(l.useOrdinal, c.startedAt[0], l.resultOrdinal.value, c.finishedAt[0], id, agent);
    assert EarlyUse(lines, c.firstFinished, h.use);
    assert Names(lines, StartPhase, c.startedAt[0], c.started[0]);
    assert Names(lines, FinishPhase, c.finishedAt[0], c.finished[0]);
  }

  lemma AloneHandoff(lines: seq<Line>, r: Receipt, h: Handoff)
    requires ChildrenRecorded(lines, r.children) && UsesEntered(lines, r.tools) && r.tools.duplicates == 0
    requires OneEarlyUse(lines, r.children.firstFinished) && Linked(lines, h)
    requires r.children.firstFinished == Some(h.finish)
    requires r.children.startedAt == [h.start] && r.children.finishedAt == [h.finish]
    requires |AgentLifecycles(r.tools.lifecycle)| == 1 && AgentLifecycles(r.tools.lifecycle)[0].useOrdinal == h.use
    ensures Alone(lines, h)
  {
    forall m, child | Names(lines, StartPhase, m, child) ensures m == h.start {
      assert m in r.children.startedAt;
    }
    forall m, child | Names(lines, FinishPhase, m, child) ensures m == h.finish {
      assert m in r.children.finishedAt;
    }
    forall m, id | UseAt(lines, m, id, "agent") ensures m == h.use {
      assert IsEntered(r.tools.lifecycle, m, "agent");
      var k :| 0 <= k < |r.tools.lifecycle| && r.tools.lifecycle[k].useOrdinal == m
            && r.tools.lifecycle[k].name == "agent";
      OnlyAgent(r.tools.lifecycle, k);
    }
    assert EarlyUse(lines, r.children.firstFinished, h.use);
    forall m | IsUse(lines, m) && m < h.finish ensures m == h.use {
      assert EarlyUse(lines, r.children.firstFinished, m);
    }
  }

  /**
    With no protocol errors and a passed multi lane, the stream holds one canonical explorer spawn
    whose use, child start, result and child finish come in that order and name each other; it is
    the only tool use before the finish; and an applied mutation starts after the finish.
   */
  lemma HandoffOrder(lines: seq<Line>, transport: Transport, initial: Option<Snapshot>)
    returns (h: Handoff, mutation: nat)
    requires ProtocolErrors(Run(lines), transport) == [] && LanePassed(Multi, Run(lines), initial)
    ensures Linked(lines, h) && Alone(lines, h)
    ensures h.finish < mutation && MutationAt(lines, mutation)
  {
    var r := Run(lines);
    StreamLanguage(lines, transport);
    NoErrors(r, transport);
    MultiPassed(r, initial);
    RunTraced(lines);
    RunRecordsChildren(lines);
    RunChildFacts(lines);
    RunEarlyUses(lines);
    RunEntered(lines);
    h := LinkHandoff(lines, r);
    AloneHandoff(lines, r, h);
    mutation := SomeAbove(r.tools.mutations, h.finish);
  }

  // --- The single lane -----------------------------------------------------------------------

  ghost predicate CallsCounted(t: Tools) {
    t.spawns <= t.agentCalls == |AgentLifecycles(t.lifecycle)|
  }

  ghost predicate ChildrenCounted(c: Children) {
    c.startedCount == |c.started| && c.finishedCount == |c.finished|
  }

  lemma {:induction false} AgentsRenamed(ls: seq<Lifecycle>, ls': seq<Lifecycle>)
    requires |ls| == |ls'| && KeepsEntries(ls, ls')
    ensures |AgentLifecycles(ls)| == |AgentLifecycles(ls')|
  {
    if ls != [] { AgentsRenamed(ls[..|ls| - 1], ls'[..|ls| - 1]); }
  }

  lemma CountedStep(t: Tools, index: nat, handedOff: bool, b: Body)
    requires CallsCounted(t)
    ensures CallsCounted(ToolStep(t, index, handedOff, b))
  {
    var t' := ToolStep(t, index, handedOff, b);
    StepKeepsEntries(t, index, handedOff, b);
    if |t'.lifecycle| == |t.lifecycle| {
      AgentsRenamed(t.lifecycle, t'.lifecycle);
    } else {
      assert t'.lifecycle[..|t.lifecycle|] == t.lifecycle;
    }
  }

  lemma ChildCountedStep(c: Children, index: nat, snapshot: Option<Snapshot>, b: Body)
    requires ChildrenCounted(c)
    ensures ChildrenCounted(ChildStep(c, index, snapshot, b))
  {
  }

  lemma {:induction false} RunCallsCounted(lines: seq<Line>)
    ensures CallsCounted(Run(lines).tools)
  {
    if lines != [] {
      var n := |lines| - 1;
      RunCallsCounted(lines[..n]);
      CountedEvent(Run(lines[..n]), lines[n]);
    }
  }

  lemma CountedEvent(r: Receipt, line: Line)
    requires CallsCounted(r.tools)
    ensures CallsCounted(StreamModel.Step(r, line.event, line.snapshot).tools)
  {
    if line.event.Typed? {
      var index, handedOff := r.eventCount + 1, r.children.firstFinished.Some?;
      StepTools(r, line);
      CountedStep(r.tools, index, handedOff, line.event.body);
    }
  }

  lemma StepTools(r: Receipt, line: Line)
    ensures StreamModel.Step(r, line.event, line.snapshot).tools
         == if line.event.Typed? then
              ToolStep(r.tools, r.eventCount + 1, r.children.firstFinished.Some?, line.event.body)
            else r.tools
  {
  }

  lemma {:induction false} RunChildrenCounted(lines: seq<Line>)
    ensures ChildrenCounted(Run(lines).children)
  {
    if lines != [] {
      var n := |lines| - 1;
      var r := Run(lines[..n]);
      RunChildrenCounted(lines[..n]);
      if lines[n].event.Typed? {
        RunChildren(lines);
        ChildCountedStep(r.children, r.eventCount + 1, lines[n].snapshot, BodyOf(lines[n]));
      } else {
        assert Run(lines).children == r.children;
      }
    }
  }

  lemma {:induction false} SomeAgent(ls: seq<Lifecycle>) returns (k: nat)
    requires |AgentLifecycles(ls)| >= 1
    ensures k < |ls| && ls[k].name == "agent"
  {
    var n := |ls| - 1;
    if ls[n].name == "agent" { k := n; } else { k := SomeAgent(ls[..n]); }
  }

  ghost predicate NoChildEvents(lines: seq<Line>, phase: Phase) {
    forall m, child :: !Names(lines, phase, m, child)
  }

  ghost predicate NoAgentUses(lines: seq<Line>) {
    forall m, id :: !UseAt(lines, m, id, "agent")
  }

  lemma NoAgentCalls(lines: seq<Line>, t: Tools)
    requires CallsCounted(t) && t.duplicates == 0 && UsesEntered(lines, t) && LifecyclesTraced(lines, t)
    ensures t.agentCalls == 0 <==> NoAgentUses(lines)
  {
    if t.agentCalls == 0 {
      forall m, id ensures !UseAt(lines, m, id, "agent") {
        if UseAt(lines, m, id, "agent") {
          assert IsEntered(t.lifecycle, m, "agent");
          var k :| 0 <= k < |t.lifecycle| && t.lifecycle[k].useOrdinal == m && t.lifecycle[k].name == "agent";
          OnlyAgent(t.lifecycle, k);
          assert false;
        }
      }
    } else {
      var k := SomeAgent(t.lifecycle);
      assert IsJoined(lines, t.lifecycle[k]);
    }
  }

  lemma NoneRecorded(lines: seq<Line>, phase: Phase, items: seq<Child>, at: seq<nat>)
    requires Records(lines, phase, items, at)
    ensures items == [] <==> NoChildEvents(lines, phase)
  {
    if items != [] { assert Names(lines, phase, at[0], items[0]); }
  }

  /** With no protocol errors, the single lane passes exactly when no agent was called and no child ran. */
  lemma SingleLane(lines: seq<Line>, transport: Transport, initial: Option<Snapshot>)
    requires ProtocolErrors(Run(lines), transport) == []
    ensures LanePassed(Single, Run(lines), initial) <==>
      NoAgentUses(lines) && NoChildEvents(lines, StartPhase) && NoChildEvents(lines, FinishPhase)
  {
    var r := Run(lines);
    StreamLanguage(lines, transport);
    NoErrors(r, transport);
    RunTraced(lines);
    RunRecordsChildren(lines);
    RunEntered(lines);
    RunCallsCounted(lines);
    RunChildrenCounted(lines);
    NoAgentCalls(lines, r.tools);
    NoneRecorded(lines, StartPhase, r.children.started, r.children.startedAt);
    NoneRecorded(lines, FinishPhase, r.children.finished, r.children.finishedAt);
  }
}
