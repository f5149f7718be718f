/** The multi lane, both ways: which error-free streams pass it. */
module StreamLane {
  import opened Basics
  import opened StreamModel
  import opened StreamEnvelope
  import opened StreamTools
  import opened StreamChildren
  import opened StreamTrace
  import opened StreamHandoff

  // --- Every unanswered use is open ----------------------------------------------------

  ghost predicate IsOpen(t: Tools, m: int, id: string, name: string) {
    id in t.started && t.started[id].index == m && t.started[id].name == name
  }

  ghost predicate OpenComplete(lines: seq<Line>, t: Tools) {
    t.duplicates == 0 ==>
      forall m, id, name :: UseAt(lines, m, id, name) && Unanswered(lines, m, id) ==> IsOpen(t, m, id, name)
  }

  lemma UnansweredBefore(lines: seq<Line>, m: int, id: string)
    requires lines != [] && Unanswered(lines, m, id)
    ensures Unanswered(lines[..|lines| - 1], m, id)
  {
    var before := lines[..|lines| - 1];
    forall x | m < x ensures !AnswerAt(before, x, id) {
      assert !AnswerAt(lines, x, id);
    }
  }

  /** A tool event changes only its own entry of the open calls. */
  lemma OpenStep(t: Tools, index: nat, handedOff: bool, b: Body, m: int, id: string, name: string)
    requires WellFormedBody(b) && IsOpen(t, m, id, name) && !(b.ToolResult? && b.id == Some(id))
    ensures IsOpen(ToolStep(t, index, handedOff, b), m, id, name) || ToolStep(t, index, handedOff, b).duplicates > 0
  {
  }

  lemma UseOpens(t: Tools, index: nat, handedOff: bool, b: Body)
    requires b.ToolUse? && WellFormedBody(b)
    ensures IsOpen(ToolStep(t, index, handedOff, b), index, b.id.value, b.name.value)
         || ToolStep(t, index, handedOff, b).duplicates > 0
  {
  }

  lemma OpenCompleteStep(lines: seq<Line>, t: Tools, handedOff: bool)
    requires lines != [] && OpenComplete(lines[..|lines| - 1], t) && WellFormedBody(BodyOf(lines[|lines| - 1]))
    ensures OpenComplete(lines, ToolStep(t, |lines|, handedOff, BodyOf(lines[|lines| - 1])))
  {
    var before, b := lines[..|lines| - 1], BodyOf(lines[|lines| - 1]);
    var t' := ToolStep(t, |lines|, handedOff, b);
    StepKeepsEntries(t, |lines|, handedOff, b);
    if t'.duplicates == 0 {
      forall m, id, name | UseAt(lines, m, id, name) && Unanswered(lines, m, id) ensures IsOpen(t', m, id, name) {
        if m == |lines| {
          UseOpens(t, |lines|, handedOff, b);
        } else {
          UnansweredBefore(lines, m, id);
          assert UseAt(before, m, id, name) && !AnswerAt(lines, |lines|, id);
          OpenStep(t, |lines|, handedOff, b, m, id, name);
        }
      }
    }
  }

  /** The use that a first answer answers is open when it arrives. */
  lemma AnswerFindsUse(lines: seq<Line>, t: Tools, m: int, id: string, name: string)
    requires lines != [] && OpenComplete(lines[..|lines| - 1], t) && t.duplicates == 0
    requires UseAt(lines, m, id, name) && FirstAnswer(lines, m, |lines|, id)
    ensures IsOpen(t, m, id, name)
  {
    var before := lines[..|lines| - 1];
    forall x | m < x ensures !AnswerAt(before, x, id) {
      assert x < |lines| ==> !AnswerAt(lines, x, id);
    }
    assert UseAt(before, m, id, name);
  }

  // --- Every applied mutation is recorded ---------------------------------------------------

  ghost predicate MutationsComplete(lines: seq<Line>, t: Tools) {
    t.duplicates == 0 ==> forall m, id, name, q :: AppliedUse(lines, m, id, name, q) ==> m in t.mutations
  }

  lemma AnswerBefore(lines: seq<Line>, m: int, q: int, id: string)
    requires lines != [] && FirstAnswer(lines, m, q, id) && q < |lines|
    ensures FirstAnswer(lines[..|lines| - 1], m, q, id)
  {
    var before := lines[..|lines| - 1];
    forall x | m < x < q ensures !AnswerAt(before, x, id) {
      assert !AnswerAt(lines, x, id);
    }
  }

  lemma MutationsGrow(t: Tools, index: nat, handedOff: bool, b: Body)
    ensures forall m :: m in t.mutations ==> m in ToolStep(t, index, handedOff, b).mutations
    ensures forall a :: a in t.agentIds ==> a in ToolStep(t, index, handedOff, b).agentIds
    ensures forall id :: id in t.spawnIds ==> id in ToolStep(t, index, handedOff, b).spawnIds
  {
  }

  lemma MutationsCompleteStep(lines: seq<Line>, t: Tools, handedOff: bool)
    requires lines != [] && OpenComplete(lines[..|lines| - 1], t) && MutationsComplete(lines[..|lines| - 1], t)
    ensures MutationsComplete(lines, ToolStep(t, |lines|, handedOff, BodyOf(lines[|lines| - 1])))
  {
    var before, b := lines[..|lines| - 1], BodyOf(lines[|lines| - 1]);
    var t' := ToolStep(t, |lines|, handedOff, b);
    StepKeepsEntries(t, |lines|, handedOff, b);
    MutationsGrow(t, |lines|, handedOff, b);
    if t'.duplicates == 0 {
      forall m, id, name, q | AppliedUse(lines, m, id, name, q) ensures m in t'.mutations {
        if q == |lines| {
          AnswerFindsUse(lines, t, m, id, name);
        } else {
          AnswerBefore(lines, m, q, id);
          assert AppliedUse(before, m, id, name, q);
        }
      }
    }
  }

  // --- Every spawn and its answer are recorded -------------------------------------------------

  predicate SpawnAt(lines: seq<Line>, m: int, id: string) {
    UseAt(lines, m, id, "agent") && CanonicalSpawn(BodyOf(lines[m - 1]).input)
  }

  ghost predicate SpawnsComplete(lines: seq<Line>, t: Tools) {
    t.duplicates == 0 ==> forall m, id :: SpawnAt(lines, m, id) ==> id in t.spawnIds
  }

  ghost predicate AnsweredSpawn(lines: seq<Line>, m: int, id: string, q: int, agent: string) {
    SpawnAt(lines, m, id) && FirstAnswer(lines, m, q, id) && SpawnAnswerAt(lines, q, agent) && agent != ""
  }

  ghost predicate AgentsComplete(lines: seq<Line>, t: Tools) {
    t.duplicates == 0 ==> forall m, id, q, agent :: AnsweredSpawn(lines, m, id, q, agent) ==> agent in t.agentIds
  }

  lemma SpawnsCompleteStep(lines: seq<Line>, t: Tools, handedOff: bool)
    requires lines != [] && SpawnsComplete(lines[..|lines| - 1], t)
    ensures SpawnsComplete(lines, ToolStep(t, |lines|, handedOff, BodyOf(lines[|lines| - 1])))
  {
    var before, b := lines[..|lines| - 1], BodyOf(lines[|lines| - 1]);
    var t' := ToolStep(t, |lines|, handedOff, b);
    StepKeepsEntries(t, |lines|, handedOff, b);
    MutationsGrow(t, |lines|, handedOff, b);
    if t'.duplicates == 0 {
      forall m, id | SpawnAt(lines, m, id) ensures id in t'.spawnIds {
        assert m < |lines| ==> SpawnAt(before, m, id);
      }
    }
  }

  lemma AgentsCompleteStep(lines: seq<Line>, t: Tools, handedOff: bool)
    requires lines != [] && OpenComplete(lines[..|lines| - 1], t)
    requires SpawnsComplete(lines[..|lines| - 1], t) && AgentsComplete(lines[..|lines| - 1], t)
    ensures AgentsComplete(lines, ToolStep(t, |lines|, handedOff, BodyOf(lines[|lines| - 1])))
  {
    var before, b := lines[..|lines| - 1], BodyOf(lines[|lines| - 1]);
    var t' := ToolStep(t, |lines|, handedOff, b);
    StepKeepsEntries(t, |lines|, handedOff, b);
    MutationsGrow(t, |lines|, handedOff, b);
    if t'.duplicates == 0 {
      forall m, id, q, agent | AnsweredSpawn(lines, m, id, q, agent) ensures agent in t'.agentIds {
        assert SpawnAt(before, m, id);
        if q == |lines| {
          AnswerFindsUse(lines, t, m, id, "agent");
        } else {
          AnswerBefore(lines, m, q, id);
          assert AnsweredSpawn(before, m, id, q, agent);
        }
      }
    }
  }

  // --- Counters -----------------------------------------------------------------------------------

  function OpenAgents(started: map<string, Started>): set<string> {
    set id | id in started && started[id].name == "agent"
  }

  ghost predicate SpawnsCounted(t: Tools) {
    && t.spawns == |t.spawnIds| && t.spawnSuccesses == |t.agentIds|
    && |t.agentIds| + |OpenAgents(t.started)| <= t.agentCalls
  }

  lemma UseCounted(t: Tools, index: nat, handedOff: bool, id: string, name: string, input: Input)
    requires SpawnsCounted(t)
    ensures SpawnsCounted(OnUse(t, index, handedOff, id, name, input))
  {
    var t' := OnUse(t, index, handedOff, id, name, input);
    if id !in t.started {
      if name == "agent" {
        assert OpenAgents(t'.started) == OpenAgents(t.started) + {id};
      } else {
        assert OpenAgents(t'.started) == OpenAgents(t.started);
      }
    }
  }

  lemma ResultCounted(t: Tools, index: nat, id: string, b: Body)
    requires SpawnsCounted(t) && b.ToolResult?
    ensures SpawnsCounted(OnResult(t, index, id, b.name, b.status, b.applied, b.agentId))
  {
    var t' := OnResult(t, index, id, b.name, b.status, b.applied, b.agentId);
    if id in t.started {
      if t.started[id].name == "agent" {
        assert OpenAgents(t.started) == OpenAgents(t'.started) + {id};
      } else {
        assert OpenAgents(t'.started) == OpenAgents(t.started);
      }
    }
  }

  lemma SpawnsCountedStep(t: Tools, index: nat, handedOff: bool, b: Body)
    requires SpawnsCounted(t)
    ensures SpawnsCounted(ToolStep(t, index, handedOff, b))
  {
    match b
    case ToolUse(Some(id), Some(name), input) => UseCounted(t, index, handedOff, id, name, input);
    case ToolResult(Some(id), _, _, _, _) => ResultCounted(t, index, id, b);
    case _ =>
  }

  /** When every agent use spawns the explorer, the three counters of agent calls agree. */
  ghost predicate AllExplorers(lines: seq<Line>) {
    forall m, id :: UseAt(lines, m, id, "agent") ==> ExplorerUse(lines, m)
  }

  ghost predicate ExplorersCounted(lines: seq<Line>, t: Tools) {
    AllExplorers(lines) ==> t.explorerSpawns == t.spawns == t.agentCalls
  }

  lemma ExplorersCountedStep(lines: seq<Line>, t: Tools, handedOff: bool)
    requires lines != [] && ExplorersCounted(lines[..|lines| - 1], t) && WellFormedBody(BodyOf(lines[|lines| - 1]))
    ensures ExplorersCounted(lines, ToolStep(t, |lines|, handedOff, BodyOf(lines[|lines| - 1])))
  {
    var before, b := lines[..|lines| - 1], BodyOf(lines[|lines| - 1]);
    if AllExplorers(lines) {
      forall m, id | UseAt(before, m, id, "agent") ensures ExplorerUse(before, m) {
        assert UseAt(lines, m, id, "agent");
        assert ExplorerUse(lines, m);
      }
      if b.ToolUse? && b.name == Some("agent") {
        assert UseAt(lines, |lines|, b.id.value, "agent");
        assert ExplorerUse(lines, |lines|);
      }
    }
  }

  // --- Order of the entries ----------------------------------------------------------------------------

  ghost predicate Ordinals(lines: seq<Line>, ls: seq<Lifecycle>) {
    && (forall k :: 0 <= k < |ls| ==> ls[k].useOrdinal <= |lines|)
    && (forall k, l :: 0 <= k < l < |ls| ==> ls[k].useOrdinal < ls[l].useOrdinal)
  }

  lemma LastEntry(t: Tools, index: nat, handedOff: bool, b: Body)
    ensures var ls, ls' := t.lifecycle, ToolStep(t, index, handedOff, b).lifecycle;
            KeepsEntries(ls, ls') && (|ls'| == |ls| || (|ls'| == |ls| + 1 && ls'[|ls|].useOrdinal == index))
  {
  }

  lemma OrdinalsStep(lines: seq<Line>, t: Tools, handedOff: bool)
    requires lines != [] && Ordinals(lines[..|lines| - 1], t.lifecycle)
    ensures Ordinals(lines, ToolStep(t, |lines|, handedOff, BodyOf(lines[|lines| - 1])).lifecycle)
  {
    LastEntry(t, |lines|, handedOff, BodyOf(lines[|lines| - 1]));
  }

  lemma {:induction false} NoAgent(ls: seq<Lifecycle>)
    requires forall k :: 0 <= k < |ls| ==> ls[k].name != "agent"
    ensures AgentLifecycles(ls) == []
  {
    if ls != [] { NoAgent(ls[..|ls| - 1]); }
  }

  /** At most one agent entry, when only event `m` uses the agent. */
  lemma {:induction false} OneAgent(ls: seq<Lifecycle>, m: int)
    requires forall k, l :: 0 <= k < l < |ls| ==> ls[k].useOrdinal < ls[l].useOrdinal
    requires forall k :: 0 <= k < |ls| && ls[k].name == "agent" ==> ls[k].useOrdinal == m
    ensures |AgentLifecycles(ls)| <= 1
  {
    if ls != [] {
      var n := |ls| - 1;
      if ls[n].name == "agent" {
        forall k | 0 <= k < n ensures ls[k].name != "agent" {
          assert ls[k].useOrdinal < ls[n].useOrdinal;
        }
        NoAgent(ls[..n]);
      } else {
        OneAgent(ls[..n], m);
      }
    }
  }

  // --- The first tool use -----------------------------------------------------------------------------------

  ghost predicate FirstUseAt(lines: seq<Line>, m: int) {
    IsUse(lines, m) && forall x :: x < m ==> !IsUse(lines, x)
  }

  ghost predicate NoUse(lines: seq<Line>) {
    forall m :: !IsUse(lines, m)
  }

  ghost predicate FirstUseKnown(lines: seq<Line>, t: Tools) {
    && (t.firstName.None? ==> NoUse(lines))
    && (t.firstName.Some? ==> exists m :: FirstUseAt(lines, m) && (t.firstIsExplorer <==> ExplorerUse(lines, m)))
  }

  lemma FirstNameStep(t: Tools, index: nat, handedOff: bool, b: Body)
    requires WellFormedBody(b)
    ensures var t' := ToolStep(t, index, handedOff, b);
            if t.firstName.None? && b.ToolUse? then
              t'.firstName.Some? && (t'.firstIsExplorer <==> b.name == Some("agent") && ExplorerSpawn(b.input))
            else t'.firstName == t.firstName && t'.firstIsExplorer == t.firstIsExplorer
  {
  }

  lemma UsePrefix(lines: seq<Line>, m: int)
    requires lines != []
    ensures m != |lines| ==> (IsUse(lines, m) <==> IsUse(lines[..|lines| - 1], m))
    ensures m != |lines| ==> (ExplorerUse(lines, m) <==> ExplorerUse(lines[..|lines| - 1], m))
    ensures IsUse(lines[..|lines| - 1], m) ==> m < |lines|
  {
  }

  lemma FirstUseStep(lines: seq<Line>, t: Tools, handedOff: bool)
    requires lines != [] && FirstUseKnown(lines[..|lines| - 1], t) && WellFormedBody(BodyOf(lines[|lines| - 1]))
    ensures FirstUseKnown(lines, ToolStep(t, |lines|, handedOff, BodyOf(lines[|lines| - 1])))
  {
    var before, b := lines[..|lines| - 1], BodyOf(lines[|lines| - 1]);
    FirstNameStep(t, |lines|, handedOff, b);
    forall m ensures m != |lines| ==> (IsUse(lines, m) <==> IsUse(before, m)) { UsePrefix(lines, m); }
    if t.firstName.Some? {
      var m :| FirstUseAt(before, m) && (t.firstIsExplorer <==> ExplorerUse(before, m));
      UsePrefix(lines, m);
      assert FirstUseAt(lines, m);
    } else if b.ToolUse? {
      assert FirstUseAt(lines, |lines|);
    }
  }

  // --- Early uses are counted when they should be ------------------------------------------------------------

  ghost predicate EarlyQuiet(lines: seq<Line>, t: Tools, handoff: Option<nat>) {
    && (OneEarlyUse(lines, handoff) ==> t.preHandoff == 0)
    && (NoUse(lines) ==> t.agentCalls == 0)
    && (handoff.Some? ==> handoff.value <= |lines|)
  }

  lemma OneEarlyPrefix(lines: seq<Line>, handoff: Option<nat>, handoff': Option<nat>)
    requires lines != [] && OneEarlyUse(lines, handoff')
    requires handoff' == handoff || (handoff.None? && handoff' == Some(|lines|))
    ensures OneEarlyUse(lines[..|lines| - 1], handoff)
  {
    var before := lines[..|lines| - 1];
    forall m
      ensures EarlyUse(before, handoff, m) ==> EarlyUse(lines, handoff', m)
      ensures EarlyUse(before, handoff, m) && ExplorerUse(lines, m) ==> ExplorerUse(before, m)
    {
      UsePrefix(lines, m);
    }
  }

  lemma UseCounters(t: Tools, index: nat, handedOff: bool, b: Body)
    requires b.ToolUse? && WellFormedBody(b)
    ensures var t' := ToolStep(t, index, handedOff, b);
            && (handedOff ==> t'.preHandoff == t.preHandoff)
            && (t.agentCalls == 0 && b.name == Some("agent") && ExplorerSpawn(b.input) ==>
                  t'.preHandoff == t.preHandoff)
  {
  }

  lemma EarlyQuietUse(lines: seq<Line>, t: Tools, handoff: Option<nat>)
    requires lines != [] && BodyOf(lines[|lines| - 1]).ToolUse? && WellFormedBody(BodyOf(lines[|lines| - 1]))
    requires EarlyQuiet(lines[..|lines| - 1], t, handoff)
    ensures EarlyQuiet(lines, ToolStep(t, |lines|, handoff.Some?, BodyOf(lines[|lines| - 1])), handoff)
  {
    var before, b := lines[..|lines| - 1], BodyOf(lines[|lines| - 1]);
    UseCounters(t, |lines|, handoff.Some?, b);
    assert IsUse(lines, |lines|);
    if OneEarlyUse(lines, handoff) {
      OneEarlyPrefix(lines, handoff, handoff);
      if handoff.None? {
        assert EarlyUse(lines, handoff, |lines|);
        forall m ensures !IsUse(before, m) {
          UsePrefix(lines, m);
          assert IsUse(before, m) ==> EarlyUse(lines, handoff, m);
        }
      }
    }
  }

  lemma EarlyQuietOther(lines: seq<Line>, t: Tools, t': Tools, handoff: Option<nat>, handoff': Option<nat>)
    requires lines != [] && !BodyOf(lines[|lines| - 1]).ToolUse? && EarlyQuiet(lines[..|lines| - 1], t, handoff)
    requires t'.preHandoff == t.preHandoff && t'.agentCalls == t.agentCalls
    requires handoff' == handoff || (handoff.None? && handoff' == Some(|lines|))
    ensures EarlyQuiet(lines, t', handoff')
  {
    if OneEarlyUse(lines, handoff') { OneEarlyPrefix(lines, handoff, handoff'); }
    if NoUse(lines) {
      var before := lines[..|lines| - 1];
      forall m ensures !IsUse(before, m) { UsePrefix(lines, m); }
    }
  }

  lemma EarlyQuietStep(lines: seq<Line>, t: Tools, c: Children)
    requires lines != [] && EarlyQuiet(lines[..|lines| - 1], t, c.firstFinished)
    requires WellFormedBody(BodyOf(lines[|lines| - 1]))
    ensures var b := BodyOf(lines[|lines| - 1]);
            EarlyQuiet(lines, ToolStep(t, |lines|, c.firstFinished.Some?, b),
                       ChildStep(c, |lines|, lines[|lines| - 1].snapshot, b).firstFinished)
  {
    var b, snapshot := BodyOf(lines[|lines| - 1]), lines[|lines| - 1].snapshot;
    FirstFinishedStep(c, |lines|, snapshot, b);
    if b.ToolUse? {
      EarlyQuietUse(lines, t, c.firstFinished);
    } else {
      EarlyQuietOther(lines, t, ToolStep(t, |lines|, c.firstFinished.Some?, b), c.firstFinished,
                      ChildStep(c, |lines|, snapshot, b).firstFinished);
    }
  }

  // --- The child's result and the workspace ---------------------------------------------------------------------

  predicate ProvenAt(lines: seq<Line>, m: int) {
    && 1 <= m <= |lines| && BodyOf(lines[m - 1]).ChildFinished? && ChildFinishedOk(BodyOf(lines[m - 1]))
    && BodyOf(lines[m - 1]).status == Some("completed") && BodyOf(lines[m - 1]).resultPresent == Some(true)
  }

  ghost predicate HandoffKnown(lines: seq<Line>, c: Children) {
    && (c.resultProven <==> exists m :: ProvenAt(lines, m))
    && match c.firstFinished
       case None => c.snapshot == None && !c.snapshotError
       case Some(h) =>
         1 <= h <= |lines| && c.snapshot == lines[h - 1].snapshot && c.snapshotError == lines[h - 1].snapshot.None?
  }

  lemma HandoffKnownStep(lines: seq<Line>, c: Children)
    requires lines != [] && HandoffKnown(lines[..|lines| - 1], c)
    ensures HandoffKnown(lines, ChildStep(c, |lines|, lines[|lines| - 1].snapshot, BodyOf(lines[|lines| - 1])))
  {
    var before := lines[..|lines| - 1];
    if exists m :: ProvenAt(before, m) {
      var m :| ProvenAt(before, m);
      assert ProvenAt(lines, m);
    }
    if exists m :: ProvenAt(lines, m) {
      var m :| ProvenAt(lines, m);
      assert m < |lines| ==> ProvenAt(before, m);
    }
    var c' := ChildStep(c, |lines|, lines[|lines| - 1].snapshot, BodyOf(lines[|lines| - 1]));
    assert c'.resultProven <==> c.resultProven || ProvenAt(lines, |lines|);
  }

  // --- Every receipt ------------------------------------------------------------------------------------------------

  ghost predicate Exact(lines: seq<Line>, t: Tools, c: Children) {
    && OpenComplete(lines, t) && MutationsComplete(lines, t) && SpawnsComplete(lines, t) && AgentsComplete(lines, t)
    && SpawnsCounted(t) && ExplorersCounted(lines, t) && Ordinals(lines, t.lifecycle) && FirstUseKnown(lines, t)
    && EarlyQuiet(lines, t, c.firstFinished) && HandoffKnown(lines, c)
  }

  lemma ExactStep(lines: seq<Line>, t: Tools, c: Children)
    requires lines != [] && Exact(lines[..|lines| - 1], t, c) && WellFormedBody(BodyOf(lines[|lines| - 1]))
    ensures var b := BodyOf(lines[|lines| - 1]);
            Exact(lines, ToolStep(t, |lines|, c.firstFinished.Some?, b),
                  ChildStep(c, |lines|, lines[|lines| - 1].snapshot, b))
  {
    var handedOff := c.firstFinished.Some?;
    OpenCompleteStep(lines, t, handedOff);
    MutationsCompleteStep(lines, t, handedOff);
    SpawnsCompleteStep(lines, t, handedOff);
    AgentsCompleteStep(lines, t, handedOff);
    SpawnsCountedStep(t, |lines|, handedOff, BodyOf(lines[|lines| - 1]));
    ExplorersCountedStep(lines, t, handedOff);
    OrdinalsStep(lines, t, handedOff);
    FirstUseStep(lines, t, handedOff);
    EarlyQuietStep(lines, t, c);
    HandoffKnownStep(lines, c);
  }

  lemma {:induction false} RunExact(lines: seq<Line>)
    requires AllWellFormed(lines)
    ensures Exact(lines, Run(lines).tools, Run(lines).children)
  {
    if lines != [] {
      var n := |lines| - 1;
      assert forall i :: 0 <= i < n ==> lines[..n][i] == lines[i];
      RunExact(lines[..n]);
      WellFormedIsClean(lines[..n]);
      assert WellFormed(lines[n]);
      RunTools(lines);
      RunChildren(lines);
      ExactStep(lines, Run(lines[..n]).tools, Run(lines[..n]).children);
    } else {
      assert OpenAgents(NoTools.started) == {};
    }
  }

  // --- Both ways -----------------------------------------------------------------------------------------------------

  /** The handoff happens as prescribed, with a result, an untouched workspace and a mutation after it. */
  ghost predicate Completes(lines: seq<Line>, initial: Option<Snapshot>, h: Handoff) {
    && Linked(lines, h) && Alone(lines, h)
    && ProvenAt(lines, h.finish)
    && initial.Some? && lines[h.finish - 1].snapshot == initial
    && exists m :: h.finish < m && MutationAt(lines, m)
  }

  lemma {:induction false} CountSome(s: seq<nat>, x: nat, bound: nat)
    requires x in s && x > bound
    ensures CountAbove(s, bound) >= 1
  {
    var n := |s| - 1;
    if s[n] != x { CountSome(s[..n], x, bound); }
  }

  lemma Distinguished(at: seq<nat>)
    requires Increasing(at)
    ensures |at| >= 2 ==> at[0] != at[1]
  {
  }

  lemma OneRecord(lines: seq<Line>, phase: Phase, items: seq<Child>, at: seq<nat>, m: int, child: Child)
    requires Records(lines, phase, items, at) && Names(lines, phase, m, child)
    requires forall x, other :: Names(lines, phase, x, other) ==> x == m
    ensures at == [m] && items == [child]
  {
    var k := Position(lines, phase, items, at, m, child);
    forall i | 0 <= i < |at| ensures at[i] == m {
      assert Names(lines, phase, at[i], items[i]);
    }
    Distinguished(at);
  }

  lemma SameAnswer(lines: seq<Line>, m: int, q: int, p: int, id: string)
    requires FirstAnswer(lines, m, q, id) && FirstAnswer(lines, m, p, id)
    ensures q == p
  {
  }

  /** One agent call, spawned and answered once, with its two ends where the handoff says. */
  lemma AgentReceipts(lines: seq<Line>, t: Tools, c: Children, h: Handoff)
    requires Exact(lines, t, c) && Traced(lines, t) && UsesEntered(lines, t) && CallsCounted(t) && t.duplicates == 0
    requires Linked(lines, h) && Alone(lines, h)
    ensures t.agentCalls == t.spawns == t.explorerSpawns == 1 && t.spawnIds == [h.callId]
    ensures var ls := AgentLifecycles(t.lifecycle);
            |ls| == 1 && ls[0].name == "agent" && ls[0].useOrdinal == h.use
  {
    var ls := t.lifecycle;
    forall k | 0 <= k < |ls| && ls[k].name == "agent" ensures ls[k].useOrdinal == h.use {
      assert IsJoined(lines, ls[k]);
      var id :| Joined(lines, ls[k], id);
    }
    OneAgent(ls, h.use);
    assert IsEntered(ls, h.use, "agent");
    var k :| 0 <= k < |ls| && ls[k].useOrdinal == h.use && ls[k].name == "agent";
    OnlyAgent(ls, k);
    assert AllExplorers(lines);
    SpawnId(lines, t, h);
  }

  lemma SpawnId(lines: seq<Line>, t: Tools, h: Handoff)
    requires SpawnsTraced(lines, t) && |t.spawnIds| == 1 && Linked(lines, h) && Alone(lines, h)
    ensures t.spawnIds == [h.callId]
  {
    var id := t.spawnIds[0];
    assert id in t.spawnIds;
    var k :| SpawnEntry(lines, t.lifecycle, id, k);
  }

  lemma AgentAnswer(lines: seq<Line>, t: Tools, c: Children, h: Handoff)
    requires Exact(lines, t, c) && Traced(lines, t) && t.duplicates == 0 && t.agentCalls == 1
    requires Linked(lines, h) && Alone(lines, h)
    requires |AgentLifecycles(t.lifecycle)| == 1
    ensures t.agentIds == [h.agentId] && t.spawnSuccesses == 1
    ensures AgentLifecycles(t.lifecycle)[0].resultOrdinal == Some(h.answer)
  {
    assert AnsweredSpawn(lines, h.use, h.callId, h.answer, h.agentId);
    assert h.agentId in t.agentIds;
    assert t.agentIds == [h.agentId];
    var k :| AgentEntry(lines, t.lifecycle, h.agentId, k);
    OnlyAgent(t.lifecycle, k);
    assert IsJoined(lines, t.lifecycle[k]);
    var id :| Joined(lines, t.lifecycle[k], id);
    assert UseAt(lines, h.use, id, "agent");
    SameAnswer(lines, h.use, h.answer, t.lifecycle[k].resultOrdinal.value, id);
  }

  lemma FirstIsExplorer(lines: seq<Line>, t: Tools, h: Handoff)
    requires FirstUseKnown(lines, t) && Linked(lines, h) && Alone(lines, h)
    ensures t.firstIsExplorer
  {
    assert IsUse(lines, h.use);
    var m :| FirstUseAt(lines, m) && (t.firstIsExplorer <==> ExplorerUse(lines, m));
    assert m <= h.use;
  }

  lemma ChildReceipts(lines: seq<Line>, c: Children, h: Handoff)
    requires ChildrenRecorded(lines, c) && ChildFacts(lines, c) && Linked(lines, h) && Alone(lines, h)
    ensures c.started == c.finished == [(h.callId, h.agentId)] && c.startedAt == [h.start] && c.finishedAt == [h.finish]
    ensures c.depths == [1] && c.statuses == ["completed"] && c.firstFinished == Some(h.finish)
  {
    OneRecord(lines, StartPhase, c.started, c.startedAt, h.start, (h.callId, h.agentId));
    OneRecord(lines, FinishPhase, c.finished, c.finishedAt, h.finish, (h.callId, h.agentId));
    assert DepthAt(lines, c.startedAt[0], c.depths[0]);
    assert StatusAt(lines, c.finishedAt[0], c.statuses[0]);
  }

  lemma NoEarlyTools(lines: seq<Line>, t: Tools, handoff: Option<nat>, h: Handoff)
    requires EarlyQuiet(lines, t, handoff) && handoff.Some? && handoff.value == h.finish
    requires Linked(lines, h) && Alone(lines, h)
    ensures t.preHandoff == 0
  {
    assert OneEarlyUse(lines, handoff);
  }

  /** The conditions of the multi lane, gathered. */
  lemma MultiIff(r: Receipt, initial: Option<Snapshot>)
    ensures LanePassed(Multi, r, initial) <==>
      var t, c := r.tools, r.children;
      && t.firstIsExplorer && t.agentCalls == 1 && t.spawns == 1 && t.explorerSpawns == 1
      && t.spawnSuccesses == 1 && |t.agentIds| == 1
      && c.startedCount == 1 && |c.started| == 1 && c.finishedCount == 1 && |c.finished| == 1
      && c.statuses == ["completed"] && ReceiptsMatch(t, c) && ReceiptsInOrder(t, c) && c.depths == [1]
      && t.preHandoff == 0 && UnchangedAtHandoff(c, initial) && WritesBeforeHandoff(r) == 0
      && MutationsAfterHandoff(r) >= 1 && c.resultProven
  {
  }

  /** The tool side of the receipt of a stream with this handoff. */
  lemma ToolReceipts(lines: seq<Line>, t: Tools, h: Handoff)
    requires AllWellFormed(lines) && t == Run(lines).tools && t.duplicates == 0 && Linked(lines, h) && Alone(lines, h)
    ensures t.firstIsExplorer && t.agentCalls == t.spawns == t.explorerSpawns == t.spawnSuccesses == 1
    ensures t.spawnIds == [h.callId] && t.agentIds == [h.agentId]
    ensures var ls := AgentLifecycles(t.lifecycle);
            |ls| == 1 && ls[0].useOrdinal == h.use && ls[0].resultOrdinal == Some(h.answer)
  {
    RunExact(lines);
    RunTraced(lines);
    RunEntered(lines);
    RunCallsCounted(lines);
    AgentReceipts(lines, t, Run(lines).children, h);
    AgentAnswer(lines, t, Run(lines).children, h);
    FirstIsExplorer(lines, t, h);
  }

  /** The child side, and what the handoff leaves of early tools. */
  lemma HandoffReceipts(lines: seq<Line>, r: Receipt, h: Handoff)
    requires AllWellFormed(lines) && r == Run(lines) && Linked(lines, h) && Alone(lines, h)
    ensures var c := r.children;
            && c.startedCount == 1 && c.finishedCount == 1 && c.started == c.finished == [(h.callId, h.agentId)]
            && c.startedAt == [h.start] && c.finishedAt == [h.finish]
            && c.depths == [1] && c.statuses == ["completed"] && c.firstFinished == Some(h.finish)
            && c.snapshot == lines[h.finish - 1].snapshot && c.snapshotError == lines[h.finish - 1].snapshot.None?
            && (ProvenAt(lines, h.finish) ==> c.resultProven)
    ensures r.tools.preHandoff == 0
  {
    RunExact(lines);
    RunChildrenCounted(lines);
    RunRecordsChildren(lines);
    RunChildFacts(lines);
    ChildReceipts(lines, r.children, h);
    NoEarlyTools(lines, r.tools, r.children.firstFinished, h);
  }

  lemma CompletesPasses(lines: seq<Line>, initial: Option<Snapshot>, h: Handoff)
    requires AllWellFormed(lines) && Run(lines).tools.duplicates == 0 && Completes(lines, initial, h)
    ensures LanePassed(Multi, Run(lines), initial)
  {
    var r := Run(lines);
    ToolReceipts(lines, r.tools, h);
    HandoffReceipts(lines, r, h);
    WritesAreRootTools(lines);
    RunExact(lines);
    MutationCounted(lines, r.tools, h);
    MultiIff(r, initial);
  }

  lemma MutationCounted(lines: seq<Line>, t: Tools, h: Handoff)
    requires MutationsComplete(lines, t) && t.duplicates == 0 && exists m :: h.finish < m && MutationAt(lines, m)
    ensures h.finish >= 0 ==> CountAbove(t.mutations, h.finish) >= 1
  {
    var m :| h.finish < m && MutationAt(lines, m);
    var id, name, q :| AppliedUse(lines, m, id, name, q);
    if h.finish >= 0 { CountSome(t.mutations, m, h.finish); }
  }

  lemma PassesCompletes(lines: seq<Line>, transport: Transport, initial: Option<Snapshot>) returns (h: Handoff)
    requires ProtocolErrors(Run(lines), transport) == [] && LanePassed(Multi, Run(lines), initial)
    ensures Completes(lines, initial, h)
  {
    var m: nat;
    h, m := HandoffOrder(lines, transport, initial);
    var c := Run(lines).children;
    StreamLanguage(lines, transport);
    RunExact(lines);
    RunRecordsChildren(lines);
    RunChildFacts(lines);
    ChildReceipts(lines, c, h);
    MultiIff(Run(lines), initial);
    var p :| ProvenAt(lines, p);
    var b := BodyOf(lines[p - 1]);
    assert Names(lines, FinishPhase, p, (b.callId.value, b.childRunId.value));
  }

  /**
    With no protocol errors, the multi lane passes exactly when the stream holds one canonical explorer
    spawn whose use, child start, first result and child finish come in that order and name each other,
    nothing else of the kind happens, the child's result is present, the workspace at the finish is the
    initial one, and an applied mutation starts afterwards.
   */
  lemma MultiLane(lines: seq<Line>, transport: Transport, initial: Option<Snapshot>)
    requires ProtocolErrors(Run(lines), transport) == []
    ensures LanePassed(Multi, Run(lines), initial) <==> exists h :: Completes(lines, initial, h)
  {
    if LanePassed(Multi, Run(lines), initial) {
      var h := PassesCompletes(lines, transport, initial);
    }
    if exists h :: Completes(lines, initial, h) {
      var h :| Completes(lines, initial, h);
      StreamLanguage(lines, transport);
      NoErrors(Run(lines), transport);
      CompletesPasses(lines, initial, h);
    }
  }
}
