/** Where the entries of the receipt come from: each refers to the very events that caused it. */
module StreamTrace {
  import opened Basics
  import opened StreamModel
  import opened StreamEnvelope
  import opened StreamTools

  // --- Tool events by number ------------------------------------------------------

  predicate UseAt(lines: seq<Line>, m: int, id: string, name: string) {
    1 <= m <= |lines| && BodyOf(lines[m - 1]).ToolUse?
    && BodyOf(lines[m - 1]).id == Some(id) && BodyOf(lines[m - 1]).name == Some(name)
  }

  predicate AnswerAt(lines: seq<Line>, m: int, id: string) {
    1 <= m <= |lines| && BodyOf(lines[m - 1]).ToolResult? && BodyOf(lines[m - 1]).id == Some(id)
  }

  /** Event `q` is the first result for `id` after event `m`. */
  ghost predicate FirstAnswer(lines: seq<Line>, m: int, q: int, id: string) {
    m < q && AnswerAt(lines, q, id) && forall x :: m < x < q ==> !AnswerAt(lines, x, id)
  }

  ghost predicate Unanswered(lines: seq<Line>, m: int, id: string) {
    forall x :: m < x ==> !AnswerAt(lines, x, id)
  }

  /** The result is a success that names the spawned agent. */
  predicate SpawnAnswerAt(lines: seq<Line>, m: int, agent: string) {
    && 1 <= m <= |lines| && BodyOf(lines[m - 1]).ToolResult?
    && BodyOf(lines[m - 1]).status == Some("success") && BodyOf(lines[m - 1]).agentId == Some(agent)
  }

  /** The result is a success whose side effect was applied. */
  predicate AppliedAt(lines: seq<Line>, m: int, id: string) {
    AnswerAt(lines, m, id) && BodyOf(lines[m - 1]).status == Some("success") && BodyOf(lines[m - 1]).applied
  }

  // --- What each entry stands for ----------------------------------------------------

  /** An open call points at its unanswered use and at its unfinished lifecycle entry. */
  ghost predicate OpenEntry(lines: seq<Line>, ls: seq<Lifecycle>, s: Started, id: string) {
    && s.lifecycle < |ls|
    && ls[s.lifecycle] == Lifecycle(s.index, s.name, None, None)
    && UseAt(lines, s.index, id, s.name)
    && Unanswered(lines, s.index, id)
  }

  ghost predicate OpenTraced(lines: seq<Line>, t: Tools) {
    forall id :: id in t.started ==> OpenEntry(lines, t.lifecycle, t.started[id], id)
  }

  /** A lifecycle entry joins a use with the first result that follows for the same id. */
  ghost predicate Joined(lines: seq<Line>, l: Lifecycle, id: string) {
    && UseAt(lines, l.useOrdinal, id, l.name)
    && (l.resultOrdinal.Some? ==> FirstAnswer(lines, l.useOrdinal, l.resultOrdinal.value, id))
  }

  ghost predicate IsJoined(lines: seq<Line>, l: Lifecycle) {
    exists id :: Joined(lines, l, id)
  }

  ghost predicate LifecyclesTraced(lines: seq<Line>, t: Tools) {
    forall k :: 0 <= k < |t.lifecycle| ==> IsJoined(lines, t.lifecycle[k])
  }

  predicate SpawnEntry(lines: seq<Line>, ls: seq<Lifecycle>, id: string, k: int) {
    0 <= k < |ls| && ls[k].name == "agent" && UseAt(lines, ls[k].useOrdinal, id, "agent")
  }

  ghost predicate IsSpawn(lines: seq<Line>, ls: seq<Lifecycle>, id: string) {
    exists k :: SpawnEntry(lines, ls, id, k)
  }

  ghost predicate SpawnsTraced(lines: seq<Line>, t: Tools) {
    forall id :: id in t.spawnIds ==> IsSpawn(lines, t.lifecycle, id)
  }

  predicate AgentEntry(lines: seq<Line>, ls: seq<Lifecycle>, agent: string, k: int) {
    && 0 <= k < |ls| && ls[k].name == "agent"
    && ls[k].resultOrdinal.Some? && SpawnAnswerAt(lines, ls[k].resultOrdinal.value, agent)
  }

  ghost predicate IsAnswered(lines: seq<Line>, ls: seq<Lifecycle>, agent: string) {
    exists k :: AgentEntry(lines, ls, agent, k)
  }

  ghost predicate AgentsTraced(lines: seq<Line>, t: Tools) {
    forall agent :: agent in t.agentIds ==> IsAnswered(lines, t.lifecycle, agent)
  }

  ghost predicate AppliedUse(lines: seq<Line>, m: int, id: string, name: string, q: int) {
    UseAt(lines, m, id, name) && name in MUTATION_TOOLS && FirstAnswer(lines, m, q, id) && AppliedAt(lines, q, id)
  }

  /** Event `m` is the use of a mutating tool, and its result says it was applied. */
  ghost predicate MutationAt(lines: seq<Line>, m: int) {
    exists id, name, q :: AppliedUse(lines, m, id, name, q)
  }

  ghost predicate MutationsTraced(lines: seq<Line>, t: Tools) {
    forall m :: m in t.mutations ==> MutationAt(lines, m)
  }

  ghost predicate EntriesTraced(lines: seq<Line>, t: Tools) {
    LifecyclesTraced(lines, t) && SpawnsTraced(lines, t) && AgentsTraced(lines, t) && MutationsTraced(lines, t)
  }

  ghost predicate Traced(lines: seq<Line>, t: Tools) {
    OpenTraced(lines, t) && EntriesTraced(lines, t)
  }

  // --- More lines keep what is traced ------------------------------------------------

  lemma LiftAnswer(lines: seq<Line>, m: int, q: int, id: string)
    requires lines != [] && FirstAnswer(lines[..|lines| - 1], m, q, id)
    ensures FirstAnswer(lines, m, q, id) && q < |lines|
  {
    forall x | m < x < q ensures !AnswerAt(lines, x, id) {
      assert !AnswerAt(lines[..|lines| - 1], x, id);
    }
  }

  lemma LiftMutation(lines: seq<Line>, m: int)
    requires lines != [] && MutationAt(lines[..|lines| - 1], m)
    ensures MutationAt(lines, m)
  {
    var before := lines[..|lines| - 1];
    var id, name, q :| AppliedUse(before, m, id, name, q);
    LiftAnswer(lines, m, q, id);
    assert AppliedUse(lines, m, id, name, q);
  }

  lemma LiftJoined(lines: seq<Line>, l: Lifecycle, id: string)
    requires lines != [] && Joined(lines[..|lines| - 1], l, id)
    ensures Joined(lines, l, id) && l.useOrdinal < |lines|
  {
    if l.resultOrdinal.Some? { LiftAnswer(lines, l.useOrdinal, l.resultOrdinal.value, id); }
  }

  lemma Lift(lines: seq<Line>, t: Tools)
    requires lines != [] && EntriesTraced(lines[..|lines| - 1], t)
    ensures EntriesTraced(lines, t)
  {
    var before := lines[..|lines| - 1];
    forall k | 0 <= k < |t.lifecycle| ensures IsJoined(lines, t.lifecycle[k]) {
      var id :| Joined(before, t.lifecycle[k], id);
      LiftJoined(lines, t.lifecycle[k], id);
    }
    forall id | id in t.spawnIds ensures IsSpawn(lines, t.lifecycle, id) {
      var k :| SpawnEntry(before, t.lifecycle, id, k);
      assert SpawnEntry(lines, t.lifecycle, id, k);
    }
    forall agent | agent in t.agentIds ensures IsAnswered(lines, t.lifecycle, agent) {
      var k :| AgentEntry(before, t.lifecycle, agent, k);
      assert AgentEntry(lines, t.lifecycle, agent, k);
    }
    forall m | m in t.mutations ensures MutationAt(lines, m) {
      LiftMutation(lines, m);
    }
  }

  /** An open call stays open while its id is not answered. */
  lemma LiftOpen(lines: seq<Line>, ls: seq<Lifecycle>, s: Started, id: string)
    requires lines != [] && OpenEntry(lines[..|lines| - 1], ls, s, id) && !AnswerAt(lines, |lines|, id)
    ensures OpenEntry(lines, ls, s, id)
  {
    forall x | s.index < x ensures !AnswerAt(lines, x, id) {
      assert !AnswerAt(lines[..|lines| - 1], x, id);
    }
  }

  // --- A recorded use -------------------------------------------------------------------

  /** The tables after a use: one more lifecycle entry, one more open call, nothing finished. */
  ghost predicate UseShape(t: Tools, t': Tools, index: nat, id: string, name: string) {
    && t'.lifecycle == t.lifecycle + [Lifecycle(index, name, None, None)]
    && t'.started == t.started[id := Started(name, index, |t.lifecycle|)]
    && (t'.spawnIds == t.spawnIds || (name == "agent" && t'.spawnIds == t.spawnIds + [id]))
    && t'.agentIds == t.agentIds && t'.mutations == t.mutations
  }

  lemma UseKeepsOpen(lines: seq<Line>, t: Tools, t': Tools, id: string, name: string)
    requires lines != [] && OpenTraced(lines[..|lines| - 1], t)
    requires UseShape(t, t', |lines|, id, name) && UseAt(lines, |lines|, id, name)
    ensures OpenTraced(lines, t')
  {
    forall x | x in t'.started ensures OpenEntry(lines, t'.lifecycle, t'.started[x], x) {
      if x != id { LiftOpen(lines, t.lifecycle, t.started[x], x); }
    }
  }

  lemma UseKeepsEntries(lines: seq<Line>, t: Tools, t': Tools, id: string, name: string)
    requires EntriesTraced(lines, t) && UseShape(t, t', |lines|, id, name) && UseAt(lines, |lines|, id, name)
    ensures EntriesTraced(lines, t')
  {
    var n := |t.lifecycle|;
    assert t'.lifecycle[n] == Lifecycle(|lines|, name, None, None);
    forall k | 0 <= k < |t'.lifecycle| ensures IsJoined(lines, t'.lifecycle[k]) {
      if k < n {
        var x :| Joined(lines, t.lifecycle[k], x);
        assert Joined(lines, t'.lifecycle[k], x);
      } else {
        assert Joined(lines, t'.lifecycle[k], id);
      }
    }
    UseKeepsSpawns(lines, t, t', id, name);
    forall agent | agent in t'.agentIds ensures IsAnswered(lines, t'.lifecycle, agent) {
      var k :| AgentEntry(lines, t.lifecycle, agent, k);
      assert AgentEntry(lines, t'.lifecycle, agent, k);
    }
  }

  lemma UseKeepsSpawns(lines: seq<Line>, t: Tools, t': Tools, id: string, name: string)
    requires SpawnsTraced(lines, t) && UseShape(t, t', |lines|, id, name) && UseAt(lines, |lines|, id, name)
    ensures SpawnsTraced(lines, t')
  {
    forall x | x in t'.spawnIds ensures IsSpawn(lines, t'.lifecycle, x) {
      if x in t.spawnIds {
        var k :| SpawnEntry(lines, t.lifecycle, x, k);
        assert SpawnEntry(lines, t'.lifecycle, x, k);
      } else {
        assert SpawnEntry(lines, t'.lifecycle, x, |t.lifecycle|);
      }
    }
  }

  // --- A recorded result ------------------------------------------------------------------

  /** The tables after a result: the call is closed and its entry finished. */
  ghost predicate ResultShape(t: Tools, t': Tools, index: nat, id: string, b: Body)
    requires b.ToolResult?
  {
    && id in t.started && t.started[id].lifecycle < |t.lifecycle|
    && var s := t.started[id];
       && t'.started == t.started - {id}
       && t'.lifecycle == t.lifecycle[s.lifecycle := Finish(t.lifecycle[s.lifecycle], index, b.status)]
       && t'.spawnIds == t.spawnIds
       && t'.mutations == t.mutations + (if Mutated(s, b.status, b.applied) then [s.index] else [])
       && t'.agentIds == t.agentIds + (if SpawnAnswered(t, s, id, b.status, b.agentId) then [b.agentId.value] else [])
  }

  /** The last line is this result, and the tables before it traced the lines before it. */
  ghost predicate ResultStep(lines: seq<Line>, t: Tools, t': Tools, id: string, b: Body) {
    && lines != [] && BodyOf(lines[|lines| - 1]) == b && b.ToolResult? && b.id == Some(id)
    && OpenTraced(lines[..|lines| - 1], t) && ResultShape(t, t', |lines|, id, b)
  }

  /** The result is the first one for its use. */
  lemma ResultAnswers(lines: seq<Line>, t: Tools, t': Tools, id: string, b: Body)
    requires ResultStep(lines, t, t', id, b)
    ensures var s := t.started[id];
            && UseAt(lines, s.index, id, s.name) && FirstAnswer(lines, s.index, |lines|, id)
            && t.lifecycle[s.lifecycle] == Lifecycle(s.index, s.name, None, None)
  {
    var before, s := lines[..|lines| - 1], t.started[id];
    assert OpenEntry(before, t.lifecycle, s, id);
    forall x | s.index < x < |lines| ensures !AnswerAt(lines, x, id) {
      assert !AnswerAt(before, x, id);
    }
  }

  lemma ResultKeepsOpen(lines: seq<Line>, t: Tools, t': Tools, id: string, b: Body)
    requires ResultStep(lines, t, t', id, b)
    ensures OpenTraced(lines, t')
  {
    var before := lines[..|lines| - 1];
    assert OpenEntry(before, t.lifecycle, t.started[id], id);
    forall x | x in t'.started ensures OpenEntry(lines, t'.lifecycle, t'.started[x], x) {
      assert OpenEntry(before, t.lifecycle, t.started[x], x);
      assert t.started[x].lifecycle != t.started[id].lifecycle;
      LiftOpen(lines, t.lifecycle, t.started[x], x);
    }
  }

  lemma ResultKeepsLifecycles(lines: seq<Line>, t: Tools, t': Tools, id: string, b: Body)
    requires ResultStep(lines, t, t', id, b) && LifecyclesTraced(lines, t)
    ensures LifecyclesTraced(lines, t')
  {
    ResultAnswers(lines, t, t', id, b);
    forall k | 0 <= k < |t'.lifecycle| ensures IsJoined(lines, t'.lifecycle[k]) {
      if k != t.started[id].lifecycle {
        var x :| Joined(lines, t.lifecycle[k], x);
        assert Joined(lines, t'.lifecycle[k], x);
      } else {
        assert Joined(lines, t'.lifecycle[k], id);
      }
    }
  }

  lemma ResultKeepsSpawns(lines: seq<Line>, t: Tools, t': Tools, id: string, b: Body)
    requires SpawnsTraced(lines, t) && b.ToolResult? && ResultShape(t, t', |lines|, id, b)
    ensures SpawnsTraced(lines, t')
  {
    forall x | x in t'.spawnIds ensures IsSpawn(lines, t'.lifecycle, x) {
      var k :| SpawnEntry(lines, t.lifecycle, x, k);
      assert SpawnEntry(lines, t'.lifecycle, x, k);
    }
  }

  lemma ResultKeepsAgents(lines: seq<Line>, t: Tools, t': Tools, id: string, b: Body)
    requires ResultStep(lines, t, t', id, b) && AgentsTraced(lines, t)
    ensures AgentsTraced(lines, t')
  {
    ResultAnswers(lines, t, t', id, b);
    forall agent | agent in t'.agentIds ensures IsAnswered(lines, t'.lifecycle, agent) {
      if agent in t.agentIds {
        var k :| AgentEntry(lines, t.lifecycle, agent, k);
        assert AgentEntry(lines, t'.lifecycle, agent, k);
      } else {
        assert AgentEntry(lines, t'.lifecycle, agent, t.started[id].lifecycle);
      }
    }
  }

  lemma ResultKeepsMutations(lines: seq<Line>, t: Tools, t': Tools, id: string, b: Body)
    requires ResultStep(lines, t, t', id, b) && MutationsTraced(lines, t)
    ensures MutationsTraced(lines, t')
  {
    ResultAnswers(lines, t, t', id, b);
    forall m | m in t'.mutations ensures MutationAt(lines, m) {
      if m !in t.mutations {
        assert AppliedUse(lines, m, id, t.started[id].name, |lines|);
      }
    }
  }

  lemma ResultKeepsTraced(lines: seq<Line>, t: Tools, t': Tools, id: string, b: Body)
    requires ResultStep(lines, t, t', id, b) && EntriesTraced(lines, t)
    ensures Traced(lines, t')
  {
    ResultKeepsOpen(lines, t, t', id, b);
    ResultKeepsLifecycles(lines, t, t', id, b);
    ResultKeepsSpawns(lines, t, t', id, b);
    ResultKeepsAgents(lines, t, t', id, b);
    ResultKeepsMutations(lines, t, t', id, b);
  }

  // --- Every reachable receipt -----------------------------------------------------------

  ghost predicate SameTables(t: Tools, t': Tools) {
    && t'.started == t.started && t'.lifecycle == t.lifecycle && t'.spawnIds == t.spawnIds
    && t'.agentIds == t.agentIds && t'.mutations == t.mutations
  }

  lemma StepShapes(t: Tools, index: nat, handedOff: bool, b: Body)
    requires WellFormedBody(b)
    ensures var t' := ToolStep(t, index, handedOff, b);
            || (SameTables(t, t') && (b.ToolResult? ==> b.id.value !in t.started))
            || (b.ToolUse? && UseShape(t, t', index, b.id.value, b.name.value))
            || (b.ToolResult? && b.id.value in t.started
                && (t.started[b.id.value].lifecycle < |t.lifecycle| ==> ResultShape(t, t', index, b.id.value, b)))
  {
    match b
    case ToolUse(_, _, _) =>
    case ToolResult(_, _, _, _, _) =>
    case _ =>
  }

  lemma TracedStep(lines: seq<Line>, t: Tools, handedOff: bool)
    requires lines != [] && Traced(lines[..|lines| - 1], t) && WellFormedBody(BodyOf(lines[|lines| - 1]))
    ensures Traced(lines, ToolStep(t, |lines|, handedOff, BodyOf(lines[|lines| - 1])))
  {
    var b := BodyOf(lines[|lines| - 1]);
    var t' := ToolStep(t, |lines|, handedOff, b);
    StepShapes(t, |lines|, handedOff, b);
    Lift(lines, t);
    if SameTables(t, t') && (b.ToolResult? ==> b.id.value !in t.started) {
      forall x | x in t.started ensures OpenEntry(lines, t.lifecycle, t.started[x], x) {
        LiftOpen(lines, t.lifecycle, t.started[x], x);
      }
    } else if b.ToolUse? {
      UseKeepsOpen(lines, t, t', b.id.value, b.name.value);
      UseKeepsEntries(lines, t, t', b.id.value, b.name.value);
    } else {
      assert OpenEntry(lines[..|lines| - 1], t.lifecycle, t.started[b.id.value], b.id.value);
      ResultKeepsTraced(lines, t, t', b.id.value, b);
    }
  }

  lemma {:induction false} RunTraced(lines: seq<Line>)
    requires AllWellFormed(lines)
    ensures Traced(lines, Run(lines).tools)
  {
    if lines != [] {
      var n := |lines| - 1;
      assert forall i :: 0 <= i < n ==> lines[..n][i] == lines[i];
      RunTraced(lines[..n]);
      WellFormedIsClean(lines[..n]);
      assert WellFormed(lines[n]);
      RunTools(lines);
      TracedStep(lines, Run(lines[..n]).tools, Run(lines[..n]).children.firstFinished.Some?);
    }
  }
}
