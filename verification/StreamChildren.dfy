/** The child checks of the receipt, and the language of error-free streams as a whole. */
module StreamChildren {
  import opened Basics
  import opened StreamModel
  import opened StreamEnvelope
  import opened StreamTools

  // --- Child events ------------------------------------------------------------------

  datatype Phase = StartPhase | FinishPhase

  /** The child named by a well-formed start, or by a well-formed finish. */
  function ChildOf(b: Body, phase: Phase): Option<Child> {
    match b
    case ChildStarted(callId, runId, _) =>
      if phase == StartPhase && ChildStartedOk(b) then Some((callId.value, runId.value)) else None
    case ChildFinished(callId, runId, _, _) =>
      if phase == FinishPhase && ChildFinishedOk(b) then Some((callId.value, runId.value)) else None
    case _ => None
  }

  /** Event number `m`, counted from 1, names this child. */
  predicate Names(lines: seq<Line>, phase: Phase, m: int, child: Child) {
    1 <= m <= |lines| && ChildOf(BodyOf(lines[m - 1]), phase) == Some(child)
  }

  ghost predicate StartedBefore(lines: seq<Line>, child: Child, m: int) {
    exists i :: i < m && Names(lines, StartPhase, i, child)
  }

  ghost predicate NoRepeats(lines: seq<Line>, phase: Phase) {
    forall i, j, child :: i < j && Names(lines, phase, i, child) ==> !Names(lines, phase, j, child)
  }

  ghost predicate FinishesFollow(lines: seq<Line>) {
    forall m, child :: Names(lines, FinishPhase, m, child) ==> StartedBefore(lines, child, m)
  }

  /** No child starts or finishes twice, and every finish follows the start of the same child. */
  ghost predicate ChildrenInOrder(lines: seq<Line>) {
    NoRepeats(lines, StartPhase) && NoRepeats(lines, FinishPhase) && FinishesFollow(lines)
  }

  // --- What the receipt records -------------------------------------------------------

  ghost predicate Sound(lines: seq<Line>, phase: Phase, items: seq<Child>, at: seq<nat>) {
    |items| == |at| && forall k :: 0 <= k < |at| ==> Names(lines, phase, at[k], items[k])
  }

  ghost predicate Complete(lines: seq<Line>, phase: Phase, at: seq<nat>) {
    forall m, child :: Names(lines, phase, m, child) ==> m in at
  }

  ghost predicate Increasing(at: seq<nat>) {
    forall k, l :: 0 <= k < l < |at| ==> at[k] < at[l]
  }

  /** The lists hold the children named so far with their event numbers, in order, and nothing else. */
  ghost predicate Records(lines: seq<Line>, phase: Phase, items: seq<Child>, at: seq<nat>) {
    Sound(lines, phase, items, at) && Complete(lines, phase, at) && Increasing(at)
  }

  /** One more line adds the child it names, if it names one. */
  lemma RecordsGrow(lines: seq<Line>, phase: Phase, items: seq<Child>, at: seq<nat>)
    requires lines != [] && Records(lines[..|lines| - 1], phase, items, at)
    ensures var c := ChildOf(BodyOf(lines[|lines| - 1]), phase);
            if c.Some? then Records(lines, phase, items + [c.value], at + [|lines|])
            else Records(lines, phase, items, at)
  {
    var before, c := lines[..|lines| - 1], ChildOf(BodyOf(lines[|lines| - 1]), phase);
    forall k | 0 <= k < |at| ensures Names(lines, phase, at[k], items[k]) && at[k] < |lines| {
      assert Names(before, phase, at[k], items[k]);
    }
    forall m, child | Names(lines, phase, m, child) && m != |lines| ensures m in at {
      assert Names(before, phase, m, child);
    }
  }

  lemma ChildStepLists(c: Children, index: nat, snapshot: Option<Snapshot>, b: Body)
    ensures var c' := ChildStep(c, index, snapshot, b);
            var s, f := ChildOf(b, StartPhase), ChildOf(b, FinishPhase);
            && c'.started == (if s.Some? then c.started + [s.value] else c.started)
            && c'.startedAt == (if s.Some? then c.startedAt + [index] else c.startedAt)
            && c'.finished == (if f.Some? then c.finished + [f.value] else c.finished)
            && c'.finishedAt == (if f.Some? then c.finishedAt + [index] else c.finishedAt)
  {
  }

  ghost predicate ChildrenRecorded(lines: seq<Line>, c: Children) {
    && Records(lines, StartPhase, c.started, c.startedAt)
    && Records(lines, FinishPhase, c.finished, c.finishedAt)
  }

  lemma ChildrenGrow(lines: seq<Line>, c: Children)
    requires lines != [] && ChildrenRecorded(lines[..|lines| - 1], c)
    ensures ChildrenRecorded(lines, ChildStep(c, |lines|, lines[|lines| - 1].snapshot, BodyOf(lines[|lines| - 1])))
  {
    RecordsGrow(lines, StartPhase, c.started, c.startedAt);
    RecordsGrow(lines, FinishPhase, c.finished, c.finishedAt);
    ChildStepLists(c, |lines|, lines[|lines| - 1].snapshot, BodyOf(lines[|lines| - 1]));
  }

  lemma {:induction false} RunChildren(lines: seq<Line>)
    requires lines != [] && lines[|lines| - 1].event.Typed?
    ensures var r := Run(lines[..|lines| - 1]);
            Run(lines).children
            == ChildStep(r.children, r.eventCount + 1, lines[|lines| - 1].snapshot, BodyOf(lines[|lines| - 1]))
  {
  }

  lemma {:induction false} RunRecordsChildren(lines: seq<Line>)
    requires AllWellFormed(lines)
    ensures ChildrenRecorded(lines, Run(lines).children)
  {
    if lines != [] {
      var n := |lines| - 1;
      assert forall i :: 0 <= i < n ==> lines[..n][i] == lines[i];
      RunRecordsChildren(lines[..n]);
      WellFormedIsClean(lines[..n]);
      assert WellFormed(lines[n]);
      RunChildren(lines);
      ChildrenGrow(lines, Run(lines[..n]).children);
    }
  }

  // --- The checks ----------------------------------------------------------------------

  lemma RepeatsIff(lines: seq<Line>, phase: Phase, items: seq<Child>, at: seq<nat>)
    requires Records(lines, phase, items, at)
    ensures HasRepeats(items) <==> !NoRepeats(lines, phase)
  {
    if HasRepeats(items) {
      var k, l :| 0 <= k < l < |items| && items[k] == items[l];
      assert Names(lines, phase, at[k], items[k]) && Names(lines, phase, at[l], items[l]);
    }
    if !NoRepeats(lines, phase) {
      var i, j, child :| i < j && Names(lines, phase, i, child) && Names(lines, phase, j, child);
      var k := Position(lines, phase, items, at, i, child);
      var l := Position(lines, phase, items, at, j, child);
      assert k < l;
    }
  }

  /** Where the receipt recorded this event. */
  lemma Position(lines: seq<Line>, phase: Phase, items: seq<Child>, at: seq<nat>, m: int, child: Child)
    returns (k: nat)
    requires Sound(lines, phase, items, at) && Complete(lines, phase, at) && Names(lines, phase, m, child)
    ensures k < |at| && at[k] == m && items[k] == child
  {
    assert m in at;
    k :| k < |at| && at[k] == m;
    assert Names(lines, phase, at[k], items[k]);
  }

  lemma {:induction false} StartedAtUnique(c: Children, eventCount: nat, k: nat, n: nat)
    requires |c.started| == |c.startedAt| && !HasRepeats(c.started) && k < n <= |c.started|
    ensures StartedAt(c, eventCount, c.started[k], n) == c.startedAt[k]
  {
    if k < n - 1 { StartedAtUnique(c, eventCount, k, n - 1); }
  }

  /** A finish passes the two remaining checks. */
  predicate FinishOk(c: Children, eventCount: nat, l: nat)
    requires l < |c.finished| == |c.finishedAt| && |c.started| == |c.startedAt|
  {
    c.finished[l] in c.started && StartedAt(c, eventCount, c.finished[l], |c.started|) < c.finishedAt[l]
  }

  /** Without repeats, it does exactly when its child started before. */
  lemma FinishIff(lines: seq<Line>, c: Children, eventCount: nat, l: nat)
    requires ChildrenRecorded(lines, c) && !HasRepeats(c.started) && l < |c.finished|
    ensures FinishOk(c, eventCount, l) <==> StartedBefore(lines, c.finished[l], c.finishedAt[l])
  {
    var child, m := c.finished[l], c.finishedAt[l];
    if child in c.started {
      var k :| 0 <= k < |c.started| && c.started[k] == child;
      StartedAtUnique(c, eventCount, k, |c.started|);
      assert Names(lines, StartPhase, c.startedAt[k], c.started[k]);
    }
    if StartedBefore(lines, child, m) {
      var i :| i < m && Names(lines, StartPhase, i, child);
      var k := Position(lines, StartPhase, c.started, c.startedAt, i, child);
      StartedAtUnique(c, eventCount, k, |c.started|);
    }
  }

  lemma FinishesIff(lines: seq<Line>, c: Children, eventCount: nat)
    requires ChildrenRecorded(lines, c) && !HasRepeats(c.started)
    ensures (forall l :: 0 <= l < |c.finished| ==> FinishOk(c, eventCount, l)) <==> FinishesFollow(lines)
  {
    if FinishesFollow(lines) {
      forall l | 0 <= l < |c.finished| ensures FinishOk(c, eventCount, l) {
        FinishIff(lines, c, eventCount, l);
        assert Names(lines, FinishPhase, c.finishedAt[l], c.finished[l]);
      }
    }
    if forall l :: 0 <= l < |c.finished| ==> FinishOk(c, eventCount, l) {
      forall m, child | Names(lines, FinishPhase, m, child) ensures StartedBefore(lines, child, m) {
        var l := Position(lines, FinishPhase, c.finished, c.finishedAt, m, child);
        FinishIff(lines, c, eventCount, l);
        assert FinishOk(c, eventCount, l);
      }
    }
  }

  lemma NoChildErrors(c: Children, eventCount: nat)
    requires |c.started| == |c.startedAt| && |c.finished| == |c.finishedAt|
    ensures ChildErrors(c, eventCount) == [] <==>
      && !HasRepeats(c.started) && !HasRepeats(c.finished)
      && forall l :: 0 <= l < |c.finished| ==> FinishOk(c, eventCount, l)
  {
    if forall l :: 0 <= l < |c.finished| ==> FinishOk(c, eventCount, l) {
      forall l | 0 <= l < |c.finished|
        ensures c.finished[l] in c.started && StartedAt(c, eventCount, c.finished[l], |c.started|) < c.finishedAt[l]
      {
        assert FinishOk(c, eventCount, l);
      }
    } else {
      var l :| 0 <= l < |c.finished| && !FinishOk(c, eventCount, l);
      assert c.finished[l] in c.started ==> OutOfOrder(c, eventCount);
    }
  }

  lemma ChildLanguage(lines: seq<Line>)
    requires AllWellFormed(lines)
    ensures ChildErrors(Run(lines).children, Run(lines).eventCount) == [] <==> ChildrenInOrder(lines)
  {
    var r := Run(lines);
    var c := r.children;
    RunRecordsChildren(lines);
    RepeatsIff(lines, StartPhase, c.started, c.startedAt);
    RepeatsIff(lines, FinishPhase, c.finished, c.finishedAt);
    NoChildErrors(c, r.eventCount);
    if !HasRepeats(c.started) {
      FinishesIff(lines, c, r.eventCount);
    }
  }

  // --- The whole stream ------------------------------------------------------------------

  /** What an error-free stream is, without the receipt. */
  ghost predicate Conforms(lines: seq<Line>) {
    && AllWellFormed(lines)
    && (forall id :: AnsweredFor(lines, id))
    && ChildrenInOrder(lines)
    && exists t: nat :: Enveloped(lines, t)
  }

  lemma NoErrors(r: Receipt, transport: Transport)
    ensures ProtocolErrors(r, transport) == [] <==>
      && r.invalidLines == 0 && r.schemaErrors == 0 && transport.oversizedLines == 0 && !transport.overflow
      && ToolErrors(r.tools) == [] && ChildErrors(r.children, r.eventCount) == [] && EnvelopeErrors(r.envelope) == []
  {
  }

  /**
    The monitor decides a language: over every stream its error list is empty exactly when the
    stream conforms and the transport saw no oversized line and no overflow.
   */
  lemma StreamLanguage(lines: seq<Line>, transport: Transport)
    ensures ProtocolErrors(Run(lines), transport) == [] <==>
      Conforms(lines) && transport.oversizedLines == 0 && !transport.overflow
  {
    var r := Run(lines);
    NoErrors(r, transport);
    if ToolErrors(r.tools) == [] && r.invalidLines == 0 && r.schemaErrors == 0 {
      CleanIsWellFormed(lines);
    }
    if AllWellFormed(lines) {
      WellFormedIsClean(lines);
      forall i | 0 <= i < |lines| ensures lines[i].event.Typed? { assert WellFormed(lines[i]); }
      ToolLanguage(lines);
      ChildLanguage(lines);
      EnvelopeLanguage(lines);
    }
  }
}
