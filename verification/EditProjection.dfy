/** The projector as it runs, and the order its replay keeps. */
module EditProjection {
  import opened Basics
  import opened EditModel

  method Project(events: seq<Stored>) returns (r: Result<Observation, Code>)
    ensures r == EditModel.Project(events)
  {
    var _ :- CheckEnvelope(events);
    var f := NoFacts;
    for i := 0 to |events|
      invariant Replay(events[..i]) == Ok(f)
    {
      assert events[..i + 1][..i] == events[..i];
      var next := Step(f, events[i]);
      if next.Err? {
        ReplayStuck(events, i + 1);
        return Err(next.error);
      }
      f := next.value;
    }
    assert events[..|events|] == events;
    ReplayKnowsOrder(events);
    var base :- BuildAttempts(f);
    var attempts := MatchRecoveries(base, f.requests);
    var incomplete := ListIncomplete(f);
    r := Ok(Observation(attempts, incomplete));
  }

  /** A ledger whose prefix is rejected is rejected, with the same code. */
  lemma {:induction false} ReplayStuck(events: seq<Stored>, k: nat)
    requires Enveloped(events) && k <= |events| && Replay(events[..k]).Err?
    ensures Replay(events) == Err(Replay(events[..k]).error)
    decreases |events|
  {
    if k == |events| {
      assert events[..k] == events;
    } else {
      var n := |events| - 1;
      assert events[..n][..k] == events[..k];
      ReplayStuck(events[..n], k);
    }
  }

  method BuildAttempts(f: Facts) returns (r: Result<seq<Attempt>, Code>)
    requires OrderKnown(f)
    ensures r == BaseAttempts(f)
  {
    var attempts: seq<Attempt> := [];
    for i := 0 to |f.commitOrder|
      invariant attempts == AttemptsUpTo(f, i)
      invariant forall j :: 0 <= j < |attempts| ==> attempts[j].revision != BadRevision
    {
      var op := f.commitOrder[i];
      if IsEdit(f, op) {
        var attempt := MakeAttempt(f, op);
        if attempt.revision == BadRevision {
          assert AttemptsUpTo(f, i + 1)[|attempts|] == attempt;
          AttemptsPrefix(f, i + 1, |f.commitOrder|);
          assert AttemptsUpTo(f, |f.commitOrder|)[|attempts|] == attempt;
          return Err(WorkspaceRevisionShapeInvalid);
        }
        attempts := attempts + [attempt];
      }
    }
    r := Ok(attempts);
  }

  lemma {:induction false} AttemptsPrefix(f: Facts, i: nat, n: nat)
    requires OrderKnown(f) && i <= n <= |f.commitOrder|
    ensures AttemptsUpTo(f, i) <= AttemptsUpTo(f, n)
    decreases n
  {
    if i < n { AttemptsPrefix(f, i, n - 1); }
  }

  /** The nested loop that marks recovered failures, updating the attempts in place. */
  method MatchRecoveries(base: seq<Attempt>, requests: seq<int>) returns (attempts: seq<Attempt>)
    ensures attempts == Recover(base, requests)
  {
    attempts := base;
    for i := 0 to |base|
      invariant |attempts| == |base|
      invariant forall x :: 0 <= x < i ==> attempts[x] == Recovered(base, requests, x)
      invariant forall x :: i <= x < |base| ==> attempts[x] == base[x]
    {
      if !attempts[i].success && attempts[i].target.Some? {
        ghost var want := Scan(base, requests, base[i], i + 1);
        var j := i + 1;
        var recovery := NotRecovered;
        while j < |attempts|
          invariant i < j <= |attempts|
          invariant recovery == NotRecovered && Scan(base, requests, base[i], j) == want
        {
          if SameEdit(attempts[i], attempts[j]) {
            var found := Between(requests, attempts[i].outcomeSequence, attempts[j].preparedSequence);
            if found != [] {
              recovery := RecoveredBy(attempts[j].operationId, |found|);
              break;
            }
          }
          j := j + 1;
        }
        attempts := attempts[i := attempts[i].(recovery := recovery)];
      }
    }
  }

  method ListIncomplete(f: Facts) returns (incomplete: seq<string>)
    ensures incomplete == IncompleteUpTo(f, |f.startOrder|)
  {
    incomplete := [];
    for i := 0 to |f.startOrder|
      invariant incomplete == IncompleteUpTo(f, i)
    {
      if IsIncomplete(f, f.startOrder[i]) { incomplete := incomplete + [f.startOrder[i]]; }
    }
  }

  // --- The order the replay keeps ----------------------------------------------------

  /** An outcome that may have touched the workspace. */
  predicate Effective(o: Outcome) {
    OutcomeSuccess(o) || (o.sideEffect != NotApplied && o.sideEffect != NotApplicable)
  }

  /** An outcome of an operation that was accepted and begun. */
  predicate Begun(o: Outcome) {
    o.invocation == Accepted && o.operation != OperationNotStarted
  }

  /**
    Sequence numbers of one operation rise from preparation to start and to outcome, up to `n`.
    A start may follow an outcome without effect, but not one that may have touched the workspace.
   */
  predicate OperationOk(f: Facts, n: int, op: string) {
    && (op in f.prepared ==> 1 <= f.prepared[op].sequence <= n)
    && (op in f.started ==> op in f.prepared && f.prepared[op].sequence < f.started[op] <= n)
    && (op in f.committed ==>
          && op in f.prepared && f.prepared[op].sequence < f.committed[op].sequence <= n
          && ValidateOutcome(Some(f.committed[op].outcome)).Ok?
          && (Effective(f.committed[op].outcome) ==> op in f.started && f.started[op] < f.committed[op].sequence))
  }

  /** Outcomes are listed in sequence order: sorting them by sequence would change nothing. */
  ghost predicate CommitsOrdered(f: Facts) {
    && (forall op :: op in f.committed <==> op in f.commitOrder)
    && (forall i, j :: 0 <= i < j < |f.commitOrder| ==>
          f.committed[f.commitOrder[i]].sequence < f.committed[f.commitOrder[j]].sequence)
  }

  ghost predicate StartsOrdered(f: Facts) {
    && (forall op :: op in f.started <==> op in f.startOrder)
    && (forall i, j :: 0 <= i < j < |f.startOrder| ==> f.started[f.startOrder[i]] < f.started[f.startOrder[j]])
  }

  ghost predicate Ordered(f: Facts, n: int) {
    && (forall op :: OperationOk(f, n, op))
    && CommitsOrdered(f) && StartsOrdered(f)
    && (forall i :: 0 <= i < |f.requests| ==> 1 <= f.requests[i] <= n)
  }

  lemma CommitOrdered(f: Facts, f': Facts, op: string, n: int)
    requires CommitsOrdered(f) && op !in f.committed
    requires forall x :: x in f.committed ==> f.committed[x].sequence < n
    requires f'.commitOrder == f.commitOrder + [op]
    requires op in f'.committed && f'.committed == f.committed[op := f'.committed[op]] && f'.committed[op].sequence == n
    ensures CommitsOrdered(f')
  {
    forall i, j | 0 <= i < j < |f'.commitOrder|
      ensures f'.committed[f'.commitOrder[i]].sequence < f'.committed[f'.commitOrder[j]].sequence
    {
      assert f.commitOrder[i] in f.committed;
      if j < |f.commitOrder| { assert f.commitOrder[j] in f.committed; }
    }
  }

  lemma StartOrdered(f: Facts, f': Facts, op: string, n: int)
    requires StartsOrdered(f) && op !in f.started && forall x :: x in f.started ==> f.started[x] < n
    requires f'.startOrder == f.startOrder + [op] && f'.started == f.started[op := n]
    ensures StartsOrdered(f')
  {
    forall i, j | 0 <= i < j < |f'.startOrder| ensures f'.started[f'.startOrder[i]] < f'.started[f'.startOrder[j]] {
      assert f.startOrder[i] in f.started;
      if j < |f.startOrder| { assert f.startOrder[j] in f.started; }
    }
  }

  lemma StepOperationOk(f: Facts, stored: Stored, n: int, op: string)
    requires OperationOk(f, n - 1, op)
    requires stored.sequence == Some(n) && n >= 1 && stored.event.Some? && Step(f, stored).Ok?
    ensures OperationOk(Step(f, stored).value, n, op)
  {
  }

  lemma StepOrdered(f: Facts, stored: Stored, n: int)
    requires Ordered(f, n - 1) && stored.sequence == Some(n) && n >= 1 && stored.event.Some? && Step(f, stored).Ok?
    ensures Ordered(Step(f, stored).value, n)
  {
    var f' := Step(f, stored).value;
    forall op ensures OperationOk(f', n, op) {
      StepOperationOk(f, stored, n, op);
    }
    match stored.event.value
    case ToolStarted(op) =>
      assert forall x :: x in f.started ==> OperationOk(f, n - 1, x);
      StartOrdered(f, f', op.value, n);
    case ToolOutcome(op, _, _, _, _) =>
      assert forall x :: x in f.committed ==> OperationOk(f, n - 1, x);
      CommitOrdered(f, f', op.value, n);
    case _ =>
  }

  lemma {:induction false} ReplayOrdered(events: seq<Stored>)
    requires Enveloped(events) && Replay(events).Ok?
    ensures Ordered(Replay(events).value, |events|)
  {
    if events != [] {
      var n := |events|;
      ReplayOrdered(events[..n - 1]);
      StepOrdered(Replay(events[..n - 1]).value, events[n - 1], n);
    }
  }
}
