/**
  What every event keeps. Each attempt in the table is either the one active attempt of
  its run or it went in flight and settled; attestations count the attempts of their
  compaction; retries never change the prompt.
 */
module LedgerInvariant {
  import opened Basics
  import opened LedgerModel

  // --- The invariant ----------------------------------------------------------

  /** The attempt a run is waiting on, agent or compaction. */
  function ActiveId(s: Ledger, run: string): Option<string> {
    if run in s.activeAgent then Some(s.activeAgent[run]) else Get(s.activeCompaction, run)
  }

  predicate Settled(a: Attempt) {
    a.hadInFlight && (a.state == FailedRetryPrepared || a.state == FailedStopped || a.state == ResponseCommitted)
  }

  predicate Open(a: Attempt) {
    (a.state == Prepared && !a.hadInFlight) || (a.state == InFlight && a.hadInFlight)
  }

  /** The record restates the stored request it was prepared from. */
  predicate Faithful(env: Env, a: Attempt) {
    && a.runId in env.runs
    && RequestMatchesRun(env, a.runId, a.rawRequest)
    && a.rawRequest.requestNumber == Some(a.requestNumber)
    && a.rawRequest.attempt == Some(a.attempt)
    && env.fingerprint(a.rawRequest.systemPrompt) == Some(a.prompt)
    && (a.kind == ContextCompaction <==> a.compactionId.Some?)
  }

  /** A compaction attempt carries the prompt its attestation vouches for. */
  predicate Attested(s: Ledger, a: Attempt) {
    a.compactionId.Some? ==>
      && (a.runId, a.compactionId.value) in s.compactions
      && var att := s.compactions[(a.runId, a.compactionId.value)];
         SamePrompt(a.prompt, att.orderedBlocks, att.wire)
  }

  /** An attempt is open exactly while its run is waiting on it; otherwise it is settled. */
  predicate AttemptOk(env: Env, s: Ledger, id: string)
    requires id in s.prepared
  {
    var a := s.prepared[id];
    && id != ""
    && Faithful(env, a)
    && Attested(s, a)
    && if ActiveId(s, a.runId) == Some(id) then Open(a) else Settled(a)
  }

  predicate RunOk(s: Ledger, run: string) {
    && !(run in s.activeAgent && run in s.activeCompaction)
    && (run in s.agentStopped ==> ActiveId(s, run).None?)
    && (run in s.activeAgent ==>
          var id := s.activeAgent[run];
          id in s.prepared && s.prepared[id].runId == run && s.prepared[id].kind == AgentRequest)
    && (run in s.activeCompaction ==>
          var id := s.activeCompaction[run];
          id in s.prepared && s.prepared[id].runId == run && s.prepared[id].kind == ContextCompaction)
  }

  function CompactionAttempts(s: Ledger, key: (string, string)): set<string> {
    set id | id in s.prepared && s.prepared[id].runId == key.0 && s.prepared[id].compactionId == Some(key.1)
  }

  /** An attestation counts its attempts: the first one and one for each retry. */
  predicate Counted(s: Ledger, key: (string, string))
    requires key in s.compactions
  {
    var att := s.compactions[key];
    att.preparedAttemptCount == 1 + att.retryCount == |CompactionAttempts(s, key)|
  }

  ghost predicate AttemptsOk(env: Env, s: Ledger) {
    forall id :: id in s.prepared ==> AttemptOk(env, s, id)
  }

  ghost predicate RunsOk(s: Ledger) {
    forall run :: RunOk(s, run)
  }

  ghost predicate AttestationsOk(s: Ledger) {
    && (forall key :: key in s.compactions ==> Counted(s, key))
    && (forall key :: key in s.stoppedCompactions ==> key in s.compactions)
  }

  ghost predicate Inv(env: Env, s: Ledger) {
    AttemptsOk(env, s) && RunsOk(s) && AttestationsOk(s)
  }

  // --- Frames -------------------------------------------------------------------

  predicate SameRun(s: Ledger, s': Ledger, r: string) {
    && (r in s'.activeAgent <==> r in s.activeAgent)
    && (r in s.activeAgent ==> s'.activeAgent[r] == s.activeAgent[r])
    && (r in s'.activeCompaction <==> r in s.activeCompaction)
    && (r in s.activeCompaction ==> s'.activeCompaction[r] == s.activeCompaction[r])
    && (r in s'.agentStopped <==> r in s.agentStopped)
  }

  /** Outside `changed`, the two ledgers hold the same attempts, and only `run` changed what it waits on. */
  ghost predicate Touches(s: Ledger, s': Ledger, run: string, changed: set<string>) {
    && (forall id :: id in s'.prepared <==> id in s.prepared || id in changed)
    && (forall id :: id in s.prepared && id !in changed ==> s'.prepared[id] == s.prepared[id])
    && (forall r :: r != run ==> SameRun(s, s', r))
    && (ActiveId(s, run).Some? ==> ActiveId(s, run).value in changed)
    && (ActiveId(s', run).Some? ==> ActiveId(s', run).value in changed)
  }

  lemma KeepsAttempts(env: Env, s: Ledger, s': Ledger, run: string, changed: set<string>)
    requires AttemptsOk(env, s) && Touches(s, s', run, changed)
    requires forall id :: id in changed ==> AttemptOk(env, s', id)
    requires forall id :: id in s.prepared ==> (Attested(s, s.prepared[id]) ==> Attested(s', s.prepared[id]))
    ensures AttemptsOk(env, s')
  {
    forall id | id in s'.prepared ensures AttemptOk(env, s', id) {
      if id !in changed {
        var a := s.prepared[id];
        assert AttemptOk(env, s, id);
        assert a.runId != run ==> SameRun(s, s', a.runId);
      }
    }
  }

  lemma KeepsRuns(s: Ledger, s': Ledger, run: string, changed: set<string>)
    requires RunsOk(s) && Touches(s, s', run, changed) && RunOk(s', run)
    requires forall id :: id in changed && id in s.prepared ==>
      s'.prepared[id].runId == s.prepared[id].runId && s'.prepared[id].kind == s.prepared[id].kind
    ensures RunsOk(s')
  {
    forall r ensures RunOk(s', r) {
      assert RunOk(s, r);
      assert r != run ==> SameRun(s, s', r);
    }
  }

  /** Changing how far an attempt got leaves the count of an attestation alone. */
  lemma CountUnmoved(s: Ledger, s': Ledger, key: (string, string))
    requires forall x :: x in s'.prepared <==> x in s.prepared
    requires forall id :: id in s.prepared ==>
      s'.prepared[id].runId == s.prepared[id].runId && s'.prepared[id].compactionId == s.prepared[id].compactionId
    ensures CompactionAttempts(s', key) == CompactionAttempts(s, key)
  {
  }

  /** A new attempt counts for its own compaction and for no other. */
  lemma CountAdd(s: Ledger, s': Ledger, id: string, key: (string, string))
    requires id !in s.prepared && (forall x :: x in s'.prepared <==> x in s.prepared || x == id)
    requires forall x :: x in s.prepared ==>
      s'.prepared[x].runId == s.prepared[x].runId && s'.prepared[x].compactionId == s.prepared[x].compactionId
    ensures var own := s'.prepared[id].runId == key.0 && s'.prepared[id].compactionId == Some(key.1);
            CompactionAttempts(s', key) == CompactionAttempts(s, key) + if own then {id} else {}
  {
  }

  lemma KeepsAttestations(s: Ledger, s': Ledger, id: string)
    requires AttestationsOk(s)
    requires forall x :: x in s'.prepared <==> x in s.prepared || x == id
    requires forall x :: x in s.prepared ==>
      s'.prepared[x].runId == s.prepared[x].runId && s'.prepared[x].compactionId == s.prepared[x].compactionId
    requires id !in s.prepared ==> s'.prepared[id].compactionId.None?
    requires s'.compactions == s.compactions
    requires forall key :: key in s'.stoppedCompactions ==> key in s.compactions
    ensures AttestationsOk(s')
  {
    forall key | key in s'.compactions ensures Counted(s', key) {
      assert Counted(s, key);
      if id in s.prepared { CountUnmoved(s, s', key); } else { CountAdd(s, s', id, key); }
    }
  }

  // --- Every event keeps the invariant ------------------------------------------

  lemma AgentPreparedKeepsInv(env: Env, run: string, c: Cursor, stored: Stored)
    requires run in env.runs && Inv(env, c.ledger)
    requires stored.event.ModelRequestPrepared? && Step(env, run, c, stored).Ok?
    ensures Inv(env, Step(env, run, c, stored).value.ledger)
  {
    var s, s', id := c.ledger, Step(env, run, c, stored).value.ledger, stored.event.attemptId.value;
    KeepsAttempts(env, s, s', run, {id});
    KeepsRuns(s, s', run, {id});
    KeepsAttestations(s, s', id);
  }

  /** The active attempt of `run` moves to `state`, having gone in flight; no other attempt changes. */
  ghost predicate Advances(s: Ledger, s': Ledger, run: string, id: string, state: AttemptState) {
    && id in s.prepared && s.prepared[id].runId == run && ActiveId(s, run) == Some(id)
    && s'.prepared == s.prepared[id := s.prepared[id].(state := state, hadInFlight := true)]
    && (ActiveId(s', run) == Some(id) || ActiveId(s', run) == None)
    && (forall r :: r != run ==> SameRun(s, s', r))
    && s'.compactions == s.compactions
  }

  lemma AdvanceTouches(s: Ledger, s': Ledger, run: string, id: string, state: AttemptState)
    requires Advances(s, s', run, id, state)
    ensures Touches(s, s', run, {id})
  {
  }

  lemma AdvanceKeepsAttempts(env: Env, s: Ledger, s': Ledger, run: string, id: string, state: AttemptState)
    requires AttemptsOk(env, s) && Advances(s, s', run, id, state)
    requires if ActiveId(s', run).Some? then state == InFlight else state == FailedStopped || state == ResponseCommitted
    ensures AttemptsOk(env, s')
  {
    AdvanceTouches(s, s', run, id, state);
    assert AttemptOk(env, s, id);
    KeepsAttempts(env, s, s', run, {id});
  }

  lemma AdvanceKeepsRuns(s: Ledger, s': Ledger, run: string, id: string, state: AttemptState)
    requires RunsOk(s) && Advances(s, s', run, id, state) && RunOk(s', run)
    ensures RunsOk(s')
  {
    AdvanceTouches(s, s', run, id, state);
    KeepsRuns(s, s', run, {id});
  }

  lemma AdvanceKeepsAttestations(s: Ledger, s': Ledger, run: string, id: string, state: AttemptState)
    requires AttestationsOk(s) && Advances(s, s', run, id, state)
    requires forall key :: key in s'.stoppedCompactions ==> key in s.compactions
    ensures AttestationsOk(s')
  {
    KeepsAttestations(s, s', id);
  }

  lemma AdvanceKeepsInv(env: Env, s: Ledger, s': Ledger, run: string, id: string, state: AttemptState)
    requires Inv(env, s) && Advances(s, s', run, id, state) && RunOk(s', run)
    requires if ActiveId(s', run).Some? then state == InFlight else state == FailedStopped || state == ResponseCommitted
    requires forall key :: key in s'.stoppedCompactions ==> key in s.compactions
    ensures Inv(env, s')
  {
    AdvanceKeepsAttempts(env, s, s', run, id, state);
    AdvanceKeepsRuns(s, s', run, id, state);
    AdvanceKeepsAttestations(s, s', run, id, state);
  }

  /** Moving the active attempt from prepared to in flight. */
  lemma InFlightKeepsInv(env: Env, s: Ledger, run: string, id: string)
    requires Inv(env, s) && id in s.prepared && s.prepared[id].runId == run && ActiveId(s, run) == Some(id)
    ensures Inv(env, SetInFlight(s, id))
  {
    assert RunOk(s, run);
    AdvanceKeepsInv(env, s, SetInFlight(s, id), run, id, InFlight);
  }

  /** The active attempt of a run, in flight, is settled and the run released. */
  ghost predicate Settles(s: Ledger, s': Ledger, run: string, id: string, state: AttemptState) {
    && id in s.prepared && s.prepared[id].runId == run && ActiveId(s, run) == Some(id)
    && s.prepared[id].state == InFlight && (state == FailedStopped || state == ResponseCommitted)
    && s'.prepared == s.prepared[id := s.prepared[id].(state := state)]
    && run !in s'.activeAgent && run !in s'.activeCompaction
    && (forall r :: r != run ==> SameRun(s, s', r))
    && s'.compactions == s.compactions
    && (forall key :: key in s'.stoppedCompactions ==> key in s.stoppedCompactions || key in s.compactions)
  }

  /** Settling the active attempt of a run and releasing the run. */
  lemma SettleKeepsInv(env: Env, s: Ledger, run: string, id: string, state: AttemptState, s': Ledger)
    requires Inv(env, s) && Settles(s, s', run, id, state)
    ensures Inv(env, s')
  {
    assert AttemptOk(env, s, id);
    AdvanceKeepsInv(env, s, s', run, id, state);
  }

  lemma AgentStopSettles(env: Env, run: string, c: Cursor, stored: Stored)
    requires run in env.runs && RunOk(c.ledger, run) && Step(env, run, c, stored).Ok?
    requires stored.event.ModelRequestFailed? && stored.event.retry == Some(StopRetrying)
    ensures stored.event.attemptId.Some?
    ensures Settles(c.ledger, Step(env, run, c, stored).value.ledger, run, stored.event.attemptId.value, FailedStopped)
  {
  }

  lemma AgentCommitSettles(env: Env, run: string, c: Cursor, stored: Stored)
    requires run in env.runs && RunOk(c.ledger, run) && Step(env, run, c, stored).Ok?
    requires stored.event.ModelResponseCommitted?
    ensures stored.event.attemptId.Some?
    ensures Settles(c.ledger, Step(env, run, c, stored).value.ledger,
                    run, stored.event.attemptId.value, ResponseCommitted)
  {
  }

  lemma CompactionStopSettles(env: Env, run: string, c: Cursor, stored: Stored)
    requires run in env.runs && RunOk(c.ledger, run) && Step(env, run, c, stored).Ok?
    requires stored.event.CompactionAttemptFailed? && stored.event.retry == Some(StopRetrying)
    ensures stored.event.attemptId.Some?
    ensures Settles(c.ledger, Step(env, run, c, stored).value.ledger, run, stored.event.attemptId.value, FailedStopped)
  {
  }

  lemma CompactionCommitSettles(env: Env, run: string, c: Cursor, stored: Stored)
    requires run in env.runs && RunOk(c.ledger, run) && Step(env, run, c, stored).Ok?
    requires stored.event.CompactionCommitted? && stored.event.hasOutput
    ensures run in c.ledger.activeCompaction
    ensures Settles(c.ledger, Step(env, run, c, stored).value.ledger,
                    run, c.ledger.activeCompaction[run], ResponseCommitted)
  {
  }

  /** A retry settles the active attempt and makes a fresh one of the same kind active in its place. */
  ghost predicate Retries(env: Env, s: Ledger, s': Ledger, run: string, id: string, newId: string) {
    && id in s.prepared && newId !in s.prepared && newId in s'.prepared && newId != ""
    && var a, next := s.prepared[id], s'.prepared[newId];
       && a.runId == run && a.state == InFlight && ActiveId(s, run) == Some(id)
       && next.runId == run && next.kind == a.kind && next.compactionId == a.compactionId
       && next.state == Prepared && !next.hadInFlight && Faithful(env, next) && Attested(s', next)
       && s'.prepared == s.prepared[newId := next][id := a.(state := FailedRetryPrepared)]
       && ActiveId(s', run) == Some(newId) && RunOk(s', run)
       && (forall r :: r != run ==> SameRun(s, s', r))
  }

  lemma RetryTouches(env: Env, s: Ledger, s': Ledger, run: string, id: string, newId: string)
    requires Retries(env, s, s', run, id, newId)
    ensures Touches(s, s', run, {id, newId})
  {
  }

  lemma RetryKeepsAttempts(env: Env, s: Ledger, s': Ledger, run: string, id: string, newId: string)
    requires AttemptsOk(env, s) && Retries(env, s, s', run, id, newId)
    requires forall x :: x in s.prepared ==> (Attested(s, s.prepared[x]) ==> Attested(s', s.prepared[x]))
    ensures AttemptsOk(env, s')
  {
    RetryTouches(env, s, s', run, id, newId);
    assert AttemptOk(env, s, id);
    assert AttemptOk(env, s', newId) && AttemptOk(env, s', id);
    KeepsAttempts(env, s, s', run, {id, newId});
  }

  lemma RetryKeepsRuns(env: Env, s: Ledger, s': Ledger, run: string, id: string, newId: string)
    requires RunsOk(s) && Retries(env, s, s', run, id, newId)
    ensures RunsOk(s')
  {
    RetryTouches(env, s, s', run, id, newId);
    KeepsRuns(s, s', run, {id, newId});
  }

  lemma AgentRetryShape(env: Env, run: string, c: Cursor, stored: Stored, plan: RetryPlan)
    requires run in env.runs && stored.event.ModelRequestFailed? && Step(env, run, c, stored).Ok?
    requires stored.event.retry == Some(RetryWith(Some(plan))) && RunOk(c.ledger, run)
    requires AttemptOk(env, c.ledger, stored.event.attemptId.value)
    ensures var s' := Step(env, run, c, stored).value.ledger;
            && plan.attemptId.Some?
            && Retries(env, c.ledger, s', run, stored.event.attemptId.value, plan.attemptId.value)
            && s'.compactions == c.ledger.compactions && s'.stoppedCompactions == c.ledger.stoppedCompactions
  {
  }

  lemma AgentFailedKeepsInv(env: Env, run: string, c: Cursor, stored: Stored)
    requires run in env.runs && Inv(env, c.ledger)
    requires stored.event.ModelRequestFailed? && Step(env, run, c, stored).Ok?
    ensures Inv(env, Step(env, run, c, stored).value.ledger)
  {
    var s, s' := c.ledger, Step(env, run, c, stored).value.ledger;
    var id := stored.event.attemptId.value;
    assert AttemptOk(env, s, id) && RunOk(s, run);
    match stored.event.retry
    case Some(RetryWith(Some(plan))) =>
      AgentRetryShape(env, run, c, stored, plan);
      AgentRetryKeepsInv(env, s, s', run, id, plan.attemptId.value);
    case Some(StopRetrying) =>
      AgentStopSettles(env, run, c, stored);
      SettleKeepsInv(env, s, run, id, FailedStopped, s');
  }

  lemma AgentRetryKeepsInv(env: Env, s: Ledger, s': Ledger, run: string, id: string, newId: string)
    requires Inv(env, s) && Retries(env, s, s', run, id, newId) && s.prepared[id].compactionId.None?
    requires s'.compactions == s.compactions && s'.stoppedCompactions == s.stoppedCompactions
    ensures Inv(env, s')
  {
    RetryKeepsAttempts(env, s, s', run, id, newId);
    RetryKeepsRuns(env, s, s', run, id, newId);
    AgentRetryKeepsAttestations(env, s, s', run, id, newId);
  }

  lemma AgentRetryKeepsAttestations(env: Env, s: Ledger, s': Ledger, run: string, id: string, newId: string)
    requires AttestationsOk(s) && Retries(env, s, s', run, id, newId) && s.prepared[id].compactionId.None?
    requires s'.compactions == s.compactions && s'.stoppedCompactions == s.stoppedCompactions
    ensures AttestationsOk(s')
  {
    KeepsAttestations(s, s', newId);
  }

  /** The first attempt of a compaction becomes the active attempt of its run, and an attestation starts. */
  ghost predicate Starts(env: Env, s: Ledger, s': Ledger, id: string, key: (string, string)) {
    && id !in s.prepared && id in s'.prepared && key !in s.compactions && key in s'.compactions
    && var a, att := s'.prepared[id], s'.compactions[key];
       && a.runId == key.0 && a.compactionId == Some(key.1)
       && s'.prepared == s.prepared[id := a] && AttemptOk(env, s', id)
       && s'.compactions == s.compactions[key := att] && att.preparedAttemptCount == 1 && att.retryCount == 0
       && s'.stoppedCompactions == s.stoppedCompactions
       && Touches(s, s', key.0, {id}) && RunOk(s', key.0)
  }

  lemma CompactionStarts(env: Env, run: string, c: Cursor, stored: Stored)
    requires run in env.runs && stored.event.CompactionPrepared? && Step(env, run, c, stored).Ok?
    requires RunOk(c.ledger, run)
    ensures stored.event.attemptId.Some? && stored.event.compactionId.Some?
    ensures Starts(env, c.ledger, Step(env, run, c, stored).value.ledger,
                   stored.event.attemptId.value, (run, stored.event.compactionId.value))
  {
  }

  lemma StartKeepsAttestations(env: Env, s: Ledger, s': Ledger, id: string, key: (string, string))
    requires AttemptsOk(env, s) && AttestationsOk(s) && Starts(env, s, s', id, key)
    ensures AttestationsOk(s')
  {
    forall k | k in s'.compactions ensures Counted(s', k) {
      CountAdd(s, s', id, k);
      if k == key { NoAttemptsBefore(env, s, key); } else { assert Counted(s, k); }
    }
  }

  lemma CompactionPreparedKeepsInv(env: Env, run: string, c: Cursor, stored: Stored)
    requires run in env.runs && Inv(env, c.ledger)
    requires stored.event.CompactionPrepared? && Step(env, run, c, stored).Ok?
    ensures Inv(env, Step(env, run, c, stored).value.ledger)
  {
    assert RunOk(c.ledger, run);
    CompactionStarts(env, run, c, stored);
    StartKeepsInv(env, c.ledger, Step(env, run, c, stored).value.ledger,
                  stored.event.attemptId.value, (run, stored.event.compactionId.value));
  }

  lemma StartKeepsInv(env: Env, s: Ledger, s': Ledger, id: string, key: (string, string))
    requires Inv(env, s) && Starts(env, s, s', id, key)
    ensures Inv(env, s')
  {
    KeepsAttempts(env, s, s', key.0, {id});
    KeepsRuns(s, s', key.0, {id});
    StartKeepsAttestations(env, s, s', id, key);
  }

  lemma NoAttemptsBefore(env: Env, s: Ledger, key: (string, string))
    requires AttemptsOk(env, s) && key !in s.compactions
    ensures CompactionAttempts(s, key) == {}
  {
    forall x | x in s.prepared ensures x !in CompactionAttempts(s, key) {
      assert AttemptOk(env, s, x);
    }
  }

  lemma CompactionRetryShape(env: Env, run: string, c: Cursor, stored: Stored, plan: RetryPlan)
    requires run in env.runs && stored.event.CompactionAttemptFailed? && Step(env, run, c, stored).Ok?
    requires stored.event.retry == Some(RetryWith(Some(plan))) && RunOk(c.ledger, run)
    requires AttemptOk(env, c.ledger, stored.event.attemptId.value)
    ensures var s, s' := c.ledger, Step(env, run, c, stored).value.ledger;
            && plan.attemptId.Some? && stored.event.compactionId.Some?
            && Retries(env, s, s', run, stored.event.attemptId.value, plan.attemptId.value)
            && s'.stoppedCompactions == s.stoppedCompactions
            && s.prepared[stored.event.attemptId.value].compactionId == stored.event.compactionId
            && OneMoreAttempt(s, s', (run, stored.event.compactionId.value))
  {
  }

  ghost predicate OneMoreAttempt(s: Ledger, s': Ledger, key: (string, string)) {
    && key in s.compactions
    && var att := s.compactions[key];
       s'.compactions == s.compactions[key := att.(preparedAttemptCount := att.preparedAttemptCount + 1,
                                                   retryCount := att.retryCount + 1)]
  }

  lemma OneMoreKeepsAttested(s: Ledger, s': Ledger, key: (string, string), a: Attempt)
    requires OneMoreAttempt(s, s', key) && Attested(s, a)
    ensures Attested(s', a)
  {
  }

  lemma CompactionRetryKeepsInv(env: Env, s: Ledger, s': Ledger, run: string, id: string, newId: string, cid: string)
    requires Inv(env, s) && Retries(env, s, s', run, id, newId) && s.prepared[id].compactionId == Some(cid)
    requires OneMoreAttempt(s, s', (run, cid)) && s'.stoppedCompactions == s.stoppedCompactions
    ensures Inv(env, s')
  {
    forall x | x in s.prepared && Attested(s, s.prepared[x]) ensures Attested(s', s.prepared[x]) {
      OneMoreKeepsAttested(s, s', (run, cid), s.prepared[x]);
    }
    RetryKeepsAttempts(env, s, s', run, id, newId);
    RetryKeepsRuns(env, s, s', run, id, newId);
    RetryIsCounted(env, s, s', run, id, newId, cid);
  }

  lemma RetryIsCounted(env: Env, s: Ledger, s': Ledger, run: string, id: string, newId: string, cid: string)
    requires AttestationsOk(s) && Retries(env, s, s', run, id, newId) && s.prepared[id].compactionId == Some(cid)
    requires OneMoreAttempt(s, s', (run, cid)) && s'.stoppedCompactions == s.stoppedCompactions
    ensures AttestationsOk(s')
  {
    forall k | k in s'.compactions ensures Counted(s', k) {
      assert Counted(s, k);
      CountAdd(s, s', newId, k);
    }
  }

  lemma CompactionRetriedKeepsInv(env: Env, run: string, c: Cursor, stored: Stored, plan: RetryPlan)
    requires run in env.runs && Inv(env, c.ledger)
    requires stored.event.CompactionAttemptFailed? && Step(env, run, c, stored).Ok?
    requires stored.event.retry == Some(RetryWith(Some(plan)))
    ensures Inv(env, Step(env, run, c, stored).value.ledger)
  {
    var s, s' := c.ledger, Step(env, run, c, stored).value.ledger;
    var id := stored.event.attemptId.value;
    assert AttemptOk(env, s, id) && RunOk(s, run);
    CompactionRetryShape(env, run, c, stored, plan);
    CompactionRetryKeepsInv(env, s, s', run, id, plan.attemptId.value, stored.event.compactionId.value);
  }

  lemma CompactionStoppedKeepsInv(env: Env, run: string, c: Cursor, stored: Stored)
    requires run in env.runs && Inv(env, c.ledger)
    requires stored.event.CompactionAttemptFailed? && Step(env, run, c, stored).Ok?
    requires stored.event.retry == Some(StopRetrying)
    ensures Inv(env, Step(env, run, c, stored).value.ledger)
  {
    var s, s' := c.ledger, Step(env, run, c, stored).value.ledger;
    assert RunOk(s, run);
    CompactionStopSettles(env, run, c, stored);
    SettleKeepsInv(env, s, run, stored.event.attemptId.value, FailedStopped, s');
  }

  lemma CompactionFailedKeepsInv(env: Env, run: string, c: Cursor, stored: Stored)
    requires run in env.runs && Inv(env, c.ledger)
    requires stored.event.CompactionAttemptFailed? && Step(env, run, c, stored).Ok?
    ensures Inv(env, Step(env, run, c, stored).value.ledger)
  {
    match stored.event.retry
    case Some(RetryWith(Some(plan))) => CompactionRetriedKeepsInv(env, run, c, stored, plan);
    case Some(StopRetrying) => CompactionStoppedKeepsInv(env, run, c, stored);
  }

  lemma StepInFlightKeepsInv(env: Env, run: string, c: Cursor, stored: Stored)
    requires run in env.runs && Inv(env, c.ledger) && Step(env, run, c, stored).Ok?
    requires stored.event.ModelRequestInFlight? || stored.event.CompactionInFlight?
    ensures Inv(env, Step(env, run, c, stored).value.ledger)
  {
    assert RunOk(c.ledger, run);
    InFlightKeepsInv(env, c.ledger, run, stored.event.attemptId.value);
  }

  lemma AgentCommittedKeepsInv(env: Env, run: string, c: Cursor, stored: Stored)
    requires run in env.runs && Inv(env, c.ledger) && Step(env, run, c, stored).Ok?
    requires stored.event.ModelResponseCommitted?
    ensures Inv(env, Step(env, run, c, stored).value.ledger)
  {
    var s, s' := c.ledger, Step(env, run, c, stored).value.ledger;
    assert RunOk(s, run);
    AgentCommitSettles(env, run, c, stored);
    SettleKeepsInv(env, s, run, stored.event.attemptId.value, ResponseCommitted, s');
  }

  lemma CompactionCommittedKeepsInv(env: Env, run: string, c: Cursor, stored: Stored)
    requires run in env.runs && Inv(env, c.ledger) && Step(env, run, c, stored).Ok?
    requires stored.event.CompactionCommitted?
    ensures Inv(env, Step(env, run, c, stored).value.ledger)
  {
    var s, s' := c.ledger, Step(env, run, c, stored).value.ledger;
    assert RunOk(s, run);
    if stored.event.hasOutput {
      CompactionCommitSettles(env, run, c, stored);
      SettleKeepsInv(env, s, run, s.activeCompaction[run], ResponseCommitted, s');
    }
  }

  lemma StepKeepsInv(env: Env, run: string, c: Cursor, stored: Stored)
    requires run in env.runs && Inv(env, c.ledger) && Step(env, run, c, stored).Ok?
    ensures Inv(env, Step(env, run, c, stored).value.ledger)
  {
    match stored.event
    case ModelRequestPrepared(_, _) => AgentPreparedKeepsInv(env, run, c, stored);
    case ModelRequestInFlight(_) => StepInFlightKeepsInv(env, run, c, stored);
    case ModelRequestFailed(_, _) => AgentFailedKeepsInv(env, run, c, stored);
    case ModelResponseCommitted(_) => AgentCommittedKeepsInv(env, run, c, stored);
    case CompactionPrepared(_, _, _) => CompactionPreparedKeepsInv(env, run, c, stored);
    case CompactionInFlight(_, _) => StepInFlightKeepsInv(env, run, c, stored);
    case CompactionAttemptFailed(_, _, _) => CompactionFailedKeepsInv(env, run, c, stored);
    case CompactionCommitted(_, _) => CompactionCommittedKeepsInv(env, run, c, stored);
    case _ =>
  }
}
