/** The ledger loop as it runs: tables updated in place, one stored event at a time. */
module LedgerReplay {
  import opened Basics
  import opened LedgerModel

  class Replay {
    var prepared: map<string, Attempt>
    var activeAgent: map<string, string>
    var activeCompaction: map<string, string>
    var compactions: map<(string, string), Attestation>
    var agentStopped: set<string>
    var stoppedCompactions: set<(string, string)>

    function Tables(): Ledger
      reads this
    {
      Ledger(prepared, activeAgent, activeCompaction, compactions, agentStopped, stoppedCompactions)
    }

    constructor ()
      ensures Tables() == EmptyLedger
    {
      prepared, activeAgent, activeCompaction := map[], map[], map[];
      compactions, agentStopped, stoppedCompactions := map[], {}, {};
    }

    /** The tables after a step are those of the specification; a rejected step reports its code. */
    ghost predicate Follows(want: Result<Cursor, Code>, r: Result<int, Code>)
      reads this
    {
      match want
      case Ok(c) => r == Ok(c.lastAgentNumber) && Tables() == c.ledger
      case Err(code) => r == Err(code)
    }

    method ApplyAgent(env: Env, run: string, last: int, stored: Stored) returns (r: Result<int, Code>)
      requires run in env.runs
      requires stored.event.ModelRequestPrepared? || stored.event.ModelRequestInFlight?
            || stored.event.ModelRequestFailed? || stored.event.ModelResponseCommitted?
      modifies this
      ensures Follows(Step(env, run, Cursor(old(Tables()), last), stored), r)
    {
      var e := stored.event;
      if e.ModelRequestPrepared? {
        if run in activeAgent || run in activeCompaction || run in agentStopped {
          return Err(RequestLedgerInvalid);
        }
        var a :- PrepareAttempt(env, Tables(), run, stored.sequence, e.attemptId, e.request, AgentRequest, None, None);
        prepared := prepared[e.attemptId.value := a];
        if a.requestNumber != last + 1 { return Err(RequestLedgerInvalid); }
        activeAgent := activeAgent[run := e.attemptId.value];
        return Ok(a.requestNumber);
      }
      if e.ModelRequestInFlight? {
        if !ActiveIn(Tables(), activeAgent, run, e.attemptId, AgentRequest, Prepared) {
          return Err(AttemptOrderInvalid);
        }
        var id := e.attemptId.value;
        prepared := prepared[id := prepared[id].(state := InFlight, hadInFlight := true)];
        return Ok(last);
      }
      if e.ModelResponseCommitted? {
        if !ActiveIn(Tables(), activeAgent, run, e.attemptId, AgentRequest, InFlight) {
          return Err(AttemptOrderInvalid);
        }
        var id := e.attemptId.value;
        prepared := prepared[id := prepared[id].(state := ResponseCommitted)];
        activeAgent := activeAgent - {run};
        return Ok(last);
      }
      if !ActiveIn(Tables(), activeAgent, run, e.attemptId, AgentRequest, InFlight) {
        return Err(RetryCausalityInvalid);
      }
      var id := e.attemptId.value;
      var a := prepared[id];
      match e.retry {
        case Some(RetryWith(Some(plan))) =>
          var next :- PrepareAttempt(env, Tables(), run, stored.sequence, plan.attemptId, plan.request,
                                     AgentRequest, None, Some(a));
          prepared := prepared[plan.attemptId.value := next];
          prepared := prepared[id := a.(state := FailedRetryPrepared)];
          activeAgent := activeAgent[run := plan.attemptId.value];
          if !SamePrompt(next.prompt, a.prompt.orderedBlocks, a.prompt.wire) {
            return Err(RetryCausalityInvalid);
          }
        case Some(StopRetrying) =>
          prepared := prepared[id := a.(state := FailedStopped)];
          activeAgent := activeAgent - {run};
          agentStopped := agentStopped + {run};
        case _ => return Err(RetryCausalityInvalid);
      }
      r := Ok(last);
    }

    method ApplyCompactionStart(env: Env, run: string, last: int, stored: Stored) returns (r: Result<int, Code>)
      requires run in env.runs && (stored.event.CompactionPrepared? || stored.event.CompactionInFlight?)
      modifies this
      ensures Follows(Step(env, run, Cursor(old(Tables()), last), stored), r)
    {
      var e := stored.event;
      if e.CompactionPrepared? {
        if run in activeAgent || run in activeCompaction || !IsId(e.compactionId)
           || (run, e.compactionId.value) in compactions || (run, e.compactionId.value) in stoppedCompactions
           || run in agentStopped {
          return Err(CompactionCausalityInvalid);
        }
        var a :- PrepareAttempt(env, Tables(), run, stored.sequence, e.attemptId, e.request, ContextCompaction,
                                e.compactionId, None);
        prepared := prepared[e.attemptId.value := a];
        activeCompaction := activeCompaction[run := e.attemptId.value];
        compactions := compactions[(run, e.compactionId.value) :=
                                   Attestation(a.prompt.orderedBlocks, a.prompt.wire, 1, 0)];
        return Ok(last);
      }
      if !ActiveIn(Tables(), activeCompaction, run, e.attemptId, ContextCompaction, Prepared)
         || prepared[e.attemptId.value].compactionId != e.compactionId {
        return Err(AttemptOrderInvalid);
      }
      var id := e.attemptId.value;
      prepared := prepared[id := prepared[id].(state := InFlight, hadInFlight := true)];
      r := Ok(last);
    }

    method ApplyCompactionEnd(env: Env, run: string, last: int, stored: Stored) returns (r: Result<int, Code>)
      requires run in env.runs && stored.event.CompactionCommitted?
      modifies this
      ensures Follows(Step(env, run, Cursor(old(Tables()), last), stored), r)
    {
      var e := stored.event;
      if !IsId(e.compactionId) { return Err(CompactionCausalityInvalid); }
      if (run, e.compactionId.value) !in compactions {
        if e.hasOutput || run in activeAgent || run in activeCompaction || run in agentStopped {
          return Err(CompactionCausalityInvalid);
        }
        return Ok(last);
      }
      if !e.hasOutput { return Err(CompactionCausalityInvalid); }
      var id := Get(activeCompaction, run);
      var a := Lookup(prepared, id);
      if a.None? || a.value.kind != ContextCompaction || a.value.compactionId != e.compactionId
         || a.value.state != InFlight {
        return Err(CompactionCausalityInvalid);
      }
      prepared := prepared[id.value := a.value.(state := ResponseCommitted)];
      activeCompaction := activeCompaction - {run};
      r := Ok(last);
    }

    method ApplyCompactionFailure(env: Env, run: string, last: int, stored: Stored) returns (r: Result<int, Code>)
      requires run in env.runs && stored.event.CompactionAttemptFailed?
      modifies this
      ensures Follows(Step(env, run, Cursor(old(Tables()), last), stored), r)
    {
      var e := stored.event;
      if !ActiveIn(Tables(), activeCompaction, run, e.attemptId, ContextCompaction, InFlight)
         || prepared[e.attemptId.value].compactionId != e.compactionId
         || e.compactionId.None? || (run, e.compactionId.value) !in compactions {
        return Err(CompactionCausalityInvalid);
      }
      var id, key := e.attemptId.value, (run, e.compactionId.value);
      var a, att := prepared[id], compactions[key];
      match e.retry {
        case Some(RetryWith(Some(plan))) =>
          var next :- PrepareAttempt(env, Tables(), run, stored.sequence, plan.attemptId, plan.request,
                                     ContextCompaction, e.compactionId, Some(a));
          prepared := prepared[plan.attemptId.value := next];
          if !SamePrompt(next.prompt, att.orderedBlocks, att.wire) { return Err(CompactionPromptRetryMismatch); }
          prepared := prepared[id := a.(state := FailedRetryPrepared)];
          activeCompaction := activeCompaction[run := plan.attemptId.value];
          compactions := compactions[key := att.(preparedAttemptCount := att.preparedAttemptCount + 1,
                                                 retryCount := att.retryCount + 1)];
        case Some(StopRetrying) =>
          prepared := prepared[id := a.(state := FailedStopped)];
          activeCompaction := activeCompaction - {run};
          stoppedCompactions := stoppedCompactions + {key};
        case _ => return Err(CompactionCausalityInvalid);
      }
      r := Ok(last);
    }

    method Apply(env: Env, run: string, last: int, stored: Stored) returns (r: Result<int, Code>)
      requires run in env.runs
      modifies this
      ensures Follows(Step(env, run, Cursor(old(Tables()), last), stored), r)
    {
      match stored.event {
        case Terminal =>
          r := if run in activeAgent || run in activeCompaction then Err(RequestLedgerInvalid) else Ok(last);
        case RunCreated => r := Ok(last);
        case OtherEvent => r := Ok(last);
        case ModelRequestPrepared(_, _) => r := ApplyAgent(env, run, last, stored);
        case ModelRequestInFlight(_) => r := ApplyAgent(env, run, last, stored);
        case ModelRequestFailed(_, _) => r := ApplyAgent(env, run, last, stored);
        case ModelResponseCommitted(_) => r := ApplyAgent(env, run, last, stored);
        case CompactionPrepared(_, _, _) => r := ApplyCompactionStart(env, run, last, stored);
        case CompactionInFlight(_, _) => r := ApplyCompactionStart(env, run, last, stored);
        case CompactionAttemptFailed(_, _, _) => r := ApplyCompactionFailure(env, run, last, stored);
        case CompactionCommitted(_, _) => r := ApplyCompactionEnd(env, run, last, stored);
      }
    }

    /** The two nested loops over runs and stored events. */
    method ReplayAll(env: Env, runs: seq<Run>) returns (r: Result<(), Code>)
      requires KnownRuns(env, runs)
      modifies this
      ensures match ReplayRuns(env, runs, old(Tables()))
              case Ok(s) => r == Ok(()) && Tables() == s
              case Err(code) => r == Err(code)
    {
      ghost var want := ReplayRuns(env, runs, Tables());
      for i := 0 to |runs|
        invariant want == ReplayRuns(env, runs[i..], Tables())
      {
        var run, events, last := runs[i].id, runs[i].events, 0;
        ghost var runWant := ReplayEvents(env, run, Cursor(Tables(), 0), events[1..]);
        for j := 1 to |events|
          invariant runWant == ReplayEvents(env, run, Cursor(Tables(), last), events[j..])
        {
          assert events[j..][1..] == events[j + 1..];
          last :- Apply(env, run, last, events[j]);
        }
        assert runs[i..][1..] == runs[i + 1..];
      }
      r := Ok(());
    }
  }

  /** The whole evidence check on fresh tables. */
  method AcceptRuns(env: Env, runs: seq<Run>, reported: Reported) returns (r: Result<Ledger, Code>)
    requires KnownRuns(env, runs)
    ensures r == AcceptLedger(env, runs, reported)
  {
    var replay := new Replay();
    var _ :- replay.ReplayAll(env, runs);
    var s := replay.Tables();
    var _ :- CheckClosed(env, s);
    var _ :- CheckCounts(env, s, reported);
    r := Ok(s);
  }
}
