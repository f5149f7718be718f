/** Which code a rejected event ledger gets: that of its first event that does not fit. */
module EditCodes {
  import opened Basics
  import opened EditModel
  import opened EditProjection
  import opened EditLanguage

  // --- What is wrong with an event ----------------------------------------------------

  /** What is wrong with an outcome: a missing record, a wrong code or retry, an unknown code, an unknown axis. */
  predicate OutcomeFault(outcome: Option<Outcome>, code: Code) {
    if outcome.None? then code == ToolOutcomeShapeInvalid
    else
      var o := outcome.value;
      if OutcomeSuccess(o) && o.failureCode != NoCode then code == SuccessfulOutcomeHasFailureCode
      else if OutcomeSuccess(o) && o.retry != NotNeeded then code == SuccessfulOutcomeRetryInvalid
      else if !OutcomeSuccess(o) && !o.failureCode.Known? then code == UnsuccessfulOutcomeMissingFailureCode
      else code == ToolOutcomeAxesInvalid
  }

  lemma OutcomeCode(outcome: Option<Outcome>, code: Code)
    ensures ValidateOutcome(outcome) == Err(code) <==> !ValidOutcome(outcome) && OutcomeFault(outcome, code)
  {
  }

  /** What is wrong with settling an operation that is prepared, settled, prepared as named, started or not. */
  predicate SettlingFault(
    known: bool, settled: bool, named: bool, started: bool, outcome: Option<Outcome>, code: Code)
  {
    if !known then code == ToolOutcomeWithoutPrepared
    else if settled then code == DuplicateToolOutcome
    else if !named then code == ToolOutcomeIdentityMismatch
    else if !ValidOutcome(outcome) then OutcomeFault(outcome, code)
    else if started then !Begun(outcome.value) && code == StartedToolOutcomeInvalid
    else Effective(outcome.value) && code == ToolOutcomeMissingStarted
  }

  /** What is wrong with event `m`, by the code it gets. */
  ghost predicate Fault(events: seq<Stored>, m: int, code: Code)
    requires 1 <= m <= |events| && events[m - 1].event.Some?
  {
    match events[m - 1].event.value
    case ToolPrepared(id, invocation, _) =>
      if !Nonempty(id) then code == ToolOperationIdInvalid
      else if WasPrepared(events, m, id.value) then code == DuplicateToolPrepared
      else !InvocationOk(invocation, events[m - 1].runId) && code == ToolPreparedInvocationInvalid
    case ToolStarted(id) =>
      if !Nonempty(id) || !WasPrepared(events, m, id.value) then code == ToolStartedWithoutPrepared
      else WasStarted(events, m, id.value) && code == DuplicateToolStarted
    case ToolOutcome(id, callId, name, outcome, _) =>
      if !Nonempty(id) then code == ToolOutcomeWithoutPrepared
      else
        var op := id.value;
        SettlingFault(WasPrepared(events, m, op), WasCommitted(events, m, op),
                      WasPreparedAs(events, m, op, callId, name), WasStarted(events, m, op), outcome, code)
    case _ => false
  }

  // --- One event ------------------------------------------------------------------------

  lemma PreparedCode(events: seq<Stored>, f: Facts, code: Code)
    requires events != [] && Enveloped(events) && FactsMatch(events[..|events| - 1], f)
    requires events[|events| - 1].event.value.ToolPrepared?
    ensures Step(f, events[|events| - 1]) == Err(code) <==> Fault(events, |events|, code)
  {
    var e := events[|events| - 1].event.value;
    if e.operationId.Some? { LookedUp(events, f, e.operationId.value); }
  }

  lemma StartedCode(events: seq<Stored>, f: Facts, code: Code)
    requires events != [] && Enveloped(events) && FactsMatch(events[..|events| - 1], f)
    requires events[|events| - 1].event.value.ToolStarted?
    ensures Step(f, events[|events| - 1]) == Err(code) <==> Fault(events, |events|, code)
  {
    var e := events[|events| - 1].event.value;
    assert events[|events| - 1].sequence == Some(|events|);
    if e.operationId.Some? {
      LookedUp(events, f, e.operationId.value);
      EntriesEarlier(events, f, e.operationId.value);
    }
  }

  lemma SettlingCode(f: Facts, n: int, e: Event, code: Code)
    requires e.ToolOutcome? && Nonempty(e.operationId)
    requires var op := e.operationId.value;
             && (op in f.prepared ==> f.prepared[op].sequence < n)
             && (op in f.started ==> op in f.prepared && f.prepared[op].sequence < f.started[op] < n)
    ensures var op := e.operationId.value;
            var named := op in f.prepared && f.prepared[op].invocation.callId == e.callId
                         && f.prepared[op].invocation.name == e.name;
            OnOutcome(f, n, e) == Err(code) <==>
              SettlingFault(op in f.prepared, op in f.committed, named, op in f.started, e.outcome, code)
  {
    OutcomeIff(e.outcome);
    OutcomeCode(e.outcome, code);
  }

  /** The same fault, looked up in the dictionaries. */
  lemma SettlingLookedUp(events: seq<Stored>, f: Facts, code: Code)
    requires events != [] && Enveloped(events) && FactsMatch(events[..|events| - 1], f)
    requires events[|events| - 1].event.value.ToolOutcome? && Nonempty(events[|events| - 1].event.value.operationId)
    ensures var e := events[|events| - 1].event.value;
            var op := e.operationId.value;
            var named := op in f.prepared && f.prepared[op].invocation.callId == e.callId
                         && f.prepared[op].invocation.name == e.name;
            Fault(events, |events|, code) <==>
              SettlingFault(op in f.prepared, op in f.committed, named, op in f.started, e.outcome, code)
  {
    var e := events[|events| - 1].event.value;
    LookedUp(events, f, e.operationId.value);
    LookedUpAs(events, f, e.operationId.value, e.callId, e.name);
  }

  lemma OutcomeEventCode(events: seq<Stored>, f: Facts, code: Code)
    requires events != [] && Enveloped(events) && FactsMatch(events[..|events| - 1], f) && StartsFollow(f)
    requires events[|events| - 1].event.value.ToolOutcome?
    ensures Step(f, events[|events| - 1]) == Err(code) <==> Fault(events, |events|, code)
  {
    var e := events[|events| - 1].event.value;
    assert events[|events| - 1].sequence == Some(|events|);
    if Nonempty(e.operationId) {
      SettlingLookedUp(events, f, code);
      EntriesEarlier(events, f, e.operationId.value);
      SettlingCode(f, |events|, e, code);
    }
  }

  lemma StepCode(events: seq<Stored>, f: Facts, code: Code)
    requires events != [] && Enveloped(events) && FactsMatch(events[..|events| - 1], f) && StartsFollow(f)
    ensures Step(f, events[|events| - 1]) == Err(code) <==> Fault(events, |events|, code)
  {
    match events[|events| - 1].event.value
    case ToolPrepared(_, _, _) => PreparedCode(events, f, code);
    case ToolStarted(_) => StartedCode(events, f, code);
    case ToolOutcome(_, _, _, _, _) => OutcomeEventCode(events, f, code);
    case _ =>
  }

  // --- The whole ledger --------------------------------------------------------------------

  ghost predicate FitBefore(events: seq<Stored>, m: int)
    requires Enveloped(events) && m <= |events| + 1
  {
    forall k :: 1 <= k < m ==> EventOk(events, k)
  }

  /** Events before `m` all fit, and event `m` does not, with this code. */
  ghost predicate FirstFault(events: seq<Stored>, m: int, code: Code)
    requires Enveloped(events)
  {
    1 <= m <= |events| && FitBefore(events, m) && Fault(events, m, code)
  }

  lemma PrefixFault(events: seq<Stored>, m: int, code: Code)
    requires events != [] && Enveloped(events) && 1 <= m < |events|
    ensures Fault(events, m, code) <==> Fault(events[..|events| - 1], m, code)
  {
    var e := events[m - 1].event.value;
    if (e.ToolPrepared? || e.ToolStarted? || e.ToolOutcome?) && Nonempty(e.operationId) {
      PrefixWas(events, m, e.operationId.value);
      if e.ToolOutcome? { PrefixAs(events, m, e.operationId.value, e.callId, e.name); }
    }
  }

  lemma PrefixFits(events: seq<Stored>, m: int)
    requires events != [] && Enveloped(events) && m <= |events|
    ensures FitBefore(events, m) <==> FitBefore(events[..|events| - 1], m)
  {
    var before := events[..|events| - 1];
    forall k | 1 <= k < m ensures EventOk(events, k) <==> EventOk(before, k) { PrefixOk(events, k); }
  }

  lemma PrefixFirst(events: seq<Stored>, m: int, code: Code)
    requires events != [] && Enveloped(events) && m < |events|
    ensures FirstFault(events, m, code) <==> FirstFault(events[..|events| - 1], m, code)
  {
    if 1 <= m {
      PrefixFault(events, m, code);
      PrefixFits(events, m);
    }
  }

  /** The last event is the first fault exactly when the events before it replay and its step fails. */
  lemma LastFault(events: seq<Stored>, code: Code)
    requires events != [] && Enveloped(events)
    ensures FirstFault(events, |events|, code) <==>
      var before := Replay(events[..|events| - 1]);
      before.Ok? && Step(before.value, events[|events| - 1]) == Err(code)
  {
    var n := |events| - 1;
    ReplayLanguage(events[..n]);
    PrefixFits(events, |events|);
    assert AllOk(events[..n]) <==> FitBefore(events[..n], |events|);
    if Replay(events[..n]).Ok? { StepCode(events, Replay(events[..n]).value, code); }
  }

  ghost predicate FailsWith(events: seq<Stored>, code: Code)
    requires Enveloped(events)
  {
    exists m :: FirstFault(events, m, code)
  }

  lemma FailsNext(events: seq<Stored>, code: Code)
    requires events != [] && Enveloped(events)
    ensures FailsWith(events, code) <==>
      FailsWith(events[..|events| - 1], code) || FirstFault(events, |events|, code)
  {
    var before := events[..|events| - 1];
    forall m | m < |events| ensures FirstFault(events, m, code) <==> FirstFault(before, m, code) {
      PrefixFirst(events, m, code);
    }
  }

  /** A rejected ledger gets the code of its first event that does not fit. */
  lemma {:induction false} ReplayCode(events: seq<Stored>, code: Code)
    requires Enveloped(events)
    ensures Replay(events) == Err(code) <==> FailsWith(events, code)
  {
    if events != [] {
      ReplayCode(events[..|events| - 1], code);
      FailsNext(events, code);
      LastFault(events, code);
    }
  }

  /** What is wrong with an envelope, in the order of the checks. */
  ghost predicate EnvelopeFault(events: seq<Stored>, code: Code) {
    if events == [] then code == EventLedgerEmpty
    else if !forall i :: 0 <= i < |events| ==> events[i].schemaVersion == Some(16) then
      code == RuntimeEventSchemaMismatch
    else if !forall i :: 0 <= i < |events| ==> events[i].runId == events[0].runId && Nonempty(events[i].runId) then
      code == EventRunIdentityMismatch
    else if !forall i :: 0 <= i < |events| ==> events[i].sequence == Some(i + 1) then code == EventSequenceInvalid
    else if !((forall i :: 0 <= i < |events| ==> Nonempty(events[i].eventId))
              && forall i, j :: 0 <= i < j < |events| ==> events[i].eventId != events[j].eventId) then
      code == EventIdInvalid
    else code == RuntimeEventShapeInvalid
  }

  lemma EnvelopeCode(events: seq<Stored>, code: Code)
    ensures CheckEnvelope(events) == Err(code) <==> !WellEnveloped(events) && EnvelopeFault(events, code)
  {
    EnvelopeIff(events);
  }

  /** A ledger that is not projected gets the code of its envelope, of its first misfit, or of a bad revision. */
  lemma ProjectCode(events: seq<Stored>, code: Code)
    ensures EditModel.Project(events) == Err(code) <==>
      if !WellEnveloped(events) then EnvelopeFault(events, code)
      else if !AllOk(events) then FailsWith(events, code)
      else !RevisionsOk(events) && code == WorkspaceRevisionShapeInvalid
  {
    EnvelopeCode(events, code);
    EnvelopeIff(events);
    if WellEnveloped(events) {
      ReplayCode(events, code);
      ReplayLanguage(events);
      if Replay(events).Ok? { RevisionsIff(events); }
    }
  }
}
