/** Which event ledgers the projector accepts, said of the events themselves. */
module EditLanguage {
  import opened Basics
  import opened EditModel
  import opened EditProjection
  import opened EditRecovery

  // --- Events by number --------------------------------------------------------------

  predicate PreparedBy(events: seq<Stored>, m: int, op: string) {
    1 <= m <= |events| && events[m - 1].event.Some? && events[m - 1].event.value.ToolPrepared?
    && events[m - 1].event.value.operationId == Some(op)
  }

  predicate StartedBy(events: seq<Stored>, m: int, op: string) {
    1 <= m <= |events| && events[m - 1].event.Some? && events[m - 1].event.value.ToolStarted?
    && events[m - 1].event.value.operationId == Some(op)
  }

  predicate CommittedBy(events: seq<Stored>, m: int, op: string) {
    1 <= m <= |events| && events[m - 1].event.Some? && events[m - 1].event.value.ToolOutcome?
    && events[m - 1].event.value.operationId == Some(op)
  }

  ghost predicate WasPrepared(events: seq<Stored>, m: int, op: string) {
    exists p :: p < m && PreparedBy(events, p, op)
  }

  ghost predicate WasStarted(events: seq<Stored>, m: int, op: string) {
    exists p :: p < m && StartedBy(events, p, op)
  }

  ghost predicate WasCommitted(events: seq<Stored>, m: int, op: string) {
    exists p :: p < m && CommittedBy(events, p, op)
  }

  predicate PreparedAs(events: seq<Stored>, p: int, op: string, callId: Option<string>, name: Option<string>) {
    && PreparedBy(events, p, op)
    && var invocation := events[p - 1].event.value.invocation;
       invocation.Some? && invocation.value.callId == callId && invocation.value.name == name
  }

  ghost predicate WasPreparedAs(events: seq<Stored>, m: int, op: string, callId: Option<string>, name: Option<string>) {
    exists p :: p < m && PreparedAs(events, p, op, callId, name)
  }

  // --- What makes an event acceptable ---------------------------------------------------

  predicate InvocationOk(invocation: Option<Invocation>, runId: Option<string>) {
    && invocation.Some? && invocation.value.runId == runId
    && Nonempty(invocation.value.callId) && Nonempty(invocation.value.name)
  }

  /** A success has no failure code and needs no retry, a failure has a known code, and every axis is known. */
  predicate ValidOutcome(outcome: Option<Outcome>) {
    && outcome.Some?
    && var o := outcome.value;
       && (if o.invocation == Accepted && o.transport == TransportSucceeded && o.operation == OperationSucceeded
           then o.failureCode == NoCode && o.retry == NotNeeded
           else o.failureCode.Known?)
       && o.invocation != InvocationOther && o.transport != TransportOther && o.operation != OperationOther
       && o.sideEffect != SideEffectOther && o.retry != RetryOther
  }

  lemma OutcomeIff(outcome: Option<Outcome>)
    ensures ValidateOutcome(outcome).Ok? <==> ValidOutcome(outcome)
    ensures ValidateOutcome(outcome).Ok? ==> ValidateOutcome(outcome).value == OutcomeSuccess(outcome.value)
  {
  }

  /** A valid outcome; without a start it is a failure without effect, with one it was accepted and begun. */
  predicate OutcomeFits(outcome: Option<Outcome>, started: bool) {
    && ValidOutcome(outcome)
    && if started then Begun(outcome.value) else !Effective(outcome.value)
  }

  /** Each operation is prepared once, started at most once and settled at most once, in that order and as prepared. */
  ghost predicate EventOk(events: seq<Stored>, m: int)
    requires 1 <= m <= |events| && events[m - 1].event.Some?
  {
    match events[m - 1].event.value
    case ToolPrepared(id, invocation, _) =>
      Nonempty(id) && !WasPrepared(events, m, id.value) && InvocationOk(invocation, events[m - 1].runId)
    case ToolStarted(id) =>
      Nonempty(id) && WasPrepared(events, m, id.value) && !WasStarted(events, m, id.value)
    case ToolOutcome(id, callId, name, outcome, _) =>
      && Nonempty(id) && WasPreparedAs(events, m, id.value, callId, name) && !WasCommitted(events, m, id.value)
      && OutcomeFits(outcome, WasStarted(events, m, id.value))
    case _ => true
  }

  ghost predicate AllOk(events: seq<Stored>)
    requires Enveloped(events)
  {
    forall m :: 1 <= m <= |events| ==> EventOk(events, m)
  }

  // --- The dictionaries are what the events say -------------------------------------------

  ghost predicate PreparedMatches(events: seq<Stored>, f: Facts) {
    && (forall op, p :: PreparedBy(events, p, op) ==>
          op in f.prepared && f.prepared[op].sequence == p
          && events[p - 1].event.value.invocation == Some(f.prepared[op].invocation)
          && events[p - 1].event.value.mayWrite == f.prepared[op].mayWrite)
    && (forall op :: op in f.prepared ==> PreparedBy(events, f.prepared[op].sequence, op))
  }

  ghost predicate StartedMatches(events: seq<Stored>, f: Facts) {
    && (forall op, p :: StartedBy(events, p, op) ==> op in f.started && f.started[op] == p)
    && (forall op :: op in f.started ==> StartedBy(events, f.started[op], op))
  }

  ghost predicate CommittedMatches(events: seq<Stored>, f: Facts) {
    && (forall op, p :: CommittedBy(events, p, op) ==>
          op in f.committed && op in f.prepared && f.committed[op].sequence == p
          && f.committed[op].revision == events[p - 1].event.value.revision
          && Some(f.committed[op].outcome) == events[p - 1].event.value.outcome
          && f.prepared[op].invocation.name == events[p - 1].event.value.name)
    && (forall op :: op in f.committed ==> CommittedBy(events, f.committed[op].sequence, op))
  }

  ghost predicate FactsMatch(events: seq<Stored>, f: Facts) {
    PreparedMatches(events, f) && StartedMatches(events, f) && CommittedMatches(events, f)
  }

  // --- One more event ------------------------------------------------------------------------

  lemma Prefix(events: seq<Stored>, m: int, op: string)
    requires events != []
    ensures var before := events[..|events| - 1];
            m != |events| ==>
              && (PreparedBy(events, m, op) <==> PreparedBy(before, m, op))
              && (StartedBy(events, m, op) <==> StartedBy(before, m, op))
              && (CommittedBy(events, m, op) <==> CommittedBy(before, m, op))
  {
  }

  /** What came before the last event, looked up in the dictionaries. */
  lemma LookedUp(events: seq<Stored>, f: Facts, op: string)
    requires events != [] && FactsMatch(events[..|events| - 1], f)
    ensures WasPrepared(events, |events|, op) <==> op in f.prepared
    ensures WasStarted(events, |events|, op) <==> op in f.started
    ensures WasCommitted(events, |events|, op) <==> op in f.committed
  {
    var before := events[..|events| - 1];
    if op in f.prepared {
      assert PreparedBy(before, f.prepared[op].sequence, op);
      Prefix(events, f.prepared[op].sequence, op);
    }
    if op in f.started {
      assert StartedBy(before, f.started[op], op);
      Prefix(events, f.started[op], op);
    }
    if op in f.committed {
      assert CommittedBy(before, f.committed[op].sequence, op);
      Prefix(events, f.committed[op].sequence, op);
    }
    if WasPrepared(events, |events|, op) {
      var p :| p < |events| && PreparedBy(events, p, op);
      assert PreparedBy(before, p, op);
    }
    if WasStarted(events, |events|, op) {
      var p :| p < |events| && StartedBy(events, p, op);
      assert StartedBy(before, p, op);
    }
    if WasCommitted(events, |events|, op) {
      var p :| p < |events| && CommittedBy(events, p, op);
      assert CommittedBy(before, p, op);
    }
  }

  lemma LookedUpAs(events: seq<Stored>, f: Facts, op: string, callId: Option<string>, name: Option<string>)
    requires events != [] && PreparedMatches(events[..|events| - 1], f)
    ensures WasPreparedAs(events, |events|, op, callId, name) <==>
      op in f.prepared && f.prepared[op].invocation.callId == callId && f.prepared[op].invocation.name == name
  {
    var before := events[..|events| - 1];
    if op in f.prepared {
      var p := f.prepared[op].sequence;
      assert PreparedBy(before, p, op);
      assert PreparedBy(events, p, op) && events[p - 1] == before[p - 1];
      assert f.prepared[op].invocation.callId == callId && f.prepared[op].invocation.name == name ==>
        PreparedAs(events, p, op, callId, name);
    }
    if WasPreparedAs(events, |events|, op, callId, name) {
      var p :| p < |events| && PreparedAs(events, p, op, callId, name);
      assert PreparedBy(before, p, op) && events[p - 1] == before[p - 1];
    }
  }

  /** Entries were made by earlier events, so the order checks of the replay always hold. */
  lemma EntriesEarlier(events: seq<Stored>, f: Facts, op: string)
    requires events != [] && FactsMatch(events[..|events| - 1], f)
    ensures op in f.prepared ==> f.prepared[op].sequence < |events|
    ensures op in f.started ==> f.started[op] < |events|
  {
    var before := events[..|events| - 1];
    if op in f.prepared { assert PreparedBy(before, f.prepared[op].sequence, op); }
    if op in f.started { assert StartedBy(before, f.started[op], op); }
  }

  /** Starts follow preparations. */
  ghost predicate StartsFollow(f: Facts) {
    forall op :: op in f.started ==> op in f.prepared && f.prepared[op].sequence < f.started[op]
  }

  lemma StepIff(events: seq<Stored>, f: Facts)
    requires events != [] && Enveloped(events) && FactsMatch(events[..|events| - 1], f) && StartsFollow(f)
    ensures Step(f, events[|events| - 1]).Ok? <==> EventOk(events, |events|)
    ensures Step(f, events[|events| - 1]) != Err(ToolLifecycleOrderInvalid)
  {
    var e := events[|events| - 1].event.value;
    assert events[|events| - 1].sequence == Some(|events|);
    match e
    case ToolPrepared(id, _, _) =>
      if id.Some? { LookedUp(events, f, id.value); }
    case ToolStarted(id) =>
      if id.Some? { LookedUp(events, f, id.value); EntriesEarlier(events, f, id.value); }
    case ToolOutcome(id, callId, name, _, _) =>
      if id.Some? {
        LookedUp(events, f, id.value);
        LookedUpAs(events, f, id.value, callId, name);
        EntriesEarlier(events, f, id.value);
        OutcomeIff(e.outcome);
      }
    case _ =>
  }

  lemma PreparedStep(events: seq<Stored>, f: Facts)
    requires events != [] && Enveloped(events) && PreparedMatches(events[..|events| - 1], f)
    requires Step(f, events[|events| - 1]).Ok?
    ensures PreparedMatches(events, Step(f, events[|events| - 1]).value)
  {
    var before, f' := events[..|events| - 1], Step(f, events[|events| - 1]).value;
    assert events[|events| - 1].sequence == Some(|events|);
    forall op, p | PreparedBy(events, p, op)
      ensures op in f'.prepared && f'.prepared[op].sequence == p
           && events[p - 1].event.value.invocation == Some(f'.prepared[op].invocation)
           && events[p - 1].event.value.mayWrite == f'.prepared[op].mayWrite
    {
      if p < |events| { assert PreparedBy(before, p, op) && events[p - 1] == before[p - 1]; }
    }
    forall op | op in f'.prepared ensures PreparedBy(events, f'.prepared[op].sequence, op) {
      if op in f.prepared { assert PreparedBy(before, f.prepared[op].sequence, op); }
    }
  }

  lemma StartedStep(events: seq<Stored>, f: Facts)
    requires events != [] && Enveloped(events) && StartedMatches(events[..|events| - 1], f)
    requires Step(f, events[|events| - 1]).Ok?
    ensures StartedMatches(events, Step(f, events[|events| - 1]).value)
  {
    var before, f' := events[..|events| - 1], Step(f, events[|events| - 1]).value;
    assert events[|events| - 1].sequence == Some(|events|);
    forall op, p | StartedBy(events, p, op) ensures op in f'.started && f'.started[op] == p {
      if p < |events| { assert StartedBy(before, p, op); }
    }
    forall op | op in f'.started ensures StartedBy(events, f'.started[op], op) {
      if op in f.started { assert StartedBy(before, f.started[op], op); }
    }
  }

  lemma CommittedStep(events: seq<Stored>, f: Facts)
    requires events != [] && Enveloped(events) && CommittedMatches(events[..|events| - 1], f)
    requires Step(f, events[|events| - 1]).Ok?
    ensures CommittedMatches(events, Step(f, events[|events| - 1]).value)
  {
    var before, f' := events[..|events| - 1], Step(f, events[|events| - 1]).value;
    assert events[|events| - 1].sequence == Some(|events|);
    forall op, p | CommittedBy(events, p, op)
      ensures op in f'.committed && op in f'.prepared && f'.committed[op].sequence == p
           && f'.committed[op].revision == events[p - 1].event.value.revision
           && Some(f'.committed[op].outcome) == events[p - 1].event.value.outcome
           && f'.prepared[op].invocation.name == events[p - 1].event.value.name
    {
      if p < |events| { assert CommittedBy(before, p, op) && events[p - 1] == before[p - 1]; }
    }
    forall op | op in f'.committed ensures CommittedBy(events, f'.committed[op].sequence, op) {
      if op in f.committed { assert CommittedBy(before, f.committed[op].sequence, op); }
    }
  }

  lemma StartsFollowStep(f: Facts, stored: Stored)
    requires stored.sequence.Some? && stored.event.Some? && StartsFollow(f) && Step(f, stored).Ok?
    ensures StartsFollow(Step(f, stored).value)
  {
  }

  // --- The language of accepted ledgers ---------------------------------------------------------

  lemma PrefixOk(events: seq<Stored>, m: int)
    requires events != [] && Enveloped(events) && 1 <= m < |events|
    ensures EventOk(events, m) <==> EventOk(events[..|events| - 1], m)
  {
    var before := events[..|events| - 1];
    assert before[m - 1] == events[m - 1];
    forall op ensures WasPrepared(events, m, op) <==> WasPrepared(before, m, op)
              ensures WasStarted(events, m, op) <==> WasStarted(before, m, op)
              ensures WasCommitted(events, m, op) <==> WasCommitted(before, m, op)
    {
      PrefixWas(events, m, op);
    }
    if events[m - 1].event.value.ToolOutcome? && events[m - 1].event.value.operationId.Some? {
      var e := events[m - 1].event.value;
      PrefixAs(events, m, e.operationId.value, e.callId, e.name);
    }
  }

  lemma PrefixWas(events: seq<Stored>, m: int, op: string)
    requires events != [] && m < |events|
    ensures var before := events[..|events| - 1];
            && (WasPrepared(events, m, op) <==> WasPrepared(before, m, op))
            && (WasStarted(events, m, op) <==> WasStarted(before, m, op))
            && (WasCommitted(events, m, op) <==> WasCommitted(before, m, op))
  {
    var before := events[..|events| - 1];
    forall p | p < m
      ensures PreparedBy(events, p, op) <==> PreparedBy(before, p, op)
      ensures StartedBy(events, p, op) <==> StartedBy(before, p, op)
      ensures CommittedBy(events, p, op) <==> CommittedBy(before, p, op)
    {
      Prefix(events, p, op);
    }
  }

  lemma PrefixAs(events: seq<Stored>, m: int, op: string, callId: Option<string>, name: Option<string>)
    requires events != [] && m < |events|
    ensures WasPreparedAs(events, m, op, callId, name) <==> WasPreparedAs(events[..|events| - 1], m, op, callId, name)
  {
    var before := events[..|events| - 1];
    forall p | p < m ensures PreparedAs(events, p, op, callId, name) <==> PreparedAs(before, p, op, callId, name) {
      Prefix(events, p, op);
    }
  }

  /**
    The replay accepts exactly the ledgers in which each operation is prepared once, started at most
    once and settled at most once, as prepared and with an outcome that fits; the code that reports a
    lifecycle out of order is unreachable, because events are numbered in order.
   */
  lemma {:induction false} ReplayLanguage(events: seq<Stored>)
    requires Enveloped(events)
    ensures Replay(events).Ok? <==> AllOk(events)
    ensures Replay(events) != Err(ToolLifecycleOrderInvalid)
    ensures Replay(events).Ok? ==> FactsMatch(events, Replay(events).value) && StartsFollow(Replay(events).value)
  {
    if events != [] {
      var n := |events| - 1;
      ReplayLanguage(events[..n]);
      forall m | 1 <= m <= n ensures EventOk(events, m) <==> EventOk(events[..n], m) {
        PrefixOk(events, m);
      }
      if Replay(events[..n]).Ok? {
        var f := Replay(events[..n]).value;
        StepIff(events, f);
        if Step(f, events[n]).Ok? {
          PreparedStep(events, f);
          StartedStep(events, f);
          CommittedStep(events, f);
          StartsFollowStep(f, events[n]);
        }
      }
    }
  }

  // --- Workspace revisions -----------------------------------------------------------------------

  /** The outcome of an edit names a revision of the expected shape, or none. */
  predicate RevisionOk(stored: Stored) {
    stored.event.Some? && stored.event.value.ToolOutcome? && IsEditTool(stored.event.value.name) ==>
      stored.event.value.revision != BadRevision
  }

  ghost predicate RevisionsOk(events: seq<Stored>) {
    forall i :: 0 <= i < |events| ==> RevisionOk(events[i])
  }

  lemma BadRevisionFound(events: seq<Stored>, f: Facts, m: int)
    requires Enveloped(events) && AllOk(events) && CommittedMatches(events, f) && CommitsOrdered(f) && OrderKnown(f)
    requires 1 <= m <= |events| && !RevisionOk(events[m - 1])
    ensures BaseAttempts(f).Err?
  {
    assert EventOk(events, m);
    var op := events[m - 1].event.value.operationId.value;
    assert CommittedBy(events, m, op);
    var c :| 0 <= c < |f.commitOrder| && f.commitOrder[c] == op;
    var i := BaseHas(f, |f.commitOrder|, c);
  }

  lemma BadRevisionShown(events: seq<Stored>, f: Facts)
    requires CommittedMatches(events, f) && OrderKnown(f) && BaseAttempts(f).Err?
    ensures !RevisionsOk(events)
  {
    var base := AttemptsUpTo(f, |f.commitOrder|);
    var i :| 0 <= i < |base| && base[i].revision == BadRevision;
    BaseOrigin(f, |f.commitOrder|, i);
    var c :| c < |f.commitOrder| && MadeAt(f, base[i], c);
    var op := f.commitOrder[c];
    assert CommittedBy(events, f.committed[op].sequence, op);
    assert !RevisionOk(events[f.committed[op].sequence - 1]);
  }

  /** Schema 16, one run with a name, numbered from one without gaps, distinct nonempty event ids, an event in each. */
  ghost predicate WellEnveloped(events: seq<Stored>) {
    && events != []
    && (forall i :: 0 <= i < |events| ==>
          && events[i].schemaVersion == Some(16) && events[i].runId == events[0].runId && Nonempty(events[i].runId)
          && events[i].sequence == Some(i + 1) && Nonempty(events[i].eventId) && events[i].event.Some?)
    && (forall i, j :: 0 <= i < j < |events| ==> events[i].eventId != events[j].eventId)
  }

  lemma EnvelopeIff(events: seq<Stored>)
    ensures CheckEnvelope(events).Ok? <==> WellEnveloped(events)
  {
    if WellEnveloped(events) { assert Nonempty(events[0].runId); }
  }

  /**
    A ledger is projected exactly when its envelope is in order, every event fits the lifecycle of its
    operation, and the outcomes of edits name well-shaped revisions.
   */
  lemma ProjectLanguage(events: seq<Stored>)
    ensures EditModel.Project(events).Ok? <==>
      WellEnveloped(events) && Enveloped(events) && AllOk(events) && RevisionsOk(events)
  {
    EnvelopeIff(events);
    if CheckEnvelope(events).Ok? {
      ReplayLanguage(events);
      if Replay(events).Ok? { RevisionsIff(events); }
    }
  }

  lemma RevisionsOf(events: seq<Stored>, f: Facts)
    requires Enveloped(events) && AllOk(events) && CommittedMatches(events, f) && CommitsOrdered(f) && OrderKnown(f)
    ensures BaseAttempts(f).Ok? <==> RevisionsOk(events)
  {
    if BaseAttempts(f).Err? { BadRevisionShown(events, f); }
    if !RevisionsOk(events) {
      var i :| 0 <= i < |events| && !RevisionOk(events[i]);
      BadRevisionFound(events, f, i + 1);
    }
  }

  lemma RevisionsIff(events: seq<Stored>)
    requires Enveloped(events) && Replay(events).Ok? && AllOk(events)
    ensures OrderKnown(Replay(events).value)
    ensures BaseAttempts(Replay(events).value).Ok? <==> RevisionsOk(events)
  {
    ReplayLanguage(events);
    ReplayKnowsOrder(events);
    ReplayOrdered(events);
    RevisionsOf(events, Replay(events).value);
  }
}
