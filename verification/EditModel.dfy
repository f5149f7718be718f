/**
  The edit-observation projector: it replays a run's event ledger, pairs tool preparations,
  starts and outcomes by operation id, and derives edit attempts and their recoveries.
 */
module EditModel {
  import opened Basics

  datatype Code =
    | EventLedgerEmpty
    | RuntimeEventSchemaMismatch
    | EventRunIdentityMismatch
    | EventSequenceInvalid
    | EventIdInvalid
    | RuntimeEventShapeInvalid
    | ToolOperationIdInvalid
    | DuplicateToolPrepared
    | ToolPreparedInvocationInvalid
    | ToolStartedWithoutPrepared
    | DuplicateToolStarted
    | ToolLifecycleOrderInvalid
    | ToolOutcomeWithoutPrepared
    | DuplicateToolOutcome
    | ToolOutcomeIdentityMismatch
    | ToolOutcomeShapeInvalid
    | SuccessfulOutcomeHasFailureCode
    | SuccessfulOutcomeRetryInvalid
    | UnsuccessfulOutcomeMissingFailureCode
    | ToolOutcomeAxesInvalid
    | ToolOutcomeMissingStarted
    | StartedToolOutcomeInvalid
    | WorkspaceRevisionShapeInvalid

  // --- Outcomes -----------------------------------------------------------------

  datatype InvocationAxis = Accepted | Rejected | InvocationOther
  datatype TransportAxis =
    | TransportNotStarted | TransportSucceeded | TransportFailed | TransportIndeterminate | TransportOther
  datatype OperationAxis =
    | OperationNotStarted | OperationSucceeded | OperationFailed | OperationCancelled | OperationIndeterminate
    | OperationOther
  datatype SideEffect = NotApplicable | NotApplied | Applied | Indeterminate | SideEffectOther
  datatype RetryAxis = NotNeeded | AfterCorrection | Safe | Unsafe | NotRetryable | RetryOther

  datatype FailureCode =
    | MalformedArguments | SchemaValidation | InvocationRejected | UnknownTool | MissingField | InvalidField
    | WorkspacePrecondition | StaleRead | AmbiguousEdit | PatchParse | OperationFailedCode | TransportFailedCode
    | SideEffectAmbiguous | VerifierFailed

  datatype CodeField = NoCode | Known(code: FailureCode) | UnknownCode

  datatype Outcome = Outcome(
    invocation: InvocationAxis, transport: TransportAxis, operation: OperationAxis,
    sideEffect: SideEffect, retry: RetryAxis, failureCode: CodeField)

  predicate OutcomeSuccess(o: Outcome) {
    o.invocation == Accepted && o.transport == TransportSucceeded && o.operation == OperationSucceeded
  }

  function ValidateOutcome(outcome: Option<Outcome>): Result<bool, Code> {
    if outcome.None? then Err(ToolOutcomeShapeInvalid)
    else
      var o := outcome.value;
      if OutcomeSuccess(o) && o.failureCode != NoCode then Err(SuccessfulOutcomeHasFailureCode)
      else if OutcomeSuccess(o) && o.retry != NotNeeded then Err(SuccessfulOutcomeRetryInvalid)
      else if !OutcomeSuccess(o) && !o.failureCode.Known? then Err(UnsuccessfulOutcomeMissingFailureCode)
      else if o.invocation == InvocationOther || o.transport == TransportOther || o.operation == OperationOther
              || o.sideEffect == SideEffectOther || o.retry == RetryOther then
        Err(ToolOutcomeAxesInvalid)
      else Ok(OutcomeSuccess(o))
  }

  // --- Events ---------------------------------------------------------------------

  /** Characters that stripping a string removes. */
  predicate IsSpace(c: char) {
    var n := c as int;
    || 0x09 <= n <= 0x0d || 0x1c <= n <= 0x20 || n == 0x85 || n == 0xa0 || n == 0x1680
    || 0x2000 <= n <= 0x200a || n == 0x2028 || n == 0x2029 || n == 0x202f || n == 0x205f || n == 0x3000
  }

  predicate Nonempty(s: Option<string>) {
    s.Some? && exists i :: 0 <= i < |s.value| && !IsSpace(s.value[i])
  }

  /** The parsed arguments of an edit tool; a change whose path is not a string has none. */
  datatype Arguments = Unparsed | Parsed(path: Option<string>, changes: Option<seq<Option<string>>>)

  datatype Invocation =
    Invocation(runId: Option<string>, callId: Option<string>, name: Option<string>, arguments: Arguments)

  datatype Revision = NoRevision | KnownRevision(sha256: string) | UnknownRevision(reason: string) | BadRevision

  datatype Event =
    | ModelRequestPrepared
    | ToolPrepared(operationId: Option<string>, invocation: Option<Invocation>, mayWrite: bool)
    | ToolStarted(operationId: Option<string>)
    | ToolOutcome(operationId: Option<string>, callId: Option<string>, name: Option<string>,
                  outcome: Option<Outcome>, revision: Revision)
    | OtherEvent

  datatype Stored = Stored(
    schemaVersion: Option<int>, runId: Option<string>, sequence: Option<int>, eventId: Option<string>,
    event: Option<Event>)

  /** Schema, one run identity, gapless sequence numbers, distinct event ids, well-shaped events. */
  function CheckEnvelope(events: seq<Stored>): Result<(), Code> {
    if events == [] then Err(EventLedgerEmpty)
    else if exists i :: 0 <= i < |events| && events[i].schemaVersion != Some(16) then Err(RuntimeEventSchemaMismatch)
    else if (exists i :: 0 <= i < |events| && events[i].runId != events[0].runId) || !Nonempty(events[0].runId) then
      Err(EventRunIdentityMismatch)
    else if exists i :: 0 <= i < |events| && events[i].sequence != Some(i + 1) then Err(EventSequenceInvalid)
    else if (exists i :: 0 <= i < |events| && !Nonempty(events[i].eventId))
            || (exists i, j :: 0 <= i < j < |events| && events[i].eventId == events[j].eventId) then
      Err(EventIdInvalid)
    else if exists i :: 0 <= i < |events| && events[i].event.None? then Err(RuntimeEventShapeInvalid)
    else Ok(())
  }

  // --- The replay -------------------------------------------------------------------

  datatype Preparation = Preparation(sequence: int, invocation: Invocation, mayWrite: bool)

  datatype Commitment = Commitment(sequence: int, outcome: Outcome, revision: Revision)

  /** The three dictionaries, with the insertion order of the two that are listed later. */
  datatype Facts = Facts(
    prepared: map<string, Preparation>,
    started: map<string, int>, startOrder: seq<string>,
    committed: map<string, Commitment>, commitOrder: seq<string>,
    requests: seq<int>)

  const NoFacts := Facts(map[], map[], [], map[], [], [])

  function OnPrepared(f: Facts, runId: Option<string>, n: int, e: Event): Result<Facts, Code>
    requires e.ToolPrepared?
  {
    if !Nonempty(e.operationId) then Err(ToolOperationIdInvalid)
    else if e.operationId.value in f.prepared then Err(DuplicateToolPrepared)
    else if e.invocation.None? || e.invocation.value.runId != runId
            || !Nonempty(e.invocation.value.callId) || !Nonempty(e.invocation.value.name) then
      Err(ToolPreparedInvocationInvalid)
    else Ok(f.(prepared := f.prepared[e.operationId.value := Preparation(n, e.invocation.value, e.mayWrite)]))
  }

  function OnStarted(f: Facts, n: int, e: Event): Result<Facts, Code>
    requires e.ToolStarted?
  {
    if !Nonempty(e.operationId) || e.operationId.value !in f.prepared then Err(ToolStartedWithoutPrepared)
    else
      var op := e.operationId.value;
      if op in f.started then Err(DuplicateToolStarted)
      else if f.prepared[op].sequence >= n then Err(ToolLifecycleOrderInvalid)
      else Ok(f.(started := f.started[op := n], startOrder := f.startOrder + [op]))
  }

  function OnOutcome(f: Facts, n: int, e: Event): Result<Facts, Code>
    requires e.ToolOutcome?
  {
    if !Nonempty(e.operationId) || e.operationId.value !in f.prepared then Err(ToolOutcomeWithoutPrepared)
    else
      var op := e.operationId.value;
      var p := f.prepared[op];
      if op in f.committed then Err(DuplicateToolOutcome)
      else if p.sequence >= n || e.callId != p.invocation.callId || e.name != p.invocation.name then
        Err(ToolOutcomeIdentityMismatch)
      else
        var success :- ValidateOutcome(e.outcome);
        var o := e.outcome.value;
        if op !in f.started && (success || (o.sideEffect != NotApplied && o.sideEffect != NotApplicable)) then
          Err(ToolOutcomeMissingStarted)
        else if op in f.started && !(p.sequence < f.started[op] < n) then Err(ToolLifecycleOrderInvalid)
        else if op in f.started && (o.invocation != Accepted || o.operation == OperationNotStarted) then
          Err(StartedToolOutcomeInvalid)
        else
          Ok(f.(committed := f.committed[op := Commitment(n, o, e.revision)], commitOrder := f.commitOrder + [op]))
  }

  function Step(f: Facts, stored: Stored): Result<Facts, Code>
    requires stored.sequence.Some? && stored.event.Some?
  {
    var n := stored.sequence.value;
    match stored.event.value
    case ModelRequestPrepared => Ok(f.(requests := f.requests + [n]))
    case ToolPrepared(_, _, _) => OnPrepared(f, stored.runId, n, stored.event.value)
    case ToolStarted(_) => OnStarted(f, n, stored.event.value)
    case ToolOutcome(_, _, _, _, _) => OnOutcome(f, n, stored.event.value)
    case OtherEvent => Ok(f)
  }

  predicate Enveloped(events: seq<Stored>) {
    forall i :: 0 <= i < |events| ==> events[i].sequence == Some(i + 1) && events[i].event.Some?
  }

  /** The facts after the first `|events|` events. */
  function Replay(events: seq<Stored>): Result<Facts, Code>
    requires Enveloped(events)
  {
    if events == [] then Ok(NoFacts)
    else
      var f :- Replay(events[..|events| - 1]);
      Step(f, events[|events| - 1])
  }

  // --- Attempts ---------------------------------------------------------------------

  predicate IsEditTool(name: Option<string>) {
    name == Some("apply_patch") || name == Some("edit_file")
  }

  /** The files an edit addresses, as a set; the digest of the sorted list stands for it. */
  function TargetIdentity(invocation: Invocation): Option<set<string>> {
    match invocation.arguments
    case Unparsed => None
    case Parsed(path, changes) =>
      if Nonempty(path) then Some({path.value})
      else if invocation.name == Some("apply_patch") && changes.Some? && changes.value != []
              && (forall i :: 0 <= i < |changes.value| ==> Nonempty(changes.value[i])) then
        Some(set i | 0 <= i < |changes.value| && changes.value[i].Some? :: changes.value[i].value)
      else None
  }

  /** Whether a failed attempt was recovered; `Unscorable` when its target is unknown. */
  datatype Recovery = Unscorable | NotRecovered | RecoveredBy(operationId: string, requests: nat)

  datatype Attempt = Attempt(
    operationId: string, callId: Option<string>, name: Option<string>,
    preparedSequence: int, startedSequence: Option<int>, outcomeSequence: int,
    target: Option<set<string>>, success: bool, outcome: Outcome, revision: Revision, recovery: Recovery)

  predicate IsEdit(f: Facts, op: string) {
    op in f.prepared && IsEditTool(f.prepared[op].invocation.name)
  }

  predicate OrderKnown(f: Facts) {
    forall i :: 0 <= i < |f.commitOrder| ==> f.commitOrder[i] in f.committed && f.commitOrder[i] in f.prepared
  }

  function MakeAttempt(f: Facts, op: string): Attempt
    requires op in f.prepared && op in f.committed
  {
    var p, c := f.prepared[op], f.committed[op];
    var target := TargetIdentity(p.invocation);
    Attempt(op, p.invocation.callId, p.invocation.name, p.sequence,
            if op in f.started then Some(f.started[op]) else None, c.sequence,
            target, OutcomeSuccess(c.outcome), c.outcome, c.revision,
            if target.None? then Unscorable else NotRecovered)
  }

  /** The edit attempts of the first `n` committed operations, in outcome order, before recovery. */
  function AttemptsUpTo(f: Facts, n: nat): seq<Attempt>
    requires OrderKnown(f) && n <= |f.commitOrder|
  {
    if n == 0 then []
    else
      AttemptsUpTo(f, n - 1)
      + if IsEdit(f, f.commitOrder[n - 1]) then [MakeAttempt(f, f.commitOrder[n - 1])] else []
  }

  function BaseAttempts(f: Facts): Result<seq<Attempt>, Code>
    requires OrderKnown(f)
  {
    var base := AttemptsUpTo(f, |f.commitOrder|);
    if exists i :: 0 <= i < |base| && base[i].revision == BadRevision then Err(WorkspaceRevisionShapeInvalid)
    else Ok(base)
  }

  // --- Recovery -----------------------------------------------------------------------

  /** The model requests strictly between two sequence numbers. */
  function Between(requests: seq<int>, lo: int, hi: int): seq<int> {
    if requests == [] then []
    else
      var n := |requests| - 1;
      Between(requests[..n], lo, hi) + if lo < requests[n] < hi then [requests[n]] else []
  }

  predicate SameEdit(a: Attempt, b: Attempt) {
    b.success && b.name == a.name && b.target == a.target
  }

  predicate Recovers(a: Attempt, b: Attempt, requests: seq<int>) {
    SameEdit(a, b) && Between(requests, a.outcomeSequence, b.preparedSequence) != []
  }

  /** The recovery found by scanning the attempts from position `j` on. */
  function Scan(base: seq<Attempt>, requests: seq<int>, a: Attempt, j: nat): Recovery
    requires j <= |base|
    decreases |base| - j
  {
    if j == |base| then NotRecovered
    else if Recovers(a, base[j], requests) then
      RecoveredBy(base[j].operationId, |Between(requests, a.outcomeSequence, base[j].preparedSequence)|)
    else Scan(base, requests, a, j + 1)
  }

  function Recovered(base: seq<Attempt>, requests: seq<int>, i: nat): Attempt
    requires i < |base|
  {
    if base[i].success || base[i].target.None? then base[i]
    else base[i].(recovery := Scan(base, requests, base[i], i + 1))
  }

  function Recover(base: seq<Attempt>, requests: seq<int>): seq<Attempt> {
    seq(|base|, i requires 0 <= i < |base| => Recovered(base, requests, i))
  }

  // --- The projection -------------------------------------------------------------------

  /** A started write that never committed. */
  predicate IsIncomplete(f: Facts, op: string) {
    op in f.prepared && op !in f.committed && IsEdit(f, op) && f.prepared[op].mayWrite
  }

  function IncompleteUpTo(f: Facts, n: nat): seq<string>
    requires n <= |f.startOrder|
  {
    if n == 0 then []
    else IncompleteUpTo(f, n - 1) + if IsIncomplete(f, f.startOrder[n - 1]) then [f.startOrder[n - 1]] else []
  }

  datatype Observation = Observation(attempts: seq<Attempt>, incomplete: seq<string>)

  function Project(events: seq<Stored>): Result<Observation, Code>
  {
    var _ :- CheckEnvelope(events);
    var f :- Replay(events);
    ReplayKnowsOrder(events);
    var base :- BaseAttempts(f);
    Ok(Observation(Recover(base, f.requests), IncompleteUpTo(f, |f.startOrder|)))
  }

  lemma {:induction false} ReplayKnowsOrder(events: seq<Stored>)
    requires Enveloped(events)
    ensures Replay(events).Ok? ==> OrderKnown(Replay(events).value)
  {
    if events != [] { ReplayKnowsOrder(events[..|events| - 1]); }
  }
}
