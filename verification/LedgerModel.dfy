/**
  The request ledger: one pass over the stored events of every run, tracking each
  model request from preparation to its outcome. Agent requests and context
  compactions share one table of attempts; every other table is keyed by run.
 */
module LedgerModel {
  import opened Basics

  datatype Code =
    | EventSequenceGap
    | RunCreatedInvalid
    | TerminalNotLast
    | RequestLedgerInvalid
    | PromptBlockInvalid
    | CachePostureInvalid
    | RetryCausalityInvalid
    | AttemptOrderInvalid
    | CompactionCausalityInvalid
    | CompactionPromptRetryMismatch
    | RequestCountMismatch

  // --- Requests and run metadata -------------------------------------------

  datatype Actor = Actor(kind: string, depth: int)

  /** The system prompt as stored; its content only matters through its fingerprint. */
  type Prompt = Bytes

  datatype Fingerprint =
    Fingerprint(orderedBlocks: string, wire: string, stablePrefix: string, cachePostureValid: bool)

  /** `rest` stands for every field of the stored request that no check reads on its own. */
  datatype Request = Request(
    runId: Option<string>,
    parentRunId: Option<string>,
    actor: Option<Actor>,
    model: Option<string>,
    requestNumber: Option<int>,
    attempt: Option<int>,
    systemPrompt: Prompt,
    rest: Bytes)

  datatype RunMetadata = RunMetadata(
    parentRunId: Option<string>,
    actor: Actor,
    model: string,
    basePrompt: Fingerprint)

  /** What the earlier phases fix: the fingerprint function and the metadata of each run. */
  datatype Env = Env(fingerprint: Prompt -> Option<Fingerprint>, runs: map<string, RunMetadata>)

  // --- Stored events --------------------------------------------------------

  datatype RetryPlan = RetryPlan(attemptId: Option<string>, request: Option<Request>)

  datatype RetryDecision = RetryWith(plan: Option<RetryPlan>) | StopRetrying | UnknownDecision

  datatype Event =
    | RunCreated
    | ModelRequestPrepared(attemptId: Option<string>, request: Option<Request>)
    | ModelRequestInFlight(attemptId: Option<string>)
    | ModelRequestFailed(attemptId: Option<string>, retry: Option<RetryDecision>)
    | ModelResponseCommitted(attemptId: Option<string>)
    | CompactionPrepared(compactionId: Option<string>, attemptId: Option<string>, request: Option<Request>)
    | CompactionInFlight(compactionId: Option<string>, attemptId: Option<string>)
    | CompactionAttemptFailed(compactionId: Option<string>, attemptId: Option<string>, retry: Option<RetryDecision>)
    | CompactionCommitted(compactionId: Option<string>, hasOutput: bool)
    | Terminal
    | OtherEvent

  /** The id of the attempt an event prepares, if it prepares one. */
  function PreparedId(e: Event): Option<string> {
    match e
    case ModelRequestPrepared(id, _) => id
    case CompactionPrepared(_, id, _) => id
    case ModelRequestFailed(_, Some(RetryWith(Some(plan)))) => plan.attemptId
    case CompactionAttemptFailed(_, _, Some(RetryWith(Some(plan)))) => plan.attemptId
    case _ => None
  }

  datatype Stored = Stored(sequence: int, event: Event)

  /** One run: its id and its stored events in sequence order. */
  datatype Run = Run(id: string, events: seq<Stored>)

  // --- Ledger state ---------------------------------------------------------

  datatype RequestKind = AgentRequest | ContextCompaction

  datatype AttemptState = Prepared | InFlight | FailedRetryPrepared | FailedStopped | ResponseCommitted

  datatype Attempt = Attempt(
    runId: string,
    kind: RequestKind,
    requestNumber: int,
    attempt: int,
    preparedSequence: int,
    prompt: Fingerprint,
    rawRequest: Request,
    compactionId: Option<string>,
    state: AttemptState,
    hadInFlight: bool)

  datatype Attestation =
    Attestation(orderedBlocks: string, wire: string, preparedAttemptCount: int, retryCount: int)

  datatype Ledger = Ledger(
    prepared: map<string, Attempt>,
    activeAgent: map<string, string>,
    activeCompaction: map<string, string>,
    compactions: map<(string, string), Attestation>,
    agentStopped: set<string>,
    stoppedCompactions: set<(string, string)>)

  const EmptyLedger := Ledger(map[], map[], map[], map[], {}, {})

  /** The ledger together with the run-local count of agent requests. */
  datatype Cursor = Cursor(ledger: Ledger, lastAgentNumber: int)

  function Get<K, V>(m: map<K, V>, k: K): Option<V> {
    if k in m then Some(m[k]) else None
  }

  function Lookup(m: map<string, Attempt>, id: Option<string>): Option<Attempt> {
    if id.Some? then Get(m, id.value) else None
  }

  predicate IsId(id: Option<string>) {
    id.Some? && id.value != ""
  }

  // --- Preparing an attempt ---------------------------------------------------

  /** The request names its run, its parent, its actor and its model as the run's metadata does. */
  predicate RequestMatchesRun(env: Env, run: string, request: Request)
    requires run in env.runs
  {
    var m := env.runs[run];
    && request.runId == Some(run)
    && request.parentRunId == m.parentRunId
    && request.actor == Some(m.actor)
    && request.model == Some(m.model)
    && request.requestNumber.Some? && request.requestNumber.value >= 1
    && request.attempt.Some? && request.attempt.value >= 0
  }

  function RetriedRequest(a: Attempt): Request {
    a.rawRequest.(attempt := Some(a.attempt + 1))
  }

  function PrepareAttempt(
    env: Env, s: Ledger, run: string, sequence: int, attemptId: Option<string>, request: Option<Request>,
    kind: RequestKind, compactionId: Option<string>, retryOf: Option<Attempt>): Result<Attempt, Code>
    requires run in env.runs
  {
    if !IsId(attemptId) || attemptId.value in s.prepared || request.None?
       || !RequestMatchesRun(env, run, request.value) then
      Err(RequestLedgerInvalid)
    else
      var req := request.value;
      var fp := env.fingerprint(req.systemPrompt);
      if fp.None? then Err(PromptBlockInvalid)
      else if !fp.value.cachePostureValid then Err(CachePostureInvalid)
      else if retryOf.None? && req.attempt.value != 0 then Err(RequestLedgerInvalid)
      else if retryOf.Some? && req != RetriedRequest(retryOf.value) then Err(RetryCausalityInvalid)
      else Ok(Attempt(run, kind, req.requestNumber.value, req.attempt.value, sequence,
                      fp.value, req, compactionId, Prepared, false))
  }

  // --- One stored event -------------------------------------------------------

  predicate Busy(s: Ledger, run: string) {
    run in s.activeAgent || run in s.activeCompaction
  }

  /** `attemptId` is the run's active attempt of this kind and it is in the given state. */
  predicate ActiveIn(
    s: Ledger, active: map<string, string>, run: string, attemptId: Option<string>, kind: RequestKind,
    state: AttemptState)
  {
    var a := Lookup(s.prepared, attemptId);
    && Get(active, run) == attemptId
    && a.Some?
    && a.value.runId == run
    && a.value.kind == kind
    && a.value.state == state
  }

  predicate SamePrompt(fp: Fingerprint, orderedBlocks: string, wire: string) {
    fp.orderedBlocks == orderedBlocks && fp.wire == wire
  }

  function SetState(s: Ledger, id: string, state: AttemptState): Ledger
    requires id in s.prepared
  {
    s.(prepared := s.prepared[id := s.prepared[id].(state := state)])
  }

  function SetInFlight(s: Ledger, id: string): Ledger
    requires id in s.prepared
  {
    s.(prepared := s.prepared[id := s.prepared[id].(state := InFlight, hadInFlight := true)])
  }

  function OnAgentPrepared(env: Env, run: string, c: Cursor, sequence: int, e: Event): Result<Cursor, Code>
    requires run in env.runs && e.ModelRequestPrepared?
  {
    var s := c.ledger;
    if Busy(s, run) || run in s.agentStopped then Err(RequestLedgerInvalid)
    else
      var a :- PrepareAttempt(env, s, run, sequence, e.attemptId, e.request, AgentRequest, None, None);
      if a.requestNumber != c.lastAgentNumber + 1 then Err(RequestLedgerInvalid)
      else
        Ok(Cursor(
             s.(prepared := s.prepared[e.attemptId.value := a],
                activeAgent := s.activeAgent[run := e.attemptId.value]),
             a.requestNumber))
  }

  function OnAgentFailed(env: Env, run: string, s: Ledger, sequence: int, e: Event): Result<Ledger, Code>
    requires run in env.runs && e.ModelRequestFailed?
  {
    if !ActiveIn(s, s.activeAgent, run, e.attemptId, AgentRequest, InFlight) then Err(RetryCausalityInvalid)
    else
      var id := e.attemptId.value;
      var a := s.prepared[id];
      match e.retry
      case None => Err(RetryCausalityInvalid)
      case Some(RetryWith(None)) => Err(RetryCausalityInvalid)
      case Some(RetryWith(Some(plan))) =>
        var next :- PrepareAttempt(env, s, run, sequence, plan.attemptId, plan.request, AgentRequest, None, Some(a));
        if !SamePrompt(next.prompt, a.prompt.orderedBlocks, a.prompt.wire) then Err(RetryCausalityInvalid)
        else
          var s1 := s.(prepared := s.prepared[plan.attemptId.value := next]);
          Ok(SetState(s1, id, FailedRetryPrepared)
             .(activeAgent := s.activeAgent[run := plan.attemptId.value]))
      case Some(StopRetrying) =>
        Ok(SetState(s, id, FailedStopped)
           .(activeAgent := s.activeAgent - {run}, agentStopped := s.agentStopped + {run}))
      case Some(UnknownDecision) => Err(RetryCausalityInvalid)
  }

  function OnCompactionPrepared(env: Env, run: string, s: Ledger, sequence: int, e: Event): Result<Ledger, Code>
    requires run in env.runs && e.CompactionPrepared?
  {
    if Busy(s, run) || !IsId(e.compactionId) || (run, e.compactionId.value) in s.compactions
       || (run, e.compactionId.value) in s.stoppedCompactions || run in s.agentStopped then
      Err(CompactionCausalityInvalid)
    else
      var a :- PrepareAttempt(env, s, run, sequence, e.attemptId, e.request, ContextCompaction, e.compactionId, None);
      Ok(s.(prepared := s.prepared[e.attemptId.value := a],
            activeCompaction := s.activeCompaction[run := e.attemptId.value],
            compactions := s.compactions[(run, e.compactionId.value) :=
              Attestation(a.prompt.orderedBlocks, a.prompt.wire, 1, 0)]))
  }

  function OnCompactionFailed(env: Env, run: string, s: Ledger, sequence: int, e: Event): Result<Ledger, Code>
    requires run in env.runs && e.CompactionAttemptFailed?
  {
    if !ActiveIn(s, s.activeCompaction, run, e.attemptId, ContextCompaction, InFlight)
       || s.prepared[e.attemptId.value].compactionId != e.compactionId
       || e.compactionId.None? || (run, e.compactionId.value) !in s.compactions then
      Err(CompactionCausalityInvalid)
    else
      var id := e.attemptId.value;
      var a := s.prepared[id];
      var key := (run, e.compactionId.value);
      var att := s.compactions[key];
      match e.retry
      case None => Err(CompactionCausalityInvalid)
      case Some(RetryWith(None)) => Err(CompactionCausalityInvalid)
      case Some(RetryWith(Some(plan))) =>
        var next :- PrepareAttempt(env, s, run, sequence, plan.attemptId, plan.request, ContextCompaction,
                                   e.compactionId, Some(a));
        if !SamePrompt(next.prompt, att.orderedBlocks, att.wire) then Err(CompactionPromptRetryMismatch)
        else
          var s1 := s.(prepared := s.prepared[plan.attemptId.value := next]);
          Ok(SetState(s1, id, FailedRetryPrepared)
             .(activeCompaction := s.activeCompaction[run := plan.attemptId.value],
               compactions := s.compactions[key := att.(preparedAttemptCount := att.preparedAttemptCount + 1,
                                                        retryCount := att.retryCount + 1)]))
      case Some(StopRetrying) =>
        Ok(SetState(s, id, FailedStopped)
           .(activeCompaction := s.activeCompaction - {run},
             stoppedCompactions := s.stoppedCompactions + {key}))
      case Some(UnknownDecision) => Err(CompactionCausalityInvalid)
  }

  function OnCompactionCommitted(run: string, s: Ledger, e: Event): Result<Ledger, Code>
    requires e.CompactionCommitted?
  {
    if !IsId(e.compactionId) then Err(CompactionCausalityInvalid)
    else if (run, e.compactionId.value) !in s.compactions then
      if e.hasOutput || Busy(s, run) || run in s.agentStopped then Err(CompactionCausalityInvalid)
      else Ok(s)
    else if !e.hasOutput then Err(CompactionCausalityInvalid)
    else
      var id := Get(s.activeCompaction, run);
      var a := Lookup(s.prepared, id);
      if a.None? || a.value.kind != ContextCompaction || a.value.compactionId != e.compactionId
         || a.value.state != InFlight then
        Err(CompactionCausalityInvalid)
      else
        Ok(SetState(s, id.value, ResponseCommitted).(activeCompaction := s.activeCompaction - {run}))
  }

  /** The effect of one stored event of `run` on the shared tables. */
  function Step(env: Env, run: string, c: Cursor, stored: Stored): Result<Cursor, Code>
    requires run in env.runs
  {
    var s := c.ledger;
    var e := stored.event;
    match e
    case ModelRequestPrepared(_, _) => OnAgentPrepared(env, run, c, stored.sequence, e)
    case ModelRequestInFlight(id) =>
      if !ActiveIn(s, s.activeAgent, run, id, AgentRequest, Prepared) then Err(AttemptOrderInvalid)
      else Ok(c.(ledger := SetInFlight(s, id.value)))
    case ModelRequestFailed(_, _) =>
      var s' :- OnAgentFailed(env, run, s, stored.sequence, e);
      Ok(c.(ledger := s'))
    case ModelResponseCommitted(id) =>
      if !ActiveIn(s, s.activeAgent, run, id, AgentRequest, InFlight) then Err(AttemptOrderInvalid)
      else Ok(c.(ledger := SetState(s, id.value, ResponseCommitted).(activeAgent := s.activeAgent - {run})))
    case CompactionPrepared(_, _, _) =>
      var s' :- OnCompactionPrepared(env, run, s, stored.sequence, e);
      Ok(c.(ledger := s'))
    case CompactionInFlight(cid, id) =>
      if !ActiveIn(s, s.activeCompaction, run, id, ContextCompaction, Prepared)
         || s.prepared[id.value].compactionId != cid then
        Err(AttemptOrderInvalid)
      else Ok(c.(ledger := SetInFlight(s, id.value)))
    case CompactionAttemptFailed(_, _, _) =>
      var s' :- OnCompactionFailed(env, run, s, stored.sequence, e);
      Ok(c.(ledger := s'))
    case CompactionCommitted(_, _) =>
      var s' :- OnCompactionCommitted(run, s, e);
      Ok(c.(ledger := s'))
    case Terminal => if Busy(s, run) then Err(RequestLedgerInvalid) else Ok(c)
    case RunCreated => Ok(c)
    case OtherEvent => Ok(c)
  }

  // --- A run, all runs, the verdict ------------------------------------------

  function ReplayEvents(env: Env, run: string, c: Cursor, events: seq<Stored>): Result<Cursor, Code>
    requires run in env.runs
    decreases |events|
  {
    if events == [] then Ok(c)
    else
      var c' :- Step(env, run, c, events[0]);
      ReplayEvents(env, run, c', events[1..])
  }

  /** The events that follow the first one, replayed on the shared tables. */
  function ReplayRun(env: Env, r: Run, s: Ledger): Result<Ledger, Code>
    requires r.id in env.runs && r.events != []
  {
    var c :- ReplayEvents(env, r.id, Cursor(s, 0), r.events[1..]);
    Ok(c.ledger)
  }

  predicate KnownRuns(env: Env, runs: seq<Run>) {
    forall i :: 0 <= i < |runs| ==> runs[i].id in env.runs && runs[i].events != []
  }

  function ReplayRuns(env: Env, runs: seq<Run>, s: Ledger): Result<Ledger, Code>
    requires KnownRuns(env, runs)
  {
    if runs == [] then Ok(s)
    else
      var s' :- ReplayRun(env, runs[0], s);
      ReplayRuns(env, runs[1..], s')
  }

  function CountKind(events: seq<Stored>, e: Event): nat {
    if events == [] then 0
    else (if events[0].event == e then 1 else 0) + CountKind(events[1..], e)
  }

  /** The envelope of one run: gapless sequence, one creation at the front, one terminal at the end. */
  function CheckShape(events: seq<Stored>): Result<(), Code>
    requires events != []
  {
    if exists i :: 0 <= i < |events| && events[i].sequence != i + 1 then Err(EventSequenceGap)
    else if CountKind(events, RunCreated) != 1 || events[0].event != RunCreated
            || CountKind(events, Terminal) != 1 then
      Err(RunCreatedInvalid)
    else if events[|events| - 1].event != Terminal then Err(TerminalNotLast)
    else Ok(())
  }

  predicate HasAttempt(s: Ledger, run: string) {
    exists id :: id in s.prepared && s.prepared[id].runId == run
  }

  /** Nothing is left open and every run prepared at least one attempt. */
  function CheckClosed(env: Env, s: Ledger): Result<(), Code> {
    if s.prepared == map[] || s.activeAgent != map[] || s.activeCompaction != map[]
       || (exists run :: run in env.runs && !HasAttempt(s, run)) then
      Err(RequestLedgerInvalid)
    else Ok(())
  }

  function InFlightAttempts(s: Ledger): set<string> {
    set id | id in s.prepared && s.prepared[id].hadInFlight
  }

  function StartedBy(env: Env, s: Ledger, kind: string): set<string> {
    set id | id in s.prepared && s.prepared[id].hadInFlight
             && s.prepared[id].runId in env.runs && env.runs[s.prepared[id].runId].actor.kind == kind
  }

  /** The request counters of the terminal receipt. */
  datatype Reported = Reported(total: Option<int>, root: Option<int>, child: Option<int>)

  function CheckCounts(env: Env, s: Ledger, reported: Reported): Result<(), Code> {
    var total := |InFlightAttempts(s)|;
    var root := |StartedBy(env, s, "root")|;
    if reported != Reported(Some(total), Some(root), Some(total - root)) then Err(RequestCountMismatch)
    else Ok(())
  }

  /** The ledger part of the evidence extraction, from the empty tables to the verdict. */
  function AcceptLedger(env: Env, runs: seq<Run>, reported: Reported): Result<Ledger, Code>
    requires KnownRuns(env, runs)
  {
    var s :- ReplayRuns(env, runs, EmptyLedger);
    var _ :- CheckClosed(env, s);
    var _ :- CheckCounts(env, s, reported);
    Ok(s)
  }
}
