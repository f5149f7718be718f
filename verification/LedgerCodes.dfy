/** Which code a rejected run gets: that of the first event the episodes read so far cannot take. */
module LedgerCodes {
  import opened Basics
  import opened LedgerModel
  import opened LedgerGrammar
  import opened LedgerLanguage
  import opened LedgerComposition

  // --- What is wrong with an event ------------------------------------------------------

  /** Why an attempt is not prepared; `again` is the request a retry must repeat. */
  function Refusal(env: Env, run: string, others: set<string>, h: History, id: Option<string>,
                   request: Option<Request>, again: Option<Request>): Option<Code>
    requires run in env.runs
  {
    if !Unused(h, others, id) || request.None? || !NamesRun(env, run, request.value)
       || request.value.attempt.None? || request.value.attempt.value < 0 then
      Some(RequestLedgerInvalid)
    else if env.fingerprint(request.value.systemPrompt).None? then Some(PromptBlockInvalid)
    else if !env.fingerprint(request.value.systemPrompt).value.cachePostureValid then Some(CachePostureInvalid)
    else if again.None? && request.value.attempt != Some(0) then Some(RequestLedgerInvalid)
    else if again.Some? && request != again then Some(RetryCausalityInvalid)
    else None
  }

  /** Why a failure of the attempt that is waited on is not taken, where `code` says it comes at the wrong moment. */
  function FailureFault(env: Env, run: string, others: set<string>, h: History, c: Option<string>, id: Option<string>,
                        retry: Option<RetryDecision>, code: Code): Option<Code>
    requires run in env.runs
  {
    if !WaitsOn(h, c, id, true) then Some(code)
    else
      match retry
      case Some(StopRetrying) => None
      case Some(RetryWith(Some(plan))) =>
        Refusal(env, run, others, h, plan.attemptId, plan.request, Some(Nth(h.open.base, |h.open.ids|)))
      case _ => Some(code)
  }

  /** Why the episodes read so far cannot take the event. */
  function Fault(env: Env, run: string, others: set<string>, h: History, e: Event): Option<Code>
    requires run in env.runs
  {
    match e
    case ModelRequestPrepared(id, request) =>
      if h.open.Waiting? || Halted(h.closed) then Some(RequestLedgerInvalid)
      else
        var refusal := Refusal(env, run, others, h, id, request, None);
        if refusal.Some? then refusal
        else if request.value.requestNumber != Some(1 + Agents(h.closed)) then Some(RequestLedgerInvalid)
        else None
    case ModelRequestInFlight(id) => if WaitsOn(h, None, id, false) then None else Some(AttemptOrderInvalid)
    case ModelRequestFailed(id, retry) => FailureFault(env, run, others, h, None, id, retry, RetryCausalityInvalid)
    case ModelResponseCommitted(id) => if WaitsOn(h, None, id, true) then None else Some(AttemptOrderInvalid)
    case CompactionPrepared(c, id, request) =>
      if h.open.Waiting? || Halted(h.closed) || !IsId(c) || HasCompaction(h.closed, c.value) then
        Some(CompactionCausalityInvalid)
      else Refusal(env, run, others, h, id, request, None)
    case CompactionInFlight(c, id) =>
      if c.Some? && WaitsOn(h, c, id, false) then None else Some(AttemptOrderInvalid)
    case CompactionAttemptFailed(c, id, retry) =>
      if c.None? then Some(CompactionCausalityInvalid)
      else FailureFault(env, run, others, h, c, id, retry, CompactionCausalityInvalid)
    case CompactionCommitted(c, hasOutput) =>
      if CommitCompaction(h, c, hasOutput).Some? then None else Some(CompactionCausalityInvalid)
    case Terminal => if h.open.Idle? then None else Some(RequestLedgerInvalid)
    case _ => None
  }

  function Failure<T>(r: Result<T, Code>): Option<Code> {
    match r
    case Ok(_) => None
    case Err(code) => Some(code)
  }

  // --- One event ------------------------------------------------------------------------------

  lemma StartCode(env: Env, run: string, others: set<string>, c: Cursor, h: History, stored: Stored)
    requires run in env.runs && Matches(env, run, others, c, h)
    requires stored.event.ModelRequestPrepared? || stored.event.CompactionPrepared?
    ensures Failure(Step(env, run, c, stored)) == Fault(env, run, others, h, stored.event)
  {
    UnusedIffNew(env, run, others, c, h, stored.event.attemptId);
  }

  /** The preparation of a retry fails as the chain it would extend says. */
  lemma RetryCode(env: Env, run: string, others: set<string>, c: Cursor, h: History, sequence: int, plan: RetryPlan,
                  kind: RequestKind, cid: Option<string>)
    requires run in env.runs && Matches(env, run, others, c, h) && h.open.Waiting?
    ensures var a := c.ledger.prepared[Last(h.open.ids)];
            Failure(PrepareAttempt(env, c.ledger, run, sequence, plan.attemptId, plan.request, kind, cid, Some(a)))
            == Refusal(env, run, others, h, plan.attemptId, plan.request, Some(Nth(h.open.base, |h.open.ids|)))
  {
    UnusedIffNew(env, run, others, c, h, plan.attemptId);
  }

  lemma AgentFailCode(env: Env, run: string, others: set<string>, c: Cursor, h: History, stored: Stored)
    requires run in env.runs && Matches(env, run, others, c, h) && stored.event.ModelRequestFailed?
    ensures Failure(Step(env, run, c, stored)) == Fault(env, run, others, h, stored.event)
  {
    var e, s := stored.event, c.ledger;
    if WaitsOn(h, None, e.attemptId, true) {
      match e.retry
      case Some(RetryWith(Some(plan))) =>
        RetryPrepares(env, run, s, stored.sequence, plan.attemptId, plan.request, AgentRequest, None,
                      s.prepared[e.attemptId.value], h.open);
        RetryCode(env, run, others, c, h, stored.sequence, plan, AgentRequest, None);
      case _ =>
    }
  }

  lemma CompactionFailCode(env: Env, run: string, others: set<string>, c: Cursor, h: History, stored: Stored)
    requires run in env.runs && Matches(env, run, others, c, h) && stored.event.CompactionAttemptFailed?
    ensures Failure(Step(env, run, c, stored)) == Fault(env, run, others, h, stored.event)
  {
    var e, s := stored.event, c.ledger;
    if e.compactionId.Some? && WaitsOn(h, e.compactionId, e.attemptId, true) {
      match e.retry
      case Some(RetryWith(Some(plan))) =>
        RetryPrepares(env, run, s, stored.sequence, plan.attemptId, plan.request, ContextCompaction, e.compactionId,
                      s.prepared[e.attemptId.value], h.open);
        RetryCode(env, run, others, c, h, stored.sequence, plan, ContextCompaction, e.compactionId);
      case _ =>
    }
  }

  lemma MomentCode(env: Env, run: string, others: set<string>, c: Cursor, h: History, stored: Stored)
    requires run in env.runs && Matches(env, run, others, c, h)
    requires stored.event.ModelRequestInFlight? || stored.event.ModelResponseCommitted?
          || stored.event.CompactionInFlight? || stored.event.Terminal?
    ensures Failure(Step(env, run, c, stored)) == Fault(env, run, others, h, stored.event)
  {
  }

  /** Taken or refused with the code of what the episodes so far cannot take. */
  lemma StepCode(env: Env, run: string, others: set<string>, c: Cursor, h: History, stored: Stored)
    requires run in env.runs && Matches(env, run, others, c, h)
    ensures Failure(Step(env, run, c, stored)) == Fault(env, run, others, h, stored.event)
  {
    match stored.event
    case ModelRequestPrepared(_, _) => StartCode(env, run, others, c, h, stored);
    case CompactionPrepared(_, _, _) => StartCode(env, run, others, c, h, stored);
    case ModelRequestFailed(_, _) => AgentFailCode(env, run, others, c, h, stored);
    case CompactionAttemptFailed(_, _, _) => CompactionFailCode(env, run, others, c, h, stored);
    case CompactionCommitted(_, _) => StepAgrees(env, run, others, c, h, stored);
    case RunCreated =>
    case OtherEvent =>
    case _ => MomentCode(env, run, others, c, h, stored);
  }

  // --- The envelope of a run --------------------------------------------------------------------

  /** The event is at place `j` and nowhere else. */
  ghost predicate OnlyAt(events: seq<Stored>, e: Event, j: nat) {
    j < |events| && forall i :: 0 <= i < |events| ==> (events[i].event == e <==> i == j)
  }

  lemma {:induction false} CountZero(events: seq<Stored>, e: Event)
    ensures CountKind(events, e) == 0 <==> forall i :: 0 <= i < |events| ==> events[i].event != e
  {
    if events != [] {
      CountZero(events[1..], e);
      assert forall i :: 1 <= i < |events| ==> events[i] == events[1..][i - 1];
    }
  }

  lemma {:induction false} CountOne(events: seq<Stored>, e: Event)
    ensures CountKind(events, e) == 1 <==> exists j :: OnlyAt(events, e, j)
  {
    if events != [] {
      var rest := events[1..];
      CountOne(rest, e);
      CountZero(rest, e);
      assert forall i :: 1 <= i < |events| ==> events[i] == rest[i - 1];
      assert forall i :: 0 <= i < |rest| ==> rest[i] == events[i + 1];
      if j: nat :| OnlyAt(rest, e, j) {
        assert events[0].event != e ==> OnlyAt(events, e, j + 1);
      }
      if j: nat :| OnlyAt(events, e, j) {
        assert j > 0 ==> OnlyAt(rest, e, j - 1);
      }
      if events[0].event == e && CountKind(rest, e) == 0 { assert OnlyAt(events, e, 0); }
    }
  }

  /** Numbered from one, created once and first, ended once and last; the code names the first that fails. */
  lemma ShapeCode(events: seq<Stored>, code: Code)
    requires events != []
    ensures CheckShape(events) == Err(code) <==>
      if !forall i :: 0 <= i < |events| ==> events[i].sequence == i + 1 then code == EventSequenceGap
      else if !(OnlyAt(events, RunCreated, 0) && exists j :: OnlyAt(events, Terminal, j)) then code == RunCreatedInvalid
      else !OnlyAt(events, Terminal, |events| - 1) && code == TerminalNotLast
  {
    CountOne(events, RunCreated);
    CountOne(events, Terminal);
  }

  // --- Whole runs -----------------------------------------------------------------------------

  /** The events before `i` parse, and what they parse to cannot take event `i`. */
  predicate FailsAt(
    env: Env, run: string, others: set<string>, h: History, stored: seq<Stored>, i: nat, code: Code)
    requires run in env.runs
  {
    && i < |stored|
    && var read := ParseAll(env, run, others, h, Events(stored[..i]));
       read.Some? && Fault(env, run, others, read.value, stored[i].event) == Some(code)
  }

  ghost predicate FailsWith(
    env: Env, run: string, others: set<string>, h: History, stored: seq<Stored>, code: Code)
    requires run in env.runs
  {
    exists i :: FailsAt(env, run, others, h, stored, i, code)
  }

  lemma FailsLater(env: Env, run: string, others: set<string>, h: History, stored: seq<Stored>, i: nat, code: Code)
    requires run in env.runs && stored != []
    ensures var next := Parse(env, run, others, h, stored[0].event);
            FailsAt(env, run, others, h, stored, i + 1, code) <==>
              next.Some? && FailsAt(env, run, others, next.value, stored[1..], i, code)
  {
    if i + 1 < |stored| {
      assert stored[..i + 1][0] == stored[0] && stored[..i + 1][1..] == stored[1..][..i];
      assert Events(stored[..i + 1])[1..] == Events(stored[1..][..i]);
    }
  }

  lemma FailsNext(env: Env, run: string, others: set<string>, h: History, stored: seq<Stored>, code: Code)
    requires run in env.runs && stored != []
    ensures var next := Parse(env, run, others, h, stored[0].event);
            FailsWith(env, run, others, h, stored, code) <==>
              || Fault(env, run, others, h, stored[0].event) == Some(code)
              || (next.Some? && FailsWith(env, run, others, next.value, stored[1..], code))
  {
    var next := Parse(env, run, others, h, stored[0].event);
    assert Events(stored[..0]) == [];
    assert FailsAt(env, run, others, h, stored, 0, code) <==>
      Fault(env, run, others, h, stored[0].event) == Some(code);
    if i: nat :| FailsAt(env, run, others, h, stored, i, code) {
      if i > 0 { FailsLater(env, run, others, h, stored, i - 1, code); }
    }
    if next.Some? {
      if i: nat :| FailsAt(env, run, others, next.value, stored[1..], i, code) {
        FailsLater(env, run, others, h, stored, i, code);
        assert FailsAt(env, run, others, h, stored, i + 1, code);
      }
    }
  }

  lemma {:induction false} ReplayCode(
    env: Env, run: string, others: set<string>, c: Cursor, h: History, stored: seq<Stored>, code: Code)
    requires run in env.runs && Matches(env, run, others, c, h)
    ensures ReplayEvents(env, run, c, stored) == Err(code) <==> FailsWith(env, run, others, h, stored, code)
    decreases |stored|
  {
    if stored != [] {
      StepCode(env, run, others, c, h, stored[0]);
      StepAgrees(env, run, others, c, h, stored[0]);
      FailsNext(env, run, others, h, stored, code);
      var next := Step(env, run, c, stored[0]);
      if next.Ok? {
        ReplayCode(env, run, others, next.value, Parse(env, run, others, h, stored[0].event).value, stored[1..], code);
      }
    }
  }

  /** A rejected run gets the code of its first event that the episodes read so far cannot take. */
  lemma RunCode(env: Env, r: Run, s: Ledger, code: Code)
    requires r.id in env.runs && r.events != [] && Untouched(s, r.id)
    ensures ReplayRun(env, r, s) == Err(code) <==>
      FailsWith(env, r.id, s.prepared.Keys, History([], Idle), r.events[1..], code)
  {
    UntouchedMatches(env, r.id, s);
    ReplayCode(env, r.id, s.prepared.Keys, Cursor(s, 0), History([], Idle), r.events[1..], code);
  }

  // --- All runs -------------------------------------------------------------------------------

  /** The first run that fails, against the attempt ids used before it, fails with this code. */
  ghost predicate SomeRunFails(env: Env, runs: seq<Run>, used: set<string>, code: Code)
    requires KnownRuns(env, runs)
    decreases |runs|
  {
    runs != []
    && var r := runs[0];
       || FailsWith(env, r.id, used, History([], Idle), r.events[1..], code)
       || (Alone(env, r) && AttemptIds(env, r) !! used
           && SomeRunFails(env, runs[1..], used + AttemptIds(env, r), code))
  }

  lemma {:induction false} RunsCode(env: Env, runs: seq<Run>, s: Ledger, code: Code)
    requires Ready(env, runs) && forall i :: 0 <= i < |runs| ==> Untouched(s, runs[i].id)
    ensures ReplayRuns(env, runs, s) == Err(code) <==> SomeRunFails(env, runs, s.prepared.Keys, code)
    decreases |runs|
  {
    if runs != [] {
      var r, rest := runs[0], runs[1..];
      RunCode(env, r, s, code);
      RunOnShared(env, r, s);
      if ReplayRun(env, r, s).Ok? {
        var s' := ReplayRun(env, r, s).value;
        forall i | 0 <= i < |rest| ensures Untouched(s', rest[i].id) {
          assert rest[i] == runs[i + 1];
          ReplaySameFor(env, r.id, Cursor(s, 0), r.events[1..], rest[i].id);
        }
        RunsCode(env, rest, s', code);
      }
    }
  }

  /** The code of each of the three checks, in order. */
  lemma AcceptCode(env: Env, runs: seq<Run>, reported: Reported, code: Code)
    requires KnownRuns(env, runs)
    ensures AcceptLedger(env, runs, reported) == Err(code) <==>
      if ReplayRuns(env, runs, EmptyLedger).Err? then ReplayRuns(env, runs, EmptyLedger) == Err(code)
      else if !Accepted(env, runs) then code == RequestLedgerInvalid
      else AcceptLedger(env, runs, reported).Err? && code == RequestCountMismatch
  {
  }

  lemma FromEmpty(env: Env, runs: seq<Run>, code: Code)
    requires Ready(env, runs)
    ensures ReplayRuns(env, runs, EmptyLedger).Ok? <==> Separate(env, runs, {})
    ensures ReplayRuns(env, runs, EmptyLedger) == Err(code) <==> SomeRunFails(env, runs, {}, code)
  {
    RunsCode(env, runs, EmptyLedger, code);
    RunsOnShared(env, runs, EmptyLedger);
    assert EmptyLedger.prepared.Keys == {};
  }

  /**
    The code of a rejected ledger: that of the first run that cannot be replayed, the one for a run
    without attempts, or the one for counters that do not count the attempts.
   */
  lemma VerdictCode(env: Env, runs: seq<Run>, reported: Reported, code: Code)
    requires Ready(env, runs) && Covers(env, runs) && runs != []
    ensures AcceptLedger(env, runs, reported) == Err(code) <==>
      if !Separate(env, runs, {}) then SomeRunFails(env, runs, {}, code)
      else if !Independent(env, runs) then code == RequestLedgerInvalid
      else !CountsAgree(env, runs, reported) && code == RequestCountMismatch
  {
    AcceptCode(env, runs, reported, code);
    FromEmpty(env, runs, code);
    AcceptedIff(env, runs, reported);
  }
}
