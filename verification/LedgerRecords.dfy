/** What the accepted table says of each attempt, read off the stored events of its run. */
module LedgerRecords {
  import opened Basics
  import opened LedgerModel
  import opened LedgerInvariant
  import opened LedgerSettlement

  // --- Events and the attempts they concern -------------------------------------------------

  function RequestBy(e: Event): Option<Request> {
    match e
    case ModelRequestPrepared(_, request) => request
    case CompactionPrepared(_, _, request) => request
    case ModelRequestFailed(_, Some(RetryWith(Some(plan)))) => plan.request
    case CompactionAttemptFailed(_, _, Some(RetryWith(Some(plan)))) => plan.request
    case _ => None
  }

  /** The compaction a preparing event belongs to; none for an agent request. */
  function CompactionBy(e: Event): Option<string> {
    match e
    case CompactionPrepared(c, _, _) => c
    case CompactionAttemptFailed(c, _, _) => c
    case _ => None
  }

  /** The state an event gives to attempt `id` of compaction `c` by closing it, if it closes it. */
  function ClosingState(e: Event, id: string, c: Option<string>): Option<AttemptState> {
    match e
    case ModelRequestFailed(x, Some(RetryWith(_))) => if x == Some(id) then Some(FailedRetryPrepared) else None
    case ModelRequestFailed(x, Some(StopRetrying)) => if x == Some(id) then Some(FailedStopped) else None
    case ModelResponseCommitted(x) => if x == Some(id) then Some(ResponseCommitted) else None
    case CompactionAttemptFailed(_, x, Some(RetryWith(_))) =>
      if x == Some(id) then Some(FailedRetryPrepared) else None
    case CompactionAttemptFailed(_, x, Some(StopRetrying)) => if x == Some(id) then Some(FailedStopped) else None
    case CompactionCommitted(x, true) => if c.Some? && x == c then Some(ResponseCommitted) else None
    case _ => None
  }

  // --- One event -----------------------------------------------------------------------------

  /** The record is that of a fresh attempt prepared by the stored event. */
  predicate IsPreparedBy(env: Env, run: string, stored: Stored, a: Attempt) {
    && RequestBy(stored.event).Some?
    && var request := RequestBy(stored.event).value;
       && a.runId == run
       && a.kind == (if CompactionBy(stored.event).Some? then ContextCompaction else AgentRequest)
       && a.compactionId == CompactionBy(stored.event)
       && a.rawRequest == request
       && request.requestNumber == Some(a.requestNumber) && request.attempt == Some(a.attempt)
       && a.preparedSequence == stored.sequence
       && env.fingerprint(request.systemPrompt) == Some(a.prompt)
  }

  /** What an accepted event makes of the record of attempt `id`. */
  function After(e: Event, id: string, a: Attempt): Attempt {
    if SentId(e) == Some(id) then a.(state := InFlight, hadInFlight := true)
    else if ClosingState(e, id, a.compactionId).Some? then a.(state := ClosingState(e, id, a.compactionId).value)
    else a
  }

  /** The effect of one accepted event on attempt `id`. */
  ghost predicate Effect(env: Env, run: string, stored: Stored, s: Ledger, s': Ledger, id: string) {
    if id !in s.prepared then
      id in s'.prepared ==>
        && PreparedId(stored.event) == Some(id) && IsPreparedBy(env, run, stored, s'.prepared[id])
        && s'.prepared[id].state == Prepared && !s'.prepared[id].hadInFlight
    else
      && id in s'.prepared
      && var a := s.prepared[id];
         && (a.runId != run || !Open(a) ==> s'.prepared[id] == a)
         && (a.runId == run && Open(a) ==> s'.prepared[id] == After(stored.event, id, a))
         && (a.runId == run && Open(a) && SentId(stored.event) == Some(id) ==> a.state == Prepared)
         && (a.runId == run && Open(a) && ClosingState(stored.event, id, a.compactionId).Some? ==> a.state == InFlight)
  }

  lemma AgentPreparedEffect(env: Env, run: string, c: Cursor, stored: Stored, id: string)
    requires run in env.runs && RunOk(c.ledger, run) && Step(env, run, c, stored).Ok?
    requires id in c.ledger.prepared ==> AttemptOk(env, c.ledger, id)
    requires stored.event.ModelRequestPrepared? || stored.event.ModelRequestInFlight?
    ensures Effect(env, run, stored, c.ledger, Step(env, run, c, stored).value.ledger, id)
  {
  }

  lemma AgentFailedEffect(env: Env, run: string, c: Cursor, stored: Stored, id: string)
    requires run in env.runs && RunOk(c.ledger, run) && Step(env, run, c, stored).Ok?
    requires id in c.ledger.prepared ==> AttemptOk(env, c.ledger, id)
    requires stored.event.ModelRequestFailed? || stored.event.ModelResponseCommitted?
    ensures Effect(env, run, stored, c.ledger, Step(env, run, c, stored).value.ledger, id)
  {
    match stored.event
    case ModelRequestFailed(_, Some(RetryWith(_))) =>
    case ModelRequestFailed(_, _) =>
    case ModelResponseCommitted(_) =>
  }

  lemma CompactionPreparedEffect(env: Env, run: string, c: Cursor, stored: Stored, id: string)
    requires run in env.runs && RunOk(c.ledger, run) && Step(env, run, c, stored).Ok?
    requires id in c.ledger.prepared ==> AttemptOk(env, c.ledger, id)
    requires stored.event.CompactionPrepared? || stored.event.CompactionInFlight?
    ensures Effect(env, run, stored, c.ledger, Step(env, run, c, stored).value.ledger, id)
  {
  }

  lemma CompactionFailedEffect(env: Env, run: string, c: Cursor, stored: Stored, id: string)
    requires run in env.runs && RunOk(c.ledger, run) && Step(env, run, c, stored).Ok?
    requires id in c.ledger.prepared ==> AttemptOk(env, c.ledger, id)
    requires stored.event.CompactionAttemptFailed?
    ensures Effect(env, run, stored, c.ledger, Step(env, run, c, stored).value.ledger, id)
  {
    match stored.event
    case CompactionAttemptFailed(_, _, Some(RetryWith(_))) =>
    case CompactionAttemptFailed(_, _, _) =>
  }

  lemma CompactionCommittedEffect(env: Env, run: string, c: Cursor, stored: Stored, id: string)
    requires run in env.runs && RunOk(c.ledger, run) && Step(env, run, c, stored).Ok?
    requires id in c.ledger.prepared ==> AttemptOk(env, c.ledger, id)
    requires stored.event.CompactionCommitted?
    ensures Effect(env, run, stored, c.ledger, Step(env, run, c, stored).value.ledger, id)
  {
  }

  lemma StepEffect(env: Env, run: string, c: Cursor, stored: Stored, id: string)
    requires run in env.runs && Inv(env, c.ledger) && Step(env, run, c, stored).Ok?
    ensures Effect(env, run, stored, c.ledger, Step(env, run, c, stored).value.ledger, id)
  {
    assert RunOk(c.ledger, run);
    assert id in c.ledger.prepared ==> AttemptOk(env, c.ledger, id);
    match stored.event
    case ModelRequestPrepared(_, _) => AgentPreparedEffect(env, run, c, stored, id);
    case ModelRequestInFlight(_) => AgentPreparedEffect(env, run, c, stored, id);
    case ModelRequestFailed(_, _) => AgentFailedEffect(env, run, c, stored, id);
    case ModelResponseCommitted(_) => AgentFailedEffect(env, run, c, stored, id);
    case CompactionPrepared(_, _, _) => CompactionPreparedEffect(env, run, c, stored, id);
    case CompactionInFlight(_, _) => CompactionPreparedEffect(env, run, c, stored, id);
    case CompactionAttemptFailed(_, _, _) => CompactionFailedEffect(env, run, c, stored, id);
    case CompactionCommitted(_, _) => CompactionCommittedEffect(env, run, c, stored, id);
    case _ =>
  }

  // --- The events of a run -------------------------------------------------------------------

  /** Between events `i` and `m` no event closes the attempt. */
  ghost predicate NotClosed(events: seq<Stored>, i: int, m: int, id: string, c: Option<string>)
    requires 0 <= i && m <= |events|
  {
    forall j :: i < j < m ==> ClosingState(events[j].event, id, c).None?
  }

  ghost predicate WasSent(events: seq<Stored>, i: int, m: int, id: string)
    requires 0 <= i && m <= |events|
  {
    exists j :: i < j < m && SentId(events[j].event) == Some(id)
  }

  /** Event `j` is the first to close the attempt prepared by event `i`, which was sent in between. */
  ghost predicate ClosedAt(events: seq<Stored>, i: int, j: int, id: string, a: Attempt)
    requires 0 <= i < j < |events|
  {
    && NotClosed(events, i, j, id, a.compactionId) && WasSent(events, i, j, id)
    && ClosingState(events[j].event, id, a.compactionId) == Some(a.state)
  }

  ghost predicate IsClosed(events: seq<Stored>, i: int, m: int, id: string, a: Attempt)
    requires 0 <= i && m <= |events|
  {
    a.hadInFlight && exists j :: i < j < m && ClosedAt(events, i, j, id, a)
  }

  /** After the first `m` events, the state of the attempt is the one its events give it. */
  ghost predicate StateFits(events: seq<Stored>, i: int, m: int, id: string, a: Attempt)
    requires 0 <= i && m <= |events|
  {
    if Open(a) then NotClosed(events, i, m, id, a.compactionId) && (a.hadInFlight <==> WasSent(events, i, m, id))
    else IsClosed(events, i, m, id, a)
  }

  /** After the first `m` events of the run, the record is what event `i` prepared and later events made of it. */
  ghost predicate RecordedAt(env: Env, run: string, events: seq<Stored>, i: int, m: int, id: string, a: Attempt) {
    && 1 <= i < m <= |events| && PreparedId(events[i].event) == Some(id)
    && IsPreparedBy(env, run, events[i], a) && StateFits(events, i, m, id, a)
  }

  lemma SentLater(events: seq<Stored>, i: int, m: int, id: string)
    requires 0 <= i < m < |events|
    ensures WasSent(events, i, m + 1, id) <==> WasSent(events, i, m, id) || SentId(events[m].event) == Some(id)
  {
    if WasSent(events, i, m, id) {
      var j :| i < j < m && SentId(events[j].event) == Some(id);
      assert i < j < m + 1;
    }
  }

  lemma SentIsNotClosing(e: Event, id: string, c: Option<string>)
    ensures SentId(e).Some? ==> ClosingState(e, id, c).None?
  {
  }

  lemma StateAfter(events: seq<Stored>, i: int, m: int, id: string, a: Attempt)
    requires 0 <= i < m < |events| && StateFits(events, i, m, id, a) && Open(a)
    requires SentId(events[m].event) == Some(id) ==> a.state == Prepared
    requires ClosingState(events[m].event, id, a.compactionId).Some? ==> a.state == InFlight
    ensures StateFits(events, i, m + 1, id, After(events[m].event, id, a))
  {
    var e := events[m].event;
    SentLater(events, i, m, id);
    SentIsNotClosing(e, id, a.compactionId);
    if SentId(e) != Some(id) && ClosingState(e, id, a.compactionId).Some? {
      assert ClosedAt(events, i, m, id, After(e, id, a));
    }
  }

  lemma RecordStep(
    env: Env, run: string, events: seq<Stored>, i: int, m: int, id: string, s: Ledger, s': Ledger)
    requires 1 <= m < |events| && id in s.prepared && Effect(env, run, events[m], s, s', id)
    requires RecordedAt(env, run, events, i, m, id, s.prepared[id])
    ensures RecordedAt(env, run, events, i, m + 1, id, s'.prepared[id])
  {
    var a := s.prepared[id];
    if Open(a) {
      StateAfter(events, i, m, id, a);
    } else {
      var j :| i < j < m && ClosedAt(events, i, j, id, a);
      assert i < j < m + 1 && ClosedAt(events, i, j, id, a);
    }
  }

  // --- A whole run -----------------------------------------------------------------------------

  lemma {:induction false} ReplaySnoc(env: Env, run: string, c: Cursor, events: seq<Stored>, last: Stored)
    requires run in env.runs
    ensures var mid := ReplayEvents(env, run, c, events);
            ReplayEvents(env, run, c, events + [last]) == if mid.Ok? then Step(env, run, mid.value, last) else mid
    decreases |events|
  {
    if events == [] {
      assert events + [last] == [last] && [last][1..] == [];
    } else {
      assert (events + [last])[1..] == events[1..] + [last];
      var c' := Step(env, run, c, events[0]);
      if c'.Ok? { ReplaySnoc(env, run, c'.value, events[1..], last); }
    }
  }

  /** The record was there before the run, or the run made it. */
  ghost predicate Tracked(env: Env, run: string, events: seq<Stored>, m: int, s0: Ledger, s: Ledger, id: string) {
    id in s.prepared ==>
      || (id in s0.prepared && s.prepared[id] == s0.prepared[id])
      || exists i :: RecordedAt(env, run, events, i, m, id, s.prepared[id])
  }

  lemma TrackStep(env: Env, run: string, events: seq<Stored>, m: int, s0: Ledger, s: Ledger, s': Ledger, id: string)
    requires 1 <= m < |events| && AttemptsOf(s0, run) == {} && Tracked(env, run, events, m, s0, s, id)
    requires Effect(env, run, events[m], s, s', id)
    ensures Tracked(env, run, events, m + 1, s0, s', id)
  {
    if id in s.prepared {
      if id in s0.prepared && s.prepared[id] == s0.prepared[id] {
        assert id !in AttemptsOf(s0, run);
      } else {
        var i :| RecordedAt(env, run, events, i, m, id, s.prepared[id]);
        RecordStep(env, run, events, i, m, id, s, s');
      }
    } else if id in s'.prepared {
      assert RecordedAt(env, run, events, m, m + 1, id, s'.prepared[id]);
    }
  }

  lemma {:induction false} RunTracks(env: Env, run: string, events: seq<Stored>, m: int, s0: Ledger, id: string)
    requires run in env.runs && 1 <= m <= |events| && Inv(env, s0) && AttemptsOf(s0, run) == {}
    requires ReplayEvents(env, run, Cursor(s0, 0), events[1..m]).Ok?
    ensures Tracked(env, run, events, m, s0, ReplayEvents(env, run, Cursor(s0, 0), events[1..m]).value.ledger, id)
    decreases m
  {
    if m > 1 {
      var before := events[1..m - 1];
      assert events[1..m] == before + [events[m - 1]];
      ReplaySnoc(env, run, Cursor(s0, 0), before, events[m - 1]);
      RunTracks(env, run, events, m - 1, s0, id);
      ReplayKeepsInv(env, run, Cursor(s0, 0), before);
      var c := ReplayEvents(env, run, Cursor(s0, 0), before).value;
      StepEffect(env, run, c, events[m - 1], id);
      TrackStep(env, run, events, m - 1, s0, c.ledger, Step(env, run, c, events[m - 1]).value.ledger, id);
    }
  }

  // --- All runs --------------------------------------------------------------------------------

  ghost predicate NoAttempts(s: Ledger, runs: seq<Run>) {
    forall i :: 0 <= i < |runs| ==> AttemptsOf(s, runs[i].id) == {}
  }

  /** Some event of run `k` prepared the attempt, and the record is what the events of that run make of it. */
  ghost predicate RecordedIn(env: Env, runs: seq<Run>, k: int, id: string, a: Attempt) {
    && 0 <= k < |runs|
    && exists i :: RecordedAt(env, runs[k].id, runs[k].events, i, |runs[k].events|, id, a)
  }

  lemma FirstRunTracks(env: Env, runs: seq<Run>, s: Ledger, id: string)
    requires runs != [] && KnownRuns(env, runs) && Inv(env, s) && NoAttempts(s, runs)
    requires ReplayRun(env, runs[0], s).Ok?
    ensures Tracked(env, runs[0].id, runs[0].events, |runs[0].events|, s, ReplayRun(env, runs[0], s).value, id)
  {
    var r := runs[0];
    assert r.events[1..|r.events|] == r.events[1..];
    RunTracks(env, r.id, r.events, |r.events|, s, id);
  }

  lemma NoAttemptsNext(env: Env, runs: seq<Run>, s: Ledger)
    requires runs != [] && KnownRuns(env, runs) && DistinctRuns(runs) && Inv(env, s) && NoAttempts(s, runs)
    requires ReplayRuns(env, runs, s).Ok?
    ensures ReplayRun(env, runs[0], s).Ok?
    ensures var s', rest := ReplayRun(env, runs[0], s).value, runs[1..];
            && Inv(env, s') && NoAttempts(s', rest) && KnownRuns(env, rest) && DistinctRuns(rest)
            && ReplayRuns(env, rest, s') == ReplayRuns(env, runs, s)
  {
    HeadRunGrew(env, runs, s);
    var s', rest := ReplayRun(env, runs[0], s).value, runs[1..];
    forall i | 0 <= i < |rest| ensures AttemptsOf(s', rest[i].id) == {} {
      assert rest[i] == runs[i + 1];
    }
  }

  ghost predicate RunsTracked(env: Env, runs: seq<Run>, s0: Ledger, s: Ledger, id: string) {
    id in s.prepared ==>
      || (id in s0.prepared && s.prepared[id] == s0.prepared[id])
      || exists k :: RecordedIn(env, runs, k, id, s.prepared[id])
  }

  lemma {:induction false} RunsTrack(env: Env, runs: seq<Run>, s0: Ledger, id: string)
    requires KnownRuns(env, runs) && DistinctRuns(runs) && Inv(env, s0) && NoAttempts(s0, runs)
    requires ReplayRuns(env, runs, s0).Ok?
    ensures RunsTracked(env, runs, s0, ReplayRuns(env, runs, s0).value, id)
  {
    if runs != [] {
      NoAttemptsNext(env, runs, s0);
      FirstRunTracks(env, runs, s0, id);
      var s1 := ReplayRun(env, runs[0], s0).value;
      RunsTrack(env, runs[1..], s1, id);
      TrackedCons(env, runs, s0, s1, ReplayRuns(env, runs, s0).value, id);
    }
  }

  lemma TrackedCons(env: Env, runs: seq<Run>, s0: Ledger, s1: Ledger, s: Ledger, id: string)
    requires runs != [] && RunsTracked(env, runs[1..], s1, s, id)
    requires Tracked(env, runs[0].id, runs[0].events, |runs[0].events|, s0, s1, id)
    ensures RunsTracked(env, runs, s0, s, id)
  {
    if id in s.prepared {
      if id in s1.prepared && s.prepared[id] == s1.prepared[id] {
        if !(id in s0.prepared && s1.prepared[id] == s0.prepared[id]) {
          assert RecordedIn(env, runs, 0, id, s.prepared[id]);
        }
      } else {
        var k :| RecordedIn(env, runs[1..], k, id, s.prepared[id]);
        assert RecordedIn(env, runs, k + 1, id, s.prepared[id]);
      }
    }
  }

  // --- Each attempt is prepared once --------------------------------------------------------------

  lemma StepPrepares(env: Env, run: string, c: Cursor, stored: Stored)
    requires run in env.runs && Inv(env, c.ledger) && Step(env, run, c, stored).Ok?
    ensures var s, s' := c.ledger, Step(env, run, c, stored).value.ledger;
            && Inv(env, s') && s.prepared.Keys <= s'.prepared.Keys
            && (PreparedId(stored.event).Some? ==>
                  PreparedId(stored.event).value !in s.prepared && PreparedId(stored.event).value in s'.prepared)
  {
    StepKeepsInv(env, run, c, stored);
    assert RunOk(c.ledger, run);
    assert Lookup(c.ledger.prepared, SentId(stored.event)).Some? ==>
      AttemptOk(env, c.ledger, SentId(stored.event).value);
    StepEvolves(env, run, c, stored);
  }

  predicate Prepares(events: seq<Stored>, i: int, id: string) {
    0 <= i < |events| && PreparedId(events[i].event) == Some(id)
  }

  lemma {:induction false} ReplayPrepares(env: Env, run: string, c: Cursor, events: seq<Stored>, i: int, id: string)
    requires run in env.runs && Inv(env, c.ledger) && ReplayEvents(env, run, c, events).Ok?
    ensures var s, s' := c.ledger, ReplayEvents(env, run, c, events).value.ledger;
            && s.prepared.Keys <= s'.prepared.Keys
            && (Prepares(events, i, id) ==> id !in s.prepared && id in s'.prepared)
    decreases |events|
  {
    if events != [] {
      StepPrepares(env, run, c, events[0]);
      var c' := Step(env, run, c, events[0]).value;
      ReplayPrepares(env, run, c', events[1..], i - 1, id);
      assert i > 0 && Prepares(events, i, id) ==> Prepares(events[1..], i - 1, id);
    }
  }

  lemma {:induction false} ReplayOnce(env: Env, run: string, c: Cursor, events: seq<Stored>, i: int, j: int, id: string)
    requires run in env.runs && Inv(env, c.ledger) && ReplayEvents(env, run, c, events).Ok?
    requires Prepares(events, i, id) && Prepares(events, j, id) && i <= j
    ensures i == j
    decreases |events|
  {
    StepPrepares(env, run, c, events[0]);
    var c' := Step(env, run, c, events[0]).value;
    if i == 0 {
      assert j > 0 ==> Prepares(events[1..], j - 1, id);
      ReplayPrepares(env, run, c', events[1..], j - 1, id);
    } else {
      ReplayOnce(env, run, c', events[1..], i - 1, j - 1, id);
    }
  }

  /** Event `i` of run `k` prepares the attempt; the first event of a run is not replayed. */
  predicate PreparedAt(runs: seq<Run>, k: int, i: int, id: string) {
    0 <= k < |runs| && 1 <= i && Prepares(runs[k].events, i, id)
  }

  lemma RunPrepares(env: Env, r: Run, s: Ledger, i: int, id: string)
    requires r.id in env.runs && r.events != [] && Inv(env, s) && ReplayRun(env, r, s).Ok?
    ensures s.prepared.Keys <= ReplayRun(env, r, s).value.prepared.Keys
    ensures 1 <= i && Prepares(r.events, i, id) ==> id !in s.prepared && id in ReplayRun(env, r, s).value.prepared
  {
    ReplayPrepares(env, r.id, Cursor(s, 0), r.events[1..], i - 1, id);
    assert 1 <= i && Prepares(r.events, i, id) ==> Prepares(r.events[1..], i - 1, id);
  }

  lemma NextRuns(env: Env, runs: seq<Run>, s: Ledger)
    requires runs != [] && KnownRuns(env, runs) && Inv(env, s) && ReplayRuns(env, runs, s).Ok?
    ensures ReplayRun(env, runs[0], s).Ok? && KnownRuns(env, runs[1..]) && Inv(env, ReplayRun(env, runs[0], s).value)
    ensures ReplayRuns(env, runs[1..], ReplayRun(env, runs[0], s).value) == ReplayRuns(env, runs, s)
  {
    HeadRunGrew(env, runs, s);
  }

  lemma {:induction false} RunsPrepare(env: Env, runs: seq<Run>, s: Ledger, k: int, i: int, id: string)
    requires KnownRuns(env, runs) && Inv(env, s) && ReplayRuns(env, runs, s).Ok?
    ensures s.prepared.Keys <= ReplayRuns(env, runs, s).value.prepared.Keys
    ensures PreparedAt(runs, k, i, id) ==> id !in s.prepared && id in ReplayRuns(env, runs, s).value.prepared
  {
    if runs != [] {
      NextRuns(env, runs, s);
      RunPrepares(env, runs[0], s, i, id);
      RunsPrepare(env, runs[1..], ReplayRun(env, runs[0], s).value, k - 1, i, id);
      assert k > 0 && PreparedAt(runs, k, i, id) ==> PreparedAt(runs[1..], k - 1, i, id);
    }
  }

  lemma RunOnce(env: Env, r: Run, s: Ledger, i: int, j: int, id: string)
    requires r.id in env.runs && r.events != [] && Inv(env, s) && ReplayRun(env, r, s).Ok?
    requires 1 <= i <= j && Prepares(r.events, i, id) && Prepares(r.events, j, id)
    ensures i == j
  {
    assert Prepares(r.events[1..], i - 1, id) && Prepares(r.events[1..], j - 1, id);
    ReplayOnce(env, r.id, Cursor(s, 0), r.events[1..], i - 1, j - 1, id);
  }

  lemma HeadOnce(env: Env, runs: seq<Run>, s: Ledger, i: int, l: int, j: int, id: string)
    requires KnownRuns(env, runs) && Inv(env, s) && ReplayRuns(env, runs, s).Ok?
    requires PreparedAt(runs, 0, i, id) && PreparedAt(runs, l, j, id) && (l == 0 ==> i <= j)
    ensures l == 0 && i == j
  {
    NextRuns(env, runs, s);
    if l > 0 {
      assert PreparedAt(runs[1..], l - 1, j, id);
      RunPrepares(env, runs[0], s, i, id);
      RunsPrepare(env, runs[1..], ReplayRun(env, runs[0], s).value, l - 1, j, id);
    } else {
      RunOnce(env, runs[0], s, i, j, id);
    }
  }

  /** No two events, of one run or of two, prepare the same attempt. */
  lemma {:induction false} RunsOnce(env: Env, runs: seq<Run>, s: Ledger, k: int, i: int, l: int, j: int, id: string)
    requires KnownRuns(env, runs) && Inv(env, s) && ReplayRuns(env, runs, s).Ok?
    requires PreparedAt(runs, k, i, id) && PreparedAt(runs, l, j, id) && k <= l && (k == l ==> i <= j)
    ensures k == l && i == j
    decreases |runs|
  {
    if k > 0 {
      NextRuns(env, runs, s);
      assert PreparedAt(runs[1..], k - 1, i, id) && PreparedAt(runs[1..], l - 1, j, id);
      RunsOnce(env, runs[1..], ReplayRun(env, runs[0], s).value, k - 1, i, l - 1, j, id);
    } else {
      HeadOnce(env, runs, s, i, l, j, id);
    }
  }

  // --- The accepted table ---------------------------------------------------------------------------

  /** The record of a settled attempt, as the events of its run give it. */
  ghost predicate SettledRecord(env: Env, r: Run, i: int, id: string, a: Attempt) {
    && 1 <= i < |r.events| && IsPreparedBy(env, r.id, r.events[i], a)
    && IsClosed(r.events, i, |r.events|, id, a)
  }

  /**
    The accepted table over the stored events: every attempt in it was prepared by exactly one event, in
    exactly one run. Its run, kind, compaction, request, numbers, prompt and sequence number are those of
    that event, and its state is the one named by the first later event of the run that closes it, after
    one that sends it.
   */
  lemma AcceptedRecord(env: Env, runs: seq<Run>, reported: Reported, s: Ledger, id: string) returns (k: nat, i: nat)
    requires KnownRuns(env, runs) && DistinctRuns(runs) && AcceptLedger(env, runs, reported) == Ok(s)
    requires id in s.prepared
    ensures PreparedAt(runs, k, i, id) && SettledRecord(env, runs[k], i, id, s.prepared[id])
    ensures forall l, j :: PreparedAt(runs, l, j, id) ==> l == k && j == i
  {
    EmptyInv(env);
    RunsTrack(env, runs, EmptyLedger, id);
    AcceptedCounts(env, runs, reported, s);
    k :| RecordedIn(env, runs, k, id, s.prepared[id]);
    i :| RecordedAt(env, runs[k].id, runs[k].events, i, |runs[k].events|, id, s.prepared[id]);
    assert Settled(s.prepared[id]);
    forall l, j | PreparedAt(runs, l, j, id) ensures l == k && j == i {
      if l < k || (l == k && j <= i) {
        RunsOnce(env, runs, EmptyLedger, l, j, k, i, id);
      } else {
        RunsOnce(env, runs, EmptyLedger, k, i, l, j, id);
      }
    }
  }

  /** Conversely, every attempt that an event prepares is in the accepted table. */
  lemma PreparedIsAccepted(env: Env, runs: seq<Run>, reported: Reported, s: Ledger, k: nat, i: nat, id: string)
    requires KnownRuns(env, runs) && DistinctRuns(runs) && AcceptLedger(env, runs, reported) == Ok(s)
    requires PreparedAt(runs, k, i, id)
    ensures id in s.prepared
  {
    EmptyInv(env);
    RunsPrepare(env, runs, EmptyLedger, k, i, id);
  }
}
