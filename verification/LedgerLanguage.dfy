/**
  The tables and the grammar agree: at every point of a run the tables are what the
  episodes read so far say, and an event is accepted exactly when the parser can read it.
 */
module LedgerLanguage {
  import opened Basics
  import opened LedgerModel
  import opened LedgerGrammar
  import opened LedgerParsing

  // --- Tables and histories -----------------------------------------------------

  function KindOf(c: Option<string>): RequestKind {
    if c.None? then AgentRequest else ContextCompaction
  }

  /** The record of the attempt an open chain waits on. */
  predicate RecordMatches(env: Env, run: string, a: Attempt, o: OpenEpisode)
    requires o.Waiting? && o.ids != []
  {
    && a.runId == run
    && a.kind == KindOf(o.compaction)
    && a.compactionId == o.compaction
    && a.attempt == |o.ids| - 1
    && a.rawRequest == Nth(o.base, |o.ids| - 1)
    && a.state == (if o.inFlight then InFlight else Prepared)
    && env.fingerprint(o.base.systemPrompt) == Some(a.prompt)
  }

  predicate OpenMatches(env: Env, run: string, s: Ledger, o: OpenEpisode) {
    if o.Idle? then run !in s.activeAgent && run !in s.activeCompaction
    else
      && o.ids != []
      && var id := Last(o.ids);
         && id in s.prepared
         && RecordMatches(env, run, s.prepared[id], o)
         && (if o.compaction.None? then
               run in s.activeAgent && s.activeAgent[run] == id && run !in s.activeCompaction
             else
               && run !in s.activeAgent && run in s.activeCompaction && s.activeCompaction[run] == id
               && (run, o.compaction.value) in s.compactions
               && var att := s.compactions[(run, o.compaction.value)];
                  SamePrompt(s.prepared[id].prompt, att.orderedBlocks, att.wire))
  }

  predicate KnownCompaction(h: History, cid: string) {
    HasCompaction(h.closed, cid) || (h.open.Waiting? && h.open.compaction == Some(cid))
  }

  ghost predicate CompactionsMatch(run: string, s: Ledger, h: History) {
    forall cid :: ((run, cid) in s.compactions <==> KnownCompaction(h, cid))
               && ((run, cid) in s.stoppedCompactions ==> (run, cid) in s.compactions)
  }

  function AgentsSoFar(h: History): nat {
    Agents(h.closed) + if h.open.Waiting? && h.open.compaction.None? then 1 else 0
  }

  ghost predicate IdsMatch(others: set<string>, s: Ledger, h: History) {
    forall id :: id in s.prepared <==> id in AllIds(h) || id in others
  }

  /** `others` are the attempt ids that the tables already hold for other runs. */
  ghost predicate Matches(env: Env, run: string, others: set<string>, c: Cursor, h: History)
    requires run in env.runs
  {
    && ValidHistory(env, run, others, h)
    && IdsMatch(others, c.ledger, h)
    && OpenMatches(env, run, c.ledger, h.open)
    && (run in c.ledger.agentStopped <==> Halted(h.closed))
    && c.lastAgentNumber == AgentsSoFar(h)
    && CompactionsMatch(run, c.ledger, h)
  }

  // --- Each event -----------------------------------------------------------------

  /** Tables and parser accept the same events and stay matched. */
  ghost predicate Agree(env: Env, run: string, others: set<string>, c: Result<Cursor, Code>, h: Option<History>)
    requires run in env.runs
  {
    (c.Ok? <==> h.Some?) && (c.Ok? ==> Matches(env, run, others, c.value, h.value))
  }

  lemma UnusedIffNew(env: Env, run: string, others: set<string>, c: Cursor, h: History, id: Option<string>)
    requires run in env.runs && Matches(env, run, others, c, h)
    ensures Unused(h, others, id) <==> IsId(id) && id.value !in c.ledger.prepared
  {
  }

  lemma AgentStartAgrees(env: Env, run: string, others: set<string>, c: Cursor, h: History, stored: Stored)
    requires run in env.runs && Matches(env, run, others, c, h) && stored.event.ModelRequestPrepared?
    ensures Agree(env, run, others, Step(env, run, c, stored), Parse(env, run, others, h, stored.event))
  {
    UnusedIffNew(env, run, others, c, h, stored.event.attemptId);
    if Parse(env, run, others, h, stored.event).Some? {
      ParseSound(env, run, others, h, stored.event);
      var h' := Parse(env, run, others, h, stored.event).value;
      assert AllIds(h') == AllIds(h) + {stored.event.attemptId.value};
      assert Nth(h'.open.base, 0) == h'.open.base;
    }
  }

  lemma CompactionStartIff(env: Env, run: string, others: set<string>, c: Cursor, h: History, stored: Stored)
    requires run in env.runs && Matches(env, run, others, c, h) && stored.event.CompactionPrepared?
    ensures Step(env, run, c, stored).Ok? <==> Parse(env, run, others, h, stored.event).Some?
  {
    UnusedIffNew(env, run, others, c, h, stored.event.attemptId);
  }

  lemma CompactionStartAgrees(env: Env, run: string, others: set<string>, c: Cursor, h: History, stored: Stored)
    requires run in env.runs && Matches(env, run, others, c, h) && stored.event.CompactionPrepared?
    ensures Agree(env, run, others, Step(env, run, c, stored), Parse(env, run, others, h, stored.event))
  {
    CompactionStartIff(env, run, others, c, h, stored);
    if Parse(env, run, others, h, stored.event).Some? {
      ParseSound(env, run, others, h, stored.event);
      var h' := Parse(env, run, others, h, stored.event).value;
      assert AllIds(h') == AllIds(h) + {stored.event.attemptId.value};
      assert Nth(h'.open.base, 0) == h'.open.base;
    }
  }

  lemma SendMatches(env: Env, run: string, others: set<string>, c: Cursor, h: History)
    requires run in env.runs && Matches(env, run, others, c, h) && h.open.Waiting? && !h.open.inFlight
    ensures Matches(env, run, others, c.(ledger := SetInFlight(c.ledger, Last(h.open.ids))),
                    h.(open := h.open.(inFlight := true)))
  {
    assert AllIds(h.(open := h.open.(inFlight := true))) == AllIds(h);
  }

  /** A send is accepted exactly when the run waits on that very attempt, not yet sent. */
  lemma SendIff(env: Env, run: string, others: set<string>, c: Cursor, h: History, stored: Stored)
    requires run in env.runs && Matches(env, run, others, c, h)
    requires stored.event.ModelRequestInFlight? || stored.event.CompactionInFlight?
    ensures Step(env, run, c, stored).Ok? <==> Parse(env, run, others, h, stored.event).Some?
  {
  }

  lemma SendAgrees(env: Env, run: string, others: set<string>, c: Cursor, h: History, stored: Stored)
    requires run in env.runs && Matches(env, run, others, c, h)
    requires stored.event.ModelRequestInFlight? || stored.event.CompactionInFlight?
    ensures Agree(env, run, others, Step(env, run, c, stored), Parse(env, run, others, h, stored.event))
  {
    SendIff(env, run, others, c, h, stored);
    if Parse(env, run, others, h, stored.event).Some? {
      SendMatches(env, run, others, c, h);
    }
  }

  /** The retry of a sendable request is itself accepted by the preparation check. */
  lemma RetryPrepares(env: Env, run: string, s: Ledger, sequence: int, id: Option<string>, request: Option<Request>,
                      kind: RequestKind, cid: Option<string>, a: Attempt, o: OpenEpisode)
    requires run in env.runs && o.Waiting? && o.ids != [] && Sendable(env, run, o.base)
    requires RecordMatches(env, run, a, o)
    ensures var r := PrepareAttempt(env, s, run, sequence, id, request, kind, cid, Some(a));
            && (r.Ok? <==> IsId(id) && id.value !in s.prepared && request == Some(Nth(o.base, |o.ids|)))
            && (r.Ok? ==> && r.value.prompt == a.prompt && r.value.rawRequest == Nth(o.base, |o.ids|)
                          && r.value.attempt == |o.ids| && r.value.state == Prepared && r.value.runId == run
                          && r.value.kind == kind && r.value.compactionId == cid)
  {
  }

  lemma HasCompactionSnoc(es: seq<Episode>, e: Episode, cid: string)
    ensures HasCompaction(es + [e], cid) <==> HasCompaction(es, cid) || (e.Chain? && e.compaction == Some(cid))
  {
    var all := es + [e];
    if HasCompaction(es, cid) {
      var i :| 0 <= i < |es| && es[i].Chain? && es[i].compaction == Some(cid);
      assert all[i] == es[i];
    }
    assert all[|es|] == e;
  }

  /** Closing a chain leaves the known compactions alone. */
  lemma CloseCompactions(h: History, ending: Ending)
    requires h.open.Waiting?
    ensures forall cid :: KnownCompaction(Close(h, ending), cid) <==> KnownCompaction(h, cid)
  {
    forall cid ensures KnownCompaction(Close(h, ending), cid) <==> KnownCompaction(h, cid) {
      HasCompactionSnoc(h.closed, Chain(h.open.compaction, h.open.base, h.open.ids, ending), cid);
    }
  }

  /** Settling the attempt in flight and releasing the run matches closing the episode. */
  lemma CloseMatches(env: Env, run: string, others: set<string>, c: Cursor, c': Cursor, h: History, ending: Ending)
    requires run in env.runs && Matches(env, run, others, c, h) && h.open.Waiting? && h.open.inFlight
    requires forall id :: id in c'.ledger.prepared <==> id in c.ledger.prepared
    requires run !in c'.ledger.activeAgent && run !in c'.ledger.activeCompaction
    requires run in c'.ledger.agentStopped <==> h.open.compaction.None? && ending == Stopped
    requires c'.lastAgentNumber == c.lastAgentNumber && c'.ledger.compactions == c.ledger.compactions
    requires forall cid :: (run, cid) in c'.ledger.stoppedCompactions ==> (run, cid) in c.ledger.compactions
    ensures Matches(env, run, others, c', Close(h, ending))
  {
    CloseSound(env, run, others, h, ending);
    CloseCompactions(h, ending);
    TraceSnoc(h.closed, Chain(h.open.compaction, h.open.base, h.open.ids, ending));
  }

  /** Replacing the attempt in flight by its retry matches extending the chain. */
  lemma RetryMatches(env: Env, run: string, others: set<string>, c: Cursor, c': Cursor, h: History, newId: string)
    requires run in env.runs && Matches(env, run, others, c, h) && h.open.Waiting? && h.open.inFlight
    requires Unused(h, others, Some(newId))
    requires forall id :: id in c'.ledger.prepared <==> id in c.ledger.prepared || id == newId
    requires OpenMatches(env, run, c'.ledger, h.open.(ids := h.open.ids + [newId], inFlight := false))
    requires c'.ledger.agentStopped == c.ledger.agentStopped && c'.lastAgentNumber == c.lastAgentNumber
    requires forall cid :: (run, cid) in c'.ledger.compactions <==> (run, cid) in c.ledger.compactions
    requires c'.ledger.stoppedCompactions == c.ledger.stoppedCompactions
    ensures Matches(env, run, others, c', h.(open := h.open.(ids := h.open.ids + [newId], inFlight := false)))
  {
    RetrySound(env, run, others, h, newId);
  }

  lemma AgentFailAgrees(env: Env, run: string, others: set<string>, c: Cursor, h: History, stored: Stored)
    requires run in env.runs && Matches(env, run, others, c, h) && stored.event.ModelRequestFailed?
    ensures Agree(env, run, others, Step(env, run, c, stored), Parse(env, run, others, h, stored.event))
  {
    var e, s := stored.event, c.ledger;
    if WaitsOn(h, None, e.attemptId, true) {
      match e.retry
      case Some(RetryWith(Some(plan))) =>
        UnusedIffNew(env, run, others, c, h, plan.attemptId);
        RetryPrepares(env, run, s, stored.sequence, plan.attemptId, plan.request, AgentRequest, None,
                      s.prepared[e.attemptId.value], h.open);
        if Parse(env, run, others, h, e).Some? {
          assert Last(h.open.ids + [plan.attemptId.value]) == plan.attemptId.value;
          RetryMatches(env, run, others, c, Step(env, run, c, stored).value, h, plan.attemptId.value);
        }
      case Some(StopRetrying) =>
        CloseMatches(env, run, others, c, Step(env, run, c, stored).value, h, Stopped);
      case _ =>
    }
  }

  lemma CompactionRetryAgrees(
    env: Env, run: string, others: set<string>, c: Cursor, h: History, stored: Stored, plan: RetryPlan)
    requires run in env.runs && Matches(env, run, others, c, h) && stored.event.CompactionAttemptFailed?
    requires stored.event.retry == Some(RetryWith(Some(plan)))
    requires stored.event.compactionId.Some? && WaitsOn(h, stored.event.compactionId, stored.event.attemptId, true)
    ensures Agree(env, run, others, Step(env, run, c, stored), Parse(env, run, others, h, stored.event))
  {
    var e, s := stored.event, c.ledger;
    UnusedIffNew(env, run, others, c, h, plan.attemptId);
    RetryPrepares(env, run, s, stored.sequence, plan.attemptId, plan.request, ContextCompaction, e.compactionId,
                  s.prepared[e.attemptId.value], h.open);
    if Parse(env, run, others, h, e).Some? {
      assert Last(h.open.ids + [plan.attemptId.value]) == plan.attemptId.value;
      RetryMatches(env, run, others, c, Step(env, run, c, stored).value, h, plan.attemptId.value);
    }
  }

  lemma CompactionStopAgrees(env: Env, run: string, others: set<string>, c: Cursor, h: History, stored: Stored)
    requires run in env.runs && Matches(env, run, others, c, h) && stored.event.CompactionAttemptFailed?
    requires stored.event.retry == Some(StopRetrying)
    requires stored.event.compactionId.Some? && WaitsOn(h, stored.event.compactionId, stored.event.attemptId, true)
    ensures Agree(env, run, others, Step(env, run, c, stored), Parse(env, run, others, h, stored.event))
  {
    CloseMatches(env, run, others, c, Step(env, run, c, stored).value, h, Stopped);
  }

  /** A failure of anything but the attempt in flight is rejected on both sides. */
  lemma CompactionFailRejected(env: Env, run: string, others: set<string>, c: Cursor, h: History, stored: Stored)
    requires run in env.runs && Matches(env, run, others, c, h) && stored.event.CompactionAttemptFailed?
    requires stored.event.compactionId.None?
          || !WaitsOn(h, stored.event.compactionId, stored.event.attemptId, true)
    ensures Step(env, run, c, stored).Err? && Parse(env, run, others, h, stored.event).None?
  {
  }

  lemma CompactionFailAgrees(env: Env, run: string, others: set<string>, c: Cursor, h: History, stored: Stored)
    requires run in env.runs && Matches(env, run, others, c, h) && stored.event.CompactionAttemptFailed?
    ensures Agree(env, run, others, Step(env, run, c, stored), Parse(env, run, others, h, stored.event))
  {
    var e := stored.event;
    if e.compactionId.None? || !WaitsOn(h, e.compactionId, e.attemptId, true) {
      CompactionFailRejected(env, run, others, c, h, stored);
    } else {
      match e.retry
      case Some(RetryWith(Some(plan))) => CompactionRetryAgrees(env, run, others, c, h, stored, plan);
      case Some(StopRetrying) => CompactionStopAgrees(env, run, others, c, h, stored);
      case _ =>
    }
  }

  lemma AgentCommitAgrees(env: Env, run: string, others: set<string>, c: Cursor, h: History, stored: Stored)
    requires run in env.runs && Matches(env, run, others, c, h) && stored.event.ModelResponseCommitted?
    ensures Agree(env, run, others, Step(env, run, c, stored), Parse(env, run, others, h, stored.event))
  {
    if WaitsOn(h, None, stored.event.attemptId, true) {
      CloseMatches(env, run, others, c, Step(env, run, c, stored).value, h, Committed);
    }
  }

  lemma CompactionCommitAgrees(env: Env, run: string, others: set<string>, c: Cursor, h: History, stored: Stored)
    requires run in env.runs && Matches(env, run, others, c, h)
    requires stored.event.CompactionCommitted? && stored.event.hasOutput
    ensures Agree(env, run, others, Step(env, run, c, stored), Parse(env, run, others, h, stored.event))
  {
    var cid := stored.event.compactionId;
    if IsId(cid) && h.open.Waiting? && WaitsOn(h, cid, Some(Last(h.open.ids)), true) {
      CloseMatches(env, run, others, c, Step(env, run, c, stored).value, h, Committed);
    }
  }

  lemma LocalCompactions(h: History, cid: string)
    requires h.open.Idle?
    ensures forall x ::
      KnownCompaction(h.(closed := h.closed + [LocalCompaction(cid)]), x) <==> KnownCompaction(h, x)
  {
    forall x ensures HasCompaction(h.closed + [LocalCompaction(cid)], x) <==> HasCompaction(h.closed, x) {
      HasCompactionSnoc(h.closed, LocalCompaction(cid), x);
    }
  }

  lemma LocalCommitAgrees(env: Env, run: string, others: set<string>, c: Cursor, h: History, stored: Stored)
    requires run in env.runs && Matches(env, run, others, c, h)
    requires stored.event.CompactionCommitted? && !stored.event.hasOutput
    ensures Agree(env, run, others, Step(env, run, c, stored), Parse(env, run, others, h, stored.event))
  {
    var cid := stored.event.compactionId;
    if IsId(cid) {
      assert (run, cid.value) in c.ledger.compactions <==> KnownCompaction(h, cid.value);
      if h.open.Idle? && !Halted(h.closed) && !HasCompaction(h.closed, cid.value) {
        LocalSound(env, run, others, h, cid.value);
        LocalCompactions(h, cid.value);
        TraceSnoc(h.closed, LocalCompaction(cid.value));
      }
    }
  }

  lemma StepAgrees(env: Env, run: string, others: set<string>, c: Cursor, h: History, stored: Stored)
    requires run in env.runs && Matches(env, run, others, c, h)
    ensures Agree(env, run, others, Step(env, run, c, stored), Parse(env, run, others, h, stored.event))
  {
    match stored.event
    case ModelRequestPrepared(_, _) => AgentStartAgrees(env, run, others, c, h, stored);
    case ModelRequestInFlight(_) => SendAgrees(env, run, others, c, h, stored);
    case ModelRequestFailed(_, _) => AgentFailAgrees(env, run, others, c, h, stored);
    case ModelResponseCommitted(_) => AgentCommitAgrees(env, run, others, c, h, stored);
    case CompactionPrepared(_, _, _) => CompactionStartAgrees(env, run, others, c, h, stored);
    case CompactionInFlight(_, _) => SendAgrees(env, run, others, c, h, stored);
    case CompactionAttemptFailed(_, _, _) => CompactionFailAgrees(env, run, others, c, h, stored);
    case CompactionCommitted(_, hasOutput) =>
      if hasOutput {
        CompactionCommitAgrees(env, run, others, c, h, stored);
      } else {
        LocalCommitAgrees(env, run, others, c, h, stored);
      }
    case _ =>
  }
  // --- Whole runs -------------------------------------------------------------------

  function Events(stored: seq<Stored>): seq<Event> {
    if stored == [] then [] else [stored[0].event] + Events(stored[1..])
  }

  lemma {:induction false} ReplayAgrees(
    env: Env, run: string, others: set<string>, c: Cursor, h: History, stored: seq<Stored>)
    requires run in env.runs && Matches(env, run, others, c, h)
    ensures Agree(env, run, others, ReplayEvents(env, run, c, stored), ParseAll(env, run, others, h, Events(stored)))
    decreases |stored|
  {
    if stored != [] {
      StepAgrees(env, run, others, c, h, stored[0]);
      assert Events(stored)[1..] == Events(stored[1..]);
      var c' := Step(env, run, c, stored[0]);
      if c'.Ok? {
        var h' := Parse(env, run, others, h, stored[0].event).value;
        ReplayAgrees(env, run, others, c'.value, h', stored[1..]);
      }
    }
  }

  /** The run has left no mark on the tables yet. */
  ghost predicate Untouched(s: Ledger, run: string) {
    && run !in s.activeAgent && run !in s.activeCompaction && run !in s.agentStopped
    && (forall cid :: (run, cid) !in s.compactions && (run, cid) !in s.stoppedCompactions)
  }

  lemma UntouchedMatches(env: Env, run: string, s: Ledger)
    requires run in env.runs && Untouched(s, run)
    ensures Matches(env, run, s.prepared.Keys, Cursor(s, 0), History([], Idle))
  {
  }

  /** The events after the first one end in the only terminal. */
  lemma {:induction false} ShapeBody(events: seq<Stored>)
    requires events != [] && CheckShape(events).Ok?
    ensures |events| >= 2
    ensures forall i :: 0 <= i < |events| - 1 ==> !events[i].event.Terminal?
  {
    var n := |events| - 1;
    forall i | 0 <= i < n ensures !events[i].event.Terminal? {
      if events[i].event.Terminal? { TwoTerminals(events, i, n); }
    }
  }

  lemma {:induction false} TwoTerminals(events: seq<Stored>, i: nat, j: nat)
    requires i < j < |events| && events[i].event.Terminal? && events[j].event.Terminal?
    ensures CountKind(events, Terminal) >= 2
  {
    if i > 0 {
      TwoTerminals(events[1..], i - 1, j - 1);
    } else {
      OneTerminal(events[1..], j - 1);
    }
  }

  lemma {:induction false} OneTerminal(events: seq<Stored>, j: nat)
    requires j < |events| && events[j].event.Terminal?
    ensures CountKind(events, Terminal) >= 1
  {
    if j > 0 { OneTerminal(events[1..], j - 1); }
  }

  lemma {:induction false} EventsSnoc(stored: seq<Stored>, last: Stored)
    ensures Events(stored + [last]) == Events(stored) + [last.event]
  {
    if stored == [] {
      assert [last][1..] == [];
    } else {
      assert (stored + [last])[1..] == stored[1..] + [last];
      EventsSnoc(stored[1..], last);
    }
  }

  lemma {:induction false} EventsAt(stored: seq<Stored>)
    ensures |Events(stored)| == |stored|
    ensures forall i :: 0 <= i < |stored| ==> Events(stored)[i] == stored[i].event
  {
    if stored != [] { EventsAt(stored[1..]); }
  }

  lemma {:induction false} ParseSnoc(env: Env, run: string, others: set<string>, h: History, es: seq<Event>, e: Event)
    requires run in env.runs
    ensures var mid := ParseAll(env, run, others, h, es);
            ParseAll(env, run, others, h, es + [e])
            == if mid.Some? then Parse(env, run, others, mid.value, e) else None
    decreases |es|
  {
    if es == [] {
      assert [e][1..] == [] && es + [e] == [e];
    } else {
      assert (es + [e])[1..] == es[1..] + [e];
      var h' := Parse(env, run, others, h, es[0]);
      if h'.Some? { ParseSnoc(env, run, others, h'.value, es[1..], e); }
    }
  }

  /** The stored events between creation and terminal. */
  function Body(r: Run): seq<Event>
    requires |r.events| >= 2
  {
    Events(r.events[1..|r.events| - 1])
  }

  ghost predicate Shaped(r: Run) {
    r.events != [] && CheckShape(r.events).Ok?
  }

  /** A shaped run is replayed to the end exactly when its body parses and leaves nothing open. */
  lemma RunParses(env: Env, r: Run, s: Ledger)
    requires r.id in env.runs && Shaped(r) && Untouched(s, r.id)
    ensures |r.events| >= 2
    ensures var h := ParseAll(env, r.id, s.prepared.Keys, History([], Idle), Body(r));
            && (ReplayRun(env, r, s).Ok? <==> h.Some? && h.value.open.Idle?)
            && (ReplayRun(env, r, s).Ok? ==>
                  exists n :: Matches(env, r.id, s.prepared.Keys, Cursor(ReplayRun(env, r, s).value, n), h.value))
    ensures forall i :: 0 <= i < |Body(r)| ==> !Body(r)[i].Terminal?
  {
    var n := |r.events| - 1;
    ShapeBody(r.events);
    var body, last := r.events[1..n], r.events[n];
    var others, h0 := s.prepared.Keys, History([], Idle);
    assert r.events[1..] == body + [last];
    EventsSnoc(body, last);
    EventsAt(body);
    ParseSnoc(env, r.id, others, h0, Events(body), last.event);
    UntouchedMatches(env, r.id, s);
    ReplayAgrees(env, r.id, others, Cursor(s, 0), h0, r.events[1..]);
    if ReplayRun(env, r, s).Ok? {
      var c := ReplayEvents(env, r.id, Cursor(s, 0), r.events[1..]).value;
      assert Matches(env, r.id, others, Cursor(ReplayRun(env, r, s).value, c.lastAgentNumber),
                     ParseAll(env, r.id, others, h0, Body(r)).value);
    }
  }

  /**
    The language of the ledger: a run whose envelope is in order is accepted exactly when its
    ledger events are the trace of a well-formed list of episodes.
   */
  lemma RunLanguage(env: Env, r: Run, s: Ledger)
    requires r.id in env.runs && Shaped(r) && Untouched(s, r.id)
    ensures |r.events| >= 2
    ensures ReplayRun(env, r, s).Ok? <==>
            exists es :: WellFormed(env, r.id, s.prepared.Keys, es) && Ledgered(Body(r)) == Trace(es)
  {
    RunParses(env, r, s);
    var others := s.prepared.Keys;
    var h := ParseAll(env, r.id, others, History([], Idle), Body(r));
    if ReplayRun(env, r, s).Ok? {
      ParsesIffEpisodes(env, r.id, others, Body(r), h.value.closed);
    }
    if es :| WellFormed(env, r.id, others, es) && Ledgered(Body(r)) == Trace(es) {
      ParsesIffEpisodes(env, r.id, others, Body(r), es);
    }
  }
}
