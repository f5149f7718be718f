/**
  Settlement over whole replays: the invariant holds at every reachable state, the
  retry-mismatch branch is dead, and on acceptance the counters of the terminal receipt
  are the numbers of preparations and of in-flight events in the stored ledgers.
 */
module LedgerSettlement {
  import opened Basics
  import opened LedgerModel
  import opened LedgerInvariant

  // --- Every reachable state ----------------------------------------------------

  lemma {:induction false} ReplayKeepsInv(env: Env, run: string, c: Cursor, events: seq<Stored>)
    requires run in env.runs && Inv(env, c.ledger)
    ensures var r := ReplayEvents(env, run, c, events);
            if r.Ok? then Inv(env, r.value.ledger) else r.error != CompactionPromptRetryMismatch
    decreases |events|
  {
    if events != [] {
      if Step(env, run, c, events[0]).Ok? {
        StepKeepsInv(env, run, c, events[0]);
        ReplayKeepsInv(env, run, Step(env, run, c, events[0]).value, events[1..]);
      } else {
        NoPromptMismatch(env, run, c, events[0]);
      }
    }
  }

  /** A retried request equals its predecessor up to the attempt number, so its prompt cannot differ. */
  lemma NoPromptMismatch(env: Env, run: string, c: Cursor, stored: Stored)
    requires run in env.runs && Inv(env, c.ledger)
    ensures Step(env, run, c, stored) != Err(CompactionPromptRetryMismatch)
  {
    if stored.event.CompactionAttemptFailed? { FailedCompactionMatches(env, run, c, stored); }
  }

  lemma FailedCompactionMatches(env: Env, run: string, c: Cursor, stored: Stored)
    requires run in env.runs && Inv(env, c.ledger) && stored.event.CompactionAttemptFailed?
    ensures Step(env, run, c, stored) != Err(CompactionPromptRetryMismatch)
  {
    var s, e := c.ledger, stored.event;
    if Lookup(s.prepared, e.attemptId).Some? {
      assert AttemptOk(env, s, e.attemptId.value);
    }
  }

  /**
    From the empty tables, over any runs: every state reached satisfies the invariant, and the
    branch that reports a changed compaction prompt is never taken.
   */
  lemma {:induction false} ReachableInv(env: Env, runs: seq<Run>, s: Ledger)
    requires KnownRuns(env, runs) && Inv(env, s)
    ensures var r := ReplayRuns(env, runs, s);
            if r.Ok? then Inv(env, r.value) else r.error != CompactionPromptRetryMismatch
  {
    if runs != [] {
      ReplayKeepsInv(env, runs[0].id, Cursor(s, 0), runs[0].events[1..]);
      var r := ReplayRun(env, runs[0], s);
      if r.Ok? { ReachableInv(env, runs[1..], r.value); }
    }
  }

  lemma EmptyInv(env: Env)
    ensures Inv(env, EmptyLedger)
  {
  }

  // --- Counting events ------------------------------------------------------------

  /** The id of the attempt an event puts in flight, if it does. */
  function SentId(e: Event): Option<string> {
    match e
    case ModelRequestInFlight(id) => id
    case CompactionInFlight(_, id) => id
    case _ => None
  }

  function Preparations(events: seq<Stored>): nat {
    if events == [] then 0
    else (if PreparedId(events[0].event).Some? then 1 else 0) + Preparations(events[1..])
  }

  function Sendings(events: seq<Stored>): nat {
    if events == [] then 0
    else (if SentId(events[0].event).Some? then 1 else 0) + Sendings(events[1..])
  }

  function AttemptsOf(s: Ledger, run: string): set<string> {
    set id | id in s.prepared && s.prepared[id].runId == run
  }

  /** `s'` has the attempts of `s`, plus the one prepared; only the one sent newly went in flight. */
  ghost predicate Evolves(s: Ledger, s': Ledger, run: string, added: Option<string>, sent: Option<string>) {
    && (forall id :: id in s'.prepared <==> id in s.prepared || added == Some(id))
    && (forall id :: id in s.prepared ==>
          && s'.prepared[id].runId == s.prepared[id].runId
          && (s'.prepared[id].hadInFlight <==> s.prepared[id].hadInFlight || sent == Some(id)))
    && (added.Some? ==>
          added.value !in s.prepared && s'.prepared[added.value].runId == run && !s'.prepared[added.value].hadInFlight)
    && (sent.Some? ==> sent.value in s.prepared && !s.prepared[sent.value].hadInFlight && added.None?)
  }

  lemma AgentStepEvolves(env: Env, run: string, c: Cursor, stored: Stored)
    requires run in env.runs && Step(env, run, c, stored).Ok? && !stored.event.ModelRequestInFlight?
    requires stored.event.ModelRequestPrepared? || stored.event.ModelRequestFailed?
          || stored.event.ModelResponseCommitted?
    ensures Evolves(c.ledger, Step(env, run, c, stored).value.ledger, run, PreparedId(stored.event), None)
  {
    match stored.event
    case ModelRequestFailed(_, Some(RetryWith(_))) =>
    case _ =>
  }

  lemma CompactionStepEvolves(env: Env, run: string, c: Cursor, stored: Stored)
    requires run in env.runs && Step(env, run, c, stored).Ok?
    requires stored.event.CompactionPrepared? || stored.event.CompactionAttemptFailed?
          || stored.event.CompactionCommitted?
    ensures Evolves(c.ledger, Step(env, run, c, stored).value.ledger, run, PreparedId(stored.event), None)
  {
    match stored.event
    case CompactionAttemptFailed(_, _, Some(RetryWith(_))) =>
    case _ =>
  }

  lemma StepEvolves(env: Env, run: string, c: Cursor, stored: Stored)
    requires run in env.runs && Step(env, run, c, stored).Ok?
    requires Lookup(c.ledger.prepared, SentId(stored.event)).Some? ==>
      AttemptOk(env, c.ledger, SentId(stored.event).value) && RunOk(c.ledger, run)
    ensures Evolves(c.ledger, Step(env, run, c, stored).value.ledger, run,
                    PreparedId(stored.event), SentId(stored.event))
  {
    match stored.event
    case ModelRequestPrepared(_, _) => AgentStepEvolves(env, run, c, stored);
    case ModelRequestFailed(_, _) => AgentStepEvolves(env, run, c, stored);
    case ModelResponseCommitted(_) => AgentStepEvolves(env, run, c, stored);
    case CompactionPrepared(_, _, _) => CompactionStepEvolves(env, run, c, stored);
    case CompactionAttemptFailed(_, _, _) => CompactionStepEvolves(env, run, c, stored);
    case CompactionCommitted(_, _) => CompactionStepEvolves(env, run, c, stored);
    case _ =>
  }

  lemma EvolvesTotal(s: Ledger, s': Ledger, run: string, added: Option<string>, sent: Option<string>)
    requires Evolves(s, s', run, added, sent)
    ensures |s'.prepared| == |s.prepared| + if added.Some? then 1 else 0
  {
    EvolvesKeys(s, s', run, added, sent);
    assert |s'.prepared.Keys| == |s'.prepared| && |s.prepared.Keys| == |s.prepared|;
  }

  lemma EvolvesKeys(s: Ledger, s': Ledger, run: string, added: Option<string>, sent: Option<string>)
    requires Evolves(s, s', run, added, sent)
    ensures s'.prepared.Keys == s.prepared.Keys + if added.Some? then {added.value} else {}
    ensures added.Some? ==> added.value !in s.prepared.Keys
  {
  }

  lemma EvolvesAttempts(s: Ledger, s': Ledger, run: string, added: Option<string>, sent: Option<string>)
    requires Evolves(s, s', run, added, sent)
    ensures |AttemptsOf(s', run)| == |AttemptsOf(s, run)| + if added.Some? then 1 else 0
  {
    if added.Some? {
      assert AttemptsOf(s', run) == AttemptsOf(s, run) + {added.value};
    } else {
      assert AttemptsOf(s', run) == AttemptsOf(s, run);
    }
  }

  lemma EvolvesOthers(s: Ledger, s': Ledger, run: string, added: Option<string>, sent: Option<string>, r: string)
    requires Evolves(s, s', run, added, sent) && r != run
    ensures AttemptsOf(s', r) == AttemptsOf(s, r)
  {
  }

  lemma EvolvesInFlight(s: Ledger, s': Ledger, run: string, added: Option<string>, sent: Option<string>)
    requires Evolves(s, s', run, added, sent)
    ensures |InFlightAttempts(s')| == |InFlightAttempts(s)| + if sent.Some? then 1 else 0
  {
    if sent.Some? {
      assert InFlightAttempts(s') == InFlightAttempts(s) + {sent.value};
    } else {
      assert InFlightAttempts(s') == InFlightAttempts(s);
    }
  }

  /** `n` attempts were prepared for `run` and `m` went in flight between `s` and `s'`. */
  ghost predicate Grew(s: Ledger, s': Ledger, run: string, n: nat, m: nat) {
    && |s'.prepared| == |s.prepared| + n
    && |AttemptsOf(s', run)| == |AttemptsOf(s, run)| + n
    && (forall r :: r != run ==> AttemptsOf(s', r) == AttemptsOf(s, r))
    && |InFlightAttempts(s')| == |InFlightAttempts(s)| + m
  }

  lemma {:induction false} ReplayCounts(env: Env, run: string, c: Cursor, events: seq<Stored>)
    requires run in env.runs && Inv(env, c.ledger) && ReplayEvents(env, run, c, events).Ok?
    ensures Grew(c.ledger, ReplayEvents(env, run, c, events).value.ledger, run,
                 Preparations(events), Sendings(events))
    decreases |events|
  {
    if events != [] {
      var c' := Step(env, run, c, events[0]).value;
      var added, sent := PreparedId(events[0].event), SentId(events[0].event);
      StepKeepsInv(env, run, c, events[0]);
      assert RunOk(c.ledger, run);
      StepEvolves(env, run, c, events[0]);
      EvolvesTotal(c.ledger, c'.ledger, run, added, sent);
      EvolvesAttempts(c.ledger, c'.ledger, run, added, sent);
      forall r | r != run ensures AttemptsOf(c'.ledger, r) == AttemptsOf(c.ledger, r) {
        EvolvesOthers(c.ledger, c'.ledger, run, added, sent, r);
      }
      EvolvesInFlight(c.ledger, c'.ledger, run, added, sent);
      ReplayCounts(env, run, c', events[1..]);
    }
  }

  ghost function TotalPreparations(runs: seq<Run>): nat
    requires forall i :: 0 <= i < |runs| ==> runs[i].events != []
  {
    if runs == [] then 0 else Preparations(runs[0].events[1..]) + TotalPreparations(runs[1..])
  }

  ghost function TotalSendings(runs: seq<Run>): nat
    requires forall i :: 0 <= i < |runs| ==> runs[i].events != []
  {
    if runs == [] then 0 else Sendings(runs[0].events[1..]) + TotalSendings(runs[1..])
  }

  ghost predicate DistinctRuns(runs: seq<Run>) {
    forall i, j :: 0 <= i < j < |runs| ==> runs[i].id != runs[j].id
  }

  lemma {:induction false} RunsCount(env: Env, runs: seq<Run>, s: Ledger)
    requires KnownRuns(env, runs) && Inv(env, s) && ReplayRuns(env, runs, s).Ok?
    ensures |ReplayRuns(env, runs, s).value.prepared| == |s.prepared| + TotalPreparations(runs)
    ensures |InFlightAttempts(ReplayRuns(env, runs, s).value)| == |InFlightAttempts(s)| + TotalSendings(runs)
  {
    if runs != [] {
      var s1 := ReplayRun(env, runs[0], s).value;
      HeadRunGrew(env, runs, s);
      RunsCount(env, runs[1..], s1);
    }
  }

  /** A run that is not replayed keeps its attempts. */
  lemma {:induction false} OtherRunsCount(env: Env, runs: seq<Run>, s: Ledger, r: string)
    requires KnownRuns(env, runs) && Inv(env, s) && ReplayRuns(env, runs, s).Ok?
    requires forall i :: 0 <= i < |runs| ==> runs[i].id != r
    ensures AttemptsOf(ReplayRuns(env, runs, s).value, r) == AttemptsOf(s, r)
  {
    if runs != [] {
      var s1 := ReplayRun(env, runs[0], s).value;
      HeadRunGrew(env, runs, s);
      OtherRunsCount(env, runs[1..], s1, r);
    }
  }

  lemma HeadRunGrew(env: Env, runs: seq<Run>, s: Ledger)
    requires runs != [] && KnownRuns(env, runs) && Inv(env, s) && ReplayRun(env, runs[0], s).Ok?
    ensures var s1 := ReplayRun(env, runs[0], s).value;
            && Inv(env, s1)
            && Grew(s, s1, runs[0].id, Preparations(runs[0].events[1..]), Sendings(runs[0].events[1..]))
  {
    ReplayKeepsInv(env, runs[0].id, Cursor(s, 0), runs[0].events[1..]);
    ReplayCounts(env, runs[0].id, Cursor(s, 0), runs[0].events[1..]);
  }

  lemma FirstRunCount(env: Env, runs: seq<Run>, s: Ledger)
    requires KnownRuns(env, runs) && DistinctRuns(runs) && Inv(env, s) && ReplayRuns(env, runs, s).Ok? && runs != []
    ensures |AttemptsOf(ReplayRuns(env, runs, s).value, runs[0].id)|
            == |AttemptsOf(s, runs[0].id)| + Preparations(runs[0].events[1..])
  {
    HeadRunGrew(env, runs, s);
    OtherRunsCount(env, runs[1..], ReplayRun(env, runs[0], s).value, runs[0].id);
  }

  lemma {:induction false} EachRunCount(env: Env, runs: seq<Run>, s: Ledger, i: nat)
    requires KnownRuns(env, runs) && DistinctRuns(runs) && Inv(env, s) && ReplayRuns(env, runs, s).Ok? && i < |runs|
    ensures |AttemptsOf(ReplayRuns(env, runs, s).value, runs[i].id)|
            == |AttemptsOf(s, runs[i].id)| + Preparations(runs[i].events[1..])
  {
    HeadRunGrew(env, runs, s);
    if i == 0 {
      FirstRunCount(env, runs, s);
    } else {
      EachRunCount(env, runs[1..], ReplayRun(env, runs[0], s).value, i - 1);
      assert runs[1..][i - 1] == runs[i] && runs[i].id != runs[0].id;
    }
  }

  // --- The verdict ------------------------------------------------------------------

  lemma HasAttemptCounts(s: Ledger, run: string)
    requires HasAttempt(s, run)
    ensures |AttemptsOf(s, run)| > 0
  {
    var id :| id in s.prepared && s.prepared[id].runId == run;
    assert id in AttemptsOf(s, run);
  }

  lemma ReplayFromEmpty(env: Env, runs: seq<Run>, s: Ledger)
    requires KnownRuns(env, runs) && DistinctRuns(runs) && ReplayRuns(env, runs, EmptyLedger) == Ok(s)
    ensures Inv(env, s)
    ensures |s.prepared| == TotalPreparations(runs) && |InFlightAttempts(s)| == TotalSendings(runs)
    ensures forall i :: 0 <= i < |runs| ==> |AttemptsOf(s, runs[i].id)| == Preparations(runs[i].events[1..])
  {
    EmptyInv(env);
    ReachableInv(env, runs, EmptyLedger);
    RunsCount(env, runs, EmptyLedger);
    forall i | 0 <= i < |runs| ensures |AttemptsOf(s, runs[i].id)| == Preparations(runs[i].events[1..]) {
      EachRunCount(env, runs, EmptyLedger, i);
      assert AttemptsOf(EmptyLedger, runs[i].id) == {};
    }
  }

  /** With nothing left active, every attempt is settled, so every attempt went in flight. */
  lemma ClosedSettled(env: Env, s: Ledger)
    requires AttemptsOk(env, s) && s.activeAgent == map[] && s.activeCompaction == map[]
    ensures forall id :: id in s.prepared ==> Settled(s.prepared[id])
    ensures InFlightAttempts(s) == s.prepared.Keys
  {
    forall id | id in s.prepared ensures Settled(s.prepared[id]) {
      assert AttemptOk(env, s, id);
    }
  }

  lemma ClosedAttempts(env: Env, s: Ledger)
    requires CheckClosed(env, s).Ok?
    ensures forall run :: run in env.runs ==> |AttemptsOf(s, run)| > 0
  {
    forall run | run in env.runs ensures |AttemptsOf(s, run)| > 0 {
      HasAttemptCounts(s, run);
    }
  }

  lemma ClosedTotals(env: Env, s: Ledger, reported: Reported)
    requires Inv(env, s) && CheckClosed(env, s).Ok? && CheckCounts(env, s, reported).Ok?
    ensures forall id :: id in s.prepared ==> Settled(s.prepared[id])
    ensures reported.total == Some(|s.prepared|) && reported.total == Some(|InFlightAttempts(s)|)
    ensures reported.root == Some(|StartedBy(env, s, "root")|)
    ensures reported.child == Some(|s.prepared| - |StartedBy(env, s, "root")|)
  {
    ClosedSettled(env, s);
    assert |s.prepared.Keys| == |s.prepared|;
  }

  /** What the closing checks establish on any state that satisfies the invariant. */
  lemma ClosedCounts(env: Env, s: Ledger, reported: Reported)
    requires Inv(env, s) && CheckClosed(env, s).Ok? && CheckCounts(env, s, reported).Ok?
    ensures forall id :: id in s.prepared ==> Settled(s.prepared[id])
    ensures reported.total == Some(|s.prepared|) && reported.total == Some(|InFlightAttempts(s)|)
    ensures reported.root == Some(|StartedBy(env, s, "root")|)
    ensures reported.child == Some(|s.prepared| - |StartedBy(env, s, "root")|)
    ensures forall run :: run in env.runs ==> |AttemptsOf(s, run)| > 0
  {
    ClosedTotals(env, s, reported);
    ClosedAttempts(env, s);
  }

  /**
    On acceptance every attempt went in flight once and settled, and the reported request
    counts are the numbers of preparations and of in-flight events over all runs, split
    between root and child; run by run, the attempts recorded are the attempts prepared.
   */
  lemma AcceptedCounts(env: Env, runs: seq<Run>, reported: Reported, s: Ledger)
    requires KnownRuns(env, runs) && DistinctRuns(runs) && AcceptLedger(env, runs, reported) == Ok(s)
    ensures forall id :: id in s.prepared ==> Settled(s.prepared[id])
    ensures reported.total == Some(|s.prepared|)
    ensures reported.total == Some(TotalPreparations(runs)) && reported.total == Some(TotalSendings(runs))
    ensures reported.root == Some(|StartedBy(env, s, "root")|)
    ensures reported.child == Some(|s.prepared| - |StartedBy(env, s, "root")|)
    ensures forall i :: 0 <= i < |runs| ==> |AttemptsOf(s, runs[i].id)| == Preparations(runs[i].events[1..]) > 0
  {
    ReplayFromEmpty(env, runs, s);
    ClosedCounts(env, s, reported);
  }

  predicate RootOrChild(env: Env) {
    forall r :: r in env.runs ==> env.runs[r].actor.kind == "root" || env.runs[r].actor.kind == "child"
  }

  lemma StartedSplit(env: Env, s: Ledger)
    requires AttemptsOk(env, s) && RootOrChild(env)
    ensures InFlightAttempts(s) == StartedBy(env, s, "root") + StartedBy(env, s, "child")
    ensures StartedBy(env, s, "root") !! StartedBy(env, s, "child")
  {
    forall id | id in InFlightAttempts(s) ensures id in StartedBy(env, s, "root") + StartedBy(env, s, "child") {
      assert AttemptOk(env, s, id);
    }
    assert |"root"| != |"child"|;
  }

  /** When every run is a root or a child, the child count is the number of child attempts. */
  lemma ChildCount(env: Env, s: Ledger, reported: Reported)
    requires Inv(env, s) && CheckCounts(env, s, reported).Ok? && RootOrChild(env)
    ensures reported.child == Some(|StartedBy(env, s, "child")|)
  {
    StartedSplit(env, s);
  }
}
