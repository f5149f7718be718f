/**
  Runs share the table of attempts and nothing else: a set of runs is accepted exactly when
  each run is accepted alone and no two use a common attempt id, in whatever order they come.
 */
module LedgerComposition {
  import opened Basics
  import opened LedgerModel
  import opened LedgerInvariant
  import opened LedgerSettlement
  import opened LedgerGrammar
  import opened LedgerParsing
  import opened LedgerLanguage

  predicate Alone(env: Env, r: Run)
    requires r.id in env.runs && r.events != []
  {
    ReplayRun(env, r, EmptyLedger).Ok?
  }

  /** The attempt ids a run uses when it is replayed alone. */
  function AttemptIds(env: Env, r: Run): set<string>
    requires r.id in env.runs && r.events != []
  {
    if Alone(env, r) then ReplayRun(env, r, EmptyLedger).value.prepared.Keys else {}
  }

  // --- One run on shared tables ---------------------------------------------------

  lemma RunOnShared(env: Env, r: Run, s: Ledger)
    requires r.id in env.runs && Shaped(r) && Untouched(s, r.id)
    ensures ReplayRun(env, r, s).Ok? <==> Alone(env, r) && AttemptIds(env, r) !! s.prepared.Keys
    ensures ReplayRun(env, r, s).Ok? ==>
      var s' := ReplayRun(env, r, s).value;
      && s'.prepared.Keys == s.prepared.Keys + AttemptIds(env, r)
      && r.id !in s'.activeAgent && r.id !in s'.activeCompaction
  {
    RunParses(env, r, s);
    RunParses(env, r, EmptyLedger);
    var h0 := History([], Idle);
    assert EmptyLedger.prepared.Keys == {};
    ParseAllOthers(env, r.id, s.prepared.Keys, h0, Body(r));
    if Alone(env, r) {
      IdsAfter(env, r, EmptyLedger);
    }
    if ReplayRun(env, r, s).Ok? {
      IdsAfter(env, r, s);
    }
  }

  lemma IdsAfter(env: Env, r: Run, s: Ledger)
    requires r.id in env.runs && Shaped(r) && Untouched(s, r.id) && ReplayRun(env, r, s).Ok? && |r.events| >= 2
    ensures var h := ParseAll(env, r.id, s.prepared.Keys, History([], Idle), Body(r));
            var s' := ReplayRun(env, r, s).value;
            && h.Some? && s'.prepared.Keys == s.prepared.Keys + AllIds(h.value)
            && r.id !in s'.activeAgent && r.id !in s'.activeCompaction
  {
    RunParses(env, r, s);
    var h := ParseAll(env, r.id, s.prepared.Keys, History([], Idle), Body(r)).value;
    var s' := ReplayRun(env, r, s).value;
    var n :| Matches(env, r.id, s.prepared.Keys, Cursor(s', n), h);
    assert IdsMatch(s.prepared.Keys, s', h);
  }

  // --- What a run leaves alone --------------------------------------------------------

  /** Everything keyed by run `q` is the same in both tables. */
  ghost predicate SameFor(s: Ledger, s': Ledger, q: string) {
    && SameRun(s, s', q)
    && (forall cid :: ((q, cid) in s'.compactions <==> (q, cid) in s.compactions)
                   && ((q, cid) in s'.stoppedCompactions <==> (q, cid) in s.stoppedCompactions))
  }

  lemma StepSameFor(env: Env, run: string, c: Cursor, stored: Stored, q: string)
    requires run in env.runs && q != run && Step(env, run, c, stored).Ok?
    ensures SameFor(c.ledger, Step(env, run, c, stored).value.ledger, q)
  {
    match stored.event
    case ModelRequestPrepared(_, _) =>
    case ModelRequestInFlight(_) =>
    case ModelRequestFailed(_, retry) => match retry { case Some(RetryWith(_)) => case _ => }
    case ModelResponseCommitted(_) =>
    case CompactionPrepared(_, _, _) =>
    case CompactionInFlight(_, _) =>
    case CompactionAttemptFailed(_, _, retry) => match retry { case Some(RetryWith(_)) => case _ => }
    case CompactionCommitted(_, _) =>
    case _ =>
  }

  lemma {:induction false} ReplaySameFor(env: Env, run: string, c: Cursor, events: seq<Stored>, q: string)
    requires run in env.runs && q != run && ReplayEvents(env, run, c, events).Ok?
    ensures SameFor(c.ledger, ReplayEvents(env, run, c, events).value.ledger, q)
    decreases |events|
  {
    if events != [] {
      StepSameFor(env, run, c, events[0], q);
      ReplaySameFor(env, run, Step(env, run, c, events[0]).value, events[1..], q);
    }
  }

  // --- All runs -----------------------------------------------------------------------

  ghost predicate Ready(env: Env, runs: seq<Run>) {
    KnownRuns(env, runs) && DistinctRuns(runs) && forall i :: 0 <= i < |runs| ==> Shaped(runs[i])
  }

  /** Each run is accepted alone, clear of the ids in `used`, and no two runs share an id. */
  ghost predicate Separate(env: Env, runs: seq<Run>, used: set<string>)
    requires Ready(env, runs)
  {
    && (forall i :: 0 <= i < |runs| ==> Alone(env, runs[i]) && AttemptIds(env, runs[i]) !! used)
    && (forall i, j :: 0 <= i < j < |runs| ==> AttemptIds(env, runs[i]) !! AttemptIds(env, runs[j]))
  }

  lemma SeparateCons(env: Env, runs: seq<Run>, used: set<string>)
    requires Ready(env, runs) && runs != [] && Ready(env, runs[1..])
    ensures Separate(env, runs, used) <==>
            Alone(env, runs[0]) && AttemptIds(env, runs[0]) !! used
            && Separate(env, runs[1..], used + AttemptIds(env, runs[0]))
  {
    var rest, ids := runs[1..], AttemptIds(env, runs[0]);
    assert forall i :: 0 <= i < |rest| ==> rest[i] == runs[i + 1];
    if Separate(env, runs, used) {
      forall i | 0 <= i < |rest| ensures AttemptIds(env, rest[i]) !! used + ids {
        assert AttemptIds(env, runs[0]) !! AttemptIds(env, runs[i + 1]);
      }
    }
    if Alone(env, runs[0]) && ids !! used && Separate(env, rest, used + ids) {
      forall i, j | 0 <= i < j < |runs| ensures AttemptIds(env, runs[i]) !! AttemptIds(env, runs[j]) {
        assert runs[j] == rest[j - 1];
        if i > 0 { assert runs[i] == rest[i - 1]; }
      }
      forall i | 0 <= i < |runs| ensures Alone(env, runs[i]) && AttemptIds(env, runs[i]) !! used {
        if i > 0 { assert runs[i] == rest[i - 1]; }
      }
    }
  }

  /** No run is waiting on an attempt. */
  ghost predicate Quiet(s: Ledger) {
    s.activeAgent == map[] && s.activeCompaction == map[]
  }

  lemma RunKeepsQuiet(env: Env, r: Run, s: Ledger)
    requires r.id in env.runs && Shaped(r) && Untouched(s, r.id) && Quiet(s) && ReplayRun(env, r, s).Ok?
    ensures Quiet(ReplayRun(env, r, s).value)
  {
    var s' := ReplayRun(env, r, s).value;
    RunOnShared(env, r, s);
    forall q ensures q !in s'.activeAgent && q !in s'.activeCompaction {
      if q != r.id { ReplaySameFor(env, r.id, Cursor(s, 0), r.events[1..], q); }
    }
  }

  lemma {:induction false} RunsOnShared(env: Env, runs: seq<Run>, s: Ledger)
    requires Ready(env, runs) && Quiet(s)
    requires forall i :: 0 <= i < |runs| ==> Untouched(s, runs[i].id)
    ensures ReplayRuns(env, runs, s).Ok? <==> Separate(env, runs, s.prepared.Keys)
    ensures ReplayRuns(env, runs, s).Ok? ==> Quiet(ReplayRuns(env, runs, s).value)
  {
    if runs != [] {
      var r, rest := runs[0], runs[1..];
      RunOnShared(env, r, s);
      SeparateCons(env, runs, s.prepared.Keys);
      if ReplayRun(env, r, s).Ok? {
        var s' := ReplayRun(env, r, s).value;
        RunKeepsQuiet(env, r, s);
        forall i | 0 <= i < |rest| ensures Untouched(s', rest[i].id) {
          assert rest[i] == runs[i + 1];
          ReplaySameFor(env, r.id, Cursor(s, 0), r.events[1..], rest[i].id);
        }
        RunsOnShared(env, rest, s');
      }
    }
  }

  // --- The verdict ------------------------------------------------------------------------

  /** The runs of the ledger are the runs of the metadata. */
  ghost predicate Covers(env: Env, runs: seq<Run>) {
    forall q :: q in env.runs <==> exists i :: 0 <= i < |runs| && runs[i].id == q
  }

  predicate Accepted(env: Env, runs: seq<Run>)
    requires KnownRuns(env, runs)
  {
    var r := ReplayRuns(env, runs, EmptyLedger);
    r.Ok? && CheckClosed(env, r.value).Ok?
  }

  lemma AloneAttempts(env: Env, r: Run)
    requires r.id in env.runs && r.events != [] && Alone(env, r)
    ensures |AttemptIds(env, r)| == Preparations(r.events[1..])
  {
    EmptyInv(env);
    ReplayCounts(env, r.id, Cursor(EmptyLedger, 0), r.events[1..]);
    var s := ReplayRun(env, r, EmptyLedger).value;
    assert |s.prepared.Keys| == |s.prepared|;
  }

  /** Every run is accepted alone with at least one attempt, and no two runs share an attempt id. */
  ghost predicate Independent(env: Env, runs: seq<Run>)
    requires KnownRuns(env, runs)
  {
    && (forall i :: 0 <= i < |runs| ==> Alone(env, runs[i]) && AttemptIds(env, runs[i]) != {})
    && (forall i, j :: 0 <= i < j < |runs| ==> AttemptIds(env, runs[i]) !! AttemptIds(env, runs[j]))
  }

  lemma AttemptsShared(env: Env, runs: seq<Run>, i: nat)
    requires Ready(env, runs) && i < |runs| && ReplayRuns(env, runs, EmptyLedger).Ok? && Alone(env, runs[i])
    ensures HasAttempt(ReplayRuns(env, runs, EmptyLedger).value, runs[i].id) <==> AttemptIds(env, runs[i]) != {}
  {
    var s := ReplayRuns(env, runs, EmptyLedger).value;
    ReplayFromEmpty(env, runs, s);
    AloneAttempts(env, runs[i]);
    if HasAttempt(s, runs[i].id) { HasAttemptCounts(s, runs[i].id); }
    if |AttemptsOf(s, runs[i].id)| > 0 {
      var id :| id in AttemptsOf(s, runs[i].id);
      assert id in s.prepared && s.prepared[id].runId == runs[i].id;
    }
  }

  lemma ClosedIff(env: Env, runs: seq<Run>, s: Ledger)
    requires Covers(env, runs) && runs != [] && Quiet(s)
    ensures CheckClosed(env, s).Ok? <==> forall i :: 0 <= i < |runs| ==> HasAttempt(s, runs[i].id)
  {
    if forall i :: 0 <= i < |runs| ==> HasAttempt(s, runs[i].id) {
      assert HasAttempt(s, runs[0].id);
    }
  }

  /**
    The shared-table loop accepts a set of runs exactly when every run is accepted alone with
    at least one attempt and the runs' attempt ids are pairwise disjoint.
   */
  lemma Compositional(env: Env, runs: seq<Run>)
    requires Ready(env, runs) && Covers(env, runs) && runs != []
    ensures Accepted(env, runs) <==> Independent(env, runs)
  {
    RunsOnShared(env, runs, EmptyLedger);
    assert EmptyLedger.prepared.Keys == {};
    assert Independent(env, runs) ==> Separate(env, runs, {});
    if ReplayRuns(env, runs, EmptyLedger).Ok? {
      ClosedIff(env, runs, ReplayRuns(env, runs, EmptyLedger).value);
      AllAttemptsShared(env, runs);
    }
  }

  lemma AllAttemptsShared(env: Env, runs: seq<Run>)
    requires Ready(env, runs) && ReplayRuns(env, runs, EmptyLedger).Ok?
    requires forall i :: 0 <= i < |runs| ==> Alone(env, runs[i])
    ensures var s := ReplayRuns(env, runs, EmptyLedger).value;
            forall i :: 0 <= i < |runs| ==> (HasAttempt(s, runs[i].id) <==> AttemptIds(env, runs[i]) != {})
  {
    forall i | 0 <= i < |runs|
      ensures HasAttempt(ReplayRuns(env, runs, EmptyLedger).value, runs[i].id) <==> AttemptIds(env, runs[i]) != {}
    {
      AttemptsShared(env, runs, i);
    }
  }

  // --- The counts -------------------------------------------------------------------------

  /** A run on shared tables owns exactly the attempts it has when replayed alone. */
  lemma RunOwns(env: Env, r: Run, s: Ledger)
    requires r.id in env.runs && Shaped(r) && Untouched(s, r.id) && AttemptsOf(s, r.id) == {} && Inv(env, s)
    requires ReplayRun(env, r, s).Ok?
    ensures AttemptsOf(ReplayRun(env, r, s).value, r.id) == AttemptIds(env, r)
  {
    RunOnShared(env, r, s);
    HeadRunGrew(env, [r], s);
    OwnsNew(s, ReplayRun(env, r, s).value, r.id, AttemptIds(env, r));
  }

  /** When no other run's attempts change, the new attempts are those of the run. */
  lemma OwnsNew(s: Ledger, s': Ledger, run: string, ids: set<string>)
    requires s'.prepared.Keys == s.prepared.Keys + ids && ids !! s.prepared.Keys && AttemptsOf(s, run) == {}
    requires forall q :: q != run ==> AttemptsOf(s', q) == AttemptsOf(s, q)
    ensures AttemptsOf(s', run) == ids
  {
    forall id | id in s'.prepared.Keys ensures id in ids <==> s'.prepared[id].runId == run {
      assert id in AttemptsOf(s', s'.prepared[id].runId);
      if id in s.prepared.Keys { assert id in AttemptsOf(s, s.prepared[id].runId); }
    }
  }

  /** No run of the list has left a trace in the tables. */
  ghost predicate Fresh(s: Ledger, runs: seq<Run>) {
    forall i :: 0 <= i < |runs| ==> Untouched(s, runs[i].id) && AttemptsOf(s, runs[i].id) == {}
  }

  lemma FreshRest(env: Env, runs: seq<Run>, s: Ledger)
    requires Ready(env, runs) && runs != [] && Fresh(s, runs) && Inv(env, s) && ReplayRun(env, runs[0], s).Ok?
    ensures Ready(env, runs[1..]) && Fresh(ReplayRun(env, runs[0], s).value, runs[1..])
  {
    var r, rest, s' := runs[0], runs[1..], ReplayRun(env, runs[0], s).value;
    HeadRunGrew(env, runs, s);
    forall i | 0 <= i < |rest| ensures Untouched(s', rest[i].id) && AttemptsOf(s', rest[i].id) == {} {
      assert rest[i] == runs[i + 1];
      ReplaySameFor(env, r.id, Cursor(s, 0), r.events[1..], rest[i].id);
    }
  }

  lemma {:induction false} AllOwn(env: Env, runs: seq<Run>, s: Ledger, i: nat)
    requires Ready(env, runs) && Fresh(s, runs) && Inv(env, s) && ReplayRuns(env, runs, s).Ok? && i < |runs|
    ensures AttemptsOf(ReplayRuns(env, runs, s).value, runs[i].id) == AttemptIds(env, runs[i])
  {
    if i == 0 {
      FirstOwns(env, runs, s);
    } else {
      FreshNext(env, runs, s);
      AllOwn(env, runs[1..], ReplayRun(env, runs[0], s).value, i - 1);
      assert runs[1..][i - 1] == runs[i];
    }
  }

  lemma FreshNext(env: Env, runs: seq<Run>, s: Ledger)
    requires Ready(env, runs) && Fresh(s, runs) && Inv(env, s) && ReplayRuns(env, runs, s).Ok? && runs != []
    ensures ReplayRun(env, runs[0], s).Ok?
    ensures var s', rest := ReplayRun(env, runs[0], s).value, runs[1..];
            && Ready(env, rest) && Fresh(s', rest) && Inv(env, s')
            && ReplayRuns(env, rest, s') == ReplayRuns(env, runs, s)
  {
    HeadRunGrew(env, runs, s);
    FreshRest(env, runs, s);
  }

  lemma FirstOwns(env: Env, runs: seq<Run>, s: Ledger)
    requires Ready(env, runs) && Fresh(s, runs) && Inv(env, s) && ReplayRuns(env, runs, s).Ok? && runs != []
    ensures AttemptsOf(ReplayRuns(env, runs, s).value, runs[0].id) == AttemptIds(env, runs[0])
  {
    HeadRunGrew(env, runs, s);
    RunOwns(env, runs[0], s);
    OtherRunsCount(env, runs[1..], ReplayRun(env, runs[0], s).value, runs[0].id);
  }

  /** The attempt ids of all runs, and of the runs started by one kind of actor. */
  ghost function UsedIds(env: Env, runs: seq<Run>): set<string>
    requires KnownRuns(env, runs)
  {
    set i, id | 0 <= i < |runs| && id in AttemptIds(env, runs[i]) :: id
  }

  ghost function IdsOf(env: Env, runs: seq<Run>, kind: string): set<string>
    requires KnownRuns(env, runs)
  {
    set i, id | 0 <= i < |runs| && env.runs[runs[i].id].actor.kind == kind && id in AttemptIds(env, runs[i]) :: id
  }

  /** In the final tables, attempt `id` belongs to a run that uses it when replayed alone. */
  lemma Owner(env: Env, runs: seq<Run>, s: Ledger, id: string) returns (i: nat)
    requires Ready(env, runs) && ReplayRuns(env, runs, EmptyLedger) == Ok(s) && id in s.prepared
    ensures i < |runs| && s.prepared[id].runId == runs[i].id && id in AttemptIds(env, runs[i])
  {
    var q := s.prepared[id].runId;
    EmptyInv(env);
    assert id in AttemptsOf(s, q);
    if forall j :: 0 <= j < |runs| ==> runs[j].id != q {
      OtherRunsCount(env, runs, EmptyLedger, q);
      assert false;
    }
    i :| 0 <= i < |runs| && runs[i].id == q;
    AllOwn(env, runs, EmptyLedger, i);
  }

  lemma Owned(env: Env, runs: seq<Run>, s: Ledger, i: nat, id: string)
    requires Ready(env, runs) && ReplayRuns(env, runs, EmptyLedger) == Ok(s)
    requires i < |runs| && id in AttemptIds(env, runs[i])
    ensures id in s.prepared && s.prepared[id].runId == runs[i].id
  {
    EmptyInv(env);
    AllOwn(env, runs, EmptyLedger, i);
    assert id in AttemptsOf(s, runs[i].id);
  }

  lemma TableIsUsed(env: Env, runs: seq<Run>, s: Ledger)
    requires Ready(env, runs) && ReplayRuns(env, runs, EmptyLedger) == Ok(s) && Quiet(s)
    ensures InFlightAttempts(s) == UsedIds(env, runs)
  {
    ReplayFromEmpty(env, runs, s);
    ClosedSettled(env, s);
    forall id | id in s.prepared ensures id in UsedIds(env, runs) {
      var i := Owner(env, runs, s, id);
    }
    forall id | id in UsedIds(env, runs) ensures id in s.prepared {
      var i :| 0 <= i < |runs| && id in AttemptIds(env, runs[i]);
      Owned(env, runs, s, i, id);
    }
  }

  lemma StartedIsUsed(env: Env, runs: seq<Run>, s: Ledger, kind: string)
    requires Ready(env, runs) && ReplayRuns(env, runs, EmptyLedger) == Ok(s) && Quiet(s)
    ensures StartedBy(env, s, kind) == IdsOf(env, runs, kind)
  {
    ReplayFromEmpty(env, runs, s);
    ClosedSettled(env, s);
    forall id | id in StartedBy(env, s, kind) ensures id in IdsOf(env, runs, kind) {
      var i := Owner(env, runs, s, id);
    }
    forall id | id in IdsOf(env, runs, kind) ensures id in StartedBy(env, s, kind) {
      var i :| 0 <= i < |runs| && env.runs[runs[i].id].actor.kind == kind && id in AttemptIds(env, runs[i]);
      Owned(env, runs, s, i, id);
    }
  }

  /** The reported counters count the attempt ids of the runs. */
  ghost predicate CountsAgree(env: Env, runs: seq<Run>, reported: Reported)
    requires KnownRuns(env, runs)
  {
    var total, root := |UsedIds(env, runs)|, |IdsOf(env, runs, "root")|;
    reported == Reported(Some(total), Some(root), Some(total - root))
  }

  /**
    The whole verdict, run by run: the ledger is accepted exactly when every run is accepted alone with
    at least one attempt, no two share an attempt id, and the reported counters count those ids.
   */
  lemma WholeVerdict(env: Env, runs: seq<Run>, reported: Reported)
    requires Ready(env, runs) && Covers(env, runs) && runs != []
    ensures AcceptLedger(env, runs, reported).Ok? <==> Independent(env, runs) && CountsAgree(env, runs, reported)
  {
    Compositional(env, runs);
    AcceptParts(env, runs, reported);
    if Accepted(env, runs) { CountsIff(env, runs, ReplayRuns(env, runs, EmptyLedger).value, reported); }
  }

  lemma AcceptParts(env: Env, runs: seq<Run>, reported: Reported)
    requires KnownRuns(env, runs)
    ensures AcceptLedger(env, runs, reported).Ok? <==>
      Accepted(env, runs) && CheckCounts(env, ReplayRuns(env, runs, EmptyLedger).value, reported).Ok?
    ensures Accepted(env, runs) ==> Quiet(ReplayRuns(env, runs, EmptyLedger).value)
  {
  }

  lemma CountsIff(env: Env, runs: seq<Run>, s: Ledger, reported: Reported)
    requires Ready(env, runs) && ReplayRuns(env, runs, EmptyLedger) == Ok(s) && Quiet(s)
    ensures CheckCounts(env, s, reported).Ok? <==> CountsAgree(env, runs, reported)
  {
    TableIsUsed(env, runs, s);
    StartedIsUsed(env, runs, s, "root");
  }

  ghost predicate SameRuns(runs: seq<Run>, other: seq<Run>) {
    forall r :: r in runs <==> r in other
  }

  /** The order in which runs are processed cannot change the verdict. */
  lemma OrderIrrelevant(env: Env, runs: seq<Run>, other: seq<Run>, reported: Reported)
    requires Ready(env, runs) && Covers(env, runs) && runs != []
    requires Ready(env, other) && SameRuns(runs, other)
    ensures Accepted(env, runs) <==> Accepted(env, other)
    ensures AcceptLedger(env, runs, reported).Ok? <==> AcceptLedger(env, other, reported).Ok?
  {
    CoversBoth(env, runs, other);
    SameIndependent(env, runs, other);
    AcceptedIff(env, runs, reported);
    AcceptedIff(env, other, reported);
    SameCounts(env, runs, other, reported);
  }

  lemma SameCounts(env: Env, runs: seq<Run>, other: seq<Run>, reported: Reported)
    requires KnownRuns(env, runs) && KnownRuns(env, other) && SameRuns(runs, other)
    ensures CountsAgree(env, runs, reported) <==> CountsAgree(env, other, reported)
  {
    SameIds(env, runs, other);
  }

  lemma AcceptedIff(env: Env, runs: seq<Run>, reported: Reported)
    requires Ready(env, runs) && Covers(env, runs) && runs != []
    ensures Accepted(env, runs) <==> Independent(env, runs)
    ensures AcceptLedger(env, runs, reported).Ok? <==> Independent(env, runs) && CountsAgree(env, runs, reported)
  {
    Compositional(env, runs);
    WholeVerdict(env, runs, reported);
  }

  lemma SameIndependent(env: Env, runs: seq<Run>, other: seq<Run>)
    requires Ready(env, runs) && Ready(env, other) && SameRuns(runs, other)
    ensures Independent(env, runs) <==> Independent(env, other)
  {
    IndependentSubset(env, runs, other);
    IndependentSubset(env, other, runs);
  }

  lemma SameIds(env: Env, runs: seq<Run>, other: seq<Run>)
    requires KnownRuns(env, runs) && KnownRuns(env, other) && SameRuns(runs, other)
    ensures UsedIds(env, runs) == UsedIds(env, other)
    ensures IdsOf(env, runs, "root") == IdsOf(env, other, "root")
  {
    IdsWithin(env, runs, other);
    IdsWithin(env, other, runs);
  }

  lemma IdsWithin(env: Env, runs: seq<Run>, other: seq<Run>)
    requires KnownRuns(env, runs) && KnownRuns(env, other) && forall r :: r in runs ==> r in other
    ensures UsedIds(env, runs) <= UsedIds(env, other)
    ensures IdsOf(env, runs, "root") <= IdsOf(env, other, "root")
  {
    forall i | 0 <= i < |runs| ensures exists j :: 0 <= j < |other| && other[j] == runs[i] {
      assert runs[i] in other;
    }
  }

  lemma CoversBoth(env: Env, runs: seq<Run>, other: seq<Run>)
    requires Covers(env, runs) && runs != [] && SameRuns(runs, other)
    ensures Covers(env, other) && other != []
  {
    assert runs[0] in other;
    forall q ensures q in env.runs <==> exists i :: 0 <= i < |other| && other[i].id == q {
      if q in env.runs {
        var i :| 0 <= i < |runs| && runs[i].id == q;
        assert runs[i] in other;
      }
      if i :| 0 <= i < |other| && other[i].id == q {
        assert other[i] in runs;
      }
    }
  }

  lemma IndependentSubset(env: Env, runs: seq<Run>, other: seq<Run>)
    requires Ready(env, runs) && Ready(env, other) && forall r :: r in other ==> r in runs
    ensures Independent(env, runs) ==> Independent(env, other)
  {
    if Independent(env, runs) {
      forall i | 0 <= i < |other| ensures Alone(env, other[i]) && AttemptIds(env, other[i]) != {} {
        assert other[i] in runs;
      }
      forall i, j | 0 <= i < j < |other| ensures AttemptIds(env, other[i]) !! AttemptIds(env, other[j]) {
        assert other[i] in runs && other[j] in runs;
        var k :| 0 <= k < |runs| && runs[k] == other[i];
        var l :| 0 <= l < |runs| && runs[l] == other[j];
        assert k != l;
      }
    }
  }
}
