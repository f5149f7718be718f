/** When the start of an edit may come, relative to its outcome, and with which outcomes. */
module EditStarts {
  import opened Basics
  import opened EditModel
  import opened EditProjection
  import opened EditRecovery
  import opened EditPrefix

  datatype Timing = NoStart | StartBefore | StartAfter

  /** Where the start of an attempt stands. */
  function TimingOf(a: Attempt): Timing {
    if a.startedSequence.None? then NoStart
    else if a.startedSequence.value < a.outcomeSequence then StartBefore
    else StartAfter
  }

  /** The outcomes an attempt may have with each timing. */
  predicate Fits(o: Outcome, t: Timing) {
    match t
    case NoStart => !Effective(o)
    case StartBefore => Begun(o)
    case StartAfter => !Effective(o)
  }

  // --- Every attempt --------------------------------------------------------------------

  /** Start and outcome are different events, and an outcome that follows its start was begun. */
  predicate StartFits(f: Facts, op: string) {
    op in f.committed && op in f.started ==>
      && f.started[op] != f.committed[op].sequence
      && (f.started[op] < f.committed[op].sequence ==> Begun(f.committed[op].outcome))
  }

  lemma StepStartFits(f: Facts, stored: Stored, n: int, op: string)
    requires StartFits(f, op) && OperationOk(f, n - 1, op)
    requires stored.sequence == Some(n) && n >= 1 && stored.event.Some? && Step(f, stored).Ok?
    ensures StartFits(Step(f, stored).value, op)
  {
  }

  lemma {:induction false} ReplayStartFits(events: seq<Stored>, op: string)
    requires Enveloped(events) && Replay(events).Ok?
    ensures StartFits(Replay(events).value, op)
  {
    if events != [] {
      var n := |events|;
      ReplayStartFits(events[..n - 1], op);
      ReplayOrdered(events[..n - 1]);
      assert OperationOk(Replay(events[..n - 1]).value, n - 1, op);
      StepStartFits(Replay(events[..n - 1]).value, events[n - 1], n, op);
    }
  }

  /** Every attempt has a valid outcome that fits the place of its start. */
  lemma AttemptTiming(events: seq<Stored>, i: nat)
    requires EditModel.Project(events).Ok? && i < |EditModel.Project(events).value.attempts|
    ensures var a := EditModel.Project(events).value.attempts[i];
            ValidateOutcome(Some(a.outcome)).Ok? && Fits(a.outcome, TimingOf(a))
    ensures var a := EditModel.Project(events).value.attempts[i];
            && (a.startedSequence.Some? ==> a.preparedSequence < a.startedSequence.value)
            && (TimingOf(a) == StartAfter ==> a.outcomeSequence < a.startedSequence.value)
  {
    ProjectParts(events);
    var f := Replay(events).value;
    var c := AttemptOrigin(f, |events|, i);
    ReplayStartFits(events, f.commitOrder[c]);
  }

  /** An attempt that succeeded, or may have had an effect, was started between preparation and outcome. */
  lemma EffectsWereStarted(events: seq<Stored>, i: nat)
    requires EditModel.Project(events).Ok? && i < |EditModel.Project(events).value.attempts|
    ensures var a := EditModel.Project(events).value.attempts[i];
            Effective(a.outcome) ==>
              a.startedSequence.Some? && a.preparedSequence < a.startedSequence.value < a.outcomeSequence
  {
    AttemptTiming(events, i);
  }

  // --- Every timing that fits ------------------------------------------------------------

  const RUN := Some("r")
  const CALL := Some("c")
  const EDIT := Some("edit_file")
  const OPERATION := Some("o")
  const EDIT_INVOCATION := Invocation(RUN, CALL, EDIT, Parsed(Some("f"), None))
  const PREPARED := ToolPrepared(OPERATION, Some(EDIT_INVOCATION), true)
  const STARTED := ToolStarted(OPERATION)

  function Committed(o: Outcome): Event {
    ToolOutcome(OPERATION, CALL, EDIT, Some(o), NoRevision)
  }

  function At(n: nat, e: Event): Stored {
    Stored(Some(16), RUN, Some(n), Some(if n == 1 then "a" else if n == 2 then "b" else "c"), Some(e))
  }

  /** A ledger of one edit with the given outcome and timing. */
  function OneEdit(o: Outcome, t: Timing): seq<Stored> {
    match t
    case NoStart => [At(1, PREPARED), At(2, Committed(o))]
    case StartBefore => [At(1, PREPARED), At(2, STARTED), At(3, Committed(o))]
    case StartAfter => [At(1, PREPARED), At(2, Committed(o)), At(3, STARTED)]
  }

  lemma Letter(s: string)
    requires |s| > 0 && !IsSpace(s[0])
    ensures Nonempty(Some(s))
  {
  }

  lemma OneEditEnveloped(o: Outcome, t: Timing)
    ensures CheckEnvelope(OneEdit(o, t)).Ok?
  {
    Letter("r");
    Letter("a");
    Letter("b");
    Letter("c");
    assert "a"[0] != "b"[0] && "b"[0] != "c"[0] && "a"[0] != "c"[0];
  }

  lemma ReplaySnoc(events: seq<Stored>, f: Facts)
    requires Enveloped(events) && events != [] && Replay(events[..|events| - 1]) == Ok(f)
    ensures Replay(events) == Step(f, events[|events| - 1])
  {
  }

  const PREPARED_FACTS := NoFacts.(prepared := map["o" := Preparation(1, EDIT_INVOCATION, true)])

  lemma PreparedReplays()
    ensures Enveloped([At(1, PREPARED)]) && Replay([At(1, PREPARED)]) == Ok(PREPARED_FACTS)
  {
    var events := [At(1, PREPARED)];
    Letter("o");
    Letter("c");
    Letter("edit_file");
    assert events[..0] == [];
    ReplaySnoc(events, NoFacts);
  }

  function CommittedFacts(f: Facts, n: int, o: Outcome): Facts {
    f.(committed := f.committed["o" := Commitment(n, o, NoRevision)], commitOrder := f.commitOrder + ["o"])
  }

  function StartedFacts(f: Facts, n: int): Facts {
    f.(started := f.started["o" := n], startOrder := f.startOrder + ["o"])
  }

  /** The facts after the whole ledger. */
  function FactsOf(o: Outcome, t: Timing): Facts {
    match t
    case NoStart => CommittedFacts(PREPARED_FACTS, 2, o)
    case StartBefore => CommittedFacts(StartedFacts(PREPARED_FACTS, 2), 3, o)
    case StartAfter => StartedFacts(CommittedFacts(PREPARED_FACTS, 2, o), 3)
  }

  lemma OneEditReplays(o: Outcome, t: Timing)
    requires ValidateOutcome(Some(o)).Ok? && Fits(o, t)
    ensures Enveloped(OneEdit(o, t)) && Replay(OneEdit(o, t)) == Ok(FactsOf(o, t))
  {
    var events := OneEdit(o, t);
    PreparedReplays();
    Letter("o");
    assert events[..1] == [At(1, PREPARED)];
    var two := events[..2];
    assert two[..1] == events[..1];
    ReplaySnoc(two, PREPARED_FACTS);
    match t
    case NoStart => assert two == events;
    case StartBefore => ReplaySnoc(events, StartedFacts(PREPARED_FACTS, 2));
    case StartAfter => ReplaySnoc(events, CommittedFacts(PREPARED_FACTS, 2, o));
  }

  lemma OneAttempt(o: Outcome, t: Timing)
    ensures var f := FactsOf(o, t);
            && OrderKnown(f) && BaseAttempts(f) == Ok([MakeAttempt(f, "o")])
            && MakeAttempt(f, "o").outcome == o && TimingOf(MakeAttempt(f, "o")) == t
            && (t == StartAfter ==> f.committed["o"].sequence == 2 && f.started["o"] == 3)
  {
    var f := FactsOf(o, t);
    assert f.commitOrder == ["o"];
    assert AttemptsUpTo(f, 0) == [] && AttemptsUpTo(f, 1) == [MakeAttempt(f, "o")];
  }

  /** The one attempt of such a ledger. */
  lemma OneEditProjects(o: Outcome, t: Timing)
    requires ValidateOutcome(Some(o)).Ok? && Fits(o, t)
    ensures EditModel.Project(OneEdit(o, t)).Ok?
    ensures var attempts := EditModel.Project(OneEdit(o, t)).value.attempts;
            |attempts| == 1 && attempts[0].outcome == o && TimingOf(attempts[0]) == t
    ensures var a := EditModel.Project(OneEdit(o, t)).value.attempts[0];
            t == StartAfter ==> a.outcomeSequence == 2 && a.startedSequence == Some(3)
  {
    OneEditEnveloped(o, t);
    OneEditReplays(o, t);
    OneAttempt(o, t);
    ProjectFrom(OneEdit(o, t));
    RecoverOne(MakeAttempt(FactsOf(o, t), "o"), FactsOf(o, t).requests);
  }

  lemma RecoverOne(a: Attempt, requests: seq<int>)
    ensures var r := Recover([a], requests);
            |r| == 1 && r[0] == a.(recovery := r[0].recovery)
  {
  }

  // --- The exact condition -----------------------------------------------------------------

  /** Attempt `i` of an accepted ledger has this outcome and this timing. */
  ghost predicate Observed(events: seq<Stored>, i: nat, o: Outcome, t: Timing) {
    && EditModel.Project(events).Ok? && i < |EditModel.Project(events).value.attempts|
    && var a := EditModel.Project(events).value.attempts[i]; a.outcome == o && TimingOf(a) == t
  }

  ghost predicate Observable(o: Outcome, t: Timing) {
    exists events, i: nat :: Observed(events, i, o, t)
  }

  /**
    For every outcome and every timing: some accepted ledger has an attempt with that outcome whose
    start stands there, if and only if the outcome is valid and fits. So a start may follow exactly the
    outcomes without effect, and may precede exactly those that were begun.
   */
  lemma TimingIff(o: Outcome, t: Timing)
    ensures Observable(o, t) <==> ValidateOutcome(Some(o)).Ok? && Fits(o, t)
  {
    if Observable(o, t) {
      var events, i: nat :| Observed(events, i, o, t);
      AttemptTiming(events, i);
    }
    if ValidateOutcome(Some(o)).Ok? && Fits(o, t) {
      OneEditProjects(o, t);
      assert Observed(OneEdit(o, t), 0, o, t);
    }
  }

  /**
    What the late start gets past: an outcome that was rejected or not begun belongs to an attempt
    with a start in some accepted ledger exactly when it had no effect, and then only after the outcome.
   */
  lemma UnbegunStarts(o: Outcome)
    requires ValidateOutcome(Some(o)).Ok? && !Begun(o)
    ensures Observable(o, StartBefore) || Observable(o, StartAfter) <==> !Effective(o)
    ensures !Observable(o, StartBefore)
  {
    TimingIff(o, StartBefore);
    TimingIff(o, StartAfter);
  }

  /** Such outcomes exist: a rejected edit, whose start is recorded after the rejection. */
  lemma RejectedThenStarted()
    ensures var o := Outcome(Rejected, TransportNotStarted, OperationNotStarted, NotApplied, AfterCorrection,
                             Known(InvocationRejected));
            && !Begun(o) && Observable(o, StartAfter)
            && Observed([At(1, PREPARED), At(2, Committed(o)), At(3, STARTED)], 0, o, StartAfter)
  {
    var o := Outcome(Rejected, TransportNotStarted, OperationNotStarted, NotApplied, AfterCorrection,
                     Known(InvocationRejected));
    OneEditProjects(o, StartAfter);
    assert Observed(OneEdit(o, StartAfter), 0, o, StartAfter);
  }
}
