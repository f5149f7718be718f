/** What discarding an attempt takes, what an arm's success rests on, and that the first never reads the second. */
module ResampleOutcome {
  import opened Basics
  import opened ResampleModel
  import opened ResampleLoop

  // --- Eligibility ----------------------------------------------------------------------

  lemma AxisKinds(x: AuditAxis)
    ensures x in PROTECTED <==> x !in OBSERVABILITY && x != HelperValid
  {
    match x
    case TerminalProjection | UsageProjection | ModelRequestLimit | HardRequestLimit | ApiRequestLimit =>
    case AccountingInvariants | NormalizedObservability | Priced | BudgetNotExhausted | NoInFlight =>
    case NoRecordsAfterSeal | Complete | UsageComplete | UsageMissingAbsent | UsageIncompleteAbsent =>
    case BillingKnown | HelperValid =>
  }

  /** A failure on observability, on nothing else but the helper's own summary, that a retry explains. */
  ghost predicate IsGap(a: Audit) {
    && (forall x :: x in a.failed ==> x in OBSERVABILITY || x == HelperValid)
    && (exists x :: x in a.failed && x != HelperValid)
    && a.runtimeRetries + a.transportRetries > 0
  }

  lemma GapIff(a: Audit)
    ensures GapEligible(a) <==> IsGap(a)
  {
    forall x ensures x in PROTECTED <==> x !in OBSERVABILITY && x != HelperValid {
      AxisKinds(x);
    }
    if exists x :: x in OBSERVABILITY && x in a.failed {
      var x :| x in OBSERVABILITY && x in a.failed;
      assert x in a.failed && x != HelperValid;
    }
  }

  ghost predicate OnlyGaps(audits: seq<Audit>) {
    forall i :: 0 <= i < |audits| ==> AuditValid(audits[i]) || IsGap(audits[i])
  }

  /** All that failed on the arm is its accounting, and there only by gaps. */
  ghost predicate IsArmGap(a: Arm) {
    && a.failed != {}
    && a.failed <= {CompactAccounting, FinalAccounting}
    && (CompactAccounting in a.failed ==> IsGap(a.facts.compactAudit))
    && (FinalAccounting in a.failed ==> IsGap(a.facts.finalAudit))
  }

  ghost predicate OnlyArmGaps(arms: seq<Arm>) {
    forall j :: 0 <= j < |arms| ==> arms[j].valid || IsArmGap(arms[j])
  }

  ghost predicate AllArmsValid(arms: seq<Arm>) {
    forall j :: 0 <= j < |arms| ==> arms[j].valid
  }

  lemma ArmGapIff(a: Arm)
    ensures ArmEligible(a) <==> IsArmGap(a)
  {
    GapIff(a.facts.compactAudit);
    GapIff(a.facts.finalAudit);
  }

  lemma ArmsGaps(arms: seq<Arm>)
    ensures ArmsEligible(arms, true) <==> !AllArmsValid(arms) && OnlyArmGaps(arms)
  {
    forall j | 0 <= j < |arms| ensures ArmEligible(arms[j]) <==> IsArmGap(arms[j]) {
      ArmGapIff(arms[j]);
    }
  }

  lemma SourceGaps(s: Source)
    requires s.compactionFree && !AccountingOk(s)
    ensures SourceEligible(s) <==> OnlyGaps(s.audits)
  {
    forall i | 0 <= i < |s.audits| ensures GapEligible(s.audits[i]) <==> IsGap(s.audits[i]) {
      GapIff(s.audits[i]);
    }
  }

  /** Past the source, the pair is as valid and as eligible as its arms; an unshared transcript is no gap. */
  lemma ArmsDecide(e: Entry, s: Source, off: ArmFacts, on: ArmFacts)
    requires s.contractHolds && s.compactionFree && AccountingOk(s)
    ensures var p := RunPair(e, s, off, on);
            && (p.valid <==> AllArmsValid(p.arms))
            && (p.eligible <==> ArmsEligible(p.arms, true))
  {
    var p := RunPair(e, s, off, on);
    assert |p.arms| == 1 ==> !p.arms[0].valid && !p.valid;
    if |p.arms| == 2 {
      assert p.valid <==> p.arms[0].valid && p.arms[1].valid;
      if !p.arms[0].valid {
        assert SharedSourceTranscript in p.arms[0].failed;
        assert !ArmEligible(p.arms[0]);
      }
    }
  }

  lemma PairEligible(e: Entry, s: Source, off: ArmFacts, on: ArmFacts)
    ensures var p := RunPair(e, s, off, on);
            p.eligible <==>
              !p.valid && s.contractHolds && s.compactionFree && OnlyGaps(s.audits) && OnlyArmGaps(p.arms)
  {
    if s.contractHolds && s.compactionFree {
      if AccountingOk(s) {
        ArmsDecide(e, s, off, on);
        ArmsGaps(RunPair(e, s, off, on).arms);
      } else {
        SourceGaps(s);
      }
    }
  }

  lemma PairValid(e: Entry, s: Source, off: ArmFacts, on: ArmFacts)
    ensures RunPair(e, s, off, on).valid <==>
      && s.contractHolds && s.compactionFree && AccountingOk(s)
      && RunArm(Off, off).valid && RunArm(On, on).valid
      && off.sourceDigest.Some? && off.sourceDigest == on.sourceDigest
  {
  }

  /**
    A pair is accepted exactly when its source and both its arms are valid, in whichever order they
    ran, and share one transcript. It may be measured again exactly when it is not, its contract holds,
    and all that failed is accounting, by nothing but observability gaps with a retry to explain them.
   */
  lemma PairVerdict(e: Entry, s: Source, off: ArmFacts, on: ArmFacts)
    ensures var p := RunPair(e, s, off, on);
            && (p.valid <==>
                  && s.contractHolds && s.compactionFree && AccountingOk(s)
                  && RunArm(Off, off).valid && RunArm(On, on).valid
                  && off.sourceDigest.Some? && off.sourceDigest == on.sourceDigest)
            && (p.eligible <==>
                  !p.valid && s.contractHolds && s.compactionFree && OnlyGaps(s.audits) && OnlyArmGaps(p.arms))
  {
    PairValid(e, s, off, on);
    PairEligible(e, s, off, on);
  }

  /** Where an invalid pair stopped, and which arms it had run by then. */
  lemma PairStage(e: Entry, s: Source, off: ArmFacts, on: ArmFacts)
    ensures var p := RunPair(e, s, off, on);
            var first := if Off == ArmOrder(e).0 then RunArm(Off, off) else RunArm(On, on);
            && p.entry == e
            && (p.stage == None <==> p.valid)
            && (p.stage == Some(SourceContract) <==> !s.contractHolds || !s.compactionFree)
            && (p.stage == Some(SourceStage) <==> s.contractHolds && s.compactionFree && !AccountingOk(s))
            && (p.arms == [] <==> p.stage == Some(SourceContract) || p.stage == Some(SourceStage))
            && (p.arms != [] ==> p.arms[0].mode == ArmOrder(e).0)
            && (p.arms != [] ==> (|p.arms| == 2 <==> first.valid) && |p.arms| <= 2)
            && (|p.arms| == 2 ==> p.arms[1].mode == ArmOrder(e).1)
  {
  }

  predicate Opposite(a: (Mode, Mode), b: (Mode, Mode)) {
    a.0 != a.1 && b == (a.1, a.0)
  }

  /** The arms change places with the repetition, with the variant and with the scenario. */
  lemma ArmsAlternate(r: nat)
    ensures forall v, s :: Opposite(ArmOrder(Entry(v, s, r)), ArmOrder(Entry(v, s, r + 1)))
    ensures forall s :: Opposite(ArmOrder(Entry(Baseline, s, r)), ArmOrder(Entry(Candidate, s, r)))
    ensures forall v :: Opposite(ArmOrder(Entry(v, TaskA, r)), ArmOrder(Entry(v, TaskB, r)))
    ensures ArmOrder(Entry(Baseline, TaskA, 1)) == (On, Off)
  {
  }

  // --- What success rests on --------------------------------------------------------------

  /** The agent completed, the external verifier passed, the receipt is valid and the markers were visible. */
  predicate WorkDone(f: ArmFacts) {
    f.completed && f.externalPassed && f.receiptValid && f.markersVisible
  }

  /** A false success is never verified. */
  predicate Honest(a: Arm) {
    a.falseSuccess ==> !a.verified
  }

  /** The arm is verified exactly when its work is done: no measuring axis has a say. */
  predicate Plain(a: Arm) {
    a.verified <==> WorkDone(a.facts)
  }

  /** Which axes an arm fails on, what makes it valid, and what makes it a false success. */
  lemma ArmAxes(m: Mode, f: ArmFacts, x: Axis)
    ensures x in RunArm(m, f).failed <==>
      match x
      case FinalAccounting => f.finalAudit.failed != {}
      case CompactAccounting => f.compactAudit.failed != {}
      case ModeExercised => f.exercised != (m == On)
      case SharedSourceTranscript => false
      case CompactionContract => f.contractFailures * {CompactionContract, Lineage, ProjectionLineage} != {}
      case _ => x in f.contractFailures
    ensures RunArm(m, f).valid <==> RunArm(m, f).failed == {}
    ensures RunArm(m, f).mode == m && RunArm(m, f).facts == f
    ensures RunArm(m, f).falseSuccess <==> f.completed && (!f.externalPassed || !f.receiptValid)
  {
    var broken := f.contractFailures * {CompactionContract, Lineage, ProjectionLineage};
    assert CompactionContract in ContractFailed(f) <==>
      CompactionContract in broken || Lineage in broken || ProjectionLineage in broken;
  }

  lemma ArmOutcome(m: Mode, f: ArmFacts)
    ensures Honest(RunArm(m, f))
    ensures RunArm(m, f).valid || IsArmGap(RunArm(m, f)) ==> Plain(RunArm(m, f))
    ensures !Plain(RunArm(m, f)) <==>
      WorkDone(f) && f.contractFailures * {Lineage, ProjectionLineage, FailureFactProjection} != {}
  {
    var a := RunArm(m, f);
    var broken := f.contractFailures * {Lineage, ProjectionLineage, FailureFactProjection};
    assert forall x :: x in {Lineage, ProjectionLineage, FailureFactProjection} ==>
      (x in broken <==> x in ContractFailed(f));
    assert broken <= ContractFailed(f) <= a.failed;
    if a.verified {
      assert forall x :: x in broken ==> x !in ContractFailed(f);
    } else if WorkDone(f) {
      assert Lineage in broken || ProjectionLineage in broken || FailureFactProjection in broken;
    }
  }

  ghost predicate HonestPair(p: Pair) {
    forall j :: 0 <= j < |p.arms| ==> Honest(p.arms[j])
  }

  ghost predicate PlainPair(p: Pair) {
    forall j :: 0 <= j < |p.arms| ==> Plain(p.arms[j])
  }

  lemma ArmsHonest(e: Entry, first: Arm, second: Arm)
    requires Honest(first) && Honest(second)
    ensures HonestPair(PairOf(e, first, second))
  {
  }

  lemma PairHonest(e: Entry, s: Source, off: ArmFacts, on: ArmFacts)
    ensures HonestPair(RunPair(e, s, off, on))
  {
    var (m, k) := ArmOrder(e);
    var f, g := (if m == On then on else off), (if k == On then on else off);
    ArmOutcome(m, f);
    ArmOutcome(k, g);
    ArmsHonest(e, RunArm(m, f), RunArm(k, g));
  }

  /** An arm that is plain wherever it is valid or eligible. */
  ghost predicate PlainWhenUsed(a: Arm) {
    a.valid || IsArmGap(a) ==> Plain(a)
  }

  lemma ArmsPlain(e: Entry, first: Arm, second: Arm)
    requires PlainWhenUsed(first) && PlainWhenUsed(second)
    ensures var p := PairOf(e, first, second);
            AllArmsValid(p.arms) || OnlyArmGaps(p.arms) ==> PlainPair(p)
  {
  }

  lemma RunArmsPlain(e: Entry, s: Source, off: ArmFacts, on: ArmFacts)
    requires s.contractHolds && s.compactionFree && AccountingOk(s)
    ensures var p := RunPair(e, s, off, on);
            AllArmsValid(p.arms) || OnlyArmGaps(p.arms) ==> PlainPair(p)
  {
    var (m, k) := ArmOrder(e);
    var f, g := (if m == On then on else off), (if k == On then on else off);
    ArmOutcome(m, f);
    ArmOutcome(k, g);
    ArmsPlain(e, RunArm(m, f), RunArm(k, g));
  }

  /** On an accepted pair, and on one that may be measured again, success is the work alone. */
  lemma PairPlain(e: Entry, s: Source, off: ArmFacts, on: ArmFacts)
    ensures var p := RunPair(e, s, off, on); p.valid || p.eligible ==> PlainPair(p)
  {
    if s.contractHolds && s.compactionFree && AccountingOk(s) {
      RunArmsPlain(e, s, off, on);
      ArmsDecide(e, s, off, on);
      ArmsGaps(RunPair(e, s, off, on).arms);
    }
  }

  // --- Over every run of the loop ----------------------------------------------------------

  /** One call of the pair runner: an error of the harness, or what its source and its arms observe. */
  datatype Outcome = HarnessError | Measured(source: Source, off: ArmFacts, on: ArmFacts)

  /** The outcome of attempt `number` at schedule position `index`, both counted from 1. */
  type Oracle = (nat, nat) -> Outcome

  function RunnerOf(o: Oracle): Runner {
    (e: Entry, index: nat, number: nat) =>
      match o(index, number)
      case HarnessError => None
      case Measured(source, off, on) => Some(RunPair(e, source, off, on))
  }

  ghost predicate AllHonest(attempts: seq<Attempt>) {
    forall i :: 0 <= i < |attempts| ==> HonestPair(attempts[i].pair)
  }

  ghost predicate AllPlain(attempts: seq<Attempt>) {
    forall i :: 0 <= i < |attempts| ==> PlainPair(attempts[i].pair)
  }

  ghost predicate HonestRunner(run: Runner) {
    forall e, index: nat, number: nat ::
      run(e, index, number).Some? ==> HonestPair(run(e, index, number).value)
  }

  ghost predicate PlainRunner(run: Runner) {
    forall e, index: nat, number: nat ::
      run(e, index, number).Some? ==>
        var p := run(e, index, number).value; p.valid || p.eligible ==> PlainPair(p)
  }

  lemma OracleHonest(o: Oracle)
    ensures HonestRunner(RunnerOf(o))
  {
    forall e, index: nat, number: nat | RunnerOf(o)(e, index, number).Some?
      ensures HonestPair(RunnerOf(o)(e, index, number).value)
    {
      var x := o(index, number);
      PairHonest(e, x.source, x.off, x.on);
    }
  }

  lemma OraclePlain(o: Oracle)
    ensures PlainRunner(RunnerOf(o))
  {
    forall e, index: nat, number: nat | RunnerOf(o)(e, index, number).Some?
      ensures var p := RunnerOf(o)(e, index, number).value; p.valid || p.eligible ==> PlainPair(p)
    {
      var x := o(index, number);
      PairPlain(e, x.source, x.off, x.on);
    }
  }

  lemma {:induction false} TryHonest(run: Runner, e: Entry, index: nat, number: nat, s: Suite)
    requires HonestRunner(run) && AllHonest(s.pairs) && AllHonest(s.invalid)
    ensures var r := TryEntry(run, e, index, number, s); AllHonest(r.pairs) && AllHonest(r.invalid)
    decreases MAX_PAIR_ATTEMPTS + 1 - number, index
  {
    if number <= MAX_PAIR_ATTEMPTS && run(e, index, number).Some? {
      var a := AttemptAt(run, e, index, number);
      assert AllHonest(s.pairs + [a]) && AllHonest(s.invalid + [a]);
      TryHonest(run, e, index, number + 1, s.(invalid := s.invalid + [a]));
    }
  }

  lemma {:induction false} RunnerHonest(run: Runner, schedule: seq<Entry>, n: nat)
    requires n <= |schedule| && HonestRunner(run)
    ensures var s := RunEntries(run, schedule, n); AllHonest(s.pairs) && AllHonest(s.invalid)
  {
    if n > 0 {
      RunnerHonest(run, schedule, n - 1);
      TryHonest(run, schedule[n - 1], n, 1, RunEntries(run, schedule, n - 1));
    }
  }

  /** No run, finished or aborted, records an arm that is both verified and a false success. */
  lemma RunHonest(o: Oracle, schedule: seq<Entry>, n: nat)
    requires n <= |schedule|
    ensures var s := RunEntries(RunnerOf(o), schedule, n); AllHonest(s.pairs) && AllHonest(s.invalid)
  {
    OracleHonest(o);
    RunnerHonest(RunnerOf(o), schedule, n);
  }

  lemma RunnerPlain(run: Runner, schedule: seq<Entry>, s: Suite)
    requires PlainRunner(run) && ResampleLoop.Complete(run, schedule, |schedule|, s)
    ensures AllPlain(s.pairs) && AllPlain(s.invalid)
  {
    forall i | 0 <= i < |s.pairs| ensures PlainPair(s.pairs[i].pair) {
      assert Settled(run, schedule, s.pairs[i], i);
    }
    forall k | 0 <= k < |s.invalid| ensures PlainPair(s.invalid[k].pair) {
      assert s.invalid[k] in s.invalid;
      assert IsDiscarded(run, schedule, s.pairs, s.invalid[k]);
    }
  }

  /** On every attempt of a finished loop, accepted or discarded, an arm is verified exactly when its work is done. */
  lemma FinishedPlain(o: Oracle, schedule: seq<Entry>)
    requires RunEntries(RunnerOf(o), schedule, |schedule|).status == Running
    ensures var s := RunEntries(RunnerOf(o), schedule, |schedule|); AllPlain(s.pairs) && AllPlain(s.invalid)
  {
    SuiteAccount(RunnerOf(o), schedule, |schedule|);
    OraclePlain(o);
    RunnerPlain(RunnerOf(o), schedule, RunEntries(RunnerOf(o), schedule, |schedule|));
  }

  // --- The course of a run never reads whether the work was done -----------------------------

  /** Equal up to the four facts of the work. */
  predicate SameMeasurement(f: ArmFacts, g: ArmFacts) {
    g == f.(completed := g.completed, externalPassed := g.externalPassed,
            receiptValid := g.receiptValid, markersVisible := g.markersVisible)
  }

  predicate SameVerdict(a: Arm, b: Arm) {
    && b.mode == a.mode && b.failed == a.failed && b.valid == a.valid
    && b.facts.finalAudit == a.facts.finalAudit && b.facts.compactAudit == a.facts.compactAudit
    && b.facts.sourceDigest == a.facts.sourceDigest
  }

  /** Equal in everything but the outcome of the arms' work. */
  ghost predicate SameCourse(p: Pair, q: Pair) {
    && q.entry == p.entry && q.valid == p.valid && q.eligible == p.eligible && q.stage == p.stage
    && |q.arms| == |p.arms| && forall j :: 0 <= j < |p.arms| ==> SameVerdict(p.arms[j], q.arms[j])
  }

  lemma ArmBlind(m: Mode, f: ArmFacts, g: ArmFacts)
    requires SameMeasurement(f, g)
    ensures SameVerdict(RunArm(m, f), RunArm(m, g))
  {
  }

  lemma ArmsBlind(arms: seq<Arm>, arms': seq<Arm>, contractValid: bool)
    requires |arms| == |arms'| && forall i :: 0 <= i < |arms| ==> SameVerdict(arms[i], arms'[i])
    ensures ArmsEligible(arms, contractValid) == ArmsEligible(arms', contractValid)
  {
    forall i | 0 <= i < |arms|
      ensures arms'[i].valid == arms[i].valid && ArmEligible(arms'[i]) == ArmEligible(arms[i])
    {
      assert SameVerdict(arms[i], arms'[i]);
    }
  }

  lemma PairBlind(e: Entry, a: Arm, b: Arm, a': Arm, b': Arm)
    requires SameVerdict(a, a') && SameVerdict(b, b')
    ensures SameCourse(PairOf(e, a, b), PairOf(e, a', b'))
  {
    ArmsBlind([a], [a'], true);
    ArmsBlind([a, b], [a', b'], true);
  }

  /** Whether a pair is accepted, discarded or fatal, and on which axes, never depends on the work being done. */
  lemma OutcomeBlind(e: Entry, s: Source, off: ArmFacts, on: ArmFacts, off': ArmFacts, on': ArmFacts)
    requires SameMeasurement(off, off') && SameMeasurement(on, on')
    ensures SameCourse(RunPair(e, s, off, on), RunPair(e, s, off', on'))
  {
    var (m, k) := ArmOrder(e);
    var f, f' := (if m == On then on else off), (if m == On then on' else off');
    var g, g' := (if k == On then on else off), (if k == On then on' else off');
    ArmBlind(m, f, f');
    ArmBlind(k, g, g');
    PairBlind(e, RunArm(m, f), RunArm(k, g), RunArm(m, f'), RunArm(k, g'));
  }

  predicate SameOutcome(x: Outcome, y: Outcome) {
    if x.HarnessError? then y.HarnessError?
    else y.Measured? && y.source == x.source && SameMeasurement(x.off, y.off) && SameMeasurement(x.on, y.on)
  }

  /** The two oracles differ at most in whether the work of their arms was done. */
  ghost predicate SameUpToWork(o: Oracle, o': Oracle) {
    forall index: nat, number: nat :: SameOutcome(o(index, number), o'(index, number))
  }

  ghost predicate SameYield(x: Option<Pair>, y: Option<Pair>) {
    if x.None? then y.None? else y.Some? && SameCourse(x.value, y.value)
  }

  ghost predicate SameRunner(run: Runner, run': Runner) {
    forall e, index: nat, number: nat :: SameYield(run(e, index, number), run'(e, index, number))
  }

  lemma OracleBlind(o: Oracle, o': Oracle)
    requires SameUpToWork(o, o')
    ensures SameRunner(RunnerOf(o), RunnerOf(o'))
  {
    forall e, index: nat, number: nat
      ensures SameYield(RunnerOf(o)(e, index, number), RunnerOf(o')(e, index, number))
    {
      var x, y := o(index, number), o'(index, number);
      assert SameOutcome(x, y);
      if x.Measured? { OutcomeBlind(e, x.source, x.off, x.on, y.off, y.on); }
    }
  }

  ghost predicate SameAttempt(a: Attempt, b: Attempt) {
    b.index == a.index && b.number == a.number && SameCourse(a.pair, b.pair)
  }

  ghost predicate SameAttempts(a: seq<Attempt>, b: seq<Attempt>) {
    |a| == |b| && forall i :: 0 <= i < |a| ==> SameAttempt(a[i], b[i])
  }

  ghost predicate SameSuite(s: Suite, t: Suite) {
    s.status == t.status && SameAttempts(s.pairs, t.pairs) && SameAttempts(s.invalid, t.invalid)
  }

  lemma SameSnoc(a: seq<Attempt>, b: seq<Attempt>, x: Attempt, y: Attempt)
    requires SameAttempts(a, b) && SameAttempt(x, y)
    ensures SameAttempts(a + [x], b + [y])
  {
  }

  lemma {:induction false} TryBlind(
    run: Runner, run': Runner, e: Entry, index: nat, number: nat, s: Suite, t: Suite)
    requires SameRunner(run, run') && SameSuite(s, t)
    ensures SameSuite(TryEntry(run, e, index, number, s), TryEntry(run', e, index, number, t))
    decreases MAX_PAIR_ATTEMPTS + 1 - number, index
  {
    if number <= MAX_PAIR_ATTEMPTS {
      assert SameYield(run(e, index, number), run'(e, index, number));
      if run(e, index, number).Some? {
        var a, b := AttemptAt(run, e, index, number), AttemptAt(run', e, index, number);
        SameSnoc(s.pairs, t.pairs, a, b);
        SameSnoc(s.invalid, t.invalid, a, b);
        TryBlind(run, run', e, index, number + 1, s.(invalid := s.invalid + [a]), t.(invalid := t.invalid + [b]));
      }
    }
  }

  lemma {:induction false} RunnerBlind(run: Runner, run': Runner, schedule: seq<Entry>, n: nat)
    requires n <= |schedule| && SameRunner(run, run')
    ensures SameSuite(RunEntries(run, schedule, n), RunEntries(run', schedule, n))
  {
    if n > 0 {
      RunnerBlind(run, run', schedule, n - 1);
      TryBlind(run, run', schedule[n - 1], n, 1, RunEntries(run, schedule, n - 1), RunEntries(run', schedule, n - 1));
    }
  }

  /**
    Two runs whose oracles differ only in whether the work was done take the same course: the same
    attempts, accepted, discarded or fatal on the same axes, and the same end.
   */
  lemma RunBlind(o: Oracle, o': Oracle, schedule: seq<Entry>, n: nat)
    requires n <= |schedule| && SameUpToWork(o, o')
    ensures SameSuite(RunEntries(RunnerOf(o), schedule, n), RunEntries(RunnerOf(o'), schedule, n))
  {
    OracleBlind(o, o');
    RunnerBlind(RunnerOf(o), RunnerOf(o'), schedule, n);
  }
}
