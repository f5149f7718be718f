/**
  Paired measurements with resampling: how one pair is measured, when it may be measured
  again, the schedule, and the aggregate decision over accepted and discarded attempts.
 */
module ResampleModel {
  import opened Basics

  datatype Variant = Baseline | Candidate
  datatype Scenario = TaskA | TaskB
  datatype Mode = Off | On

  datatype Entry = Entry(variant: Variant, scenario: Scenario, repetition: nat)

  const MAX_PAIR_ATTEMPTS := 4

  // --- Accounting audits --------------------------------------------------------------

  datatype AuditAxis =
    | TerminalProjection | UsageProjection | ModelRequestLimit | HardRequestLimit | ApiRequestLimit
    | AccountingInvariants | NormalizedObservability | Priced | BudgetNotExhausted | NoInFlight | NoRecordsAfterSeal
    | Complete | UsageComplete | UsageMissingAbsent | UsageIncompleteAbsent | BillingKnown | HelperValid

  const PROTECTED := {TerminalProjection, UsageProjection, ModelRequestLimit, HardRequestLimit, ApiRequestLimit,
                      AccountingInvariants, NormalizedObservability, Priced, BudgetNotExhausted, NoInFlight,
                      NoRecordsAfterSeal}
  const OBSERVABILITY := {Complete, UsageComplete, UsageMissingAbsent, UsageIncompleteAbsent, BillingKnown}

  datatype Audit = Audit(failed: set<AuditAxis>, runtimeRetries: nat, transportRetries: nat)

  predicate AuditValid(a: Audit) {
    a.failed == {}
  }

  predicate GapEligible(a: Audit) {
    && !AuditValid(a)
    && (forall x :: x in PROTECTED ==> x !in a.failed)
    && (exists x :: x in OBSERVABILITY && x in a.failed)
    && a.runtimeRetries + a.transportRetries > 0
  }

  // --- Arms ------------------------------------------------------------------------------

  datatype Axis =
    | EventSchema | ExternalVerifier | CompactionContract | Lineage | ProjectionLineage | FailureFactProjection
    | NoAutomaticCompaction | FinalAccounting | CompactAccounting | ModeExercised | SharedSourceTranscript

  const CONTRACT_AXES := {EventSchema, ExternalVerifier, CompactionContract, Lineage, ProjectionLineage,
                          FailureFactProjection, NoAutomaticCompaction}

  /** What running one arm observes. */
  datatype ArmFacts = ArmFacts(
    contractFailures: set<Axis>, finalAudit: Audit, compactAudit: Audit, exercised: bool,
    completed: bool, externalPassed: bool, receiptValid: bool, markersVisible: bool, sourceDigest: Option<string>)

  datatype Arm = Arm(
    mode: Mode, failed: set<Axis>, valid: bool, verified: bool, falseSuccess: bool, facts: ArmFacts)

  /** The contract axes that failed. A compaction whose lineage is broken breaks its own contract. */
  function ContractFailed(f: ArmFacts): set<Axis> {
    var failed := f.contractFailures * CONTRACT_AXES;
    failed + if Lineage in failed || ProjectionLineage in failed then {CompactionContract} else {}
  }

  function RunArm(mode: Mode, f: ArmFacts): Arm {
    var contract := ContractFailed(f);
    var failed :=
      contract
      + (if AuditValid(f.finalAudit) then {} else {FinalAccounting})
      + (if AuditValid(f.compactAudit) then {} else {CompactAccounting})
      + (if f.exercised == (mode == On) then {} else {ModeExercised});
    var verified :=
      && f.completed && f.externalPassed && f.receiptValid && f.markersVisible
      && Lineage !in contract && ProjectionLineage !in contract && FailureFactProjection !in contract;
    var falseSuccess := f.completed && !(f.externalPassed && f.receiptValid);
    Arm(mode, failed, failed == {}, verified, falseSuccess, f)
  }

  predicate ArmEligible(a: Arm) {
    && a.failed != {}
    && a.failed <= {CompactAccounting, FinalAccounting}
    && (CompactAccounting in a.failed ==> GapEligible(a.facts.compactAudit))
    && (FinalAccounting in a.failed ==> GapEligible(a.facts.finalAudit))
  }

  predicate ArmsEligible(arms: seq<Arm>, contractValid: bool) {
    && contractValid
    && (exists i :: 0 <= i < |arms| && !arms[i].valid)
    && (forall i :: 0 <= i < |arms| ==> arms[i].valid || ArmEligible(arms[i]))
  }

  function ArmOrder(e: Entry): (Mode, Mode) {
    var parity := (if e.variant == Baseline then 0 else 1) + (if e.scenario == TaskA then 0 else 1) + e.repetition;
    if parity % 2 == 0 then (Off, On) else (On, Off)
  }

  // --- One pair ----------------------------------------------------------------------------

  /** The shared source of a pair. `contractHolds` stands for the contract axes other than compaction. */
  datatype Source = Source(contractHolds: bool, compactionFree: bool, audits: seq<Audit>)

  datatype Stage = SourceContract | SourceStage | TreatmentArm

  datatype Pair = Pair(entry: Entry, valid: bool, eligible: bool, stage: Option<Stage>, arms: seq<Arm>)

  predicate AccountingOk(s: Source) {
    forall i :: 0 <= i < |s.audits| ==> AuditValid(s.audits[i])
  }

  predicate SourceEligible(s: Source) {
    && s.compactionFree
    && !AccountingOk(s)
    && (forall i :: 0 <= i < |s.audits| ==> AuditValid(s.audits[i]) || GapEligible(s.audits[i]))
  }

  /** Both arms must have started from the same transcript. */
  function Share(a: Arm, shared: bool): Arm {
    a.(failed := a.failed + (if shared then {} else {SharedSourceTranscript}), valid := a.valid && shared)
  }

  /** The arms in the order they are run: the second only if the first is valid. */
  function PairOf(e: Entry, first: Arm, second: Arm): Pair {
    if !first.valid then Pair(e, false, ArmsEligible([first], true), Some(TreatmentArm), [first])
    else if !second.valid then
      Pair(e, false, ArmsEligible([first, second], true), Some(TreatmentArm), [first, second])
    else
      var shared := first.facts.sourceDigest == second.facts.sourceDigest && first.facts.sourceDigest.Some?;
      var arms := [Share(first, shared), Share(second, shared)];
      Pair(e, shared, !shared && ArmsEligible(arms, shared), if shared then None else Some(TreatmentArm), arms)
  }

  /** `on` and `off` are what the arm of that mode observes when it is run. */
  function RunPair(e: Entry, s: Source, off: ArmFacts, on: ArmFacts): Pair {
    if !(s.contractHolds && s.compactionFree) then Pair(e, false, false, Some(SourceContract), [])
    else if !AccountingOk(s) then Pair(e, false, SourceEligible(s), Some(SourceStage), [])
    else
      var (m, k) := ArmOrder(e);
      PairOf(e, RunArm(m, if m == On then on else off), RunArm(k, if k == On then on else off))
  }

  // --- The schedule ---------------------------------------------------------------------------

  function Variants(index: nat): seq<Variant> {
    if index % 2 == 1 then [Baseline, Candidate] else [Candidate, Baseline]
  }

  function Repetition(k: nat, s: Scenario, n: nat): seq<Entry> {
    var v := Variants(k + n);
    [Entry(v[0], s, n), Entry(v[1], s, n)]
  }

  function Block(k: nat, s: Scenario, n: nat): seq<Entry> {
    if n == 0 then [] else Block(k, s, n - 1) + Repetition(k, s, n)
  }

  function Schedule(n: nat): seq<Entry> {
    Block(0, TaskA, n) + Block(1, TaskB, n)
  }

  method BuildSchedule(n: nat) returns (r: seq<Entry>)
    ensures r == Schedule(n)
  {
    r := [];
    for repetition := 1 to n + 1
      invariant r == Block(0, TaskA, repetition - 1)
    {
      r := r + Repetition(0, TaskA, repetition);
    }
    var a := r;
    for repetition := 1 to n + 1
      invariant r == a + Block(1, TaskB, repetition - 1)
    {
      assert Block(1, TaskB, repetition) == Block(1, TaskB, repetition - 1) + Repetition(1, TaskB, repetition);
      r := r + Repetition(1, TaskB, repetition);
    }
  }

  // --- The aggregate -----------------------------------------------------------------------------

  datatype Decision = MeasurementInvalid | Delete | Keep | Shrink

  /** An attempt of one schedule entry, accepted or discarded. */
  datatype Attempt = Attempt(pair: Pair, index: nat, number: nat)

  datatype Row = Row(repetition: nat, arm: Arm)

  function PairRows(p: Pair, m: Mode, n: nat): seq<Row>
    requires n <= |p.arms|
  {
    if n == 0 then []
    else PairRows(p, m, n - 1) + if p.arms[n - 1].mode == m then [Row(p.entry.repetition, p.arms[n - 1])] else []
  }

  /** What one attempt adds to a cell. */
  function AttemptRows(a: Attempt, v: Variant, s: Scenario, m: Mode): seq<Row> {
    if a.pair.entry.variant == v && a.pair.entry.scenario == s then PairRows(a.pair, m, |a.pair.arms|) else []
  }

  /** The rows of one cell, in the order of the attempts. */
  function Cell(attempts: seq<Attempt>, v: Variant, s: Scenario, m: Mode): seq<Row> {
    if attempts == [] then []
    else Cell(attempts[..|attempts| - 1], v, s, m) + AttemptRows(attempts[|attempts| - 1], v, s, m)
  }

  ghost predicate HasRepetition(rows: seq<Row>, r: nat) {
    exists i :: 0 <= i < |rows| && rows[i].repetition == r
  }

  ghost predicate HasEntry(pairs: seq<Attempt>, e: Entry) {
    exists i :: 0 <= i < |pairs| && pairs[i].pair.entry == e
  }

  /** The pairs cover exactly the repetitions 1..n of every variant and scenario. */
  ghost predicate ExactPairs(pairs: seq<Attempt>, n: nat) {
    forall e :: HasEntry(pairs, e) <==> 1 <= e.repetition <= n
  }

  /** The cell holds n rows, and their repetitions are exactly 1..n. */
  ghost predicate CellExact(pairs: seq<Attempt>, n: nat, v: Variant, s: Scenario, m: Mode) {
    var rows := Cell(pairs, v, s, m);
    rows != [] && |rows| == n && forall r: nat :: HasRepetition(rows, r) <==> 1 <= r <= n
  }

  ghost predicate ExactCells(pairs: seq<Attempt>, n: nat) {
    forall v, s, m :: CellExact(pairs, n, v, s, m)
  }

  ghost predicate ArmsSound(pairs: seq<Attempt>) {
    forall i, j :: 0 <= i < |pairs| && 0 <= j < |pairs[i].pair.arms| ==>
      var a := pairs[i].pair.arms[j]; a.valid && a.facts.exercised == (a.mode == On)
  }

  ghost predicate ProductEligible(pairs: seq<Attempt>, n: nat) {
    ExactPairs(pairs, n) && ExactCells(pairs, n) && ArmsSound(pairs)
  }

  /** The rows of a cell among accepted and discarded attempts alike. */
  function Outcomes(pairs: seq<Attempt>, invalid: seq<Attempt>, v: Variant, s: Scenario, m: Mode): seq<Row> {
    Cell(pairs, v, s, m) + Cell(invalid, v, s, m)
  }

  predicate Succeeded(r: Row) {
    r.arm.verified && !r.arm.falseSuccess
  }

  ghost predicate AllSucceeded(rows: seq<Row>) {
    forall i :: 0 <= i < |rows| ==> Succeeded(rows[i])
  }

  /** Every observed outcome of the candidate with compaction on, discarded attempts included. */
  ghost predicate CandidateAllSuccess(pairs: seq<Attempt>, invalid: seq<Attempt>, n: nat) {
    var a, b := Outcomes(pairs, invalid, Candidate, TaskA, On), Outcomes(pairs, invalid, Candidate, TaskB, On);
    |a| + |b| >= 2 * n && AllSucceeded(a) && AllSucceeded(b)
  }

  function Verified(rows: seq<Row>): nat {
    if rows == [] then 0
    else Verified(rows[..|rows| - 1]) + if rows[|rows| - 1].arm.verified then 1 else 0
  }

  /** The observed success rate, through whatever rounding the report applies. */
  function Rate(round: real -> real, rows: seq<Row>): real
    requires rows != []
  {
    round(Verified(rows) as real / |rows| as real)
  }

  /** In this scenario the candidate with compaction on is at least as reliable as both its controls. */
  predicate NoWorse(round: real -> real, pairs: seq<Attempt>, invalid: seq<Attempt>, s: Scenario) {
    var on := Outcomes(pairs, invalid, Candidate, s, On);
    var off, base := Outcomes(pairs, invalid, Candidate, s, Off), Outcomes(pairs, invalid, Baseline, s, On);
    && on != [] && off != [] && base != []
    && Rate(round, on) >= Rate(round, off) && Rate(round, on) >= Rate(round, base)
  }

  ghost predicate NonRegression(round: real -> real, pairs: seq<Attempt>, invalid: seq<Attempt>, n: nat) {
    && ProductEligible(pairs, n)
    && CandidateAllSuccess(pairs, invalid, n)
    && NoWorse(round, pairs, invalid, TaskA)
    && NoWorse(round, pairs, invalid, TaskB)
  }

  /** `benefit` stands for the efficiency or reliability benefit, which is never claimed alone. */
  ghost function Decide(
    round: real -> real, pairs: seq<Attempt>, invalid: seq<Attempt>, n: nat, benefit: bool): Decision
  {
    if !ProductEligible(pairs, n) then MeasurementInvalid
    else if !CandidateAllSuccess(pairs, invalid, n) then Delete
    else if NonRegression(round, pairs, invalid, n) && benefit then Keep
    else Shrink
  }
}
