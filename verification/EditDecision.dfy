/** Aggregates of a projection, and the admission decision over many projected records. */
module EditDecision {
  import opened Basics
  import opened EditModel
  import opened EditProjection
  import opened EditRecovery

  datatype Bucket = PatchGeneration | EditRecoveryBucket | TransactionAmbiguity | OtherOperation

  function BucketOf(c: FailureCode): Bucket {
    match c
    case MalformedArguments => PatchGeneration
    case SchemaValidation => PatchGeneration
    case MissingField => PatchGeneration
    case InvalidField => PatchGeneration
    case PatchParse => PatchGeneration
    case WorkspacePrecondition => EditRecoveryBucket
    case StaleRead => EditRecoveryBucket
    case AmbiguousEdit => EditRecoveryBucket
    case SideEffectAmbiguous => TransactionAmbiguity
    case InvocationRejected => OtherOperation
    case UnknownTool => OtherOperation
    case TransportFailedCode => OtherOperation
    case VerifierFailed => OtherOperation
    case OperationFailedCode => OtherOperation
  }

  /** The lists of codes that the manifest gives for each bucket. */
  const FAILURE_BUCKETS := map[
    PatchGeneration := [MalformedArguments, SchemaValidation, MissingField, InvalidField, PatchParse],
    EditRecoveryBucket := [WorkspacePrecondition, StaleRead, AmbiguousEdit],
    TransactionAmbiguity := [SideEffectAmbiguous],
    OtherOperation := [InvocationRejected, UnknownTool, TransportFailedCode, VerifierFailed, OperationFailedCode]]

  /** The bucket of a code inverts the lists: each known code is in exactly one of them. */
  lemma BucketInverts(c: FailureCode, b: Bucket)
    ensures b in FAILURE_BUCKETS
    ensures BucketOf(c) == b <==> c in FAILURE_BUCKETS[b]
  {
    match b
    case PatchGeneration =>
    case EditRecoveryBucket =>
    case TransactionAmbiguity =>
    case OtherOperation =>
  }

  // --- Counts of one projection -----------------------------------------------------

  function Count(m: map<Bucket, nat>, b: Bucket): nat {
    if b in m then m[b] else 0
  }

  /** Successes and validly coded failures: what the replay guarantees of every attempt. */
  predicate Coded(a: Attempt) {
    a.success || a.outcome.failureCode.Known?
  }

  /** What the counters of a summary count. */
  datatype Feature =
    | Succeeds | FailsRecovered | FailsUnrecovered | FailsUnscorable | FailsAmbiguous | FailsIn(bucket: Bucket)

  predicate Has(a: Attempt, t: Feature) {
    match t
    case Succeeds => a.success
    case FailsRecovered => !a.success && a.recovery.RecoveredBy?
    case FailsUnrecovered => !a.success && a.recovery.NotRecovered?
    case FailsUnscorable => !a.success && a.recovery.Unscorable?
    case FailsAmbiguous => !a.success && a.outcome.sideEffect == Indeterminate
    case FailsIn(b) => !a.success && a.outcome.failureCode.Known? && BucketOf(a.outcome.failureCode.code) == b
  }

  function Tally(attempts: seq<Attempt>, t: Feature): nat {
    if attempts == [] then 0
    else
      var n := |attempts| - 1;
      Tally(attempts[..n], t) + if Has(attempts[n], t) then 1 else 0
  }

  /** One counting pass over the attempts. */
  method CountAttempts(attempts: seq<Attempt>, t: Feature) returns (n: nat)
    ensures n == Tally(attempts, t)
  {
    n := 0;
    for i := 0 to |attempts|
      invariant n == Tally(attempts[..i], t)
    {
      assert attempts[..i + 1][..i] == attempts[..i];
      if Has(attempts[i], t) { n := n + 1; }
    }
    assert attempts[..|attempts|] == attempts;
  }

  /** The counter of failures by bucket. */
  method CountBuckets(attempts: seq<Attempt>) returns (buckets: map<Bucket, nat>)
    requires forall i :: 0 <= i < |attempts| ==> Coded(attempts[i])
    ensures forall b :: Count(buckets, b) == Tally(attempts, FailsIn(b))
  {
    buckets := map[];
    for i := 0 to |attempts|
      invariant forall b :: Count(buckets, b) == Tally(attempts[..i], FailsIn(b))
    {
      assert attempts[..i + 1][..i] == attempts[..i];
      if !attempts[i].success {
        var b := BucketOf(attempts[i].outcome.failureCode.code);
        buckets := buckets[b := 1 + Count(buckets, b)];
      }
    }
    assert attempts[..|attempts|] == attempts;
  }

  /** Every failure is scored once and lands in one bucket; nothing is counted twice or lost. */
  lemma {:induction false} TalliesConserve(attempts: seq<Attempt>)
    requires forall i :: 0 <= i < |attempts| ==> Coded(attempts[i])
    ensures |attempts| == Tally(attempts, Succeeds) + Tally(attempts, FailsRecovered)
                          + Tally(attempts, FailsUnrecovered) + Tally(attempts, FailsUnscorable)
    ensures |attempts| == Tally(attempts, Succeeds) + Tally(attempts, FailsIn(PatchGeneration))
                          + Tally(attempts, FailsIn(EditRecoveryBucket))
                          + Tally(attempts, FailsIn(TransactionAmbiguity)) + Tally(attempts, FailsIn(OtherOperation))
  {
    if attempts != [] { TalliesConserve(attempts[..|attempts| - 1]); }
  }

  /** Every attempt of an accepted ledger is a success or carries a known failure code. */
  lemma ProjectionIsCoded(events: seq<Stored>)
    requires EditModel.Project(events).Ok?
    ensures var o := EditModel.Project(events).value;
            forall i :: 0 <= i < |o.attempts| ==> Coded(o.attempts[i])
  {
    ProjectParts(events);
    var f, o := Replay(events).value, EditModel.Project(events).value;
    forall i | 0 <= i < |o.attempts| ensures Coded(o.attempts[i]) {
      var c := AttemptOrigin(f, |events|, i);
    }
  }

  /**
    Conservation: the attempts of an accepted ledger are its successes and its failures, and
    the failures are the recovered, unrecovered and unscorable ones, and again the buckets.
   */
  lemma ProjectionConserves(events: seq<Stored>)
    requires EditModel.Project(events).Ok?
    ensures var all := EditModel.Project(events).value.attempts;
            var failures := |all| - Tally(all, Succeeds);
            && failures == Tally(all, FailsRecovered) + Tally(all, FailsUnrecovered) + Tally(all, FailsUnscorable)
            && failures == Tally(all, FailsIn(PatchGeneration)) + Tally(all, FailsIn(EditRecoveryBucket))
                           + Tally(all, FailsIn(TransactionAmbiguity)) + Tally(all, FailsIn(OtherOperation))
  {
    ProjectionIsCoded(events);
    TalliesConserve(EditModel.Project(events).value.attempts);
  }

  // --- Ambiguous transactions -----------------------------------------------------------

  /** An edit whose effect is unknown: its outcome says so, or it started to write and has no outcome. */
  predicate Ambiguous(f: Facts, op: string) {
    && IsEdit(f, op)
    && if op in f.committed then
         !OutcomeSuccess(f.committed[op].outcome) && f.committed[op].outcome.sideEffect == Indeterminate
       else op in f.started && f.prepared[op].mayWrite
  }

  ghost function AmbiguousEdits(f: Facts): set<string> {
    set op | op in f.prepared && Ambiguous(f, op)
  }

  /** No operation is both an attempt and incomplete. */
  lemma AmbiguitiesDisjoint(events: seq<Stored>, i: nat, j: nat)
    requires EditModel.Project(events).Ok?
    requires var o := EditModel.Project(events).value; i < |o.attempts| && j < |o.incomplete|
    ensures var o := EditModel.Project(events).value; o.attempts[i].operationId != o.incomplete[j]
  {
    ProjectParts(events);
    var f, o := Replay(events).value, EditModel.Project(events).value;
    var c := AttemptOrigin(f, |events|, i);
    IncompleteNotCommitted(f, |f.startOrder|, j);
  }

  lemma {:induction false} IncompleteNotCommitted(f: Facts, n: nat, j: nat)
    requires n <= |f.startOrder| && j < |IncompleteUpTo(f, n)|
    ensures IncompleteUpTo(f, n)[j] !in f.committed
  {
    if j < |IncompleteUpTo(f, n - 1)| { IncompleteNotCommitted(f, n - 1, j); }
  }

  /** Those of the first `n` outcomes, and of the first `n` starts. */
  ghost function AmbiguousOutcomes(f: Facts, n: nat): set<string>
    requires n <= |f.commitOrder|
  {
    set c | 0 <= c < n && f.commitOrder[c] in f.committed && Ambiguous(f, f.commitOrder[c]) :: f.commitOrder[c]
  }

  ghost function AmbiguousStarts(f: Facts, n: nat): set<string>
    requires n <= |f.startOrder|
  {
    set c | 0 <= c < n && IsIncomplete(f, f.startOrder[c]) :: f.startOrder[c]
  }

  lemma {:induction false} OutcomesCounted(f: Facts, n: nat)
    requires OrderKnown(f) && CommitsOrdered(f) && n <= |f.commitOrder|
    ensures Tally(AttemptsUpTo(f, n), FailsAmbiguous) == |AmbiguousOutcomes(f, n)|
  {
    if n > 0 {
      OutcomesCounted(f, n - 1);
      OutcomeTallied(f, n);
      OutcomeListed(f, n);
    }
  }

  lemma OutcomeTallied(f: Facts, n: nat)
    requires OrderKnown(f) && 0 < n <= |f.commitOrder|
    ensures Tally(AttemptsUpTo(f, n), FailsAmbiguous)
         == Tally(AttemptsUpTo(f, n - 1), FailsAmbiguous) + if Ambiguous(f, f.commitOrder[n - 1]) then 1 else 0
  {
    var op, base, all := f.commitOrder[n - 1], AttemptsUpTo(f, n - 1), AttemptsUpTo(f, n);
    if IsEdit(f, op) {
      assert all[..|base|] == base && all[|base|] == MakeAttempt(f, op);
    } else {
      assert all == base;
    }
  }

  lemma OutcomeListed(f: Facts, n: nat)
    requires OrderKnown(f) && CommitsOrdered(f) && 0 < n <= |f.commitOrder|
    ensures |AmbiguousOutcomes(f, n)|
         == |AmbiguousOutcomes(f, n - 1)| + if Ambiguous(f, f.commitOrder[n - 1]) then 1 else 0
  {
    var op := f.commitOrder[n - 1];
    assert op !in AmbiguousOutcomes(f, n - 1);
    assert AmbiguousOutcomes(f, n) == AmbiguousOutcomes(f, n - 1) + if Ambiguous(f, op) then {op} else {};
  }

  lemma {:induction false} StartsCounted(f: Facts, n: nat)
    requires StartsOrdered(f) && n <= |f.startOrder|
    ensures |IncompleteUpTo(f, n)| == |AmbiguousStarts(f, n)|
  {
    if n > 0 {
      StartsCounted(f, n - 1);
      StartListed(f, n);
    }
  }

  lemma StartListed(f: Facts, n: nat)
    requires StartsOrdered(f) && 0 < n <= |f.startOrder|
    ensures |AmbiguousStarts(f, n)|
         == |AmbiguousStarts(f, n - 1)| + if IsIncomplete(f, f.startOrder[n - 1]) then 1 else 0
  {
    var op := f.startOrder[n - 1];
    assert op !in AmbiguousStarts(f, n - 1);
    assert AmbiguousStarts(f, n) == AmbiguousStarts(f, n - 1) + if IsIncomplete(f, op) then {op} else {};
  }

  lemma AmbiguousSplit(f: Facts)
    requires OrderKnown(f) && CommitsOrdered(f) && StartsOrdered(f)
    ensures AmbiguousEdits(f) == AmbiguousOutcomes(f, |f.commitOrder|) + AmbiguousStarts(f, |f.startOrder|)
    ensures AmbiguousOutcomes(f, |f.commitOrder|) !! AmbiguousStarts(f, |f.startOrder|)
  {
    forall op | op in AmbiguousEdits(f)
      ensures op in AmbiguousOutcomes(f, |f.commitOrder|) || op in AmbiguousStarts(f, |f.startOrder|)
    {
      if op in f.committed { assert op in f.commitOrder; } else { assert op in f.startOrder; }
    }
    forall op | op in AmbiguousStarts(f, |f.startOrder|) ensures op in AmbiguousEdits(f) {
      assert op in f.startOrder;
    }
  }

  lemma {:induction false} TallyRecovered(base: seq<Attempt>, attempts: seq<Attempt>)
    requires |base| == |attempts|
    requires forall i :: 0 <= i < |base| ==> attempts[i] == base[i].(recovery := attempts[i].recovery)
    ensures Tally(base, FailsAmbiguous) == Tally(attempts, FailsAmbiguous)
  {
    if base != [] { TallyRecovered(base[..|base| - 1], attempts[..|base| - 1]); }
  }

  /**
    The reported number of transaction ambiguities is the number of edits whose effect is unknown:
    the two ways of being counted overlap nowhere, and neither lists an operation twice.
   */
  lemma AmbiguitiesCounted(events: seq<Stored>)
    requires EditModel.Project(events).Ok?
    ensures Enveloped(events) && Replay(events).Ok?
    ensures var o := EditModel.Project(events).value;
            Tally(o.attempts, FailsAmbiguous) + |o.incomplete| == |AmbiguousEdits(Replay(events).value)|
  {
    ProjectParts(events);
    var f, o := Replay(events).value, EditModel.Project(events).value;
    OutcomesCounted(f, |f.commitOrder|);
    StartsCounted(f, |f.startOrder|);
    AmbiguousSplit(f);
    TallyRecovered(BaseAttempts(f).value, o.attempts);
  }

  // --- The decision over records ------------------------------------------------------

  datatype DecisionCode = ObservationRecordInvalid | ObservationBucketInvalid | TransactionObservationInvalid

  /** One task's projected record; `foreignBucket` says it names a bucket the manifest does not have. */
  datatype ObservationRecord = ObservationRecord(
    taskId: Option<string>, buckets: map<Bucket, int>, foreignBucket: bool, ambiguities: int)

  datatype Decision = NoMechanism | EditRecoveryTreatment | PatchGenerationTreatment | TransactionInvestigation

  const MINIMUM_FAILURES := 3
  const MINIMUM_TASKS := 2

  function CheckObservation(r: ObservationRecord): Result<(), DecisionCode> {
    if !Nonempty(r.taskId) then Err(ObservationRecordInvalid)
    else if r.foreignBucket || exists b :: b in r.buckets && r.buckets[b] < 0 then Err(ObservationBucketInvalid)
    else if r.ambiguities < 0 then Err(TransactionObservationInvalid)
    else Ok(())
  }

  function CountIn(r: ObservationRecord, b: Bucket): int {
    if b in r.buckets then r.buckets[b] else 0
  }

  function BucketTotal(records: seq<ObservationRecord>, b: Bucket): int {
    if records == [] then 0 else BucketTotal(records[..|records| - 1], b) + CountIn(records[|records| - 1], b)
  }

  function BucketTasks(records: seq<ObservationRecord>, b: Bucket): set<string> {
    set i | 0 <= i < |records| && records[i].taskId.Some? && CountIn(records[i], b) != 0 :: records[i].taskId.value
  }

  function AmbiguityTotal(records: seq<ObservationRecord>): int {
    if records == [] then 0 else AmbiguityTotal(records[..|records| - 1]) + records[|records| - 1].ambiguities
  }

  predicate Reaches(records: seq<ObservationRecord>, b: Bucket) {
    BucketTotal(records, b) >= MINIMUM_FAILURES && |BucketTasks(records, b)| >= MINIMUM_TASKS
  }

  function DecisionOf(records: seq<ObservationRecord>): Decision {
    if AmbiguityTotal(records) != 0 then TransactionInvestigation
    else if Reaches(records, PatchGeneration) then PatchGenerationTreatment
    else if Reaches(records, EditRecoveryBucket) then EditRecoveryTreatment
    else NoMechanism
  }

  /** A named task, known buckets with counts of at least zero, and at least zero ambiguities. */
  predicate ValidRecord(r: ObservationRecord) {
    Nonempty(r.taskId) && !r.foreignBucket && (forall b :: b in r.buckets ==> r.buckets[b] >= 0) && r.ambiguities >= 0
  }

  /** What is wrong with a record, the task before the buckets and these before the ambiguities. */
  predicate RecordFault(r: ObservationRecord, error: DecisionCode) {
    if !Nonempty(r.taskId) then error == ObservationRecordInvalid
    else if r.foreignBucket || exists b :: b in r.buckets && r.buckets[b] < 0 then error == ObservationBucketInvalid
    else r.ambiguities < 0 && error == TransactionObservationInvalid
  }

  lemma RecordCode(r: ObservationRecord)
    ensures CheckObservation(r).Ok? <==> ValidRecord(r)
    ensures forall error :: CheckObservation(r) == Err(error) <==> RecordFault(r, error)
  {
  }

  predicate AllValid(records: seq<ObservationRecord>) {
    forall i :: 0 <= i < |records| ==> ValidRecord(records[i])
  }

  /** Record `i` is the first that is invalid, and this is its error. */
  ghost predicate FirstInvalid(records: seq<ObservationRecord>, i: nat, error: DecisionCode) {
    && i < |records| && RecordFault(records[i], error)
    && forall j :: 0 <= j < i ==> ValidRecord(records[j])
  }

  /** The accumulators of the pass: failures and tasks of the two deciding buckets, and ambiguities. */
  datatype Totals = Totals(
    patch: int, patchTasks: set<string>, recovery: int, recoveryTasks: set<string>, ambiguities: int)

  function TotalsOf(records: seq<ObservationRecord>): Totals {
    Totals(BucketTotal(records, PatchGeneration), BucketTasks(records, PatchGeneration),
           BucketTotal(records, EditRecoveryBucket), BucketTasks(records, EditRecoveryBucket), AmbiguityTotal(records))
  }

  /** The accumulating pass over the records, stopping at the first invalid one. */
  method Accumulate(records: seq<ObservationRecord>) returns (r: Result<Totals, DecisionCode>)
    ensures r.Ok? <==> AllValid(records)
    ensures r.Ok? ==> r.value == TotalsOf(records)
    ensures r.Err? ==> exists i :: FirstInvalid(records, i, r.error)
  {
    var t := Totals(0, {}, 0, {}, 0);
    for i := 0 to |records|
      invariant AllValid(records[..i])
      invariant t == TotalsOf(records[..i])
    {
      var record := records[i];
      var check := CheckObservation(record);
      RecordCode(record);
      if check.Err? {
        StopsFirst(records, i);
        return Err(check.error);
      }
      RecordCounts(records, i, PatchGeneration);
      RecordCounts(records, i, EditRecoveryBucket);
      t := t.(patch := t.patch + CountIn(record, PatchGeneration),
              recovery := t.recovery + CountIn(record, EditRecoveryBucket),
              ambiguities := t.ambiguities + record.ambiguities);
      if CountIn(record, PatchGeneration) != 0 { t := t.(patchTasks := t.patchTasks + {record.taskId.value}); }
      if CountIn(record, EditRecoveryBucket) != 0 { t := t.(recoveryTasks := t.recoveryTasks + {record.taskId.value}); }
    }
    assert records[..|records|] == records;
    r := Ok(t);
  }

  method Decide(records: seq<ObservationRecord>) returns (r: Result<Decision, DecisionCode>)
    ensures r.Ok? <==> AllValid(records)
    ensures r.Ok? ==> r.value == DecisionOf(records)
    ensures r.Ok? ==> forall d :: Decides(records, d) <==> d == r.value
    ensures r.Err? ==> exists i :: FirstInvalid(records, i, r.error)
  {
    var t :- Accumulate(records);
    var patch := t.patch >= MINIMUM_FAILURES && |t.patchTasks| >= MINIMUM_TASKS;
    var recovery := t.recovery >= MINIMUM_FAILURES && |t.recoveryTasks| >= MINIMUM_TASKS;
    r := Ok(if t.ambiguities != 0 then TransactionInvestigation
            else if patch then PatchGenerationTreatment
            else if recovery then EditRecoveryTreatment
            else NoMechanism);
    forall d ensures Decides(records, d) <==> d == r.value { DecisionIff(records, d); }
  }

  // --- What each decision means ---------------------------------------------------------

  ghost predicate SomeAmbiguity(records: seq<ObservationRecord>) {
    exists i :: 0 <= i < |records| && records[i].ambiguities > 0
  }

  ghost predicate FromTwoTasks(records: seq<ObservationRecord>, b: Bucket, i: int, j: int) {
    && 0 <= i < |records| && 0 <= j < |records|
    && CountIn(records[i], b) > 0 && CountIn(records[j], b) > 0 && records[i].taskId != records[j].taskId
  }

  /** At least three failures of the bucket in all, and some in the records of two different tasks. */
  ghost predicate Admitted(records: seq<ObservationRecord>, b: Bucket) {
    BucketTotal(records, b) >= 3 && exists i, j :: FromTwoTasks(records, b, i, j)
  }

  ghost predicate Decides(records: seq<ObservationRecord>, d: Decision) {
    match d
    case TransactionInvestigation => SomeAmbiguity(records)
    case PatchGenerationTreatment => !SomeAmbiguity(records) && Admitted(records, PatchGeneration)
    case EditRecoveryTreatment =>
      !SomeAmbiguity(records) && !Admitted(records, PatchGeneration) && Admitted(records, EditRecoveryBucket)
    case NoMechanism =>
      !SomeAmbiguity(records) && !Admitted(records, PatchGeneration) && !Admitted(records, EditRecoveryBucket)
  }

  lemma {:induction false} AmbiguityIff(records: seq<ObservationRecord>)
    requires AllValid(records)
    ensures AmbiguityTotal(records) >= 0
    ensures AmbiguityTotal(records) != 0 <==> SomeAmbiguity(records)
  {
    if records != [] {
      var n := |records| - 1;
      AmbiguityIff(records[..n]);
      assert ValidRecord(records[n]);
      if SomeAmbiguity(records[..n]) {
        var i :| 0 <= i < n && records[..n][i].ambiguities > 0;
        assert records[i].ambiguities > 0;
      }
      if SomeAmbiguity(records) {
        var i :| 0 <= i < |records| && records[i].ambiguities > 0;
        assert i < n ==> records[..n][i].ambiguities > 0;
      }
    }
  }

  lemma TwoElements<T>(s: set<T>, x: T, y: T)
    requires x in s && y in s && x != y
    ensures |s| >= 2
  {
    assert {x, y} <= s;
    SubsetSize({x, y}, s);
  }

  lemma TwoTasks(records: seq<ObservationRecord>, b: Bucket, i: int, j: int)
    requires AllValid(records) && FromTwoTasks(records, b, i, j)
    ensures |BucketTasks(records, b)| >= 2
  {
    assert ValidRecord(records[i]) && ValidRecord(records[j]);
    TwoElements(BucketTasks(records, b), records[i].taskId.value, records[j].taskId.value);
  }

  lemma TasksAreTwo(records: seq<ObservationRecord>, b: Bucket) returns (i: int, j: int)
    requires AllValid(records) && |BucketTasks(records, b)| >= 2
    ensures FromTwoTasks(records, b, i, j)
  {
    var tasks := BucketTasks(records, b);
    var x :| x in tasks;
    assert tasks - {x} != {} by { assert |tasks - {x}| == |tasks| - 1; }
    var y :| y in tasks - {x};
    i :| 0 <= i < |records| && records[i].taskId.Some? && CountIn(records[i], b) != 0 && records[i].taskId.value == x;
    j :| 0 <= j < |records| && records[j].taskId.Some? && CountIn(records[j], b) != 0 && records[j].taskId.value == y;
    assert ValidRecord(records[i]) && ValidRecord(records[j]);
  }

  lemma ReachesIff(records: seq<ObservationRecord>, b: Bucket)
    requires AllValid(records)
    ensures Reaches(records, b) <==> Admitted(records, b)
  {
    if |BucketTasks(records, b)| >= 2 { var i, j := TasksAreTwo(records, b); }
    if exists i, j :: FromTwoTasks(records, b, i, j) {
      var i, j :| FromTwoTasks(records, b, i, j);
      TwoTasks(records, b, i, j);
    }
  }

  /** Each decision, read off the records. */
  lemma DecisionIff(records: seq<ObservationRecord>, d: Decision)
    requires AllValid(records)
    ensures DecisionOf(records) == d <==> Decides(records, d)
  {
    AmbiguityIff(records);
    ReachesIff(records, PatchGeneration);
    ReachesIff(records, EditRecoveryBucket);
  }

  lemma StopsFirst(records: seq<ObservationRecord>, i: nat)
    requires i < |records| && AllValid(records[..i]) && CheckObservation(records[i]).Err?
    ensures FirstInvalid(records, i, CheckObservation(records[i]).error)
  {
    forall j | 0 <= j < i ensures ValidRecord(records[j]) {
      assert records[..i][j] == records[j];
    }
  }

  /** What one more valid record adds to each accumulator. */
  lemma RecordCounts(records: seq<ObservationRecord>, i: nat, b: Bucket)
    requires i < |records| && AllValid(records[..i]) && ValidRecord(records[i])
    ensures AllValid(records[..i + 1])
    ensures BucketTotal(records[..i + 1], b) == BucketTotal(records[..i], b) + CountIn(records[i], b)
    ensures AmbiguityTotal(records[..i + 1]) == AmbiguityTotal(records[..i]) + records[i].ambiguities
    ensures BucketTasks(records[..i + 1], b)
         == BucketTasks(records[..i], b) + if CountIn(records[i], b) != 0 then {records[i].taskId.value} else {}
  {
    assert records[..i + 1][..i] == records[..i];
    assert records[..i + 1] == records[..i] + [records[i]];
    TasksSnoc(records[..i], records[i], b);
  }

  lemma TasksSnoc(records: seq<ObservationRecord>, r: ObservationRecord, b: Bucket)
    ensures BucketTasks(records + [r], b)
         == BucketTasks(records, b) + if r.taskId.Some? && CountIn(r, b) != 0 then {r.taskId.value} else {}
  {
    var all := records + [r];
    assert all[|records|] == r;
    forall t | t in BucketTasks(records, b) ensures t in BucketTasks(all, b) {
      var i :| 0 <= i < |records| && records[i].taskId.Some? && CountIn(records[i], b) != 0
            && records[i].taskId.value == t;
      assert all[i] == records[i];
    }
  }

  // --- Order and growth -------------------------------------------------------------------

  function Rank(d: Decision): nat {
    match d
    case NoMechanism => 0
    case EditRecoveryTreatment => 1
    case PatchGenerationTreatment => 2
    case TransactionInvestigation => 3
  }

  /** One more record never lowers the decision. */
  lemma DecisionMonotone(records: seq<ObservationRecord>, r: ObservationRecord)
    requires AllValid(records + [r])
    ensures Rank(DecisionOf(records)) <= Rank(DecisionOf(records + [r]))
  {
    var all := records + [r];
    assert all[..|records|] == records && all[|records|] == r;
    assert AllValid(records) by {
      forall i | 0 <= i < |records| ensures ValidRecord(records[i]) { assert all[i] == records[i]; }
    }
    AmbiguityIff(records);
    ReachesMonotone(records, r, PatchGeneration);
    ReachesMonotone(records, r, EditRecoveryBucket);
  }

  lemma ReachesMonotone(records: seq<ObservationRecord>, r: ObservationRecord, b: Bucket)
    requires ValidRecord(r)
    ensures Reaches(records, b) ==> Reaches(records + [r], b)
  {
    assert (records + [r])[..|records|] == records;
    TasksSnoc(records, r, b);
    SubsetSize(BucketTasks(records, b), BucketTasks(records + [r], b));
  }

  lemma SubsetSize<T>(a: set<T>, b: set<T>)
    requires a <= b
    ensures |a| <= |b|
  {
    assert b == a + (b - a);
  }

  /** Moving a record to the end changes no total. */
  lemma {:induction false} TotalsMove(records: seq<ObservationRecord>, i: nat, b: Bucket)
    requires i < |records|
    ensures var rest := records[..i] + records[i + 1..];
            && BucketTotal(records, b) == BucketTotal(rest, b) + CountIn(records[i], b)
            && AmbiguityTotal(records) == AmbiguityTotal(rest) + records[i].ambiguities
    decreases |records|
  {
    var n, rest := |records| - 1, records[..i] + records[i + 1..];
    if i < n {
      var inner := records[..n];
      TotalsMove(inner, i, b);
      assert rest[..n - 1] == inner[..i] + inner[i + 1..];
      assert rest[n - 1] == records[n];
    } else {
      assert rest == records[..n];
    }
  }

  lemma RemoveOne(records: seq<ObservationRecord>, i: nat)
    requires i < |records|
    ensures multiset(records[..i] + records[i + 1..]) == multiset(records) - multiset{records[i]}
  {
    assert records == records[..i] + [records[i]] + records[i + 1..];
  }

  /** The last record is somewhere in any rearrangement, and taking it out of both leaves a rearrangement. */
  lemma PermuteLast(records: seq<ObservationRecord>, other: seq<ObservationRecord>) returns (i: nat)
    requires records != [] && multiset(records) == multiset(other)
    ensures i < |other| && other[i] == records[|records| - 1]
    ensures multiset(records[..|records| - 1]) == multiset(other[..i] + other[i + 1..])
  {
    var n := |records| - 1;
    assert records == records[..n] + [records[n]];
    assert records[n] in multiset(other);
    i :| 0 <= i < |other| && other[i] == records[n];
    RemoveOne(other, i);
  }

  lemma {:induction false} TotalsPermute(records: seq<ObservationRecord>, other: seq<ObservationRecord>, b: Bucket)
    requires multiset(records) == multiset(other)
    ensures BucketTotal(records, b) == BucketTotal(other, b) && AmbiguityTotal(records) == AmbiguityTotal(other)
    decreases |records|
  {
    if records == [] {
      assert |multiset(other)| == |other| == 0;
    } else {
      var i := PermuteLast(records, other);
      TotalsMove(other, i, b);
      TotalsPermute(records[..|records| - 1], other[..i] + other[i + 1..], b);
    }
  }

  lemma TasksPermute(records: seq<ObservationRecord>, other: seq<ObservationRecord>, b: Bucket)
    requires multiset(records) == multiset(other)
    ensures BucketTasks(records, b) <= BucketTasks(other, b)
  {
    forall t | t in BucketTasks(records, b) ensures t in BucketTasks(other, b) {
      var i :| 0 <= i < |records| && records[i].taskId.Some? && CountIn(records[i], b) != 0
            && records[i].taskId.value == t;
      assert records[i] in multiset(other);
      var j :| 0 <= j < |other| && other[j] == records[i];
    }
  }

  /** The decision does not depend on the order of the records. */
  lemma DecisionPermute(records: seq<ObservationRecord>, other: seq<ObservationRecord>)
    requires multiset(records) == multiset(other)
    ensures AllValid(records) <==> AllValid(other)
    ensures DecisionOf(records) == DecisionOf(other)
  {
    if AllValid(records) { ValidPermute(records, other); }
    if AllValid(other) { ValidPermute(other, records); }
    TotalsPermute(records, other, PatchGeneration);
    TotalsPermute(records, other, EditRecoveryBucket);
    TasksPermute(records, other, PatchGeneration);
    TasksPermute(other, records, PatchGeneration);
    TasksPermute(records, other, EditRecoveryBucket);
    TasksPermute(other, records, EditRecoveryBucket);
    assert BucketTasks(records, PatchGeneration) == BucketTasks(other, PatchGeneration);
    assert BucketTasks(records, EditRecoveryBucket) == BucketTasks(other, EditRecoveryBucket);
  }

  lemma ValidPermute(records: seq<ObservationRecord>, other: seq<ObservationRecord>)
    requires multiset(records) == multiset(other) && AllValid(records)
    ensures AllValid(other)
  {
    forall i | 0 <= i < |other| ensures ValidRecord(other[i]) {
      assert other[i] in multiset(records);
    }
  }
}
