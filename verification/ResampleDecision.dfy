/** No laundering: what the finished loop and the aggregate say about every attempt that was made. */
module ResampleDecision {
  import opened ResampleModel
  import opened ResampleLoop
  import opened ResampleOutcome

  // --- Accepted pairs ---------------------------------------------------------------------

  /** An accepted pair has one sound arm of each mode. */
  ghost predicate Sound(p: Pair) {
    && |p.arms| == 2 && p.arms[0].mode != p.arms[1].mode
    && forall j :: 0 <= j < 2 ==> p.arms[j].valid && p.arms[j].facts.exercised == (p.arms[j].mode == On)
  }

  lemma AcceptedSound(e: Entry, s: Source, off: ArmFacts, on: ArmFacts)
    ensures RunPair(e, s, off, on).entry == e
    ensures RunPair(e, s, off, on).valid ==> Sound(RunPair(e, s, off, on))
  {
    var (m, k) := ArmOrder(e);
    var first, second := RunArm(m, if m == On then on else off), RunArm(k, if k == On then on else off);
    assert first.valid ==> ModeExercised !in first.failed;
    assert second.valid ==> ModeExercised !in second.failed;
  }

  ghost predicate SoundRunner(run: Runner) {
    forall e, index: nat, number: nat ::
      run(e, index, number).Some? ==>
        var p := run(e, index, number).value; p.entry == e && (p.valid ==> Sound(p))
  }

  lemma OracleSound(o: Oracle)
    ensures SoundRunner(RunnerOf(o))
  {
    forall e, index: nat, number: nat | RunnerOf(o)(e, index, number).Some?
      ensures var p := RunnerOf(o)(e, index, number).value; p.entry == e && (p.valid ==> Sound(p))
    {
      var x := o(index, number);
      AcceptedSound(e, x.source, x.off, x.on);
    }
  }

  // --- The schedule covers each cell once ---------------------------------------------------

  /** The repetitions scheduled for one variant and scenario, in order. */
  function Reps(schedule: seq<Entry>, v: Variant, s: Scenario): seq<nat> {
    if schedule == [] then []
    else
      var e := schedule[|schedule| - 1];
      Reps(schedule[..|schedule| - 1], v, s) + if e.variant == v && e.scenario == s then [e.repetition] else []
  }

  function Count(n: nat): seq<nat> {
    if n == 0 then [] else Count(n - 1) + [n]
  }

  lemma {:induction false} RepsConcat(a: seq<Entry>, b: seq<Entry>, v: Variant, s: Scenario)
    ensures Reps(a + b, v, s) == Reps(a, v, s) + Reps(b, v, s)
  {
    if b == [] {
      assert a + b == a;
    } else {
      var n := |b| - 1;
      assert (a + b)[..|a| + n] == a + b[..n];
      RepsConcat(a, b[..n], v, s);
    }
  }

  lemma {:induction false} RepsSnoc(front: seq<Entry>, e: Entry, v: Variant, s: Scenario)
    ensures Reps(front + [e], v, s)
         == Reps(front, v, s) + if e.variant == v && e.scenario == s then [e.repetition] else []
  {
    assert (front + [e])[..|front|] == front;
  }

  /** One repetition schedules both variants, in either order. */
  lemma {:induction false} RepsGrow(front: seq<Entry>, k: nat, s: Scenario, n: nat, v: Variant, t: Scenario)
    ensures Reps(front + Repetition(k, s, n), v, t) == Reps(front, v, t) + if s == t then [n] else []
  {
    var both := Repetition(k, s, n);
    RepsSnoc(front, both[0], v, t);
    RepsSnoc(front + [both[0]], both[1], v, t);
    assert (front + [both[0]]) + [both[1]] == front + both;
  }

  lemma BlockStep(k: nat, s: Scenario, n: nat, v: Variant, t: Scenario)
    requires n > 0
    ensures Reps(Block(k, s, n), v, t) == Reps(Block(k, s, n - 1), v, t) + if s == t then [n] else []
  {
    RepsGrow(Block(k, s, n - 1), k, s, n, v, t);
    assert Block(k, s, n) == Block(k, s, n - 1) + Repetition(k, s, n);
  }

  lemma {:induction false} BlockReps(k: nat, s: Scenario, n: nat, v: Variant, t: Scenario)
    ensures Reps(Block(k, s, n), v, t) == if s == t then Count(n) else []
  {
    if n > 0 {
      BlockReps(k, s, n - 1, v, t);
      BlockStep(k, s, n, v, t);
    }
  }

  /** Every variant and scenario is scheduled for the repetitions 1, 2, ..., n, each once. */
  lemma ScheduleReps(n: nat, v: Variant, s: Scenario)
    ensures Reps(Schedule(n), v, s) == Count(n)
  {
    RepsConcat(Block(0, TaskA, n), Block(1, TaskB, n), v, s);
    BlockReps(0, TaskA, n, v, s);
    BlockReps(1, TaskB, n, v, s);
  }

  lemma {:induction false} BlockAt(k: nat, s: Scenario, n: nat, r: nat)
    requires 1 <= r <= n
    ensures |Block(k, s, n)| == 2 * n
    ensures Block(k, s, n)[2 * r - 2] == Repetition(k, s, r)[0] && Block(k, s, n)[2 * r - 1] == Repetition(k, s, r)[1]
  {
    BlockSize(k, s, n - 1);
    if r < n { BlockAt(k, s, n - 1, r); }
  }

  lemma {:induction false} BlockSize(k: nat, s: Scenario, n: nat)
    ensures |Block(k, s, n)| == 2 * n
  {
    if n > 0 { BlockSize(k, s, n - 1); }
  }

  /**
    Where each repetition of each scenario is scheduled, and that the variant that goes first alternates:
    the baseline in the odd repetitions of the first scenario and in the even ones of the second.
   */
  lemma ScheduleOrder(n: nat, s: Scenario, r: nat)
    requires 1 <= r <= n
    ensures |Schedule(n)| == 4 * n
    ensures var i := (if s == TaskA then 0 else 2 * n) + 2 * r - 2;
            var first := if (r % 2 == 1) == (s == TaskA) then Baseline else Candidate;
            && Schedule(n)[i] == Entry(first, s, r)
            && Schedule(n)[i + 1] == Entry(if first == Baseline then Candidate else Baseline, s, r)
  {
    BlockSize(0, TaskA, n);
    BlockSize(1, TaskB, n);
    BlockAt(if s == TaskA then 0 else 1, s, n, r);
  }

  /** How many pairs run the arm with compaction on first. */
  function OnFirst(schedule: seq<Entry>): nat {
    if schedule == [] then 0
    else OnFirst(schedule[..|schedule| - 1]) + if ArmOrder(schedule[|schedule| - 1]).0 == On then 1 else 0
  }

  lemma {:induction false} OnFirstConcat(a: seq<Entry>, b: seq<Entry>)
    ensures OnFirst(a + b) == OnFirst(a) + OnFirst(b)
    decreases |b|
  {
    if b == [] {
      assert a + b == a;
    } else {
      var n := |b| - 1;
      OnFirstConcat(a, b[..n]);
      assert (a + b)[..|a + b| - 1] == a + b[..n] && (a + b)[|a + b| - 1] == b[n];
    }
  }

  /** One of the two pairs of a repetition has the arm with compaction on first. */
  lemma OnFirstRepetition(k: nat, s: Scenario, r: nat)
    ensures OnFirst(Repetition(k, s, r)) == 1
  {
    var both := Repetition(k, s, r);
    assert both[..1] == [both[0]] && both[..1][..0] == [];
    assert OnFirst(both) == OnFirst(both[..1]) + if ArmOrder(both[1]).0 == On then 1 else 0;
    ArmsAlternate(r);
    assert Opposite(ArmOrder(Entry(Baseline, s, r)), ArmOrder(Entry(Candidate, s, r)));
  }

  lemma {:induction false} OnFirstBlock(k: nat, s: Scenario, n: nat)
    ensures OnFirst(Block(k, s, n)) == n
  {
    if n > 0 {
      OnFirstBlock(k, s, n - 1);
      OnFirstRepetition(k, s, n);
      OnFirstConcat(Block(k, s, n - 1), Repetition(k, s, n));
    }
  }

  /** Half of the scheduled pairs run the arm with compaction on first. */
  lemma ArmsBalanced(n: nat)
    ensures OnFirst(Schedule(n)) == 2 * n && |Schedule(n)| == 4 * n
  {
    OnFirstBlock(0, TaskA, n);
    OnFirstBlock(1, TaskB, n);
    OnFirstConcat(Block(0, TaskA, n), Block(1, TaskB, n));
    BlockSize(0, TaskA, n);
    BlockSize(1, TaskB, n);
  }

  lemma {:induction false} CountMembers(n: nat, r: nat)
    ensures |Count(n)| == n && (r in Count(n) <==> 1 <= r <= n)
  {
    if n > 0 { CountMembers(n - 1, r); }
  }

  lemma {:induction false} RepsMembers(schedule: seq<Entry>, v: Variant, s: Scenario, r: nat)
    ensures r in Reps(schedule, v, s) <==> Entry(v, s, r) in schedule
  {
    if schedule != [] {
      var n := |schedule| - 1;
      RepsMembers(schedule[..n], v, s, r);
      assert schedule == schedule[..n] + [schedule[n]];
    }
  }

  // --- Exactness ----------------------------------------------------------------------------

  /** The accepted pairs follow the schedule and are sound. */
  ghost predicate Follows(pairs: seq<Attempt>, schedule: seq<Entry>) {
    |pairs| == |schedule| && forall i :: 0 <= i < |pairs| ==> pairs[i].pair.entry == schedule[i] && Sound(pairs[i].pair)
  }

  lemma OneRow(p: Pair, m: Mode)
    requires Sound(p)
    ensures |PairRows(p, m, |p.arms|)| == 1 && PairRows(p, m, |p.arms|)[0].repetition == p.entry.repetition
  {
    assert PairRows(p, m, 2)
        == PairRows(p, m, 1) + if p.arms[1].mode == m then [Row(p.entry.repetition, p.arms[1])] else [];
    assert PairRows(p, m, 1) == if p.arms[0].mode == m then [Row(p.entry.repetition, p.arms[0])] else [];
  }

  lemma {:induction false} CellReps(pairs: seq<Attempt>, schedule: seq<Entry>, v: Variant, s: Scenario, m: Mode)
    requires Follows(pairs, schedule)
    ensures var rows := Cell(pairs, v, s, m);
            var reps := Reps(schedule, v, s);
            |rows| == |reps| && forall i :: 0 <= i < |rows| ==> rows[i].repetition == reps[i]
  {
    if pairs != [] {
      var n := |pairs| - 1;
      CellReps(pairs[..n], schedule[..n], v, s, m);
      OneRow(pairs[n].pair, m);
    }
  }

  lemma CellIsExact(pairs: seq<Attempt>, n: nat, v: Variant, s: Scenario, m: Mode)
    requires Follows(pairs, Schedule(n))
    ensures CellExact(pairs, n, v, s, m) <==> n >= 1
  {
    var rows := Cell(pairs, v, s, m);
    CellReps(pairs, Schedule(n), v, s, m);
    ScheduleReps(n, v, s);
    CountMembers(n, 0);
    forall r: nat ensures HasRepetition(rows, r) <==> 1 <= r <= n {
      CountMembers(n, r);
      if r in Count(n) {
        var i :| 0 <= i < n && Count(n)[i] == r;
        assert rows[i].repetition == r;
      }
    }
  }

  lemma PairsAreExact(pairs: seq<Attempt>, n: nat)
    requires Follows(pairs, Schedule(n))
    ensures ExactPairs(pairs, n)
  {
    forall e: Entry ensures HasEntry(pairs, e) <==> 1 <= e.repetition <= n {
      ScheduleReps(n, e.variant, e.scenario);
      RepsMembers(Schedule(n), e.variant, e.scenario, e.repetition);
      CountMembers(n, e.repetition);
      if e in Schedule(n) {
        var i :| 0 <= i < |pairs| && Schedule(n)[i] == e;
        assert pairs[i].pair.entry == e;
      }
    }
  }

  /** The finished loop always delivers exact pairs, exact cells and sound arms. */
  lemma FinishedIsEligible(pairs: seq<Attempt>, n: nat)
    requires Follows(pairs, Schedule(n)) && n >= 1
    ensures ProductEligible(pairs, n)
  {
    PairsAreExact(pairs, n);
    forall v, s, m ensures CellExact(pairs, n, v, s, m) {
      CellIsExact(pairs, n, v, s, m);
    }
    forall i, j | 0 <= i < |pairs| && 0 <= j < |pairs[i].pair.arms|
      ensures var a := pairs[i].pair.arms[j]; a.valid && a.facts.exercised == (a.mode == On)
    {
      assert Sound(pairs[i].pair);
    }
  }

  // --- Rates ----------------------------------------------------------------------------------

  ghost predicate Monotone(round: real -> real) {
    forall x, y :: x <= y ==> round(x) <= round(y)
  }

  lemma {:induction false} VerifiedBound(rows: seq<Row>)
    ensures Verified(rows) <= |rows|
    ensures AllSucceeded(rows) ==> Verified(rows) == |rows|
  {
    if rows != [] {
      VerifiedBound(rows[..|rows| - 1]);
      assert AllSucceeded(rows) ==> Succeeded(rows[|rows| - 1]);
    }
  }

  ghost predicate HonestRows(rows: seq<Row>) {
    forall i :: 0 <= i < |rows| ==> Honest(rows[i].arm)
  }

  lemma {:induction false} PairRowsHonest(p: Pair, m: Mode, n: nat)
    requires n <= |p.arms| && HonestPair(p)
    ensures HonestRows(PairRows(p, m, n))
  {
    if n > 0 {
      PairRowsHonest(p, m, n - 1);
      assert Honest(p.arms[n - 1]);
    }
  }

  lemma {:induction false} CellHonest(attempts: seq<Attempt>, v: Variant, s: Scenario, m: Mode)
    requires AllHonest(attempts)
    ensures HonestRows(Cell(attempts, v, s, m))
  {
    if attempts != [] {
      var n := |attempts| - 1;
      CellHonest(attempts[..n], v, s, m);
      PairRowsHonest(attempts[n].pair, m, |attempts[n].pair.arms|);
    }
  }

  lemma {:induction false} HonestVerified(rows: seq<Row>)
    requires HonestRows(rows)
    ensures AllSucceeded(rows) <==> Verified(rows) == |rows|
  {
    VerifiedBound(rows);
    if rows != [] {
      var n := |rows| - 1;
      VerifiedBound(rows[..n]);
      HonestVerified(rows[..n]);
      if Verified(rows) == |rows| {
        assert Honest(rows[n].arm);
        forall i | 0 <= i < |rows| ensures Succeeded(rows[i]) {
          if i < n { assert Succeeded(rows[..n][i]); }
        }
      }
    }
  }

  /**
    In every run, whatever its end, the candidate succeeds throughout exactly when there are enough
    outcomes and all are verified: asking for no false success as well adds nothing.
   */
  lemma FalseSuccessIdle(o: Oracle, schedule: seq<Entry>, k: nat, n: nat)
    requires k <= |schedule|
    ensures var r := RunEntries(RunnerOf(o), schedule, k);
            var a := Outcomes(r.pairs, r.invalid, Candidate, TaskA, On);
            var b := Outcomes(r.pairs, r.invalid, Candidate, TaskB, On);
            CandidateAllSuccess(r.pairs, r.invalid, n) <==>
              |a| + |b| >= 2 * n && Verified(a) == |a| && Verified(b) == |b|
  {
    var r := RunEntries(RunnerOf(o), schedule, k);
    RunHonest(o, schedule, k);
    forall s
      ensures var rows := Outcomes(r.pairs, r.invalid, Candidate, s, On);
              AllSucceeded(rows) <==> Verified(rows) == |rows|
    {
      CellHonest(r.pairs, Candidate, s, On);
      CellHonest(r.invalid, Candidate, s, On);
      HonestVerified(Outcomes(r.pairs, r.invalid, Candidate, s, On));
    }
  }

  lemma Quotient(k: nat, n: nat)
    requires k <= n && n > 0
    ensures k as real / n as real <= 1.0 && (k == n ==> k as real / n as real == 1.0)
  {
  }

  /** No rate exceeds the rate of a cell in which everything succeeded. */
  lemma RateBound(round: real -> real, rows: seq<Row>)
    requires Monotone(round) && rows != []
    ensures Rate(round, rows) <= round(1.0)
    ensures AllSucceeded(rows) ==> Rate(round, rows) == round(1.0)
  {
    VerifiedBound(rows);
    Quotient(Verified(rows), |rows|);
  }

  lemma OutcomesExist(pairs: seq<Attempt>, invalid: seq<Attempt>, n: nat, v: Variant, s: Scenario, m: Mode)
    requires ExactCells(pairs, n)
    ensures |Outcomes(pairs, invalid, v, s, m)| >= n && Outcomes(pairs, invalid, v, s, m) != []
  {
    assert CellExact(pairs, n, v, s, m);
  }

  lemma NoWorseWhenPerfect(round: real -> real, pairs: seq<Attempt>, invalid: seq<Attempt>, n: nat, s: Scenario)
    requires Monotone(round) && ExactCells(pairs, n) && AllSucceeded(Outcomes(pairs, invalid, Candidate, s, On))
    ensures NoWorse(round, pairs, invalid, s)
  {
    OutcomesExist(pairs, invalid, n, Candidate, s, On);
    OutcomesExist(pairs, invalid, n, Candidate, s, Off);
    OutcomesExist(pairs, invalid, n, Baseline, s, On);
    RateBound(round, Outcomes(pairs, invalid, Candidate, s, On));
    RateBound(round, Outcomes(pairs, invalid, Candidate, s, Off));
    RateBound(round, Outcomes(pairs, invalid, Baseline, s, On));
  }

  /**
    Whatever monotone rounding the rates go through, the non-regression check is met exactly when
    the measurement is eligible and every candidate outcome, discarded or not, succeeded.
   */
  lemma NonRegressionIff(round: real -> real, pairs: seq<Attempt>, invalid: seq<Attempt>, n: nat)
    requires Monotone(round)
    ensures NonRegression(round, pairs, invalid, n) <==>
      ProductEligible(pairs, n) && CandidateAllSuccess(pairs, invalid, n)
  {
    if ProductEligible(pairs, n) && CandidateAllSuccess(pairs, invalid, n) {
      NoWorseWhenPerfect(round, pairs, invalid, n, TaskA);
      NoWorseWhenPerfect(round, pairs, invalid, n, TaskB);
    }
  }

  // --- The verdict ---------------------------------------------------------------------------

  /** The candidate arm with compaction on, in an attempt that measured it, did not get its work done. */
  ghost predicate CandidateFailure(a: Attempt, j: nat) {
    && j < |a.pair.arms| && a.pair.entry.variant == Candidate && a.pair.arms[j].mode == On
    && !WorkDone(a.pair.arms[j].facts)
  }

  ghost predicate HasFailure(attempts: seq<Attempt>) {
    exists i, j: nat :: 0 <= i < |attempts| && CandidateFailure(attempts[i], j)
  }

  lemma {:induction false} RowsFail(p: Pair, m: Mode, n: nat)
    requires n <= |p.arms|
    ensures AllSucceeded(PairRows(p, m, n)) <==>
      forall j :: 0 <= j < n && p.arms[j].mode == m ==> Succeeded(Row(p.entry.repetition, p.arms[j]))
  {
    if n > 0 {
      RowsFail(p, m, n - 1);
      var row := Row(p.entry.repetition, p.arms[n - 1]);
      SucceededConcat(PairRows(p, m, n - 1), if p.arms[n - 1].mode == m then [row] else []);
      assert AllSucceeded([row]) <==> Succeeded([row][0]);
    }
  }

  lemma SucceededConcat(a: seq<Row>, b: seq<Row>)
    ensures AllSucceeded(a + b) <==> AllSucceeded(a) && AllSucceeded(b)
  {
    var all := a + b;
    assert forall i :: 0 <= i < |a| ==> all[i] == a[i];
    assert forall i :: 0 <= i < |b| ==> all[|a| + i] == b[i];
  }

  lemma PairFails(a: Attempt)
    requires a.pair.entry.variant == Candidate && HonestPair(a.pair) && PlainPair(a.pair)
    ensures AllSucceeded(PairRows(a.pair, On, |a.pair.arms|)) <==> !exists j: nat :: CandidateFailure(a, j)
  {
    RowsFail(a.pair, On, |a.pair.arms|);
    if exists j: nat :: CandidateFailure(a, j) {
      var j: nat :| CandidateFailure(a, j);
      assert Plain(a.pair.arms[j]);
      assert !Succeeded(Row(a.pair.entry.repetition, a.pair.arms[j]));
    }
    if !AllSucceeded(PairRows(a.pair, On, |a.pair.arms|)) {
      var j :| 0 <= j < |a.pair.arms| && a.pair.arms[j].mode == On
               && !Succeeded(Row(a.pair.entry.repetition, a.pair.arms[j]));
      assert Plain(a.pair.arms[j]) && Honest(a.pair.arms[j]);
      assert CandidateFailure(a, j);
    }
  }

  ghost predicate FailureAt(attempts: seq<Attempt>, s: Scenario, i: int, j: nat) {
    0 <= i < |attempts| && attempts[i].pair.entry.scenario == s && CandidateFailure(attempts[i], j)
  }

  ghost predicate FailureIn(attempts: seq<Attempt>, s: Scenario) {
    exists i, j: nat :: FailureAt(attempts, s, i, j)
  }

  lemma FailureSnoc(attempts: seq<Attempt>, s: Scenario)
    requires attempts != []
    ensures var a := attempts[|attempts| - 1];
            FailureIn(attempts, s) <==>
              || FailureIn(attempts[..|attempts| - 1], s)
              || (a.pair.entry.scenario == s && exists j: nat :: CandidateFailure(a, j))
  {
    var n := |attempts| - 1;
    var before, a := attempts[..n], attempts[n];
    if FailureIn(before, s) {
      var i, j: nat :| FailureAt(before, s, i, j);
      assert FailureAt(attempts, s, i, j);
    }
    if a.pair.entry.scenario == s && exists j: nat :: CandidateFailure(a, j) {
      var j: nat :| CandidateFailure(a, j);
      assert FailureAt(attempts, s, n, j);
    }
    if FailureIn(attempts, s) {
      var i, j: nat :| FailureAt(attempts, s, i, j);
      assert i < n ==> FailureAt(before, s, i, j);
    }
  }

  lemma {:induction false} CellFails(attempts: seq<Attempt>, s: Scenario)
    requires AllHonest(attempts) && AllPlain(attempts)
    ensures AllSucceeded(Cell(attempts, Candidate, s, On)) <==> !FailureIn(attempts, s)
  {
    if attempts != [] {
      var n := |attempts| - 1;
      var a := attempts[n];
      CellFails(attempts[..n], s);
      FailureSnoc(attempts, s);
      SucceededConcat(Cell(attempts[..n], Candidate, s, On), AttemptRows(a, Candidate, s, On));
      if a.pair.entry.variant == Candidate && a.pair.entry.scenario == s {
        PairFails(a);
      }
    }
  }

  lemma FailureSplit(attempts: seq<Attempt>)
    ensures HasFailure(attempts) <==> FailureIn(attempts, TaskA) || FailureIn(attempts, TaskB)
  {
    if HasFailure(attempts) {
      var i, j: nat :| 0 <= i < |attempts| && CandidateFailure(attempts[i], j);
      assert FailureAt(attempts, attempts[i].pair.entry.scenario, i, j);
    }
    if FailureIn(attempts, TaskA) { var i, j: nat :| FailureAt(attempts, TaskA, i, j); }
    if FailureIn(attempts, TaskB) { var i, j: nat :| FailureAt(attempts, TaskB, i, j); }
  }

  /** With enough accepted pairs, the candidate succeeds throughout exactly when no attempt holds a failure. */
  lemma SuccessIff(pairs: seq<Attempt>, invalid: seq<Attempt>, n: nat)
    requires ProductEligible(pairs, n)
    requires AllHonest(pairs) && AllPlain(pairs) && AllHonest(invalid) && AllPlain(invalid)
    ensures CandidateAllSuccess(pairs, invalid, n) <==> !HasFailure(pairs) && !HasFailure(invalid)
  {
    FailureSplit(pairs);
    FailureSplit(invalid);
    OutcomesSucceed(pairs, invalid, TaskA);
    OutcomesSucceed(pairs, invalid, TaskB);
    OutcomesExist(pairs, invalid, n, Candidate, TaskA, On);
    OutcomesExist(pairs, invalid, n, Candidate, TaskB, On);
  }

  lemma OutcomesSucceed(pairs: seq<Attempt>, invalid: seq<Attempt>, s: Scenario)
    requires AllHonest(pairs) && AllPlain(pairs) && AllHonest(invalid) && AllPlain(invalid)
    ensures AllSucceeded(Outcomes(pairs, invalid, Candidate, s, On)) <==> !FailureIn(pairs, s) && !FailureIn(invalid, s)
  {
    CellFails(pairs, s);
    CellFails(invalid, s);
    SucceededConcat(Cell(pairs, Candidate, s, On), Cell(invalid, Candidate, s, On));
  }

  lemma FollowsSchedule(run: Runner, schedule: seq<Entry>, s: Suite)
    requires SoundRunner(run) && ResampleLoop.Complete(run, schedule, |schedule|, s)
    ensures Follows(s.pairs, schedule)
  {
    forall i | 0 <= i < |s.pairs| ensures s.pairs[i].pair.entry == schedule[i] && Sound(s.pairs[i].pair) {
      assert Settled(run, schedule, s.pairs[i], i);
    }
  }

  /**
    No laundering: for every oracle, when the loop finishes the measurement is eligible, and the
    decision is delete exactly when some attempt, accepted or discarded, holds a candidate arm with
    compaction on whose agent did not complete, whose external verifier did not pass, whose receipt
    is invalid or whose markers were not visible. Otherwise it is keep or shrink.
   */
  lemma NoLaundering(o: Oracle, n: nat, round: real -> real, benefit: bool, s: Suite)
    requires n >= 1 && Monotone(round)
    requires s == RunEntries(RunnerOf(o), Schedule(n), |Schedule(n)|) && s.status == Running
    ensures ProductEligible(s.pairs, n)
    ensures var d := Decide(round, s.pairs, s.invalid, n, benefit);
            && d != MeasurementInvalid
            && (d == Delete <==> HasFailure(s.pairs) || HasFailure(s.invalid))
            && (d == Keep <==> !HasFailure(s.pairs) && !HasFailure(s.invalid) && benefit)
  {
    SuiteAccount(RunnerOf(o), Schedule(n), |Schedule(n)|);
    OracleSound(o);
    FollowsSchedule(RunnerOf(o), Schedule(n), s);
    FinishedIsEligible(s.pairs, n);
    RunHonest(o, Schedule(n), |Schedule(n)|);
    FinishedPlain(o, Schedule(n));
    SuccessIff(s.pairs, s.invalid, n);
    NonRegressionIff(round, s.pairs, s.invalid, n);
  }
}
