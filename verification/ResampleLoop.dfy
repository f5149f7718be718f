/** The measuring loop: at most four attempts per schedule entry, every attempt kept. */
module ResampleLoop {
  import opened Basics
  import opened ResampleModel

  /**
    What calling the pair runner yields for attempt `number` of the entry at schedule position
    `index`, both counted from 1: a pair, or nothing when the harness itself fails.
   */
  type Runner = (Entry, nat, nat) -> Option<Pair>

  datatype Status = Running | Failed(reason: Reason)
  datatype Reason = HarnessFailed | NotEligible | AttemptsExhausted

  datatype Suite = Suite(pairs: seq<Attempt>, invalid: seq<Attempt>, status: Status)

  // --- The loop as a function -----------------------------------------------------------

  function AttemptAt(run: Runner, e: Entry, index: nat, number: nat): Attempt
    requires run(e, index, number).Some?
  {
    Attempt(run(e, index, number).value, index, number)
  }

  /** The attempts of one entry from `number` on. */
  function TryEntry(run: Runner, e: Entry, index: nat, number: nat, s: Suite): Suite
    decreases MAX_PAIR_ATTEMPTS + 1 - number, index
  {
    if number > MAX_PAIR_ATTEMPTS then s.(status := Failed(AttemptsExhausted))
    else if run(e, index, number).None? then s.(status := Failed(HarnessFailed))
    else
      var a := AttemptAt(run, e, index, number);
      if a.pair.valid then s.(pairs := s.pairs + [a])
      else if !a.pair.eligible then s.(invalid := s.invalid + [a], status := Failed(NotEligible))
      else TryEntry(run, e, index, number + 1, s.(invalid := s.invalid + [a]))
  }

  /** The first `n` entries of the schedule. */
  function RunEntries(run: Runner, schedule: seq<Entry>, n: nat): Suite
    requires n <= |schedule|
  {
    if n == 0 then Suite([], [], Running)
    else
      var s := RunEntries(run, schedule, n - 1);
      if s.status != Running then s else TryEntry(run, schedule[n - 1], n, 1, s)
  }

  // --- The loop as the harness runs it -----------------------------------------------------

  method MeasureEntry(run: Runner, e: Entry, index: nat, s: Suite) returns (r: Suite)
    requires s.status == Running
    ensures r == TryEntry(run, e, index, 1, s)
  {
    r := s;
    var number := 1;
    while number <= MAX_PAIR_ATTEMPTS
      invariant 1 <= number <= MAX_PAIR_ATTEMPTS + 1
      invariant TryEntry(run, e, index, 1, s) == TryEntry(run, e, index, number, r)
    {
      if run(e, index, number).None? { return r.(status := Failed(HarnessFailed)); }
      var a := AttemptAt(run, e, index, number);
      if a.pair.valid { return r.(pairs := r.pairs + [a]); }
      r := r.(invalid := r.invalid + [a]);
      if !a.pair.eligible { return r.(status := Failed(NotEligible)); }
      number := number + 1;
    }
    r := r.(status := Failed(AttemptsExhausted));
  }

  method RunSuite(run: Runner, n: nat) returns (s: Suite)
    ensures s == RunEntries(run, Schedule(n), |Schedule(n)|)
  {
    var schedule := BuildSchedule(n);
    s := Suite([], [], Running);
    var i := 0;
    while i < |schedule|
      invariant 0 <= i <= |schedule| && s.status == Running
      invariant s == RunEntries(run, schedule, i)
    {
      s := MeasureEntry(run, schedule[i], i + 1, s);
      i := i + 1;
      if s.status != Running {
        StaysFailed(run, schedule, i, |schedule|);
        return;
      }
    }
  }

  lemma {:induction false} StaysFailed(run: Runner, schedule: seq<Entry>, n: nat, m: nat)
    requires n <= m <= |schedule| && RunEntries(run, schedule, n).status != Running
    ensures RunEntries(run, schedule, m) == RunEntries(run, schedule, n)
  {
    if n < m { StaysFailed(run, schedule, n, m - 1); }
  }

  // --- What a finished loop has done --------------------------------------------------------

  predicate Discards(run: Runner, e: Entry, index: nat, number: nat) {
    && run(e, index, number).Some?
    && var p := AttemptAt(run, e, index, number).pair; !p.valid && p.eligible
  }

  predicate Accepts(run: Runner, e: Entry, index: nat, number: nat) {
    run(e, index, number).Some? && AttemptAt(run, e, index, number).pair.valid
  }

  ghost predicate DiscardsBefore(run: Runner, e: Entry, index: nat, number: nat) {
    forall k :: 1 <= k < number ==> Discards(run, e, index, k)
  }

  /** The entry is accepted at this attempt, after nothing but eligible discards. */
  ghost predicate AcceptedAt(run: Runner, e: Entry, index: nat, number: nat) {
    && 1 <= number <= MAX_PAIR_ATTEMPTS
    && Accepts(run, e, index, number)
    && DiscardsBefore(run, e, index, number)
  }

  ghost predicate Acceptable(run: Runner, e: Entry, index: nat) {
    exists a :: AcceptedAt(run, e, index, a)
  }

  ghost function DiscardedBefore(run: Runner, e: Entry, index: nat, number: nat): seq<Attempt>
    requires number >= 1 && DiscardsBefore(run, e, index, number)
  {
    if number == 1 then []
    else
      assert Discards(run, e, index, number - 1);
      DiscardedBefore(run, e, index, number - 1) + [AttemptAt(run, e, index, number - 1)]
  }

  /** An attempt that is neither accepted nor discarded, or one too many, ends the entry unaccepted. */
  lemma NotAcceptable(run: Runner, e: Entry, index: nat, number: nat)
    requires DiscardsBefore(run, e, index, number) && number >= 1
    requires number > MAX_PAIR_ATTEMPTS || !(Discards(run, e, index, number) || Accepts(run, e, index, number))
    ensures !Acceptable(run, e, index)
  {
    forall a: nat ensures !AcceptedAt(run, e, index, a) {
      if 1 <= a < number { assert Discards(run, e, index, a); }
      assert a > number && DiscardsBefore(run, e, index, a) ==> Discards(run, e, index, number);
    }
  }

  /** Starting an entry at `number`, after discarding the attempts before it. */
  lemma {:induction false} TryEntryOutcome(run: Runner, e: Entry, index: nat, number: nat, s: Suite)
    requires 1 <= number <= MAX_PAIR_ATTEMPTS + 1 && s.status == Running
    requires DiscardsBefore(run, e, index, number)
    ensures var before := s.invalid + DiscardedBefore(run, e, index, number);
            var s' := TryEntry(run, e, index, number, s.(invalid := before));
            if s'.status == Running then
              exists a :: AcceptedAt(run, e, index, a)
                && s'.pairs == s.pairs + [AttemptAt(run, e, index, a)]
                && s'.invalid == s.invalid + DiscardedBefore(run, e, index, a)
            else !Acceptable(run, e, index)
    decreases MAX_PAIR_ATTEMPTS + 1 - number, index
  {
    if number <= MAX_PAIR_ATTEMPTS {
      if Discards(run, e, index, number) {
        assert s.invalid + DiscardedBefore(run, e, index, number) + [AttemptAt(run, e, index, number)]
            == s.invalid + DiscardedBefore(run, e, index, number + 1);
        TryEntryOutcome(run, e, index, number + 1, s);
      } else if Accepts(run, e, index, number) {
        assert AcceptedAt(run, e, index, number);
      } else {
        NotAcceptable(run, e, index, number);
      }
    } else {
      NotAcceptable(run, e, index, number);
    }
  }

  /** An entry measured to acceptance. */
  ghost predicate Settled(run: Runner, schedule: seq<Entry>, a: Attempt, i: nat)
    requires i < |schedule|
  {
    AcceptedAt(run, schedule[i], i + 1, a.number) && a == AttemptAt(run, schedule[i], i + 1, a.number)
  }

  /** A discarded attempt of entry `i`: eligible, and before the accepted one. */
  ghost predicate DiscardedAt(run: Runner, schedule: seq<Entry>, pairs: seq<Attempt>, x: Attempt, i: nat)
    requires |pairs| <= |schedule|
  {
    && i < |pairs| && 1 <= x.number < pairs[i].number
    && Discards(run, schedule[i], i + 1, x.number) && x == AttemptAt(run, schedule[i], i + 1, x.number)
  }

  ghost predicate IsDiscarded(run: Runner, schedule: seq<Entry>, pairs: seq<Attempt>, x: Attempt)
    requires |pairs| <= |schedule|
  {
    exists i: nat :: DiscardedAt(run, schedule, pairs, x, i)
  }

  function AttemptNumbers(pairs: seq<Attempt>): nat {
    if pairs == [] then 0 else AttemptNumbers(pairs[..|pairs| - 1]) + pairs[|pairs| - 1].number
  }

  /** One accepted pair for each of the first `n` entries, and every other attempt among the discarded. */
  ghost predicate Complete(run: Runner, schedule: seq<Entry>, n: nat, s: Suite)
    requires n <= |schedule|
  {
    && |s.pairs| == n
    && (forall i :: 0 <= i < n ==> Settled(run, schedule, s.pairs[i], i))
    && (forall x :: x in s.invalid <==> IsDiscarded(run, schedule, s.pairs, x))
    && |s.pairs| + |s.invalid| == AttemptNumbers(s.pairs)
  }

  lemma {:induction false} DiscardedBeforeMembers(run: Runner, e: Entry, index: nat, number: nat, x: Attempt)
    requires number >= 1 && DiscardsBefore(run, e, index, number)
    ensures |DiscardedBefore(run, e, index, number)| == number - 1
    ensures x in DiscardedBefore(run, e, index, number) <==>
      1 <= x.number < number && Discards(run, e, index, x.number) && x == AttemptAt(run, e, index, x.number)
  {
    if number > 1 { DiscardedBeforeMembers(run, e, index, number - 1, x); }
  }

  lemma DiscardedKept(run: Runner, schedule: seq<Entry>, pairs: seq<Attempt>, a: Attempt, x: Attempt)
    requires |pairs| < |schedule| && IsDiscarded(run, schedule, pairs, x)
    ensures IsDiscarded(run, schedule, pairs + [a], x)
  {
    var i: nat :| DiscardedAt(run, schedule, pairs, x, i);
    assert DiscardedAt(run, schedule, pairs + [a], x, i);
  }

  lemma DiscardedNow(run: Runner, schedule: seq<Entry>, pairs: seq<Attempt>, a: Attempt, x: Attempt)
    requires |pairs| < |schedule| && AcceptedAt(run, schedule[|pairs|], |pairs| + 1, a.number)
    requires x in DiscardedBefore(run, schedule[|pairs|], |pairs| + 1, a.number)
    ensures IsDiscarded(run, schedule, pairs + [a], x)
  {
    DiscardedBeforeMembers(run, schedule[|pairs|], |pairs| + 1, a.number, x);
    assert DiscardedAt(run, schedule, pairs + [a], x, |pairs|);
  }

  lemma DiscardedThen(run: Runner, schedule: seq<Entry>, pairs: seq<Attempt>, a: Attempt, x: Attempt)
    requires |pairs| < |schedule| && AcceptedAt(run, schedule[|pairs|], |pairs| + 1, a.number)
    requires IsDiscarded(run, schedule, pairs + [a], x)
    ensures IsDiscarded(run, schedule, pairs, x) || x in DiscardedBefore(run, schedule[|pairs|], |pairs| + 1, a.number)
  {
    var i: nat :| DiscardedAt(run, schedule, pairs + [a], x, i);
    if i < |pairs| {
      assert DiscardedAt(run, schedule, pairs, x, i);
    } else {
      DiscardedBeforeMembers(run, schedule[|pairs|], |pairs| + 1, a.number, x);
    }
  }

  /** Accepting one more entry keeps the account complete. */
  lemma CompleteGrows(run: Runner, schedule: seq<Entry>, s: Suite, number: nat)
    requires |s.pairs| < |schedule| && Complete(run, schedule, |s.pairs|, s)
    requires AcceptedAt(run, schedule[|s.pairs|], |s.pairs| + 1, number)
    ensures var n := |s.pairs|;
            Complete(run, schedule, n + 1,
                     Suite(s.pairs + [AttemptAt(run, schedule[n], n + 1, number)],
                           s.invalid + DiscardedBefore(run, schedule[n], n + 1, number), s.status))
  {
    var n := |s.pairs|;
    var a := AttemptAt(run, schedule[n], n + 1, number);
    var pairs, before := s.pairs + [a], DiscardedBefore(run, schedule[n], n + 1, number);
    forall i | 0 <= i <= n ensures Settled(run, schedule, pairs[i], i) {
      if i < n { assert Settled(run, schedule, s.pairs[i], i); }
    }
    forall x ensures x in s.invalid + before <==> IsDiscarded(run, schedule, pairs, x) {
      if IsDiscarded(run, schedule, s.pairs, x) { DiscardedKept(run, schedule, s.pairs, a, x); }
      if x in before { DiscardedNow(run, schedule, s.pairs, a, x); }
      if IsDiscarded(run, schedule, pairs, x) { DiscardedThen(run, schedule, s.pairs, a, x); }
    }
    DiscardedBeforeMembers(run, schedule[n], n + 1, number, a);
    assert pairs[..n] == s.pairs;
  }

  /** Whether the runner lets every one of the first `n` entries be accepted. */
  ghost predicate AllAccepted(run: Runner, schedule: seq<Entry>, n: nat)
    requires n <= |schedule|
  {
    forall i :: 0 <= i < n ==> Acceptable(run, schedule[i], i + 1)
  }

  lemma EntryStatus(run: Runner, e: Entry, index: nat, s: Suite)
    requires s.status == Running
    ensures TryEntry(run, e, index, 1, s).status == Running <==> Acceptable(run, e, index)
  {
    TryEntryOutcome(run, e, index, 1, s);
    assert s.(invalid := s.invalid + DiscardedBefore(run, e, index, 1)) == s;
  }

  lemma EntryAccount(run: Runner, schedule: seq<Entry>, s: Suite)
    requires |s.pairs| < |schedule| && Complete(run, schedule, |s.pairs|, s) && s.status == Running
    requires TryEntry(run, schedule[|s.pairs|], |s.pairs| + 1, 1, s).status == Running
    ensures Complete(run, schedule, |s.pairs| + 1, TryEntry(run, schedule[|s.pairs|], |s.pairs| + 1, 1, s))
  {
    var n, e := |s.pairs|, schedule[|s.pairs|];
    var s' := TryEntry(run, e, n + 1, 1, s);
    TryEntryOutcome(run, e, n + 1, 1, s);
    assert s.(invalid := s.invalid + DiscardedBefore(run, e, n + 1, 1)) == s;
    var a :| AcceptedAt(run, e, n + 1, a)
          && s'.pairs == s.pairs + [AttemptAt(run, e, n + 1, a)]
          && s'.invalid == s.invalid + DiscardedBefore(run, e, n + 1, a);
    CompleteGrows(run, schedule, s, a);
  }

  lemma AcceptedSnoc(run: Runner, schedule: seq<Entry>, n: nat)
    requires 0 < n <= |schedule|
    ensures AllAccepted(run, schedule, n) <==> AllAccepted(run, schedule, n - 1) && Acceptable(run, schedule[n - 1], n)
  {
  }

  lemma {:induction false} FinishedAccepts(run: Runner, schedule: seq<Entry>, n: nat)
    requires n <= |schedule| && RunEntries(run, schedule, n).status == Running
    ensures AllAccepted(run, schedule, n)
  {
    if n > 0 {
      FinishedAccepts(run, schedule, n - 1);
      EntryStatus(run, schedule[n - 1], n, RunEntries(run, schedule, n - 1));
      AcceptedSnoc(run, schedule, n);
    }
  }

  lemma {:induction false} AcceptedFinishes(run: Runner, schedule: seq<Entry>, n: nat)
    requires n <= |schedule| && AllAccepted(run, schedule, n)
    ensures RunEntries(run, schedule, n).status == Running
  {
    if n > 0 {
      AcceptedSnoc(run, schedule, n);
      AcceptedFinishes(run, schedule, n - 1);
      EntryStatus(run, schedule[n - 1], n, RunEntries(run, schedule, n - 1));
    }
  }

  /** For every runner, the loop finishes exactly when each entry is accepted within four attempts. */
  lemma SuiteFinishes(run: Runner, schedule: seq<Entry>, n: nat)
    requires n <= |schedule|
    ensures RunEntries(run, schedule, n).status == Running <==> AllAccepted(run, schedule, n)
  {
    if RunEntries(run, schedule, n).status == Running { FinishedAccepts(run, schedule, n); }
    if AllAccepted(run, schedule, n) { AcceptedFinishes(run, schedule, n); }
  }

  /**
    A finished loop holds one accepted pair per entry, reached through eligible discards only; all
    the discarded attempts and nothing else; and as many records as calls were made.
   */
  lemma {:induction false} SuiteAccount(run: Runner, schedule: seq<Entry>, n: nat)
    requires n <= |schedule| && RunEntries(run, schedule, n).status == Running
    ensures Complete(run, schedule, n, RunEntries(run, schedule, n))
  {
    if n > 0 {
      SuiteAccount(run, schedule, n - 1);
      EntryAccount(run, schedule, RunEntries(run, schedule, n - 1));
    }
  }
}
