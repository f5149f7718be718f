/** Every call of the pair runner is on record, in every run of the loop, finished or aborted. */
module ResampleCalls {
  import opened Basics
  import opened ResampleModel
  import opened ResampleLoop

  // --- Which calls are made, said of the runner alone --------------------------------------

  /**
    Attempt `number` of entry `index` is called: all entries before it are accepted within their four
    attempts, and so far this entry has only been discarded.
   */
  ghost predicate IsCalled(run: Runner, schedule: seq<Entry>, n: nat, index: nat, number: nat)
    requires n <= |schedule|
  {
    && 1 <= index <= n && 1 <= number <= MAX_PAIR_ATTEMPTS
    && AllAccepted(run, schedule, index - 1) && DiscardsBefore(run, schedule[index - 1], index, number)
  }

  /** The record of a call that returned a pair. */
  ghost predicate IsRecord(run: Runner, schedule: seq<Entry>, n: nat, x: Attempt)
    requires n <= |schedule|
  {
    && IsCalled(run, schedule, n, x.index, x.number)
    && run(schedule[x.index - 1], x.index, x.number) == Some(x.pair)
  }

  predicate Before(x: Attempt, y: Attempt) {
    x.index < y.index || (x.index == y.index && x.number < y.number)
  }

  /** In the order of the calls, each at most once. */
  ghost predicate InOrder(xs: seq<Attempt>) {
    forall i, j :: 0 <= i < j < |xs| ==> Before(xs[i], xs[j])
  }

  ghost predicate Holds(run: Runner, schedule: seq<Entry>, n: nat, xs: seq<Attempt>, valid: bool)
    requires n <= |schedule|
  {
    InOrder(xs) && forall x :: x in xs <==> IsRecord(run, schedule, n, x) && x.pair.valid == valid
  }

  // --- One entry ---------------------------------------------------------------------------

  /** How an entry ends: after `number - 1` discards, accepted, aborted, or out of attempts. */
  ghost predicate EndsAt(run: Runner, e: Entry, index: nat, number: nat) {
    && 1 <= number <= MAX_PAIR_ATTEMPTS + 1 && DiscardsBefore(run, e, index, number)
    && (number <= MAX_PAIR_ATTEMPTS ==> !Discards(run, e, index, number))
  }

  lemma EndsOnce(run: Runner, e: Entry, index: nat, a: nat, b: nat)
    requires EndsAt(run, e, index, a) && EndsAt(run, e, index, b)
    ensures a == b
  {
    assert a < b ==> Discards(run, e, index, a);
    assert b < a ==> Discards(run, e, index, b);
  }

  function StatusAt(run: Runner, e: Entry, index: nat, number: nat): Status {
    if number > MAX_PAIR_ATTEMPTS then Failed(AttemptsExhausted)
    else if run(e, index, number).None? then Failed(HarnessFailed)
    else if run(e, index, number).value.valid then Running
    else Failed(NotEligible)
  }

  /** What the entry adds to the accepted and to the invalid attempts. */
  ghost function PairsAt(run: Runner, e: Entry, index: nat, number: nat): seq<Attempt> {
    if number <= MAX_PAIR_ATTEMPTS && Accepts(run, e, index, number) then [AttemptAt(run, e, index, number)] else []
  }

  ghost function InvalidAt(run: Runner, e: Entry, index: nat, number: nat): seq<Attempt>
    requires EndsAt(run, e, index, number)
  {
    DiscardedBefore(run, e, index, number)
    + if StatusAt(run, e, index, number) == Failed(NotEligible) then [AttemptAt(run, e, index, number)] else []
  }

  lemma {:induction false} EntryEnds(run: Runner, e: Entry, index: nat, number: nat, s: Suite) returns (last: nat)
    requires 1 <= number <= MAX_PAIR_ATTEMPTS + 1 && s.status == Running && DiscardsBefore(run, e, index, number)
    ensures EndsAt(run, e, index, last)
    ensures TryEntry(run, e, index, number, s.(invalid := s.invalid + DiscardedBefore(run, e, index, number)))
         == Suite(s.pairs + PairsAt(run, e, index, last), s.invalid + InvalidAt(run, e, index, last),
                  StatusAt(run, e, index, last))
    decreases MAX_PAIR_ATTEMPTS + 1 - number, index
  {
    if number <= MAX_PAIR_ATTEMPTS && Discards(run, e, index, number) {
      assert s.invalid + DiscardedBefore(run, e, index, number) + [AttemptAt(run, e, index, number)]
          == s.invalid + DiscardedBefore(run, e, index, number + 1);
      last := EntryEnds(run, e, index, number + 1, s);
    } else {
      last := number;
      EndShape(run, e, index, number, s);
    }
  }

  lemma EndShape(run: Runner, e: Entry, index: nat, number: nat, s: Suite)
    requires s.status == Running && EndsAt(run, e, index, number)
    ensures TryEntry(run, e, index, number, s.(invalid := s.invalid + DiscardedBefore(run, e, index, number)))
         == Suite(s.pairs + PairsAt(run, e, index, number), s.invalid + InvalidAt(run, e, index, number),
                  StatusAt(run, e, index, number))
  {
    var before := DiscardedBefore(run, e, index, number);
    assert s.pairs + [] == s.pairs && before + [] == before;
    if StatusAt(run, e, index, number) == Failed(NotEligible) {
      var a := AttemptAt(run, e, index, number);
      assert (s.invalid + before) + [a] == s.invalid + (before + [a]);
    }
  }

  // --- The records of one entry -------------------------------------------------------------

  ghost predicate IsEntryRecord(run: Runner, e: Entry, index: nat, x: Attempt) {
    && x.index == index && 1 <= x.number <= MAX_PAIR_ATTEMPTS && DiscardsBefore(run, e, index, x.number)
    && run(e, index, x.number) == Some(x.pair)
  }

  lemma NoneAfterEnd(run: Runner, e: Entry, index: nat, last: nat, number: nat)
    requires EndsAt(run, e, index, last) && DiscardsBefore(run, e, index, number)
    ensures number <= MAX_PAIR_ATTEMPTS ==> number <= last
  {
    assert last < number <= MAX_PAIR_ATTEMPTS ==> Discards(run, e, index, last);
  }

  lemma EntryRecords(run: Runner, e: Entry, index: nat, last: nat, x: Attempt)
    requires EndsAt(run, e, index, last)
    ensures x in PairsAt(run, e, index, last) <==> IsEntryRecord(run, e, index, x) && x.pair.valid
    ensures x in InvalidAt(run, e, index, last) <==> IsEntryRecord(run, e, index, x) && !x.pair.valid
  {
    DiscardedBeforeMembers(run, e, index, last, x);
    if IsEntryRecord(run, e, index, x) {
      NoneAfterEnd(run, e, index, last, x.number);
      assert x == AttemptAt(run, e, index, x.number);
      assert x.number < last ==> Discards(run, e, index, x.number);
    }
  }

  lemma {:induction false} DiscardedInOrder(run: Runner, e: Entry, index: nat, number: nat, i: nat)
    requires number >= 1 && DiscardsBefore(run, e, index, number) && i < number - 1
    ensures |DiscardedBefore(run, e, index, number)| == number - 1
    ensures var x := DiscardedBefore(run, e, index, number)[i]; x.index == index && x.number == i + 1 && x.pair.eligible
  {
    assert Discards(run, e, index, number - 1);
    DiscardedBeforeMembers(run, e, index, number, AttemptAt(run, e, index, number - 1));
    if i < number - 2 {
      DiscardedBeforeMembers(run, e, index, number - 1, AttemptAt(run, e, index, number - 1));
      DiscardedInOrder(run, e, index, number - 1, i);
    }
  }

  lemma EntryInOrder(run: Runner, e: Entry, index: nat, last: nat)
    requires EndsAt(run, e, index, last)
    ensures InOrder(InvalidAt(run, e, index, last))
  {
    var xs := InvalidAt(run, e, index, last);
    forall i | 0 <= i < |xs| ensures xs[i].index == index && xs[i].number == i + 1 {
      if i < last - 1 { DiscardedInOrder(run, e, index, last, i); }
      if last > 1 { DiscardedInOrder(run, e, index, last, 0); }
    }
  }

  // --- All entries ---------------------------------------------------------------------------

  lemma InOrderConcat(xs: seq<Attempt>, ys: seq<Attempt>)
    requires InOrder(xs) && InOrder(ys)
    requires forall i, j :: 0 <= i < |xs| && 0 <= j < |ys| ==> Before(xs[i], ys[j])
    ensures InOrder(xs + ys)
  {
  }

  lemma RecordSnoc(run: Runner, schedule: seq<Entry>, n: nat, x: Attempt)
    requires 0 < n <= |schedule|
    ensures IsRecord(run, schedule, n, x) <==>
      || IsRecord(run, schedule, n - 1, x)
      || (AllAccepted(run, schedule, n - 1) && IsEntryRecord(run, schedule[n - 1], n, x))
  {
  }

  lemma HoldsSnoc(run: Runner, schedule: seq<Entry>, n: nat, xs: seq<Attempt>, ys: seq<Attempt>, valid: bool)
    requires 0 < n <= |schedule| && Holds(run, schedule, n - 1, xs, valid) && InOrder(ys)
    requires AllAccepted(run, schedule, n - 1)
    requires forall x :: x in ys <==> IsEntryRecord(run, schedule[n - 1], n, x) && x.pair.valid == valid
    ensures Holds(run, schedule, n, xs + ys, valid)
  {
    forall x ensures x in xs + ys <==> IsRecord(run, schedule, n, x) && x.pair.valid == valid {
      RecordSnoc(run, schedule, n, x);
    }
    forall i, j | 0 <= i < |xs| && 0 <= j < |ys| ensures Before(xs[i], ys[j]) {
      assert xs[i] in xs && ys[j] in ys;
    }
    InOrderConcat(xs, ys);
  }

  lemma HoldsStays(run: Runner, schedule: seq<Entry>, n: nat, xs: seq<Attempt>, valid: bool)
    requires 0 < n <= |schedule| && Holds(run, schedule, n - 1, xs, valid) && !AllAccepted(run, schedule, n - 1)
    ensures Holds(run, schedule, n, xs, valid)
  {
    forall x ensures x in xs <==> IsRecord(run, schedule, n, x) && x.pair.valid == valid {
      RecordSnoc(run, schedule, n, x);
    }
  }

  /** What measuring the next entry does to a run that is still going. */
  lemma NextEntry(run: Runner, schedule: seq<Entry>, n: nat) returns (last: nat)
    requires 0 < n <= |schedule| && RunEntries(run, schedule, n - 1).status == Running
    ensures var s, e := RunEntries(run, schedule, n - 1), schedule[n - 1];
            && EndsAt(run, e, n, last)
            && RunEntries(run, schedule, n)
               == Suite(s.pairs + PairsAt(run, e, n, last), s.invalid + InvalidAt(run, e, n, last),
                        StatusAt(run, e, n, last))
  {
    var s, e := RunEntries(run, schedule, n - 1), schedule[n - 1];
    last := EntryEnds(run, e, n, 1, s);
    assert s.(invalid := s.invalid + DiscardedBefore(run, e, n, 1)) == s;
  }

  /**
    For every runner and every run, finished or aborted: the accepted pairs are exactly the calls that
    returned a valid pair, the invalid attempts exactly the calls that returned another one, each call
    once and in the order of the calls.
   */
  lemma {:induction false} EveryCallRecorded(run: Runner, schedule: seq<Entry>, n: nat)
    requires n <= |schedule|
    ensures var s := RunEntries(run, schedule, n);
            Holds(run, schedule, n, s.pairs, true) && Holds(run, schedule, n, s.invalid, false)
  {
    if n > 0 {
      EveryCallRecorded(run, schedule, n - 1);
      SuiteFinishes(run, schedule, n - 1);
      var s := RunEntries(run, schedule, n - 1);
      if s.status == Running {
        var last := NextEntry(run, schedule, n);
        RecordEntry(run, schedule, n, last, s);
      } else {
        HoldsStays(run, schedule, n, s.pairs, true);
        HoldsStays(run, schedule, n, s.invalid, false);
      }
    }
  }

  lemma RecordEntry(run: Runner, schedule: seq<Entry>, n: nat, last: nat, s: Suite)
    requires 0 < n <= |schedule| && AllAccepted(run, schedule, n - 1) && EndsAt(run, schedule[n - 1], n, last)
    requires Holds(run, schedule, n - 1, s.pairs, true) && Holds(run, schedule, n - 1, s.invalid, false)
    ensures Holds(run, schedule, n, s.pairs + PairsAt(run, schedule[n - 1], n, last), true)
    ensures Holds(run, schedule, n, s.invalid + InvalidAt(run, schedule[n - 1], n, last), false)
  {
    var e := schedule[n - 1];
    forall x
      ensures x in PairsAt(run, e, n, last) <==> IsEntryRecord(run, e, n, x) && x.pair.valid == true
      ensures x in InvalidAt(run, e, n, last) <==> IsEntryRecord(run, e, n, x) && x.pair.valid == false
    {
      EntryRecords(run, e, n, last, x);
    }
    EntryInOrder(run, e, n, last);
    HoldsSnoc(run, schedule, n, s.pairs, PairsAt(run, e, n, last), true);
    HoldsSnoc(run, schedule, n, s.invalid, InvalidAt(run, e, n, last), false);
  }

  // --- How a run ends ------------------------------------------------------------------------

  /** Entry `index` is reached and ends unaccepted at attempt `last`. */
  ghost predicate StopsAt(run: Runner, schedule: seq<Entry>, n: nat, index: nat, last: nat)
    requires n <= |schedule|
  {
    && 1 <= index <= n && AllAccepted(run, schedule, index - 1) && EndsAt(run, schedule[index - 1], index, last)
    && StatusAt(run, schedule[index - 1], index, last) != Running
  }

  lemma StopGivesStatus(run: Runner, schedule: seq<Entry>, n: nat, index: nat, last: nat)
    requires n <= |schedule| && StopsAt(run, schedule, n, index, last)
    ensures RunEntries(run, schedule, n).status == StatusAt(run, schedule[index - 1], index, last)
  {
    SuiteFinishes(run, schedule, index - 1);
    var m := NextEntry(run, schedule, index);
    EndsOnce(run, schedule[index - 1], index, m, last);
    StaysFailed(run, schedule, index, n);
  }

  lemma {:induction false} StatusHasStop(run: Runner, schedule: seq<Entry>, n: nat) returns (index: nat, last: nat)
    requires n <= |schedule| && RunEntries(run, schedule, n).status != Running
    ensures StopsAt(run, schedule, n, index, last)
    ensures RunEntries(run, schedule, n).status == StatusAt(run, schedule[index - 1], index, last)
  {
    if RunEntries(run, schedule, n - 1).status == Running {
      SuiteFinishes(run, schedule, n - 1);
      index := n;
      last := NextEntry(run, schedule, n);
    } else {
      index, last := StatusHasStop(run, schedule, n - 1);
    }
  }

  /** Some call returned nothing. */
  ghost predicate SomeCallFailed(run: Runner, schedule: seq<Entry>, n: nat)
    requires n <= |schedule|
  {
    exists index: nat, number: nat ::
      IsCalled(run, schedule, n, index, number) && run(schedule[index - 1], index, number).None?
  }

  /** The run failed in the harness exactly when some call returned nothing. */
  lemma HarnessFailedIff(run: Runner, schedule: seq<Entry>, n: nat)
    requires n <= |schedule|
    ensures RunEntries(run, schedule, n).status == Failed(HarnessFailed) <==> SomeCallFailed(run, schedule, n)
  {
    if RunEntries(run, schedule, n).status == Failed(HarnessFailed) {
      var index, last := StatusHasStop(run, schedule, n);
      assert IsCalled(run, schedule, n, index, last);
    }
    if SomeCallFailed(run, schedule, n) {
      var index: nat, number: nat :|
        IsCalled(run, schedule, n, index, number) && run(schedule[index - 1], index, number).None?;
      StopGivesStatus(run, schedule, n, index, number);
    }
  }

  /** An ineligible invalid attempt is where the run stopped. */
  lemma IneligibleStops(run: Runner, schedule: seq<Entry>, n: nat, x: Attempt)
    requires n <= |schedule| && IsRecord(run, schedule, n, x) && !x.pair.valid && !x.pair.eligible
    ensures StopsAt(run, schedule, n, x.index, x.number)
    ensures StatusAt(run, schedule[x.index - 1], x.index, x.number) == Failed(NotEligible)
  {
  }

  lemma IneligibleGivesStatus(run: Runner, schedule: seq<Entry>, n: nat, i: nat)
    requires n <= |schedule| && i < |RunEntries(run, schedule, n).invalid|
    requires !RunEntries(run, schedule, n).invalid[i].pair.eligible
    ensures RunEntries(run, schedule, n).status == Failed(NotEligible)
  {
    var xs := RunEntries(run, schedule, n).invalid;
    EveryCallRecorded(run, schedule, n);
    assert xs[i] in xs;
    IneligibleStops(run, schedule, n, xs[i]);
    StopGivesStatus(run, schedule, n, xs[i].index, xs[i].number);
  }

  /** The run stopped on an ineligible attempt exactly when the last invalid attempt is one, and no other is. */
  lemma NotEligibleIff(run: Runner, schedule: seq<Entry>, n: nat, i: nat)
    requires n <= |schedule|
    ensures var s := RunEntries(run, schedule, n);
            && (s.status == Failed(NotEligible) <==> s.invalid != [] && !s.invalid[|s.invalid| - 1].pair.eligible)
            && (i < |s.invalid| - 1 ==> s.invalid[i].pair.eligible)
  {
    var xs := RunEntries(run, schedule, n).invalid;
    if RunEntries(run, schedule, n).status == Failed(NotEligible) {
      var index, last := StatusHasStop(run, schedule, n);
      LastIsStop(run, schedule, n, index, last);
    }
    if xs != [] && !xs[|xs| - 1].pair.eligible { IneligibleGivesStatus(run, schedule, n, |xs| - 1); }
    if i < |xs| - 1 && !xs[i].pair.eligible { OneIneligible(run, schedule, n, i); }
  }

  lemma OneIneligible(run: Runner, schedule: seq<Entry>, n: nat, i: nat)
    requires n <= |schedule| && i < |RunEntries(run, schedule, n).invalid|
    requires !RunEntries(run, schedule, n).invalid[i].pair.eligible
    ensures i == |RunEntries(run, schedule, n).invalid| - 1
  {
    var xs := RunEntries(run, schedule, n).invalid;
    EveryCallRecorded(run, schedule, n);
    var y := xs[|xs| - 1];
    OthersBeforeLast(xs, i);
    assert xs[i] in xs && y in xs;
    IneligibleStops(run, schedule, n, xs[i]);
    NothingAfterStop(run, schedule, n, xs[i].index, xs[i].number, y);
  }

  lemma OthersBeforeLast(xs: seq<Attempt>, i: nat)
    requires InOrder(xs) && i < |xs|
    ensures i == |xs| - 1 || Before(xs[i], xs[|xs| - 1])
  {
  }

  /** Nothing is called after the attempt at which the run stops. */
  lemma NothingAfterStop(run: Runner, schedule: seq<Entry>, n: nat, index: nat, last: nat, x: Attempt)
    requires n <= |schedule| && StopsAt(run, schedule, n, index, last) && IsRecord(run, schedule, n, x)
    ensures x.index < index || (x.index == index && x.number <= last)
  {
    EntryStops(run, schedule[index - 1], index, last);
    if x.index == index { NoneAfterEnd(run, schedule[index - 1], index, last, x.number); }
  }

  lemma EntryStops(run: Runner, e: Entry, index: nat, last: nat)
    requires EndsAt(run, e, index, last) && StatusAt(run, e, index, last) != Running
    ensures !Acceptable(run, e, index)
  {
    NotAcceptable(run, e, index, last);
  }

  lemma LastIsStop(run: Runner, schedule: seq<Entry>, n: nat, index: nat, last: nat)
    requires n <= |schedule| && StopsAt(run, schedule, n, index, last)
    requires StatusAt(run, schedule[index - 1], index, last) == Failed(NotEligible)
    ensures var xs := RunEntries(run, schedule, n).invalid;
            xs != [] && xs[|xs| - 1] == AttemptAt(run, schedule[index - 1], index, last)
            && !xs[|xs| - 1].pair.eligible
  {
    var xs, x := RunEntries(run, schedule, n).invalid, AttemptAt(run, schedule[index - 1], index, last);
    EveryCallRecorded(run, schedule, n);
    assert IsRecord(run, schedule, n, x);
    var i :| 0 <= i < |xs| && xs[i] == x;
    var y := xs[|xs| - 1];
    OthersBeforeLast(xs, i);
    assert y in xs;
    NothingAfterStop(run, schedule, n, index, last, y);
  }

  /** Four eligible discards of one entry, in order. */
  ghost predicate FourDiscards(xs: seq<Attempt>) {
    |xs| == 4 && forall k :: 0 <= k < 4 ==> xs[k].index == xs[0].index && xs[k].number == k + 1 && xs[k].pair.eligible
  }

  /** The run ran out of attempts exactly when the last four invalid attempts are the eligible discards of one entry. */
  lemma ExhaustedIff(run: Runner, schedule: seq<Entry>, n: nat)
    requires n <= |schedule|
    ensures var s := RunEntries(run, schedule, n);
            s.status == Failed(AttemptsExhausted) <==>
              |s.invalid| >= 4 && FourDiscards(s.invalid[|s.invalid| - 4..])
  {
    var s := RunEntries(run, schedule, n);
    if s.status == Failed(AttemptsExhausted) {
      var index, last := StatusHasStop(run, schedule, n);
      LastAreDiscards(run, schedule, n, index);
    }
    if |s.invalid| >= 4 && FourDiscards(s.invalid[|s.invalid| - 4..]) {
      EveryCallRecorded(run, schedule, n);
      var x := s.invalid[|s.invalid| - 4..][3];
      assert x in s.invalid;
      FourthStops(run, schedule, n, x);
      StopGivesStatus(run, schedule, n, x.index, 5);
    }
  }

  lemma FourthStops(run: Runner, schedule: seq<Entry>, n: nat, x: Attempt)
    requires n <= |schedule| && IsRecord(run, schedule, n, x) && !x.pair.valid && x.pair.eligible && x.number == 4
    ensures StopsAt(run, schedule, n, x.index, 5)
    ensures StatusAt(run, schedule[x.index - 1], x.index, 5) == Failed(AttemptsExhausted)
  {
    assert Discards(run, schedule[x.index - 1], x.index, 4);
  }

  lemma LastAreDiscards(run: Runner, schedule: seq<Entry>, n: nat, index: nat)
    requires n <= |schedule| && StopsAt(run, schedule, n, index, 5)
    ensures var xs := RunEntries(run, schedule, n).invalid; |xs| >= 4 && FourDiscards(xs[|xs| - 4..])
  {
    var e := schedule[index - 1];
    SuiteFinishes(run, schedule, index - 1);
    var m := NextEntry(run, schedule, index);
    EndsOnce(run, e, index, m, 5);
    StopGivesStatus(run, schedule, index, index, 5);
    StaysFailed(run, schedule, index, n);
    var before, ds := RunEntries(run, schedule, index - 1).invalid, DiscardedBefore(run, e, index, 5);
    assert InvalidAt(run, e, index, 5) == ds;
    forall k | 0 <= k < 4
      ensures |ds| == 4 && ds[k].index == index && ds[k].number == k + 1 && ds[k].pair.eligible
    {
      DiscardedInOrder(run, e, index, 5, k);
    }
    assert |ds| == 4 by { DiscardedInOrder(run, e, index, 5, 0); }
    assert (before + ds)[|before + ds| - 4..] == ds;
  }
}
