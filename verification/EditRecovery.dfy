/** What "recovered" means, without the scan: some later success of the same edit, after a model request. */
module EditRecovery {
  import opened Basics
  import opened EditModel
  import opened EditProjection

  // --- Attempts in outcome order --------------------------------------------------

  ghost predicate AttemptsOrdered(base: seq<Attempt>) {
    && (forall i :: 0 <= i < |base| ==> base[i].preparedSequence < base[i].outcomeSequence)
    && (forall i, j :: 0 <= i < j < |base| ==> base[i].outcomeSequence < base[j].outcomeSequence)
  }

  /** `a` is the attempt of the committed edit at position `c`. */
  predicate MadeAt(f: Facts, a: Attempt, c: int)
    requires OrderKnown(f)
  {
    0 <= c < |f.commitOrder| && IsEdit(f, f.commitOrder[c]) && a == MakeAttempt(f, f.commitOrder[c])
  }

  ghost predicate MadeBefore(f: Facts, a: Attempt, k: int)
    requires OrderKnown(f)
  {
    exists c :: c < k && MadeAt(f, a, c)
  }

  lemma {:induction false} BaseOrigin(f: Facts, k: nat, i: nat)
    requires OrderKnown(f) && k <= |f.commitOrder| && i < |AttemptsUpTo(f, k)|
    ensures MadeBefore(f, AttemptsUpTo(f, k)[i], k)
  {
    var before := AttemptsUpTo(f, k - 1);
    if i < |before| {
      BaseOrigin(f, k - 1, i);
      var c :| c < k - 1 && MadeAt(f, before[i], c);
      assert MadeAt(f, AttemptsUpTo(f, k)[i], c);
    } else {
      assert MadeAt(f, AttemptsUpTo(f, k)[i], k - 1);
    }
  }

  lemma {:induction false} BaseHas(f: Facts, k: nat, c: nat) returns (i: nat)
    requires OrderKnown(f) && c < k <= |f.commitOrder| && IsEdit(f, f.commitOrder[c])
    ensures i < |AttemptsUpTo(f, k)| && AttemptsUpTo(f, k)[i] == MakeAttempt(f, f.commitOrder[c])
  {
    if c == k - 1 {
      i := |AttemptsUpTo(f, k - 1)|;
    } else {
      i := BaseHas(f, k - 1, c);
    }
  }

  lemma {:induction false} BaseOrdered(f: Facts, n: int, k: nat)
    requires Ordered(f, n) && OrderKnown(f) && k <= |f.commitOrder|
    ensures AttemptsOrdered(AttemptsUpTo(f, k))
  {
    if k > 0 {
      BaseOrdered(f, n, k - 1);
      var base, op := AttemptsUpTo(f, k - 1), f.commitOrder[k - 1];
      assert OperationOk(f, n, op);
      forall i | 0 <= i < |base| ensures base[i].outcomeSequence < f.committed[op].sequence {
        BaseOrigin(f, k - 1, i);
      }
    }
  }

  lemma BaseIsOrdered(f: Facts, n: int)
    requires Ordered(f, n) && OrderKnown(f) && BaseAttempts(f).Ok?
    ensures AttemptsOrdered(BaseAttempts(f).value)
  {
    BaseOrdered(f, n, |f.commitOrder|);
  }

  /** The committed operation an attempt was made from, with the order its events came in. */
  lemma AttemptOrigin(f: Facts, n: int, i: nat) returns (c: nat)
    requires Ordered(f, n) && OrderKnown(f) && BaseAttempts(f).Ok? && i < |BaseAttempts(f).value|
    ensures MadeAt(f, BaseAttempts(f).value[i], c) && OperationOk(f, n, f.commitOrder[c])
  {
    var a := BaseAttempts(f).value[i];
    BaseOrigin(f, |f.commitOrder|, i);
    c :| c < |f.commitOrder| && MadeAt(f, a, c);
  }

  // --- The scan -----------------------------------------------------------------------

  lemma {:induction false} BetweenNonempty(requests: seq<int>, lo: int, hi: int)
    ensures Between(requests, lo, hi) != [] <==> exists m :: m in requests && lo < m < hi
  {
    if requests != [] {
      var n := |requests| - 1;
      BetweenNonempty(requests[..n], lo, hi);
      assert requests == requests[..n] + [requests[n]];
      if lo < requests[n] < hi {
        assert requests[n] in requests;
      } else if Between(requests[..n], lo, hi) != [] {
        var m :| m in requests[..n] && lo < m < hi;
        assert m in requests;
      }
    }
  }

  lemma {:induction false} ScanFindsFirst(base: seq<Attempt>, requests: seq<int>, a: Attempt, j: nat)
    requires j <= |base|
    ensures var r := Scan(base, requests, a, j);
            if r.RecoveredBy? then
              exists k :: FirstRecovery(base, requests, a, j, k) && r == RecoveryAt(base, requests, a, k)
            else
              r == NotRecovered && forall k :: j <= k < |base| ==> !Recovers(a, base[k], requests)
    decreases |base| - j
  {
    if j < |base| {
      if Recovers(a, base[j], requests) {
        assert FirstRecovery(base, requests, a, j, j);
      } else {
        ScanFindsFirst(base, requests, a, j + 1);
        var r := Scan(base, requests, a, j + 1);
        if r.RecoveredBy? {
          var k :| FirstRecovery(base, requests, a, j + 1, k) && r == RecoveryAt(base, requests, a, k);
          assert FirstRecovery(base, requests, a, j, k);
        }
      }
    }
  }

  function RecoveryAt(base: seq<Attempt>, requests: seq<int>, a: Attempt, k: nat): Recovery
    requires k < |base|
  {
    RecoveredBy(base[k].operationId, |Between(requests, a.outcomeSequence, base[k].preparedSequence)|)
  }

  /** Attempt `k` recovers `a` and no attempt between `j` and `k` does. */
  ghost predicate FirstRecovery(base: seq<Attempt>, requests: seq<int>, a: Attempt, j: nat, k: nat) {
    j <= k < |base| && Recovers(a, base[k], requests) && forall x :: j <= x < k ==> !Recovers(a, base[x], requests)
  }

  // --- The declarative reading ------------------------------------------------------------

  predicate IsRequest(events: seq<Stored>, m: int) {
    1 <= m <= |events| && events[m - 1].event == Some(ModelRequestPrepared)
  }

  /** Some model request was prepared after `a` failed and before `b` was prepared. */
  ghost predicate RequestBetween(events: seq<Stored>, a: Attempt, b: Attempt) {
    exists m :: a.outcomeSequence < m < b.preparedSequence && IsRequest(events, m)
  }

  /** `b` is a success of the same edit as `a`, after a model request that follows the failure. */
  ghost predicate Repairs(events: seq<Stored>, a: Attempt, b: Attempt) {
    SameEdit(a, b) && RequestBetween(events, a, b)
  }

  lemma {:induction false} RequestIsEvent(events: seq<Stored>, m: int)
    requires Enveloped(events) && Replay(events).Ok?
    ensures m in Replay(events).value.requests <==> IsRequest(events, m)
  {
    if events != [] {
      RequestIsEvent(events[..|events| - 1], m);
    }
  }

  /** The model requests prepared strictly between two positions of the ledger. */
  ghost function RequestsWithin(events: seq<Stored>, lo: int, hi: int): set<int> {
    set m | lo < m < hi && IsRequest(events, m)
  }

  lemma RequestsSnoc(events: seq<Stored>, lo: int, hi: int)
    requires events != []
    ensures RequestsWithin(events, lo, hi)
         == RequestsWithin(events[..|events| - 1], lo, hi)
            + if IsRequest(events, |events|) && lo < |events| < hi then {|events|} else {}
  {
    var n, before := |events|, events[..|events| - 1];
    forall m ensures IsRequest(events, m) <==> IsRequest(before, m) || (m == n && IsRequest(events, n)) {
      if 1 <= m < n { assert before[m - 1] == events[m - 1]; }
    }
  }

  /** The list of requests found between two positions has one entry for each request event there. */
  lemma {:induction false} RequestsCounted(events: seq<Stored>, lo: int, hi: int)
    requires Enveloped(events) && Replay(events).Ok?
    ensures |Between(Replay(events).value.requests, lo, hi)| == |RequestsWithin(events, lo, hi)|
  {
    if events != [] {
      var n := |events|;
      RequestsCounted(events[..n - 1], lo, hi);
      RequestsSnoc(events, lo, hi);
      RequestStep(Replay(events[..n - 1]).value, events[n - 1], lo, hi);
      assert n !in RequestsWithin(events[..n - 1], lo, hi);
    }
  }

  lemma RequestStep(f: Facts, stored: Stored, lo: int, hi: int)
    requires stored.sequence.Some? && stored.event.Some? && Step(f, stored).Ok?
    ensures Between(Step(f, stored).value.requests, lo, hi)
         == Between(f.requests, lo, hi)
            + if stored.event == Some(ModelRequestPrepared) && lo < stored.sequence.value < hi
              then [stored.sequence.value] else []
  {
    var n := stored.sequence.value;
    assert (f.requests + [n])[..|f.requests|] == f.requests;
  }

  lemma RecoversIff(events: seq<Stored>, a: Attempt, b: Attempt)
    requires Enveloped(events) && Replay(events).Ok?
    ensures Recovers(a, b, Replay(events).value.requests) <==> Repairs(events, a, b)
  {
    var requests := Replay(events).value.requests;
    BetweenNonempty(requests, a.outcomeSequence, b.preparedSequence);
    if Recovers(a, b, requests) {
      var m :| m in requests && a.outcomeSequence < m < b.preparedSequence;
      RequestIsEvent(events, m);
    }
    if RequestBetween(events, a, b) {
      var m :| a.outcomeSequence < m < b.preparedSequence && IsRequest(events, m);
      RequestIsEvent(events, m);
    }
  }

  lemma ProjectParts(events: seq<Stored>)
    requires EditModel.Project(events).Ok?
    ensures Enveloped(events) && Replay(events).Ok? && OrderKnown(Replay(events).value)
    ensures var f := Replay(events).value;
            && Ordered(f, |events|) && BaseAttempts(f).Ok? && AttemptsOrdered(BaseAttempts(f).value)
            && EditModel.Project(events).value.attempts == Recover(BaseAttempts(f).value, f.requests)
            && EditModel.Project(events).value.incomplete == IncompleteUpTo(f, |f.startOrder|)
  {
    ReplayKnowsOrder(events);
    ReplayOrdered(events);
    BaseIsOrdered(Replay(events).value, |events|);
  }

  /** The recovery recorded on `a` names `b`, with the model requests it took to get there. */
  ghost predicate Names(events: seq<Stored>, a: Attempt, b: Attempt) {
    a.recovery == RecoveredBy(b.operationId, |RequestsWithin(events, a.outcomeSequence, b.preparedSequence)|)
  }

  /** No attempt whose outcome comes first has an earlier recovery. */
  ghost predicate IsEarliest(events: seq<Stored>, attempts: seq<Attempt>, a: Attempt, j: nat) {
    && j < |attempts| && Repairs(events, a, attempts[j])
    && forall k :: 0 <= k < j ==> !Repairs(events, a, attempts[k])
  }

  /** What the scan for attempt `i` has to decide, read off the ledger. */
  ghost predicate ReadsAs(events: seq<Stored>, base: seq<Attempt>, requests: seq<int>, i: nat)
    requires i < |base|
  {
    && (forall j :: 0 <= j < |base| ==> (Recovers(base[i], base[j], requests) <==> Repairs(events, base[i], base[j])))
    && (forall j :: 0 <= j <= i ==> !Repairs(events, base[i], base[j]))
  }

  lemma BaseReadsAs(events: seq<Stored>, base: seq<Attempt>, i: nat)
    requires Enveloped(events) && Replay(events).Ok? && AttemptsOrdered(base) && i < |base|
    ensures ReadsAs(events, base, Replay(events).value.requests, i)
  {
    var requests := Replay(events).value.requests;
    forall j: nat | j < |base| ensures Recovers(base[i], base[j], requests) <==> Repairs(events, base[i], base[j]) {
      RecoversIff(events, base[i], base[j]);
    }
    forall j: nat | j <= i ensures !Repairs(events, base[i], base[j]) {
      EarlierCannotRecover(base, requests, i, j);
    }
  }

  lemma ScanReads(events: seq<Stored>, base: seq<Attempt>, requests: seq<int>, i: nat)
    requires i < |base| && ReadsAs(events, base, requests, i)
    ensures var r := Scan(base, requests, base[i], i + 1);
            if r.RecoveredBy? then
              exists k: nat :: IsEarliest(events, base, base[i], k) && r == RecoveryAt(base, requests, base[i], k)
            else r == NotRecovered && forall k :: 0 <= k < |base| ==> !Repairs(events, base[i], base[k])
  {
    ScanFindsFirst(base, requests, base[i], i + 1);
    var r := Scan(base, requests, base[i], i + 1);
    if r.RecoveredBy? {
      var k: nat :| FirstRecovery(base, requests, base[i], i + 1, k) && r == RecoveryAt(base, requests, base[i], k);
      assert IsEarliest(events, base, base[i], k);
    }
  }

  /** Marking recoveries changes nothing that decides them. */
  lemma RepairsKept(events: seq<Stored>, base: seq<Attempt>, requests: seq<int>, i: nat, j: nat)
    requires i < |base| && j < |base|
    ensures var attempts := Recover(base, requests);
            Repairs(events, attempts[i], attempts[j]) <==> Repairs(events, base[i], base[j])
  {
  }

  /**
    A scorable failed edit is marked recovered exactly when some successful edit of the same
    tool and target, anywhere in the ledger, was prepared after a model request that follows
    the failure. The operation named is the earliest such success by outcome order, and the count
    reported with it is the number of model requests between the failure and its preparation.
   */
  lemma RecoveryIsDeclarative(events: seq<Stored>, i: nat)
    requires EditModel.Project(events).Ok? && i < |EditModel.Project(events).value.attempts|
    requires var a := EditModel.Project(events).value.attempts[i]; !a.success && a.target.Some?
    ensures var attempts := EditModel.Project(events).value.attempts;
            var a := attempts[i];
            && (a.recovery.RecoveredBy? <==>
                  exists j :: 0 <= j < |attempts| && Repairs(events, a, attempts[j]))
            && (a.recovery.RecoveredBy? ==>
                  exists j: nat :: IsEarliest(events, attempts, a, j) && Names(events, a, attempts[j]))
            && (!a.recovery.RecoveredBy? ==> a.recovery == NotRecovered)
  {
    ProjectParts(events);
    var f := Replay(events).value;
    var base, attempts := BaseAttempts(f).value, EditModel.Project(events).value.attempts;
    BaseReadsAs(events, base, i);
    ScanReads(events, base, f.requests, i);
    forall j: nat | j < |base|
      ensures Repairs(events, attempts[i], attempts[j]) <==> Repairs(events, base[i], base[j])
    {
      RepairsKept(events, base, f.requests, i, j);
    }
    if attempts[i].recovery.RecoveredBy? {
      var k: nat :| IsEarliest(events, base, base[i], k)
                 && attempts[i].recovery == RecoveryAt(base, f.requests, base[i], k);
      RequestsCounted(events, base[i].outcomeSequence, base[k].preparedSequence);
      assert IsEarliest(events, attempts, attempts[i], k) && Names(events, attempts[i], attempts[k]);
    }
  }

  lemma EarlierCannotRecover(base: seq<Attempt>, requests: seq<int>, i: nat, j: nat)
    requires AttemptsOrdered(base) && j <= i < |base|
    ensures !Recovers(base[i], base[j], requests)
  {
    BetweenNonempty(requests, base[i].outcomeSequence, base[j].preparedSequence);
  }
}
