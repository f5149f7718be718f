/** Every nonempty prefix of an accepted ledger is accepted, and later events only add to what it says. */
module EditPrefix {
  import opened EditModel
  import opened EditProjection
  import opened EditRecovery

  // --- Facts only grow ---------------------------------------------------------------

  /** `f'` extends `f` by what events after position `k` added. */
  ghost predicate Grows(f: Facts, f': Facts, k: int) {
    && (forall op :: op in f.prepared ==> op in f'.prepared && f'.prepared[op] == f.prepared[op])
    && (forall op :: op in f.started ==> op in f'.started && f'.started[op] == f.started[op])
    && (forall op :: op in f.committed ==> op in f'.committed && f'.committed[op] == f.committed[op])
    && f.commitOrder <= f'.commitOrder
    && f.requests <= f'.requests
    && (forall i :: |f.requests| <= i < |f'.requests| ==> f'.requests[i] > k)
  }

  lemma StepGrows(f: Facts, stored: Stored, k: int)
    requires stored.sequence.Some? && stored.sequence.value > k && stored.event.Some? && Step(f, stored).Ok?
    ensures Grows(f, Step(f, stored).value, k)
  {
  }

  lemma GrowsTransitive(f: Facts, g: Facts, h: Facts, k: int)
    requires Grows(f, g, k) && Grows(g, h, k)
    ensures Grows(f, h, k)
  {
  }

  lemma {:induction false} ReplayGrows(events: seq<Stored>, k: nat)
    requires Enveloped(events) && k <= |events| && Replay(events).Ok?
    ensures Replay(events[..k]).Ok? && Grows(Replay(events[..k]).value, Replay(events).value, k)
    decreases |events|
  {
    if k == |events| {
      assert events[..k] == events;
    } else {
      var n := |events| - 1;
      var f := Replay(events[..n]).value;
      ReplayGrows(events[..n], k);
      assert events[..n][..k] == events[..k];
      StepGrows(f, events[n], k);
      GrowsTransitive(Replay(events[..k]).value, f, Replay(events).value, k);
    }
  }

  // --- Attempts ---------------------------------------------------------------------

  /** The same attempt, except that a start may have arrived after its outcome. */
  predicate SameBase(a: Attempt, a': Attempt) {
    && a' == a.(startedSequence := a'.startedSequence)
    && (a.startedSequence.Some? ==> a'.startedSequence == a.startedSequence)
  }

  ghost predicate SameBases(base: seq<Attempt>, base': seq<Attempt>) {
    |base| <= |base'| && forall i :: 0 <= i < |base| ==> SameBase(base[i], base'[i])
  }

  lemma {:induction false} AttemptsGrow(f: Facts, f': Facts, k: int, c: nat)
    requires OrderKnown(f) && OrderKnown(f') && Grows(f, f', k) && c <= |f.commitOrder|
    ensures SameBases(AttemptsUpTo(f, c), AttemptsUpTo(f', c)) && |AttemptsUpTo(f, c)| == |AttemptsUpTo(f', c)|
  {
    if c > 0 {
      AttemptsGrow(f, f', k, c - 1);
      assert f'.commitOrder[c - 1] == f.commitOrder[c - 1];
    }
  }

  lemma BasesGrow(f: Facts, f': Facts, k: int)
    requires OrderKnown(f) && OrderKnown(f') && Grows(f, f', k) && BaseAttempts(f').Ok?
    ensures BaseAttempts(f).Ok? && SameBases(BaseAttempts(f).value, BaseAttempts(f').value)
  {
    AttemptsGrow(f, f', k, |f.commitOrder|);
    AttemptsPrefix(f', |f.commitOrder|, |f'.commitOrder|);
    var base, base' := AttemptsUpTo(f, |f.commitOrder|), AttemptsUpTo(f', |f'.commitOrder|);
    forall i | 0 <= i < |base| ensures SameBase(base[i], base'[i]) {
      assert base'[i] == AttemptsUpTo(f', |f.commitOrder|)[i];
    }
  }

  // --- Recoveries -------------------------------------------------------------------

  /** Requests after position `k` do not lie before an attempt prepared up to `k`. */
  lemma {:induction false} BetweenStable(requests: seq<int>, requests': seq<int>, lo: int, hi: int, k: int)
    requires requests <= requests' && hi <= k
    requires forall i :: |requests| <= i < |requests'| ==> requests'[i] > k
    ensures Between(requests', lo, hi) == Between(requests, lo, hi)
    decreases |requests'|
  {
    if |requests| < |requests'| {
      BetweenStable(requests, requests'[..|requests'| - 1], lo, hi, k);
    } else {
      assert requests == requests';
    }
  }

  lemma {:induction false} ScanStable(
    base: seq<Attempt>, base': seq<Attempt>, requests: seq<int>, requests': seq<int>, a: Attempt, a': Attempt,
    j: nat, k: int)
    requires SameBases(base, base') && SameBase(a, a') && j <= |base|
    requires requests <= requests' && forall i :: |requests| <= i < |requests'| ==> requests'[i] > k
    requires forall i :: 0 <= i < |base| ==> base[i].preparedSequence <= k
    ensures Scan(base, requests, a, j).RecoveredBy? ==>
            Scan(base', requests', a', j) == Scan(base, requests, a, j)
    decreases |base| - j
  {
    if j < |base| {
      assert SameBase(base[j], base'[j]);
      BetweenStable(requests, requests', a.outcomeSequence, base[j].preparedSequence, k);
      ScanStable(base, base', requests, requests', a, a', j + 1, k);
    }
  }

  lemma {:induction false} ScanScores(base: seq<Attempt>, requests: seq<int>, a: Attempt, j: nat)
    requires j <= |base|
    ensures Scan(base, requests, a, j) != Unscorable
    decreases |base| - j
  {
    if j < |base| { ScanScores(base, requests, a, j + 1); }
  }

  /** What a later ledger may change about an attempt: a late start, and a recovery it did not have. */
  predicate StillHolds(a: Attempt, a': Attempt) {
    && a' == a.(startedSequence := a'.startedSequence, recovery := a'.recovery)
    && (a.startedSequence.Some? ==> a'.startedSequence == a.startedSequence)
    && (a.recovery.RecoveredBy? ==> a'.recovery == a.recovery)
    && (a.recovery.Unscorable? <==> a'.recovery.Unscorable?)
  }

  lemma RecoverStable(
    base: seq<Attempt>, base': seq<Attempt>, requests: seq<int>, requests': seq<int>, k: int, i: nat)
    requires SameBases(base, base') && i < |base|
    requires requests <= requests' && forall x :: |requests| <= x < |requests'| ==> requests'[x] > k
    requires forall x :: 0 <= x < |base| ==> base[x].preparedSequence <= k
    requires base[i].recovery.Unscorable? <==> base[i].target.None?
    ensures StillHolds(Recovered(base, requests, i), Recovered(base', requests', i))
  {
    assert SameBase(base[i], base'[i]);
    ScanStable(base, base', requests, requests', base[i], base'[i], i + 1, k);
    ScanScores(base, requests, base[i], i + 1);
    ScanScores(base', requests', base'[i], i + 1);
  }

  // --- The theorem ------------------------------------------------------------------------

  lemma EnvelopePrefix(events: seq<Stored>, k: nat)
    requires CheckEnvelope(events).Ok? && 1 <= k <= |events|
    ensures CheckEnvelope(events[..k]).Ok?
  {
    var prefix := events[..k];
    forall i, j | 0 <= i < j < |prefix| ensures prefix[i].eventId != prefix[j].eventId {
      assert events[i].eventId != events[j].eventId;
    }
  }

  lemma PreparedWithin(f: Facts, k: int)
    requires Ordered(f, k) && OrderKnown(f) && BaseAttempts(f).Ok?
    ensures var base := BaseAttempts(f).value;
            forall x :: 0 <= x < |base| ==>
              base[x].preparedSequence <= k && (base[x].recovery.Unscorable? <==> base[x].target.None?)
  {
    var base := BaseAttempts(f).value;
    forall x | 0 <= x < |base|
      ensures base[x].preparedSequence <= k && (base[x].recovery.Unscorable? <==> base[x].target.None?)
    {
      var c := AttemptOrigin(f, k, x);
    }
  }

  lemma AttemptsStable(f: Facts, f': Facts, k: int)
    requires Ordered(f, k) && OrderKnown(f) && OrderKnown(f') && Grows(f, f', k) && BaseAttempts(f').Ok?
    ensures BaseAttempts(f).Ok?
    ensures var old_, new_ := Recover(BaseAttempts(f).value, f.requests), Recover(BaseAttempts(f').value, f'.requests);
            |old_| <= |new_| && forall i :: 0 <= i < |old_| ==> StillHolds(old_[i], new_[i])
  {
    BasesGrow(f, f', k);
    PreparedWithin(f, k);
    var base, base' := BaseAttempts(f).value, BaseAttempts(f').value;
    forall i | 0 <= i < |base|
      ensures StillHolds(Recover(base, f.requests)[i], Recover(base', f'.requests)[i])
    {
      RecoverStable(base, base', f.requests, f'.requests, k, i);
    }
  }

  // --- Unfinished writes ----------------------------------------------------------------------

  lemma {:induction false} IncompleteMembers(f: Facts, n: nat, op: string)
    requires n <= |f.startOrder|
    ensures op in IncompleteUpTo(f, n) <==> op in f.startOrder[..n] && IsIncomplete(f, op)
  {
    if n > 0 {
      IncompleteMembers(f, n - 1, op);
      assert f.startOrder[..n] == f.startOrder[..n - 1] + [f.startOrder[n - 1]];
    }
  }

  ghost predicate IsAttempted(attempts: seq<Attempt>, op: string) {
    exists i :: 0 <= i < |attempts| && attempts[i].operationId == op
  }

  lemma RecoverKeepsIds(base: seq<Attempt>, requests: seq<int>, op: string)
    requires IsAttempted(base, op)
    ensures IsAttempted(Recover(base, requests), op)
  {
    var i :| 0 <= i < |base| && base[i].operationId == op;
    assert Recover(base, requests)[i].operationId == op;
  }

  /** A started write without outcome stays one until it gets its outcome. */
  lemma IncompleteStays(f: Facts, f': Facts, k: int, op: string)
    requires OrderKnown(f') && Grows(f, f', k) && CommitsOrdered(f') && StartsOrdered(f) && StartsOrdered(f')
    requires BaseAttempts(f').Ok? && op in IncompleteUpTo(f, |f.startOrder|)
    ensures op in IncompleteUpTo(f', |f'.startOrder|)
         || IsAttempted(Recover(BaseAttempts(f').value, f'.requests), op)
  {
    IncompleteMembers(f, |f.startOrder|, op);
    assert f.startOrder[..|f.startOrder|] == f.startOrder;
    assert op in f'.started && op in f'.startOrder;
    if op in f'.committed {
      var c :| 0 <= c < |f'.commitOrder| && f'.commitOrder[c] == op;
      var i := BaseHas(f', |f'.commitOrder|, c);
      RecoverKeepsIds(BaseAttempts(f').value, f'.requests, op);
    } else {
      IncompleteMembers(f', |f'.startOrder|, op);
      assert f'.startOrder[..|f'.startOrder|] == f'.startOrder;
    }
  }

  // --- The whole projection ---------------------------------------------------------------------

  lemma ProjectFrom(events: seq<Stored>)
    requires CheckEnvelope(events).Ok? && Replay(events).Ok? && OrderKnown(Replay(events).value)
    ensures var f := Replay(events).value;
            BaseAttempts(f).Ok? ==>
              && EditModel.Project(events).Ok?
              && EditModel.Project(events).value.attempts == Recover(BaseAttempts(f).value, f.requests)
              && EditModel.Project(events).value.incomplete == IncompleteUpTo(f, |f.startOrder|)
  {
  }

  /**
    Prefix stability: extending an accepted ledger only appends attempts; existing ones keep
    every field but a missing start, and a recovery once found is never lost or changed. A write that
    was started and has no outcome stays listed until it becomes an attempt.
   */
  lemma PrefixStable(events: seq<Stored>, k: nat)
    requires EditModel.Project(events).Ok? && 1 <= k <= |events|
    ensures EditModel.Project(events[..k]).Ok?
    ensures var old_, new_ := EditModel.Project(events[..k]).value.attempts, EditModel.Project(events).value.attempts;
            |old_| <= |new_| && forall i :: 0 <= i < |old_| ==> StillHolds(old_[i], new_[i])
    ensures var o := EditModel.Project(events).value;
            forall op :: op in EditModel.Project(events[..k]).value.incomplete ==>
              op in o.incomplete || IsAttempted(o.attempts, op)
  {
    ProjectParts(events);
    EnvelopePrefix(events, k);
    ReplayGrows(events, k);
    ReplayKnowsOrder(events[..k]);
    ReplayOrdered(events[..k]);
    var f, f' := Replay(events[..k]).value, Replay(events).value;
    AttemptsStable(f, f', k);
    ProjectFrom(events[..k]);
    forall op | op in IncompleteUpTo(f, |f.startOrder|)
      ensures op in IncompleteUpTo(f', |f'.startOrder|)
           || IsAttempted(Recover(BaseAttempts(f').value, f'.requests), op)
    {
      IncompleteStays(f, f', k, op);
    }
  }
}
