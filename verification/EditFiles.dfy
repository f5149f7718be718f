/** The projection read off the events: what each attempt reports, and which files an edit addresses. */
module EditFiles {
  import opened Basics
  import opened EditModel
  import opened EditProjection
  import opened EditRecovery
  import opened EditLanguage
  import opened EditPrefix

  // --- The files of an invocation ---------------------------------------------------------

  /** The edit names a path, or is a patch that names the path of each of its changes. */
  predicate AddressesFiles(v: Invocation) {
    && v.arguments.Parsed?
    && (Nonempty(v.arguments.path)
        || (v.name == Some("apply_patch") && v.arguments.changes.Some? && v.arguments.changes.value != []
            && forall i :: 0 <= i < |v.arguments.changes.value| ==> Nonempty(v.arguments.changes.value[i])))
  }

  /** The path it names counts before the list of changes. */
  predicate Addresses(v: Invocation, p: string) {
    && AddressesFiles(v)
    && if Nonempty(v.arguments.path) then v.arguments.path == Some(p) else Some(p) in v.arguments.changes.value
  }

  lemma TargetIff(v: Invocation, p: string)
    ensures TargetIdentity(v).Some? <==> AddressesFiles(v)
    ensures TargetIdentity(v).Some? ==> (p in TargetIdentity(v).value <==> Addresses(v, p))
  {
    if AddressesFiles(v) && !Nonempty(v.arguments.path) && Some(p) in v.arguments.changes.value {
      var i :| 0 <= i < |v.arguments.changes.value| && v.arguments.changes.value[i] == Some(p);
    }
  }

  /** Both edits address files, and the same ones. */
  ghost predicate SameFiles(v: Invocation, w: Invocation) {
    AddressesFiles(v) && AddressesFiles(w) && forall p :: Addresses(v, p) <==> Addresses(w, p)
  }

  lemma SameTargetIff(v: Invocation, w: Invocation)
    ensures TargetIdentity(v).Some? && TargetIdentity(v) == TargetIdentity(w) <==> SameFiles(v, w)
  {
    TargetIff(v, "");
    TargetIff(w, "");
    forall p: string
      ensures TargetIdentity(v).Some? ==> (p in TargetIdentity(v).value <==> Addresses(v, p))
      ensures TargetIdentity(w).Some? ==> (p in TargetIdentity(w).value <==> Addresses(w, p))
    {
      TargetIff(v, p);
      TargetIff(w, p);
    }
    if SameFiles(v, w) {
      assert TargetIdentity(v).value == TargetIdentity(w).value;
    }
  }

  // --- What an attempt reports ---------------------------------------------------------------

  /** The invocation prepared by event `m`. */
  function InvocationAt(events: seq<Stored>, m: int): Option<Invocation> {
    if 1 <= m <= |events| && events[m - 1].event.Some? && events[m - 1].event.value.ToolPrepared? then
      events[m - 1].event.value.invocation
    else None
  }

  /** The attempt restates the events of its operation. */
  ghost predicate Restates(events: seq<Stored>, a: Attempt) {
    && PreparedBy(events, a.preparedSequence, a.operationId)
    && CommittedBy(events, a.outcomeSequence, a.operationId)
    && (forall q :: a.startedSequence == Some(q) <==> StartedBy(events, q, a.operationId))
    && InvocationAt(events, a.preparedSequence).Some?
    && var v, e := InvocationAt(events, a.preparedSequence).value, events[a.outcomeSequence - 1].event.value;
       && a.callId == v.callId && a.name == v.name && (a.name == Some("apply_patch") || a.name == Some("edit_file"))
       && e.outcome == Some(a.outcome) && e.revision == a.revision && a.revision != BadRevision
       && (a.success <==>
             a.outcome.invocation == Accepted && a.outcome.transport == TransportSucceeded
             && a.outcome.operation == OperationSucceeded)
  }

  lemma MadeRestates(events: seq<Stored>, f: Facts, op: string)
    requires FactsMatch(events, f) && op in f.committed && op in f.prepared && IsEdit(f, op)
    requires f.committed[op].revision != BadRevision
    ensures Restates(events, MakeAttempt(f, op))
    ensures var a := MakeAttempt(f, op);
            && InvocationAt(events, a.preparedSequence) == Some(f.prepared[op].invocation)
            && a.target == TargetIdentity(f.prepared[op].invocation)
  {
    assert PreparedBy(events, f.prepared[op].sequence, op);
    assert CommittedBy(events, f.committed[op].sequence, op);
    if op in f.started { assert StartedBy(events, f.started[op], op); }
  }

  /** Every attempt restates its events; its target is the one of the prepared invocation. */
  lemma AttemptRestates(events: seq<Stored>, i: nat)
    requires EditModel.Project(events).Ok? && i < |EditModel.Project(events).value.attempts|
    ensures var a := EditModel.Project(events).value.attempts[i];
            && Restates(events, a)
            && a.target == TargetIdentity(InvocationAt(events, a.preparedSequence).value)
  {
    ProjectParts(events);
    ReplayLanguage(events);
    var f := Replay(events).value;
    var base := BaseAttempts(f).value;
    var c := AttemptOrigin(f, |events|, i);
    assert base[i].revision != BadRevision;
    MadeRestates(events, f, f.commitOrder[c]);
    RestatesRecovered(events, base, f.requests, i);
  }

  lemma RestatesRecovered(events: seq<Stored>, base: seq<Attempt>, requests: seq<int>, i: nat)
    requires i < |base| && Restates(events, base[i])
    ensures var a := Recover(base, requests)[i];
            Restates(events, a) && a.target == base[i].target && a.preparedSequence == base[i].preparedSequence
  {
  }

  lemma CommitListed(events: seq<Stored>, f: Facts, m: int, op: string) returns (i: nat)
    requires FactsMatch(events, f) && OrderKnown(f) && CommitsOrdered(f) && CommittedBy(events, m, op)
    requires var name := events[m - 1].event.value.name; name == Some("apply_patch") || name == Some("edit_file")
    ensures var base := AttemptsUpTo(f, |f.commitOrder|);
            i < |base| && base[i].operationId == op && base[i].outcomeSequence == m
  {
    assert op in f.committed && f.committed[op].sequence == m;
    var c :| 0 <= c < |f.commitOrder| && f.commitOrder[c] == op;
    i := BaseHas(f, |f.commitOrder|, c);
  }

  /** Every outcome of an edit is an attempt. */
  lemma OutcomeIsAttempt(events: seq<Stored>, m: int, op: string) returns (i: nat)
    requires EditModel.Project(events).Ok? && CommittedBy(events, m, op)
    requires var name := events[m - 1].event.value.name; name == Some("apply_patch") || name == Some("edit_file")
    ensures var attempts := EditModel.Project(events).value.attempts;
            i < |attempts| && attempts[i].operationId == op && attempts[i].outcomeSequence == m
  {
    ProjectParts(events);
    ReplayLanguage(events);
    i := CommitListed(events, Replay(events).value, m, op);
  }

  /** The incomplete operations are the edits allowed to write that were started and have no outcome. */
  ghost predicate StartedUnsettled(events: seq<Stored>, op: string) {
    && (exists p :: PreparedBy(events, p, op) && events[p - 1].event.value.mayWrite
                    && InvocationAt(events, p).Some? && IsEditTool(InvocationAt(events, p).value.name))
    && (exists p :: StartedBy(events, p, op))
    && !exists p :: CommittedBy(events, p, op)
  }

  lemma IncompleteIff(events: seq<Stored>, op: string)
    requires EditModel.Project(events).Ok?
    ensures op in EditModel.Project(events).value.incomplete <==> StartedUnsettled(events, op)
  {
    ProjectParts(events);
    ReplayLanguage(events);
    var f := Replay(events).value;
    IncompleteMembers(f, |f.startOrder|, op);
    assert f.startOrder[..|f.startOrder|] == f.startOrder;
    if op in f.prepared { assert PreparedBy(events, f.prepared[op].sequence, op); }
    if op in f.started { assert StartedBy(events, f.started[op], op); }
    if op in f.committed { assert CommittedBy(events, f.committed[op].sequence, op); }
  }

  // --- Recovery, by files -------------------------------------------------------------------

  /**
    `b` succeeded with the same tool as `a`, on exactly the files that the prepared event of `a`
    addresses, and was prepared after a model request that follows the failure.
   */
  ghost predicate RepairsFiles(events: seq<Stored>, a: Attempt, b: Attempt) {
    && b.success && b.name == a.name
    && InvocationAt(events, a.preparedSequence).Some? && InvocationAt(events, b.preparedSequence).Some?
    && SameFiles(InvocationAt(events, a.preparedSequence).value, InvocationAt(events, b.preparedSequence).value)
    && RequestBetween(events, a, b)
  }

  lemma RepairsIff(events: seq<Stored>, i: nat, j: nat)
    requires EditModel.Project(events).Ok?
    requires var attempts := EditModel.Project(events).value.attempts;
             i < |attempts| && j < |attempts| && attempts[i].target.Some?
    ensures var attempts := EditModel.Project(events).value.attempts;
            Repairs(events, attempts[i], attempts[j]) <==> RepairsFiles(events, attempts[i], attempts[j])
  {
    var attempts := EditModel.Project(events).value.attempts;
    AttemptRestates(events, i);
    AttemptRestates(events, j);
    SameTargetIff(InvocationAt(events, attempts[i].preparedSequence).value,
                  InvocationAt(events, attempts[j].preparedSequence).value);
  }

  ghost predicate EarliestByFiles(events: seq<Stored>, attempts: seq<Attempt>, a: Attempt, j: nat) {
    && j < |attempts| && RepairsFiles(events, a, attempts[j])
    && forall k :: 0 <= k < j ==> !RepairsFiles(events, a, attempts[k])
  }

  lemma UnscorableIff(events: seq<Stored>, i: nat)
    requires EditModel.Project(events).Ok? && i < |EditModel.Project(events).value.attempts|
    ensures var a := EditModel.Project(events).value.attempts[i];
            && InvocationAt(events, a.preparedSequence).Some?
            && (a.target.Some? <==> AddressesFiles(InvocationAt(events, a.preparedSequence).value))
            && (a.recovery.Unscorable? <==> a.target.None?)
  {
    AttemptRestates(events, i);
    var a := EditModel.Project(events).value.attempts[i];
    TargetIff(InvocationAt(events, a.preparedSequence).value, "");
    ProjectParts(events);
    var f := Replay(events).value;
    var c := AttemptOrigin(f, |events|, i);
    ScanScores(BaseAttempts(f).value, f.requests, BaseAttempts(f).value[i], i + 1);
  }

  /**
    Recovery over the events: a failed edit is unscorable exactly when its prepared event addresses no
    file set. Otherwise it is recovered exactly when some success of the same tool, on exactly the same
    files, was prepared after a model request that follows the failure; the earliest one is named.
   */
  lemma RecoveryByFiles(events: seq<Stored>, i: nat)
    requires EditModel.Project(events).Ok? && i < |EditModel.Project(events).value.attempts|
    requires !EditModel.Project(events).value.attempts[i].success
    ensures var attempts := EditModel.Project(events).value.attempts;
            var a := attempts[i];
            && InvocationAt(events, a.preparedSequence).Some?
            && (a.recovery.Unscorable? <==> !AddressesFiles(InvocationAt(events, a.preparedSequence).value))
            && (a.recovery.RecoveredBy? <==>
                  exists j :: 0 <= j < |attempts| && RepairsFiles(events, a, attempts[j]))
            && (a.recovery.RecoveredBy? ==>
                  exists j: nat :: EarliestByFiles(events, attempts, a, j) && Names(events, a, attempts[j]))
  {
    var attempts := EditModel.Project(events).value.attempts;
    var a := attempts[i];
    UnscorableIff(events, i);
    if a.target.Some? {
      RecoveryIsDeclarative(events, i);
      forall j: nat | j < |attempts| ensures Repairs(events, a, attempts[j]) <==> RepairsFiles(events, a, attempts[j]) {
        RepairsIff(events, i, j);
      }
      if a.recovery.RecoveredBy? {
        var k: nat :| IsEarliest(events, attempts, a, k) && Names(events, a, attempts[k]);
        assert EarliestByFiles(events, attempts, a, k);
      }
    }
  }
}
