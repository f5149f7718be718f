/**
  The fault child and its inspection. Facts are made durable before anything is derived
  from them: whatever the fault and wherever the file is cut, the records that read back
  are a prefix of plan, terminal, reopen, verifier, then result or abort.
 */
module FaultPaths {
  import opened Basics
  import opened JournalModel
  import opened JournalCrash
  import opened ObserverJournal

  datatype Fault =
    | IdentityException
    | VerifierException
    | SurfaceException
    | AccountingException
    | TerminalBeforeWriteKill
    | TerminalMidWriteKill
    | TerminalAfterWriteBeforeFsyncKill
    | AfterTerminalFsyncKill
    | AfterReopenFsyncKill
    | AfterVerifierFsyncKill
    | BeforeResultKill

  /** How an observation goes: one of the faults, or to the end. */
  datatype Path = Faulty(fault: Fault) | Complete

  /** The fields of each record beside its type and its offline markers. */
  datatype Facts = Facts(
    plan: Payload, terminal: Payload, reopen: Payload, verifier: Payload, verifierError: Payload,
    abort: Payload, result: Payload)

  function Typed(recordType: string, fields: Payload): Payload {
    fields["record_type" := Str(recordType)]["key_accessed" := Bool(false)]["network_accessed" := Bool(false)]
  }

  const ORDER := ["plan", "terminal_snapshot", "sqlite_reopen_snapshot", "verifier_snapshot"]

  function AbortPayload(f: Facts, code: string): Payload {
    Typed("abort", f.abort["error_code" := Str(code)])
  }

  function FactRecords(f: Facts, verifierFailed: bool): seq<Payload> {
    [Typed("plan", f.plan), Typed("terminal_snapshot", f.terminal), Typed("sqlite_reopen_snapshot", f.reopen),
     Typed("verifier_snapshot", if verifierFailed then f.verifierError else f.verifier)]
  }

  /** How many fact records a path emits or is killed while emitting. */
  function Reach(path: Path): (n: nat)
    ensures 1 <= n <= 4
  {
    match path
    case Faulty(TerminalBeforeWriteKill) => 1
    case Faulty(TerminalMidWriteKill) => 2
    case Faulty(TerminalAfterWriteBeforeFsyncKill) => 2
    case Faulty(AfterTerminalFsyncKill) => 2
    case Faulty(AfterReopenFsyncKill) => 3
    case _ => 4
  }

  /** The result or the abort record, on the paths that come to one. */
  function Ending(f: Facts, path: Path): seq<Payload> {
    match path
    case Complete => [Typed("arm_result", f.result)]
    case Faulty(VerifierException) => [AbortPayload(f, "verifier_observer_failed")]
    case Faulty(IdentityException) => [AbortPayload(f, "run_identity_invalid")]
    case Faulty(SurfaceException) => [AbortPayload(f, "surface_identity_invalid")]
    case Faulty(AccountingException) => [AbortPayload(f, "accounting_incomplete")]
    case _ => []
  }

  function FactsOf(f: Facts, path: Path): (ps: seq<Payload>)
    ensures |ps| == 4
  {
    FactRecords(f, path == Faulty(VerifierException))
  }

  /** The payloads a path emits or is killed while emitting, in order. */
  function PlanOf(f: Facts, path: Path): seq<Payload> {
    FactsOf(f, path)[..Reach(path)] + Ending(f, path)
  }

  /** What is left in the file when every write succeeds: the plan, or one record and half of the next. */
  function Left(k: Codec, ps: seq<Payload>, path: Path): Bytes {
    if path == Faulty(TerminalMidWriteKill) && |ps| > 1 then
      Written(k, ps[..1]) + Half(EncodeRecord(k, 2, Head(k, ps[..1]), ps[1]).0)
    else Written(k, ps)
  }

  function LeftBy(k: Codec, f: Facts, path: Path): Bytes {
    Left(k, PlanOf(f, path), path)
  }

  datatype Exit = Exited(code: int) | KilledBySignal | RaisedError

  function ExitOf(path: Path): Exit {
    match path
    case Complete => Exited(0)
    case Faulty(IdentityException) => Exited(2)
    case Faulty(VerifierException) => Exited(2)
    case Faulty(SurfaceException) => Exited(2)
    case Faulty(AccountingException) => Exited(2)
    case _ => KilledBySignal
  }

  method EmitOne(journal: Journal, p: Payload, ghost all: seq<Payload>) returns (ok: bool)
    requires journal.Valid() && journal.payloads + [p] <= all && Offline(p)
    modifies journal, journal.file
    ensures ok ==> journal.Valid() && journal.payloads == old(journal.payloads) + [p]
    ensures !ok ==> journal.file.bytes <= Written(journal.k, all)
  {
    var r := journal.Emit(p, NoFault);
    ok := r.Emitted?;
    if !ok { WrittenPrefix(journal.k, journal.payloads + [p], all); }
  }

  /** Emits the given payloads one after another; stops at the first that raises. */
  method EmitAll(journal: Journal, ps: seq<Payload>, ghost all: seq<Payload>) returns (ok: bool)
    requires journal.Valid() && journal.payloads + ps <= all
    requires forall i :: 0 <= i < |ps| ==> Offline(ps[i])
    modifies journal, journal.file
    ensures ok ==> journal.Valid() && journal.payloads == old(journal.payloads) + ps
    ensures !ok ==> journal.file.bytes <= Written(journal.k, all)
  {
    for i := 0 to |ps|
      invariant journal.Valid() && journal.payloads == old(journal.payloads) + ps[..i]
    {
      assert ps[..i + 1] == ps[..i] + [ps[i]];
      assert journal.payloads + [ps[i]] == old(journal.payloads) + ps[..i + 1];
      ok := EmitOne(journal, ps[i], all);
      if !ok { return; }
    }
    assert ps[..|ps|] == ps;
    ok := true;
  }

  lemma WrittenPrefix(k: Codec, ps: seq<Payload>, all: seq<Payload>)
    requires ps <= all
    ensures Written(k, ps) <= Written(k, all)
  {
    assert ps == all[..|ps|];
    WrittenGrows(k, all, |ps|);
  }

  /** The body of the child: the facts up to where the path is killed, then what is derived from them. */
  method EmitPath(journal: Journal, facts: seq<Payload>, ending: seq<Payload>, path: Path) returns (exit: Exit)
    requires journal.Valid() && journal.payloads == [] && |facts| == 4
    requires forall i :: 0 <= i < |facts| ==> Offline(facts[i])
    requires forall i :: 0 <= i < |ending| ==> Offline(ending[i])
    requires Reach(path) < 4 || path == Faulty(AfterVerifierFsyncKill) || path == Faulty(BeforeResultKill) ==>
      ending == []
    modifies journal, journal.file
    ensures exit == RaisedError || exit == ExitOf(path)
    ensures exit != RaisedError ==>
      journal.file.bytes == Left(journal.k, facts[..Reach(path)] + ending, path)
    ensures exit == RaisedError ==>
      journal.file.bytes <= Written(journal.k, facts[..Reach(path)] + ending)
  {
    if path == Faulty(TerminalMidWriteKill) || path == Faulty(TerminalAfterWriteBeforeFsyncKill) {
      assert facts[..2] + ending == facts[..2];
      exit := EmitTerminalKilled(journal, facts, path);
    } else if Reach(path) < 4 {
      assert facts[..Reach(path)] + ending == facts[..Reach(path)];
      assert [] + facts[..Reach(path)] == facts[..Reach(path)];
      var ok := EmitAll(journal, facts[..Reach(path)], facts[..Reach(path)]);
      return if ok then KilledBySignal else RaisedError;
    } else {
      assert facts[..4] == facts;
      assert [] + facts[..3] == facts[..3] && facts[..3] <= facts + ending;
      var ok := EmitAll(journal, facts[..3], facts + ending);
      if !ok { return RaisedError; }
      exit := EmitRest(journal, facts, ending, path);
    }
  }

  /** The plan, and the terminal snapshot on the two paths killed inside its emit. */
  method EmitTerminalKilled(journal: Journal, facts: seq<Payload>, path: Path) returns (exit: Exit)
    requires |facts| == 4 && Offline(facts[0]) && Offline(facts[1]) && journal.Valid() && journal.payloads == []
    requires path == Faulty(TerminalMidWriteKill) || path == Faulty(TerminalAfterWriteBeforeFsyncKill)
    modifies journal, journal.file
    ensures exit == RaisedError || exit == ExitOf(path)
    ensures exit != RaisedError ==> journal.file.bytes == Left(journal.k, facts[..2], path)
    ensures exit == RaisedError ==> journal.file.bytes <= Written(journal.k, facts[..2])
  {
    var ps := facts[..2];
    assert [] + [ps[0]] == ps[..1];
    var ok := EmitOne(journal, ps[0], ps);
    if !ok { return RaisedError; }
    exit := EmitKilled(journal, ps, path);
  }

  /** The second record, killed inside its emit. */
  method EmitKilled(journal: Journal, ps: seq<Payload>, path: Path) returns (exit: Exit)
    requires |ps| == 2 && Offline(ps[1]) && journal.Valid() && journal.payloads == ps[..1]
    requires path == Faulty(TerminalMidWriteKill) || path == Faulty(TerminalAfterWriteBeforeFsyncKill)
    modifies journal, journal.file
    ensures exit == RaisedError || exit == ExitOf(path)
    ensures exit != RaisedError ==> journal.file.bytes == Left(journal.k, ps, path)
    ensures exit == RaisedError ==> journal.file.bytes <= Written(journal.k, ps)
  {
    var fault := if path == Faulty(TerminalMidWriteKill) then MidWriteKill else AfterWriteBeforeFsyncKill;
    assert ps[..1] + [ps[1]] == ps;
    var r := journal.Emit(ps[1], fault);
    return if r.Killed? then KilledBySignal else RaisedError;
  }

  /** The verifier snapshot, and the result or abort on the paths that come to one. */
  method EmitRest(journal: Journal, facts: seq<Payload>, ending: seq<Payload>, path: Path) returns (exit: Exit)
    requires |facts| == 4 && journal.Valid() && journal.payloads == facts[..3] && Reach(path) == 4
    requires Offline(facts[3]) && forall i :: 0 <= i < |ending| ==> Offline(ending[i])
    requires path == Faulty(AfterVerifierFsyncKill) || path == Faulty(BeforeResultKill) ==> ending == []
    modifies journal, journal.file
    ensures exit == RaisedError || exit == ExitOf(path)
    ensures exit != RaisedError ==> journal.file.bytes == Written(journal.k, facts + ending)
    ensures exit == RaisedError ==> journal.file.bytes <= Written(journal.k, facts + ending)
  {
    var ok := EmitAll(journal, facts[3..], facts + ending);
    if !ok { return RaisedError; }
    assert facts[..3] + facts[3..] == facts;
    if path == Faulty(AfterVerifierFsyncKill) || path == Faulty(BeforeResultKill) {
      assert facts + ending == facts;
      return KilledBySignal;
    }
    ok := EmitAll(journal, ending, facts + ending);
    return if ok then ExitOf(path) else RaisedError;
  }

  /** The child process for one path. `RaisedError` is a failed write. */
  method RunFaultChild(k: Codec, f: Facts, path: Path) returns (journal: Journal, exit: Exit)
    ensures exit == RaisedError || exit == ExitOf(path)
    ensures exit != RaisedError ==> journal.file.bytes == LeftBy(k, f, path)
    ensures exit == RaisedError ==> journal.file.bytes <= Written(k, PlanOf(f, path))
  {
    journal := new Journal.Claim(k);
    exit := EmitPath(journal, FactsOf(f, path), Ending(f, path), path);
  }

  // --- What can be read back ----------------------------------------------------------

  function PayloadType(record: Json): Option<Json> {
    if record.Obj? && "payload" in record.fields && record.fields["payload"].Obj? then
      Field(record.fields["payload"].fields, "record_type")
    else None
  }

  function PayloadTypes(audit: Audit): seq<Option<Json>> {
    seq(|audit.records|, i requires 0 <= i < |audit.records| => PayloadType(audit.records[i]))
  }

  /** The five record types of a path in their durable order. */
  function DurableOrder(path: Path): seq<string> {
    ORDER + [if path == Complete then "arm_result" else "abort"]
  }

  lemma RecordType(k: Codec, ps: seq<Payload>, i: nat, recordType: string)
    requires i < |ps| && Field(ps[i], "record_type") == Some(Str(recordType))
    ensures PayloadType(Records(k, ps)[i]) == Some(Str(recordType))
  {
  }

  lemma PlanTypes(f: Facts, path: Path, i: nat)
    requires i < |PlanOf(f, path)|
    ensures |PlanOf(f, path)| <= 5 && Field(PlanOf(f, path)[i], "record_type") == Some(Str(DurableOrder(path)[i]))
  {
    if i < 4 { assert PlanOf(f, path)[i] == FactsOf(f, path)[i]; }
  }

  /**
    Durable order under crash: on every path and for every cut of what it writes, the records
    read back are the first `j` of plan, terminal, reopen, verifier, result or abort.
   */
  lemma DurableUnderCrash(k: Codec, f: Facts, path: Path, cut: nat, j: nat)
    requires Lawful(k) && Survive(k, PlanOf(f, path), cut, j)
    ensures var audit := ReadJournal(k, Written(k, PlanOf(f, path))[..cut], true);
            && audit.Ok? && j <= 5 && |PayloadTypes(audit.value)| == j
            && forall i :: 0 <= i < j ==> PayloadTypes(audit.value)[i] == Some(Str(DurableOrder(path)[i]))
  {
    var ps := PlanOf(f, path);
    CrashRecovery(k, ps, cut, j);
    var audit := ReadJournal(k, Written(k, ps)[..cut], true).value;
    forall i | 0 <= i < j ensures j <= 5 && PayloadTypes(audit)[i] == Some(Str(DurableOrder(path)[i])) {
      PlanTypes(f, path, i);
      RecordType(k, ps, i, DurableOrder(path)[i]);
    }
  }

  /** Only the last place of the durable order can hold a result, and only on the complete path. */
  lemma ResultPlace(path: Path, i: nat)
    requires i < 5 && DurableOrder(path)[i] == "arm_result"
    ensures i == 4 && path == Complete
  {
    assert |"abort"| == 5 && |"arm_result"| == 10;
    assert ORDER[0][0] == 'p' && ORDER[1][0] == 't' && ORDER[2][0] == 's' && ORDER[3][0] == 'v';
  }

  /** A derived result never reads back without all three facts, and the plan, before it. */
  lemma ResultAfterFacts(k: Codec, f: Facts, path: Path, cut: nat, audit: Audit, i: nat)
    requires Lawful(k) && cut <= |Written(k, PlanOf(f, path))|
    requires ReadJournal(k, Written(k, PlanOf(f, path))[..cut], true) == Ok(audit)
    requires i < |PayloadTypes(audit)| && PayloadTypes(audit)[i] == Some(Str("arm_result"))
    ensures i == 4 && path == Complete
    ensures PayloadTypes(audit)[1] == Some(Str("terminal_snapshot"))
         && PayloadTypes(audit)[2] == Some(Str("sqlite_reopen_snapshot"))
         && PayloadTypes(audit)[3] == Some(Str("verifier_snapshot"))
  {
    var j := SomeSurvive(k, PlanOf(f, path), cut);
    DurableUnderCrash(k, f, path, cut, j);
    assert PayloadTypes(audit)[i] == Some(Str(DurableOrder(path)[i]));
    ResultPlace(path, i);
  }

  // --- What the records say ---------------------------------------------------------------

  function PayloadOf(record: Json): Payload {
    if record.Obj? && "payload" in record.fields && record.fields["payload"].Obj? then record.fields["payload"].fields
    else map[]
  }

  lemma RecordPayload(k: Codec, ps: seq<Payload>, i: nat)
    requires i < |ps|
    ensures PayloadOf(Records(k, ps)[i]) == ps[i]
  {
  }

  /** The error code of each fault that is raised rather than a kill. */
  const ABORT_CODES := map[
    IdentityException := "run_identity_invalid",
    VerifierException := "verifier_observer_failed",
    SurfaceException := "surface_identity_invalid",
    AccountingException := "accounting_incomplete"]

  /** The payload that belongs at each place of the journal. */
  predicate Belongs(f: Facts, path: Path, i: nat, p: Payload) {
    if i == 0 then p == Typed("plan", f.plan)
    else if i == 1 then p == Typed("terminal_snapshot", f.terminal)
    else if i == 2 then p == Typed("sqlite_reopen_snapshot", f.reopen)
    else if i == 3 && path == Faulty(VerifierException) then p == Typed("verifier_snapshot", f.verifierError)
    else if i == 3 then p == Typed("verifier_snapshot", f.verifier)
    else if i == 4 && path == Complete then p == Typed("arm_result", f.result)
    else
      && i == 4 && path.Faulty? && path.fault in ABORT_CODES
      && p == Typed("abort", f.abort["error_code" := Str(ABORT_CODES[path.fault])])
  }

  lemma PlanBelongs(f: Facts, path: Path, i: nat)
    requires i < |PlanOf(f, path)|
    ensures Belongs(f, path, i, PlanOf(f, path)[i])
  {
    var n := Reach(path);
    if i < n {
      assert PlanOf(f, path)[i] == FactsOf(f, path)[i];
    } else {
      assert PlanOf(f, path)[i] == Ending(f, path)[i - n];
    }
  }

  /**
    For every path, every crash byte and every record that reads back: its payload is the fact of its
    place. The verifier's error is there on the verifier fault and on no other path, and an abort
    carries the code of its own fault.
   */
  lemma PayloadsUnderCrash(k: Codec, f: Facts, path: Path, cut: nat, j: nat, i: nat)
    requires Lawful(k) && Survive(k, PlanOf(f, path), cut, j) && i < j
    ensures var audit := ReadJournal(k, Written(k, PlanOf(f, path))[..cut], true);
            audit.Ok? && |audit.value.records| == j && Belongs(f, path, i, PayloadOf(audit.value.records[i]))
  {
    var ps := PlanOf(f, path);
    CrashRecovery(k, ps, cut, j);
    RecordPayload(k, ps, i);
    PlanBelongs(f, path, i);
  }

  /** Whether the record at each place is written whole on this path. */
  predicate IsLeft(path: Path, i: nat) {
    match i
    case 0 => true
    case 1 => path !in {Faulty(TerminalBeforeWriteKill), Faulty(TerminalMidWriteKill)}
    case 2 =>
      IsLeft(path, 1) && path !in {Faulty(TerminalAfterWriteBeforeFsyncKill), Faulty(AfterTerminalFsyncKill)}
    case 3 => IsLeft(path, 2) && path != Faulty(AfterReopenFsyncKill)
    case 4 => path == Complete || path.fault in ABORT_CODES
    case _ => false
  }

  lemma PlanIsLeft(f: Facts, path: Path, i: nat)
    ensures var n := if path == Faulty(TerminalMidWriteKill) then 1 else |PlanOf(f, path)|;
            i < n <==> IsLeft(path, i)
  {
    match path
    case Complete =>
    case Faulty(fault) =>
      match fault {
        case IdentityException =>
        case VerifierException =>
        case SurfaceException =>
        case AccountingException =>
        case TerminalBeforeWriteKill =>
        case TerminalMidWriteKill =>
        case TerminalAfterWriteBeforeFsyncKill =>
        case AfterTerminalFsyncKill =>
        case AfterReopenFsyncKill =>
        case AfterVerifierFsyncKill =>
        case BeforeResultKill =>
      }
  }

  /** What a path leaves when every write succeeds: exactly the records before its fault, each with its fact. */
  lemma RecordsLeft(k: Codec, f: Facts, path: Path, i: nat)
    requires Lawful(k)
    ensures var audit := ReadJournal(k, LeftBy(k, f, path), true);
            && audit.Ok?
            && (i < |audit.value.records| <==> IsLeft(path, i))
            && (i < |audit.value.records| ==> Belongs(f, path, i, PayloadOf(audit.value.records[i])))
            && (audit.value.partialTailBytes > 0 <==> path == Faulty(TerminalMidWriteKill))
  {
    var cut, j := LeftCut(k, f, path);
    PlanIsLeft(f, path, i);
    CrashRecovery(k, PlanOf(f, path), cut, j);
    if i < j { PayloadsUnderCrash(k, f, path, cut, j, i); }
  }

  // --- A completed observation ------------------------------------------------------------

  /** All five records in order, with nothing after the last newline. */
  predicate CompletedOrder(audit: Audit) {
    && |PayloadTypes(audit)| == 5
    && (forall i :: 0 <= i < 5 ==> PayloadTypes(audit)[i] == Some(Str(DurableOrder(Complete)[i])))
    && audit.complete && audit.partialTailBytes == 0
  }

  predicate AgreeOn(t: Payload, r: Payload, name: string) {
    name in t && name in r && t[name] == r[name]
  }

  /** What the store said at the terminal is what it said after reopening. */
  predicate Reopened(t: Payload, r: Payload) {
    AgreeOn(t, r, "canonical_store_facts") && AgreeOn(t, r, "run_view_sha256") && AgreeOn(t, r, "events_sha256")
  }

  predicate ValidCompleted(audit: Audit) {
    CompletedOrder(audit) && |audit.records| == 5
    && Reopened(PayloadOf(audit.records[1]), PayloadOf(audit.records[2]))
  }

  /** A cut that keeps everything is the end of the file, and the other way round. */
  lemma WholeFile(k: Codec, ps: seq<Payload>, cut: nat, j: nat)
    requires Survive(k, ps, cut, j)
    ensures j == |ps| <==> cut == |Written(k, ps)|
  {
    assert ps[..|ps|] == ps;
    if j < |ps| { WrittenGrows(k, ps, j + 1); }
  }

  lemma OrderIff(path: Path, audit: Audit, j: nat)
    requires |PayloadTypes(audit)| == j <= 5
    requires forall i :: 0 <= i < j ==> PayloadTypes(audit)[i] == Some(Str(DurableOrder(path)[i]))
    requires j == 5 ==> audit.complete && audit.partialTailBytes == 0
    ensures CompletedOrder(audit) <==> j == 5 && path == Complete
  {
    if CompletedOrder(audit) {
      assert PayloadTypes(audit)[4] == Some(Str(DurableOrder(path)[4])) == Some(Str("arm_result"));
      ResultPlace(path, 4);
    }
  }

  /** Type and markers of a record leave its other fields alone. */
  lemma TypedKeeps(f: Facts, name: string)
    requires name !in ["record_type", "key_accessed", "network_accessed"]
    ensures AgreeOn(Typed("terminal_snapshot", f.terminal), Typed("sqlite_reopen_snapshot", f.reopen), name) <==>
      AgreeOn(f.terminal, f.reopen, name)
  {
  }

  /**
    For every path and every crash byte, what is read back validates as a completed observation
    exactly when the path is the complete one, nothing was cut off, and the reopened facts agree.
   */
  lemma CompletedIff(k: Codec, f: Facts, path: Path, cut: nat, audit: Audit)
    requires Lawful(k) && cut <= |Written(k, PlanOf(f, path))|
    requires ReadJournal(k, Written(k, PlanOf(f, path))[..cut], true) == Ok(audit)
    ensures ValidCompleted(audit) <==>
      && path == Complete && cut == |Written(k, PlanOf(f, path))|
      && AgreeOn(f.terminal, f.reopen, "canonical_store_facts") && AgreeOn(f.terminal, f.reopen, "run_view_sha256")
      && AgreeOn(f.terminal, f.reopen, "events_sha256")
  {
    TypedKeeps(f, "canonical_store_facts");
    TypedKeeps(f, "run_view_sha256");
    TypedKeeps(f, "events_sha256");
    var ps := PlanOf(f, path);
    var j := SomeSurvive(k, ps, cut);
    OrderUnderCrash(k, f, path, cut, j, audit);
    WholeFile(k, ps, cut, j);
    FiveRecords(k, f, path, cut, j);
    if j == 5 { ReopenedUnderCrash(k, f, path, cut, audit); }
  }

  lemma OrderUnderCrash(k: Codec, f: Facts, path: Path, cut: nat, j: nat, audit: Audit)
    requires Lawful(k) && Survive(k, PlanOf(f, path), cut, j)
    requires ReadJournal(k, Written(k, PlanOf(f, path))[..cut], true) == Ok(audit)
    ensures CompletedOrder(audit) <==> j == 5 && path == Complete
  {
    DurableUnderCrash(k, f, path, cut, j);
    CrashRecovery(k, PlanOf(f, path), cut, j);
    FiveRecords(k, f, path, cut, j);
    assert j == 5 ==> PlanOf(f, path)[..j] == PlanOf(f, path);
    OrderIff(path, audit, j);
  }

  lemma WholeUnderCrash(k: Codec, ps: seq<Payload>, cut: nat, audit: Audit)
    requires Lawful(k) && |ps| == 5 && Survive(k, ps, cut, 5)
    requires ReadJournal(k, Written(k, ps)[..cut], true) == Ok(audit)
    ensures audit.records == Records(k, ps)
  {
    CrashRecovery(k, ps, cut, 5);
    assert Records(k, ps)[..5] == Records(k, ps);
  }

  lemma ReopenedUnderCrash(k: Codec, f: Facts, path: Path, cut: nat, audit: Audit)
    requires Lawful(k) && Survive(k, PlanOf(f, path), cut, 5)
    requires ReadJournal(k, Written(k, PlanOf(f, path))[..cut], true) == Ok(audit)
    ensures |audit.records| == 5
    ensures PayloadOf(audit.records[1]) == Typed("terminal_snapshot", f.terminal)
    ensures PayloadOf(audit.records[2]) == Typed("sqlite_reopen_snapshot", f.reopen)
  {
    FiveRecords(k, f, path, cut, 5);
    WholeUnderCrash(k, PlanOf(f, path), cut, audit);
    PlannedPayloads(k, f, path);
  }

  lemma PlannedPayloads(k: Codec, f: Facts, path: Path)
    requires |PlanOf(f, path)| == 5
    ensures var rs := Records(k, PlanOf(f, path));
            && PayloadOf(rs[1]) == Typed("terminal_snapshot", f.terminal)
            && PayloadOf(rs[2]) == Typed("sqlite_reopen_snapshot", f.reopen)
  {
    var ps := PlanOf(f, path);
    RecordPayload(k, ps, 1);
    RecordPayload(k, ps, 2);
    assert ps[1] == FactsOf(f, path)[1] && ps[2] == FactsOf(f, path)[2];
  }

  /** Five records survive only whole, and the complete path plans five. */
  lemma FiveRecords(k: Codec, f: Facts, path: Path, cut: nat, j: nat)
    requires Survive(k, PlanOf(f, path), cut, j)
    ensures j == 5 ==> |PlanOf(f, path)| == 5 && cut == |Written(k, PlanOf(f, path))| && cut > 0
    ensures path == Complete ==> |PlanOf(f, path)| == 5
  {
    var ps := PlanOf(f, path);
    if j == 5 {
      WholeFile(k, ps, cut, j);
      assert ps[..5] == ps;
      assert Written(k, ps) == Written(k, ps[..4]) + EncodeRecord(k, 5, Head(k, ps[..4]), ps[4]).0;
    }
  }

  // --- The inspection of a fault child ----------------------------------------------------

  predicate IsKill(fault: Fault) {
    !fault.IdentityException? && !fault.VerifierException? && !fault.SurfaceException? && !fault.AccountingException?
  }

  predicate HasType(types: seq<Option<Json>>, recordType: string) {
    Some(Str(recordType)) in types
  }

  /** The requirements placed on the journal and exit status a fault leaves behind. */
  predicate Inspect(fault: Fault, audit: Audit, exit: Exit) {
    var types := PayloadTypes(audit);
    && types != [] && types[0] == Some(Str("plan"))
    && !HasType(types, "arm_result")
    && exit == (if IsKill(fault) then KilledBySignal else Exited(2))
    && (match fault
        case TerminalBeforeWriteKill => types == [Some(Str("plan"))]
        case TerminalMidWriteKill => types == [Some(Str("plan"))] && audit.partialTailBytes > 0
        case _ => HasType(types, "terminal_snapshot"))
    && (fault in {AfterReopenFsyncKill, AfterVerifierFsyncKill, BeforeResultKill, IdentityException,
                  VerifierException, SurfaceException, AccountingException} ==>
          HasType(types, "sqlite_reopen_snapshot"))
    && (fault in {AfterVerifierFsyncKill, BeforeResultKill, IdentityException, VerifierException,
                  SurfaceException, AccountingException} ==>
          HasType(types, "verifier_snapshot"))
    && (!IsKill(fault) ==> types[|types| - 1] == Some(Str("abort")))
  }

  /** How many whole records a fault leaves, and where the file ends. */
  lemma LeftCut(k: Codec, f: Facts, path: Path) returns (cut: nat, j: nat)
    requires Lawful(k)
    ensures var ps := PlanOf(f, path);
            && Survive(k, ps, cut, j) && LeftBy(k, f, path) == Written(k, ps)[..cut]
            && j == (if path == Faulty(TerminalMidWriteKill) then 1 else |ps|)
            && (path == Faulty(TerminalMidWriteKill) ==> cut > |Written(k, ps[..1])|)
  {
    var ps := PlanOf(f, path);
    if path == Faulty(TerminalMidWriteKill) {
      var line := LineAt(k, ps, 1) + [NEWLINE];
      j, cut := 1, |Written(k, ps[..1])| + |Half(line)|;
      WrittenNext(k, ps, 1);
      assert ps[..2] == ps && k.canonical(Record(k, CoreAt(k, ps, 1))) != [];
      assert Written(k, ps)[..cut] == Written(k, ps[..1]) + line[..|Half(line)|];
    } else {
      j, cut := |ps|, |Written(k, ps)|;
      assert ps[..j] == ps;
    }
  }

  /** Which record types read back, by how many records there are. */
  lemma TypesIff(path: Path, types: seq<Option<Json>>, j: nat)
    requires 1 <= j <= 5 && |types| == j
    requires forall i :: 0 <= i < j ==> types[i] == Some(Str(DurableOrder(path)[i]))
    ensures types[0] == Some(Str("plan")) && (types == [Some(Str("plan"))] <==> j == 1)
    ensures HasType(types, "terminal_snapshot") <==> j >= 2
    ensures HasType(types, "sqlite_reopen_snapshot") <==> j >= 3
    ensures HasType(types, "verifier_snapshot") <==> j >= 4
    ensures HasType(types, "arm_result") <==> j == 5 && path == Complete
    ensures types[j - 1] == Some(Str("abort")) <==> j == 5 && path != Complete
  {
    assert "arm_result"[..2] == "ar" && "abort"[..2] == "ab" && ORDER[0][0] == 'p' && ORDER[1][0] == 't'
        && ORDER[2][0] == 's' && ORDER[3][0] == 'v';
    assert j >= 2 ==> types[1] == Some(Str("terminal_snapshot"));
    assert j >= 3 ==> types[2] == Some(Str("sqlite_reopen_snapshot"));
    assert j >= 4 ==> types[3] == Some(Str("verifier_snapshot"));
    assert j == 5 ==> types[4] == Some(Str(DurableOrder(path)[4]));
  }

  /** How many records a path leaves whole. */
  function Whole(path: Path): (n: nat)
    ensures 1 <= n <= 5 && forall i: nat :: i < n <==> IsLeft(path, i)
  {
    if !IsLeft(path, 1) then 1
    else if !IsLeft(path, 2) then 2
    else if !IsLeft(path, 3) then 3
    else if !IsLeft(path, 4) then 4
    else 5
  }

  /** The path is a fault of the same kind, and got at least as far; before the terminal fact, exactly as far. */
  predicate PassesAs(fault: Fault, path: Path) {
    && path.Faulty? && IsKill(fault) == IsKill(path.fault)
    && match fault
       case TerminalBeforeWriteKill => !IsLeft(path, 1)
       case TerminalMidWriteKill => path.fault == TerminalMidWriteKill
       case _ => Whole(Faulty(fault)) <= Whole(path)
  }

  /** The inspection sees how many records there are, how the child ended and whether there is a tail. */
  predicate Counts(fault: Fault, path: Path, j: nat) {
    && path != Complete && ExitOf(path) == (if IsKill(fault) then KilledBySignal else Exited(2))
    && (match fault
        case TerminalBeforeWriteKill => j == 1
        case TerminalMidWriteKill => j == 1 && path == Faulty(TerminalMidWriteKill)
        case _ => j >= 2)
    && (fault in {AfterReopenFsyncKill, AfterVerifierFsyncKill, BeforeResultKill} || !IsKill(fault) ==> j >= 3)
    && (fault in {AfterVerifierFsyncKill, BeforeResultKill} || !IsKill(fault) ==> j >= 4)
    && (!IsKill(fault) ==> j == 5)
  }

  lemma InspectionCounts(fault: Fault, path: Path, audit: Audit, j: nat)
    requires 1 <= j <= 5 && |PayloadTypes(audit)| == j && (path == Complete ==> j == 5)
    requires forall i :: 0 <= i < j ==> PayloadTypes(audit)[i] == Some(Str(DurableOrder(path)[i]))
    requires audit.partialTailBytes > 0 <==> path == Faulty(TerminalMidWriteKill)
    ensures Inspect(fault, audit, ExitOf(path)) <==> Counts(fault, path, j)
  {
    TypesIff(path, PayloadTypes(audit), j);
  }

  lemma CountsPass(fault: Fault, path: Path)
    ensures Counts(fault, path, Whole(path)) <==> PassesAs(fault, path)
  {
  }

  /** The inspection of a fault accepts what a path leaves exactly in those cases. */
  lemma InspectionIff(k: Codec, f: Facts, fault: Fault, path: Path)
    requires Lawful(k)
    ensures var audit := ReadJournal(k, LeftBy(k, f, path), true);
            audit.Ok? && (Inspect(fault, audit.value, ExitOf(path)) <==> PassesAs(fault, path))
  {
    var cut, j := LeftCut(k, f, path);
    CrashRecovery(k, PlanOf(f, path), cut, j);
    DurableUnderCrash(k, f, path, cut, j);
    RecordsLeft(k, f, path, 0);
    var audit := ReadJournal(k, LeftBy(k, f, path), true).value;
    PlanIsLeft(f, path, j);
    PlanIsLeft(f, path, j - 1);
    assert j == Whole(path);
    InspectionCounts(fault, path, audit, j);
    CountsPass(fault, path);
  }

  /** Every fault leaves a journal that passes its own inspection. */
  lemma FaultsPassInspection(k: Codec, f: Facts, fault: Fault)
    requires Lawful(k)
    ensures var audit := ReadJournal(k, LeftBy(k, f, Faulty(fault)), true);
            audit.Ok? && Inspect(fault, audit.value, ExitOf(Faulty(fault)))
  {
    InspectionIff(k, f, fault, Faulty(fault));
  }
}
