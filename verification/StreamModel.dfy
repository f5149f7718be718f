/**
  The stream receipt: an online monitor over the events a run prints, and the two
  verdicts derived from it. The receipt has three parts that barely interact: the
  envelope (terminal metadata, errors, done), the tool calls, and the child runs.
 */
module StreamModel {
  import opened Basics

  // --- Events -------------------------------------------------------------------

  /** A tool input, reduced to the three questions asked of it. `explorerFields` stands for the
      field-by-field comparison with the read-only explorer spawn. */
  datatype Input = NotAnObject | Object(hasActionOrOp: bool, explorerFields: bool)

  predicate CanonicalSpawn(input: Input) {
    input.Object? && !input.hasActionOrOp
  }

  predicate ExplorerSpawn(input: Input) {
    CanonicalSpawn(input) && input.explorerFields
  }

  datatype Terminal = Terminal(status: Option<string>, reason: Option<string>)

  /** Optional fields are absent or of the wrong type when `None`. */
  datatype Body =
    | Done
    | Metadata(terminal: Option<Terminal>)
    | Error(reason: Option<string>)
    | ChildStarted(callId: Option<string>, childRunId: Option<string>, depth: Option<int>)
    | ChildFinished(callId: Option<string>, childRunId: Option<string>, status: Option<string>,
                    resultPresent: Option<bool>)
    | ToolUse(id: Option<string>, name: Option<string>, input: Input)
    | ToolResult(id: Option<string>, name: Option<string>, status: Option<string>, applied: bool,
                 agentId: Option<string>)
    | OtherBody

  /** One line of the stream: not a JSON object, an object without a type, or a typed object. */
  datatype Event = NotAnEvent | Untyped | Typed(schemaOk: bool, body: Body)

  // --- The receipt ----------------------------------------------------------------

  datatype Envelope = Envelope(
    doneCount: nat,
    lastIsDone: bool,
    terminalCount: nat,
    terminal: Option<Terminal>,
    eventsAfterTerminal: nat,
    errorCount: nat,
    errorsBeforeTerminal: nat,
    errorReasons: seq<Option<string>>)

  datatype Started = Started(name: string, index: nat, lifecycle: nat)

  datatype Lifecycle = Lifecycle(useOrdinal: nat, name: string, status: Option<string>, resultOrdinal: Option<nat>)

  datatype Tools = Tools(
    firstName: Option<string>,
    firstIsExplorer: bool,
    duplicates: nat,
    orphans: nat,
    mismatches: nat,
    started: map<string, Started>,
    lifecycle: seq<Lifecycle>,
    agentCalls: nat,
    spawns: nat,
    explorerSpawns: nat,
    spawnSuccesses: nat,
    preHandoff: nat,
    writes: seq<nat>,
    mutations: seq<nat>,
    spawnIds: seq<string>,
    agentIds: seq<string>)

  type Child = (string, string)

  type Snapshot = Bytes

  datatype Children = Children(
    startedCount: nat,
    started: seq<Child>,
    startedAt: seq<nat>,
    depths: seq<int>,
    finishedCount: nat,
    finished: seq<Child>,
    finishedAt: seq<nat>,
    statuses: seq<string>,
    firstFinished: Option<nat>,
    resultProven: bool,
    snapshot: Option<Snapshot>,
    snapshotError: bool)

  datatype Receipt = Receipt(
    eventCount: nat,
    invalidLines: nat,
    schemaErrors: nat,
    envelope: Envelope,
    tools: Tools,
    children: Children)

  const NoEnvelope := Envelope(0, false, 0, None, 0, 0, 0, [])
  const NoTools := Tools(None, false, 0, 0, 0, map[], [], 0, 0, 0, 0, 0, [], [], [], [])
  const NoChildren := Children(0, [], [], [], 0, [], [], [], None, false, None, false)
  const EmptyReceipt := Receipt(0, 0, 0, NoEnvelope, NoTools, NoChildren)

  const WRITE_TOOLS := {"apply_patch", "edit_file", "exec_shell"}
  const MUTATION_TOOLS := {"apply_patch", "edit_file"}
  const CHILD_STATUSES := {"completed", "blocked", "failed", "cancelled", "interrupted", "recovery_required"}

  predicate IsName(s: Option<string>) {
    s.Some? && s.value != ""
  }

  // --- Envelope ---------------------------------------------------------------------

  function EnvelopeStep(v: Envelope, body: Body): Envelope {
    var v1 := v.(lastIsDone := body.Done?,
                 eventsAfterTerminal := v.eventsAfterTerminal
                   + if v.terminalCount > 0 && !body.Error? && !body.Done? then 1 else 0);
    match body
    case Done => v1.(doneCount := v.doneCount + 1)
    case Metadata(Some(t)) =>
      v1.(terminalCount := v.terminalCount + 1, terminal := if v.terminal.None? then Some(t) else v.terminal)
    case Error(reason) =>
      v1.(errorCount := v.errorCount + 1,
          errorsBeforeTerminal := v.errorsBeforeTerminal + if v.terminalCount == 0 then 1 else 0,
          errorReasons := v.errorReasons + [reason])
    case _ => v1
  }

  // --- Tool calls -----------------------------------------------------------------------

  /** A tool use the receipt records: its id is not already open. */
  function RecordUse(t: Tools, index: nat, handedOff: bool, id: string, name: string, input: Input): Tools {
    var explorer := name == "agent" && ExplorerSpawn(input);
    var calls := t.agentCalls + if name == "agent" then 1 else 0;
    var exempt := explorer && calls == 1;
    var spawn := name == "agent" && CanonicalSpawn(input);
    t.(lifecycle := t.lifecycle + [Lifecycle(index, name, None, None)],
       started := t.started[id := Started(name, index, |t.lifecycle|)],
       writes := t.writes + if name in WRITE_TOOLS then [index] else [],
       agentCalls := calls,
       preHandoff := t.preHandoff + if !handedOff && !exempt then 1 else 0,
       spawns := t.spawns + if spawn then 1 else 0,
       spawnIds := t.spawnIds + if spawn then [id] else [],
       explorerSpawns := t.explorerSpawns + if spawn && explorer then 1 else 0)
  }

  function OnUse(t: Tools, index: nat, handedOff: bool, id: string, name: string, input: Input): Tools {
    var t1 := if t.firstName.Some? then t
              else t.(firstName := Some(name), firstIsExplorer := name == "agent" && ExplorerSpawn(input));
    if id in t.started then t1.(duplicates := t.duplicates + 1)
    else RecordUse(t1, index, handedOff, id, name, input)
  }

  /** The lifecycle entry of a call whose result has arrived. */
  function Finish(l: Lifecycle, index: nat, status: Option<string>): Lifecycle {
    l.(status := Some(if status.Some? then status.value else "schema_error"), resultOrdinal := Some(index))
  }

  predicate SpawnAnswered(t: Tools, s: Started, id: string, status: Option<string>, agentId: Option<string>) {
    s.name == "agent" && status == Some("success") && id in t.spawnIds && IsName(agentId)
  }

  predicate Mutated(s: Started, status: Option<string>, applied: bool) {
    status == Some("success") && s.name in MUTATION_TOOLS && applied
  }

  function OnResult(t: Tools, index: nat, id: string, name: Option<string>, status: Option<string>, applied: bool,
                    agentId: Option<string>): Tools
  {
    if id !in t.started then t.(orphans := t.orphans + 1)
    else
      var s := t.started[id];
      var answered := SpawnAnswered(t, s, id, status, agentId);
      t.(started := t.started - {id},
         mismatches := t.mismatches + if name.Some? && name.value != s.name then 1 else 0,
         lifecycle := if s.lifecycle < |t.lifecycle| then
                        t.lifecycle[s.lifecycle := Finish(t.lifecycle[s.lifecycle], index, status)]
                      else t.lifecycle,
         mutations := t.mutations + if Mutated(s, status, applied) then [s.index] else [],
         spawnSuccesses := t.spawnSuccesses + if answered then 1 else 0,
         agentIds := t.agentIds + if answered then [agentId.value] else [])
  }

  function ToolStep(t: Tools, index: nat, handedOff: bool, body: Body): Tools {
    match body
    case ToolUse(Some(id), Some(name), input) => OnUse(t, index, handedOff, id, name, input)
    case ToolResult(Some(id), name, status, applied, agentId) => OnResult(t, index, id, name, status, applied, agentId)
    case _ => t
  }

  // --- Child runs -----------------------------------------------------------------------

  predicate ChildStartedOk(body: Body)
    requires body.ChildStarted?
  {
    IsName(body.callId) && IsName(body.childRunId) && body.depth.Some? && body.depth.value >= 1
  }

  predicate ChildFinishedOk(body: Body)
    requires body.ChildFinished?
  {
    && IsName(body.callId) && IsName(body.childRunId)
    && body.status.Some? && body.status.value in CHILD_STATUSES && body.resultPresent.Some?
  }

  /** `snapshot` is the workspace as read at this moment, `None` when it cannot be read. */
  function ChildStep(c: Children, index: nat, snapshot: Option<Snapshot>, body: Body): Children {
    match body
    case ChildStarted(callId, runId, depth) =>
      if !ChildStartedOk(body) then c
      else c.(startedCount := c.startedCount + 1,
              started := c.started + [(callId.value, runId.value)],
              startedAt := c.startedAt + [index],
              depths := c.depths + [depth.value])
    case ChildFinished(callId, runId, status, present) =>
      if !ChildFinishedOk(body) then c
      else
        var first := c.firstFinished.None?;
        c.(finishedCount := c.finishedCount + 1,
           finished := c.finished + [(callId.value, runId.value)],
           finishedAt := c.finishedAt + [index],
           statuses := c.statuses + [status.value],
           resultProven := c.resultProven || (status.value == "completed" && present.value),
           firstFinished := if first then Some(index) else c.firstFinished,
           snapshot := if first && snapshot.Some? then snapshot else c.snapshot,
           snapshotError := c.snapshotError || (first && snapshot.None?))
    case _ => c
  }

  // --- One event ---------------------------------------------------------------------------

  /** How many field-level schema errors the body is charged with. */
  function BodyFaults(t: Tools, body: Body): nat {
    match body
    case ChildStarted(_, _, _) => if ChildStartedOk(body) then 0 else 1
    case ChildFinished(_, _, _, _) => if ChildFinishedOk(body) then 0 else 1
    case ToolUse(id, name, _) => if id.None? || name.None? then 1 else 0
    case ToolResult(id, name, status, _, _) =>
      if id.None? then 1
      else if id.value !in t.started then 0
      else (if name.None? then 1 else 0) + (if status.None? then 1 else 0)
    case _ => 0
  }

  function Step(r: Receipt, e: Event, snapshot: Option<Snapshot>): Receipt {
    match e
    case NotAnEvent => r.(invalidLines := r.invalidLines + 1)
    case Untyped => r.(eventCount := r.eventCount + 1, schemaErrors := r.schemaErrors + 1)
    case Typed(schemaOk, body) =>
      var index := r.eventCount + 1;
      Receipt(index,
              r.invalidLines,
              r.schemaErrors + (if schemaOk then 0 else 1) + BodyFaults(r.tools, body),
              EnvelopeStep(r.envelope, body),
              ToolStep(r.tools, index, r.children.firstFinished.Some?, body),
              ChildStep(r.children, index, snapshot, body))
  }

  /** An event and the workspace snapshot that could be taken when it was processed. */
  datatype Line = Line(event: Event, snapshot: Option<Snapshot>)

  function Run(lines: seq<Line>): Receipt {
    if lines == [] then EmptyReceipt
    else
      var n := |lines| - 1;
      Step(Run(lines[..n]), lines[n].event, lines[n].snapshot)
  }

  // --- Protocol errors --------------------------------------------------------------------

  datatype ErrorCode =
    | InvalidJsonOrShape | StreamSchemaMismatch | StreamLineTooLarge | StreamTooLarge
    | DuplicateToolId | OrphanToolResult | ToolNameMismatch | ToolResultMissing
    | DuplicateChildStarted | DuplicateChildFinished | OrphanChildFinished | ChildLifecycleOutOfOrder
    | TerminalMetadataCount | DoneCount | DoneNotLast | EventAfterTerminalMetadata | ErrorBeforeTerminalMetadata
    | CompletedTerminalWithError | FailureTerminalStatusReasonMismatch | FailureErrorCount
    | ErrorTerminationReasonMismatch

  /** What the reader of the byte stream reports: lines too long, and too many bytes in all. */
  datatype Transport = Transport(oversizedLines: nat, overflow: bool)

  function Fault(raised: bool, code: ErrorCode): seq<ErrorCode> {
    if raised then [code] else []
  }

  const REASON_STATUS := map[
    "resolved" := "completed",
    "canceled" := "interrupted",
    "unresolved" := "failed",
    "timeout" := "failed",
    "budget_exhausted" := "failed",
    "model_error" := "failed",
    "infrastructure_error" := "failed"]

  function StatusOf(reason: string): Option<string> {
    if reason in REASON_STATUS then Some(REASON_STATUS[reason]) else None
  }

  predicate StatusReasonValid(t: Terminal) {
    t.reason.Some? && StatusOf(t.reason.value) == t.status
  }

  /** The index recorded last for this child, or one past every event. */
  function StartedAt(c: Children, eventCount: nat, child: Child, n: nat): nat
    requires n <= |c.started| && n <= |c.startedAt|
  {
    if n == 0 then eventCount + 1
    else if c.started[n - 1] == child then c.startedAt[n - 1]
    else StartedAt(c, eventCount, child, n - 1)
  }

  function Min(a: nat, b: nat): nat {
    if a <= b then a else b
  }

  predicate OutOfOrder(c: Children, eventCount: nat) {
    exists i :: 0 <= i < |c.finished| && i < |c.finishedAt|
      && StartedAt(c, eventCount, c.finished[i], Min(|c.started|, |c.startedAt|)) >= c.finishedAt[i]
  }

  predicate HasRepeats(s: seq<Child>) {
    exists i, j :: 0 <= i < j < |s| && s[i] == s[j]
  }

  function ToolErrors(t: Tools): seq<ErrorCode> {
    Fault(t.duplicates > 0, DuplicateToolId)
    + Fault(t.orphans > 0, OrphanToolResult)
    + Fault(t.mismatches > 0, ToolNameMismatch)
    + Fault(t.started != map[], ToolResultMissing)
  }

  function ChildErrors(c: Children, eventCount: nat): seq<ErrorCode> {
    Fault(HasRepeats(c.started), DuplicateChildStarted)
    + Fault(HasRepeats(c.finished), DuplicateChildFinished)
    + Fault(exists i :: 0 <= i < |c.finished| && c.finished[i] !in c.started, OrphanChildFinished)
    + Fault(OutOfOrder(c, eventCount), ChildLifecycleOutOfOrder)
  }

  function OutcomeErrors(v: Envelope, t: Terminal): seq<ErrorCode> {
    if t.status == Some("completed") then Fault(v.errorCount > 0, CompletedTerminalWithError)
    else
      Fault(!StatusReasonValid(t), FailureTerminalStatusReasonMismatch)
      + if v.errorCount != 1 then [FailureErrorCount]
        else Fault(v.errorReasons != [t.reason], ErrorTerminationReasonMismatch)
  }

  function EnvelopeErrors(v: Envelope): seq<ErrorCode> {
    Fault(v.terminalCount != 1, TerminalMetadataCount)
    + Fault(v.doneCount != 1, DoneCount)
    + Fault(!v.lastIsDone, DoneNotLast)
    + Fault(v.eventsAfterTerminal > 0, EventAfterTerminalMetadata)
    + Fault(v.errorsBeforeTerminal > 0, ErrorBeforeTerminalMetadata)
    + if v.terminalCount == 1 && v.terminal.Some? then OutcomeErrors(v, v.terminal.value) else []
  }

  function ProtocolErrors(r: Receipt, transport: Transport): seq<ErrorCode> {
    Fault(r.invalidLines > 0, InvalidJsonOrShape)
    + Fault(r.schemaErrors > 0, StreamSchemaMismatch)
    + Fault(transport.oversizedLines > 0, StreamLineTooLarge)
    + Fault(transport.overflow, StreamTooLarge)
    + ToolErrors(r.tools)
    + ChildErrors(r.children, r.eventCount)
    + EnvelopeErrors(r.envelope)
  }

  // --- The lane contract --------------------------------------------------------------------

  datatype Lane = Single | Multi

  function CountBelow(s: seq<nat>, bound: nat): nat {
    if s == [] then 0
    else CountBelow(s[..|s| - 1], bound) + if s[|s| - 1] < bound then 1 else 0
  }

  function CountAbove(s: seq<nat>, bound: nat): nat {
    if s == [] then 0
    else CountAbove(s[..|s| - 1], bound) + if s[|s| - 1] > bound then 1 else 0
  }

  function WritesBeforeHandoff(r: Receipt): nat {
    match r.children.firstFinished
    case Some(h) => CountBelow(r.tools.writes, h)
    case None => |r.tools.writes|
  }

  function MutationsAfterHandoff(r: Receipt): nat {
    match r.children.firstFinished
    case Some(h) => CountAbove(r.tools.mutations, h)
    case None => 0
  }

  /** The entries of the agent tool, in order. */
  function AgentLifecycles(ls: seq<Lifecycle>): seq<Lifecycle> {
    if ls == [] then []
    else AgentLifecycles(ls[..|ls| - 1]) + if ls[|ls| - 1].name == "agent" then [ls[|ls| - 1]] else []
  }

  predicate ReceiptsMatch(t: Tools, c: Children) {
    && |t.agentIds| == 1 && |c.started| == 1 && |c.finished| == 1 && |t.spawnIds| == 1
    && c.started[0].0 == t.spawnIds[0]
    && c.started[0] == c.finished[0]
    && t.agentIds[0] == c.started[0].1
  }

  predicate ReceiptsInOrder(t: Tools, c: Children) {
    var ls := AgentLifecycles(t.lifecycle);
    && |ls| == 1 && |c.startedAt| == 1 && |c.finishedAt| == 1
    && ls[0].resultOrdinal.Some?
    && ls[0].useOrdinal < c.startedAt[0] < ls[0].resultOrdinal.value < c.finishedAt[0]
  }

  predicate UnchangedAtHandoff(c: Children, initial: Option<Snapshot>) {
    initial.Some? && c.snapshot == initial && !c.snapshotError
  }

  datatype Reason =
    | FirstToolNotExplorer | NotOneAgentCall | NotOneExplorer | SpawnReceiptMissing | NotOneChildStarted
    | NotOneChildFinished | ChildNotCompleted | ReceiptMismatch | LifecycleOrderInvalid | DepthNotOne
    | RootToolBeforeHandoff | WorkspaceChanged | WriteBeforeHandoff | NoMutationAfterHandoff | ChildResultMissing

  function Objection(raised: bool, reason: Reason): seq<Reason> {
    if raised then [reason] else []
  }

  function LaneReasons(r: Receipt, initial: Option<Snapshot>): seq<Reason> {
    var t, c := r.tools, r.children;
    Objection(!t.firstIsExplorer, FirstToolNotExplorer)
    + Objection(t.agentCalls != 1, NotOneAgentCall)
    + Objection(t.spawns != 1 || t.explorerSpawns != 1, NotOneExplorer)
    + Objection(t.spawnSuccesses != 1 || |t.agentIds| != 1, SpawnReceiptMissing)
    + Objection(c.startedCount != 1 || |c.started| != 1, NotOneChildStarted)
    + Objection(c.finishedCount != 1 || |c.finished| != 1, NotOneChildFinished)
    + Objection(c.statuses != ["completed"], ChildNotCompleted)
    + Objection(!ReceiptsMatch(t, c), ReceiptMismatch)
    + Objection(!ReceiptsInOrder(t, c), LifecycleOrderInvalid)
    + Objection(c.depths != [1], DepthNotOne)
    + Objection(t.preHandoff > 0, RootToolBeforeHandoff)
    + Objection(!UnchangedAtHandoff(c, initial), WorkspaceChanged)
    + Objection(WritesBeforeHandoff(r) > 0, WriteBeforeHandoff)
    + Objection(MutationsAfterHandoff(r) < 1, NoMutationAfterHandoff)
    + Objection(!c.resultProven, ChildResultMissing)
  }

  predicate LanePassed(lane: Lane, r: Receipt, initial: Option<Snapshot>) {
    var t, c := r.tools, r.children;
    match lane
    case Single => t.agentCalls == 0 && t.spawns == 0 && c.startedCount == 0 && c.finishedCount == 0
    case Multi =>
      && LaneReasons(r, initial) == []
      && t.agentCalls == 1 && t.spawns == 1 && t.explorerSpawns == 1 && t.spawnSuccesses == 1
      && c.startedCount == 1 && c.finishedCount == 1
      && WritesBeforeHandoff(r) == 0 && MutationsAfterHandoff(r) >= 1
  }
}
