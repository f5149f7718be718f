/** The receipt as the harness keeps it: an object that every processed event updates in place. */
module StreamReceiptObject {
  import opened Basics
  import opened StreamModel

  class StreamReceipt {
    var eventCount: nat
    var invalidLines: nat
    var schemaErrors: nat
    var envelope: Envelope
    var tools: Tools
    var children: Children

    function View(): Receipt
      reads this
    {
      Receipt(eventCount, invalidLines, schemaErrors, envelope, tools, children)
    }

    constructor ()
      ensures View() == EmptyReceipt
    {
      eventCount, invalidLines, schemaErrors := 0, 0, 0;
      envelope, tools, children := NoEnvelope, NoTools, NoChildren;
    }

    method NoteEnvelope(body: Body)
      modifies `envelope
      ensures envelope == EnvelopeStep(old(envelope), body)
    {
      var v := envelope.(lastIsDone := body.Done?);
      if v.terminalCount > 0 && !body.Error? && !body.Done? {
        v := v.(eventsAfterTerminal := v.eventsAfterTerminal + 1);
      }
      match body {
        case Done => v := v.(doneCount := v.doneCount + 1);
        case Metadata(Some(t)) =>
          v := v.(terminalCount := v.terminalCount + 1);
          if v.terminal.None? { v := v.(terminal := Some(t)); }
        case Error(reason) =>
          v := v.(errorCount := v.errorCount + 1, errorReasons := v.errorReasons + [reason]);
          if v.terminalCount == 0 { v := v.(errorsBeforeTerminal := v.errorsBeforeTerminal + 1); }
        case _ =>
      }
      envelope := v;
    }

    /** A use whose id is not open: one lifecycle entry, and the counters of writes, spawns and early tools. */
    method RecordNewUse(id: string, name: string, input: Input)
      modifies `tools
      ensures tools == RecordUse(old(tools), eventCount, children.firstFinished.Some?, id, name, input)
    {
      var t := tools;
      t := t.(started := t.started[id := Started(name, eventCount, |t.lifecycle|)],
              lifecycle := t.lifecycle + [Lifecycle(eventCount, name, None, None)]);
      t := t.(writes := t.writes + if name in WRITE_TOOLS then [eventCount] else []);
      if name == "agent" { t := t.(agentCalls := t.agentCalls + 1); }
      var explorer := name == "agent" && ExplorerSpawn(input);
      if children.firstFinished.None? && !(explorer && t.agentCalls == 1) {
        t := t.(preHandoff := t.preHandoff + 1);
      }
      var spawn := name == "agent" && CanonicalSpawn(input);
      t := t.(spawnIds := t.spawnIds + if spawn then [id] else []);
      if spawn { t := t.(spawns := t.spawns + 1); }
      if spawn && explorer { t := t.(explorerSpawns := t.explorerSpawns + 1); }
      tools := t;
    }

    method UseTool(id: string, name: string, input: Input)
      modifies `tools
      ensures tools == OnUse(old(tools), eventCount, children.firstFinished.Some?, id, name, input)
    {
      if tools.firstName.None? {
        tools := tools.(firstName := Some(name), firstIsExplorer := name == "agent" && ExplorerSpawn(input));
      }
      if id in tools.started {
        tools := tools.(duplicates := tools.duplicates + 1);
      } else {
        RecordNewUse(id, name, input);
      }
    }

    method AnswerTool(id: string, name: Option<string>, status: Option<string>, applied: bool, agentId: Option<string>)
      modifies `tools
      ensures tools == OnResult(old(tools), eventCount, id, name, status, applied, agentId)
    {
      if id !in tools.started {
        tools := tools.(orphans := tools.orphans + 1);
        return;
      }
      var t, s := tools, tools.started[id];
      var answered := SpawnAnswered(tools, s, id, status, agentId);
      t := t.(started := t.started - {id});
      if name.Some? && name.value != s.name { t := t.(mismatches := t.mismatches + 1); }
      if s.lifecycle < |t.lifecycle| {
        t := t.(lifecycle := t.lifecycle[s.lifecycle := Finish(t.lifecycle[s.lifecycle], eventCount, status)]);
      }
      t := t.(mutations := t.mutations + if Mutated(s, status, applied) then [s.index] else []);
      if answered { t := t.(spawnSuccesses := t.spawnSuccesses + 1); }
      t := t.(agentIds := t.agentIds + if answered then [agentId.value] else []);
      tools := t;
    }

    /** One event of the stream, with the workspace snapshot that could be taken at that moment. */
    method Process(event: Event, snapshot: Option<Snapshot>)
      modifies this
      ensures View() == Step(old(View()), event, snapshot)
    {
      match event
      case NotAnEvent =>
        invalidLines := invalidLines + 1;
      case Untyped =>
        eventCount := eventCount + 1;
        schemaErrors := schemaErrors + 1;
      case Typed(schemaOk, body) =>
        eventCount := eventCount + 1;
        schemaErrors := schemaErrors + (if schemaOk then 0 else 1) + BodyFaults(tools, body);
        NoteEnvelope(body);
        match body {
          case ToolUse(Some(id), Some(name), input) => UseTool(id, name, input);
          case ToolResult(Some(id), name, status, applied, agentId) => AnswerTool(id, name, status, applied, agentId);
          case _ => children := ChildStep(children, eventCount, snapshot, body);
        }
    }
  }

  /** Processing the lines of a stream one by one yields the receipt the language is stated about. */
  method ProcessAll(lines: seq<Line>) returns (receipt: StreamReceipt)
    ensures fresh(receipt) && receipt.View() == Run(lines)
  {
    receipt := new StreamReceipt();
    for i := 0 to |lines|
      invariant receipt.View() == Run(lines[..i])
    {
      assert lines[..i + 1][..i] == lines[..i];
      receipt.Process(lines[i].event, lines[i].snapshot);
    }
    assert lines[..|lines|] == lines;
  }
}
