/** The envelope of an error-free stream: body, one terminal, an optional error, then done. */
module StreamEnvelope {
  import opened Basics
  import opened StreamModel

  function BodyOf(line: Line): Body {
    if line.event.Typed? then line.event.body else OtherBody
  }

  ghost predicate AllTyped(lines: seq<Line>) {
    forall i :: 0 <= i < |lines| ==> lines[i].event.Typed?
  }

  predicate IsTerminal(b: Body) {
    b.Metadata? && b.terminal.Some?
  }

  /** Anything the envelope does not count. */
  predicate Quiet(b: Body) {
    !b.Done? && !b.Error? && !IsTerminal(b)
  }

  /** Nothing but quiet events, the terminal at `t`, and errors after it. */
  ghost predicate Front(lines: seq<Line>, t: nat) {
    && t < |lines|
    && IsTerminal(BodyOf(lines[t]))
    && (forall i :: 0 <= i < t ==> Quiet(BodyOf(lines[i])))
    && (forall i :: t < i < |lines| ==> BodyOf(lines[i]).Error?)
  }

  /** Terminal metadata at `t`, then an error exactly when the status is not completed, then done. */
  ghost predicate Enveloped(lines: seq<Line>, t: nat) {
    && t + 1 < |lines|
    && IsTerminal(BodyOf(lines[t]))
    && (forall i :: 0 <= i < t ==> Quiet(BodyOf(lines[i])))
    && BodyOf(lines[|lines| - 1]) == Done
    && var terminal := BodyOf(lines[t]).terminal.value;
       if terminal.status == Some("completed") then |lines| == t + 2
       else |lines| == t + 3 && BodyOf(lines[t + 1]) == Error(terminal.reason) && StatusReasonValid(terminal)
  }

  // --- Before the terminal ----------------------------------------------------------

  lemma {:induction false} QuietIff(lines: seq<Line>)
    requires AllTyped(lines)
    ensures var v := Run(lines).envelope;
            (forall i :: 0 <= i < |lines| ==> Quiet(BodyOf(lines[i])))
            <==> v.doneCount == 0 && v.terminalCount == 0 && v.errorCount == 0
  {
    if lines != [] {
      var n := |lines| - 1;
      QuietIff(lines[..n]);
      assert forall i :: 0 <= i < n ==> lines[..n][i] == lines[i];
    }
  }

  /** How the counters of the envelope relate before and after a terminal. */
  lemma {:induction false} EnvelopeCounters(lines: seq<Line>)
    requires AllTyped(lines)
    ensures var v := Run(lines).envelope;
            && v.errorsBeforeTerminal <= v.errorCount == |v.errorReasons|
            && (v.terminalCount == 0 <==> v.terminal.None?)
            && (v.terminalCount == 0 ==> v.eventsAfterTerminal == 0 && v.errorsBeforeTerminal == v.errorCount)
  {
    if lines != [] { EnvelopeCounters(lines[..|lines| - 1]); }
  }

  // --- Around the terminal -------------------------------------------------------------

  /** One terminal so far, nothing wrong so far, and not done. */
  predicate Ended(v: Envelope) {
    v.doneCount == 0 && v.terminalCount == 1 && v.eventsAfterTerminal == 0 && v.errorsBeforeTerminal == 0
  }

  /** The counters describe the events from the terminal at `t` on. */
  ghost predicate Describes(v: Envelope, lines: seq<Line>, t: nat)
    requires Front(lines, t)
  {
    && v.terminal == BodyOf(lines[t]).terminal
    && v.errorCount == |v.errorReasons| == |lines| - t - 1
    && forall k :: 0 <= k < |v.errorReasons| ==> v.errorReasons[k] == BodyOf(lines[t + 1 + k]).reason
  }

  lemma {:induction false} EndedHasFront(lines: seq<Line>) returns (t: nat)
    requires AllTyped(lines) && Ended(Run(lines).envelope)
    ensures Front(lines, t)
  {
    var n := |lines| - 1;
    QuietIff(lines[..n]);
    EnvelopeCounters(lines[..n]);
    assert forall i :: 0 <= i < n ==> lines[..n][i] == lines[i];
    if IsTerminal(BodyOf(lines[n])) {
      t := n;
    } else {
      t := EndedHasFront(lines[..n]);
    }
  }

  lemma {:induction false} FrontIsEnded(lines: seq<Line>, t: nat)
    requires AllTyped(lines) && Front(lines, t)
    ensures Ended(Run(lines).envelope) && Describes(Run(lines).envelope, lines, t)
  {
    var n := |lines| - 1;
    assert forall i :: 0 <= i < n ==> lines[..n][i] == lines[i];
    if t == n {
      QuietIff(lines[..n]);
      EnvelopeCounters(lines[..n]);
    } else {
      FrontIsEnded(lines[..n], t);
    }
  }

  // --- The language -----------------------------------------------------------------------

  lemma NoEnvelopeErrors(v: Envelope)
    ensures EnvelopeErrors(v) == [] <==>
      && v.terminalCount == 1 && v.doneCount == 1 && v.lastIsDone
      && v.eventsAfterTerminal == 0 && v.errorsBeforeTerminal == 0
      && (v.terminal.Some? ==> OutcomeErrors(v, v.terminal.value) == [])
  {
  }

  lemma OutcomeIff(v: Envelope, lines: seq<Line>, t: nat)
    requires Front(lines, t) && Describes(v, lines, t)
    ensures OutcomeErrors(v, v.terminal.value) == [] <==>
      if v.terminal.value.status == Some("completed") then |lines| == t + 1
      else
        && |lines| == t + 2 && BodyOf(lines[t + 1]) == Error(v.terminal.value.reason)
        && StatusReasonValid(v.terminal.value)
  {
    if v.errorCount == 1 {
      assert v.errorReasons == [BodyOf(lines[t + 1]).reason];
    }
  }

  lemma ErrorFreeHasEnvelope(lines: seq<Line>) returns (t: nat)
    requires AllTyped(lines) && EnvelopeErrors(Run(lines).envelope) == []
    ensures Enveloped(lines, t)
  {
    var v := Run(lines).envelope;
    NoEnvelopeErrors(v);
    var n := |lines| - 1;
    var front := lines[..n];
    assert BodyOf(lines[n]) == Done;
    t := EndedHasFront(front);
    FrontIsEnded(front, t);
    OutcomeIff(Run(front).envelope, front, t);
    DoneChangesNoOutcome(Run(front).envelope);
  }

  lemma EnvelopeIsErrorFree(lines: seq<Line>, t: nat)
    requires AllTyped(lines) && Enveloped(lines, t)
    ensures EnvelopeErrors(Run(lines).envelope) == []
  {
    var n := |lines| - 1;
    var front := lines[..n];
    FrontIsEnded(front, t);
    OutcomeIff(Run(front).envelope, front, t);
    DoneCloses(Run(front).envelope);
  }

  lemma DoneCloses(u: Envelope)
    requires Ended(u) && u.terminal.Some? && OutcomeErrors(u, u.terminal.value) == []
    ensures EnvelopeErrors(EnvelopeStep(u, Done)) == []
  {
    DoneChangesNoOutcome(u);
    NoEnvelopeErrors(EnvelopeStep(u, Done));
  }

  /** A done event changes nothing that the outcome checks read. */
  lemma DoneChangesNoOutcome(u: Envelope)
    requires u.terminal.Some?
    ensures var v := EnvelopeStep(u, Done);
            v.terminal == u.terminal && OutcomeErrors(v, v.terminal.value) == OutcomeErrors(u, u.terminal.value)
  {
  }

  /**
    The envelope checks are clear exactly for: quiet events, one terminal, an error with the
    terminal's own reason exactly when the status is not completed, and done as the last event.
   */
  lemma EnvelopeLanguage(lines: seq<Line>)
    requires AllTyped(lines)
    ensures EnvelopeErrors(Run(lines).envelope) == [] <==> exists t: nat :: Enveloped(lines, t)
  {
    if EnvelopeErrors(Run(lines).envelope) == [] {
      var t := ErrorFreeHasEnvelope(lines);
    }
    if exists t: nat :: Enveloped(lines, t) {
      var t: nat :| Enveloped(lines, t);
      EnvelopeIsErrorFree(lines, t);
    }
  }

  // --- The status table ---------------------------------------------------------------------

  /** With a status present the check is membership of the table; without one it is its complement. */
  lemma StatusReasonTable(t: Terminal)
    ensures StatusReasonValid(t) <==>
      && t.reason.Some?
      && if t.status.Some? then t.reason.value in REASON_STATUS && REASON_STATUS[t.reason.value] == t.status.value
         else t.reason.value !in REASON_STATUS
  {
  }

  /** An unknown reason without a status passes as a failure terminal. */
  lemma UnknownReasonPasses()
    ensures StatusReasonValid(Terminal(None, Some("unheard_of")))
    ensures EnvelopeErrors(Run([Line(Typed(true, Metadata(Some(Terminal(None, Some("unheard_of"))))), None),
                                Line(Typed(true, Error(Some("unheard_of"))), None),
                                Line(Typed(true, Done), None)]).envelope) == []
  {
    var t := Terminal(None, Some("unheard_of"));
    assert "unheard_of" !in REASON_STATUS by { assert |"unheard_of"| == 10 && "unheard_of"[2] == 'h'; }
    var lines := [Line(Typed(true, Metadata(Some(t))), None), Line(Typed(true, Error(t.reason)), None),
                  Line(Typed(true, Done), None)];
    assert Enveloped(lines, 0);
    EnvelopeIsErrorFree(lines, 0);
  }
}
