/** The parser accepts exactly the traces of well-formed episode lists, and returns the list it read. */
module LedgerParsing {
  import opened Basics
  import opened LedgerModel
  import opened LedgerGrammar

  predicate Relevant(e: Event) {
    !e.RunCreated? && !e.OtherEvent? && !e.Terminal?
  }

  function OpenTrace(o: OpenEpisode): seq<Event>
    requires o.Waiting? ==> o.ids != []
  {
    if o.Idle? then []
    else Opening(o.compaction, o.base, o.ids) + if o.inFlight then [InFlightEvent(o.compaction, Last(o.ids))] else []
  }

  ghost predicate ProperHistory(h: History) {
    Proper(h.closed) && (h.open.Waiting? ==> h.open.ids != [])
  }

  function HistoryTrace(h: History): seq<Event>
    requires Proper(h.closed) && (h.open.Waiting? ==> h.open.ids != [])
  {
    Trace(h.closed) + OpenTrace(h.open)
  }

  // --- Soundness: what was read is the trace ----------------------------------

  lemma TraceSnoc(es: seq<Episode>, e: Episode)
    requires Proper(es) && (e.Chain? ==> e.ids != [])
    ensures Proper(es + [e]) && Trace(es + [e]) == Trace(es) + EpisodeEvents(e)
    ensures Ids(es + [e]) == Ids(es) + EpisodeIds(e)
    ensures Agents(es + [e]) == Agents(es) + if IsAgent(e) then 1 else 0
  {
    assert (es + [e])[..|es|] == es;
  }

  lemma WellFormedSnoc(env: Env, run: string, others: set<string>, es: seq<Episode>, e: Episode)
    requires run in env.runs && WellFormed(env, run, others, es) && MayFollow(env, run, others, es, e)
    ensures WellFormed(env, run, others, es + [e])
  {
    forall i | 0 <= i < |es + [e]| ensures MayFollow(env, run, others, (es + [e])[..i], (es + [e])[i]) {
      assert (es + [e])[..i] == es[..i];
    }
  }

  lemma CloseSound(env: Env, run: string, others: set<string>, h: History, ending: Ending)
    requires run in env.runs && ValidHistory(env, run, others, h)
    requires h.open.Waiting? && h.open.inFlight
    ensures var h' := Close(h, ending);
            && ValidHistory(env, run, others, h')
            && HistoryTrace(h') == HistoryTrace(h) + [ClosingEvent(h.open.compaction, Last(h.open.ids), ending)]
            && AllIds(h') == AllIds(h)
  {
    var e := Chain(h.open.compaction, h.open.base, h.open.ids, ending);
    TraceSnoc(h.closed, e);
    WellFormedSnoc(env, run, others, h.closed, e);
  }

  lemma RetrySound(env: Env, run: string, others: set<string>, h: History, id: string)
    requires run in env.runs && ValidHistory(env, run, others, h)
    requires h.open.Waiting? && h.open.inFlight && Unused(h, others, Some(id))
    ensures var o := h.open;
            var h' := h.(open := o.(ids := o.ids + [id], inFlight := false));
            && ValidHistory(env, run, others, h')
            && HistoryTrace(h') == HistoryTrace(h)
                                   + [RetryEvent(o.compaction, Last(o.ids), id, Nth(o.base, |o.ids|))]
            && AllIds(h') == AllIds(h) + {id}
  {
    var o := h.open;
    assert (o.ids + [id])[..|o.ids|] == o.ids;
    assert IdSet(o.ids + [id]) == IdSet(o.ids) + {id};
  }

  lemma LocalSound(env: Env, run: string, others: set<string>, h: History, cid: string)
    requires run in env.runs && ValidHistory(env, run, others, h)
    requires h.open.Idle? && !Halted(h.closed) && cid != "" && !HasCompaction(h.closed, cid)
    ensures var h' := h.(closed := h.closed + [LocalCompaction(cid)]);
            && ValidHistory(env, run, others, h')
            && HistoryTrace(h') == HistoryTrace(h) + [CompactionCommitted(Some(cid), false)]
            && AllIds(h') == AllIds(h)
  {
    TraceSnoc(h.closed, LocalCompaction(cid));
    WellFormedSnoc(env, run, others, h.closed, LocalCompaction(cid));
  }

  /** The attempt id that reading the event adds to the history. */
  ghost predicate Extends(h: History, h': History, others: set<string>) {
    AllIds(h) <= AllIds(h') && forall id :: id in AllIds(h') && id !in AllIds(h) ==> id !in others
  }

  /** From `h`, reading the ledger events `read` leads to the valid history `h'`. */
  ghost predicate Reads(env: Env, run: string, others: set<string>, h: History, h': History, read: seq<Event>)
    requires run in env.runs && ProperHistory(h)
  {
    && ValidHistory(env, run, others, h')
    && HistoryTrace(h') == HistoryTrace(h) + read
    && Extends(h, h', others)
  }

  lemma ReadsTransitive(
    env: Env, run: string, others: set<string>, h: History, h1: History, h2: History, a: seq<Event>, b: seq<Event>)
    requires run in env.runs && ProperHistory(h) && ProperHistory(h1)
    requires Reads(env, run, others, h, h1, a) && Reads(env, run, others, h1, h2, b)
    ensures Reads(env, run, others, h, h2, a + b)
  {
    assert (HistoryTrace(h) + a) + b == HistoryTrace(h) + (a + b);
  }

  function LedgeredOne(e: Event): seq<Event> {
    if Relevant(e) then [e] else []
  }

  lemma StartSound(env: Env, run: string, others: set<string>, h: History, c: Option<string>, id: string, base: Request)
    requires run in env.runs && ValidHistory(env, run, others, h) && h.open.Idle?
    requires MayStart(env, run, h.closed, c, base) && Unused(h, others, Some(id))
    ensures Reads(env, run, others, h, h.(open := Waiting(c, base, [id], false)), [PreparedEvent(c, id, base)])
  {
    assert IdSet([id]) == {id};
  }

  lemma SendSound(env: Env, run: string, others: set<string>, h: History)
    requires run in env.runs && ValidHistory(env, run, others, h) && h.open.Waiting? && !h.open.inFlight
    ensures Reads(env, run, others, h, h.(open := h.open.(inFlight := true)),
                  [InFlightEvent(h.open.compaction, Last(h.open.ids))])
  {
  }

  lemma ParseAgentSound(env: Env, run: string, others: set<string>, h: History, e: Event)
    requires run in env.runs && ValidHistory(env, run, others, h) && Parse(env, run, others, h, e).Some?
    requires e.ModelRequestPrepared? || e.ModelRequestInFlight? || e.ModelRequestFailed? || e.ModelResponseCommitted?
    ensures Reads(env, run, others, h, Parse(env, run, others, h, e).value, LedgeredOne(e))
  {
    match e
    case ModelRequestPrepared(id, request) => StartSound(env, run, others, h, None, id.value, request.value);
    case ModelRequestInFlight(_) => SendSound(env, run, others, h);
    case ModelRequestFailed(_, Some(RetryWith(Some(plan)))) =>
      RetrySound(env, run, others, h, plan.attemptId.value);
    case ModelRequestFailed(_, _) => CloseSound(env, run, others, h, Stopped);
    case ModelResponseCommitted(_) => CloseSound(env, run, others, h, Committed);
  }

  lemma ParseCompactionSound(env: Env, run: string, others: set<string>, h: History, e: Event)
    requires run in env.runs && ValidHistory(env, run, others, h) && Parse(env, run, others, h, e).Some?
    requires e.CompactionPrepared? || e.CompactionInFlight? || e.CompactionAttemptFailed?
    ensures Reads(env, run, others, h, Parse(env, run, others, h, e).value, LedgeredOne(e))
  {
    match e
    case CompactionPrepared(c, id, request) => StartSound(env, run, others, h, c, id.value, request.value);
    case CompactionInFlight(_, _) => SendSound(env, run, others, h);
    case CompactionAttemptFailed(_, _, Some(RetryWith(Some(plan)))) =>
      RetrySound(env, run, others, h, plan.attemptId.value);
    case CompactionAttemptFailed(_, _, _) => CloseSound(env, run, others, h, Stopped);
  }

  lemma ParseOutputSound(env: Env, run: string, others: set<string>, h: History, e: Event)
    requires run in env.runs && ValidHistory(env, run, others, h) && Parse(env, run, others, h, e).Some?
    requires e.CompactionCommitted?
    ensures Reads(env, run, others, h, Parse(env, run, others, h, e).value, LedgeredOne(e))
  {
    if e.hasOutput {
      CloseSound(env, run, others, h, Committed);
    } else {
      LocalSound(env, run, others, h, e.compactionId.value);
    }
  }

  lemma ParseSound(env: Env, run: string, others: set<string>, h: History, e: Event)
    requires run in env.runs && ValidHistory(env, run, others, h)
    requires Parse(env, run, others, h, e).Some?
    ensures Reads(env, run, others, h, Parse(env, run, others, h, e).value, LedgeredOne(e))
  {
    match e
    case ModelRequestPrepared(_, _) => ParseAgentSound(env, run, others, h, e);
    case ModelRequestInFlight(_) => ParseAgentSound(env, run, others, h, e);
    case ModelRequestFailed(_, _) => ParseAgentSound(env, run, others, h, e);
    case ModelResponseCommitted(_) => ParseAgentSound(env, run, others, h, e);
    case CompactionPrepared(_, _, _) => ParseCompactionSound(env, run, others, h, e);
    case CompactionInFlight(_, _) => ParseCompactionSound(env, run, others, h, e);
    case CompactionAttemptFailed(_, _, _) => ParseCompactionSound(env, run, others, h, e);
    case CompactionCommitted(_, _) => ParseOutputSound(env, run, others, h, e);
    case _ =>
  }

  /** The events the ledger loop looks at, in order. */
  function Ledgered(events: seq<Event>): seq<Event> {
    if events == [] then [] else LedgeredOne(events[0]) + Ledgered(events[1..])
  }

  lemma {:induction false} ParseAllSound(env: Env, run: string, others: set<string>, h: History, events: seq<Event>)
    requires run in env.runs && ValidHistory(env, run, others, h)
    requires ParseAll(env, run, others, h, events).Some?
    ensures Reads(env, run, others, h, ParseAll(env, run, others, h, events).value, Ledgered(events))
    decreases |events|
  {
    if events == [] {
      assert HistoryTrace(h) + [] == HistoryTrace(h);
    } else {
      var h1 := Parse(env, run, others, h, events[0]).value;
      ParseSound(env, run, others, h, events[0]);
      ParseAllSound(env, run, others, h1, events[1..]);
      var h2 := ParseAll(env, run, others, h1, events[1..]).value;
      ReadsTransitive(env, run, others, h, h1, h2, LedgeredOne(events[0]), Ledgered(events[1..]));
    }
  }

  // --- Completeness: every well-formed list is read back --------------------------

  lemma {:induction false} ParseConcat(
    env: Env, run: string, others: set<string>, h: History, a: seq<Event>, b: seq<Event>)
    requires run in env.runs && ParseAll(env, run, others, h, a).Some?
    ensures ParseAll(env, run, others, h, a + b)
         == ParseAll(env, run, others, ParseAll(env, run, others, h, a).value, b)
    decreases |a|
  {
    if a == [] {
      assert a + b == b;
    } else {
      assert (a + b)[1..] == a[1..] + b;
      ParseConcat(env, run, others, Parse(env, run, others, h, a[0]).value, a[1..], b);
    }
  }

  lemma ParseTwo(env: Env, run: string, others: set<string>, h: History, e: Event, f: Event)
    requires run in env.runs && Parse(env, run, others, h, e).Some?
    ensures ParseAll(env, run, others, h, [e, f])
         == Parse(env, run, others, Parse(env, run, others, h, e).value, f)
  {
    var h1 := Parse(env, run, others, h, e).value;
    assert [e, f][1..] == [f] && [f][1..] == [];
    assert ParseAll(env, run, others, h1, [f]) == Parse(env, run, others, h1, f);
  }

  /** One retry: the last attempt goes in flight, fails, and the next one is prepared. */
  lemma RetryRead(
    env: Env, run: string, others: set<string>, es: seq<Episode>, c: Option<string>, base: Request, ids: seq<string>)
    requires run in env.runs && |ids| > 1 && FreshIds(ids, Ids(es) + others)
    ensures var n := |ids| - 1;
            var h := History(es, Waiting(c, base, ids[..n], false));
            ParseAll(env, run, others, h,
                     [InFlightEvent(c, ids[n - 1]), RetryEvent(c, ids[n - 1], ids[n], Nth(base, n))])
            == Some(History(es, Waiting(c, base, ids, false)))
  {
    var n := |ids| - 1;
    var before, id, newId := ids[..n], ids[n - 1], ids[n];
    var h1 := History(es, Waiting(c, base, before, false));
    var h2 := History(es, Waiting(c, base, before, true));
    assert Last(before) == id && before + [newId] == ids;
    assert Parse(env, run, others, h1, InFlightEvent(c, id)) == Some(h2);
    assert newId in ids && Unused(h2, others, Some(newId));
    ParseTwo(env, run, others, h1, InFlightEvent(c, id), RetryEvent(c, id, newId, Nth(base, n)));
  }

  /** The first event of a chain. */
  lemma StartRead(
    env: Env, run: string, others: set<string>, es: seq<Episode>, c: Option<string>, base: Request, id: string)
    requires run in env.runs && MayStart(env, run, es, c, base) && id != "" && id !in Ids(es) + others
    ensures ParseAll(env, run, others, History(es, Idle), [PreparedEvent(c, id, base)])
         == Some(History(es, Waiting(c, base, [id], false)))
  {
    var h, h', e := History(es, Idle), History(es, Waiting(c, base, [id], false)), PreparedEvent(c, id, base);
    assert Unused(h, others, Some(id));
    assert Start(env, run, others, h, c, Some(id), Some(base)) == Some(h');
    assert Parse(env, run, others, h, e) == Some(h');
    assert [e][1..] == [];
  }

  lemma {:induction false} OpeningRead(
    env: Env, run: string, others: set<string>, es: seq<Episode>, c: Option<string>, base: Request, ids: seq<string>)
    requires run in env.runs && MayStart(env, run, es, c, base) && FreshIds(ids, Ids(es) + others)
    ensures ParseAll(env, run, others, History(es, Idle), Opening(c, base, ids))
         == Some(History(es, Waiting(c, base, ids, false)))
    decreases |ids|
  {
    var h0, n := History(es, Idle), |ids| - 1;
    if n == 0 {
      assert ids == [ids[0]] && ids[0] in ids;
      StartRead(env, run, others, es, c, base, ids[0]);
    } else {
      assert forall x :: x in ids[..n] ==> x in ids;
      OpeningRead(env, run, others, es, c, base, ids[..n]);
      ParseConcat(env, run, others, h0, Opening(c, base, ids[..n]),
                  [InFlightEvent(c, ids[n - 1]), RetryEvent(c, ids[n - 1], ids[n], Nth(base, n))]);
      RetryRead(env, run, others, es, c, base, ids);
    }
  }

  /** The last attempt goes in flight and the chain ends. */
  lemma ClosingRead(
    env: Env, run: string, others: set<string>, es: seq<Episode>, c: Option<string>, base: Request, ids: seq<string>,
    ending: Ending)
    requires run in env.runs && ids != [] && (c.Some? ==> c.value != "")
    ensures ParseAll(env, run, others, History(es, Waiting(c, base, ids, false)),
                     [InFlightEvent(c, Last(ids)), ClosingEvent(c, Last(ids), ending)])
         == Some(History(es + [Chain(c, base, ids, ending)], Idle))
  {
    var h1 := History(es, Waiting(c, base, ids, false));
    var h2 := History(es, Waiting(c, base, ids, true));
    var f, g := InFlightEvent(c, Last(ids)), ClosingEvent(c, Last(ids), ending);
    assert Parse(env, run, others, h1, f) == Some(h2);
    ParseTwo(env, run, others, h1, f, g);
  }

  lemma EpisodeRead(env: Env, run: string, others: set<string>, es: seq<Episode>, e: Episode)
    requires run in env.runs && MayFollow(env, run, others, es, e)
    ensures ParseAll(env, run, others, History(es, Idle), EpisodeEvents(e)) == Some(History(es + [e], Idle))
  {
    match e
    case Chain(c, base, ids, ending) =>
      OpeningRead(env, run, others, es, c, base, ids);
      ParseConcat(env, run, others, History(es, Idle), Opening(c, base, ids),
                  [InFlightEvent(c, Last(ids)), ClosingEvent(c, Last(ids), ending)]);
      ClosingRead(env, run, others, es, c, base, ids, ending);
    case LocalCompaction(cid) =>
      var f := CompactionCommitted(Some(cid), false);
      assert [f][1..] == [];
  }

  lemma WellFormedFront(env: Env, run: string, others: set<string>, es: seq<Episode>)
    requires run in env.runs && WellFormed(env, run, others, es) && es != []
    ensures WellFormed(env, run, others, es[..|es| - 1])
    ensures MayFollow(env, run, others, es[..|es| - 1], es[|es| - 1])
  {
    var before := es[..|es| - 1];
    forall i | 0 <= i < |before| ensures MayFollow(env, run, others, before[..i], before[i]) {
      assert before[..i] == es[..i] && before[i] == es[i];
    }
  }

  lemma EpisodeAppended(env: Env, run: string, others: set<string>, es: seq<Episode>, e: Episode)
    requires run in env.runs && Proper(es) && (e.Chain? ==> e.ids != []) && MayFollow(env, run, others, es, e)
    requires ParseAll(env, run, others, History([], Idle), Trace(es)) == Some(History(es, Idle))
    ensures ParseAll(env, run, others, History([], Idle), Trace(es) + EpisodeEvents(e)) == Some(History(es + [e], Idle))
  {
    EpisodeRead(env, run, others, es, e);
    ParseConcat(env, run, others, History([], Idle), Trace(es), EpisodeEvents(e));
  }

  /** Reading the trace of a well-formed list returns the list. */
  lemma {:induction false} TraceRead(env: Env, run: string, others: set<string>, es: seq<Episode>)
    requires run in env.runs && WellFormed(env, run, others, es)
    ensures ParseAll(env, run, others, History([], Idle), Trace(es)) == Some(History(es, Idle))
  {
    if es != [] {
      var before, e := es[..|es| - 1], es[|es| - 1];
      WellFormedFront(env, run, others, es);
      TraceRead(env, run, others, before);
      EpisodeAppended(env, run, others, before, e);
      assert before + [e] == es;
    }
  }

  /** Events outside the ledger do not matter to the parser. */
  lemma {:induction false} ParseLedgered(env: Env, run: string, others: set<string>, h: History, events: seq<Event>)
    requires run in env.runs && forall i :: 0 <= i < |events| ==> !events[i].Terminal?
    ensures ParseAll(env, run, others, h, events) == ParseAll(env, run, others, h, Ledgered(events))
    decreases |events|
  {
    if events != [] {
      var h' := Parse(env, run, others, h, events[0]);
      if Relevant(events[0]) {
        assert Ledgered(events)[1..] == Ledgered(events[1..]);
      } else {
        assert [] + Ledgered(events[1..]) == Ledgered(events[1..]);
      }
      if h'.Some? { ParseLedgered(env, run, others, h'.value, events[1..]); }
    }
  }

  /**
    The language of one run's body: the parser reads it to the end exactly when its ledger
    events are the trace of a well-formed episode list, and then that list is the only one.
   */
  lemma ParsesIffEpisodes(env: Env, run: string, others: set<string>, events: seq<Event>, es: seq<Episode>)
    requires run in env.runs && forall i :: 0 <= i < |events| ==> !events[i].Terminal?
    ensures ParseAll(env, run, others, History([], Idle), events) == Some(History(es, Idle))
       <==> WellFormed(env, run, others, es) && Ledgered(events) == Trace(es)
  {
    var h0 := History([], Idle);
    if ParseAll(env, run, others, h0, events) == Some(History(es, Idle)) {
      ParseAllSound(env, run, others, h0, events);
      assert HistoryTrace(h0) + Ledgered(events) == Ledgered(events);
      assert HistoryTrace(History(es, Idle)) == Trace(es);
    }
    if WellFormed(env, run, others, es) && Ledgered(events) == Trace(es) {
      ParseLedgered(env, run, others, h0, events);
      TraceRead(env, run, others, es);
    }
  }

  // --- Ids of other runs ------------------------------------------------------------

  lemma ClosedIds(h: History, e: Episode)
    ensures Ids(h.closed + [e]) == Ids(h.closed) + EpisodeIds(e)
  {
    assert (h.closed + [e])[..|h.closed|] == h.closed;
  }

  /** Opening an attempt adds its id. */
  lemma IdsAfterOpening(env: Env, run: string, h: History, e: Event)
    requires run in env.runs && Parse(env, run, {}, h, e).Some? && PreparedId(e).Some?
    ensures AllIds(Parse(env, run, {}, h, e).value) == AllIds(h) + {PreparedId(e).value}
  {
    var h', id := Parse(env, run, {}, h, e).value, PreparedId(e).value;
    if h.open.Waiting? {
      assert h'.open.ids == h.open.ids + [id];
      assert IdSet(h.open.ids + [id]) == IdSet(h.open.ids) + {id};
    } else {
      assert IdSet([id]) == {id};
    }
  }

  /** No other event changes the ids of a run. */
  lemma IdsAfterOther(env: Env, run: string, h: History, e: Event)
    requires run in env.runs && Parse(env, run, {}, h, e).Some? && PreparedId(e).None?
    ensures AllIds(Parse(env, run, {}, h, e).value) == AllIds(h)
  {
    var h' := Parse(env, run, {}, h, e).value;
    if h'.closed != h.closed { ClosedIds(h, Last(h'.closed)); }
  }

  lemma ParseOthers(env: Env, run: string, others: set<string>, h: History, e: Event)
    requires run in env.runs && AllIds(h) !! others
    ensures var alone := Parse(env, run, {}, h, e);
            Parse(env, run, others, h, e) == if alone.Some? && AllIds(alone.value) !! others then alone else None
  {
    if Parse(env, run, {}, h, e).Some? {
      if PreparedId(e).Some? { IdsAfterOpening(env, run, h, e); } else { IdsAfterOther(env, run, h, e); }
    }
  }

  /** Ids used elsewhere only rule out the runs that use them too. */
  lemma {:induction false} ParseAllOthers(env: Env, run: string, others: set<string>, h: History, events: seq<Event>)
    requires run in env.runs && ValidHistory(env, run, {}, h) && AllIds(h) !! others
    ensures var alone := ParseAll(env, run, {}, h, events);
            ParseAll(env, run, others, h, events)
            == if alone.Some? && AllIds(alone.value) !! others then alone else None
    decreases |events|
  {
    if events != [] {
      ParseOthers(env, run, others, h, events[0]);
      var h' := Parse(env, run, {}, h, events[0]);
      if h'.Some? {
        ParseSound(env, run, {}, h, events[0]);
        if ParseAll(env, run, {}, h'.value, events[1..]).Some? {
          ParseAllSound(env, run, {}, h'.value, events[1..]);
        }
        if AllIds(h'.value) !! others { ParseAllOthers(env, run, others, h'.value, events[1..]); }
      }
    }
  }
}
