/**
  The language of accepted runs, stated without the ledger's tables. A run's ledger events
  are a list of episodes: request chains that commit or stop, and local compactions. The
  parser at the end reads one event at a time and is the bridge to the tables.
 */
module LedgerGrammar {
  import opened Basics
  import opened LedgerModel

  datatype Ending = Committed | Stopped

  /**
    A chain is one request and its retries: attempt k of the chain sends `base` with attempt
    number k under the id `ids[k]`. Agent chains have no compaction id.
   */
  datatype Episode =
    | Chain(compaction: Option<string>, base: Request, ids: seq<string>, ending: Ending)
    | LocalCompaction(cid: string)

  function Nth(base: Request, k: nat): Request {
    base.(attempt := Some(k))
  }

  // --- Events of an episode ---------------------------------------------------

  function PreparedEvent(c: Option<string>, id: string, request: Request): Event {
    if c.None? then ModelRequestPrepared(Some(id), Some(request))
    else CompactionPrepared(c, Some(id), Some(request))
  }

  function InFlightEvent(c: Option<string>, id: string): Event {
    if c.None? then ModelRequestInFlight(Some(id)) else CompactionInFlight(c, Some(id))
  }

  function FailedEvent(c: Option<string>, id: string, decision: RetryDecision): Event {
    if c.None? then ModelRequestFailed(Some(id), Some(decision))
    else CompactionAttemptFailed(c, Some(id), Some(decision))
  }

  function CommittedEvent(c: Option<string>, id: string): Event {
    if c.None? then ModelResponseCommitted(Some(id)) else CompactionCommitted(c, true)
  }

  function RetryEvent(c: Option<string>, id: string, newId: string, request: Request): Event {
    FailedEvent(c, id, RetryWith(Some(RetryPlan(Some(newId), Some(request)))))
  }

  function Last<T>(s: seq<T>): T
    requires s != []
  {
    s[|s| - 1]
  }

  /** The chain up to the preparation of its last attempt. */
  function Opening(c: Option<string>, base: Request, ids: seq<string>): seq<Event>
    requires ids != []
  {
    var n := |ids| - 1;
    if n == 0 then [PreparedEvent(c, ids[0], base)]
    else
      Opening(c, base, ids[..n])
      + [InFlightEvent(c, ids[n - 1]), RetryEvent(c, ids[n - 1], ids[n], Nth(base, n))]
  }

  function ClosingEvent(c: Option<string>, id: string, ending: Ending): Event {
    if ending == Committed then CommittedEvent(c, id) else FailedEvent(c, id, StopRetrying)
  }

  function EpisodeEvents(e: Episode): seq<Event>
    requires e.Chain? ==> e.ids != []
  {
    match e
    case Chain(c, base, ids, ending) =>
      Opening(c, base, ids) + [InFlightEvent(c, Last(ids)), ClosingEvent(c, Last(ids), ending)]
    case LocalCompaction(cid) => [CompactionCommitted(Some(cid), false)]
  }

  predicate Proper(es: seq<Episode>) {
    forall i :: 0 <= i < |es| ==> (es[i].Chain? ==> es[i].ids != [])
  }

  function Trace(es: seq<Episode>): seq<Event>
    requires Proper(es)
  {
    if es == [] then [] else Trace(es[..|es| - 1]) + EpisodeEvents(Last(es))
  }

  // --- Well-formed episode lists ------------------------------------------------

  function IdSet(ids: seq<string>): set<string> {
    set id | id in ids
  }

  function EpisodeIds(e: Episode): set<string> {
    if e.Chain? then IdSet(e.ids) else {}
  }

  function Ids(es: seq<Episode>): set<string> {
    if es == [] then {} else Ids(es[..|es| - 1]) + EpisodeIds(Last(es))
  }

  predicate IsAgent(e: Episode) {
    e.Chain? && e.compaction.None?
  }

  function Agents(es: seq<Episode>): nat {
    if es == [] then 0 else Agents(es[..|es| - 1]) + if IsAgent(Last(es)) then 1 else 0
  }

  predicate HasCompaction(es: seq<Episode>, cid: string) {
    exists i :: 0 <= i < |es| && es[i].Chain? && es[i].compaction == Some(cid)
  }

  /** An agent request stopped for good: the run may prepare nothing more. */
  predicate Halted(es: seq<Episode>) {
    es != [] && IsAgent(Last(es)) && Last(es).ending == Stopped
  }

  /** The request names the run with its parent, actor and model, and has a number from one on. */
  predicate NamesRun(env: Env, run: string, request: Request)
    requires run in env.runs
  {
    && request.runId == Some(run) && request.parentRunId == env.runs[run].parentRunId
    && request.actor == Some(env.runs[run].actor) && request.model == Some(env.runs[run].model)
    && request.requestNumber.Some? && 1 <= request.requestNumber.value
  }

  /** A request the run may send: it names the run and its prompt keeps the cache posture. */
  predicate Sendable(env: Env, run: string, base: Request)
    requires run in env.runs
  {
    && NamesRun(env, run, base) && base.attempt == Some(0)
    && env.fingerprint(base.systemPrompt).Some?
    && env.fingerprint(base.systemPrompt).value.cachePostureValid
  }

  /** Attempt ids are nonempty, pairwise different, and unused by the run and by `others`. */
  ghost predicate FreshIds(ids: seq<string>, used: set<string>) {
    && ids != []
    && Distinct(ids)
    && (forall id :: id in ids ==> id != "" && id !in used)
  }

  /** Whether a chain may start after the episodes `es`. */
  predicate MayStart(env: Env, run: string, es: seq<Episode>, c: Option<string>, base: Request)
    requires run in env.runs
  {
    && !Halted(es)
    && Sendable(env, run, base)
    && (c.None? ==> base.requestNumber == Some(1 + Agents(es)))
    && (c.Some? ==> c.value != "" && !HasCompaction(es, c.value))
  }

  /** `e` may follow the episodes `es`. */
  ghost predicate MayFollow(env: Env, run: string, others: set<string>, es: seq<Episode>, e: Episode)
    requires run in env.runs
  {
    match e
    case Chain(c, base, ids, _) => MayStart(env, run, es, c, base) && FreshIds(ids, Ids(es) + others)
    case LocalCompaction(cid) => !Halted(es) && cid != "" && !HasCompaction(es, cid)
  }

  /**
    Agent requests are numbered 1, 2, 3, ...; compaction ids are prepared once; nothing
    follows an agent stop; attempt ids are fresh, also against those of other runs.
   */
  ghost predicate WellFormed(env: Env, run: string, others: set<string>, es: seq<Episode>)
    requires run in env.runs
  {
    Proper(es) && forall i :: 0 <= i < |es| ==> MayFollow(env, run, others, es[..i], es[i])
  }

  // --- The parser -----------------------------------------------------------------

  datatype OpenEpisode =
    | Idle
    | Waiting(compaction: Option<string>, base: Request, ids: seq<string>, inFlight: bool)

  datatype History = History(closed: seq<Episode>, open: OpenEpisode)

  ghost function AllIds(h: History): set<string> {
    Ids(h.closed) + if h.open.Waiting? then IdSet(h.open.ids) else {}
  }

  ghost predicate ValidHistory(env: Env, run: string, others: set<string>, h: History)
    requires run in env.runs
  {
    && WellFormed(env, run, others, h.closed)
    && (h.open.Waiting? ==>
          && MayStart(env, run, h.closed, h.open.compaction, h.open.base)
          && FreshIds(h.open.ids, Ids(h.closed) + others))
  }

  /** The run waits on attempt `id` of a chain for `c`, in flight or not as given. */
  predicate WaitsOn(h: History, c: Option<string>, id: Option<string>, inFlight: bool) {
    && h.open.Waiting? && h.open.ids != []
    && h.open.compaction == c && h.open.inFlight == inFlight && id == Some(Last(h.open.ids))
  }

  predicate Unused(h: History, others: set<string>, id: Option<string>) {
    && IsId(id) && id.value !in others && id.value !in Ids(h.closed)
    && (h.open.Waiting? ==> id.value !in h.open.ids)
  }

  function Start(env: Env, run: string, others: set<string>, h: History, c: Option<string>, id: Option<string>,
                 request: Option<Request>): Option<History>
    requires run in env.runs
  {
    if h.open.Idle? && request.Some? && Unused(h, others, id) && MayStart(env, run, h.closed, c, request.value) then
      Some(h.(open := Waiting(c, request.value, [id.value], false)))
    else None
  }

  function Send(h: History, c: Option<string>, id: Option<string>): Option<History> {
    if WaitsOn(h, c, id, false) then Some(h.(open := h.open.(inFlight := true))) else None
  }

  function Close(h: History, ending: Ending): History
    requires h.open.Waiting?
  {
    History(h.closed + [Chain(h.open.compaction, h.open.base, h.open.ids, ending)], Idle)
  }

  function Fail(others: set<string>, h: History, c: Option<string>, id: Option<string>,
                retry: Option<RetryDecision>): Option<History>
  {
    if !WaitsOn(h, c, id, true) then None
    else
      match retry
      case Some(StopRetrying) => Some(Close(h, Stopped))
      case Some(RetryWith(Some(plan))) =>
        if Unused(h, others, plan.attemptId) && plan.request == Some(Nth(h.open.base, |h.open.ids|)) then
          Some(h.(open := h.open.(ids := h.open.ids + [plan.attemptId.value], inFlight := false)))
        else None
      case _ => None
  }

  function Commit(h: History, c: Option<string>, id: Option<string>): Option<History> {
    if WaitsOn(h, c, id, true) then Some(Close(h, Committed)) else None
  }

  function CommitCompaction(h: History, c: Option<string>, hasOutput: bool): Option<History> {
    if !IsId(c) then None
    else if hasOutput then
      if h.open.Waiting? && h.open.ids != [] then Commit(h, c, Some(Last(h.open.ids))) else None
    else if h.open.Idle? && !Halted(h.closed) && !HasCompaction(h.closed, c.value) then
      Some(h.(closed := h.closed + [LocalCompaction(c.value)]))
    else None
  }

  /** Reads one event; fails exactly where no episode list can continue. */
  function Parse(env: Env, run: string, others: set<string>, h: History, e: Event): Option<History>
    requires run in env.runs
  {
    match e
    case ModelRequestPrepared(id, request) => Start(env, run, others, h, None, id, request)
    case ModelRequestInFlight(id) => Send(h, None, id)
    case ModelRequestFailed(id, retry) => Fail(others, h, None, id, retry)
    case ModelResponseCommitted(id) => Commit(h, None, id)
    case CompactionPrepared(c, id, request) => if c.None? then None else Start(env, run, others, h, c, id, request)
    case CompactionInFlight(c, id) => if c.None? then None else Send(h, c, id)
    case CompactionAttemptFailed(c, id, retry) => if c.None? then None else Fail(others, h, c, id, retry)
    case CompactionCommitted(c, hasOutput) => CommitCompaction(h, c, hasOutput)
    case Terminal => if h.open.Idle? then Some(h) else None
    case RunCreated => Some(h)
    case OtherEvent => Some(h)
  }

  function ParseAll(env: Env, run: string, others: set<string>, h: History, events: seq<Event>): Option<History>
    requires run in env.runs
    decreases |events|
  {
    if events == [] then Some(h)
    else
      match Parse(env, run, others, h, events[0])
      case None => None
      case Some(h') => ParseAll(env, run, others, h', events[1..])
  }
}
