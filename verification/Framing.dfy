/** Reassembling newline-terminated frames from bytes that arrive in arbitrary chunks. */
module Framing {
  import opened Basics

  const MAX_STDIO_FRAME: nat := 4 * 1024 * 1024

  /** The most one read of the descriptor returns. */
  const MAX_READ: nat := 65_536

  // --- Reading frames --------------------------------------------------------------------

  /** What one wait on the descriptor yields: bytes (none at end of file), a spurious wake-up, or a failure. */
  datatype Arrival = Chunk(bytes: Bytes) | NotReady | Expired | Broken

  datatype FrameError = FrameInvalid | TimedOut | ReadFailed

  /** The first newline at or after `i`, or the length when there is none. */
  function Find(s: Bytes, i: nat): (k: nat)
    requires i <= |s|
    ensures i <= k <= |s|
    ensures forall j :: i <= j < k ==> s[j] != NEWLINE
    ensures k < |s| ==> s[k] == NEWLINE
    decreases |s| - i
  {
    if i == |s| || s[i] == NEWLINE then i else Find(s, i + 1)
  }

  datatype Reading = Reading(result: Result<Bytes, FrameError>, buffer: Bytes, pending: seq<Arrival>)

  /** One call: take a line from the buffer, or wait for more; nothing pending means the deadline passes. */
  function ReadOne(buffer: Bytes, pending: seq<Arrival>): Reading
    decreases |pending|
  {
    var k := Find(buffer, 0);
    if k < |buffer| then
      Reading(if k + 1 <= MAX_STDIO_FRAME then Ok(buffer[..k + 1]) else Err(FrameInvalid), buffer[k + 1..], pending)
    else if |buffer| > MAX_STDIO_FRAME then Reading(Err(FrameInvalid), buffer, pending)
    else if pending == [] then Reading(Err(TimedOut), buffer, [])
    else
      match pending[0]
      case NotReady => ReadOne(buffer, pending[1..])
      case Expired => Reading(Err(TimedOut), buffer, pending[1..])
      case Broken => Reading(Err(ReadFailed), buffer, pending[1..])
      case Chunk(b) =>
        if b == [] then Reading(Err(FrameInvalid), buffer, pending[1..]) else ReadOne(buffer + b, pending[1..])
  }

  class FrameReader {
    var buffer: Bytes
    var pending: seq<Arrival>

    constructor (arrivals: seq<Arrival>)
      ensures buffer == [] && pending == arrivals
    {
      buffer, pending := [], arrivals;
    }

    method ReadFrame() returns (r: Result<Bytes, FrameError>)
      modifies this
      ensures Reading(r, buffer, pending) == ReadOne(old(buffer), old(pending))
    {
      while true
        invariant ReadOne(buffer, pending) == ReadOne(old(buffer), old(pending))
        decreases |pending|
      {
        var k := Find(buffer, 0);
        if k < |buffer| {
          var line := buffer[..k + 1];
          buffer := buffer[k + 1..];
          return if |line| <= MAX_STDIO_FRAME then Ok(line) else Err(FrameInvalid);
        }
        if |buffer| > MAX_STDIO_FRAME { return Err(FrameInvalid); }
        if pending == [] { return Err(TimedOut); }
        var arrival := pending[0];
        pending := pending[1..];
        match arrival
        case NotReady =>
        case Expired => return Err(TimedOut);
        case Broken => return Err(ReadFailed);
        case Chunk(b) =>
          if b == [] { return Err(FrameInvalid); }
          buffer := buffer + b;
      }
    }
  }

  // --- The stream behind the arrivals ---------------------------------------------------------

  function BytesOf(a: Arrival): Bytes {
    if a.Chunk? then a.bytes else []
  }

  /** All the bytes of the arrivals. */
  function Flat(pending: seq<Arrival>): Bytes {
    if pending == [] then [] else BytesOf(pending[0]) + Flat(pending[1..])
  }

  /** An arrival after which the call goes on waiting. */
  predicate Continues(a: Arrival) {
    a.NotReady? || (a.Chunk? && a.bytes != [])
  }

  /** The bytes that arrive before a deadline, a failure or the end of the file. */
  function Live(pending: seq<Arrival>): Bytes {
    if pending == [] || !Continues(pending[0]) then [] else BytesOf(pending[0]) + Live(pending[1..])
  }

  /** What ends the live bytes, as the error it is reported as. */
  function Stop(pending: seq<Arrival>): FrameError {
    if pending == [] then TimedOut
    else
      match pending[0]
      case NotReady => Stop(pending[1..])
      case Expired => TimedOut
      case Broken => ReadFailed
      case Chunk(b) => if b == [] then FrameInvalid else Stop(pending[1..])
  }

  /** A line has one newline, at its end. */
  predicate IsLine(line: Bytes) {
    line != [] && Find(line, 0) == |line| - 1
  }

  /** The first newline is where it is, however many bytes follow. */
  lemma FindPrefix(s: Bytes, t: Bytes)
    ensures Find(s, 0) < |s| ==> Find(s + t, 0) == Find(s, 0)
    ensures Find(s, 0) == |s| ==> Find(s + t, 0) >= |s|
  {
    var k, all := Find(s, 0), s + t;
    assert forall j :: 0 <= j < |s| ==> all[j] == s[j];
    assert k < |s| ==> all[k] == NEWLINE;
  }

  lemma LineIsLine(s: Bytes)
    requires Find(s, 0) < |s|
    ensures IsLine(s[..Find(s, 0) + 1])
  {
    var k := Find(s, 0);
    var line := s[..k + 1];
    assert forall j :: 0 <= j < k ==> line[j] == s[j];
    assert line[k] == NEWLINE;
  }

  lemma Regroup(a: Bytes, b: Bytes, c: Bytes)
    ensures (a + b) + c == a + (b + c)
  {
  }

  /** Waiting moves the first arrival into the buffer and leaves the stream as it is. */
  lemma {:induction false} Moved(buffer: Bytes, pending: seq<Arrival>)
    requires pending != [] && Continues(pending[0])
    ensures (buffer + BytesOf(pending[0])) + Live(pending[1..]) == buffer + Live(pending)
    ensures (buffer + BytesOf(pending[0])) + Flat(pending[1..]) == buffer + Flat(pending)
    ensures Stop(pending) == Stop(pending[1..])
  {
    Regroup(buffer, BytesOf(pending[0]), Live(pending[1..]));
    Regroup(buffer, BytesOf(pending[0]), Flat(pending[1..]));
  }

  lemma ReadMoved(buffer: Bytes, pending: seq<Arrival>)
    requires Find(buffer, 0) == |buffer| <= MAX_STDIO_FRAME && pending != [] && Continues(pending[0])
    ensures ReadOne(buffer, pending) == ReadOne(buffer + BytesOf(pending[0]), pending[1..])
  {
    assert buffer + [] == buffer;
  }

  // --- The result does not depend on the chunks -----------------------------------------------

  /** What a call gives on a live stream `s` that ends with `stop`, without looking at chunks. */
  function Verdict(s: Bytes, stop: FrameError): Result<Bytes, FrameError> {
    var k := Find(s, 0);
    if k < |s| then if k + 1 <= MAX_STDIO_FRAME then Ok(s[..k + 1]) else Err(FrameInvalid)
    else if |s| > MAX_STDIO_FRAME then Err(FrameInvalid)
    else Err(stop)
  }

  /**
    For every split of the incoming bytes: a complete line within the limit is returned, a line over
    the limit is rejected whether complete or not, and otherwise what ended the stream is reported.
   */
  lemma {:induction false} ReadVerdict(buffer: Bytes, pending: seq<Arrival>)
    ensures ReadOne(buffer, pending).result == Verdict(buffer + Live(pending), Stop(pending))
    decreases |pending|
  {
    var s, k := buffer + Live(pending), Find(buffer, 0);
    FindPrefix(buffer, Live(pending));
    if k < |buffer| {
      assert s[..k + 1] == buffer[..k + 1];
    } else if |buffer| <= MAX_STDIO_FRAME {
      if pending != [] && Continues(pending[0]) {
        Moved(buffer, pending);
        ReadMoved(buffer, pending);
        ReadVerdict(buffer + BytesOf(pending[0]), pending[1..]);
      } else {
        assert s == buffer;
      }
    }
  }

  // --- What a call leaves behind ----------------------------------------------------------------

  /** How many bytes are in the buffer after the first `i` arrivals. */
  function BoundaryAt(buffer: Bytes, pending: seq<Arrival>, i: nat): nat
    requires i <= |pending|
  {
    |buffer| + |Flat(pending[..i])|
  }

  ghost predicate SplitAt(buffer: Bytes, pending: seq<Arrival>, k: nat, i: int) {
    0 <= i <= |pending| && MAX_STDIO_FRAME < BoundaryAt(buffer, pending, i) <= k
  }

  /** Some arrival ends after the limit but not after position `k`. */
  ghost predicate Split(buffer: Bytes, pending: seq<Arrival>, k: nat) {
    exists i :: SplitAt(buffer, pending, k, i)
  }

  /** How many bytes a call takes off the stream: the first line, if it is complete and was never split. */
  ghost function Taken(buffer: Bytes, pending: seq<Arrival>): nat {
    var s := buffer + Live(pending);
    var k := Find(s, 0);
    if k < |s| && !Split(buffer, pending, k) then k + 1 else 0
  }

  lemma BoundaryMoved(buffer: Bytes, pending: seq<Arrival>, i: nat)
    requires 0 < i <= |pending|
    ensures BoundaryAt(buffer, pending, i) == BoundaryAt(buffer + BytesOf(pending[0]), pending[1..], i - 1)
  {
    assert pending[..i][1..] == pending[1..][..i - 1];
  }

  /** While the buffer is within the limit, moving an arrival into it keeps the splits. */
  lemma SplitMoved(buffer: Bytes, pending: seq<Arrival>, k: nat)
    requires pending != [] && |buffer| <= MAX_STDIO_FRAME
    ensures Split(buffer, pending, k) <==> Split(buffer + BytesOf(pending[0]), pending[1..], k)
  {
    var next, rest := buffer + BytesOf(pending[0]), pending[1..];
    if Split(buffer, pending, k) {
      var i :| SplitAt(buffer, pending, k, i);
      assert i > 0 by { assert pending[..0] == []; }
      BoundaryMoved(buffer, pending, i);
      assert SplitAt(next, rest, k, i - 1);
    }
    if Split(next, rest, k) {
      var i :| SplitAt(next, rest, k, i);
      BoundaryMoved(buffer, pending, i + 1);
      assert SplitAt(buffer, pending, k, i + 1);
    }
  }

  lemma TakenMoved(buffer: Bytes, pending: seq<Arrival>)
    requires pending != [] && Continues(pending[0]) && |buffer| <= MAX_STDIO_FRAME
    ensures Taken(buffer, pending) == Taken(buffer + BytesOf(pending[0]), pending[1..])
  {
    Moved(buffer, pending);
    SplitMoved(buffer, pending, Find(buffer + Live(pending), 0));
  }

  /** A newline in the buffer comes before every boundary; an over-full buffer without one is a boundary. */
  lemma TakenNow(buffer: Bytes, pending: seq<Arrival>)
    ensures Find(buffer, 0) < |buffer| ==> Taken(buffer, pending) == Find(buffer, 0) + 1
    ensures Find(buffer, 0) == |buffer| > MAX_STDIO_FRAME ==> Taken(buffer, pending) == 0
    ensures Find(buffer, 0) == |buffer| && Live(pending) == [] ==> Taken(buffer, pending) == 0
  {
    var s := buffer + Live(pending);
    var k := Find(s, 0);
    FindPrefix(buffer, Live(pending));
    assert pending[..0] == [];
    if Find(buffer, 0) == |buffer| > MAX_STDIO_FRAME && k < |s| {
      assert SplitAt(buffer, pending, k, 0);
    }
  }

  ghost predicate Leaves(t: Bytes, taken: nat, x: Reading) {
    taken <= |t| && x.buffer + Flat(x.pending) == t[taken..]
  }

  /**
    A call takes exactly the first line off the stream, and only when it is complete and no arrival
    ended between the limit and its newline; in every other case the stream is left whole. So a line
    over the limit is dropped or kept depending on how its bytes arrived.
   */
  lemma {:induction false} ReadLeaves(buffer: Bytes, pending: seq<Arrival>)
    ensures Leaves(buffer + Flat(pending), Taken(buffer, pending), ReadOne(buffer, pending))
    decreases |pending|
  {
    var t, k := buffer + Flat(pending), Find(buffer, 0);
    TakenNow(buffer, pending);
    if k < |buffer| {
      assert t[k + 1..] == buffer[k + 1..] + Flat(pending);
    } else if |buffer| <= MAX_STDIO_FRAME && pending != [] {
      if Continues(pending[0]) {
        Moved(buffer, pending);
        ReadMoved(buffer, pending);
        TakenMoved(buffer, pending);
        ReadLeaves(buffer + BytesOf(pending[0]), pending[1..]);
      } else {
        assert Flat(pending) == Flat(pending[1..]);
      }
    }
  }

  /** A buffer over the limit without a newline rejects every later call, whatever arrives. */
  predicate Stuck(buffer: Bytes) {
    Find(buffer, 0) == |buffer| > MAX_STDIO_FRAME
  }

  /** Successive calls; before each of them more may arrive. */
  function Retry(buffer: Bytes, pending: seq<Arrival>, arrivals: seq<seq<Arrival>>): seq<Reading>
    decreases |arrivals|
  {
    if arrivals == [] then []
    else
      var x := ReadOne(buffer, pending + arrivals[0]);
      [x] + Retry(x.buffer, x.pending, arrivals[1..])
  }

  lemma {:induction false} StaysStuck(buffer: Bytes, pending: seq<Arrival>, arrivals: seq<seq<Arrival>>, i: nat)
    requires Stuck(buffer) && i < |arrivals|
    ensures var calls := Retry(buffer, pending, arrivals);
            |calls| == |arrivals| && calls[i].result == Err(FrameInvalid) && calls[i].buffer == buffer
    decreases |arrivals|
  {
    var x := ReadOne(buffer, pending + arrivals[0]);
    assert x == Reading(Err(FrameInvalid), buffer, pending + arrivals[0]);
    if |arrivals| > 1 { StaysStuck(buffer, x.pending, arrivals[1..], if i > 0 then i - 1 else 0); }
  }

  /** A rejection that leaves an over-limit stream whole leaves the reader stuck. */
  lemma {:induction false} KeptIsStuck(buffer: Bytes, pending: seq<Arrival>)
    requires Taken(buffer, pending) == 0 && |buffer + Live(pending)| > MAX_STDIO_FRAME
    requires ReadOne(buffer, pending).result == Err(FrameInvalid)
    ensures Stuck(ReadOne(buffer, pending).buffer)
    decreases |pending|
  {
    TakenNow(buffer, pending);
    if |buffer| <= MAX_STDIO_FRAME {
      Moved(buffer, pending);
      ReadMoved(buffer, pending);
      TakenMoved(buffer, pending);
      KeptIsStuck(buffer + BytesOf(pending[0]), pending[1..]);
    }
  }

  /**
    The fate of a complete line over the limit: it is always rejected; it is dropped exactly when no
    arrival ended between the limit and its newline, and otherwise it stays and the reader is stuck.
   */
  lemma RejectionLeaves(buffer: Bytes, pending: seq<Arrival>, k: nat)
    requires k == Find(buffer + Live(pending), 0) < |buffer + Live(pending)| && k + 1 > MAX_STDIO_FRAME
    ensures var t, x := buffer + Flat(pending), ReadOne(buffer, pending);
            && x.result == Err(FrameInvalid) && k < |t|
            && (!Split(buffer, pending, k) <==> x.buffer + Flat(x.pending) == t[k + 1..])
            && (Split(buffer, pending, k) <==> x.buffer + Flat(x.pending) == t)
            && (Split(buffer, pending, k) ==> Stuck(x.buffer))
  {
    ReadVerdict(buffer, pending);
    ReadLeaves(buffer, pending);
    LiveWithin(pending);
    if Split(buffer, pending, k) { KeptIsStuck(buffer, pending); }
  }

  lemma {:induction false} LiveWithin(pending: seq<Arrival>)
    ensures |Live(pending)| <= |Flat(pending)|
  {
    if pending != [] { LiveWithin(pending[1..]); }
  }

  /**
    A complete line over the limit that is kept is kept for good: every later call is rejected and
    leaves the buffer as it is, however many calls are made and whatever arrives between them.
   */
  lemma KeptForGood(buffer: Bytes, pending: seq<Arrival>, k: nat, arrivals: seq<seq<Arrival>>, i: nat)
    requires k == Find(buffer + Live(pending), 0) < |buffer + Live(pending)| && k + 1 > MAX_STDIO_FRAME
    requires Split(buffer, pending, k) && i < |arrivals|
    ensures var x := ReadOne(buffer, pending);
            var calls := Retry(x.buffer, x.pending, arrivals);
            |calls| == |arrivals| && calls[i].result == Err(FrameInvalid) && calls[i].buffer == x.buffer
  {
    RejectionLeaves(buffer, pending, k);
    var x := ReadOne(buffer, pending);
    StaysStuck(x.buffer, x.pending, arrivals, i);
  }

  function Zeros(n: nat): Bytes {
    seq(n, _ => 0)
  }

  /** `n` full reads of zeros. */
  function FullReads(n: nat): seq<Arrival> {
    seq(n, _ => Chunk(Zeros(MAX_READ)))
  }

  lemma ZerosJoin(a: nat, b: nat)
    ensures Zeros(a) + Zeros(b) == Zeros(a + b)
  {
  }

  lemma FirstRead(n: nat, rest: seq<Arrival>)
    requires n > 0
    ensures var pending := FullReads(n) + rest;
            pending[0] == Chunk(Zeros(MAX_READ)) && pending[1..] == FullReads(n - 1) + rest
  {
  }

  /** Full reads of zeros move into the buffer while it is within the limit. */
  lemma {:induction false} FullReadsMove(size: nat, n: nat, rest: seq<Arrival>)
    requires size + n * MAX_READ <= MAX_STDIO_FRAME + MAX_READ
    ensures ReadOne(Zeros(size), FullReads(n) + rest) == ReadOne(Zeros(size + n * MAX_READ), rest)
    decreases n
  {
    if n == 0 {
      assert FullReads(n) + rest == rest;
    } else {
      FullReadMoves(size, n, rest);
      FullReadsMove(size + MAX_READ, n - 1, rest);
    }
  }

  lemma FullReadMoves(size: nat, n: nat, rest: seq<Arrival>)
    requires size <= MAX_STDIO_FRAME && n > 0
    ensures ReadOne(Zeros(size), FullReads(n) + rest) == ReadOne(Zeros(size + MAX_READ), FullReads(n - 1) + rest)
  {
    FirstRead(n, rest);
    NoNewline(size);
    ReadMoved(Zeros(size), FullReads(n) + rest);
    ZerosJoin(size, MAX_READ);
  }

  lemma {:induction false} FullReadsLive(n: nat, rest: seq<Arrival>)
    ensures Live(FullReads(n) + rest) == Zeros(n * MAX_READ) + Live(rest)
  {
    if n == 0 {
      assert FullReads(n) + rest == rest;
    } else {
      FirstRead(n, rest);
      FullReadsLive(n - 1, rest);
      ZerosJoin(MAX_READ, (n - 1) * MAX_READ);
      Regroup(Zeros(MAX_READ), Zeros((n - 1) * MAX_READ), Live(rest));
    }
  }

  const DROPPED_READS := FullReads(64) + [Chunk([0, NEWLINE])]
  const KEPT_READS := FullReads(64) + [Chunk([0]), Chunk([NEWLINE])]

  /**
    The same over-limit line, read in two ways that differ in one boundary: dropped the first time,
    kept for good the second.
   */
  lemma TwoChunkings()
    ensures forall i :: 0 <= i < |DROPPED_READS| ==> DROPPED_READS[i].Chunk? && |DROPPED_READS[i].bytes| <= MAX_READ
    ensures forall i :: 0 <= i < |KEPT_READS| ==> KEPT_READS[i].Chunk? && |KEPT_READS[i].bytes| <= MAX_READ
    ensures Live(DROPPED_READS) == Live(KEPT_READS) == Zeros(MAX_STDIO_FRAME + 1) + [NEWLINE]
    ensures ReadOne([], DROPPED_READS) == Reading(Err(FrameInvalid), [], [])
    ensures ReadOne([], KEPT_READS) == Reading(Err(FrameInvalid), Zeros(MAX_STDIO_FRAME + 1), [Chunk([NEWLINE])])
    ensures Stuck(Zeros(MAX_STDIO_FRAME + 1))
  {
    DroppedRead();
    KeptRead();
    SameLive();
  }

  lemma DroppedRead()
    ensures ReadOne([], DROPPED_READS) == Reading(Err(FrameInvalid), [], [])
  {
    var full, last := Zeros(MAX_STDIO_FRAME), [Chunk([0, NEWLINE])];
    assert Zeros(0) == [];
    FullReadsMove(0, 64, last);
    NoNewline(MAX_STDIO_FRAME);
    ReadMoved(full, last);
    var x := Zeros(MAX_STDIO_FRAME + 1);
    LastZero(MAX_STDIO_FRAME);
    assert last[1..] == [];
    OverLimit();
    assert (x + [NEWLINE])[|x| + 1..] == [];
  }

  lemma KeptRead()
    ensures ReadOne([], KEPT_READS) == Reading(Err(FrameInvalid), Zeros(MAX_STDIO_FRAME + 1), [Chunk([NEWLINE])])
    ensures Stuck(Zeros(MAX_STDIO_FRAME + 1))
  {
    var full, last := Zeros(MAX_STDIO_FRAME), [Chunk([0]), Chunk([NEWLINE])];
    assert Zeros(0) == [];
    FullReadsMove(0, 64, last);
    NoNewline(MAX_STDIO_FRAME);
    ReadMoved(full, last);
    assert full + [0] == Zeros(MAX_STDIO_FRAME + 1) && last[1..] == [Chunk([NEWLINE])];
    OverLimit();
  }

  lemma LastLive()
    ensures Live([Chunk([0, NEWLINE])]) == [0, NEWLINE]
    ensures Live([Chunk([0]), Chunk([NEWLINE])]) == [0, NEWLINE]
  {
    var one, two := [Chunk([0, NEWLINE])], [Chunk([0]), Chunk([NEWLINE])];
    assert one[1..] == [] && two[1..] == [Chunk([NEWLINE])] && two[1..][1..] == [];
    assert Live(two[1..]) == [NEWLINE];
  }

  lemma SameLive()
    ensures Live(DROPPED_READS) == Live(KEPT_READS) == Zeros(MAX_STDIO_FRAME + 1) + [NEWLINE]
  {
    FullReadsLive(64, [Chunk([0, NEWLINE])]);
    FullReadsLive(64, [Chunk([0]), Chunk([NEWLINE])]);
    LastLive();
    LastZero(MAX_STDIO_FRAME);
  }

  lemma LastZero(n: nat)
    ensures Zeros(n) + [0, NEWLINE] == Zeros(n + 1) + [NEWLINE]
  {
  }

  lemma NoNewline(n: nat)
    ensures Find(Zeros(n), 0) == n
  {
    assert forall j :: 0 <= j < n ==> Zeros(n)[j] == 0;
  }

  lemma OverLimit()
    ensures var x := Zeros(MAX_STDIO_FRAME + 1); Stuck(x) && Find(x + [NEWLINE], 0) == |x|
  {
    var x := Zeros(MAX_STDIO_FRAME + 1);
    NoNewline(|x|);
    FindPrefix(x, [NEWLINE]);
    assert (x + [NEWLINE])[|x|] == NEWLINE;
  }

  // --- Whole sessions -----------------------------------------------------------------------------

  /** Successive calls up to the first failure: the frames, the failure, and what is left. */
  datatype Session = Session(frames: seq<Bytes>, error: Option<FrameError>, buffer: Bytes, pending: seq<Arrival>)

  function ReadMany(buffer: Bytes, pending: seq<Arrival>, n: nat): Session
    decreases n
  {
    if n == 0 then Session([], None, buffer, pending)
    else
      var x := ReadOne(buffer, pending);
      match x.result
      case Err(e) => Session([], Some(e), x.buffer, x.pending)
      case Ok(line) =>
        var rest := ReadMany(x.buffer, x.pending, n - 1);
        rest.(frames := [line] + rest.frames)
  }

  datatype Transcript = Transcript(frames: seq<Bytes>, error: Option<FrameError>)

  /** What `n` calls give on the stream `s`, without looking at chunks. */
  function Expected(s: Bytes, stop: FrameError, n: nat): Transcript
    decreases n
  {
    if n == 0 then Transcript([], None)
    else
      match Verdict(s, stop)
      case Err(e) => Transcript([], Some(e))
      case Ok(line) =>
        var rest := Expected(s[|line|..], stop, n - 1);
        rest.(frames := [line] + rest.frames)
  }

  /** A returned line comes off the front of the live stream, and what ends the stream stays. */
  lemma {:induction false} OkAdvances(buffer: Bytes, pending: seq<Arrival>)
    requires ReadOne(buffer, pending).result.Ok?
    ensures var s, x := buffer + Live(pending), ReadOne(buffer, pending);
            && |x.result.value| <= |s| && x.buffer + Live(x.pending) == s[|x.result.value|..]
            && Stop(x.pending) == Stop(pending)
    decreases |pending|
  {
    var k := Find(buffer, 0);
    if k < |buffer| {
      assert (buffer + Live(pending))[k + 1..] == buffer[k + 1..] + Live(pending);
    } else {
      Moved(buffer, pending);
      ReadMoved(buffer, pending);
      OkAdvances(buffer + BytesOf(pending[0]), pending[1..]);
    }
  }

  /** The frames and the failure of a session are those of the stream, for every way it arrives. */
  lemma {:induction false} SessionTranscript(buffer: Bytes, pending: seq<Arrival>, n: nat)
    ensures var y := ReadMany(buffer, pending, n);
            Transcript(y.frames, y.error) == Expected(buffer + Live(pending), Stop(pending), n)
    decreases n
  {
    if n > 0 {
      ReadVerdict(buffer, pending);
      var x := ReadOne(buffer, pending);
      if x.result.Ok? {
        OkAdvances(buffer, pending);
        SessionTranscript(x.buffer, x.pending, n - 1);
      }
    }
  }

  /**
    Chunking independence: any number of calls gives the same frames and the same failure for all
    ways in which the same bytes arrive before the same end.
   */
  lemma ChunkingIndependent(buffer: Bytes, pending: seq<Arrival>, buffer': Bytes, other: seq<Arrival>, n: nat)
    requires buffer + Live(pending) == buffer' + Live(other) && Stop(pending) == Stop(other)
    ensures ReadMany(buffer, pending, n).frames == ReadMany(buffer', other, n).frames
    ensures ReadMany(buffer, pending, n).error == ReadMany(buffer', other, n).error
  {
    SessionTranscript(buffer, pending, n);
    SessionTranscript(buffer', other, n);
  }

  /** The stream is the frames, what the failing call dropped, and what is left. */
  ghost predicate Accounts(t: Bytes, y: Session, dropped: Bytes) {
    && t == Join(y.frames) + dropped + (y.buffer + Flat(y.pending))
    && (dropped != [] ==> y.error == Some(FrameInvalid) && IsLine(dropped) && |dropped| > MAX_STDIO_FRAME)
  }

  lemma {:induction false} LivePrefix(pending: seq<Arrival>)
    ensures Live(pending) <= Flat(pending)
  {
    if pending != [] { LivePrefix(pending[1..]); }
  }

  /** What a call takes off the stream is the line it returns, or an over-limit line it rejects. */
  lemma TakenLine(buffer: Bytes, pending: seq<Arrival>)
    ensures var t, taken, r := buffer + Flat(pending), Taken(buffer, pending), ReadOne(buffer, pending).result;
            && taken <= |t|
            && (r.Ok? ==> taken > 0 && r.value == t[..taken])
            && (r.Err? && taken > 0 ==> r == Err(FrameInvalid) && IsLine(t[..taken]) && taken > MAX_STDIO_FRAME)
  {
    var s, t := buffer + Live(pending), buffer + Flat(pending);
    LivePrefix(pending);
    ReadVerdict(buffer, pending);
    var k := Find(s, 0);
    assert s <= t;
    if k < |s| {
      assert s[..k + 1] == t[..k + 1];
      LineIsLine(s);
    }
  }

  lemma {:induction false} JoinCons(line: Bytes, frames: seq<Bytes>)
    ensures Join([line] + frames) == line + Join(frames)
  {
    var all := [line] + frames;
    if frames == [] {
      assert all[..0] == [];
    } else {
      var n := |frames| - 1;
      JoinCons(line, frames[..n]);
      assert all[..|frames|] == [line] + frames[..n];
      Regroup(line, Join(frames[..n]), frames[n]);
    }
  }

  lemma FramesCons(line: Bytes, frames: seq<Bytes>, dropped: Bytes, rest: Bytes)
    ensures Join([line] + frames) + dropped + rest == line + (Join(frames) + dropped + rest)
  {
    JoinCons(line, frames);
    Regroup(line, Join(frames), dropped);
    Regroup(line, Join(frames) + dropped, rest);
  }

  lemma AccountsCons(line: Bytes, t: Bytes, y: Session, dropped: Bytes)
    requires Accounts(t, y, dropped)
    ensures Accounts(line + t, y.(frames := [line] + y.frames), dropped)
  {
    FramesCons(line, y.frames, dropped, y.buffer + Flat(y.pending));
  }

  lemma AccountsLast(dropped: Bytes, t: Bytes, y: Session)
    requires y.frames == [] && t == y.buffer + Flat(y.pending)
    requires dropped != [] ==> y.error == Some(FrameInvalid) && IsLine(dropped) && |dropped| > MAX_STDIO_FRAME
    ensures Accounts(dropped + t, y, dropped)
  {
    assert Join([]) + dropped == dropped;
  }

  lemma CallReturns(buffer: Bytes, pending: seq<Arrival>)
    requires ReadOne(buffer, pending).result.Ok?
    ensures var x := ReadOne(buffer, pending);
            buffer + Flat(pending) == x.result.value + (x.buffer + Flat(x.pending))
  {
    ReadLeaves(buffer, pending);
    TakenLine(buffer, pending);
  }

  lemma CallFails(buffer: Bytes, pending: seq<Arrival>) returns (dropped: Bytes)
    requires ReadOne(buffer, pending).result.Err?
    ensures var x := ReadOne(buffer, pending);
            Accounts(buffer + Flat(pending), Session([], Some(x.result.error), x.buffer, x.pending), dropped)
  {
    var t, taken, x := buffer + Flat(pending), Taken(buffer, pending), ReadOne(buffer, pending);
    ReadLeaves(buffer, pending);
    TakenLine(buffer, pending);
    dropped := t[..taken];
    assert t == dropped + t[taken..];
    AccountsLast(dropped, t[taken..], Session([], Some(x.result.error), x.buffer, x.pending));
  }

  /**
    Conservation over any number of calls and any arrivals: frames, buffer and pending bytes make up
    the stream, but for the one over-limit line that the last call may have dropped.
   */
  lemma {:induction false} SessionConserves(buffer: Bytes, pending: seq<Arrival>, n: nat) returns (dropped: Bytes)
    ensures Accounts(buffer + Flat(pending), ReadMany(buffer, pending, n), dropped)
    decreases n
  {
    if n == 0 {
      dropped := [];
      AccountsLast([], buffer + Flat(pending), Session([], None, buffer, pending));
    } else if ReadOne(buffer, pending).result.Ok? {
      var x := ReadOne(buffer, pending);
      dropped := SessionConserves(x.buffer, x.pending, n - 1);
      CallReturns(buffer, pending);
      AccountsCons(x.result.value, x.buffer + Flat(x.pending), ReadMany(x.buffer, x.pending, n - 1), dropped);
    } else {
      dropped := CallFails(buffer, pending);
    }
  }
}
