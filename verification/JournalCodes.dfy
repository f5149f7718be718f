/** Which code a rejected journal gets, and the one a changed payload gets. */
module JournalCodes {
  import opened Basics
  import opened JournalModel
  import opened JournalCrash
  import opened JournalChain
  import opened JournalLanguage

  // --- The code of a line ---------------------------------------------------------------------

  /** The parsed record names the schema, its number and the hash before it, and carries a payload. */
  predicate Placed(k: Codec, r: Json, index: int, previous: string) {
    && Wellformed(r) && Field(r.fields, "schema") == Some(Str(JOURNAL_SCHEMA))
    && EqualsInt(k, Some(r.fields["sequence"]), index)
    && r.fields["previous_record_sha256"] == Str(previous)
  }

  predicate CodeOf(k: Codec, index: int, previous: string, line: Bytes, code: Code) {
    match code
    case JournalBlankRecord => line == []
    case JournalRecordInvalid => line != [] && k.parse(line).None?
    case JournalChainInvalid => line != [] && k.parse(line).Some? && !Placed(k, k.parse(line).value, index, previous)
    case JournalHashInvalid =>
      && line != [] && k.parse(line).Some? && Placed(k, k.parse(line).value, index, previous)
      && Field(k.parse(line).value.fields, "record_sha256") != Some(Str(HashOf(k, k.parse(line).value)))
    case _ => false
  }

  lemma LineCode(k: Codec, index: int, previous: string, line: Bytes, code: Code)
    ensures CheckRecord(k, index, previous, line) == Err(code) <==> CodeOf(k, index, previous, line, code)
  {
  }

  // --- The code of a file ------------------------------------------------------------------------

  /** The first `i` lines are the chained records `rs`, and the next line is rejected with this code. */
  ghost predicate FailsAt(k: Codec, lines: seq<Bytes>, rs: seq<Json>, i: int, code: Code) {
    && 0 <= i < |lines| && Chained(k, lines[..i], rs, 1, ZERO_HASH)
    && CodeOf(k, 1 + i, Before(k, rs, ZERO_HASH, i), lines[i], code)
  }

  lemma {:induction false} ReadPrefix(
    k: Codec, lines: seq<Bytes>, index: int, previous: string, rs: seq<Json>, i: nat)
    requires i < |lines| && Chained(k, lines[..i], rs, index, previous)
    ensures var r := CheckRecord(k, index + i, Before(k, rs, previous, i), lines[i]);
            r.Err? ==> ReadLines(k, lines, index, previous) == Err(r.error)
    decreases i
  {
    if i > 0 {
      var hash := HashOf(k, rs[0]);
      ChainedRest(k, lines[..i], rs, index, previous);
      RecordIff(k, index, previous, lines[0]);
      assert lines[..i][1..] == lines[1..][..i - 1];
      ReadPrefix(k, lines[1..], index + 1, hash, rs[1..], i - 1);
      assert Before(k, rs[1..], hash, i - 1) == Before(k, rs, previous, i);
    }
  }

  lemma {:induction false} FirstRejected(k: Codec, lines: seq<Bytes>, index: int, previous: string)
    returns (rs: seq<Json>, i: nat)
    requires ReadLines(k, lines, index, previous).Err?
    ensures i < |lines| && Chained(k, lines[..i], rs, index, previous)
    ensures CheckRecord(k, index + i, Before(k, rs, previous, i), lines[i])
         == Err(ReadLines(k, lines, index, previous).error)
    decreases |lines|
  {
    var r := CheckRecord(k, index, previous, lines[0]);
    if r.Err? {
      rs, i := [], 0;
    } else {
      var rest, j := FirstRejected(k, lines[1..], index + 1, r.value.1);
      RecordIff(k, index, previous, lines[0]);
      rs, i := [r.value.0] + rest, j + 1;
      assert rs[1..] == rest && lines[..i][1..] == lines[1..][..j];
      ChainedRest(k, lines[..i], rs, index, previous);
      assert Before(k, rs, previous, i) == Before(k, rest, r.value.1, j);
    }
  }

  lemma FailsReads(k: Codec, lines: seq<Bytes>, rs: seq<Json>, i: nat, code: Code)
    requires FailsAt(k, lines, rs, i, code)
    ensures ReadLines(k, lines, 1, ZERO_HASH) == Err(code)
  {
    LineCode(k, 1 + i, Before(k, rs, ZERO_HASH, i), lines[i], code);
    ReadPrefix(k, lines, 1, ZERO_HASH, rs, i);
  }

  lemma ReadFails(k: Codec, lines: seq<Bytes>) returns (rs: seq<Json>, i: nat)
    requires ReadLines(k, lines, 1, ZERO_HASH).Err?
    ensures FailsAt(k, lines, rs, i, ReadLines(k, lines, 1, ZERO_HASH).error)
  {
    rs, i := FirstRejected(k, lines, 1, ZERO_HASH);
    LineCode(k, 1 + i, Before(k, rs, ZERO_HASH, i), lines[i], ReadLines(k, lines, 1, ZERO_HASH).error);
  }

  ghost predicate SomeLineFails(k: Codec, lines: seq<Bytes>, code: Code) {
    exists rs, i :: FailsAt(k, lines, rs, i, code)
  }

  lemma LinesCode(k: Codec, lines: seq<Bytes>, code: Code)
    ensures ReadLines(k, lines, 1, ZERO_HASH) == Err(code) <==> SomeLineFails(k, lines, code)
  {
    if ReadLines(k, lines, 1, ZERO_HASH) == Err(code) { var rs, i := ReadFails(k, lines); }
    if SomeLineFails(k, lines, code) {
      var rs, i :| FailsAt(k, lines, rs, i, code);
      FailsReads(k, lines, rs, i, code);
    }
  }

  /**
    Every rejection, with its code: a partial tail that is not allowed, or else the first line that does
    not continue the chain, with the code of what is wrong with it.
   */
  lemma RejectionCode(k: Codec, raw: Bytes, allowPartialTail: bool, code: Code)
    ensures ReadJournal(k, raw, allowPartialTail) == Err(code) <==>
      if Tail(raw) != [] && !allowPartialTail then code == JournalPartialTail
      else SomeLineFails(k, Lines(raw), code)
  {
    LinesCode(k, Lines(raw), code);
  }

  // --- How a number may be spelled -------------------------------------------------------------------

  /** The number of a record may be an integer, a double, or, for one, the value true. */
  predicate Spells(k: Codec, v: Json, n: int) {
    v == Int(n) || (v.Float? && k.whole(v.bits) == Some(n)) || (v == Bool(true) && n == 1)
  }

  lemma SpellsIff(k: Codec, v: Json, n: int)
    requires n >= 1
    ensures EqualsInt(k, Some(v), n) <==> Spells(k, v, n)
  {
  }

  /** A sealed first record is accepted exactly when its number spells one, and true is such a number. */
  lemma FirstNumber(k: Codec, payload: Payload, v: Json, allowPartialTail: bool)
    requires Lawful(k)
    ensures var record := Record(k, RecordCore(v, Str(ZERO_HASH), Obj(payload)));
            ReadJournal(k, k.canonical(record) + [NEWLINE], allowPartialTail).Ok? <==> Spells(k, v, 1)
  {
    var record := Record(k, RecordCore(v, Str(ZERO_HASH), Obj(payload)));
    var line := k.canonical(record);
    OneLine(line);
    SpellsIff(k, v, 1);
    var none: seq<Bytes> := [];
    assert [line][1..] == none;
    assert ReadLines(k, [line], 1, ZERO_HASH).Ok? <==> CheckRecord(k, 1, ZERO_HASH, line).Ok?;
    RecordIff(k, 1, ZERO_HASH, line);
  }

  // --- A changed payload ---------------------------------------------------------------------------

  /** The file that consists of these lines. */
  function FileOf(lines: seq<Bytes>): Bytes {
    if lines == [] then [] else FileOf(lines[..|lines| - 1]) + (lines[|lines| - 1] + [NEWLINE])
  }

  lemma {:induction false} FileLines(lines: seq<Bytes>)
    requires forall i :: 0 <= i < |lines| ==> NEWLINE !in lines[i]
    ensures Closed(FileOf(lines)) && Lines(FileOf(lines)) == lines && Tail(FileOf(lines)) == []
  {
    if lines != [] {
      var before, line := lines[..|lines| - 1], lines[|lines| - 1];
      FileLines(before);
      ClosedConcat(FileOf(before), line + [NEWLINE]);
      OneLine(line);
      assert before + [line] == lines;
    }
  }

  /** Record `i` of the journal with another payload and everything else as it was. */
  function Changed(k: Codec, ps: seq<Payload>, i: nat, q: Payload): Json
    requires i < |ps|
  {
    Obj(Record(k, CoreAt(k, ps, i)).fields["payload" := Obj(q)])
  }

  function ChangedFile(k: Codec, ps: seq<Payload>, i: nat, q: Payload): Bytes
    requires i < |ps|
  {
    FileOf(JournalLines(k, ps)[i := k.canonical(Changed(k, ps, i, q))])
  }

  lemma ChangedLines(k: Codec, ps: seq<Payload>, i: nat, q: Payload)
    requires Lawful(k) && i < |ps|
    ensures var raw := ChangedFile(k, ps, i, q);
            Lines(raw) == JournalLines(k, ps)[i := k.canonical(Changed(k, ps, i, q))] && Tail(raw) == []
  {
    var lines := JournalLines(k, ps)[i := k.canonical(Changed(k, ps, i, q))];
    forall j | 0 <= j < |lines| ensures NEWLINE !in lines[j] {
      if j != i { assert lines[j] == LineAt(k, ps, j); }
    }
    FileLines(lines);
  }

  /** The changed record keeps its place, but its hash is that of the core before the change. */
  lemma ChangedCode(k: Codec, ps: seq<Payload>, i: nat, q: Payload)
    requires Lawful(k) && i < |ps| && q != ps[i]
    ensures var core, other := CoreAt(k, ps, i), Core(i + 1, Head(k, ps[..i]), q);
            || Collision(k.hash, k.canonical(core), k.canonical(other))
            || CodeOf(k, 1 + i, Head(k, ps[..i]), k.canonical(Changed(k, ps, i, q)), JournalHashInvalid)
  {
    var core, other, r := CoreAt(k, ps, i), Core(i + 1, Head(k, ps[..i]), q), Changed(k, ps, i, q);
    assert k.parse(k.canonical(r)) == Some(r);
    assert core.fields["payload"] != other.fields["payload"];
    assert k.parse(k.canonical(core)) != k.parse(k.canonical(other));
    ChangedRecord(k, ps, i, q);
  }

  lemma ChangedRecord(k: Codec, ps: seq<Payload>, i: nat, q: Payload)
    requires i < |ps|
    ensures var r, previous := Changed(k, ps, i, q), Head(k, ps[..i]);
            && Placed(k, r, 1 + i, previous) && CoreOf(r) == Core(i + 1, previous, q)
            && Field(r.fields, "record_sha256") == Some(Str(CanonicalHash(k, CoreAt(k, ps, i))))
  {
  }

  lemma OwnPrefix(k: Codec, ps: seq<Payload>, i: nat, line: Bytes)
    requires Lawful(k) && i < |ps|
    ensures Chained(k, JournalLines(k, ps)[i := line][..i], Records(k, ps)[..i], 1, ZERO_HASH)
    ensures Before(k, Records(k, ps)[..i], ZERO_HASH, i) == Head(k, ps[..i])
  {
    var lines, rs := JournalLines(k, ps)[..i], Records(k, ps[..i]);
    OwnJournalAccepted(k, ps[..i]);
    ReadLinesIff(k, JournalLines(k, ps[..i]), 1, ZERO_HASH, rs);
    RecordsBefore(k, ps, i);
    LinesBefore(k, ps, i);
    assert JournalLines(k, ps)[i := line][..i] == lines;
    if i > 0 {
      OwnHash(k, ps, i - 1);
      assert ps[..i - 1 + 1] == ps[..i];
    }
  }

  lemma LinesBefore(k: Codec, ps: seq<Payload>, i: nat)
    requires i <= |ps|
    ensures JournalLines(k, ps[..i]) == JournalLines(k, ps)[..i]
  {
    forall j | 0 <= j < i ensures JournalLines(k, ps[..i])[j] == JournalLines(k, ps)[j] {
      CoresBefore(k, ps, i, j);
    }
  }

  /**
    A journal in which one payload is replaced by a different one, and nothing else is touched, is
    rejected with the code for an invalid hash, or a collision of the hash is at hand.
   */
  lemma ChangedPayloadRejected(k: Codec, ps: seq<Payload>, i: nat, q: Payload, allowPartialTail: bool)
    requires Lawful(k) && i < |ps| && q != ps[i]
    ensures || Collision(k.hash, k.canonical(CoreAt(k, ps, i)), k.canonical(Core(i + 1, Head(k, ps[..i]), q)))
            || ReadJournal(k, ChangedFile(k, ps, i, q), allowPartialTail) == Err(JournalHashInvalid)
  {
    var line := k.canonical(Changed(k, ps, i, q));
    var lines := JournalLines(k, ps)[i := line];
    ChangedLines(k, ps, i, q);
    ChangedCode(k, ps, i, q);
    OwnPrefix(k, ps, i, line);
    if CodeOf(k, 1 + i, Head(k, ps[..i]), line, JournalHashInvalid) {
      assert FailsAt(k, lines, Records(k, ps)[..i], i, JournalHashInvalid);
      FailsReads(k, lines, Records(k, ps)[..i], i, JournalHashInvalid);
    }
  }
}
