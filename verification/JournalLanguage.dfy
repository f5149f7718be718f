/** Which files the journal reader accepts, said of the parsed lines. */
module JournalLanguage {
  import opened Basics
  import opened JournalModel
  import opened JournalChain

  /** The record names the schema and seals itself with the hash of its core. */
  predicate Sealed(k: Codec, r: Json) {
    && Wellformed(r)
    && Field(r.fields, "schema") == Some(Str(JOURNAL_SCHEMA))
    && Field(r.fields, "record_sha256") == Some(Str(HashOf(k, r)))
  }

  /** The hash the record at position `i` has to carry as its predecessor's. */
  function Before(k: Codec, rs: seq<Json>, previous: string, i: nat): string
    requires i <= |rs|
  {
    if i == 0 then previous else HashOf(k, rs[i - 1])
  }

  predicate Follows(k: Codec, r: Json, index: int, previous: string) {
    && Sealed(k, r)
    && EqualsInt(k, Some(r.fields["sequence"]), index)
    && r.fields["previous_record_sha256"] == Str(previous)
  }

  /** Line `i` is the record `rs[i]`, numbered, sealed and chained to the one before. */
  predicate ChainedAt(k: Codec, lines: seq<Bytes>, rs: seq<Json>, index: int, previous: string, i: nat)
    requires i < |lines| && i < |rs|
  {
    lines[i] != [] && k.parse(lines[i]) == Some(rs[i]) && Follows(k, rs[i], index + i, Before(k, rs, previous, i))
  }

  ghost predicate Chained(k: Codec, lines: seq<Bytes>, rs: seq<Json>, index: int, previous: string) {
    |rs| == |lines| && forall i :: 0 <= i < |rs| ==> ChainedAt(k, lines, rs, index, previous, i)
  }

  ghost predicate IsChain(k: Codec, lines: seq<Bytes>) {
    exists rs :: Chained(k, lines, rs, 1, ZERO_HASH)
  }

  lemma RecordIff(k: Codec, index: int, previous: string, line: Bytes)
    ensures CheckRecord(k, index, previous, line).Ok? <==>
      line != [] && k.parse(line).Some? && Follows(k, k.parse(line).value, index, previous)
    ensures CheckRecord(k, index, previous, line).Ok? ==>
      var r := k.parse(line).value; CheckRecord(k, index, previous, line).value == (r, HashOf(k, r))
  {
  }

  lemma ChainedRest(k: Codec, lines: seq<Bytes>, rs: seq<Json>, index: int, previous: string)
    requires lines != [] && |rs| == |lines|
    ensures Chained(k, lines, rs, index, previous) <==>
      && lines[0] != [] && k.parse(lines[0]) == Some(rs[0]) && Follows(k, rs[0], index, previous)
      && Chained(k, lines[1..], rs[1..], index + 1, HashOf(k, rs[0]))
  {
    var lines', rs', next, hash := lines[1..], rs[1..], index + 1, HashOf(k, rs[0]);
    if Chained(k, lines, rs, index, previous) {
      assert ChainedAt(k, lines, rs, index, previous, 0);
      forall j | 0 <= j < |rs'| ensures ChainedAt(k, lines', rs', next, hash, j) {
        assert ChainedAt(k, lines, rs, index, previous, j + 1);
      }
    }
    if Chained(k, lines', rs', next, hash) {
      forall i | 1 <= i < |rs| ensures ChainedAt(k, lines, rs, index, previous, i) {
        assert ChainedAt(k, lines', rs', next, hash, i - 1);
      }
    }
  }

  lemma {:induction false} ReadLinesIff(k: Codec, lines: seq<Bytes>, index: int, previous: string, rs: seq<Json>)
    ensures ReadLines(k, lines, index, previous) == Ok(rs) <==> Chained(k, lines, rs, index, previous)
    decreases |lines|
  {
    if lines != [] && rs != [] {
      RecordIff(k, index, previous, lines[0]);
      ReadLinesIff(k, lines[1..], index + 1, HashOf(k, rs[0]), rs[1..]);
      assert rs == [rs[0]] + rs[1..];
      if |rs| == |lines| { ChainedRest(k, lines, rs, index, previous); }
      ReadLength(k, lines, index, previous);
    }
  }

  lemma {:induction false} ReadLength(k: Codec, lines: seq<Bytes>, index: int, previous: string)
    ensures ReadLines(k, lines, index, previous).Ok? ==> |ReadLines(k, lines, index, previous).value| == |lines|
    decreases |lines|
  {
    if lines != [] && CheckRecord(k, index, previous, lines[0]).Ok? {
      ReadLength(k, lines[1..], index + 1, CheckRecord(k, index, previous, lines[0]).value.1);
    }
  }

  /**
    A file is accepted exactly when its tail is allowed and its complete lines parse to records that
    are numbered from one, each naming the schema, the hash of the record before it and its own hash.
   */
  lemma ReaderLanguage(k: Codec, raw: Bytes, allowPartialTail: bool)
    ensures ReadJournal(k, raw, allowPartialTail).Ok? <==>
      (allowPartialTail || Tail(raw) == []) && IsChain(k, Lines(raw))
    ensures ReadJournal(k, raw, allowPartialTail).Ok? ==>
      Chained(k, Lines(raw), ReadJournal(k, raw, allowPartialTail).value.records, 1, ZERO_HASH)
  {
    var lines := Lines(raw);
    var read := ReadLines(k, lines, 1, ZERO_HASH);
    if read.Ok? { ReadLinesIff(k, lines, 1, ZERO_HASH, read.value); }
    if IsChain(k, lines) {
      var rs :| Chained(k, lines, rs, 1, ZERO_HASH);
      ReadLinesIff(k, lines, 1, ZERO_HASH, rs);
    }
  }
}
