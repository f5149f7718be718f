/**
  The observer journal: one canonical JSON record per line, each carrying the hash of the
  record before it and its own hash. Serializer, parser and hash are parameters.
 */
module JournalModel {
  import opened Basics

  const JOURNAL_SCHEMA := "codewhale.eval.m7-g2-observer-journal.v1"
  const ZERO_HASH := "sha256:0000000000000000000000000000000000000000000000000000000000000000"

  /** The 64 bits of a finite floating-point number: its exponent bits are not all ones. */
  type Double = bits: nat | bits < 0x1_0000_0000_0000_0000 && (bits / 0x10_0000_0000_0000) % 2048 != 2047 witness 0

  datatype Json =
    | Null
    | Bool(truth: bool)
    | Int(i: int)
    | Float(bits: Double)
    | Str(text: string)
    | Arr(items: seq<Json>)
    | Obj(fields: map<string, Json>)

  /** `whole` is the integer a floating-point number equals, if it equals one. */
  datatype Codec = Codec(
    canonical: Json -> Bytes, parse: Bytes -> Option<Json>, hash: Bytes -> string, whole: Double -> Option<int>)

  /**
    Parsing undoes canonical serialization, as it does when a finite number is written with the digits
    that identify it; and the serialized text is one nonempty line, because section 7 of RFC 8259 has
    control characters in strings escaped.
   */
  ghost predicate Lawful(k: Codec) {
    forall v :: k.parse(k.canonical(v)) == Some(v) && k.canonical(v) != [] && NEWLINE !in k.canonical(v)
  }

  datatype Code =
    | OfflineRecordIdentityInvalid
    | JournalWriteFailed
    | JournalPartialTail
    | JournalBlankRecord
    | JournalRecordInvalid
    | JournalChainInvalid
    | JournalHashInvalid

  // --- Records ------------------------------------------------------------------

  type Payload = map<string, Json>

  function RecordCore(sequence: Json, previous: Json, payload: Json): Json {
    Obj(map["schema" := Str(JOURNAL_SCHEMA), "sequence" := sequence,
            "previous_record_sha256" := previous, "payload" := payload])
  }

  function CanonicalHash(k: Codec, v: Json): string {
    k.hash(k.canonical(v))
  }

  function Record(k: Codec, core: Json): Json
    requires core.Obj?
  {
    Obj(core.fields["record_sha256" := Str(CanonicalHash(k, core))])
  }

  function Core(n: nat, previous: string, payload: Payload): Json {
    RecordCore(Int(n), Str(previous), Obj(payload))
  }

  /** One journal line with its newline, and the hash the next record must carry. */
  function EncodeRecord(k: Codec, n: nat, previous: string, payload: Payload): (Bytes, string) {
    var core := Core(n, previous, payload);
    (k.canonical(Record(k, core)) + [NEWLINE], CanonicalHash(k, core))
  }

  // --- The journal written by a sequence of emits ----------------------------------

  /** The hash of the last record, or the zero hash. */
  function Head(k: Codec, ps: seq<Payload>): string {
    if ps == [] then ZERO_HASH
    else
      var n := |ps| - 1;
      EncodeRecord(k, n + 1, Head(k, ps[..n]), ps[n]).1
  }

  function Written(k: Codec, ps: seq<Payload>): Bytes {
    if ps == [] then []
    else
      var n := |ps| - 1;
      Written(k, ps[..n]) + EncodeRecord(k, n + 1, Head(k, ps[..n]), ps[n]).0
  }

  function CoreAt(k: Codec, ps: seq<Payload>, i: nat): Json
    requires i < |ps|
  {
    Core(i + 1, Head(k, ps[..i]), ps[i])
  }

  /** The parsed records of the journal, in order. */
  function Records(k: Codec, ps: seq<Payload>): seq<Json> {
    seq(|ps|, i requires 0 <= i < |ps| => Record(k, CoreAt(k, ps, i)))
  }

  // --- Reading --------------------------------------------------------------------

  /** The newline-terminated lines of the file, without their newlines. */
  function Lines(raw: Bytes): seq<Bytes> {
    if raw == [] then []
    else
      var n := |raw| - 1;
      if raw[n] == NEWLINE then Lines(raw[..n]) + [Tail(raw[..n])] else Lines(raw[..n])
  }

  /** What follows the last newline. */
  function Tail(raw: Bytes): Bytes {
    if raw == [] || raw[|raw| - 1] == NEWLINE then []
    else Tail(raw[..|raw| - 1]) + [raw[|raw| - 1]]
  }

  /** A JSON value that compares equal to the number, as true compares equal to one. */
  predicate EqualsInt(k: Codec, v: Option<Json>, n: int) {
    match v
    case Some(Int(i)) => i == n
    case Some(Float(bits)) => k.whole(bits) == Some(n)
    case Some(Bool(b)) => n == if b then 1 else 0
    case _ => false
  }

  function Field(fields: map<string, Json>, name: string): Option<Json> {
    if name in fields then Some(fields[name]) else None
  }

  /** Checks the record at position `index` against the running hash, and returns its own hash. */
  function CheckRecord(k: Codec, index: int, previous: string, line: Bytes): Result<(Json, string), Code> {
    if line == [] then Err(JournalBlankRecord)
    else
      match k.parse(line)
      case None => Err(JournalRecordInvalid)
      case Some(Obj(fs)) =>
        if Field(fs, "schema") != Some(Str(JOURNAL_SCHEMA)) || !EqualsInt(k, Field(fs, "sequence"), index)
           || Field(fs, "previous_record_sha256") != Some(Str(previous))
           || "payload" !in fs || !fs["payload"].Obj? then
          Err(JournalChainInvalid)
        else
          var core := RecordCore(fs["sequence"], Str(previous), fs["payload"]);
          if Field(fs, "record_sha256") != Some(Str(CanonicalHash(k, core))) then Err(JournalHashInvalid)
          else Ok((Obj(fs), CanonicalHash(k, core)))
      case Some(_) => Err(JournalChainInvalid)
  }

  function ReadLines(k: Codec, lines: seq<Bytes>, index: int, previous: string): Result<seq<Json>, Code> {
    if lines == [] then Ok([])
    else
      var r :- CheckRecord(k, index, previous, lines[0]);
      var rest :- ReadLines(k, lines[1..], index + 1, r.1);
      Ok([r.0] + rest)
  }

  datatype Audit = Audit(records: seq<Json>, complete: bool, partialTailBytes: nat)

  function ReadJournal(k: Codec, raw: Bytes, allowPartialTail: bool): Result<Audit, Code> {
    if Tail(raw) != [] && !allowPartialTail then Err(JournalPartialTail)
    else
      var records :- ReadLines(k, Lines(raw), 1, ZERO_HASH);
      Ok(Audit(records, raw != [] && raw[|raw| - 1] == NEWLINE, |Tail(raw)|))
  }

  /** The reader as it runs: one pass over the lines with a running hash. */
  method Read(k: Codec, raw: Bytes, allowPartialTail: bool) returns (r: Result<Audit, Code>)
    ensures r == ReadJournal(k, raw, allowPartialTail)
  {
    var complete := raw != [] && raw[|raw| - 1] == NEWLINE;
    var parts, tail := Lines(raw), Tail(raw);
    if tail != [] && !allowPartialTail { return Err(JournalPartialTail); }
    var records: seq<Json>, previous := [], ZERO_HASH;
    ghost var want := ReadLines(k, parts, 1, ZERO_HASH);
    assert parts[0..] == parts && (want.Ok? ==> [] + want.value == want.value);
    for i := 0 to |parts|
      invariant match ReadLines(k, parts[i..], i + 1, previous)
                case Ok(rest) => want == Ok(records + rest)
                case Err(code) => want == Err(code)
    {
      assert parts[i..][1..] == parts[i + 1..];
      var checked :- CheckRecord(k, i + 1, previous, parts[i]);
      ghost var rest := ReadLines(k, parts[i + 1..], i + 2, checked.1);
      assert rest.Ok? ==> records + ([checked.0] + rest.value) == (records + [checked.0]) + rest.value;
      records := records + [checked.0];
      previous := checked.1;
    }
    assert records + [] == records;
    r := Ok(Audit(records, complete, |tail|));
  }
}
