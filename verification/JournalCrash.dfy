/**
  Crash recovery: whatever byte the file is cut at, reading it back yields exactly the
  records whose lines are wholly inside the cut, and the length of what is left over.
 */
module JournalCrash {
  import opened Basics
  import opened JournalModel

  // --- Lines of a concatenation -----------------------------------------------------

  ghost predicate Closed(raw: Bytes) {
    raw == [] || raw[|raw| - 1] == NEWLINE
  }

  lemma {:induction false} ClosedConcat(a: Bytes, b: Bytes)
    requires Closed(a)
    ensures Lines(a + b) == Lines(a) + Lines(b)
    ensures Tail(a + b) == Tail(b)
    decreases |b|
  {
    if b == [] {
      assert a + b == a && Lines(a) + [] == Lines(a);
    } else {
      var n := |b| - 1;
      assert (a + b)[..|a| + n] == a + b[..n];
      ClosedConcat(a, b[..n]);
      assert (Lines(a) + Lines(b[..n])) + [Tail(b[..n])] == Lines(a) + (Lines(b[..n]) + [Tail(b[..n])]);
    }
  }

  lemma {:induction false} NoLine(line: Bytes)
    requires NEWLINE !in line
    ensures Lines(line) == [] && Tail(line) == line
  {
    if line != [] { NoLine(line[..|line| - 1]); }
  }

  lemma OneLine(line: Bytes)
    requires NEWLINE !in line
    ensures Lines(line + [NEWLINE]) == [line] && Tail(line + [NEWLINE]) == []
  {
    NoLine(line);
    assert (line + [NEWLINE])[..|line|] == line;
  }

  // --- The lines of a journal ----------------------------------------------------------

  function LineAt(k: Codec, ps: seq<Payload>, i: nat): Bytes
    requires i < |ps|
  {
    k.canonical(Record(k, CoreAt(k, ps, i)))
  }

  function JournalLines(k: Codec, ps: seq<Payload>): seq<Bytes> {
    seq(|ps|, i requires 0 <= i < |ps| => LineAt(k, ps, i))
  }

  lemma CoresBefore(k: Codec, ps: seq<Payload>, n: nat, i: nat)
    requires i < n <= |ps|
    ensures CoreAt(k, ps[..n], i) == CoreAt(k, ps, i)
  {
    assert ps[..n][..i] == ps[..i];
  }

  lemma {:induction false} WrittenLines(k: Codec, ps: seq<Payload>)
    requires Lawful(k)
    ensures Closed(Written(k, ps)) && Lines(Written(k, ps)) == JournalLines(k, ps) && Tail(Written(k, ps)) == []
  {
    if ps != [] {
      var n := |ps| - 1;
      var before, line := ps[..n], LineAt(k, ps, n);
      WrittenLines(k, before);
      ClosedConcat(Written(k, before), line + [NEWLINE]);
      OneLine(line);
      JournalLinesSnoc(k, ps);
    }
  }

  lemma JournalLinesSnoc(k: Codec, ps: seq<Payload>)
    requires ps != []
    ensures JournalLines(k, ps) == JournalLines(k, ps[..|ps| - 1]) + [LineAt(k, ps, |ps| - 1)]
  {
    var n, before := |ps| - 1, ps[..|ps| - 1];
    forall i | 0 <= i < n ensures JournalLines(k, before)[i] == JournalLines(k, ps)[i] {
      CoresBefore(k, ps, n, i);
    }
  }

  lemma {:induction false} WrittenGrows(k: Codec, ps: seq<Payload>, j: nat)
    requires j <= |ps|
    ensures |Written(k, ps[..j])| <= |Written(k, ps)| && Written(k, ps)[..|Written(k, ps[..j])|] == Written(k, ps[..j])
    decreases |ps|
  {
    if j == |ps| {
      assert ps[..j] == ps;
    } else {
      var n := |ps| - 1;
      WrittenGrows(k, ps[..n], j);
      assert ps[..n][..j] == ps[..j];
    }
  }

  // --- Reading the lines back -----------------------------------------------------------

  lemma OwnRecordAccepted(k: Codec, n: nat, previous: string, payload: Payload)
    requires Lawful(k)
    ensures var core := Core(n, previous, payload);
            CheckRecord(k, n, previous, k.canonical(Record(k, core)))
            == Ok((Record(k, core), CanonicalHash(k, core)))
  {
  }

  lemma OwnLineAccepted(k: Codec, ps: seq<Payload>, i: nat)
    requires Lawful(k) && i < |ps|
    ensures CheckRecord(k, i + 1, Head(k, ps[..i]), JournalLines(k, ps)[i])
         == Ok((Records(k, ps)[i], Head(k, ps[..i + 1])))
  {
    OwnRecordAccepted(k, i + 1, Head(k, ps[..i]), ps[i]);
    assert ps[..i + 1][..i] == ps[..i];
  }

  /** Line `i` is accepted after hash `i` and gives record `i` and hash `i + 1`. */
  ghost predicate LineGives(k: Codec, lines: seq<Bytes>, records: seq<Json>, hashes: seq<string>, i: nat)
    requires i < |lines| == |records| && |hashes| == |lines| + 1
  {
    CheckRecord(k, i + 1, hashes[i], lines[i]) == Ok((records[i], hashes[i + 1]))
  }

  /** Lines that are accepted one after another are read back as their records. */
  lemma {:induction false} LinesGive(k: Codec, lines: seq<Bytes>, records: seq<Json>, hashes: seq<string>, i: nat)
    requires i <= |lines| == |records| && |hashes| == |lines| + 1
    requires forall j: nat :: j < |lines| ==> LineGives(k, lines, records, hashes, j)
    ensures ReadLines(k, lines[i..], i + 1, hashes[i]) == Ok(records[i..])
    decreases |lines| - i
  {
    if i < |lines| {
      assert LineGives(k, lines, records, hashes, i);
      LinesGive(k, lines, records, hashes, i + 1);
      assert lines[i..][1..] == lines[i + 1..];
      assert records[i..] == [records[i]] + records[i + 1..];
    }
  }

  lemma OwnJournalAccepted(k: Codec, ps: seq<Payload>)
    requires Lawful(k)
    ensures ReadLines(k, JournalLines(k, ps), 1, ZERO_HASH) == Ok(Records(k, ps))
  {
    var lines, records := JournalLines(k, ps), Records(k, ps);
    var hashes := seq(|ps| + 1, i requires 0 <= i <= |ps| => Head(k, ps[..i]));
    forall j: nat | j < |ps| ensures LineGives(k, lines, records, hashes, j) {
      OwnLineAccepted(k, ps, j);
    }
    LinesGive(k, lines, records, hashes, 0);
    assert lines[0..] == lines && records[0..] == records;
  }

  /** Reading inverts writing. */
  lemma RoundTrip(k: Codec, ps: seq<Payload>, allowPartialTail: bool)
    requires Lawful(k)
    ensures ReadJournal(k, Written(k, ps), allowPartialTail) == Ok(Audit(Records(k, ps), ps != [], 0))
  {
    WrittenLines(k, ps);
    OwnJournalAccepted(k, ps);
  }

  // --- Every cut ----------------------------------------------------------------------------

  /** `j` records lie wholly inside the first `cut` bytes, and the next one does not. */
  ghost predicate Survive(k: Codec, ps: seq<Payload>, cut: nat, j: nat) {
    && j <= |ps|
    && |Written(k, ps[..j])| <= cut <= |Written(k, ps)|
    && (j < |ps| ==> cut < |Written(k, ps[..j + 1])|)
  }

  /** Every cut leaves a definite number of whole records. */
  lemma {:induction false} SomeSurvive(k: Codec, ps: seq<Payload>, cut: nat) returns (j: nat)
    requires cut <= |Written(k, ps)|
    ensures Survive(k, ps, cut, j)
    decreases |ps|
  {
    assert ps[..|ps|] == ps;
    if cut == |Written(k, ps)| {
      j := |ps|;
    } else {
      var n := |ps| - 1;
      if |Written(k, ps[..n])| <= cut {
        j := n;
      } else {
        j := SomeSurvive(k, ps[..n], cut);
        assert ps[..n][..j] == ps[..j];
        if j < n { assert ps[..n][..j + 1] == ps[..j + 1]; }
        WrittenGrows(k, ps, n);
      }
    }
  }

  lemma WrittenNext(k: Codec, ps: seq<Payload>, j: nat)
    requires j < |ps|
    ensures Written(k, ps[..j + 1]) == Written(k, ps[..j]) + (LineAt(k, ps, j) + [NEWLINE])
  {
    assert ps[..j + 1][..j] == ps[..j];
  }

  lemma MiddleSlice(raw: Bytes, whole: Bytes, line: Bytes, cut: nat)
    requires whole + (line + [NEWLINE]) <= raw && |whole| <= cut <= |whole| + |line|
    ensures raw[|whole|..cut] == line[..cut - |whole|]
  {
    forall i | |whole| <= i < cut ensures raw[i] == line[i - |whole|] {
      assert raw[i] == (whole + (line + [NEWLINE]))[i];
    }
  }

  /** The bytes after the whole records are part of the next line, short of its newline. */
  lemma PartialLine(k: Codec, ps: seq<Payload>, cut: nat, j: nat)
    requires Lawful(k) && Survive(k, ps, cut, j)
    ensures NEWLINE !in Written(k, ps)[|Written(k, ps[..j])|..cut]
  {
    if j < |ps| {
      var raw, whole, line := Written(k, ps), Written(k, ps[..j]), LineAt(k, ps, j);
      WrittenGrows(k, ps, j + 1);
      WrittenNext(k, ps, j);
      MiddleSlice(raw, whole, line, cut);
    } else {
      assert ps[..j] == ps;
    }
  }

  lemma CutSplits(k: Codec, ps: seq<Payload>, cut: nat, j: nat)
    requires Survive(k, ps, cut, j)
    ensures var whole := Written(k, ps[..j]);
            Written(k, ps)[..cut] == whole + Written(k, ps)[|whole|..cut]
  {
    WrittenGrows(k, ps, j);
  }

  lemma CutLines(k: Codec, ps: seq<Payload>, cut: nat, j: nat)
    requires Lawful(k) && Survive(k, ps, cut, j)
    ensures var raw := Written(k, ps)[..cut];
            && Lines(raw) == JournalLines(k, ps[..j])
            && |Tail(raw)| == cut - |Written(k, ps[..j])|
            && (raw != [] && raw[|raw| - 1] == NEWLINE <==> cut > 0 && Tail(raw) == [])
  {
    var raw, whole := Written(k, ps)[..cut], Written(k, ps[..j]);
    var tail := Written(k, ps)[|whole|..cut];
    CutSplits(k, ps, cut, j);
    PartialLine(k, ps, cut, j);
    WrittenLines(k, ps[..j]);
    ClosedConcat(whole, tail);
    NoLine(tail);
    assert Lines(whole) + [] == Lines(whole);
    if tail != [] {
      assert raw[|raw| - 1] == tail[|tail| - 1];
    } else {
      assert raw == whole;
    }
  }

  lemma RecordsBefore(k: Codec, ps: seq<Payload>, j: nat)
    requires j <= |ps|
    ensures Records(k, ps[..j]) == Records(k, ps)[..j]
  {
    forall i | 0 <= i < j ensures Records(k, ps)[i] == Records(k, ps[..j])[i] {
      CoresBefore(k, ps, j, i);
    }
  }

  /**
    Crash-prefix recovery: cut at any byte, the journal reads back as exactly its first `j`
    records, and the leftover bytes are the part of the next line that was written.
   */
  lemma CrashRecovery(k: Codec, ps: seq<Payload>, cut: nat, j: nat)
    requires Lawful(k) && Survive(k, ps, cut, j)
    ensures var tail := cut - |Written(k, ps[..j])|;
            ReadJournal(k, Written(k, ps)[..cut], true)
            == Ok(Audit(Records(k, ps)[..j], cut > 0 && tail == 0, tail))
  {
    CutLines(k, ps, cut, j);
    OwnJournalAccepted(k, ps[..j]);
    RecordsBefore(k, ps, j);
  }

  /** A strict reader accepts a cut exactly when it falls between two records. */
  lemma StrictCut(k: Codec, ps: seq<Payload>, cut: nat, j: nat)
    requires Lawful(k) && Survive(k, ps, cut, j)
    ensures ReadJournal(k, Written(k, ps)[..cut], false).Ok? <==> cut == |Written(k, ps[..j])|
  {
    CrashRecovery(k, ps, cut, j);
  }
}
