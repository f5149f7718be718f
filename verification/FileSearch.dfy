/** Searching a file chunk by chunk for a byte string. */
module FileSearch {
  import opened Basics

  predicate OccursAt(needle: Bytes, s: Bytes, p: int) {
    0 <= p <= |s| - |needle| && s[p..p + |needle|] == needle
  }

  predicate Occurs(needle: Bytes, s: Bytes) {
    exists p :: 0 <= p <= |s| - |needle| && OccursAt(needle, s, p)
  }

  /** The last `n` bytes, or all of them when there are fewer; all of them, too, when `n` is zero. */
  function LastBytes(s: Bytes, n: nat): Bytes {
    if n == 0 || |s| <= n then s else s[|s| - n..]
  }

  /** How much of a needle can lie in the bytes already read. */
  function Overlap(needle: Bytes): nat {
    if needle == [] then 0 else |needle| - 1
  }

  // --- What the scan keeps ------------------------------------------------------------------

  /** The tail is the end of what was read, and long enough to hold a needle cut in two. */
  predicate Keeps(file: Bytes, tail: Bytes, n: nat) {
    && |tail| <= |file| && file[|file| - |tail|..] == tail
    && (tail == file || |tail| >= n)
  }

  /** The needle is not in what was read, and the tail keeps what a later chunk may complete. */
  predicate Scanned(needle: Bytes, file: Bytes, tail: Bytes) {
    !Occurs(needle, file) && Keeps(file, tail, Overlap(needle))
  }

  lemma KeepsLast(file: Bytes, tail: Bytes, chunk: Bytes, n: nat)
    requires Keeps(file, tail, n)
    ensures Keeps(file + chunk, LastBytes(tail + chunk, n), n)
  {
    var all, block := file + chunk, tail + chunk;
    assert all[|all| - |block|..] == block;
    var last := LastBytes(block, n);
    assert all[|all| - |last|..] == block[|block| - |last|..];
  }

  /** Whatever occurs in the end of a string occurs in the string. */
  lemma OccursInEnd(needle: Bytes, s: Bytes, n: nat)
    requires n <= |s| && Occurs(needle, s[n..])
    ensures Occurs(needle, s)
  {
    var p :| 0 <= p <= |s[n..]| - |needle| && OccursAt(needle, s[n..], p);
    assert s[n + p..n + p + |needle|] == s[n..][p..p + |needle|];
    assert OccursAt(needle, s, n + p);
  }

  /** An occurrence that the file alone does not hold lies in the tail and the chunk. */
  lemma OccursAcross(needle: Bytes, file: Bytes, tail: Bytes, chunk: Bytes, p: int)
    requires needle != [] && Scanned(needle, file, tail) && OccursAt(needle, file + chunk, p)
    ensures Occurs(needle, tail + chunk)
  {
    var all, block, skipped := file + chunk, tail + chunk, |file| - |tail|;
    if p < skipped {
      assert file[p..p + |needle|] == all[p..p + |needle|];
      assert OccursAt(needle, file, p);
      assert false;
    }
    assert all[skipped..] == block;
    assert block[p - skipped..p - skipped + |needle|] == all[p..p + |needle|];
    assert OccursAt(needle, block, p - skipped);
  }

  /** One chunk: searching the tail and the chunk answers for all that was read so far. */
  lemma ScanStep(needle: Bytes, file: Bytes, tail: Bytes, chunk: Bytes)
    requires needle != [] && Scanned(needle, file, tail)
    ensures Occurs(needle, tail + chunk) <==> Occurs(needle, file + chunk)
    ensures !Occurs(needle, tail + chunk) ==> Scanned(needle, file + chunk, LastBytes(tail + chunk, Overlap(needle)))
  {
    KeepsLast(file, tail, chunk, Overlap(needle));
    if Occurs(needle, tail + chunk) {
      assert (file + chunk)[|file| - |tail|..] == tail + chunk;
      OccursInEnd(needle, file + chunk, |file| - |tail|);
    }
    if Occurs(needle, file + chunk) {
      var p :| 0 <= p <= |file + chunk| - |needle| && OccursAt(needle, file + chunk, p);
      OccursAcross(needle, file, tail, chunk, p);
    }
  }

  // --- Chunks make up the file -----------------------------------------------------------------

  lemma JoinNext(chunks: seq<Bytes>, i: nat)
    requires i < |chunks|
    ensures Join(chunks[..i + 1]) == Join(chunks[..i]) + chunks[i]
  {
    assert chunks[..i + 1][..i] == chunks[..i];
  }

  lemma {:induction false} JoinPrefix(chunks: seq<Bytes>, i: nat)
    requires i <= |chunks|
    ensures Join(chunks[..i]) <= Join(chunks)
    decreases |chunks|
  {
    if i == |chunks| {
      assert chunks[..i] == chunks;
    } else {
      var n := |chunks| - 1;
      assert chunks[..n][..i] == chunks[..i];
      JoinPrefix(chunks[..n], i);
    }
  }

  lemma OccursInPrefix(needle: Bytes, part: Bytes, all: Bytes)
    requires part <= all && Occurs(needle, part)
    ensures Occurs(needle, all)
  {
    var p :| 0 <= p <= |part| - |needle| && OccursAt(needle, part, p);
    assert all[p..p + |needle|] == part[p..p + |needle|];
    assert OccursAt(needle, all, p);
  }

  /** What occurs in the first chunks occurs in the file. */
  lemma FoundEarly(needle: Bytes, chunks: seq<Bytes>, i: nat)
    requires i <= |chunks| && Occurs(needle, Join(chunks[..i]))
    ensures Occurs(needle, Join(chunks))
  {
    JoinPrefix(chunks, i);
    OccursInPrefix(needle, Join(chunks[..i]), Join(chunks));
  }

  lemma EmptyOccurs(s: Bytes)
    ensures Occurs([], s)
  {
    assert OccursAt([], s, 0);
  }

  /**
    The scan over the nonempty chunks a file is read in. It says whether the needle occurs in the
    whole file, except that it finds nothing when needle and file are both empty.
   */
  method FileContains(chunks: seq<Bytes>, needle: Bytes) returns (found: bool)
    requires forall i :: 0 <= i < |chunks| ==> chunks[i] != []
    ensures found <==> Occurs(needle, Join(chunks)) && (needle != [] || chunks != [])
  {
    var tail: Bytes := [];
    for i := 0 to |chunks|
      invariant needle != [] ==> Scanned(needle, Join(chunks[..i]), tail)
      invariant needle == [] ==> i == 0
    {
      var block := tail + chunks[i];
      if needle == [] {
        EmptyOccurs(block);
        EmptyOccurs(Join(chunks));
      } else {
        ScanStep(needle, Join(chunks[..i]), tail, chunks[i]);
        JoinNext(chunks, i);
      }
      if Occurs(needle, block) {
        if needle != [] { FoundEarly(needle, chunks, i + 1); }
        return true;
      }
      tail := LastBytes(block, Overlap(needle));
    }
    assert chunks[..|chunks|] == chunks;
    return false;
  }
}
