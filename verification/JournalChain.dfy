/**
  Chain commitment. Accepted journals with the same last hash have the same records, or
  else the two encodings returned here are a collision of the hash. No property of the
  hash is assumed.
 */
module JournalChain {
  import opened Basics
  import opened JournalModel

  predicate Wellformed(record: Json) {
    && record.Obj? && "sequence" in record.fields && "previous_record_sha256" in record.fields
    && "payload" in record.fields && record.fields["payload"].Obj?
  }

  /** The part of an accepted record that its hash covers. */
  function CoreOf(record: Json): Json {
    if Wellformed(record) then
      RecordCore(record.fields["sequence"], record.fields["previous_record_sha256"], record.fields["payload"])
    else Null
  }

  function HashOf(k: Codec, record: Json): string {
    CanonicalHash(k, CoreOf(record))
  }

  /** Record `i` is numbered `index + i` and carries the hash of the record before it. */
  predicate LinkedAt(k: Codec, rs: seq<Json>, index: int, previous: string, i: nat)
    requires i < |rs|
  {
    && Wellformed(rs[i])
    && EqualsInt(k, Some(rs[i].fields["sequence"]), index + i)
    && rs[i].fields["previous_record_sha256"] == Str(if i == 0 then previous else HashOf(k, rs[i - 1]))
  }

  ghost predicate LinkedFrom(k: Codec, rs: seq<Json>, index: int, previous: string) {
    forall i :: 0 <= i < |rs| ==> LinkedAt(k, rs, index, previous, i)
  }

  ghost predicate Linked(k: Codec, rs: seq<Json>) {
    LinkedFrom(k, rs, 1, ZERO_HASH)
  }

  lemma LinkedPrefix(k: Codec, rs: seq<Json>, n: nat)
    requires Linked(k, rs) && n <= |rs|
    ensures Linked(k, rs[..n])
  {
    forall i | 0 <= i < n ensures LinkedAt(k, rs[..n], 1, ZERO_HASH, i) {
      assert LinkedAt(k, rs, 1, ZERO_HASH, i);
    }
  }

  lemma {:induction false} ReadIsLinked(k: Codec, lines: seq<Bytes>, index: int, previous: string)
    requires ReadLines(k, lines, index, previous).Ok?
    ensures LinkedFrom(k, ReadLines(k, lines, index, previous).value, index, previous)
  {
    if lines != [] {
      var (record, hash) := CheckRecord(k, index, previous, lines[0]).value;
      var rest := ReadLines(k, lines[1..], index + 1, hash).value;
      ReadIsLinked(k, lines[1..], index + 1, hash);
      assert HashOf(k, record) == hash;
      var rs := [record] + rest;
      forall i | 0 <= i < |rs| ensures LinkedAt(k, rs, index, previous, i) {
        if i > 0 { assert LinkedAt(k, rest, index + 1, hash, i - 1); }
      }
    }
  }

  lemma AcceptedIsLinked(k: Codec, raw: Bytes, allowPartialTail: bool)
    requires ReadJournal(k, raw, allowPartialTail).Ok?
    ensures Linked(k, ReadJournal(k, raw, allowPartialTail).value.records)
  {
    ReadIsLinked(k, Lines(raw), 1, ZERO_HASH);
  }

  ghost predicate SameCores(rs: seq<Json>, qs: seq<Json>) {
    |rs| == |qs| && forall i :: 0 <= i < |rs| ==> CoreOf(rs[i]) == CoreOf(qs[i])
  }

  /** Walking back from equal heads, either every core agrees or a collision turns up. */
  lemma {:induction false} Commitment(k: Codec, rs: seq<Json>, qs: seq<Json>) returns (x: Bytes, y: Bytes)
    requires Lawful(k) && Linked(k, rs) && Linked(k, qs) && rs != [] && qs != []
    requires HashOf(k, rs[|rs| - 1]) == HashOf(k, qs[|qs| - 1])
    ensures SameCores(rs, qs) || Collision(k.hash, x, y)
    decreases |rs|
  {
    var n, m := |rs| - 1, |qs| - 1;
    x, y := k.canonical(CoreOf(rs[n])), k.canonical(CoreOf(qs[m]));
    if x == y {
      assert LinkedAt(k, rs, 1, ZERO_HASH, n) && LinkedAt(k, qs, 1, ZERO_HASH, m);
      assert k.parse(x) == Some(CoreOf(rs[n])) && k.parse(y) == Some(CoreOf(qs[m]));
      SameCoreSamePlace(k, rs[n], qs[m], n + 1, m + 1);
      if n > 0 {
        var rs', qs' := rs[..n], qs[..n];
        LinkedPrefix(k, rs, n);
        LinkedPrefix(k, qs, n);
        x, y := Commitment(k, rs', qs');
        if SameCores(rs', qs') { CoresSnoc(rs, qs, n); }
      }
    }
  }

  lemma CoresSnoc(rs: seq<Json>, qs: seq<Json>, n: nat)
    requires |rs| == |qs| == n + 1 && SameCores(rs[..n], qs[..n]) && CoreOf(rs[n]) == CoreOf(qs[n])
    ensures SameCores(rs, qs)
  {
    forall i | 0 <= i < |rs| ensures CoreOf(rs[i]) == CoreOf(qs[i]) {
      if i < n { assert rs[..n][i] == rs[i] && qs[..n][i] == qs[i]; }
    }
  }

  /** Equal cores stand at the same position and follow the same hash. */
  lemma SameCoreSamePlace(k: Codec, r: Json, q: Json, i: int, j: int)
    requires Wellformed(r) && Wellformed(q) && CoreOf(r) == CoreOf(q)
    requires EqualsInt(k, Some(r.fields["sequence"]), i) && EqualsInt(k, Some(q.fields["sequence"]), j)
    ensures i == j && r.fields["previous_record_sha256"] == q.fields["previous_record_sha256"]
    ensures r.fields["payload"] == q.fields["payload"]
  {
    assert CoreOf(r).fields["sequence"] == CoreOf(q).fields["sequence"];
    assert CoreOf(r).fields["previous_record_sha256"] == CoreOf(q).fields["previous_record_sha256"];
    assert CoreOf(r).fields["payload"] == CoreOf(q).fields["payload"];
  }

  /**
    Tamper evidence: a file that reads back with the head of a written journal holds that
    journal's payloads, all of them and in order, or a collision of the hash is at hand.
   */
  lemma TamperEvident(k: Codec, ps: seq<Payload>, raw: Bytes, allowPartialTail: bool) returns (x: Bytes, y: Bytes)
    requires Lawful(k) && ps != [] && ReadJournal(k, raw, allowPartialTail).Ok?
    requires var rs := ReadJournal(k, raw, allowPartialTail).value.records;
             rs != [] && HashOf(k, rs[|rs| - 1]) == Head(k, ps)
    ensures var rs := ReadJournal(k, raw, allowPartialTail).value.records;
            || Collision(k.hash, x, y)
            || (|rs| == |ps|
                && forall i :: 0 <= i < |ps| ==> Wellformed(rs[i]) && rs[i].fields["payload"] == Obj(ps[i]))
  {
    var rs, own := ReadJournal(k, raw, allowPartialTail).value.records, Records(k, ps);
    AcceptedIsLinked(k, raw, allowPartialTail);
    OwnLinked(k, ps);
    x, y := Commitment(k, rs, own);
    if SameCores(rs, own) {
      forall i | 0 <= i < |ps| ensures Wellformed(rs[i]) && rs[i].fields["payload"] == Obj(ps[i]) {
        CoresGivePayloads(k, rs, ps, i);
      }
    }
  }

  lemma CoresGivePayloads(k: Codec, rs: seq<Json>, ps: seq<Payload>, i: nat)
    requires i < |ps| && Linked(k, rs) && Linked(k, Records(k, ps)) && SameCores(rs, Records(k, ps))
    ensures Wellformed(rs[i]) && rs[i].fields["payload"] == Obj(ps[i])
  {
    var own := Records(k, ps);
    assert LinkedAt(k, rs, 1, ZERO_HASH, i) && LinkedAt(k, own, 1, ZERO_HASH, i);
    SameCoreSamePlace(k, rs[i], own[i], i + 1, i + 1);
  }

  lemma OwnCore(k: Codec, ps: seq<Payload>, i: nat)
    requires i < |ps|
    ensures Wellformed(Records(k, ps)[i]) && CoreOf(Records(k, ps)[i]) == CoreAt(k, ps, i)
  {
  }

  lemma OwnHash(k: Codec, ps: seq<Payload>, i: nat)
    requires i < |ps|
    ensures HashOf(k, Records(k, ps)[i]) == Head(k, ps[..i + 1])
  {
    OwnCore(k, ps, i);
    assert ps[..i + 1][..i] == ps[..i];
  }

  lemma OwnFields(k: Codec, ps: seq<Payload>, i: nat)
    requires i < |ps|
    ensures var fs := Record(k, CoreAt(k, ps, i)).fields;
            && "sequence" in fs && fs["sequence"] == Int(i + 1)
            && "previous_record_sha256" in fs && fs["previous_record_sha256"] == Str(Head(k, ps[..i]))
  {
  }

  lemma OwnLinkedAt(k: Codec, ps: seq<Payload>, i: nat)
    requires i < |ps|
    ensures LinkedAt(k, Records(k, ps), 1, ZERO_HASH, i)
  {
    OwnCore(k, ps, i);
    OwnFields(k, ps, i);
    if i > 0 { OwnHash(k, ps, i - 1); }
  }

  lemma OwnLinked(k: Codec, ps: seq<Payload>)
    ensures Linked(k, Records(k, ps))
    ensures ps != [] ==> HashOf(k, Records(k, ps)[|ps| - 1]) == Head(k, ps)
  {
    forall i | 0 <= i < |ps| ensures LinkedAt(k, Records(k, ps), 1, ZERO_HASH, i) {
      OwnLinkedAt(k, ps, i);
    }
    if ps != [] {
      OwnHash(k, ps, |ps| - 1);
      assert ps[..|ps|] == ps;
    }
  }
}
