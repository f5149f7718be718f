/** Writing the journal: short writes, torn writes, and kills during an emit. */
module ObserverJournal {
  import opened Basics
  import opened JournalModel

  /** An append-only file. A write takes any part of what it is offered, possibly nothing. */
  class Descriptor {
    var bytes: Bytes

    constructor ()
      ensures bytes == []
    {
      bytes := [];
    }

    method Write(view: Bytes) returns (written: nat)
      modifies this
      ensures written <= |view| && bytes == old(bytes) + view[..written]
    {
      written :| 0 <= written <= |view|;
      bytes := bytes + view[..written];
    }
  }

  /** Writes everything through any pattern of short writes, or fails with the value torn. */
  method WriteAll(file: Descriptor, value: Bytes) returns (ok: bool)
    modifies file
    ensures ok ==> file.bytes == old(file.bytes) + value
    ensures !ok ==> exists n :: 0 <= n < |value| && file.bytes == old(file.bytes) + value[..n]
  {
    var view := value;
    ghost var done := 0;
    while view != []
      invariant 0 <= done <= |value| && view == value[done..]
      invariant file.bytes == old(file.bytes) + value[..done]
      decreases |view|
    {
      var written := file.Write(view);
      assert value[..done] + view[..written] == value[..done + written];
      if written == 0 { return false; }
      view := view[written..];
      done := done + written;
    }
    assert value[..done] == value;
    ok := true;
  }

  datatype EmitFault = NoFault | MidWriteKill | AfterWriteBeforeFsyncKill

  datatype Outcome = Emitted(hash: string) | Raised(code: Code) | Killed

  predicate Offline(payload: Payload) {
    Field(payload, "key_accessed") == Some(Bool(false)) && Field(payload, "network_accessed") == Some(Bool(false))
  }

  function Half(line: Bytes): Bytes
    requires line != []
  {
    line[..if |line| / 2 > 1 then |line| / 2 else 1]
  }

  class Journal {
    const k: Codec
    const file: Descriptor
    var sequence: nat
    var previous: string
    ghost var payloads: seq<Payload>

    /** The file holds exactly the records emitted so far. */
    ghost predicate Valid()
      reads this, file
    {
      file.bytes == Written(k, payloads) && sequence == |payloads| && previous == Head(k, payloads)
    }

    constructor Claim(k: Codec)
      ensures Valid() && payloads == [] && this.k == k && fresh(file)
    {
      this.k := k;
      file := new Descriptor();
      sequence, previous, payloads := 0, ZERO_HASH, [];
    }

    method Emit(payload: Payload, fault: EmitFault) returns (r: Outcome)
      requires Valid()
      modifies this, file
      ensures match r
              case Emitted(hash) =>
                && Offline(payload) && fault == NoFault
                && Valid() && payloads == old(payloads) + [payload] && hash == Head(k, payloads)
              case Raised(OfflineRecordIdentityInvalid) =>
                !Offline(payload) && Valid() && payloads == old(payloads)
              case Raised(code) =>
                && code == JournalWriteFailed && payloads == old(payloads) && sequence == old(sequence)
                && file.bytes < Written(k, payloads + [payload]) && old(file.bytes) <= file.bytes
              case Killed =>
                && payloads == old(payloads)
                && var line := EncodeRecord(k, |payloads| + 1, Head(k, payloads), payload).0;
                   if fault == MidWriteKill then file.bytes == old(file.bytes) + Half(line)
                   else fault == AfterWriteBeforeFsyncKill && file.bytes == Written(k, payloads + [payload])
    {
      assert (payloads + [payload])[..|payloads|] == payloads;
      if !Offline(payload) { return Raised(OfflineRecordIdentityInvalid); }
      var (encoded, hash) := EncodeRecord(k, sequence + 1, previous, payload);
      if fault == MidWriteKill {
        var ok := WriteAll(file, Half(encoded));
        return if ok then Killed else Raised(JournalWriteFailed);
      }
      var ok := WriteAll(file, encoded);
      if !ok { return Raised(JournalWriteFailed); }
      if fault == AfterWriteBeforeFsyncKill { return Killed; }
      sequence := sequence + 1;
      previous := hash;
      payloads := payloads + [payload];
      r := Emitted(hash);
    }
  }
}
