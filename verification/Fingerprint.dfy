/** Prompt fingerprints: a length-prefixed encoding, and the cache posture of a block list. */
module Fingerprint {
  import opened Basics

  // --- Length-prefixed encoding ----------------------------------------------------------

  function Power(k: nat): nat {
    if k == 0 then 1 else 256 * Power(k - 1)
  }

  /** `n` in `k` bytes, most significant first. */
  function BigEndian(n: nat, k: nat): (r: Bytes)
    ensures |r| == k
    decreases k, n
  {
    if k == 0 then [] else BigEndian(n / 256, k - 1) + [n % 256]
  }

  const LIMIT: nat := 0x1_0000_0000_0000_0000

  predicate Short(part: Bytes) {
    |part| < LIMIT
  }

  function EncodePart(part: Bytes): Bytes {
    BigEndian(|part|, 8) + part
  }

  /** What is fed to the digest after the domain. */
  function Encode(parts: seq<Bytes>): Bytes {
    if parts == [] then [] else EncodePart(parts[0]) + Encode(parts[1..])
  }

  method EncodeAll(domain: Bytes, parts: seq<Bytes>) returns (fed: Bytes)
    ensures fed == domain + Encode(parts)
  {
    fed := domain;
    assert domain + Encode(parts) == fed + Encode(parts[0..]);
    for i := 0 to |parts|
      invariant domain + Encode(parts) == fed + Encode(parts[i..])
    {
      assert parts[i..][1..] == parts[i + 1..];
      var before := fed;
      fed := fed + BigEndian(|parts[i]|, 8) + parts[i];
      assert before + (EncodePart(parts[i]) + Encode(parts[i + 1..])) == fed + Encode(parts[i + 1..]);
    }
    assert fed + [] == fed;
  }

  /** The number that bytes stand for, most significant first. */
  function ValueOf(b: Bytes): nat {
    if b == [] then 0 else 256 * ValueOf(b[..|b| - 1]) + b[|b| - 1]
  }

  lemma {:induction false} BigEndianValue(n: nat, k: nat)
    requires n < Power(k)
    ensures ValueOf(BigEndian(n, k)) == n
    decreases k
  {
    if k > 0 {
      var b := BigEndian(n, k);
      BigEndianValue(n / 256, k - 1);
      assert b[..k - 1] == BigEndian(n / 256, k - 1) && b[k - 1] == n % 256;
    }
  }

  /** Eight bytes hold every length below 2^64. */
  lemma EightBytes(n: nat)
    requires n < LIMIT
    ensures ValueOf(BigEndian(n, 8)) == n
  {
    assert Power(2) == 0x1_0000;
    assert Power(4) == 0x1_0000_0000;
    assert Power(6) == 0x1_0000_0000_0000;
    assert Power(8) == LIMIT;
    BigEndianValue(n, 8);
  }

  /** Two encoded parts followed by anything agree only if the parts agree and what follows agrees. */
  lemma FirstPart(p: Bytes, x: Bytes, q: Bytes, y: Bytes)
    requires Short(p) && Short(q) && EncodePart(p) + x == EncodePart(q) + y
    ensures p == q && x == y
  {
    var s, t := EncodePart(p) + x, EncodePart(q) + y;
    assert s[..8] == BigEndian(|p|, 8) && t[..8] == BigEndian(|q|, 8);
    EightBytes(|p|);
    EightBytes(|q|);
    var n := 8 + |p|;
    assert s[8..n] == p && t[8..n] == q;
    assert s[n..] == x && t[n..] == y;
  }

  ghost predicate AllShort(parts: seq<Bytes>) {
    forall i :: 0 <= i < |parts| ==> Short(parts[i])
  }

  /** The encoding determines the list of parts. */
  lemma {:induction false} EncodeInjective(a: seq<Bytes>, b: seq<Bytes>)
    requires AllShort(a) && AllShort(b) && Encode(a) == Encode(b)
    ensures a == b
    decreases |a|
  {
    if a == [] {
      assert b != [] ==> |Encode(b)| >= 8;
    } else if b != [] {
      FirstPart(a[0], Encode(a[1..]), b[0], Encode(b[1..]));
      EncodeInjective(a[1..], b[1..]);
      assert a == [a[0]] + a[1..] && b == [b[0]] + b[1..];
    }
  }

  // --- Ordered blocks --------------------------------------------------------------------------

  datatype Control = Stable | Volatile

  datatype Block = Block(control: Control, text: Bytes)

  function Tag(c: Control): Bytes {
    if c == Stable then [0] else [1]
  }

  function BlockParts(blocks: seq<Block>, n: nat): seq<Bytes>
    requires n <= |blocks|
  {
    if n == 0 then [BigEndian(|blocks|, 8)]
    else BlockParts(blocks, n - 1) + [BigEndian(n - 1, 8), Tag(blocks[n - 1].control), blocks[n - 1].text]
  }

  /** The bytes whose digest is the ordered hash of the blocks. */
  function OrderedBytes(domain: Bytes, blocks: seq<Block>): Bytes {
    domain + Encode(BlockParts(blocks, |blocks|))
  }

  ghost predicate Encodable(blocks: seq<Block>) {
    |blocks| < LIMIT && forall i :: 0 <= i < |blocks| ==> Short(blocks[i].text)
  }

  lemma {:induction false} PartsLength(blocks: seq<Block>, n: nat)
    requires n <= |blocks|
    ensures |BlockParts(blocks, n)| == 3 * n + 1
  {
    if n > 0 { PartsLength(blocks, n - 1); }
  }

  /** Where the tag and the text of block `i` are among the parts. */
  lemma {:induction false} PartsAt(blocks: seq<Block>, n: nat, i: nat)
    requires i < n <= |blocks|
    ensures |BlockParts(blocks, n)| == 3 * n + 1
    ensures BlockParts(blocks, n)[3 * i + 2] == Tag(blocks[i].control)
    ensures BlockParts(blocks, n)[3 * i + 3] == blocks[i].text
  {
    PartsLength(blocks, n - 1);
    if i < n - 1 { PartsAt(blocks, n - 1, i); }
  }

  /**
    The parts in order: the number of blocks, and for each block its index, one byte that is zero for a
    stable block and one for a volatile one, and its text.
   */
  lemma {:induction false} PartsLayout(blocks: seq<Block>, n: nat, i: nat)
    requires i < n <= |blocks|
    ensures var parts := BlockParts(blocks, n);
            && |parts| == 3 * n + 1 && parts[0] == BigEndian(|blocks|, 8)
            && parts[3 * i + 1] == BigEndian(i, 8)
            && (parts[3 * i + 2] == [0] <==> blocks[i].control == Stable)
            && (parts[3 * i + 2] == [1] <==> blocks[i].control == Volatile)
            && parts[3 * i + 3] == blocks[i].text
  {
    PartsLength(blocks, n - 1);
    PartsAt(blocks, n, i);
    assert [0][0] != [1][0];
    if i < n - 1 {
      PartsLayout(blocks, n - 1, i);
    } else {
      FirstPartIsCount(blocks, n);
    }
  }

  lemma {:induction false} FirstPartIsCount(blocks: seq<Block>, n: nat)
    requires n <= |blocks|
    ensures BlockParts(blocks, n) != [] && BlockParts(blocks, n)[0] == BigEndian(|blocks|, 8)
  {
    if n > 0 { FirstPartIsCount(blocks, n - 1); }
  }

  lemma {:induction false} PartsShort(blocks: seq<Block>, n: nat)
    requires n <= |blocks| && Encodable(blocks)
    ensures AllShort(BlockParts(blocks, n))
  {
    if n > 0 {
      PartsShort(blocks, n - 1);
      assert Short(blocks[n - 1].text);
    }
  }

  lemma TagInjective(c: Control, d: Control)
    requires Tag(c) == Tag(d)
    ensures c == d
  {
    assert Tag(c)[0] == Tag(d)[0];
  }

  lemma SameBlock(parts: seq<Bytes>, a: seq<Block>, b: seq<Block>, i: nat)
    requires i < |a| && i < |b| && parts == BlockParts(a, |a|) && parts == BlockParts(b, |b|)
    ensures a[i] == b[i]
  {
    PartsAt(a, |a|, i);
    PartsAt(b, |b|, i);
    TagInjective(a[i].control, b[i].control);
  }

  lemma PartsInjective(a: seq<Block>, b: seq<Block>)
    requires BlockParts(a, |a|) == BlockParts(b, |b|)
    ensures a == b
  {
    PartsLength(a, |a|);
    PartsLength(b, |b|);
    forall i | 0 <= i < |a| ensures a[i] == b[i] {
      SameBlock(BlockParts(a, |a|), a, b, i);
    }
  }

  /** The bytes hashed determine the blocks, their order and their cache controls. */
  lemma OrderedInjective(domain: Bytes, a: seq<Block>, b: seq<Block>)
    requires Encodable(a) && Encodable(b) && OrderedBytes(domain, a) == OrderedBytes(domain, b)
    ensures a == b
  {
    var p, q := BlockParts(a, |a|), BlockParts(b, |b|);
    assert Encode(p) == OrderedBytes(domain, a)[|domain|..] && Encode(q) == OrderedBytes(domain, b)[|domain|..];
    PartsShort(a, |a|);
    PartsShort(b, |b|);
    EncodeInjective(p, q);
    PartsInjective(a, b);
  }

  /** Equal fingerprints mean equal ordered blocks, or exhibit a collision of the hash. */
  lemma EqualHashes(hash: Bytes -> string, domain: Bytes, a: seq<Block>, b: seq<Block>)
    requires Encodable(a) && Encodable(b) && hash(OrderedBytes(domain, a)) == hash(OrderedBytes(domain, b))
    ensures a == b || Collision(hash, OrderedBytes(domain, a), OrderedBytes(domain, b))
  {
    if OrderedBytes(domain, a) == OrderedBytes(domain, b) {
      OrderedInjective(domain, a, b);
    }
  }

  // --- Cache posture ----------------------------------------------------------------------------

  ghost predicate StableUpTo(blocks: seq<Block>, k: nat)
    requires k <= |blocks|
  {
    forall i :: 0 <= i < k ==> blocks[i].control == Stable
  }

  ghost predicate VolatileFrom(blocks: seq<Block>, k: nat) {
    forall i :: k <= i < |blocks| ==> blocks[i].control == Volatile
  }

  /** Some stable blocks, then only volatile ones. */
  ghost predicate StableThenVolatile(blocks: seq<Block>) {
    exists k :: 0 < k <= |blocks| && StableUpTo(blocks, k) && VolatileFrom(blocks, k)
  }

  /** The number of blocks before the first volatile one. */
  ghost predicate LongestStablePrefix(blocks: seq<Block>, k: nat) {
    k <= |blocks| && StableUpTo(blocks, k) && (k < |blocks| ==> blocks[k].control == Volatile)
  }

  /** The flag-driven pass over the blocks. */
  method CachePosture(blocks: seq<Block>) returns (valid: bool, stablePrefix: nat)
    ensures valid <==> StableThenVolatile(blocks)
    ensures LongestStablePrefix(blocks, stablePrefix)
  {
    var volatileSeen, stableAfterVolatile := false, false;
    stablePrefix := 0;
    for i := 0 to |blocks|
      invariant stablePrefix <= i && StableUpTo(blocks, stablePrefix)
      invariant volatileSeen <==> stablePrefix < i
      invariant volatileSeen ==> blocks[stablePrefix].control == Volatile
      invariant stableAfterVolatile <==> exists j :: stablePrefix <= j < i && blocks[j].control == Stable
    {
      if blocks[i].control == Volatile {
        volatileSeen := true;
      } else if volatileSeen {
        stableAfterVolatile := true;
      } else {
        stablePrefix := stablePrefix + 1;
      }
    }
    valid := stablePrefix > 0 && !stableAfterVolatile;
    if valid {
      assert VolatileFrom(blocks, stablePrefix);
    } else {
      NotStableThenVolatile(blocks, stablePrefix);
    }
  }

  /** The split, if there is one, is at the longest stable prefix. */
  lemma NotStableThenVolatile(blocks: seq<Block>, k: nat)
    requires LongestStablePrefix(blocks, k) && (k == 0 || !VolatileFrom(blocks, k))
    ensures !StableThenVolatile(blocks)
  {
    forall m | 0 < m <= |blocks| ensures !(StableUpTo(blocks, m) && VolatileFrom(blocks, m)) {
      if k < m { assert blocks[k].control == Volatile; }
    }
  }
}
