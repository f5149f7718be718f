/** The law asked of the serializer can be met: an encoding of JSON values that satisfies it. */
module JournalCodec {
  import opened Basics
  import opened JournalModel

  // Each function encodes its value in front of `rest`, so that the value can be told from what follows.

  function Ones(n: nat, rest: Bytes): Bytes {
    if n == 0 then [0] + rest else [1] + Ones(n - 1, rest)
  }

  function Text(s: string, rest: Bytes): Bytes {
    if s == [] then [0] + rest else [1] + Ones(s[0] as nat, Text(s[1..], rest))
  }

  function Whole(i: int, rest: Bytes): Bytes {
    if i >= 0 then [0] + Ones(i, rest) else [1] + Ones(-i, rest)
  }

  ghost function Value(v: Json, rest: Bytes): Bytes
    decreases v
  {
    match v
    case Null => [2] + rest
    case Bool(b) => [if b then 3 else 4] + rest
    case Int(i) => [5] + Whole(i, rest)
    case Float(bits) => [6] + Ones(bits, rest)
    case Str(text) => [7] + Text(text, rest)
    case Arr(items) => [8] + Items(v, items, rest)
    case Obj(fields) => [9] + Fields(v, fields, rest)
  }

  ghost predicate Below(items: seq<Json>, parent: Json) {
    forall i :: 0 <= i < |items| ==> items[i] < parent
  }

  ghost function Items(parent: Json, items: seq<Json>, rest: Bytes): Bytes
    requires Below(items, parent)
    decreases parent, |items|
  {
    if items == [] then [0] + rest else [1] + Value(items[0], Items(parent, items[1..], rest))
  }

  ghost function Pick(fields: map<string, Json>): (name: string)
    requires fields != map[]
    ensures name in fields
  {
    assert fields.Keys != {};
    var name :| name in fields.Keys;
    name
  }

  ghost predicate FieldsBelow(fields: map<string, Json>, parent: Json) {
    forall name :: name in fields ==> fields[name] < parent
  }

  ghost function Fields(parent: Json, fields: map<string, Json>, rest: Bytes): Bytes
    requires FieldsBelow(fields, parent)
    decreases parent, |fields|
  {
    if fields == map[] then [0] + rest
    else
      var name := Pick(fields);
      assert |fields - {name}| < |fields| by { assert (fields - {name}).Keys < fields.Keys; }
      [1] + Text(name, Value(fields[name], Fields(parent, fields - {name}, rest)))
  }

  // --- Telling values apart -------------------------------------------------------------

  lemma Head(a: byte, x: Bytes, b: byte, y: Bytes)
    requires [a] + x == [b] + y
    ensures a == b && x == y
  {
    assert ([a] + x)[0] == a && ([b] + y)[0] == b;
    assert ([a] + x)[1..] == x && ([b] + y)[1..] == y;
  }

  lemma {:induction false} OnesApart(n: nat, x: Bytes, m: nat, y: Bytes)
    requires Ones(n, x) == Ones(m, y)
    ensures n == m && x == y
    decreases n
  {
    var a, p := (if n == 0 then 0 else 1), if n == 0 then x else Ones(n - 1, x);
    var b, q := (if m == 0 then 0 else 1), if m == 0 then y else Ones(m - 1, y);
    Head(a, p, b, q);
    if n > 0 { OnesApart(n - 1, x, m - 1, y); }
  }

  lemma {:induction false} TextApart(s: string, x: Bytes, t: string, y: Bytes)
    requires Text(s, x) == Text(t, y)
    ensures s == t && x == y
    decreases |s|
  {
    var a, p := (if s == [] then 0 else 1), if s == [] then x else Ones(s[0] as nat, Text(s[1..], x));
    var b, q := (if t == [] then 0 else 1), if t == [] then y else Ones(t[0] as nat, Text(t[1..], y));
    Head(a, p, b, q);
    if s != [] {
      OnesApart(s[0] as nat, Text(s[1..], x), t[0] as nat, Text(t[1..], y));
      TextApart(s[1..], x, t[1..], y);
      assert s == [s[0]] + s[1..] && t == [t[0]] + t[1..];
    }
  }

  lemma WholeApart(i: int, x: Bytes, j: int, y: Bytes)
    requires Whole(i, x) == Whole(j, y)
    ensures i == j && x == y
  {
    var n, m := (if i >= 0 then i else -i), if j >= 0 then j else -j;
    Head(if i >= 0 then 0 else 1, Ones(n, x), if j >= 0 then 0 else 1, Ones(m, y));
    OnesApart(n, x, m, y);
  }

  function Tag(v: Json): byte {
    match v
    case Null => 2
    case Bool(b) => if b then 3 else 4
    case Int(_) => 5
    case Float(_) => 6
    case Str(_) => 7
    case Arr(_) => 8
    case Obj(_) => 9
  }

  ghost function Rest(v: Json, rest: Bytes): Bytes {
    match v
    case Null => rest
    case Bool(_) => rest
    case Int(i) => Whole(i, rest)
    case Float(bits) => Ones(bits, rest)
    case Str(text) => Text(text, rest)
    case Arr(items) => Items(v, items, rest)
    case Obj(fields) => Fields(v, fields, rest)
  }

  lemma {:induction false} ValueApart(v: Json, x: Bytes, w: Json, y: Bytes)
    requires Value(v, x) == Value(w, y)
    ensures v == w && x == y
    decreases v
  {
    assert Value(v, x) == [Tag(v)] + Rest(v, x) && Value(w, y) == [Tag(w)] + Rest(w, y);
    Head(Tag(v), Rest(v, x), Tag(w), Rest(w, y));
    match v
    case Null =>
    case Bool(_) =>
    case Int(i) => WholeApart(i, x, w.i, y);
    case Float(bits) => OnesApart(bits, x, w.bits, y);
    case Str(text) => TextApart(text, x, w.text, y);
    case Arr(items) => ItemsApart(v, items, x, w, w.items, y);
    case Obj(fields) => FieldsApart(v, fields, x, w, w.fields, y);
  }

  lemma {:induction false} ItemsApart(
    v: Json, items: seq<Json>, x: Bytes, w: Json, others: seq<Json>, y: Bytes)
    requires Below(items, v) && Below(others, w) && Items(v, items, x) == Items(w, others, y)
    ensures items == others && x == y
    decreases v, |items|
  {
    var a, p := (if items == [] then 0 else 1), if items == [] then x else Value(items[0], Items(v, items[1..], x));
    var b, q := (if others == [] then 0 else 1), if others == [] then y else Value(others[0], Items(w, others[1..], y));
    Head(a, p, b, q);
    if items != [] {
      ValueApart(items[0], Items(v, items[1..], x), others[0], Items(w, others[1..], y));
      ItemsApart(v, items[1..], x, w, others[1..], y);
      assert items == [items[0]] + items[1..] && others == [others[0]] + others[1..];
    }
  }

  ghost function FirstField(v: Json, fields: map<string, Json>, x: Bytes): Bytes
    requires FieldsBelow(fields, v)
  {
    if fields == map[] then x
    else
      var name := Pick(fields);
      Text(name, Value(fields[name], Fields(v, fields - {name}, x)))
  }

  lemma {:induction false} FieldsApart(
    v: Json, fields: map<string, Json>, x: Bytes, w: Json, others: map<string, Json>, y: Bytes)
    requires FieldsBelow(fields, v) && FieldsBelow(others, w) && Fields(v, fields, x) == Fields(w, others, y)
    ensures fields == others && x == y
    decreases v, |fields|
  {
    Head(if fields == map[] then 0 else 1, FirstField(v, fields, x),
         if others == map[] then 0 else 1, FirstField(w, others, y));
    if fields != map[] {
      var name, other := Pick(fields), Pick(others);
      var f, g := Fields(v, fields - {name}, x), Fields(w, others - {other}, y);
      TextApart(name, Value(fields[name], f), other, Value(others[other], g));
      ValueApart(fields[name], f, others[other], g);
      assert |fields - {name}| < |fields| by { assert (fields - {name}).Keys < fields.Keys; }
      FieldsApart(v, fields - {name}, x, w, others - {name}, y);
      Restored(fields, name);
      Restored(others, name);
    }
  }

  lemma Restored(fields: map<string, Json>, name: string)
    requires name in fields
    ensures fields == (fields - {name})[name := fields[name]]
  {
  }

  // --- No newline --------------------------------------------------------------------------

  lemma {:induction false} OnesPlain(n: nat, rest: Bytes)
    requires NEWLINE !in rest
    ensures NEWLINE !in Ones(n, rest)
  {
    if n > 0 { OnesPlain(n - 1, rest); }
  }

  lemma {:induction false} TextPlain(s: string, rest: Bytes)
    requires NEWLINE !in rest
    ensures NEWLINE !in Text(s, rest)
    decreases |s|
  {
    if s != [] {
      TextPlain(s[1..], rest);
      OnesPlain(s[0] as nat, Text(s[1..], rest));
    }
  }

  lemma {:induction false} ValuePlain(v: Json, rest: Bytes)
    requires NEWLINE !in rest
    ensures NEWLINE !in Value(v, rest) && Value(v, rest) != []
    decreases v
  {
    match v
    case Null =>
    case Bool(_) =>
    case Int(i) => OnesPlain(if i >= 0 then i else -i, rest);
    case Float(bits) => OnesPlain(bits, rest);
    case Str(text) => TextPlain(text, rest);
    case Arr(items) => ItemsPlain(v, items, rest);
    case Obj(fields) => FieldsPlain(v, fields, rest);
  }

  lemma {:induction false} ItemsPlain(v: Json, items: seq<Json>, rest: Bytes)
    requires Below(items, v) && NEWLINE !in rest
    ensures NEWLINE !in Items(v, items, rest)
    decreases v, |items|
  {
    if items != [] {
      ItemsPlain(v, items[1..], rest);
      ValuePlain(items[0], Items(v, items[1..], rest));
    }
  }

  lemma {:induction false} FieldsPlain(v: Json, fields: map<string, Json>, rest: Bytes)
    requires FieldsBelow(fields, v) && NEWLINE !in rest
    ensures NEWLINE !in Fields(v, fields, rest)
    decreases v, |fields|
  {
    if fields != map[] {
      var name := Pick(fields);
      assert |fields - {name}| < |fields| by { assert (fields - {name}).Keys < fields.Keys; }
      FieldsPlain(v, fields - {name}, rest);
      ValuePlain(fields[name], Fields(v, fields - {name}, rest));
      TextPlain(name, Value(fields[name], Fields(v, fields - {name}, rest)));
    }
  }

  // --- The codec ------------------------------------------------------------------------------

  ghost predicate Encodes(v: Json, b: Bytes) {
    Value(v, []) == b
  }

  ghost function Decode(b: Bytes): Option<Json> {
    if exists v :: Encodes(v, b) then
      var v :| Encodes(v, b);
      Some(v)
    else None
  }

  /** For every hash, some codec obeys the law that the journal theorems ask for. */
  lemma LawfulExists(hash: Bytes -> string) returns (k: Codec)
    ensures Lawful(k) && k.hash == hash
  {
    k := Codec(v => Value(v, []), b => Decode(b), hash, bits => None);
    forall v ensures k.parse(k.canonical(v)) == Some(v) && k.canonical(v) != [] && NEWLINE !in k.canonical(v) {
      ValuePlain(v, []);
      var b := Value(v, []);
      assert Encodes(v, b);
      var w := Decode(b).value;
      ValueApart(w, [], v, []);
    }
  }
}
