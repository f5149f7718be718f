/** Shared wrappers: optional JSON fields, and results that carry an error code. */
module Basics {

  /** A JSON field that may be absent or of the wrong type. */
  datatype Option<+T> = None | Some(value: T)

  /** The outcome of a check that raises an error code when it fails. */
  datatype Result<+T, +E> = Ok(value: T) | Err(error: E) {
    predicate IsFailure() {
      Err?
    }

    function PropagateFailure<U>(): Result<U, E>
      requires Err?
    {
      Err(error)
    }

    function Extract(): T
      requires Ok?
    {
      value
    }
  }

  type byte = b: int | 0 <= b < 256

  type Bytes = seq<byte>

  const NEWLINE: byte := 10

  function Join(parts: seq<Bytes>): Bytes {
    if parts == [] then [] else Join(parts[..|parts| - 1]) + parts[|parts| - 1]
  }

  /** Two inputs that the hash does not tell apart. */
  ghost predicate Collision(hash: Bytes -> string, x: Bytes, y: Bytes) {
    x != y && hash(x) == hash(y)
  }

  ghost predicate Distinct<T>(s: seq<T>) {
    forall i, j :: 0 <= i < j < |s| ==> s[i] != s[j]
  }
}
