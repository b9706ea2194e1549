/** Small shared vocabulary: optional values, results, bytes and 32-bit words. */
module Common {

  /** A value that may be absent (JavaScript `undefined` or `null`). */
  datatype Option<+T> = None | Some(value: T) {
    /** The `??` operator: this value when present, otherwise `fallback`. */
    function OrElse(fallback: T): T {
      match this
      case Some(v) => v
      case None => fallback
    }
  }

  /** The outcome of an operation that either returns a value or throws an error. */
  datatype Result<+T, +E> = Ok(value: T) | Err(error: E)

  /** An octet, as found in a `Uint8Array`. */
  type byte = x: int | 0 <= x < 256

  /** An element of a `Uint32Array`. */
  type uint32 = x: int | 0 <= x < 0x1_0000_0000

  /** Concatenation regroups. */
  lemma AppendAssoc<T>(a: seq<T>, b: seq<T>, c: seq<T>)
    ensures a + (b + c) == a + b + c
  {
  }

  /** A prefix of a concatenation that reaches past its first part. */
  lemma TakeOfAppend<T>(a: seq<T>, b: seq<T>, i: nat)
    requires |a| <= i <= |a| + |b|
    ensures (a + b)[..i] == a + b[..i - |a|]
  {
  }
}
