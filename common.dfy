/** Values shared by every part of the model: optional values (Python's `None`),
    the outcome of a call that may raise, and Python truthiness of optional strings. */
module Common {

  /** A Python value that may be `None`. */
  datatype Option<+T> = None | Some(value: T)

  /** The outcome of a call that either returns a value or raises an exception
      whose `str(e)` is `error`. */
  datatype Call<+T> = Returned(value: T) | Raised(error: string)

  /** Python truthiness of a value that is `None` or a string: `None` and `""` are falsy. */
  predicate Truthy(s: Option<string>)
  {
    s.Some? && s.value != ""
  }

  /** Concatenation is associative (stated once so that proofs about logs can
      regroup them cheaply). */
  lemma AppendAssoc<T>(a: seq<T>, b: seq<T>, c: seq<T>)
    ensures (a + b) + c == a + (b + c)
  {
  }
}
