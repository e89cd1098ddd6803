/** Shared vocabulary: optional values and sequence facts used by several modules. */
module Base {
  datatype Option<+T> = None | Some(value: T)

  /** Concatenation is associative; Dafny needs the fact spelled out. */
  lemma Assoc<T>(a: seq<T>, b: seq<T>, c: seq<T>)
    ensures (a + b) + c == a + (b + c)
  {}
}
