/** Datatypes shared by every component of the model. */
module Basics {

  datatype Option<+T> = None | Some(value: T)

  /** Identifiers are opaque text: only equality of identifiers matters here. */
  type Id = string

  /** A clock reading. No two readings are assumed to be ordered. */
  type Instant = int

  /** The last element of a sequence that continues another, and what comes before it. */
  lemma LastOf<T>(a: seq<T>, b: seq<T>)
    requires b != []
    ensures (a + b)[..|a + b| - 1] == a + b[..|b| - 1] && (a + b)[|a + b| - 1] == b[|b| - 1]
  {
  }
}
