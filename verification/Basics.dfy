/** Vocabulary the other modules share. */
module Basics {
  /** A value that may be absent. */
  datatype Option<+T> = None | Some(value: T)

  /** No number occurs twice. */
  predicate Distinct(s: seq<nat>) {
    forall i, j :: 0 <= i < j < |s| ==> s[i] != s[j]
  }

  type Byte = b: nat | b < 256
}
