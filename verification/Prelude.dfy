/** Small wrappers shared by every part of the model. */
module Prelude {
  datatype Option<+T> = None | Some(value: T)

  /** A collision-free SHA-256: two digests are equal exactly when their inputs are. */
  datatype Digest = Sha256(input: string)

  predicate Distinct<T(==)>(s: seq<T>) {
    forall i, j :: 0 <= i < j < |s| ==> s[i] != s[j]
  }
}
