// Shared vocabulary: identifiers and optional values.
module Base {

  // Every identifier of the source (uuid text) is opaque here: only equality matters.
  type Id = nat

  datatype Option<+T> = None | Some(value: T)

  predicate Distinct<T(==)>(s: seq<T>) {
    forall i, j :: 0 <= i < j < |s| ==> s[i] != s[j]
  }
}
