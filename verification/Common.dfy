/** Small value types shared by the models. */
module Common {
  datatype Option<+T> = None | Some(value: T)

  /** Strictly ascending, hence also free of duplicates. */
  ghost predicate Ascending(s: seq<nat>) {
    forall i, j :: 0 <= i < j < |s| ==> s[i] < s[j]
  }

  ghost predicate NoDup<T>(s: seq<T>) {
    forall i, j :: 0 <= i < j < |s| ==> s[i] != s[j]
  }
}
