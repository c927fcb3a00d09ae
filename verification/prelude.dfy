/** Definitions shared by several modules. */
module Prelude {

  datatype Option<+T> = None | Some(value: T)

  ghost predicate Differ<T>(s: seq<T>, i: int, j: int) {
    0 <= i < j < |s| ==> s[i] != s[j]
  }

  /** No value occurs twice in `s`. */
  ghost predicate NoDuplicates<T>(s: seq<T>) {
    forall i, j :: Differ(s, i, j)
  }

  lemma NoDuplicatesAppend<T>(s: seq<T>, x: T)
    requires NoDuplicates(s) && x !in s
    ensures NoDuplicates(s + [x])
  {
    forall i, j ensures Differ(s + [x], i, j) {
      assert Differ(s, i, j);
    }
  }

  /** Equal values sit at equal positions. */
  lemma NoDuplicatesAt<T>(s: seq<T>, i: nat, j: nat)
    requires NoDuplicates(s) && i < |s| && j < |s| && s[i] == s[j]
    ensures i == j
  {
    assert Differ(s, i, j) && Differ(s, j, i);
  }
}
