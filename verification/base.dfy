/** Small shared vocabulary: an optional value, as JavaScript's `undefined` stands for "nothing here". */
module Base {

  datatype Option<+T> = None | Some(value: T)

  /** True iff no element of `s` occurs twice: a sequence used as an insertion-ordered set. */
  ghost predicate Distinct<T>(s: seq<T>) {
    forall i, j :: 0 <= i < j < |s| ==> s[i] != s[j]
  }
}
