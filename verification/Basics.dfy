/** What every component uses. */
module Basics {

  const TWO32: nat := 0x1_0000_0000

  /** The low 32 bits of a number. */
  function Low32(x: int): nat { x % 0x1_0000_0000 }

  lemma Low32Is(x: nat)
    requires x < TWO32 + TWO32
    ensures Low32(x) == if x < TWO32 then x else x - TWO32
  {}

  datatype Option<+T> = None | Some(value: T)

  /** No member occurs twice. */
  predicate NoDup<T(==)>(s: seq<T>) {
    forall i, j :: 0 <= i < j < |s| ==> s[i] != s[j]
  }
}
