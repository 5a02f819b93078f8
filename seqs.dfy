/** Facts about sequence concatenation, stated once for every element type. */
module Seqs {

  lemma ConcatAssoc<T>(x: seq<T>, y: seq<T>, z: seq<T>)
    ensures (x + y) + z == x + (y + z)
  {
  }

  /** A non-empty sequence is its prefix followed by its last element. */
  lemma TakeLast<T>(s: seq<T>)
    requires s != []
    ensures s[..|s| - 1] + [s[|s| - 1]] == s
  {
  }
}
