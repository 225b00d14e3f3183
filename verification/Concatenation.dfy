/** A fact about sequences of anything that many proofs here use. */
module Concatenation {

  lemma Assoc<T>(a: seq<T>, b: seq<T>, c: seq<T>)
    ensures a + b + c == a + (b + c)
  {
  }
}
