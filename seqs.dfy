/** Facts about sequences shared by the other modules. */
module Seqs {
  /** Concatenation is associative; called where the solver needs the regrouping spelled out. */
  lemma Assoc<T>(x: seq<T>, y: seq<T>, z: seq<T>)
    ensures x + (y + z) == (x + y) + z
  {
  }
}
