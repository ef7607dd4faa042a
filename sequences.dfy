// A fact about sequences the proofs give the solver by name, so that it
// does not have to rediscover it element by element on long strings and logs.

module Sequences {
  /** Concatenation is associative. */
  lemma Assoc<T>(a: seq<T>, b: seq<T>, c: seq<T>)
    ensures a + b + c == a + (b + c)
  {
  }
}
