/** A definition kept closed until a proof asks for it. */
module Sealed {

  /**
   * Holds of everything. A predicate defined as forall n :: Asked(n, key) ==> body means body, but a proof sees only the
   * quantifier, which is not instantiated until Asked is mentioned with that key: assert Asked(0, key) opens the definition.
   * Facts that are only passed on stay closed, and keep what they say out of proofs that do not look at it.
   */
  predicate Asked<T>(n: int, about: T) {
    true
  }
}
