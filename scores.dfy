/** Objective values as the optimizer compares them.
    The source scores positions with 32-bit floats and starts every best at
    +infinity; a scorer may also return -infinity or NaN.  Finite values are
    modelled as reals; the special values are explicit constructors. */
module Scores {

  datatype Score = NegInf | Fin(value: real) | PosInf | NaN

  /** The float comparison `a < b`: NaN is below and above nothing,
      +infinity is below nothing, -infinity is above nothing. */
  predicate Less(a: Score, b: Score) {
    match a
    case NaN => false
    case PosInf => false
    case NegInf => b.Fin? || b.PosInf?
    case Fin(x) => (b.Fin? && x < b.value) || b.PosInf?
  }

  /** The float comparison `a <= b`: NaN is related to nothing, itself included. */
  predicate AtMost(a: Score, b: Score) {
    Less(a, b) || (a == b && !a.NaN?)
  }

  /** `Less` is a strict order on scores, NaN never takes part in it, and on
      the non-NaN scores it is total. */
  lemma LessIsStrictOrder(a: Score, b: Score, c: Score)
    ensures !Less(a, a)
    ensures Less(a, b) ==> !Less(b, a)
    ensures Less(a, b) && Less(b, c) ==> Less(a, c)
    ensures !Less(a, NaN) && !Less(NaN, a) && !Less(PosInf, a)
    ensures !a.NaN? && !b.NaN? ==> Less(a, b) || a == b || Less(b, a)
  {
  }

  /** A strict improvement cannot hold between equal scores, so a tie never counts. */
  lemma TieIsNoImprovement(a: Score)
    ensures !Less(a, a) && (!a.NaN? ==> AtMost(a, a))
  {
  }

  /** `AtMost` is transitive and chains with `Less`. */
  lemma AtMostTransitive(a: Score, b: Score, c: Score)
    ensures AtMost(a, b) && AtMost(b, c) ==> AtMost(a, c)
    ensures Less(a, b) && AtMost(b, c) ==> Less(a, c)
    ensures AtMost(a, b) && Less(b, c) ==> Less(a, c)
  {
  }
}
