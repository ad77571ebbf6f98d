/**
 * Python floats as the searchers use them: finite values and the two
 * infinities -float('inf') and float('inf').  Rounding is not modelled.
 */
module ExtReals {
  datatype XReal = NegInf | Fin(r: real) | PosInf

  /** Python's < on these values: a strict total order. */
  predicate Less(a: XReal, b: XReal)
  {
    match a
    case NegInf => !b.NegInf?
    case Fin(x) => b.PosInf? || (b.Fin? && x < b.r)
    case PosInf => false
  }

  predicate LessEq(a: XReal, b: XReal)
  {
    !Less(b, a)
  }

  /** Exactly one of a < b, a == b, b < a holds, and < is transitive. */
  lemma LessIsStrictTotal(a: XReal, b: XReal, c: XReal)
    ensures Less(a, b) ==> !Less(b, a)
    ensures !Less(a, b) && !Less(b, a) ==> a == b
    ensures Less(a, b) && Less(b, c) ==> Less(a, c)
  {
  }

  /** Python's max(a, b): the first argument on a tie. */
  function Max(a: XReal, b: XReal): (m: XReal)
    ensures LessEq(a, m) && LessEq(b, m) && (m == a || m == b)
  {
    if Less(a, b) then b else a
  }

  /** Python's min(a, b). */
  function Min(a: XReal, b: XReal): (m: XReal)
    ensures LessEq(m, a) && LessEq(m, b) && (m == a || m == b)
  {
    if Less(b, a) then b else a
  }

  /** A finite value times a real factor; the infinities keep their sign for a positive factor. */
  function Scale(a: XReal, k: real): (s: XReal)
    requires k > 0.0
    ensures s.Fin? <==> a.Fin?
    ensures a.Fin? ==> s.r == a.r * k
  {
    match a
    case Fin(x) => Fin(x * k)
    case _ => a
  }
}
