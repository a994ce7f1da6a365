/** Real numbers extended with positive infinity: the sentinel the thermal
    relaxation extractor uses for a T1, T2 or frequency it cannot load. */
module ExtendedReal {

  datatype ExtReal = Fin(r: real) | Inf

  /** Order on extended reals: every finite value lies below infinity. */
  predicate LessEq(a: ExtReal, b: ExtReal) {
    b.Inf? || (a.Fin? && a.r <= b.r)
  }

  /** `2 * x`, with `2 * inf = inf`. */
  function Double(x: ExtReal): ExtReal {
    match x
    case Fin(v) => Fin(2.0 * v)
    case Inf => Inf
  }

  /** The smaller of two extended reals (Python's `min`). */
  function Min(a: ExtReal, b: ExtReal): (m: ExtReal)
    ensures LessEq(m, a) && LessEq(m, b)
    ensures m == a || m == b
  {
    if LessEq(a, b) then a else b
  }
}
