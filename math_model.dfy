/** The members of JavaScript's `Math` object that the aligner calls. Floating point is
 *  not modelled: `cos`, `sin`, `atan2` and `sqrt` are arbitrary total functions on the
 *  reals, carried as a value, and a lemma that needs one of their properties takes it
 *  as a precondition. */
module MathModel {
  import opened RealFacts

  datatype Math = Math(cos: real -> real, sin: real -> real,
                       atan2: (real, real) -> real, sqrt: real -> real)

  /** The only facts about the trigonometric functions the proofs rely on. */
  ghost predicate TrigLaws(m: Math)
  {
    && m.cos(0.0) == 1.0
    && m.sin(0.0) == 0.0
    && (forall t :: m.cos(t) * m.cos(t) + m.sin(t) * m.sin(t) == 1.0)
    && (forall b :: b > 0.0 ==> m.atan2(0.0, b) == 0.0)
  }

  /** `sqrt` gives the non-negative square root of a non-negative number. */
  ghost predicate SqrtLaws(m: Math)
  {
    forall v :: v >= 0.0 ==> m.sqrt(v) >= 0.0 && m.sqrt(v) * m.sqrt(v) == v
  }

  lemma SqrtOfSquare(m: Math, k: real)
    requires SqrtLaws(m) && k >= 0.0
    ensures m.sqrt(k * k) == k
  {
    NonNegativeRootIsUnique(m.sqrt(k * k), k);
  }
}
