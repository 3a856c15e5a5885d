/** Facts of real arithmetic that the solver does not find unaided once products of
 *  unknowns are involved. Each is stated on bare reals so that its proof obligation
 *  stays small; the geometric lemmas call them on the exact terms they need. */
module RealFacts {
  lemma ProductOfPositives(a: real, b: real)
    requires a > 0.0 && b > 0.0
    ensures a * b > 0.0
  {
  }

  /** The same fact for a named product `t`; squares (`a` and `b` the same term)
   *  reach their callers only in this form. */
  lemma PositiveProduct(a: real, b: real, t: real)
    requires a > 0.0 && b > 0.0 && t == a * b
    ensures t > 0.0
  {
    ProductOfPositives(a, b);
  }

  /** A square `t` of `a` is never negative, and is positive unless `a` is zero. */
  lemma SquareFacts(a: real, t: real)
    requires t == a * a
    ensures t >= 0.0
    ensures a != 0.0 ==> t > 0.0
  {
    if a > 0.0 {
      PositiveProduct(a, a, t);
    } else if a < 0.0 {
      assert t == (-a) * (-a);
      PositiveProduct(-a, -a, t);
    }
  }

  lemma NonZeroProduct(a: real, b: real)
    requires a != 0.0 && b != 0.0
    ensures a * b != 0.0
  {
  }

  /** A quotient whose numerator is a multiple of its denominator. */
  lemma CancelDivision(t: real, a: real, s: real)
    requires s != 0.0 && t == a * s
    ensures t / s == a
  {
  }

  /** Two non-negative numbers with the same square are equal. */
  lemma NonNegativeRootIsUnique(r: real, k: real)
    requires r >= 0.0 && k >= 0.0 && r * r == k * k
    ensures r == k
  {
    assert r * r - k * k == (r - k) * (r + k);
    if r > k {
      ProductOfPositives(r - k, r + k);
    } else if r < k {
      ProductOfPositives(k - r, k + r);
    }
  }

  /** A non-zero factor cancels from both sides. */
  lemma ScaleCancels(a: real, g: real, k: real)
    requires a * g == a * k
    ensures a == 0.0 || g == k
  {
    assert a * g - a * k == a * (g - k);
    if a != 0.0 && g != k {
      NonZeroProduct(a, g - k);
    }
  }

  /** A positive number other than 1 is not its own square. */
  lemma SquareIsNotSelf(k: real, g: real)
    requires k > 0.0 && k != 1.0 && g == k * k
    ensures g != k
  {
    assert g - k == k * (k - 1.0);
    NonZeroProduct(k, k - 1.0);
  }

  /** A part of a positive whole, over that whole, lies in [0, 1]. */
  lemma UnitRatio(x: real, w: real)
    requires w > 0.0 && 0.0 <= x <= w
    ensures 0.0 <= x / w <= 1.0
  {
  }
}
