/**
 * The square root the program borrows from its libraries (numpy's `np.sqrt`,
 * Python's `math.sqrt`). An exact real square root cannot be computed, so the
 * model takes the routine as a parameter and states what it must satisfy on
 * the non-negative reals.
 */
module RealSqrt {
  import opened Outcomes

  /** `sqrt` returns the non-negative square root of every non-negative real. */
  ghost predicate IsSqrt(sqrt: real -> real) {
    forall x: real {:trigger sqrt(x)} :: 0.0 <= x ==> 0.0 <= sqrt(x) && sqrt(x) * sqrt(x) == x
  }

  /** Squares of non-negative reals are strictly ordered like the reals themselves. */
  lemma SquareStrictlyMonotone(a: real, b: real)
    requires 0.0 <= a < b
    ensures a * a < b * b
  {
    var aa, ab, bb := a * a, a * b, b * b;
    assert aa <= ab by {
      assert a * (b - a) >= 0.0;
    }
    assert ab < bb by {
      assert (b - a) * b > 0.0;
    }
  }

  /** The root of a square of a non-negative real is that real. */
  lemma SqrtOfSquare(sqrt: real -> real, a: real)
    requires IsSqrt(sqrt)
    requires 0.0 <= a
    ensures sqrt(a * a) == a
  {
    var s := sqrt(a * a);
    if s < a {
      SquareStrictlyMonotone(s, a);
    } else if a < s {
      SquareStrictlyMonotone(a, s);
    }
  }

  /** The root is non-decreasing on the non-negative reals. */
  lemma SqrtMonotone(sqrt: real -> real, x: real, y: real)
    requires IsSqrt(sqrt)
    requires 0.0 <= x <= y
    ensures sqrt(x) <= sqrt(y)
  {
    if sqrt(y) < sqrt(x) {
      SquareStrictlyMonotone(sqrt(y), sqrt(x));
    }
  }

  /**
   * The standard deviation for a variance, or `None` where the library
   * call has no real answer: `math.sqrt` raises `ValueError` and `np.sqrt`
   * returns `nan` on a negative variance.
   */
  function StdDev(variance: real, sqrt: real -> real): (r: Option<real>)
    requires IsSqrt(sqrt)
    ensures r.Some? <==> variance >= 0.0
    ensures r.Some? ==> r.value >= 0.0 && r.value * r.value == variance
  {
    if variance < 0.0 then None else Some(sqrt(variance))
  }
}
