/**
 * `analyze_covariance_uncertainty` (definitions/definitions.py): an ordered
 * chain of input checks, each raising its own `ValueError`, then the
 * closed-form worst-case standard deviation
 * `sqrt(max(p + 2 u sqrt(p) |w|^2 + (u |w|^2)^2, 0))` with `p = w^T Sigma w`,
 * which equals `sqrt(p) + u |w|^2`.
 */
module CovarianceUncertainty {
  import opened Outcomes
  import opened RealSqrt
  import opened Matrices

  /**
   * A numpy array of reals, as far as the checks look at it: a vector
   * (`ndim == 1`), a matrix with its shape (`ndim == 2`), or an array of
   * any other rank, whose contents no check reaches.
   */
  datatype NdArray =
    | Vector(items: seq<real>)
    | Matrix2(rows: nat, cols: nat, entries: Matrix)
    | OtherRank(ndim: nat)
  {
    /** What every numpy array satisfies: a rectangular shape, and the rank its case names. */
    predicate WellFormed() {
      match this
      case Vector(_) => true
      case Matrix2(r, c, m) => IsMatrix(m, r, c)
      case OtherRank(d) => d != 1 && d != 2
    }
  }

  /** The `ValueError`s the function raises, one per check. */
  datatype ValidationError =
    | NotSquare
    | WeightSizeMismatch
    | NegativeDiagonal
    | NegativeUncertainty
    | ZeroWeightSum
    | WeightSumNotOne

  /** The message each `ValueError` carries. */
  function Message(e: ValidationError): string {
    match e
    case NotSquare => "cov_matrix must be a square matrix"
    case WeightSizeMismatch => "portfolio_weights size must match cov_matrix dimensions"
    case NegativeDiagonal => "cov_matrix has negative diagonal elements"
    case NegativeUncertainty => "uncertainty_level must be non-negative"
    case ZeroWeightSum => "Sum of portfolio_weights must be non-zero and finite"
    case WeightSumNotOne => "Sum of portfolio_weights must be 1 (within tolerance)"
  }

  /** Each check's message tells it apart from every other check. */
  lemma MessagesIdentifyErrors(e1: ValidationError, e2: ValidationError)
    ensures Message(e1) == Message(e2) <==> e1 == e2
  {
    if Message(e1) == Message(e2) {
      assert |Message(e1)| == |Message(e2)|;
    }
  }

  /** `atol` passed to `np.isclose`. */
  const AbsoluteTolerance: real := 0.00000001
  /** `np.isclose`'s default `rtol`. */
  const RelativeTolerance: real := 0.00001

  // ---------------------------------------------------------------------
  // The checks, in the order the function makes them

  /** `cov_matrix.ndim == 2 and cov_matrix.shape[0] == cov_matrix.shape[1]`. */
  predicate SquareCov(cov: NdArray) {
    cov.Matrix2? && cov.rows == cov.cols
  }

  /** `portfolio_weights.ndim == 1 and portfolio_weights.size == n`. */
  predicate WeightsMatch(cov: NdArray, w: NdArray)
    requires SquareCov(cov)
  {
    w.Vector? && |w.items| == cov.rows
  }

  /** No entry of `np.diag(cov_matrix)` is negative. */
  predicate DiagonalNonNegative(cov: NdArray)
    requires cov.WellFormed() && SquareCov(cov)
  {
    forall i :: 0 <= i < cov.rows ==> cov.entries[i][i] >= 0.0
  }

  /** `np.sum(portfolio_weights)`, added from the front. */
  function Sum(xs: seq<real>): real
    decreases |xs|
  {
    if |xs| == 0 then 0.0 else Sum(xs[..|xs| - 1]) + xs[|xs| - 1]
  }

  /** `np.isclose(s, 1, atol=1e-8)`: `|s - 1| <= atol + rtol * |1|`. */
  predicate CloseToOne(s: real) {
    var d := if s >= 1.0 then s - 1.0 else 1.0 - s;
    d <= AbsoluteTolerance + RelativeTolerance
  }

  /** All checks pass. */
  predicate Valid(cov: NdArray, u: real, w: NdArray)
    requires cov.WellFormed()
  {
    && SquareCov(cov)
    && WeightsMatch(cov, w)
    && DiagonalNonNegative(cov)
    && u >= 0.0
    && Sum(w.items) != 0.0
    && CloseToOne(Sum(w.items))
  }

  /** `port_var = w @ cov_matrix @ w`. */
  function PortfolioVariance(cov: NdArray, w: NdArray): real
    requires cov.WellFormed() && SquareCov(cov) && WeightsMatch(cov, w)
  {
    QuadForm(cov.entries, w.items)
  }

  /** `w_norm_sq = np.dot(w, w)`. */
  function NormSquared(w: seq<real>): real {
    Dot(w, w)
  }

  /** `worst_case_var = port_var + 2 u sqrt(port_var) w_norm_sq + (u w_norm_sq)^2`. */
  function WorstCaseVariance(p: real, u: real, n: real, sqrt: real -> real): real {
    p + 2.0 * u * sqrt(p) * n + (u * n) * (u * n)
  }

  /**
   * `analyze_covariance_uncertainty(cov_matrix, uncertainty_level,
   * portfolio_weights)`. The first failing check decides the error; when
   * all pass, the result is the worst-case standard deviation. The
   * function is only defined where the nominal variance it takes the root
   * of is non-negative.
   */
  function AnalyzeCovarianceUncertainty(cov: NdArray, u: real, w: NdArray, sqrt: real -> real)
    : (r: Result<real, ValidationError>)
    requires cov.WellFormed() && w.WellFormed()
    requires IsSqrt(sqrt)
    requires Valid(cov, u, w) ==> PortfolioVariance(cov, w) >= 0.0
    ensures !SquareCov(cov) ==> r == Err(NotSquare)
    ensures SquareCov(cov) && !WeightsMatch(cov, w) ==> r == Err(WeightSizeMismatch)
    ensures SquareCov(cov) && WeightsMatch(cov, w) && !DiagonalNonNegative(cov) ==>
      r == Err(NegativeDiagonal)
    ensures SquareCov(cov) && WeightsMatch(cov, w) && DiagonalNonNegative(cov) && u < 0.0 ==>
      r == Err(NegativeUncertainty)
    ensures (SquareCov(cov) && WeightsMatch(cov, w) && DiagonalNonNegative(cov) && u >= 0.0
      && Sum(w.items) == 0.0) ==> r == Err(ZeroWeightSum)
    ensures (SquareCov(cov) && WeightsMatch(cov, w) && DiagonalNonNegative(cov) && u >= 0.0
      && Sum(w.items) != 0.0 && !CloseToOne(Sum(w.items))) ==> r == Err(WeightSumNotOne)
    ensures r.Ok? <==> Valid(cov, u, w)
    ensures r.Ok? ==> r.value >= 0.0
  {
    if !SquareCov(cov) then Err(NotSquare)
    else if !WeightsMatch(cov, w) then Err(WeightSizeMismatch)
    else if !DiagonalNonNegative(cov) then Err(NegativeDiagonal)
    else if u < 0.0 then Err(NegativeUncertainty)
    else
      var s := Sum(w.items);
      if s == 0.0 then Err(ZeroWeightSum)
      else if !CloseToOne(s) then Err(WeightSumNotOne)
      else
        var worst := WorstCaseVariance(PortfolioVariance(cov, w), u, NormSquared(w.items), sqrt);
        Ok(sqrt(if 0.0 > worst then 0.0 else worst))
  }

  // ---------------------------------------------------------------------
  // The worst-case risk

  /**
   * For valid input the result is `sqrt(p) + u * |w|^2`: the expanded
   * worst-case variance is that sum squared, so the clamp at zero never
   * applies and the root undoes the square.
   */
  lemma WorstCaseRiskClosedForm(cov: NdArray, u: real, w: NdArray, sqrt: real -> real)
    requires cov.WellFormed() && w.WellFormed()
    requires IsSqrt(sqrt)
    requires Valid(cov, u, w)
    requires PortfolioVariance(cov, w) >= 0.0
    ensures AnalyzeCovarianceUncertainty(cov, u, w, sqrt)
      == Ok(sqrt(PortfolioVariance(cov, w)) + u * NormSquared(w.items))
  {
    var p := PortfolioVariance(cov, w);
    var n := NormSquared(w.items);
    var root := sqrt(p);
    DotSelfNonNegative(w.items);
    var sum := root + u * n;
    assert u * n >= 0.0;
    var worst := WorstCaseVariance(p, u, n, sqrt);
    assert worst == sum * sum by {
      assert root * root == p;
    }
    assert sum * sum >= 0.0 by {
      assert sum >= 0.0;
    }
    assert AnalyzeCovarianceUncertainty(cov, u, w, sqrt) == Ok(sqrt(worst));
    SqrtOfSquare(sqrt, sum);
    assert sqrt(worst) == sum;
    assert AnalyzeCovarianceUncertainty(cov, u, w, sqrt) == Ok(sum);
    assert sum == sqrt(PortfolioVariance(cov, w)) + u * NormSquared(w.items);
  }

  /** With no uncertainty the worst case is the nominal standard deviation. */
  lemma NoUncertaintyGivesNominalRisk(cov: NdArray, w: NdArray, sqrt: real -> real)
    requires cov.WellFormed() && w.WellFormed()
    requires IsSqrt(sqrt)
    requires Valid(cov, 0.0, w)
    requires PortfolioVariance(cov, w) >= 0.0
    ensures AnalyzeCovarianceUncertainty(cov, 0.0, w, sqrt) == Ok(sqrt(PortfolioVariance(cov, w)))
  {
    WorstCaseRiskClosedForm(cov, 0.0, w, sqrt);
  }

  /**
   * The worst case is never below the nominal standard deviation, and it
   * does not decrease as the uncertainty level grows.
   */
  lemma WorstCaseMonotoneInUncertainty(cov: NdArray, u1: real, u2: real, w: NdArray, sqrt: real -> real)
    requires cov.WellFormed() && w.WellFormed()
    requires IsSqrt(sqrt)
    requires Valid(cov, u1, w)
    requires u1 <= u2
    requires PortfolioVariance(cov, w) >= 0.0
    ensures AnalyzeCovarianceUncertainty(cov, u1, w, sqrt).Ok?
    ensures AnalyzeCovarianceUncertainty(cov, u2, w, sqrt).Ok?
    ensures sqrt(PortfolioVariance(cov, w)) <= AnalyzeCovarianceUncertainty(cov, u1, w, sqrt).value
    ensures AnalyzeCovarianceUncertainty(cov, u1, w, sqrt).value
      <= AnalyzeCovarianceUncertainty(cov, u2, w, sqrt).value
  {
    WorstCaseRiskClosedForm(cov, u1, w, sqrt);
    WorstCaseRiskClosedForm(cov, u2, w, sqrt);
    DotSelfNonNegative(w.items);
    var n := NormSquared(w.items);
    assert u1 * n <= u2 * n by {
      assert (u2 - u1) * n >= 0.0;
    }
  }
}
