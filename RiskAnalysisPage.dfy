/**
 * The "Worst-Case Risk Analysis and Uncertainty Set Visualization" page
 * (pages/03_Risk_Analysis.py): the nominal standard deviation, the sampling
 * loop that records standard deviations and silently drops draws whose
 * variance is negative, and the constraint list of the worst-case problem
 * handed to the convex solver.
 */
module RiskAnalysisPage {
  import opened Outcomes
  import opened RealSqrt
  import opened Matrices
  import opened MatrixArrays
  import opened Sampling
  import opened NominalCovariance

  /** The number of draws the page makes. */
  const NumSamples: nat := 100

  /**
   * `nominal_risk = math.sqrt(np.dot(w_opt, np.dot(Sigma_nom, w_opt)))`;
   * `None` where the page would stop with `ValueError`.
   */
  method NominalRisk(nominal: array2<real>, w: array<real>, sqrt: real -> real)
    returns (r: Option<real>)
    requires nominal.Length0 == w.Length && nominal.Length1 == w.Length
    requires IsSqrt(sqrt)
    ensures r.Some? <==> QuadForm(Snapshot(nominal), w[..]) >= 0.0
    ensures r.Some? ==> r.value >= 0.0 && r.value * r.value == QuadForm(Snapshot(nominal), w[..])
  {
    var variance := QuadraticForm(nominal, w);
    r := StdDev(variance, sqrt);
  }

  // ---------------------------------------------------------------------
  // The sampling loop with square root and skip

  /** Every draw is an `n` by `n` matrix. */
  predicate SquareMatrices(draws: seq<Matrix>, n: nat) {
    forall k :: 0 <= k < |draws| ==> IsSquare(draws[k], n)
  }

  /** The variance each draw gives, in draw order. */
  function Variances(nominal: Matrix, w: seq<real>, draws: seq<Matrix>): (vs: seq<real>)
    requires IsSquare(nominal, |w|) && SquareMatrices(draws, |w|)
  {
    seq(|draws|, k requires 0 <= k < |draws| => SampleVariance(nominal, w, draws[k]))
  }

  /** How many of `vs` are negative. */
  function Negatives(vs: seq<real>): nat
    decreases |vs|
  {
    if |vs| == 0 then 0
    else Negatives(vs[..|vs| - 1]) + if vs[|vs| - 1] < 0.0 then 1 else 0
  }

  /**
   * The roots of `vs` in order, where a negative value, on which
   * `math.sqrt` raises, contributes nothing.
   */
  function Roots(vs: seq<real>, sqrt: real -> real): (rs: seq<real>)
    requires IsSqrt(sqrt)
    ensures |rs| + Negatives(vs) == |vs|
    ensures forall k :: 0 <= k < |rs| ==> rs[k] >= 0.0
    decreases |vs|
  {
    if |vs| == 0 then []
    else
      var kept := Roots(vs[..|vs| - 1], sqrt);
      match StdDev(vs[|vs| - 1], sqrt)
      case None => kept
      case Some(sd) => kept + [sd]
  }

  /** Without negative values nothing is skipped: each value becomes its root, in order. */
  lemma {:induction false} RootsOfNonNegative(vs: seq<real>, sqrt: real -> real)
    requires IsSqrt(sqrt)
    requires forall k :: 0 <= k < |vs| ==> vs[k] >= 0.0
    ensures Roots(vs, sqrt) == seq(|vs|, k requires 0 <= k < |vs| => sqrt(vs[k]))
    decreases |vs|
  {
    if |vs| > 0 {
      var n := |vs| - 1;
      var init := vs[..n];
      RootsOfNonNegative(init, sqrt);
      assert Roots(vs, sqrt) == Roots(init, sqrt) + [sqrt(vs[n])];
    }
  }

  /** How many of the draws give a negative variance. */
  function NegativeCount(nominal: Matrix, w: seq<real>, draws: seq<Matrix>): nat
    requires IsSquare(nominal, |w|) && SquareMatrices(draws, |w|)
  {
    Negatives(Variances(nominal, w, draws))
  }

  /**
   * What `risks` holds after the page's loop over `draws`: the square root
   * of each draw's variance, in draw order, with the draws whose variance
   * is negative left out. Every value is a standard deviation, and exactly
   * the rejected draws are missing.
   */
  function StdDevSamples(nominal: Matrix, w: seq<real>, draws: seq<Matrix>, sqrt: real -> real)
    : (risks: seq<real>)
    requires IsSquare(nominal, |w|) && SquareMatrices(draws, |w|)
    requires IsSqrt(sqrt)
    ensures |risks| + NegativeCount(nominal, w, draws) == |draws|
    ensures forall k :: 0 <= k < |risks| ==> risks[k] >= 0.0
  {
    Roots(Variances(nominal, w, draws), sqrt)
  }

  /**
   * One more iteration: a draw with negative variance appends nothing and
   * the loop goes on; any other draw appends its standard deviation.
   */
  lemma StdDevSamplesStep(
    nominal: Matrix, w: seq<real>, draws: seq<Matrix>, draw: Matrix, sqrt: real -> real)
    requires IsSquare(nominal, |w|) && SquareMatrices(draws, |w|) && IsSquare(draw, |w|)
    requires IsSqrt(sqrt)
    ensures SquareMatrices(draws + [draw], |w|)
    ensures StdDevSamples(nominal, w, draws + [draw], sqrt)
      == if SampleVariance(nominal, w, draw) < 0.0 then StdDevSamples(nominal, w, draws, sqrt)
         else StdDevSamples(nominal, w, draws, sqrt) + [sqrt(SampleVariance(nominal, w, draw))]
  {
    var vs, v := Variances(nominal, w, draws), SampleVariance(nominal, w, draw);
    assert Variances(nominal, w, draws + [draw]) == vs + [v];
    assert (vs + [v])[..|vs|] == vs;
  }

  /** Where no draw has a negative variance, every draw is kept, in order. */
  lemma AllKeptWithoutNegativeVariance(
    nominal: Matrix, w: seq<real>, draws: seq<Matrix>, sqrt: real -> real)
    requires IsSquare(nominal, |w|) && SquareMatrices(draws, |w|)
    requires IsSqrt(sqrt)
    requires forall k :: 0 <= k < |draws| ==> SampleVariance(nominal, w, draws[k]) >= 0.0
    ensures |StdDevSamples(nominal, w, draws, sqrt)| == |draws|
    ensures forall k :: 0 <= k < |draws| ==>
      StdDevSamples(nominal, w, draws, sqrt)[k] == sqrt(SampleVariance(nominal, w, draws[k]))
  {
    RootsOfNonNegative(Variances(nominal, w, draws), sqrt);
  }

  /**
   * With `delta == 0` every draw is the zero matrix, so the page records
   * exactly one value per draw, each the nominal standard deviation.
   */
  lemma ZeroDeltaGivesNominalRisk(
    nominal: Matrix, w: seq<real>, draws: seq<Matrix>, sqrt: real -> real)
    requires IsSquare(nominal, |w|) && SquareMatrices(draws, |w|)
    requires IsSqrt(sqrt)
    requires QuadForm(nominal, w) >= 0.0
    requires forall k :: 0 <= k < |draws| ==> Bounded(draws[k], 0.0)
    ensures StdDevSamples(nominal, w, draws, sqrt) == seq(|draws|, k => sqrt(QuadForm(nominal, w)))
  {
    forall k | 0 <= k < |draws|
      ensures SampleVariance(nominal, w, draws[k]) == QuadForm(nominal, w)
    {
      BoundedByZeroIsZero(draws[k], |w|);
      SampleVarianceOfZeroDraw(nominal, w);
    }
    AllKeptWithoutNegativeVariance(nominal, w, draws, sqrt);
  }

  /** `StdDevSamplesStep` on the prefixes of one sequence of draws. */
  lemma StdDevSamplesPrefix(nominal: Matrix, w: seq<real>, draws: seq<Matrix>, k: nat, sqrt: real -> real)
    requires IsSquare(nominal, |w|) && SquareMatrices(draws, |w|) && k < |draws|
    requires IsSqrt(sqrt)
    ensures SquareMatrices(draws[..k], |w|) && SquareMatrices(draws[..k + 1], |w|)
    ensures var v := SampleVariance(nominal, w, draws[k]);
      StdDevSamples(nominal, w, draws[..k + 1], sqrt)
      == if v < 0.0 then StdDevSamples(nominal, w, draws[..k], sqrt)
         else StdDevSamples(nominal, w, draws[..k], sqrt) + [sqrt(v)]
  {
    PrefixGrows(draws, k);
    StdDevSamplesStep(nominal, w, draws[..k], draws[k], sqrt);
  }

  /** The prefix one longer is the prefix with the next element appended. */
  lemma PrefixGrows<T>(s: seq<T>, k: nat)
    requires k < |s|
    ensures s[..k + 1] == s[..k] + [s[k]]
  {
  }

  /**
   * The body of the page's loop for one draw: the root of its variance is
   * appended, unless `math.sqrt` raises and the `except` leaves `risks` as
   * it was.
   */
  method RecordStdDev(nominal: array2<real>, w: array<real>, draw: array2<real>, sqrt: real -> real,
                      risks: seq<real>)
    returns (risks': seq<real>)
    requires nominal.Length0 == w.Length && nominal.Length1 == w.Length
    requires draw.Length0 == w.Length && draw.Length1 == w.Length
    requires IsSqrt(sqrt)
    ensures var v := SampleVariance(Snapshot(nominal), w[..], Snapshot(draw));
      risks' == if v < 0.0 then risks else risks + [sqrt(v)]
  {
    var v := PerturbedVariance(nominal, w, draw);
    risks' := risks;
    if v >= 0.0 {
      risks' := risks + [sqrt(v)];
    }
  }

  /**
   * The page's loop: `math.sqrt` raises `ValueError` on a negative
   * variance, the `except Exception: pass` swallows it, and that draw
   * leaves no trace in `risks`.
   */
  method SampleStdDevs(nominal: array2<real>, w: array<real>, draws: seq<array2<real>>, sqrt: real -> real)
    returns (risks: seq<real>)
    requires nominal.Length0 == w.Length && nominal.Length1 == w.Length
    requires SquareDraws(draws, w.Length)
    requires |draws| == NumSamples
    requires IsSqrt(sqrt)
    ensures SquareMatrices(Snapshots(draws), w.Length)
    ensures risks == StdDevSamples(Snapshot(nominal), w[..], Snapshots(draws), sqrt)
    ensures |risks| <= NumSamples
  {
    ghost var nom, x, ms := Snapshot(nominal), w[..], Snapshots(draws);
    assert SquareMatrices(ms, |x|);
    risks := [];
    for k := 0 to |draws|
      invariant risks == StdDevSamples(nom, x, ms[..k], sqrt)
    {
      risks := RecordStdDev(nominal, w, draws[k], sqrt, risks);
      StdDevSamplesPrefix(nom, x, ms, k, sqrt);
    }
    assert ms[..|ms|] == ms;
    assert Snapshots(draws) == ms;
  }

  // ---------------------------------------------------------------------
  // The worst-case problem's constraints, and how the samples relate to them

  /**
   * The constraints of the worst-case problem: `Delta` symmetric, with zero
   * diagonal and entries in `[-delta, delta]`, and `Sigma_nom + Delta`
   * symmetric positive semidefinite, as the `PSD=True` variable it equals
   * must be. The solve itself is not modelled.
   */
  ghost predicate WorstCaseFeasible(nominal: Matrix, delta: Matrix, bound: real)
    requires IsSquare(nominal, |nominal|)
  {
    && IsSquare(delta, |nominal|)
    && Symmetric(delta)
    && ZeroDiagonal(delta)
    && Bounded(delta, bound)
    && PositiveSemidefinite(MatAdd(nominal, delta))
  }

  /**
   * For a symmetric positive semidefinite nominal matrix, no perturbation at
   * all is feasible, so the worst case is never below the nominal risk.
   */
  lemma NoPerturbationIsFeasible(nominal: Matrix, bound: real)
    requires IsSquare(nominal, |nominal|)
    requires PositiveSemidefinite(nominal)
    requires bound >= 0.0
    ensures WorstCaseFeasible(nominal, Zero(|nominal|, |nominal|), bound)
  {
    var n := |nominal|;
    var sum := MatAdd(nominal, Zero(n, n));
    MatrixExtensionality(sum, nominal, n, n);
  }

  /**
   * The page's own nominal matrix `Sigma.T.dot(Sigma)` gives every
   * portfolio a non-negative variance, so `math.sqrt` at the nominal risk
   * never raises; it is symmetric too, so no perturbation at all meets the
   * worst-case constraints for every `delta >= 0`.
   */
  lemma PageNominalIsWellBehaved(s: Matrix, n: nat, w: seq<real>, bound: real)
    requires IsMatrix(s, |s|, n) && |w| == n
    requires bound >= 0.0
    ensures QuadForm(Gram(s, n), w) >= 0.0
    ensures WorstCaseFeasible(Gram(s, n), Zero(n, n), bound)
  {
    GramIsPositiveSemidefinite(s, n);
    NoPerturbationIsFeasible(Gram(s, n), bound);
  }

  /**
   * A sampled `Delta_sample` can satisfy the worst-case constraints only
   * when the drawn diagonal is zero: the samplers keep the drawn diagonal.
   */
  lemma FeasibleSampleHasZeroDrawnDiagonal(nominal: Matrix, draw: Matrix, bound: real)
    requires IsSquare(nominal, |nominal|) && IsSquare(draw, |nominal|)
    requires WorstCaseFeasible(nominal, Symmetrized(draw), bound)
    ensures ZeroDiagonal(draw)
  {
    SymmetrizedZeroDiagonalIff(draw);
  }

  /**
   * A draw inside `[-delta, delta]` whose `Delta_sample` breaks the
   * zero-diagonal constraint: with `delta = 0.2`, the one-asset draw
   * `[[0.1]]` is kept as it is.
   */
  lemma SampledPerturbationCanBeInfeasible()
    ensures Bounded([[0.1]], 0.2)
    ensures !WorstCaseFeasible([[1.0]], Symmetrized([[0.1]]), 0.2)
  {
    SymmetrizedEntries([[0.1]], 0, 0);
  }

  /**
   * Nothing checks that `Sigma_sample` is positive semidefinite: with a
   * zero nominal covariance and the draw `[[-0.1]]` inside `delta = 0.2`,
   * the one-asset portfolio gets variance `-0.1`. The unconditional loops
   * record it; this page drops it.
   */
  lemma SampleVarianceCanBeNegative()
    ensures Bounded([[-0.1]], 0.2)
    ensures SampleVariance([[0.0]], [1.0], [[-0.1]]) == -0.1
  {
    SymmetrizedEntries([[-0.1]], 0, 0);
    var d := Symmetrized([[-0.1]]);
    var s := MatAdd([[0.0]], d);
    assert s[0][0] == -0.1;
    assert Dot(s[0], [1.0]) == -0.1 by {
      assert s[0][..0] == [];
    }
    assert QuadRows(s, [1.0], 1) == -0.1;
  }
}
