/**
 * The sampling part of `covariance_uncertainty_visualizer`
 * (definitions/None.py). Its `try`/`except Exception: pass` wraps only the
 * reshape and the quadratic form. Neither can fail here: a `w.value` of
 * `None` would already have failed in `cp.quad_form` before the loop, and
 * the arrays are `n` by `n`. So the `except` is unreachable and every draw
 * appends its variance. Despite the
 * comment above the `try`, nothing checks that `Sigma_sample` is positive
 * semidefinite.
 */
module CovarianceVisualizer {
  import opened Matrices
  import opened MatrixArrays
  import opened Sampling

  /** `num_samples`. */
  const NumSamples: nat := 100

  /** The loop over the `num_samples` draws: one variance per draw, in draw order. */
  method RiskSamples(nominal: array2<real>, w: array<real>, draws: seq<array2<real>>)
    returns (risks: seq<real>)
    requires nominal.Length0 == w.Length && nominal.Length1 == w.Length
    requires SquareDraws(draws, w.Length)
    requires |draws| == NumSamples
    ensures |risks| == NumSamples
    ensures forall k :: 0 <= k < NumSamples ==>
      risks[k] == SampleVariance(Snapshot(nominal), w[..], Snapshot(draws[k]))
  {
    risks := SampleVariances(nominal, w, draws);
  }
}
