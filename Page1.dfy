/**
 * `run_page1` (application_pages/page1.py): the nominal standard deviation
 * it displays and its sampling loop, which appends every draw's variance.
 */
module Page1 {
  import opened Outcomes
  import opened RealSqrt
  import opened Matrices
  import opened MatrixArrays
  import opened Sampling

  /** `num_samples`. */
  const NumSamples: nat := 100

  /**
   * `np.sqrt(cp.quad_form(w.value, Sigma_nom).value)`; `None` stands for
   * the `nan` that `np.sqrt` gives for a negative variance.
   */
  method NominalStdDev(nominal: array2<real>, w: array<real>, sqrt: real -> real)
    returns (r: Option<real>)
    requires nominal.Length0 == w.Length && nominal.Length1 == w.Length
    requires IsSqrt(sqrt)
    ensures r.Some? <==> QuadForm(Snapshot(nominal), w[..]) >= 0.0
    ensures r.Some? ==> r.value >= 0.0 && r.value * r.value == QuadForm(Snapshot(nominal), w[..])
  {
    var variance := QuadraticForm(nominal, w);
    r := StdDev(variance, sqrt);
  }

  /**
   * The loop over the `num_samples` draws: exactly one variance per draw,
   * negative ones included, in draw order.
   */
  method RiskSamples(nominal: array2<real>, w: array<real>, draws: seq<array2<real>>)
    returns (risks: seq<real>)
    requires nominal.Length0 == w.Length && nominal.Length1 == w.Length
    requires SquareDraws(draws, w.Length)
    requires |draws| == NumSamples
    ensures |risks| == NumSamples
    ensures forall k :: 0 <= k < NumSamples ==>
      risks[k] == SampleVariance(Snapshot(nominal), w[..], Snapshot(draws[k]))
  {
    risks := SampleVariances(nominal, w, draws);
  }
}
