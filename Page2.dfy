/**
 * `run_page2` (application_pages/page2.py): the sensitivity page's sampling
 * loop, which appends every draw's variance.
 */
module Page2 {
  import opened Matrices
  import opened MatrixArrays
  import opened Sampling

  /** `num_samples`. */
  const NumSamples: nat := 100

  /**
   * The loop over the `num_samples` draws: exactly one variance per draw,
   * negative ones included, in draw order.
   */
  method RiskSamples(nominal: array2<real>, w: array<real>, draws: seq<array2<real>>)
    returns (risks: seq<real>)
    requires nominal.Length0 == w.Length && nominal.Length1 == w.Length
    requires SquareDraws(draws, w.Length)
    requires |draws| == NumSamples
    ensures |risks| == NumSamples
    ensures forall k :: 0 <= k < NumSamples ==>
      risks[k] == SampleVariance(Snapshot(nominal), w[..], Snapshot(draws[k]))
  {
    risks := SampleVariances(nominal, w, draws);
  }
}
