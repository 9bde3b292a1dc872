/**
 * The Monte-Carlo loop the risk pages repeat: for each drawn matrix, keep
 * its upper triangle, mirror it into `Delta_sample`, add it to the nominal
 * covariance and record the portfolio variance. The random draws are an
 * input list of `n` by `n` arrays.
 */
module Sampling {
  import opened Matrices
  import opened MatrixArrays

  /** Every draw is an `n` by `n` array. */
  predicate SquareDraws(draws: seq<array2<real>>, n: nat) {
    forall k :: 0 <= k < |draws| ==> draws[k].Length0 == n && draws[k].Length1 == n
  }

  /** One iteration up to the variance: `w^T (Sigma_nom + Delta_sample) w`. */
  method PerturbedVariance(nominal: array2<real>, w: array<real>, draw: array2<real>)
    returns (v: real)
    requires nominal.Length0 == w.Length && nominal.Length1 == w.Length
    requires draw.Length0 == w.Length && draw.Length1 == w.Length
    ensures v == SampleVariance(Snapshot(nominal), w[..], Snapshot(draw))
  {
    var delta := Triu(draw);
    delta := Mirror(delta);
    var sigma := Add(nominal, delta);
    v := QuadraticForm(sigma, w);
  }

  /**
   * The loop with an unconditional append: one variance per draw, in draw
   * order, with no positive-semidefiniteness check and no rejection.
   */
  method SampleVariances(nominal: array2<real>, w: array<real>, draws: seq<array2<real>>)
    returns (risks: seq<real>)
    requires nominal.Length0 == w.Length && nominal.Length1 == w.Length
    requires SquareDraws(draws, w.Length)
    ensures |risks| == |draws|
    ensures forall k :: 0 <= k < |draws| ==>
      risks[k] == SampleVariance(Snapshot(nominal), w[..], Snapshot(draws[k]))
  {
    risks := [];
    for k := 0 to |draws|
      invariant |risks| == k
      invariant forall p :: 0 <= p < k ==>
        risks[p] == SampleVariance(Snapshot(nominal), w[..], Snapshot(draws[p]))
    {
      var v := PerturbedVariance(nominal, w, draws[k]);
      risks := risks + [v];
    }
  }
}
