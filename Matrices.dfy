/**
 * Real matrices and vectors as values: the numpy arithmetic the risk pages
 * use (`np.triu`, `D + D.T - np.diag(np.diag(D))`, matrix addition and the
 * quadratic form `w^T Sigma w`), stated exactly over the reals.
 */
module Matrices {

  /** A matrix as its list of rows. */
  type Matrix = seq<seq<real>>

  /** `m` has `r` rows of `c` entries each. */
  predicate IsMatrix(m: Matrix, r: nat, c: nat) {
    |m| == r && forall i :: 0 <= i < r ==> |m[i]| == c
  }

  predicate IsSquare(m: Matrix, n: nat) {
    IsMatrix(m, n, n)
  }

  /** Two matrices with the same entries are the same matrix. */
  lemma MatrixExtensionality(a: Matrix, b: Matrix, r: nat, c: nat)
    requires IsMatrix(a, r, c) && IsMatrix(b, r, c)
    requires forall i, j :: 0 <= i < r && 0 <= j < c ==> a[i][j] == b[i][j]
    ensures a == b
  {
    forall i | 0 <= i < r
      ensures a[i] == b[i]
    {
      assert forall j :: 0 <= j < c ==> a[i][j] == b[i][j];
    }
  }

  // ---------------------------------------------------------------------
  // Sums and products

  /** The inner product `sum_k u[k] * v[k]`, accumulated from the front. */
  function Dot(u: seq<real>, v: seq<real>): real
    requires |u| == |v|
    decreases |u|
  {
    if |u| == 0 then 0.0 else Dot(u[..|u| - 1], v[..|v| - 1]) + u[|u| - 1] * v[|v| - 1]
  }

  /** `sum_{i < k} w[i] * (m[i] . w)`: the first `k` rows of the quadratic form. */
  function QuadRows(m: Matrix, w: seq<real>, k: nat): real
    requires IsSquare(m, |w|) && k <= |w|
  {
    if k == 0 then 0.0 else QuadRows(m, w, k - 1) + w[k - 1] * Dot(m[k - 1], w)
  }

  /** The portfolio variance `w^T m w`. */
  function QuadForm(m: Matrix, w: seq<real>): real
    requires IsSquare(m, |w|)
  {
    QuadRows(m, w, |w|)
  }

  /** The element-wise sum of two vectors of one length. */
  function VecAdd(u: seq<real>, v: seq<real>): (s: seq<real>)
    requires |u| == |v|
    ensures |s| == |u|
  {
    seq(|u|, k requires 0 <= k < |u| => u[k] + v[k])
  }

  /** The element-wise sum `a + b` of two matrices of one shape. */
  function MatAdd(a: Matrix, b: Matrix): (s: Matrix)
    requires |a| == |b| && forall i :: 0 <= i < |a| ==> |a[i]| == |b[i]|
    ensures |s| == |a| && forall i :: 0 <= i < |a| ==> s[i] == VecAdd(a[i], b[i])
  {
    seq(|a|, i requires 0 <= i < |a| => VecAdd(a[i], b[i]))
  }

  /** The `r` by `c` matrix of zeros. */
  function Zero(r: nat, c: nat): (z: Matrix)
    ensures IsMatrix(z, r, c)
    ensures forall i, j :: 0 <= i < r && 0 <= j < c ==> z[i][j] == 0.0
  {
    seq(r, i => seq(c, j => 0.0))
  }

  // ---------------------------------------------------------------------
  // The perturbation the samplers build from one draw

  /** `np.triu(m)`: entries on and above the diagonal kept, those below set to 0. */
  function Upper(m: Matrix): (t: Matrix)
    ensures |t| == |m| && forall i :: 0 <= i < |m| ==> |t[i]| == |m[i]|
  {
    seq(|m|, i requires 0 <= i < |m| =>
      seq(|m[i]|, j requires 0 <= j < |m[i]| => if i <= j then m[i][j] else 0.0))
  }

  /** `t + t.T - np.diag(np.diag(t))` for a square `t`, entry by entry. */
  function Mirrored(t: Matrix): (d: Matrix)
    requires IsSquare(t, |t|)
    ensures IsSquare(d, |t|)
  {
    seq(|t|, i requires 0 <= i < |t| =>
      seq(|t|, j requires 0 <= j < |t| => t[i][j] + t[j][i] - (if i == j then t[i][i] else 0.0)))
  }

  /** The `Delta_sample` one draw becomes: its upper triangle, mirrored. */
  function Symmetrized(draw: Matrix): (d: Matrix)
    requires IsSquare(draw, |draw|)
    ensures IsSquare(d, |draw|)
  {
    Mirrored(Upper(draw))
  }

  /** The variance the samplers record for one draw: `w^T (nominal + Delta_sample) w`. */
  function SampleVariance(nominal: Matrix, w: seq<real>, draw: Matrix): real
    requires IsSquare(nominal, |w|) && IsSquare(draw, |w|)
  {
    QuadForm(MatAdd(nominal, Symmetrized(draw)), w)
  }

  // ---------------------------------------------------------------------
  // Properties of matrices

  predicate Symmetric(m: Matrix)
    requires IsSquare(m, |m|)
  {
    forall i, j :: 0 <= i < |m| && 0 <= j < |m| ==> m[i][j] == m[j][i]
  }

  predicate ZeroDiagonal(m: Matrix)
    requires IsSquare(m, |m|)
  {
    forall i :: 0 <= i < |m| ==> m[i][i] == 0.0
  }

  /** Every entry lies in `[-bound, bound]`. */
  predicate Bounded(m: Matrix, bound: real) {
    forall i, j :: 0 <= i < |m| && 0 <= j < |m[i]| ==> -bound <= m[i][j] <= bound
  }

  /**
   * A symmetric matrix with `w^T m w >= 0` for every `w`: what the solver's
   * `PSD=True` variable ranges over.
   */
  ghost predicate PositiveSemidefinite(m: Matrix)
    requires IsSquare(m, |m|)
  {
    && Symmetric(m)
    && forall x: seq<real> {:trigger QuadForm(m, x)} :: |x| == |m| ==> QuadForm(m, x) >= 0.0
  }

  // ---------------------------------------------------------------------
  // Lemmas about the perturbation

  /**
   * Entry (i, j) of `Delta_sample` is the draw's entry on and above the
   * diagonal and the mirrored upper entry below it; in particular the
   * diagonal keeps the drawn value.
   */
  lemma SymmetrizedEntries(draw: Matrix, i: nat, j: nat)
    requires IsSquare(draw, |draw|)
    requires i < |draw| && j < |draw|
    ensures Symmetrized(draw)[i][j] == if i <= j then draw[i][j] else draw[j][i]
    ensures Symmetrized(draw)[i][i] == draw[i][i]
  {
    var t := Upper(draw);
    assert t[i][j] == if i <= j then draw[i][j] else 0.0;
    assert t[j][i] == if j <= i then draw[j][i] else 0.0;
  }

  /** `Delta_sample` is symmetric whatever was drawn. */
  lemma SymmetrizedIsSymmetric(draw: Matrix)
    requires IsSquare(draw, |draw|)
    ensures Symmetric(Symmetrized(draw))
  {
    forall i, j | 0 <= i < |draw| && 0 <= j < |draw|
      ensures Symmetrized(draw)[i][j] == Symmetrized(draw)[j][i]
    {
      SymmetrizedEntries(draw, i, j);
      SymmetrizedEntries(draw, j, i);
    }
  }

  /** A draw inside `[-bound, bound]` gives a `Delta_sample` inside it too. */
  lemma SymmetrizedBounded(draw: Matrix, bound: real)
    requires IsSquare(draw, |draw|)
    requires Bounded(draw, bound)
    ensures Bounded(Symmetrized(draw), bound)
  {
    forall i, j | 0 <= i < |draw| && 0 <= j < |draw|
      ensures -bound <= Symmetrized(draw)[i][j] <= bound
    {
      SymmetrizedEntries(draw, i, j);
    }
  }

  /** Symmetrising a draw that is already symmetric gives the draw back. */
  lemma SymmetrizedOfSymmetric(draw: Matrix)
    requires IsSquare(draw, |draw|)
    requires Symmetric(draw)
    ensures Symmetrized(draw) == draw
  {
    forall i, j | 0 <= i < |draw| && 0 <= j < |draw|
      ensures Symmetrized(draw)[i][j] == draw[i][j]
    {
      SymmetrizedEntries(draw, i, j);
    }
    MatrixExtensionality(Symmetrized(draw), draw, |draw|, |draw|);
  }

  /**
   * The diagonal of `Delta_sample` is zero exactly when the drawn diagonal
   * is: the samplers never clear it.
   */
  lemma SymmetrizedZeroDiagonalIff(draw: Matrix)
    requires IsSquare(draw, |draw|)
    ensures ZeroDiagonal(Symmetrized(draw)) <==> ZeroDiagonal(draw)
  {
    forall i | 0 <= i < |draw|
      ensures Symmetrized(draw)[i][i] == draw[i][i]
    {
      SymmetrizedEntries(draw, i, i);
    }
  }

  // ---------------------------------------------------------------------
  // Lemmas about the quadratic form

  /** The inner product distributes over a vector sum. */
  lemma {:induction false} DotAdd(u: seq<real>, v: seq<real>, w: seq<real>)
    requires |u| == |v| == |w|
    ensures Dot(VecAdd(u, v), w) == Dot(u, w) + Dot(v, w)
    decreases |u|
  {
    if |u| > 0 {
      var n := |u| - 1;
      assert VecAdd(u, v)[..n] == VecAdd(u[..n], v[..n]);
      DotAdd(u[..n], v[..n], w[..n]);
    }
  }

  /** A vector against itself gives a sum of squares. */
  lemma {:induction false} DotSelfNonNegative(u: seq<real>)
    ensures Dot(u, u) >= 0.0
    decreases |u|
  {
    if |u| > 0 {
      DotSelfNonNegative(u[..|u| - 1]);
    }
  }

  /** An inner product with the zero vector is zero. */
  lemma {:induction false} DotZero(u: seq<real>, w: seq<real>)
    requires |u| == |w|
    requires forall k :: 0 <= k < |u| ==> u[k] == 0.0
    ensures Dot(u, w) == 0.0
    decreases |u|
  {
    if |u| > 0 {
      DotZero(u[..|u| - 1], w[..|w| - 1]);
    }
  }

  lemma {:induction false} DotSymmetric(u: seq<real>, v: seq<real>)
    requires |u| == |v|
    ensures Dot(u, v) == Dot(v, u)
    decreases |u|
  {
    if |u| > 0 {
      DotSymmetric(u[..|u| - 1], v[..|v| - 1]);
    }
  }

  /** When row `i` of `m` against `w` is `t[i]`, the first `k` rows of the quadratic form add up to `w[..k] . t[..k]`. */
  lemma {:induction false} QuadRowsAsDot(m: Matrix, w: seq<real>, t: seq<real>, k: nat)
    requires IsSquare(m, |w|) && |t| == |w| && k <= |w|
    requires forall i :: 0 <= i < |w| ==> Dot(m[i], w) == t[i]
    ensures QuadRows(m, w, k) == Dot(w[..k], t[..k])
  {
    if k > 0 {
      QuadRowsAsDot(m, w, t, k - 1);
      assert w[..k][..k - 1] == w[..k - 1] && t[..k][..k - 1] == t[..k - 1];
    }
  }

  /** The variance is additive in the covariance matrix. */
  lemma QuadFormAdd(a: Matrix, b: Matrix, w: seq<real>)
    requires IsSquare(a, |w|) && IsSquare(b, |w|)
    ensures IsSquare(MatAdd(a, b), |w|)
    ensures QuadForm(MatAdd(a, b), w) == QuadForm(a, w) + QuadForm(b, w)
  {
    var s, n := MatAdd(a, b), |w|;
    var ts := seq(n, i requires 0 <= i < n => Dot(s[i], w));
    var ta := seq(n, i requires 0 <= i < n => Dot(a[i], w));
    var tb := seq(n, i requires 0 <= i < n => Dot(b[i], w));
    forall i | 0 <= i < n
      ensures ts[i] == VecAdd(ta, tb)[i]
    {
      DotAdd(a[i], b[i], w);
    }
    assert ts == VecAdd(ta, tb);
    QuadRowsAsDot(s, w, ts, n);
    QuadRowsAsDot(a, w, ta, n);
    QuadRowsAsDot(b, w, tb, n);
    assert w[..n] == w && ts[..n] == ts && ta[..n] == ta && tb[..n] == tb;
    DotSymmetric(w, ts);
    DotSymmetric(w, ta);
    DotSymmetric(w, tb);
    DotAdd(ta, tb, w);
  }

  lemma {:induction false} QuadRowsZero(w: seq<real>, k: nat)
    requires k <= |w|
    ensures QuadRows(Zero(|w|, |w|), w, k) == 0.0
  {
    if k > 0 {
      QuadRowsZero(w, k - 1);
      DotZero(Zero(|w|, |w|)[k - 1], w);
    }
  }

  /** The zero matrix gives zero variance. */
  lemma QuadFormZero(w: seq<real>)
    ensures QuadForm(Zero(|w|, |w|), w) == 0.0
  {
    QuadRowsZero(w, |w|);
  }

  /** An all-zero draw leaves the nominal variance unchanged. */
  lemma SampleVarianceOfZeroDraw(nominal: Matrix, w: seq<real>)
    requires IsSquare(nominal, |w|)
    ensures SampleVariance(nominal, w, Zero(|w|, |w|)) == QuadForm(nominal, w)
  {
    var z := Zero(|w|, |w|);
    forall i, j | 0 <= i < |w| && 0 <= j < |w|
      ensures Symmetrized(z)[i][j] == 0.0
    {
      SymmetrizedEntries(z, i, j);
    }
    MatrixExtensionality(Symmetrized(z), z, |w|, |w|);
    QuadFormAdd(nominal, z, w);
    QuadFormZero(w);
  }

  /** A draw bounded by 0 is the zero matrix. */
  lemma BoundedByZeroIsZero(m: Matrix, n: nat)
    requires IsSquare(m, n)
    requires Bounded(m, 0.0)
    ensures m == Zero(n, n)
  {
    MatrixExtensionality(m, Zero(n, n), n, n);
  }
}
