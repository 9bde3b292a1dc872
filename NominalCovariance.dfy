/**
 * How the pages build the nominal covariance: `Sigma_nom = Sigma.T.dot(Sigma)`
 * from a drawn matrix `Sigma`. Such a matrix is positive semidefinite,
 * because `w^T (S^T S) w` is the squared length of `S w`.
 */
module NominalCovariance {
  import opened Matrices

  /** Column `j` of `s`. */
  function Column(s: Matrix, j: nat): (col: seq<real>)
    requires forall k :: 0 <= k < |s| ==> j < |s[k]|
    ensures |col| == |s|
  {
    seq(|s|, k requires 0 <= k < |s| => s[k][j])
  }

  /** The product `s x`. */
  function MatVec(s: Matrix, x: seq<real>): (y: seq<real>)
    requires forall k :: 0 <= k < |s| ==> |s[k]| == |x|
    ensures |y| == |s|
  {
    seq(|s|, k requires 0 <= k < |s| => Dot(s[k], x))
  }

  /** The product `s^T v` for an `|v|` by `n` matrix `s`. */
  function TransposeVec(s: Matrix, n: nat, v: seq<real>): (y: seq<real>)
    requires IsMatrix(s, |v|, n)
    ensures |y| == n
  {
    seq(n, j requires 0 <= j < n => Dot(Column(s, j), v))
  }

  /** `s.T.dot(s)` for an `m` by `n` matrix `s`: entry (i, j) is column i against column j. */
  function Gram(s: Matrix, n: nat): (g: Matrix)
    requires IsMatrix(s, |s|, n)
    ensures IsSquare(g, n)
  {
    seq(n, i requires 0 <= i < n => seq(n, j requires 0 <= j < n => Dot(Column(s, i), Column(s, j))))
  }

  /** `c u`, entry by entry. */
  function Scale(c: real, u: seq<real>): (r: seq<real>)
    ensures |r| == |u|
  {
    seq(|u|, k requires 0 <= k < |u| => c * u[k])
  }

  lemma {:induction false} DotScale(c: real, u: seq<real>, x: seq<real>)
    requires |u| == |x|
    ensures Dot(Scale(c, u), x) == c * Dot(u, x)
    decreases |u|
  {
    if |u| > 0 {
      var n := |u| - 1;
      assert forall k :: 0 <= k < n ==> Scale(c, u)[..n][k] == Scale(c, u[..n])[k];
      assert Scale(c, u)[..n] == Scale(c, u[..n]);
      DotScale(c, u[..n], x[..n]);
    }
  }

  /** `s^T v` splits off the last row of `s`: `s'^T v' + v[m-1] s[m-1]`. */
  lemma TransposeVecLast(s: Matrix, n: nat, v: seq<real>)
    requires IsMatrix(s, |v|, n) && |v| > 0
    ensures IsMatrix(s[..|v| - 1], |v| - 1, n)
    ensures TransposeVec(s, n, v)
      == VecAdd(TransposeVec(s[..|v| - 1], n, v[..|v| - 1]), Scale(v[|v| - 1], s[|v| - 1]))
  {
    var m := |v|;
    var s', v' := s[..m - 1], v[..m - 1];
    forall j | 0 <= j < n
      ensures TransposeVec(s, n, v)[j] == VecAdd(TransposeVec(s', n, v'), Scale(v[m - 1], s[m - 1]))[j]
    {
      assert Column(s, j)[..m - 1] == Column(s', j);
    }
  }

  /** `x . (s^T v) == (s x) . v`. */
  lemma {:induction false} TransposeDot(s: Matrix, n: nat, x: seq<real>, v: seq<real>)
    requires IsMatrix(s, |v|, n) && |x| == n
    ensures Dot(x, TransposeVec(s, n, v)) == Dot(MatVec(s, x), v)
    decreases |v|
  {
    var m := |v|;
    if m == 0 {
      DotZero(TransposeVec(s, n, v), x);
      DotSymmetric(x, TransposeVec(s, n, v));
    } else {
      var s', v' := s[..m - 1], v[..m - 1];
      var last := s[m - 1];
      TransposeDot(s', n, x, v');
      TransposeVecLast(s, n, v);
      calc {
        Dot(x, TransposeVec(s, n, v));
      ==  { DotSymmetric(x, TransposeVec(s, n, v)); }
        Dot(VecAdd(TransposeVec(s', n, v'), Scale(v[m - 1], last)), x);
      ==  { DotAdd(TransposeVec(s', n, v'), Scale(v[m - 1], last), x); }
        Dot(TransposeVec(s', n, v'), x) + Dot(Scale(v[m - 1], last), x);
      ==  { DotSymmetric(x, TransposeVec(s', n, v')); DotScale(v[m - 1], last, x); }
        Dot(MatVec(s', x), v') + v[m - 1] * Dot(last, x);
      ==  { assert MatVec(s, x)[..m - 1] == MatVec(s', x); }
        Dot(MatVec(s, x), v);
      }
    }
  }

  /** Row `i` of `s^T s` is `s^T` applied to column `i` of `s`. */
  lemma GramRow(s: Matrix, n: nat, i: nat)
    requires IsMatrix(s, |s|, n) && i < n
    ensures Gram(s, n)[i] == TransposeVec(s, n, Column(s, i))
  {
    var row, t := Gram(s, n)[i], TransposeVec(s, n, Column(s, i));
    forall j | 0 <= j < n
      ensures row[j] == t[j]
    {
      DotSymmetric(Column(s, i), Column(s, j));
    }
  }

  /** Row `i` of `s^T s` against `w` is entry `i` of `s^T (s w)`. */
  lemma GramRowDot(s: Matrix, n: nat, w: seq<real>, i: nat)
    requires IsMatrix(s, |s|, n) && |w| == n && i < n
    ensures Dot(Gram(s, n)[i], w) == TransposeVec(s, n, MatVec(s, w))[i]
  {
    var col := Column(s, i);
    GramRow(s, n, i);
    calc {
      Dot(Gram(s, n)[i], w);
    ==  { DotSymmetric(Gram(s, n)[i], w); }
      Dot(w, TransposeVec(s, n, col));
    ==  { TransposeDot(s, n, w, col); }
      Dot(MatVec(s, w), col);
    ==  { DotSymmetric(MatVec(s, w), col); }
      TransposeVec(s, n, MatVec(s, w))[i];
    }
  }

  /** `Sigma.T.dot(Sigma)` is symmetric: entry (i, j) and entry (j, i) pair the same two columns. */
  lemma GramIsSymmetric(s: Matrix, n: nat)
    requires IsMatrix(s, |s|, n)
    ensures Symmetric(Gram(s, n))
  {
    forall i, j | 0 <= i < n && 0 <= j < n
      ensures Gram(s, n)[i][j] == Gram(s, n)[j][i]
    {
      DotSymmetric(Column(s, i), Column(s, j));
    }
  }

  /** `Sigma.T.dot(Sigma)` is positive semidefinite: symmetric, and `w^T Sigma_nom w = |Sigma w|^2`. */
  lemma GramIsPositiveSemidefinite(s: Matrix, n: nat)
    requires IsMatrix(s, |s|, n)
    ensures PositiveSemidefinite(Gram(s, n))
  {
    GramIsSymmetric(s, n);
    forall w: seq<real> | |w| == n
      ensures QuadForm(Gram(s, n), w) >= 0.0
    {
      var y := MatVec(s, w);
      var t := TransposeVec(s, n, y);
      forall i | 0 <= i < n
        ensures Dot(Gram(s, n)[i], w) == t[i]
      {
        GramRowDot(s, n, w, i);
      }
      QuadRowsAsDot(Gram(s, n), w, t, n);
      assert w[..n] == w;
      assert TransposeVec(s, n, y)[..n] == TransposeVec(s, n, y);
      TransposeDot(s, n, w, y);
      DotSelfNonNegative(y);
    }
  }
}
