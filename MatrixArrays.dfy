/**
 * The numpy steps of one sampling iteration, over two-dimensional arrays.
 * Each numpy call (`np.triu`, the mirroring expression, `+`, the `@`
 * products) builds a new array from its arguments and leaves them alone;
 * each method here allocates its result, fills it loop by loop, and is
 * proved against the value-level definition in `Matrices`.
 */
module MatrixArrays {
  import opened Matrices

  /** The value an array holds, row by row. */
  function Snapshot(a: array2<real>): (m: Matrix)
    reads a
    ensures IsMatrix(m, a.Length0, a.Length1)
    ensures forall i, j :: 0 <= i < a.Length0 && 0 <= j < a.Length1 ==> m[i][j] == a[i, j]
  {
    seq(a.Length0, i requires 0 <= i < a.Length0 reads a =>
      seq(a.Length1, j requires 0 <= j < a.Length1 reads a => a[i, j]))
  }

  /** The values a list of arrays holds. */
  function Snapshots(ds: seq<array2<real>>): (ms: seq<Matrix>)
    reads set k | 0 <= k < |ds| :: ds[k]
    ensures |ms| == |ds|
    ensures forall k :: 0 <= k < |ds| ==> ms[k] == Snapshot(ds[k])
  {
    seq(|ds|, k requires 0 <= k < |ds| reads set p | 0 <= p < |ds| :: ds[p] => Snapshot(ds[k]))
  }

  /** `np.triu(a)`: a new array holding the upper triangle of `a`, diagonal included. */
  method Triu(a: array2<real>) returns (t: array2<real>)
    ensures t.Length0 == a.Length0 && t.Length1 == a.Length1
    ensures Snapshot(t) == Upper(Snapshot(a))
  {
    t := new real[a.Length0, a.Length1];
    for i := 0 to a.Length0
      invariant forall p, q :: 0 <= p < i && 0 <= q < a.Length1 ==>
        t[p, q] == if p <= q then a[p, q] else 0.0
    {
      for j := 0 to a.Length1
        invariant forall p, q :: 0 <= p < i && 0 <= q < a.Length1 ==>
          t[p, q] == if p <= q then a[p, q] else 0.0
        invariant forall q :: 0 <= q < j ==> t[i, q] == if i <= q then a[i, q] else 0.0
      {
        t[i, j] := if i <= j then a[i, j] else 0.0;
      }
    }
    MatrixExtensionality(Snapshot(t), Upper(Snapshot(a)), a.Length0, a.Length1);
  }

  /** `t + t.T - np.diag(np.diag(t))` for a square `t`, as a new array. */
  method Mirror(t: array2<real>) returns (d: array2<real>)
    requires t.Length0 == t.Length1
    ensures d.Length0 == t.Length0 && d.Length1 == t.Length0
    ensures Snapshot(d) == Mirrored(Snapshot(t))
  {
    var n := t.Length0;
    d := new real[n, n];
    for i := 0 to n
      invariant forall p, q :: 0 <= p < i && 0 <= q < n ==>
        d[p, q] == t[p, q] + t[q, p] - (if p == q then t[p, p] else 0.0)
    {
      for j := 0 to n
        invariant forall p, q :: 0 <= p < i && 0 <= q < n ==>
          d[p, q] == t[p, q] + t[q, p] - (if p == q then t[p, p] else 0.0)
        invariant forall q :: 0 <= q < j ==>
          d[i, q] == t[i, q] + t[q, i] - (if i == q then t[i, i] else 0.0)
      {
        d[i, j] := t[i, j] + t[j, i] - (if i == j then t[i, i] else 0.0);
      }
    }
    MatrixExtensionality(Snapshot(d), Mirrored(Snapshot(t)), n, n);
  }

  /** `a + b` for two arrays of one shape, as a new array. */
  method Add(a: array2<real>, b: array2<real>) returns (s: array2<real>)
    requires a.Length0 == b.Length0 && a.Length1 == b.Length1
    ensures s.Length0 == a.Length0 && s.Length1 == a.Length1
    ensures Snapshot(s) == MatAdd(Snapshot(a), Snapshot(b))
  {
    s := new real[a.Length0, a.Length1];
    for i := 0 to a.Length0
      invariant forall p, q :: 0 <= p < i && 0 <= q < a.Length1 ==> s[p, q] == a[p, q] + b[p, q]
    {
      for j := 0 to a.Length1
        invariant forall p, q :: 0 <= p < i && 0 <= q < a.Length1 ==> s[p, q] == a[p, q] + b[p, q]
        invariant forall q :: 0 <= q < j ==> s[i, q] == a[i, q] + b[i, q]
      {
        s[i, j] := a[i, j] + b[i, j];
      }
    }
    MatrixExtensionality(Snapshot(s), MatAdd(Snapshot(a), Snapshot(b)), a.Length0, a.Length1);
  }

  /** `w^T s w`: each row of `s` against `w`, weighted by `w`, summed. */
  method QuadraticForm(s: array2<real>, w: array<real>) returns (v: real)
    requires s.Length0 == w.Length && s.Length1 == w.Length
    ensures v == QuadForm(Snapshot(s), w[..])
  {
    var n := w.Length;
    ghost var m, x := Snapshot(s), w[..];
    v := 0.0;
    for i := 0 to n
      invariant v == QuadRows(m, x, i)
    {
      var row := 0.0;
      for j := 0 to n
        invariant row == Dot(m[i][..j], x[..j])
      {
        assert m[i][..j + 1][..j] == m[i][..j] && x[..j + 1][..j] == x[..j];
        row := row + s[i, j] * w[j];
      }
      assert m[i][..n] == m[i] && x[..n] == x;
      v := v + w[i] * row;
    }
  }
}
