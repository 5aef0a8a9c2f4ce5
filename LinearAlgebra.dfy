/** Exact matrix-vector algebra over `real`, used for the moment change of basis. */
module LinearAlgebra {

  type Vector = seq<real>
  type Matrix = seq<Vector>

  /** Every row of `a` has `n` columns. */
  predicate HasColumns(a: Matrix, n: nat) {
    forall i :: 0 <= i < |a| ==> |a[i]| == n
  }

  /** Sum of the first `n` products `u[k] * v[k]`. */
  function PartialDot(u: Vector, v: Vector, n: nat): real
    requires n <= |u| && n <= |v|
  {
    if n == 0 then 0.0 else PartialDot(u, v, n - 1) + u[n - 1] * v[n - 1]
  }

  /** Scalar product of two vectors of the same length. */
  function Dot(u: Vector, v: Vector): real
    requires |u| == |v|
  {
    PartialDot(u, v, |u|)
  }

  /** Matrix-vector product, one scalar product per row. */
  function MatVec(a: Matrix, v: Vector): (r: Vector)
    requires HasColumns(a, |v|)
    ensures |r| == |a|
  {
    seq(|a|, i requires 0 <= i < |a| => Dot(a[i], v))
  }

  /** Column `j` of a matrix whose rows have more than `j` entries. */
  function Column(b: Matrix, j: nat): (c: Vector)
    requires forall k :: 0 <= k < |b| ==> j < |b[k]|
    ensures |c| == |b|
  {
    seq(|b|, k requires 0 <= k < |b| => b[k][j])
  }

  /** Matrix product of an `|a|` by `|b|` matrix with a `|b|` by `n` matrix. */
  function MatMul(a: Matrix, b: Matrix, n: nat): (r: Matrix)
    requires HasColumns(a, |b|) && HasColumns(b, n)
    ensures |r| == |a| && HasColumns(r, n)
  {
    seq(|a|, i requires 0 <= i < |a| =>
      seq(n, j requires 0 <= j < n => Dot(a[i], Column(b, j))))
  }

  /** The `n` by `n` identity matrix. */
  function Identity(n: nat): (r: Matrix)
    ensures |r| == n && HasColumns(r, n)
  {
    seq(n, i requires 0 <= i < n => seq(n, j requires 0 <= j < n => if i == j then 1.0 else 0.0))
  }

  /** A scalar product of nine terms, written out (used to evaluate the fixed 9 by 9 bases). */
  lemma Dot9(u: Vector, v: Vector)
    requires |u| == |v| == 9
    ensures Dot(u, v) == u[0] * v[0] + u[1] * v[1] + u[2] * v[2] + u[3] * v[3] + u[4] * v[4]
                       + u[5] * v[5] + u[6] * v[6] + u[7] * v[7] + u[8] * v[8]
  {
    assert PartialDot(u, v, 1) == u[0] * v[0];
    assert PartialDot(u, v, 2) == u[0] * v[0] + u[1] * v[1];
    assert PartialDot(u, v, 3) == u[0] * v[0] + u[1] * v[1] + u[2] * v[2];
    assert PartialDot(u, v, 4) == u[0] * v[0] + u[1] * v[1] + u[2] * v[2] + u[3] * v[3];
    assert PartialDot(u, v, 5) == u[0] * v[0] + u[1] * v[1] + u[2] * v[2] + u[3] * v[3] + u[4] * v[4];
    assert PartialDot(u, v, 6) == u[0] * v[0] + u[1] * v[1] + u[2] * v[2] + u[3] * v[3] + u[4] * v[4]
                                + u[5] * v[5];
    assert PartialDot(u, v, 7) == u[0] * v[0] + u[1] * v[1] + u[2] * v[2] + u[3] * v[3] + u[4] * v[4]
                                + u[5] * v[5] + u[6] * v[6];
    assert PartialDot(u, v, 8) == u[0] * v[0] + u[1] * v[1] + u[2] * v[2] + u[3] * v[3] + u[4] * v[4]
                                + u[5] * v[5] + u[6] * v[6] + u[7] * v[7];
  }

  /** A scalar product of three terms, written out. */
  lemma Dot3(u: Vector, v: Vector)
    requires |u| == |v| == 3
    ensures Dot(u, v) == u[0] * v[0] + u[1] * v[1] + u[2] * v[2]
  {
    assert PartialDot(u, v, 1) == u[0] * v[0];
    assert PartialDot(u, v, 2) == u[0] * v[0] + u[1] * v[1];
  }

  /** A partial scalar product whose left coefficients vanish is zero. */
  lemma {:induction false} PartialDotZero(x: Vector, f: Vector, n: nat)
    requires n <= |x| && n <= |f|
    requires forall j :: 0 <= j < n ==> x[j] == 0.0
    ensures PartialDot(x, f, n) == 0.0
  {
    if n > 0 {
      PartialDotZero(x, f, n - 1);
    }
  }

  /** The partial scalar product is linear in its left argument: `z == x + c * y` gives the sum. */
  lemma {:induction false} PartialDotLinear(x: Vector, y: Vector, z: Vector, c: real, f: Vector, n: nat)
    requires n <= |x| && n <= |y| && n <= |z| && n <= |f|
    requires forall j :: 0 <= j < n ==> z[j] == x[j] + c * y[j]
    ensures PartialDot(z, f, n) == PartialDot(x, f, n) + c * PartialDot(y, f, n)
  {
    if n > 0 {
      PartialDotLinear(x, y, z, c, f, n - 1);
      calc {
        z[n - 1] * f[n - 1];
        (x[n - 1] + c * y[n - 1]) * f[n - 1];
        x[n - 1] * f[n - 1] + c * (y[n - 1] * f[n - 1]);
      }
    }
  }

  /** Coefficients of `f` after the first `m` rows of `b`, weighted by `a`, have been combined. */
  function Combined(a: Vector, b: Matrix, m: nat, n: nat): (r: Vector)
    requires m <= |a| && m <= |b| && HasColumns(b, n)
    ensures |r| == n
  {
    seq(n, j requires 0 <= j < n => PartialDot(a, Column(b, j), m))
  }

  /** Exchange of the two sums in `sum_k a[k] * (sum_j b[k][j] * f[j])`. */
  lemma {:induction false} RowTimesMatVec(a: Vector, b: Matrix, f: Vector, m: nat)
    requires |a| == |b| && HasColumns(b, |f|) && m <= |a|
    ensures PartialDot(a, MatVec(b, f), m) == Dot(Combined(a, b, m, |f|), f)
  {
    var n := |f|;
    if m == 0 {
      PartialDotZero(Combined(a, b, 0, n), f, n);
    } else {
      RowTimesMatVec(a, b, f, m - 1);
      var prev := Combined(a, b, m - 1, n);
      var next := Combined(a, b, m, n);
      forall j | 0 <= j < n
        ensures next[j] == prev[j] + a[m - 1] * b[m - 1][j]
      {
        assert Column(b, j)[m - 1] == b[m - 1][j];
      }
      PartialDotLinear(prev, b[m - 1], next, a[m - 1], f, n);
      assert MatVec(b, f)[m - 1] == Dot(b[m - 1], f);
    }
  }

  /** Applying `b` and then `a` to a vector is applying their product. */
  lemma MatVecAssociative(a: Matrix, b: Matrix, f: Vector)
    requires HasColumns(a, |b|) && HasColumns(b, |f|)
    ensures MatVec(a, MatVec(b, f)) == MatVec(MatMul(a, b, |f|), f)
  {
    var lhs := MatVec(a, MatVec(b, f));
    var rhs := MatVec(MatMul(a, b, |f|), f);
    forall i | 0 <= i < |a|
      ensures lhs[i] == rhs[i]
    {
      RowTimesMatVec(a[i], b, f, |b|);
      assert MatMul(a, b, |f|)[i] == Combined(a[i], b, |b|, |f|);
    }
  }

  /** The `i`-th row of the identity picks the `i`-th entry. */
  lemma {:induction false} PartialDotUnit(n: nat, i: nat, v: Vector, m: nat)
    requires i < n && m <= n && n == |v|
    ensures PartialDot(Identity(n)[i], v, m) == if i < m then v[i] else 0.0
  {
    if m > 0 {
      PartialDotUnit(n, i, v, m - 1);
    }
  }

  /** The identity matrix leaves every vector unchanged. */
  lemma MatVecIdentity(v: Vector)
    ensures MatVec(Identity(|v|), v) == v
  {
    forall i | 0 <= i < |v|
      ensures MatVec(Identity(|v|), v)[i] == v[i]
    {
      PartialDotUnit(|v|, i, v, |v|);
    }
  }

  /** If `a * b` is the identity then applying `b` and then `a` gives the vector back. */
  lemma LeftInverseRoundTrip(a: Matrix, b: Matrix, f: Vector)
    requires HasColumns(a, |b|) && HasColumns(b, |f|)
    requires MatMul(a, b, |f|) == Identity(|f|)
    ensures MatVec(a, MatVec(b, f)) == f
  {
    MatVecAssociative(a, b, f);
    MatVecIdentity(f);
  }
}
