/** Moments of the distribution function: monomial moment tensors, named moment bases and their equilibria. */
module Moments {
  import opened Results
  import opened LinearAlgebra
  import opened Stencils

  // ---------------------------------------------------------------------------
  // moment_tensor
  // ---------------------------------------------------------------------------

  /** Integer power with a non-negative exponent (`0` to the `0` is `1`, as in numpy). */
  function Pow(b: int, k: nat): int {
    if k == 0 then 1 else b * Pow(b, k - 1)
  }

  /** Product over the axes of `c[a]` raised to `alpha[a]`. */
  function Monomial(c: seq<int>, alpha: seq<nat>): int
    requires |c| == |alpha|
  {
    if |c| == 0 then 1 else Monomial(c[..|c| - 1], alpha[..|alpha| - 1]) * Pow(c[|c| - 1], alpha[|alpha| - 1])
  }

  /** The moment tensor of one multi-index: one monomial per velocity. */
  function MomentTensor(e: seq<seq<int>>, alpha: seq<nat>): (r: Vector)
    requires forall q :: 0 <= q < |e| ==> |e[q]| == |alpha|
    ensures |r| == |e|
  {
    seq(|e|, q requires 0 <= q < |e| => Monomial(e[q], alpha) as real)
  }

  /** The moment tensors of a list of multi-indices, one row per multi-index. */
  function MomentTensors(e: seq<seq<int>>, alphas: seq<seq<nat>>, d: nat): (r: Matrix)
    requires forall q :: 0 <= q < |e| ==> |e[q]| == d
    requires forall i :: 0 <= i < |alphas| ==> |alphas[i]| == d
    ensures |r| == |alphas| && HasColumns(r, |e|)
  {
    seq(|alphas|, i requires 0 <= i < |alphas| => MomentTensor(e, alphas[i]))
  }

  lemma {:induction false} MonomialOfZero(c: seq<int>, alpha: seq<nat>)
    requires |c| == |alpha|
    requires forall a :: 0 <= a < |alpha| ==> alpha[a] == 0
    ensures Monomial(c, alpha) == 1
  {
    if |c| > 0 {
      MonomialOfZero(c[..|c| - 1], alpha[..|alpha| - 1]);
    }
  }

  /** The all-zero multi-index gives the density moment: a vector of ones, one per velocity. */
  lemma MomentTensorOfZero(e: seq<seq<int>>, alpha: seq<nat>)
    requires forall q :: 0 <= q < |e| ==> |e[q]| == |alpha|
    requires forall a :: 0 <= a < |alpha| ==> alpha[a] == 0
    ensures MomentTensor(e, alpha) == seq(|e|, q => 1.0)
  {
    forall q | 0 <= q < |e|
      ensures MomentTensor(e, alpha)[q] == 1.0
    {
      MonomialOfZero(e[q], alpha);
    }
  }

  /** The two-dimensional form: each all-zero row of multi-indices gives a row of ones. */
  lemma MomentTensorsOfZero(e: seq<seq<int>>, alphas: seq<seq<nat>>, d: nat)
    requires forall q :: 0 <= q < |e| ==> |e[q]| == d
    requires forall i :: 0 <= i < |alphas| ==> |alphas[i]| == d
    requires forall i, a :: 0 <= i < |alphas| && 0 <= a < d ==> alphas[i][a] == 0
    ensures forall i :: 0 <= i < |alphas| ==> MomentTensors(e, alphas, d)[i] == seq(|e|, q => 1.0)
  {
    forall i | 0 <= i < |alphas|
      ensures MomentTensors(e, alphas, d)[i] == seq(|e|, q => 1.0)
    {
      MomentTensorOfZero(e, alphas[i]);
    }
  }

  // ---------------------------------------------------------------------------
  // Bases
  // ---------------------------------------------------------------------------

  const D1Q3Matrix: Matrix := [
    [1.0, 1.0, 1.0],
    [0.0, 1.0, -1.0],
    [0.0, 1.0, 1.0]
  ]

  const D1Q3Inverse: Matrix := [
    [1.0, 0.0, -1.0],
    [0.0, 1.0 / 2.0, 1.0 / 2.0],
    [0.0, -1.0 / 2.0, 1.0 / 2.0]
  ]

  const DellarMatrix: Matrix := [
    [1.0, 1.0, 1.0, 1.0, 1.0, 1.0, 1.0, 1.0, 1.0],
    [0.0, 1.0, 0.0, -1.0, 0.0, 1.0, -1.0, -1.0, 1.0],
    [0.0, 0.0, 1.0, 0.0, -1.0, 1.0, 1.0, -1.0, -1.0],
    [-3.0 / 2.0, 3.0, -3.0 / 2.0, 3.0, -3.0 / 2.0, 3.0, 3.0, 3.0, 3.0],
    [0.0, 0.0, 0.0, 0.0, 0.0, 9.0, -9.0, 9.0, -9.0],
    [-3.0 / 2.0, -3.0 / 2.0, 3.0, -3.0 / 2.0, 3.0, 3.0, 3.0, 3.0, 3.0],
    [1.0, -2.0, -2.0, -2.0, -2.0, 4.0, 4.0, 4.0, 4.0],
    [0.0, -2.0, 0.0, 2.0, 0.0, 4.0, -4.0, -4.0, 4.0],
    [0.0, 0.0, -2.0, 0.0, 2.0, 4.0, 4.0, -4.0, -4.0]
  ]

  const DellarInverse: Matrix := [
    [4.0 / 9.0, 0.0, 0.0, -4.0 / 27.0, 0.0, -4.0 / 27.0, 1.0 / 9.0, 0.0, 0.0],
    [1.0 / 9.0, 1.0 / 3.0, 0.0, 2.0 / 27.0, 0.0, -1.0 / 27.0, -1.0 / 18.0, -1.0 / 12.0, 0.0],
    [1.0 / 9.0, 0.0, 1.0 / 3.0, -1.0 / 27.0, 0.0, 2.0 / 27.0, -1.0 / 18.0, 0.0, -1.0 / 12.0],
    [1.0 / 9.0, -1.0 / 3.0, 0.0, 2.0 / 27.0, 0.0, -1.0 / 27.0, -1.0 / 18.0, 1.0 / 12.0, 0.0],
    [1.0 / 9.0, 0.0, -1.0 / 3.0, -1.0 / 27.0, 0.0, 2.0 / 27.0, -1.0 / 18.0, 0.0, 1.0 / 12.0],
    [1.0 / 36.0, 1.0 / 12.0, 1.0 / 12.0, 1.0 / 54.0, 1.0 / 36.0, 1.0 / 54.0, 1.0 / 36.0, 1.0 / 24.0, 1.0 / 24.0],
    [1.0 / 36.0, -1.0 / 12.0, 1.0 / 12.0, 1.0 / 54.0, -1.0 / 36.0, 1.0 / 54.0, 1.0 / 36.0, -1.0 / 24.0, 1.0 / 24.0],
    [1.0 / 36.0, -1.0 / 12.0, -1.0 / 12.0, 1.0 / 54.0, 1.0 / 36.0, 1.0 / 54.0, 1.0 / 36.0, -1.0 / 24.0, -1.0 / 24.0],
    [1.0 / 36.0, 1.0 / 12.0, -1.0 / 12.0, 1.0 / 54.0, -1.0 / 36.0, 1.0 / 54.0, 1.0 / 36.0, 1.0 / 24.0, -1.0 / 24.0]
  ]

  const LallemandMatrix: Matrix := [
    [1.0, 1.0, 1.0, 1.0, 1.0, 1.0, 1.0, 1.0, 1.0],
    [0.0, 1.0, 0.0, -1.0, 0.0, 1.0, -1.0, -1.0, 1.0],
    [0.0, 0.0, 1.0, 0.0, -1.0, 1.0, 1.0, -1.0, -1.0],
    [0.0, 1.0, -1.0, 1.0, -1.0, 0.0, 0.0, 0.0, 0.0],
    [0.0, 0.0, 0.0, 0.0, 0.0, 1.0, -1.0, 1.0, -1.0],
    [-4.0, -1.0, -1.0, -1.0, -1.0, 2.0, 2.0, 2.0, 2.0],
    [0.0, -2.0, 0.0, 2.0, 0.0, 1.0, -1.0, -1.0, 1.0],
    [0.0, 0.0, -2.0, 0.0, 2.0, 1.0, 1.0, -1.0, -1.0],
    [4.0, -2.0, -2.0, -2.0, -2.0, 1.0, 1.0, 1.0, 1.0]
  ]

  const LallemandInverse: Matrix := [
    [1.0 / 9.0, 0.0, 0.0, 0.0, 0.0, -1.0 / 9.0, 0.0, 0.0, 1.0 / 9.0],
    [1.0 / 9.0, 1.0 / 6.0, 0.0, 1.0 / 4.0, 0.0, -1.0 / 36.0, -1.0 / 6.0, 0.0, -1.0 / 18.0],
    [1.0 / 9.0, 0.0, 1.0 / 6.0, -1.0 / 4.0, 0.0, -1.0 / 36.0, 0.0, -1.0 / 6.0, -1.0 / 18.0],
    [1.0 / 9.0, -1.0 / 6.0, 0.0, 1.0 / 4.0, 0.0, -1.0 / 36.0, 1.0 / 6.0, 0.0, -1.0 / 18.0],
    [1.0 / 9.0, 0.0, -1.0 / 6.0, -1.0 / 4.0, 0.0, -1.0 / 36.0, 0.0, 1.0 / 6.0, -1.0 / 18.0],
    [1.0 / 9.0, 1.0 / 6.0, 1.0 / 6.0, 0.0, 1.0 / 4.0, 1.0 / 18.0, 1.0 / 12.0, 1.0 / 12.0, 1.0 / 36.0],
    [1.0 / 9.0, -1.0 / 6.0, 1.0 / 6.0, 0.0, -1.0 / 4.0, 1.0 / 18.0, -1.0 / 12.0, 1.0 / 12.0, 1.0 / 36.0],
    [1.0 / 9.0, -1.0 / 6.0, -1.0 / 6.0, 0.0, 1.0 / 4.0, 1.0 / 18.0, -1.0 / 12.0, -1.0 / 12.0, 1.0 / 36.0],
    [1.0 / 9.0, 1.0 / 6.0, -1.0 / 6.0, 0.0, -1.0 / 4.0, 1.0 / 18.0, 1.0 / 12.0, -1.0 / 12.0, 1.0 / 36.0]
  ]

  // ---------------------------------------------------------------------------
  // Default names
  // ---------------------------------------------------------------------------

  /** Decimal digit character. */
  function Digit(k: nat): char
    requires k < 10
  {
    ('0' as int + k) as char
  }

  /** Decimal representation of a natural number, as Python's `str` writes it. */
  function NatToString(n: nat): (s: string)
    ensures |s| >= 1 && (n >= 10 ==> |s| >= 2)
  {
    if n < 10 then [Digit(n)] else NatToString(n / 10) + [Digit(n % 10)]
  }

  lemma {:induction false} NatToStringInjective(a: nat, b: nat)
    requires NatToString(a) == NatToString(b)
    ensures a == b
  {
    if a >= 10 && b >= 10 {
      var sa, sb := NatToString(a), NatToString(b);
      assert sa[..|sa| - 1] == NatToString(a / 10);
      assert sb[..|sb| - 1] == NatToString(b / 10);
      NatToStringInjective(a / 10, b / 10);
      assert Digit(a % 10) == sa[|sa| - 1] == sb[|sb| - 1] == Digit(b % 10);
    }
  }

  /** The names a transform gets when none are given: `m0`, `m1`, ..., one per velocity. */
  function DefaultNames(q: nat): (r: seq<string>)
    ensures |r| == q
  {
    seq(q, i requires 0 <= i < q => "m" + NatToString(i))
  }

  /** Default names are pairwise distinct. */
  lemma DefaultNamesDistinct(q: nat, i: nat, j: nat)
    requires i < q && j < q && DefaultNames(q)[i] == DefaultNames(q)[j]
    ensures i == j
  {
    var ni, nj := DefaultNames(q)[i], DefaultNames(q)[j];
    assert ni[1..] == NatToString(i) && nj[1..] == NatToString(j);
    NatToStringInjective(i, j);
  }

  // ---------------------------------------------------------------------------
  // Transforms
  // ---------------------------------------------------------------------------

  /** A moment transform: the identity base class for `q` velocities, or one of the fixed bases. */
  datatype MomentTransform =
    | Base(q: nat, names: seq<string>)
    | D1Q3Transform
    | D2Q9Dellar
    | D2Q9Lallemand

  /** The base class constructor: the given names, or the default names when there are none. */
  function NewTransform(q: nat, names: Option<seq<string>>): (t: MomentTransform)
    ensures t.Base? && t.q == q
    ensures names.None? ==> |t.names| == q && forall i :: 0 <= i < q ==> t.names[i] == "m" + NatToString(i)
    ensures names.Some? ==> t.names == names.value
  {
    Base(q, if names.None? then DefaultNames(q) else names.value)
  }

  /** Number of velocities the transform is written for. */
  function Size(t: MomentTransform): nat {
    match t
    case Base(q, _) => q
    case D1Q3Transform => 3
    case _ => 9
  }

  /** The moment names, in basis order. */
  function Names(t: MomentTransform): seq<string> {
    match t
    case Base(_, names) => names
    case D1Q3Transform => ["rho", "j", "e"]
    case D2Q9Dellar => ["rho", "jx", "jy", "Pi_xx", "Pi_xy", "PI_yy", "N", "Jx", "Jy"]
    case D2Q9Lallemand => ["rho", "jx", "jy", "pxx", "pxy", "e", "qx", "qy", "eps"]
  }

  /** Change-of-basis matrix from populations to moments. */
  function BasisMatrix(t: MomentTransform): (a: Matrix)
    requires !t.Base?
    ensures |a| == Size(t) && HasColumns(a, Size(t))
  {
    match t
    case D1Q3Transform => D1Q3Matrix
    case D2Q9Dellar => DellarMatrix
    case D2Q9Lallemand => LallemandMatrix
  }

  /** Change-of-basis matrix from moments back to populations. */
  function InverseMatrix(t: MomentTransform): (a: Matrix)
    requires !t.Base?
    ensures |a| == Size(t) && HasColumns(a, Size(t))
  {
    match t
    case D1Q3Transform => D1Q3Inverse
    case D2Q9Dellar => DellarInverse
    case D2Q9Lallemand => LallemandInverse
  }

  /** The populations `f` of one cell, as moments; the base class returns `f` itself. */
  function Transform(t: MomentTransform, f: Vector): (m: Vector)
    requires t.Base? || |f| == Size(t)
    ensures |m| == |f|
  {
    if t.Base? then f else MatVec(BasisMatrix(t), f)
  }

  /** The moments `m` of one cell, as populations; the base class returns `m` itself. */
  function InverseTransform(t: MomentTransform, m: Vector): (f: Vector)
    requires t.Base? || |m| == Size(t)
    ensures |f| == |m|
  {
    if t.Base? then m else MatVec(InverseMatrix(t), m)
  }

  /** The base class transforms are the identity, in both directions. */
  lemma BaseTransformIsIdentity(q: nat, names: seq<string>, f: Vector)
    ensures Transform(Base(q, names), f) == f && InverseTransform(Base(q, names), f) == f
  {
  }

  // ---------------------------------------------------------------------------
  // The inverse matrices are exact inverses
  // ---------------------------------------------------------------------------

  lemma IdentityFromEntries(a: Matrix, b: Matrix, n: nat)
    requires |a| == n && |b| == n && HasColumns(a, n) && HasColumns(b, n)
    requires forall i, j :: 0 <= i < n && 0 <= j < n ==> Dot(a[i], Column(b, j)) == if i == j then 1.0 else 0.0
    ensures MatMul(a, b, n) == Identity(n)
  {
    forall i | 0 <= i < n
      ensures MatMul(a, b, n)[i] == Identity(n)[i]
    {
      forall j | 0 <= j < n
        ensures MatMul(a, b, n)[i][j] == Identity(n)[i][j]
      {
      }
    }
  }

  lemma D1Q3InverseEntries(i: nat, j: nat, left: bool)
    requires i < 3 && j < 3
    ensures left ==> Dot(D1Q3Inverse[i], Column(D1Q3Matrix, j)) == if i == j then 1.0 else 0.0
    ensures !left ==> Dot(D1Q3Matrix[i], Column(D1Q3Inverse, j)) == if i == j then 1.0 else 0.0
  {
    Dot3(D1Q3Inverse[i], Column(D1Q3Matrix, j));
    Dot3(D1Q3Matrix[i], Column(D1Q3Inverse, j));
    assert i == 0 || i == 1 || i == 2;
    assert j == 0 || j == 1 || j == 2;
  }

  lemma DellarInverseEntries(i: nat, j: nat, left: bool)
    requires i < 9 && j < 9
    ensures left ==> Dot(DellarInverse[i], Column(DellarMatrix, j)) == if i == j then 1.0 else 0.0
    ensures !left ==> Dot(DellarMatrix[i], Column(DellarInverse, j)) == if i == j then 1.0 else 0.0
  {
    if left {
      DellarLeftEntry(i, j);
    } else {
      DellarRightEntry(i, j);
    }
  }

  lemma DellarLeftEntry(i: nat, j: nat)
    requires i < 9 && j < 9
    ensures Dot(DellarInverse[i], Column(DellarMatrix, j)) == if i == j then 1.0 else 0.0
  {
    Dot9(DellarInverse[i], Column(DellarMatrix, j));
    assert i == 0 || i == 1 || i == 2 || i == 3 || i == 4 || i == 5 || i == 6 || i == 7 || i == 8;
    assert j == 0 || j == 1 || j == 2 || j == 3 || j == 4 || j == 5 || j == 6 || j == 7 || j == 8;
  }

  lemma DellarRightEntry(i: nat, j: nat)
    requires i < 9 && j < 9
    ensures Dot(DellarMatrix[i], Column(DellarInverse, j)) == if i == j then 1.0 else 0.0
  {
    Dot9(DellarMatrix[i], Column(DellarInverse, j));
    assert i == 0 || i == 1 || i == 2 || i == 3 || i == 4 || i == 5 || i == 6 || i == 7 || i == 8;
    assert j == 0 || j == 1 || j == 2 || j == 3 || j == 4 || j == 5 || j == 6 || j == 7 || j == 8;
  }

  lemma LallemandInverseEntries(i: nat, j: nat, left: bool)
    requires i < 9 && j < 9
    ensures left ==> Dot(LallemandInverse[i], Column(LallemandMatrix, j)) == if i == j then 1.0 else 0.0
    ensures !left ==> Dot(LallemandMatrix[i], Column(LallemandInverse, j)) == if i == j then 1.0 else 0.0
  {
    if left {
      LallemandLeftEntry(i, j);
    } else {
      LallemandRightEntry(i, j);
    }
  }

  lemma LallemandLeftEntry(i: nat, j: nat)
    requires i < 9 && j < 9
    ensures Dot(LallemandInverse[i], Column(LallemandMatrix, j)) == if i == j then 1.0 else 0.0
  {
    Dot9(LallemandInverse[i], Column(LallemandMatrix, j));
    assert i == 0 || i == 1 || i == 2 || i == 3 || i == 4 || i == 5 || i == 6 || i == 7 || i == 8;
    assert j == 0 || j == 1 || j == 2 || j == 3 || j == 4 || j == 5 || j == 6 || j == 7 || j == 8;
  }

  lemma LallemandRightEntry(i: nat, j: nat)
    requires i < 9 && j < 9
    ensures Dot(LallemandMatrix[i], Column(LallemandInverse, j)) == if i == j then 1.0 else 0.0
  {
    Dot9(LallemandMatrix[i], Column(LallemandInverse, j));
    assert i == 0 || i == 1 || i == 2 || i == 3 || i == 4 || i == 5 || i == 6 || i == 7 || i == 8;
    assert j == 0 || j == 1 || j == 2 || j == 3 || j == 4 || j == 5 || j == 6 || j == 7 || j == 8;
  }

  /** For every fixed basis, `inverse * matrix` and `matrix * inverse` are the identity over the rationals. */
  lemma InverseIsExact(t: MomentTransform)
    requires !t.Base?
    ensures MatMul(InverseMatrix(t), BasisMatrix(t), Size(t)) == Identity(Size(t))
    ensures MatMul(BasisMatrix(t), InverseMatrix(t), Size(t)) == Identity(Size(t))
  {
    var n := Size(t);
    var a, b := InverseMatrix(t), BasisMatrix(t);
    forall i, j | 0 <= i < n && 0 <= j < n
      ensures Dot(a[i], Column(b, j)) == (if i == j then 1.0 else 0.0)
      ensures Dot(b[i], Column(a, j)) == (if i == j then 1.0 else 0.0)
    {
      match t
      case D1Q3Transform =>
        D1Q3InverseEntries(i, j, true);
        D1Q3InverseEntries(i, j, false);
      case D2Q9Dellar =>
        DellarInverseEntries(i, j, true);
        DellarInverseEntries(i, j, false);
      case D2Q9Lallemand =>
        LallemandInverseEntries(i, j, true);
        LallemandInverseEntries(i, j, false);
    }
    IdentityFromEntries(a, b, n);
    IdentityFromEntries(b, a, n);
  }

  /** `inverse_transform(transform(f)) == f`: the round trip recovers the populations exactly. */
  lemma RoundTrip(t: MomentTransform, f: Vector)
    requires t.Base? || |f| == Size(t)
    ensures InverseTransform(t, Transform(t, f)) == f
  {
    if !t.Base? {
      InverseIsExact(t);
      LeftInverseRoundTrip(InverseMatrix(t), BasisMatrix(t), f);
    }
  }

  /** `transform(inverse_transform(m)) == m`: every moment vector is the moments of some populations. */
  lemma InverseRoundTrip(t: MomentTransform, m: Vector)
    requires t.Base? || |m| == Size(t)
    ensures Transform(t, InverseTransform(t, m)) == m
  {
    if !t.Base? {
      InverseIsExact(t);
      LeftInverseRoundTrip(BasisMatrix(t), InverseMatrix(t), m);
    }
  }

  // ---------------------------------------------------------------------------
  // Rows of the bases are moment tensors
  // ---------------------------------------------------------------------------

  /** Rows 0-2 of both D2Q9 bases are the moment tensors of (0,0), (1,0) and (0,1): density and momentum. */
  lemma ConservedRowsD2Q9(t: MomentTransform)
    requires t.D2Q9Dellar? || t.D2Q9Lallemand?
    ensures BasisMatrix(t)[..3] == MomentTensors(D2Q9.e, [[0, 0], [1, 0], [0, 1]], 2)
  {
    D2Q9WellFormed();
    var alphas: seq<seq<nat>> := [[0, 0], [1, 0], [0, 1]];
    var rows := MomentTensors(D2Q9.e, alphas, 2);
    forall i, q | 0 <= i < 3 && 0 <= q < 9
      ensures BasisMatrix(t)[i][q] == rows[i][q]
    {
      var c := D2Q9.e[q];
      assert Monomial(c, alphas[i]) == Pow(c[0], alphas[i][0]) * Pow(c[1], alphas[i][1]) by {
        assert c[..1][..0] == [] && alphas[i][..1][..0] == [];
      }
      assert i == 0 || i == 1 || i == 2;
      assert q == 0 || q == 1 || q == 2 || q == 3 || q == 4 || q == 5 || q == 6 || q == 7 || q == 8;
    }
    forall i | 0 <= i < 3
      ensures BasisMatrix(t)[..3][i] == rows[i]
    {
    }
  }

  /** The D1Q3 basis is exactly the moment tensors of the exponents 0, 1 and 2. */
  lemma D1Q3RowsAreMoments()
    ensures D1Q3Matrix == MomentTensors(D1Q3.e, [[0], [1], [2]], 1)
  {
    var alphas: seq<seq<nat>> := [[0], [1], [2]];
    var rows := MomentTensors(D1Q3.e, alphas, 1);
    forall i, q | 0 <= i < 3 && 0 <= q < 3
      ensures D1Q3Matrix[i][q] == rows[i][q]
    {
      var c := D1Q3.e[q];
      assert Monomial(c, alphas[i]) == Pow(c[0], alphas[i][0]) by {
        assert c[..0] == [] && alphas[i][..0] == [];
      }
      assert i == 0 || i == 1 || i == 2;
      assert q == 0 || q == 1 || q == 2;
    }
    forall i | 0 <= i < 3
      ensures D1Q3Matrix[i] == rows[i]
    {
    }
  }

  // ---------------------------------------------------------------------------
  // __getitem__: name lookup
  // ---------------------------------------------------------------------------

  /** The argument of `transform[...]`: a single name, or a tuple of names. */
  datatype Selector = One(name: string) | Several(names: seq<string>)

  /** A single name is treated as a one-element list. */
  function Requested(s: Selector): seq<string> {
    match s
    case One(name) => [name]
    case Several(names) => names
  }

  /** Python's `list.index`: the first position of `name`, if any. */
  function IndexOf(names: seq<string>, name: string): (r: Option<nat>)
    ensures r.Some? <==> name in names
    ensures r.Some? ==> r.value < |names| && names[r.value] == name
    ensures r.Some? ==> forall j :: 0 <= j < r.value ==> names[j] != name
  {
    if |names| == 0 then None
    else if names[0] == name then Some(0)
    else match IndexOf(names[1..], name)
      case None => None
      case Some(k) => Some(k + 1)
  }

  /** Positions of the requested names, in request order; the first missing name is an error. */
  function Lookup(names: seq<string>, request: seq<string>): (r: Result<seq<nat>>)
    ensures r.Ok? <==> forall k :: 0 <= k < |request| ==> request[k] in names
    ensures r.Ok? ==> |r.value| == |request|
    ensures r.Ok? ==> forall k :: 0 <= k < |request| ==> r.value[k] < |names| && names[r.value[k]] == request[k]
    ensures r.Ok? ==> forall k, j :: 0 <= k < |request| && 0 <= j < r.value[k] ==> names[j] != request[k]
  {
    if |request| == 0 then Ok([])
    else match IndexOf(names, request[0])
      case None => Err("'" + request[0] + "' is not in list")
      case Some(i) =>
        match Lookup(names, request[1..])
        case Err(msg) => Err(msg)
        case Ok(rest) => Ok([i] + rest)
  }

  /** `transform[names]`. */
  function GetItem(t: MomentTransform, s: Selector): Result<seq<nat>> {
    Lookup(Names(t), Requested(s))
  }

  /** The first position holding `name` is what `IndexOf` returns. */
  lemma IndexOfFirst(names: seq<string>, name: string, i: nat)
    requires i < |names| && names[i] == name
    requires forall j :: 0 <= j < i ==> names[j] != name
    ensures IndexOf(names, name) == Some(i)
  {
    assert names[i] in names;
  }

  /** Looking up `x` followed by `rest` puts `x`'s position in front of the positions of `rest`. */
  lemma LookupCons(names: seq<string>, x: string, rest: seq<string>, i: nat, tail: seq<nat>)
    requires IndexOf(names, x) == Some(i)
    requires Lookup(names, rest) == Ok(tail)
    ensures Lookup(names, [x] + rest) == Ok([i] + tail)
  {
    assert ([x] + rest)[0] == x && ([x] + rest)[1..] == rest;
  }

  /** Any list starting with `rho, jx, jy` resolves `["jx", "jy"]` to `[1, 2]` and `"rho"` to `[0]`. */
  lemma ConservedLookups(names: seq<string>)
    requires |names| >= 3 && names[0] == "rho" && names[1] == "jx" && names[2] == "jy"
    ensures Lookup(names, ["jx", "jy"]) == Ok([1, 2])
    ensures Lookup(names, ["rho"]) == Ok([0])
  {
    assert "rho" != "jx" && "rho" != "jy" && "jx" != "jy";
    IndexOfFirst(names, "rho", 0);
    IndexOfFirst(names, "jx", 1);
    IndexOfFirst(names, "jy", 2);
    assert Lookup(names, []) == Ok([]);
    LookupCons(names, "jy", [], 2, []);
    assert ["jy"] + [] == ["jy"] && [2] + [] == [2];
    LookupCons(names, "jx", ["jy"], 1, [2]);
    assert ["jx"] + ["jy"] == ["jx", "jy"] && [1] + [2] == [1, 2];
    LookupCons(names, "rho", [], 0, []);
    assert ["rho"] + [] == ["rho"] && [0] + [] == [0];
  }

  /** Lallemand and Dellar: `["jx", "jy"]` are at `[1, 2]`, `"rho"` is at `[0]`. */
  lemma D2Q9Lookups(t: MomentTransform)
    requires t == D2Q9Lallemand || t == D2Q9Dellar
    ensures GetItem(t, Several(["jx", "jy"])) == Ok([1, 2])
    ensures GetItem(t, One("rho")) == Ok([0])
  {
    var names := Names(t);
    assert |names| == 9 && names[0] == "rho" && names[1] == "jx" && names[2] == "jy";
    ConservedLookups(names);
  }

  /** A name that is not in the list is an error. */
  lemma MissingNameFails(t: MomentTransform, name: string)
    requires name !in Names(t)
    ensures GetItem(t, One(name)).Err?
    ensures forall others: seq<string> :: GetItem(t, Several(others + [name])).Err?
  {
    forall others: seq<string>
      ensures GetItem(t, Several(others + [name])).Err?
    {
      assert (others + [name])[|others|] == name;
    }
  }

  /** With default names, `"m<i>"` is found at position `i`. */
  lemma DefaultNameLookup(q: nat, i: nat)
    requires i < q
    ensures GetItem(NewTransform(q, None), One("m" + NatToString(i))) == Ok([i])
  {
    var names := DefaultNames(q);
    var x := "m" + NatToString(i);
    var r := IndexOf(names, x);
    assert names[i] == x;
    DefaultNamesDistinct(q, i, r.value);
    assert [x][1..] == [] && [x][0] == x;
    assert Lookup(names, []) == Ok([]);
    assert r == Some(i);
    assert IndexOf(names, [x][0]) == Some(i);
    assert [i] + [] == [i];
    assert Lookup(names, [x]) == Ok([r.value]);
  }

  // ---------------------------------------------------------------------------
  // get_default_moment_transform
  // ---------------------------------------------------------------------------

  /** D1Q3 gets its own basis, D2Q9 the Lallemand basis, every other stencil an error. */
  function DefaultMomentTransform(s: Stencil): (r: Result<MomentTransform>)
    ensures r.Ok? <==> s == D1Q3 || s == D2Q9
    ensures s == D1Q3 ==> r == Ok(D1Q3Transform)
    ensures s == D2Q9 ==> r == Ok(D2Q9Lallemand)
  {
    if s == D1Q3 then Ok(D1Q3Transform)
    else if s == D2Q9 then Ok(D2Q9Lallemand)
    else Err("No default moment transform for lattice")
  }

  /** The default transform is written for exactly as many velocities as the stencil has. */
  lemma DefaultTransformFitsStencil(s: Stencil)
    requires DefaultMomentTransform(s).Ok?
    ensures Size(DefaultMomentTransform(s).value) == s.Q()
    ensures |Names(DefaultMomentTransform(s).value)| == s.Q()
  {
  }

  // ---------------------------------------------------------------------------
  // Moment equilibria
  // ---------------------------------------------------------------------------

  /**
   * Dellar's equilibrium moments of a moment vector `m` (density `m[0]`, momentum `m[1]`, `m[2]`):
   * density and momentum unchanged, the three stress moments from the momentum, the rest zero.
   */
  method DellarEquilibrium(m: seq<real>) returns (meq: seq<real>)
    requires |m| >= 6 && m[0] != 0.0
    ensures |meq| == |m|
    ensures meq[0] == m[0] && meq[1] == m[1] && meq[2] == m[2]
    ensures meq[3] == 9.0 / 2.0 * (m[1] * m[1] / m[0])
    ensures meq[4] == 9.0 * (m[1] * m[2] / m[0])
    ensures meq[5] == 9.0 / 2.0 * (m[2] * m[2] / m[0])
    ensures forall k :: 6 <= k < |m| ==> meq[k] == 0.0
  {
    var out := new real[|m|](_ => 0.0);
    var rho, jx, jy := m[0], m[1], m[2];
    var piXX := jx * jx / rho * 9.0 / 2.0;
    var piXY := jx * jy / rho * 9.0;
    var piYY := jy * jy / rho * 9.0 / 2.0;
    assert piXX == 9.0 / 2.0 * (m[1] * m[1] / m[0]);
    assert piXY == 9.0 * (m[1] * m[2] / m[0]);
    assert piYY == 9.0 / 2.0 * (m[2] * m[2] / m[0]);
    out[0] := rho;
    out[1] := jx;
    out[2] := jy;
    out[3] := piXX;
    out[4] := piXY;
    out[5] := piYY;
    meq := out[..];
  }

  /** The coefficients of Lallemand and Luo's equilibrium, multiplied out. */
  lemma LallemandCoefficients(rho: real, jx: real, jy: real)
    ensures 1.0 / 4.0 * -8.0 * rho + 1.0 / 6.0 * 18.0 * (jx * jx + jy * jy) == -2.0 * rho + 3.0 * (jx * jx + jy * jy)
    ensures 1.0 / 4.0 * 4.0 * rho + 1.0 / 6.0 * -18.0 * (jx * jx + jy * jy) == rho - 3.0 * (jx * jx + jy * jy)
    ensures 1.0 / 2.0 * -2.0 * jx == -jx && 1.0 / 2.0 * -2.0 * jy == -jy
    ensures 1.0 / 2.0 * (2.0 / 3.0) * (jx * jx - jy * jy) == (jx * jx - jy * jy) / 3.0
    ensures 1.0 / 2.0 * (2.0 / 3.0) * (jx * jy) == jx * jy / 3.0
  {
  }

  /**
   * Lallemand and Luo's equilibrium moments: density and momentum unchanged, energy and its square
   * from the kinetic energy, heat flux `-j`, stresses from the momentum.
   */
  method LallemandEquilibrium(m: seq<real>) returns (meq: seq<real>)
    requires |m| >= 9
    ensures |meq| == |m|
    ensures meq[0] == m[0] && meq[1] == m[1] && meq[2] == m[2]
    ensures meq[3] == (m[1] * m[1] - m[2] * m[2]) / 3.0
    ensures meq[4] == m[1] * m[2] / 3.0
    ensures meq[5] == -2.0 * m[0] + 3.0 * (m[1] * m[1] + m[2] * m[2])
    ensures meq[6] == -m[1] && meq[7] == -m[2]
    ensures meq[8] == m[0] - 3.0 * (m[1] * m[1] + m[2] * m[2])
    ensures forall k :: 9 <= k < |m| ==> meq[k] == 0.0
  {
    var rho, jx, jy := m[0], m[1], m[2];
    var c1, alpha2, alpha3 := -2.0, -8.0, 4.0;
    var gamma1, gamma2, gamma3, gamma4 := 2.0 / 3.0, 18.0, 2.0 / 3.0, -18.0;
    var e := 1.0 / 4.0 * alpha2 * rho + 1.0 / 6.0 * gamma2 * (jx * jx + jy * jy);
    var eps := 1.0 / 4.0 * alpha3 * rho + 1.0 / 6.0 * gamma4 * (jx * jx + jy * jy);
    var qx := 1.0 / 2.0 * c1 * jx;
    var qy := 1.0 / 2.0 * c1 * jy;
    var pxx := 1.0 / 2.0 * gamma1 * (jx * jx - jy * jy);
    var pxy := 1.0 / 2.0 * gamma3 * (jx * jy);
    LallemandCoefficients(rho, jx, jy);
    meq := StoreNine(|m|, [rho, jx, jy, pxx, pxy, e, qx, qy, eps]);
  }

  /** `meq = zeros_like(m)` followed by the stores `meq[k] = values[k]` for the nine entries. */
  method StoreNine(n: nat, values: seq<real>) returns (meq: seq<real>)
    requires |values| == 9 && n >= 9
    ensures |meq| == n
    ensures forall k :: 0 <= k < 9 ==> meq[k] == values[k]
    ensures forall k :: 9 <= k < n ==> meq[k] == 0.0
  {
    var out := new real[n](_ => 0.0);
    out[0] := values[0];
    out[1] := values[1];
    out[2] := values[2];
    out[3] := values[3];
    out[4] := values[4];
    out[5] := values[5];
    out[6] := values[6];
    out[7] := values[7];
    out[8] := values[8];
    meq := out[..];
  }
}
