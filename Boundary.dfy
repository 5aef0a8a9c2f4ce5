/**
 * Boundary conditions on a lattice: full-way bounce-back, and the index bookkeeping of
 * the anti-bounce-back outlet (direction check, selection of outgoing velocities, and
 * the lists of boundary/neighbour slices).
 *
 * A population field is `f[q][x]`: velocity `q`, cell `x` (cells flattened to one index).
 */
module Boundary {
  import opened Results
  import opened Stencils

  /** `f` has `q` velocities, each over `n` cells. */
  predicate IsField(f: seq<seq<real>>, q: nat, n: nat) {
    |f| == q && forall k :: 0 <= k < q ==> |f[k]| == n
  }

  /** `opposite` maps each of the `q` velocities to a velocity. */
  predicate OppositeInRange(opposite: seq<nat>, q: nat) {
    |opposite| == q && forall k :: 0 <= k < q ==> opposite[k] < q
  }

  // ---------------------------------------------------------------------------
  // Full-way bounce-back
  // ---------------------------------------------------------------------------

  /** `torch.where(mask, f[opposite], f)`: masked cells take the opposite population. */
  function BounceBack(mask: seq<bool>, f: seq<seq<real>>, opposite: seq<nat>): (r: seq<seq<real>>)
    requires IsField(f, |f|, |mask|) && OppositeInRange(opposite, |f|)
    ensures IsField(r, |f|, |mask|)
    ensures forall q, x :: 0 <= q < |f| && 0 <= x < |mask| && mask[x] ==> r[q][x] == f[opposite[q]][x]
    ensures forall q, x :: 0 <= q < |f| && 0 <= x < |mask| && !mask[x] ==> r[q][x] == f[q][x]
  {
    seq(|f|, q requires 0 <= q < |f| => seq(|mask|, x requires 0 <= x < |mask| =>
      if mask[x] then f[opposite[q]][x] else f[q][x]))
  }

  /** An unmasked field is left as it is. */
  lemma BounceBackOutsideMask(mask: seq<bool>, f: seq<seq<real>>, opposite: seq<nat>)
    requires IsField(f, |f|, |mask|) && OppositeInRange(opposite, |f|)
    requires forall x :: 0 <= x < |mask| ==> !mask[x]
    ensures BounceBack(mask, f, opposite) == f
  {
    var r := BounceBack(mask, f, opposite);
    forall q | 0 <= q < |f|
      ensures r[q] == f[q]
    {
      assert |r[q]| == |f[q]|;
    }
  }

  /** Bouncing back twice restores the field, because `opposite` is an involution. */
  lemma BounceBackTwice(mask: seq<bool>, f: seq<seq<real>>, opposite: seq<nat>)
    requires IsField(f, |f|, |mask|) && |opposite| == |f| && IsInvolution(opposite)
    ensures BounceBack(mask, BounceBack(mask, f, opposite), opposite) == f
  {
    var once := BounceBack(mask, f, opposite);
    var twice := BounceBack(mask, once, opposite);
    forall q | 0 <= q < |f|
      ensures twice[q] == f[q]
    {
      forall x | 0 <= x < |mask|
        ensures twice[q][x] == f[q][x]
      {
        if mask[x] {
          assert twice[q][x] == once[opposite[q]][x] == f[opposite[opposite[q]]][x];
        }
      }
    }
  }

  // ---------------------------------------------------------------------------
  // Outlet direction
  // ---------------------------------------------------------------------------

  function Abs(i: int): nat {
    if i < 0 then -i else i
  }

  /** Python's `sum` over an integer list. */
  function Sum(d: seq<int>): int {
    if |d| == 0 then 0 else Sum(d[..|d| - 1]) + d[|d| - 1]
  }

  /** `np.max(np.abs(d))`; numpy refuses the empty list. */
  function MaxAbs(d: seq<int>): (m: nat)
    requires |d| > 0
    ensures forall k :: 0 <= k < |d| ==> Abs(d[k]) <= m
    ensures exists k :: 0 <= k < |d| && Abs(d[k]) == m
  {
    if |d| == 1 then Abs(d[0])
    else
      var p := d[..|d| - 1];
      var m := MaxAbs(p);
      assert forall k :: 0 <= k < |p| ==> p[k] == d[k];
      if Abs(d[|d| - 1]) > m then Abs(d[|d| - 1]) else m
  }

  /** The check of the outlet constructor on an integer list. */
  predicate DirectionAccepted(d: seq<int>) {
    && 1 <= |d| <= 3
    && Abs(Sum(d)) == 1
    && MaxAbs(d) == 1
    && ((1 in d) != (-1 in d))
  }

  /** Axis `a` is the only non-zero entry of `d`, and it is `1` or `-1`. */
  predicate UnitAt(d: seq<int>, a: int) {
    && 0 <= a < |d|
    && (d[a] == 1 || d[a] == -1)
    && forall k :: 0 <= k < |d| && k != a ==> d[k] == 0
  }

  /** What the check means: one, two or three entries, all zero except a single `1` or `-1`. */
  predicate UnitAxisDirection(d: seq<int>) {
    1 <= |d| <= 3 && exists a :: 0 <= a < |d| && UnitAt(d, a)
  }

  /** With entries in {0, s}, the sum has the sign of `s`; sum 0 means all zero, sum `s` means one entry `s`. */
  lemma {:induction false} SignedEntries(d: seq<int>, s: int)
    requires s == 1 || s == -1
    requires forall k :: 0 <= k < |d| ==> d[k] == 0 || d[k] == s
    ensures s == 1 ==> Sum(d) >= 0
    ensures s == -1 ==> Sum(d) <= 0
    ensures Sum(d) == 0 ==> forall k :: 0 <= k < |d| ==> d[k] == 0
    ensures Sum(d) == s ==> exists a :: UnitAt(d, a) && d[a] == s
  {
    if |d| > 0 {
      var p := d[..|d| - 1];
      var last := |d| - 1;
      assert forall k :: 0 <= k < |p| ==> p[k] == d[k];
      SignedEntries(p, s);
      assert Sum(d) == Sum(p) + d[last];
      if d[last] == 0 {
        if Sum(d) == s {
          var a :| UnitAt(p, a) && p[a] == s;
          assert UnitAt(d, a);
        }
      } else {
        if Sum(d) == s {
          assert Sum(p) == 0;
          assert UnitAt(d, last);
        }
      }
    }
  }

  /** A single non-zero entry is the sum. */
  lemma {:induction false} SumOfUnit(d: seq<int>, a: int)
    requires 0 <= a < |d| && forall k :: 0 <= k < |d| && k != a ==> d[k] == 0
    ensures Sum(d) == d[a]
  {
    var p := d[..|d| - 1];
    assert forall k :: 0 <= k < |p| ==> p[k] == d[k];
    if a < |d| - 1 {
      SumOfUnit(p, a);
    } else {
      ZeroSum(p);
    }
  }

  lemma {:induction false} ZeroSum(d: seq<int>)
    requires forall k :: 0 <= k < |d| ==> d[k] == 0
    ensures Sum(d) == 0
  {
    if |d| > 0 {
      var p := d[..|d| - 1];
      assert forall k :: 0 <= k < |p| ==> p[k] == d[k];
      ZeroSum(p);
    }
  }

  /** The outlet accepts exactly the directions along one axis, positive or negative. */
  lemma DirectionAcceptedIffUnitAxis(d: seq<int>)
    ensures DirectionAccepted(d) <==> UnitAxisDirection(d)
  {
    if DirectionAccepted(d) {
      assert forall k :: 0 <= k < |d| ==> Abs(d[k]) <= 1;
      if 1 in d {
        SignedEntries(d, 1);
      } else {
        SignedEntries(d, -1);
      }
    }
    if UnitAxisDirection(d) {
      var a :| 0 <= a < |d| && UnitAt(d, a);
      SumOfUnit(d, a);
      var m := MaxAbs(d);
      var k :| 0 <= k < |d| && Abs(d[k]) == m;
      assert Abs(d[a]) == 1;
      if d[a] == 1 {
        assert -1 !in d;
      } else {
        assert 1 !in d;
      }
    }
  }

  /** `[1, 0]` and `[-1, 0]` pass the check; `[1, 1]` and `[0, 0]` do not. */
  lemma DirectionExamples()
    ensures DirectionAccepted([1, 0]) && DirectionAccepted([-1, 0])
    ensures !DirectionAccepted([1, 1]) && !DirectionAccepted([0, 0])
    ensures DirectionAccepted([0, 0, -1]) && !DirectionAccepted([1, -1, 1])
  {
    assert [1, 0][0] == 1 && [-1, 0][0] == -1 && [0, 0, -1][2] == -1;
  }

  // ---------------------------------------------------------------------------
  // Velocity selection
  // ---------------------------------------------------------------------------

  /** `e[q] · d`. */
  function Projection(v: seq<int>, d: seq<int>): int
    requires |v| == |d|
  {
    if |v| == 0 then 0 else Projection(v[..|v| - 1], d[..|d| - 1]) + v[|v| - 1] * d[|d| - 1]
  }

  /** Every velocity has as many components as the direction. */
  predicate RowsMatch(e: seq<seq<int>>, d: seq<int>) {
    forall q :: 0 <= q < |e| ==> |e[q]| == |d|
  }

  /** `argwhere(e @ d == 1)`: the velocities pointing along `d`, in increasing order. */
  function SelectVelocities(e: seq<seq<int>>, d: seq<int>): (r: seq<nat>)
    requires RowsMatch(e, d)
    ensures forall i, j :: 0 <= i < j < |r| ==> r[i] < r[j]
    ensures forall i :: 0 <= i < |r| ==> r[i] < |e|
    ensures forall q :: 0 <= q < |e| ==> (q in r <==> Projection(e[q], d) == 1)
  {
    if |e| == 0 then []
    else
      var p := e[..|e| - 1];
      assert forall q :: 0 <= q < |p| ==> p[q] == e[q];
      SelectVelocities(p, d) + (if Projection(e[|e| - 1], d) == 1 then [|e| - 1] else [])
  }

  function Negate(d: seq<int>): (r: seq<int>)
    ensures |r| == |d| && forall k :: 0 <= k < |d| ==> r[k] == -d[k]
  {
    seq(|d|, k requires 0 <= k < |d| => -d[k])
  }

  lemma {:induction false} ProjectionNegate(v: seq<int>, d: seq<int>)
    requires |v| == |d|
    ensures Projection(v, Negate(d)) == -Projection(v, d)
  {
    if |v| > 0 {
      var n := Negate(d);
      assert n[..|n| - 1] == Negate(d[..|d| - 1]);
      ProjectionNegate(v[..|v| - 1], d[..|d| - 1]);
    }
  }

  /** The velocities leaving through one side and through the opposite side are disjoint. */
  lemma OppositeSidesDisjoint(e: seq<seq<int>>, d: seq<int>)
    requires RowsMatch(e, d)
    ensures forall q :: q in SelectVelocities(e, d) ==> q !in SelectVelocities(e, Negate(d))
  {
    forall q | q in SelectVelocities(e, d)
      ensures q !in SelectVelocities(e, Negate(d))
    {
      ProjectionNegate(e[q], d);
    }
  }

  /** Along a unit axis, the projection is that component of the velocity, signed. */
  lemma {:induction false} ProjectionOnAxis(v: seq<int>, d: seq<int>, a: int)
    requires |v| == |d| && UnitAt(d, a)
    ensures Projection(v, d) == v[a] * d[a]
  {
    var n := |v| - 1;
    var vp, dp := v[..n], d[..n];
    if a < n {
      assert UnitAt(dp, a);
      ProjectionOnAxis(vp, dp, a);
    } else {
      ProjectionOfZero(vp, dp);
    }
  }

  lemma {:induction false} ProjectionOfZero(v: seq<int>, d: seq<int>)
    requires |v| == |d| && forall k :: 0 <= k < |d| ==> d[k] == 0
    ensures Projection(v, d) == 0
  {
    if |v| > 0 {
      ProjectionOfZero(v[..|v| - 1], d[..|d| - 1]);
    }
  }

  predicate StrictlyIncreasing(s: seq<nat>) {
    forall i, j :: 0 <= i < j < |s| ==> s[i] < s[j]
  }

  lemma SameMembersSameEmptiness(a: seq<nat>, b: seq<nat>)
    requires forall x :: x in a <==> x in b
    ensures |a| == 0 <==> |b| == 0
  {
    if |a| > 0 {
      assert a[0] in b;
    }
    if |b| > 0 {
      assert b[0] in a;
    }
  }

  /** Two strictly increasing lists with the same members are equal. */
  lemma {:induction false} IncreasingByMembers(a: seq<nat>, b: seq<nat>)
    requires StrictlyIncreasing(a) && StrictlyIncreasing(b)
    requires forall x :: x in a <==> x in b
    ensures a == b
  {
    SameMembersSameEmptiness(a, b);
    if |a| > 0 {
      assert a[0] in b && b[0] in a;
      assert a[0] == b[0];
      forall x
        ensures x in a[1..] <==> x in b[1..]
      {
        if x in a[1..] {
          var i :| 1 <= i < |a| && a[i] == x;
          assert x in a;
          assert x in b;
          var j :| 0 <= j < |b| && b[j] == x;
          assert j != 0;
          assert b[1..][j - 1] == x;
        }
        if x in b[1..] {
          var j :| 1 <= j < |b| && b[j] == x;
          assert x in b;
          assert x in a;
          var i :| 0 <= i < |a| && a[i] == x;
          assert i != 0;
          assert a[1..][i - 1] == x;
        }
      }
      IncreasingByMembers(a[1..], b[1..]);
      assert a == [a[0]] + a[1..] && b == [b[0]] + b[1..];
    }
  }

  /** On D2Q9, the east side `[1, 0]` lets out velocities 1, 5 and 8. */
  lemma D2Q9EastVelocities()
    ensures SelectVelocities(D2Q9.e, [1, 0]) == [1, 5, 8]
  {
    var e, d := D2Q9.e, [1, 0];
    var r := SelectVelocities(e, d);
    assert UnitAt(d, 0);
    forall q | 0 <= q < 9
      ensures Projection(e[q], d) == e[q][0]
    {
      ProjectionOnAxis(e[q], d, 0);
    }
    forall x
      ensures x in r <==> x in [1, 5, 8]
    {
      if x in r {
        assert x < 9;
      }
    }
    IncreasingByMembers(r, [1, 5, 8]);
  }

  // ---------------------------------------------------------------------------
  // Boundary and neighbour slices
  // ---------------------------------------------------------------------------

  /** A slice entry: the whole axis, or one position (negative positions count from the end). */
  datatype Slice = All | At(i: int)

  /** What one direction entry contributes: 0 a whole axis, 1 the last layer, -1 the first. */
  function IndexEntry(i: int): seq<Slice> {
    if i == 0 then [All] else if i == 1 then [At(-1)] else if i == -1 then [At(0)] else []
  }

  /** The neighbour layer one step inside the domain. */
  function NeighbourEntry(i: int): seq<Slice> {
    if i == 0 then [All] else if i == 1 then [At(-2)] else if i == -1 then [At(1)] else []
  }

  function IndexList(d: seq<int>): seq<Slice> {
    if |d| == 0 then [] else IndexList(d[..|d| - 1]) + IndexEntry(d[|d| - 1])
  }

  function NeighbourList(d: seq<int>): seq<Slice> {
    if |d| == 0 then [] else NeighbourList(d[..|d| - 1]) + NeighbourEntry(d[|d| - 1])
  }

  /** Every entry is -1, 0 or 1. */
  predicate Ternary(d: seq<int>) {
    forall k :: 0 <= k < |d| ==> -1 <= d[k] <= 1
  }

  /** The loop over the direction that builds `index` and `neighbour`. */
  method SideIndices(direction: seq<int>) returns (index: seq<Slice>, neighbour: seq<Slice>)
    ensures index == IndexList(direction) && neighbour == NeighbourList(direction)
  {
    index, neighbour := [], [];
    var k := 0;
    while k < |direction|
      invariant 0 <= k <= |direction|
      invariant index == IndexList(direction[..k]) && neighbour == NeighbourList(direction[..k])
    {
      var i := direction[k];
      if i == 0 {
        index := index + [All];
        neighbour := neighbour + [All];
      }
      if i == 1 {
        index := index + [At(-1)];
        neighbour := neighbour + [At(-2)];
      }
      if i == -1 {
        index := index + [At(0)];
        neighbour := neighbour + [At(1)];
      }
      assert direction[..k + 1][..k] == direction[..k];
      k := k + 1;
    }
    assert direction[..k] == direction;
  }

  /** For entries in {-1, 0, 1}, both lists follow the direction entry by entry. */
  lemma {:induction false} SideListsPointwise(d: seq<int>)
    requires Ternary(d)
    ensures |IndexList(d)| == |d| && |NeighbourList(d)| == |d|
    ensures forall k :: 0 <= k < |d| ==>
      && (d[k] == 0 ==> IndexList(d)[k] == All && NeighbourList(d)[k] == All)
      && (d[k] == 1 ==> IndexList(d)[k] == At(-1) && NeighbourList(d)[k] == At(-2))
      && (d[k] == -1 ==> IndexList(d)[k] == At(0) && NeighbourList(d)[k] == At(1))
  {
    if |d| > 0 {
      var p := d[..|d| - 1];
      assert forall k :: 0 <= k < |p| ==> p[k] == d[k];
      SideListsPointwise(p);
    }
  }

  // ---------------------------------------------------------------------------
  // Outlet construction
  // ---------------------------------------------------------------------------

  /** The index data the outlet keeps: selected velocities, slices, einsum subscripts and weights. */
  datatype Outlet = Outlet(
    direction: seq<int>,
    velocities: seq<nat>,
    index: seq<Slice>,
    neighbour: seq<Slice>,
    dims: string,
    w: seq<real>)

  /** The einsum subscripts for a one-, two- or three-component direction. */
  function Dims(n: nat): string {
    if n == 3 then "dc, cxy -> dxy" else if n == 2 then "dc, cx -> dx" else "dc, c -> dc"
  }

  /** The weights of the selected velocities. */
  function WeightsAt(w: seq<real>, velocities: seq<nat>): (r: seq<real>)
    requires forall i :: 0 <= i < |velocities| ==> velocities[i] < |w|
    ensures |r| == |velocities| && forall i :: 0 <= i < |r| ==> r[i] == w[velocities[i]]
  {
    seq(|velocities|, i requires 0 <= i < |velocities| => w[velocities[i]])
  }

  /** `AntiBounceBackOutlet.__init__`. Fails on a rejected direction, on a direction whose length is not the
   *  stencil's dimension (the matrix product is undefined), and when no velocity points along the direction
   *  (there is nothing to concatenate). */
  method NewOutlet(stencil: Stencil, direction: seq<int>) returns (r: Result<Outlet>)
    requires |stencil.w| == |stencil.e| && forall q :: 0 <= q < |stencil.e| ==> |stencil.e[q]| == stencil.d
    ensures r.Ok? <==>
      && DirectionAccepted(direction)
      && |direction| == stencil.d
      && |SelectVelocities(stencil.e, direction)| > 0
    ensures r.Ok? ==>
      && UnitAxisDirection(direction)
      && r.value.direction == direction
      && r.value.velocities == SelectVelocities(stencil.e, direction)
      && |r.value.index| == |direction| && |r.value.neighbour| == |direction|
      && r.value.index == IndexList(direction) && r.value.neighbour == NeighbourList(direction)
      && r.value.dims == Dims(|direction|)
      && r.value.w == WeightsAt(stencil.w, r.value.velocities)
  {
    if !(1 <= |direction| <= 3) || Abs(Sum(direction)) != 1 || MaxAbs(direction) != 1
      || (1 in direction) == (-1 in direction)
    {
      return Err("Wrong direction. Expected list of length 1, 2 or 3 with all entrys 0 except one 1 or -1");
    }
    DirectionAcceptedIffUnitAxis(direction);
    if |direction| != stencil.d {
      return Err("matmul: mismatch in its core dimension");
    }
    var velocities := SelectVelocities(stencil.e, direction);
    if |velocities| == 0 {
      return Err("need at least one array to concatenate");
    }
    var index, neighbour := SideIndices(direction);
    assert Ternary(direction) by {
      var a :| UnitAt(direction, a);
    }
    SideListsPointwise(direction);
    r := Ok(Outlet(direction, velocities, index, neighbour, Dims(|direction|), WeightsAt(stencil.w, velocities)));
  }
}
