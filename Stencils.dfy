/** Velocity stencils: the discrete velocity sets the moment bases and boundaries are written for. */
module Stencils {

  /** A stencil of dimension `d`: velocity vectors `e`, weights `w` and the index of each opposite velocity. */
  datatype Stencil = Stencil(d: nat, e: seq<seq<int>>, w: seq<real>, opposite: seq<nat>) {

    /** Number of velocities. */
    function Q(): nat {
      |e|
    }
  }

  /** One dimension, velocities (0), (1), (-1). */
  const D1Q3: Stencil := Stencil(1, [[0], [1], [-1]], [2.0 / 3.0, 1.0 / 6.0, 1.0 / 6.0], [0, 2, 1])

  /** Two dimensions, the order the D2Q9 moment matrices are written in. */
  const D2Q9: Stencil := Stencil(
    2,
    [[0, 0], [1, 0], [0, 1], [-1, 0], [0, -1], [1, 1], [-1, 1], [-1, -1], [1, -1]],
    [4.0 / 9.0, 1.0 / 9.0, 1.0 / 9.0, 1.0 / 9.0, 1.0 / 9.0, 1.0 / 36.0, 1.0 / 36.0, 1.0 / 36.0, 1.0 / 36.0],
    [0, 3, 4, 1, 2, 7, 8, 5, 6])

  /** `opposite` is a permutation of the velocity indices that is its own inverse. */
  predicate IsInvolution(opposite: seq<nat>) {
    && (forall q :: 0 <= q < |opposite| ==> opposite[q] < |opposite|)
    && (forall q :: 0 <= q < |opposite| ==> opposite[opposite[q]] == q)
  }

  /** Shape and symmetry of a stencil descriptor. */
  predicate WellFormed(s: Stencil) {
    && (forall q :: 0 <= q < |s.e| ==> |s.e[q]| == s.d)
    && |s.w| == |s.e| && |s.opposite| == |s.e|
    && IsInvolution(s.opposite)
    && (forall q, k :: 0 <= q < |s.e| && 0 <= k < s.d ==> s.e[s.opposite[q]][k] == -s.e[q][k])
  }

  lemma D1Q3WellFormed()
    ensures WellFormed(D1Q3) && D1Q3.Q() == 3
  {
  }

  lemma D2Q9WellFormed()
    ensures WellFormed(D2Q9) && D2Q9.Q() == 9
  {
    var s := D2Q9;
    forall q, k | 0 <= q < 9 && 0 <= k < 2
      ensures s.e[s.opposite[q]][k] == -s.e[q][k]
    {
      assert q == 0 || q == 1 || q == 2 || q == 3 || q == 4 || q == 5 || q == 6 || q == 7 || q == 8;
    }
  }
}
