/**
 * Moment-space BGK initialisation: a collision that relaxes every moment with `tau`, the
 * density with `tau + 1`, and pins the momentum moments to `rho * u` so the initial
 * velocity field is kept. Modelled for one cell; the density, the equilibrium populations
 * and the velocity are inputs.
 */
module BgkInitialization {
  import opened Results
  import opened Moments

  /** `"j" + x` for the first `d` of `x`, `y`, `z`. */
  function MomentumNames(d: nat): (r: seq<string>)
    ensures |r| == (if d < 3 then d else 3)
    ensures forall k :: 0 <= k < |r| ==> r[k] == ["jx", "jy", "jz"][k]
  {
    ["jx", "jy", "jz"][..if d < 3 then d else 3]
  }

  /** The state the collision keeps. */
  datatype BgkInitialization = BgkInitialization(
    tau: real,
    transform: MomentTransform,
    u: seq<real>,
    rho0: real,
    momentumIndices: seq<nat>)

  /** The constructor: resolves the momentum names of a `d`-dimensional stencil through the transform. */
  function NewBgkInitialization(tau: real, transform: MomentTransform, u: seq<real>, rho0: real, d: nat)
    : (r: Result<BgkInitialization>)
    ensures r.Ok? <==> forall k :: 0 <= k < |MomentumNames(d)| ==> MomentumNames(d)[k] in Names(transform)
    ensures r.Ok? ==>
      && r.value.tau == tau && r.value.transform == transform && r.value.u == u && r.value.rho0 == rho0
      && |r.value.momentumIndices| == |MomentumNames(d)|
      && (forall k :: 0 <= k < |r.value.momentumIndices| ==>
           && r.value.momentumIndices[k] < |Names(transform)|
           && Names(transform)[r.value.momentumIndices[k]] == MomentumNames(d)[k])
      && Distinct(r.value.momentumIndices)
  {
    var lookup := GetItem(transform, Several(MomentumNames(d)));
    if lookup.Err? then Err(lookup.message)
    else
      MomentumNamesDistinct(d);
      Ok(BgkInitialization(tau, transform, u, rho0, lookup.value))
  }

  /** `jx`, `jy` and `jz` differ, so their positions differ. */
  lemma MomentumNamesDistinct(d: nat)
    ensures forall i, j :: 0 <= i < j < |MomentumNames(d)| ==> MomentumNames(d)[i] != MomentumNames(d)[j]
  {
    assert "jx" != "jy" && "jx" != "jz" && "jy" != "jz";
  }

  predicate Distinct(s: seq<nat>) {
    forall i, j :: 0 <= i < j < |s| ==> s[i] != s[j]
  }

  /** In two dimensions with the Lallemand basis, the momentum moments are entries 1 and 2. */
  lemma LallemandMomentumIndices(tau: real, u: seq<real>, rho0: real)
    ensures NewBgkInitialization(tau, D2Q9Lallemand, u, rho0, 2).Ok?
    ensures NewBgkInitialization(tau, D2Q9Lallemand, u, rho0, 2).value.momentumIndices == [1, 2]
  {
    assert MomentumNames(2) == ["jx", "jy"];
    D2Q9Lookups(D2Q9Lallemand);
  }

  /** The D1Q3 basis names its momentum `j`, so the lookup of `jx` fails. */
  lemma D1Q3HasNoJx(tau: real, u: seq<real>, rho0: real)
    ensures NewBgkInitialization(tau, D1Q3Transform, u, rho0, 1).Err?
  {
    assert MomentumNames(1)[0] == "jx";
    assert Names(D1Q3Transform) == ["rho", "j", "e"];
    assert "jx" != "rho" && "jx" != "j" && "jx" != "e";
  }

  /** BGK relaxation of moment `k` towards equilibrium with relaxation time `tau`. */
  function Relaxed(tau: real, mk: real, meqk: real): (r: real)
    requires tau != 0.0
    ensures mk == meqk ==> r == mk
  {
    mk - 1.0 / tau * (mk - meqk)
  }

  /** Entry `k` before the momenta are pinned: the density relaxes with `tau + 1`, the rest with `tau`. */
  function Untouched(tau: real, m: seq<real>, meq: seq<real>, k: nat): real
    requires tau != 0.0 && tau + 1.0 != 0.0 && |m| == |meq| && k < |m|
  {
    if k == 0 then Relaxed(tau + 1.0, m[0], meq[0]) else Relaxed(tau, m[k], meq[k])
  }

  /** `rho * u`, componentwise. */
  function Scale(rho: real, u: seq<real>): (r: seq<real>)
    ensures |r| == |u| && forall k :: 0 <= k < |u| ==> r[k] == rho * u[k]
  {
    seq(|u|, k requires 0 <= k < |u| => rho * u[k])
  }

  /** `k` is none of the first `j` indices. */
  predicate NotAmong(k: nat, indices: seq<nat>, j: nat)
    requires j <= |indices|
  {
    forall i :: 0 <= i < j ==> indices[i] != k
  }

  /** One cell of `__call__` in moment space: relax, relax the density with `tau + 1`, then pin the momenta. */
  method Relax(tau: real, m: seq<real>, meq: seq<real>, rho: real, u: seq<real>, indices: seq<nat>)
    returns (mnew: seq<real>)
    requires |m| == |meq| && |m| >= 1
    requires tau != 0.0 && tau + 1.0 != 0.0
    requires |u| == |indices| && Distinct(indices)
    requires forall k :: 0 <= k < |indices| ==> indices[k] < |m|
    ensures |mnew| == |m|
    ensures forall k :: 0 <= k < |indices| ==> mnew[indices[k]] == rho * u[k]
    ensures 0 !in indices ==> mnew[0] == Relaxed(tau + 1.0, m[0], meq[0])
    ensures forall k :: 1 <= k < |m| && k !in indices ==> mnew[k] == Relaxed(tau, m[k], meq[k])
  {
    var a := new real[|m|](k requires 0 <= k < |m| => Relaxed(tau, m[k], meq[k]));
    a[0] := Relaxed(tau + 1.0, m[0], meq[0]);
    assert forall k :: 0 <= k < |m| ==> a[k] == Untouched(tau, m, meq, k);
    var momentum := Scale(rho, u);
    var j := 0;
    while j < |indices|
      invariant 0 <= j <= |indices|
      invariant forall k :: 0 <= k < j ==> a[indices[k]] == momentum[k]
      invariant forall k :: 0 <= k < |m| && NotAmong(k, indices, j) ==> a[k] == Untouched(tau, m, meq, k)
    {
      a[indices[j]] := momentum[j];
      j := j + 1;
    }
    mnew := a[..];
  }

  /** `__call__` on one cell: relax in moment space and return to populations. The moments of the result
   *  are the relaxed moments, with the momenta pinned to `rho * u`. */
  method Call(b: BgkInitialization, f: seq<real>, feq: seq<real>, rho: real) returns (fnew: seq<real>)
    requires b.transform.Base? || |f| == Size(b.transform)
    requires |feq| == |f| && |f| >= 1
    requires b.tau != 0.0 && b.tau + 1.0 != 0.0
    requires |b.u| == |b.momentumIndices| && Distinct(b.momentumIndices)
    requires forall k :: 0 <= k < |b.momentumIndices| ==> b.momentumIndices[k] < |f|
    ensures |fnew| == |f|
    ensures forall k :: 0 <= k < |b.momentumIndices| ==>
      Transform(b.transform, fnew)[b.momentumIndices[k]] == rho * b.u[k]
    ensures 0 !in b.momentumIndices ==>
      var m, meq := Transform(b.transform, f), Transform(b.transform, feq);
      Transform(b.transform, fnew)[0] == Relaxed(b.tau + 1.0, m[0], meq[0])
    ensures forall k :: 1 <= k < |f| && k !in b.momentumIndices ==>
      var m, meq := Transform(b.transform, f), Transform(b.transform, feq);
      Transform(b.transform, fnew)[k] == Relaxed(b.tau, m[k], meq[k])
  {
    var m := Transform(b.transform, f);
    var meq := Transform(b.transform, feq);
    var mnew := Relax(b.tau, m, meq, rho, b.u, b.momentumIndices);
    fnew := InverseTransform(b.transform, mnew);
    InverseRoundTrip(b.transform, mnew);
  }
}
