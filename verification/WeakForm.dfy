/** The nodal right-hand side is the weak form: paired with any nodal velocities it gives the power of stress, body
    force and boundary loads along the interpolated velocity. This determines every nodal entry. */
module WeakForm {
  import opened Vectors
  import opened FESplitForces

  /** The power of nodal forces along nodal velocities. */
  ghost function Pairing(g: seq<Vec3>, v: seq<Vec3>): real
    requires |g| == |v|
  {
    if g == [] then 0.0 else Pairing(g[..|g| - 1], v[..|g| - 1]) + Dot(v[|g| - 1], g[|g| - 1])
  }

  /** The velocities of an element's nodes. */
  function AtNodes(v: seq<Vec3>, dofs: seq<nat>): (r: seq<Vec3>)
    requires forall k :: 0 <= k < |dofs| ==> dofs[k] < |v|
    ensures |r| == |dofs| && forall k :: 0 <= k < |dofs| ==> r[k] == v[dofs[k]]
  {
    seq(|dofs|, k requires 0 <= k < |dofs| => v[dofs[k]])
  }

  /** The interpolated velocity at a quadrature point, and its gradient by rows. */
  ghost function Interpolated(phi: seq<real>, v: seq<Vec3>): Vec3
    requires |phi| == |v|
  {
    if phi == [] then ZERO
    else Add(Interpolated(phi[..|phi| - 1], v[..|phi| - 1]), Scale(phi[|phi| - 1], v[|phi| - 1]))
  }

  ghost function Gradient(dphi: seq<Vec3>, v: seq<Vec3>): Mat3
    requires |dphi| == |v|
  {
    if dphi == [] then ZERO_MAT
    else MatAdd(Gradient(dphi[..|dphi| - 1], v[..|dphi| - 1]), Outer(v[|dphi| - 1], dphi[|dphi| - 1]))
  }

  function Outer(a: Vec3, b: Vec3): Mat3 {
    Mat3(Scale(a.x, b), Scale(a.y, b), Scale(a.z, b))
  }

  /** The sum of the products of corresponding entries. */
  function Contract(a: Mat3, b: Mat3): real {
    Dot(a.r0, b.r0) + Dot(a.r1, b.r1) + Dot(a.r2, b.r2)
  }

  /** A quantity at a quadrature point with the point's weight. */
  function Weighed(w: real, a: real): real {
    w * a
  }

  // ---------------------------------------------------------- the weak form

  /** The power at a quadrature point inside an element: the stress works against the velocity gradient, the body force
      with the velocity. */
  ghost function PointPower(q: InteriorPoint, opt: Options, v: seq<Vec3>): real
    requires |q.phi| == |q.dphi| == |v|
  {
    (if opt.hasStress then -Weighed(q.JxW, Contract(q.stress, Gradient(q.dphi, v))) else 0.0)
    + (if opt.hasBody then Weighed(q.JxW, Dot(Interpolated(q.phi, v), q.body)) else 0.0)
  }

  /** The load on a point of a physical side. Where forces are split it is the traction of the stress, or its normal
      part under jump conditions, except on Dirichlet sides; where they are not, it is the traction on Dirichlet sides
      and the surface force less the pressure on the others. */
  function BoundaryLoad(s: Side, q: FacePoint, opt: Options): Vec3 {
    var traction := Apply(q.stress, q.normal);
    if !s.physical then ZERO
    else if opt.split then
      if s.dirichlet || !opt.hasStress then ZERO
      else if opt.jumps then Scale(Dot(traction, q.n), q.n)
      else traction
    else if s.dirichlet then
      if opt.hasStress then traction else ZERO
    else
      Sub(if opt.hasSurface then q.surface else ZERO,
          if opt.hasPressure then Scale(q.pressure * q.J, q.cofactor) else ZERO)
  }

  ghost function PointsPower(points: seq<InteriorPoint>, opt: Options, v: seq<Vec3>, n: nat): real
    requires n <= |points| && forall q :: 0 <= q < |points| ==> |points[q].phi| == |points[q].dphi| == |v|
  {
    if n == 0 then 0.0 else PointsPower(points, opt, v, n - 1) + PointPower(points[n - 1], opt, v)
  }

  ghost function SidePower(s: Side, opt: Options, v: seq<Vec3>, n: nat): real
    requires SideFits(s, |v|) && n <= |s.points|
  {
    if n == 0 then 0.0
    else
      var q := s.points[n - 1];
      SidePower(s, opt, v, n - 1) + Weighed(q.JxW, Dot(Interpolated(q.phi, v), BoundaryLoad(s, q, opt)))
  }

  ghost function SidesPower(sides: seq<Side>, opt: Options, v: seq<Vec3>, n: nat): real
    requires n <= |sides| && forall m :: 0 <= m < |sides| ==> SideFits(sides[m], |v|)
  {
    if n == 0 then 0.0
    else SidesPower(sides, opt, v, n - 1) + SidePower(sides[n - 1], opt, v, |sides[n - 1].points|)
  }

  ghost function ElementPower(e: Elem, opt: Options, v: seq<Vec3>): real
    requires ElemFits(e, |v|)
  {
    var mine := AtNodes(v, e.dofs);
    PointsPower(e.points, opt, mine, |e.points|) + SidesPower(e.sides, opt, mine, |e.sides|)
  }

  ghost function MeshPower(es: seq<Elem>, opt: Options, v: seq<Vec3>, n: nat): real
    requires MeshFits(es, |v|) && n <= |es|
  {
    if n == 0 then 0.0
    else
      assert ElemFits(es[n - 1], |v|);
      MeshPower(es, opt, v, n - 1) + ElementPower(es[n - 1], opt, v)
  }

  // ------------------------------------------------------------- the pairing

  lemma {:induction false} PairingAdds(a: seq<Vec3>, b: seq<Vec3>, v: seq<Vec3>)
    requires |a| == |b| == |v|
    ensures Pairing(AddVec(a, b), v) == Pairing(a, v) + Pairing(b, v)
  {
    if a != [] {
      var n := |a| - 1;
      PairingAdds(a[..n], b[..n], v[..n]);
      assert AddVec(a, b)[..n] == AddVec(a[..n], b[..n]);
      DotLinear(1.0, a[n], b[n], v[n]);
    }
  }

  lemma {:induction false} PairingZeros(n: nat, v: seq<Vec3>)
    requires |v| == n
    ensures Pairing(Zeros(n), v) == 0.0
  {
    if n > 0 {
      PairingZeros(n - 1, v[..n - 1]);
      assert Zeros(n)[..n - 1] == Zeros(n - 1);
      DotZero(v[n - 1]);
    }
  }

  lemma ShapedTerm(phi: real, w: real, f: Vec3, u: Vec3, v: Vec3)
    ensures Weighed(w, Dot(Add(u, Scale(phi, v)), f)) == Weighed(w, Dot(u, f)) + Dot(v, ShapeForce(phi, w, f))
  {
    DotLinear(phi, u, Scale(phi, v), f);
    DotLinear(phi, v, v, f);
    DotLinear(phi * w, f, f, v);
    DotCommutes(v, f);
    ThreeFactors(w, phi, Dot(u, f), Dot(v, f));
  }

  lemma ThreeFactors(w: real, phi: real, a: real, b: real)
    ensures w * (a + phi * b) == w * a + (phi * w) * b
  {
  }

  lemma NoPower(w: real, u: Vec3)
    ensures Weighed(w, Dot(u, ZERO)) == 0.0 == Weighed(w, Dot(ZERO, u))
  {
    DotZero(u);
  }

  lemma {:induction false} PairingShaped(phi: seq<real>, w: real, f: Vec3, v: seq<Vec3>)
    requires |phi| == |v|
    ensures Pairing(Shaped(phi, w, f), v) == Weighed(w, Dot(Interpolated(phi, v), f))
  {
    if phi == [] {
      NoPower(w, f);
    } else {
      var n := |phi| - 1;
      PairingShaped(phi[..n], w, f, v[..n]);
      assert Shaped(phi, w, f)[..n] == Shaped(phi[..n], w, f);
      ShapedTerm(phi[n], w, f, Interpolated(phi[..n], v[..n]), v[n]);
    }
  }

  lemma ContractOuter(s: Mat3, g: Mat3, v: Vec3, d: Vec3)
    ensures Contract(s, MatAdd(g, Outer(v, d))) == Contract(s, g) + Dot(v, Apply(s, d))
  {
    RowOuter(s.r0, g.r0, v.x, d);
    RowOuter(s.r1, g.r1, v.y, d);
    RowOuter(s.r2, g.r2, v.z, d);
  }

  lemma RowOuter(s: Vec3, g: Vec3, k: real, d: Vec3)
    ensures Dot(s, Add(g, Scale(k, d))) == Dot(s, g) + k * Dot(s, d)
  {
    DotLinear(k, g, Scale(k, d), s);
    DotLinear(k, d, d, s);
    DotCommutes(s, d);
  }

  lemma StressTerm(w: real, s: Mat3, d: Vec3, v: Vec3)
    ensures Dot(v, Scale(w, Neg(Apply(s, d)))) == -Weighed(w, Dot(v, Apply(s, d)))
  {
    var f := Apply(s, d);
    DotLinear(w, Neg(f), Neg(f), v);
    DotNeg(v, f);
  }

  lemma {:induction false} PairingStressed(dphi: seq<Vec3>, w: real, s: Mat3, v: seq<Vec3>)
    requires |dphi| == |v|
    ensures Pairing(Stressed(dphi, w, s), v) == -Weighed(w, Contract(s, Gradient(dphi, v)))
  {
    if dphi == [] {
      NoGradient(w, s);
    } else {
      var n := |dphi| - 1;
      PairingStressed(dphi[..n], w, s, v[..n]);
      assert Stressed(dphi, w, s)[..n] == Stressed(dphi[..n], w, s);
      ContractOuter(s, Gradient(dphi[..n], v[..n]), v[n], dphi[n]);
      StressTerm(w, s, dphi[n], v[n]);
      Distributed(w, Contract(s, Gradient(dphi[..n], v[..n])), Dot(v[n], Apply(s, dphi[n])));
    }
  }

  lemma Distributed(w: real, a: real, b: real)
    ensures Weighed(w, a + b) == Weighed(w, a) + Weighed(w, b)
  {
  }

  lemma NoGradient(w: real, s: Mat3)
    ensures Weighed(w, Contract(s, ZERO_MAT)) == 0.0
  {
    DotZero(s.r0);
    DotZero(s.r1);
    DotZero(s.r2);
  }

  lemma PairingPoint(g: seq<Vec3>, q: InteriorPoint, opt: Options, v: seq<Vec3>)
    requires |g| == |q.phi| == |q.dphi| == |v|
    ensures Pairing(AfterPoint(g, q, opt), v) == Pairing(g, v) + PointPower(q, opt, v)
  {
    var h := if opt.hasStress then AddVec(g, Stressed(q.dphi, q.JxW, q.stress)) else g;
    if opt.hasStress {
      PairingAdds(g, Stressed(q.dphi, q.JxW, q.stress), v);
      PairingStressed(q.dphi, q.JxW, q.stress, v);
    }
    if opt.hasBody {
      PairingAdds(h, Shaped(q.phi, q.JxW, q.body), v);
      PairingShaped(q.phi, q.JxW, q.body, v);
    }
  }

  lemma {:induction false} PairingPoints(e: Elem, opt: Options, n: nat, nodes: nat, v: seq<Vec3>)
    requires ElemFits(e, nodes) && n <= |e.points| && |v| == |e.dofs|
    ensures Pairing(AfterPoints(e, opt, n, nodes), v) == PointsPower(e.points, opt, v, n)
  {
    if n == 0 {
      PairingZeros(|e.dofs|, v);
    } else {
      PairingPoints(e, opt, n - 1, nodes, v);
      PairingPoint(AfterPoints(e, opt, n - 1, nodes), e.points[n - 1], opt, v);
    }
  }

  // ---------------------------------------------------------------- the sides

  lemma OnlyPulled(p: Parts)
    requires !p.transmits && !p.normalOnly
    ensures Resultant(p) == Sub(If(p.pulls, p.surface), If(p.presses, p.pressure))
  {
    SurfaceLessPressure(If(p.presses, p.pressure), If(p.pulls, p.surface));
  }

  lemma SurfaceLessPressure(p: Vec3, u: Vec3)
    ensures Add(Sub(ZERO, p), u) == Sub(u, p)
  {
  }

  lemma SplitLoad(s: Side, q: FacePoint, opt: Options)
    requires s.physical && opt.split
    ensures FaceForce(s, q, opt) == BoundaryLoad(s, q, opt)
  {
    var p := FaceParts(s, q, opt);
    if s.dirichlet || !opt.hasStress {
      NoParts(p);
    } else if opt.jumps {
      JumpParts(p.(normalOnly := false), p);
    } else {
      OnlyTransmission(p);
    }
  }

  lemma UnsplitLoad(s: Side, q: FacePoint, opt: Options)
    requires s.physical && !opt.split
    ensures FaceForce(s, q, opt) == BoundaryLoad(s, q, opt)
  {
    var p := FaceParts(s, q, opt);
    if !s.dirichlet {
      OnlyPulled(p);
    } else if opt.hasStress {
      OnlyTransmission(p);
    } else {
      NoParts(p);
    }
  }

  /** What the code adds up at a point of a physical side is the boundary load. */
  lemma LoadIsBoundary(s: Side, q: FacePoint, opt: Options)
    requires s.physical
    ensures FaceForce(s, q, opt) == BoundaryLoad(s, q, opt)
  {
    if opt.split {
      SplitLoad(s, q, opt);
    } else {
      UnsplitLoad(s, q, opt);
    }
  }

  ghost predicate GivesLoads(s: Side, opt: Options, force: FacePoint -> Vec3) {
    forall q :: 0 <= q < |s.points| ==> force(s.points[q]) == BoundaryLoad(s, s.points[q], opt)
  }

  lemma PointsGiveLoads(s: Side, opt: Options)
    requires s.physical
    ensures GivesLoads(s, opt, PointForce(s, opt))
  {
    forall q | 0 <= q < |s.points| ensures PointForce(s, opt)(s.points[q]) == BoundaryLoad(s, s.points[q], opt) {
      LoadIsBoundary(s, s.points[q], opt);
    }
  }

  lemma {:induction false} PairingSide(g: seq<Vec3>, s: Side, opt: Options, force: FacePoint -> Vec3, n: nat,
                                       v: seq<Vec3>)
    requires SideFits(s, |g|) && n <= |s.points| && |v| == |g| && GivesLoads(s, opt, force)
    ensures Pairing(AfterSide(g, s, force, n), v) == Pairing(g, v) + SidePower(s, opt, v, n)
  {
    if n > 0 {
      var q := s.points[n - 1];
      PairingSide(g, s, opt, force, n - 1, v);
      PairingAdds(AfterSide(g, s, force, n - 1), Shaped(q.phi, q.JxW, force(q)), v);
      PairingShaped(q.phi, q.JxW, force(q), v);
    }
  }

  /** A side that is skipped has no power. */
  lemma {:induction false} SkippedPower(s: Side, opt: Options, n: nat, v: seq<Vec3>)
    requires SideFits(s, |v|) && n <= |s.points| && Skipped(s, opt)
    ensures SidePower(s, opt, v, n) == 0.0
  {
    if n > 0 {
      var q := s.points[n - 1];
      SkippedPower(s, opt, n - 1, v);
      if s.physical {
        SkippedPoint(s, q, opt);
        LoadIsBoundary(s, q, opt);
      }
      NoPower(q.JxW, Interpolated(q.phi, v));
    }
  }

  lemma {:induction false} PairingSides(e: Elem, opt: Options, n: nat, nodes: nat, v: seq<Vec3>)
    requires ElemFits(e, nodes) && n <= |e.sides| && |v| == |e.dofs|
    ensures Pairing(AfterSides(e, opt, n, nodes), v)
         == PointsPower(e.points, opt, v, |e.points|) + SidesPower(e.sides, opt, v, n)
  {
    if n == 0 {
      PairingPoints(e, opt, |e.points|, nodes, v);
    } else {
      var s := e.sides[n - 1];
      PairingSides(e, opt, n - 1, nodes, v);
      if Skipped(s, opt) {
        SkippedPower(s, opt, |s.points|, v);
      } else {
        PointsGiveLoads(s, opt);
        PairingSide(AfterSides(e, opt, n - 1, nodes), s, opt, PointForce(s, opt), |s.points|, v);
      }
    }
  }

  // --------------------------------------------------------------- the mesh

  lemma {:induction false} PairingUpdate(a: seq<Vec3>, i: nat, f: Vec3, v: seq<Vec3>)
    requires i < |a| == |v|
    ensures Pairing(a[i := Add(a[i], f)], v) == Pairing(a, v) + Dot(v[i], f)
  {
    var n := |a| - 1;
    if i == n {
      assert a[i := Add(a[i], f)][..n] == a[..n];
      DotLinear(1.0, a[n], f, v[n]);
    } else {
      PairingUpdate(a[..n], i, f, v[..n]);
      assert a[i := Add(a[i], f)][..n] == a[..n][i := Add(a[i], f)];
    }
  }

  lemma {:induction false} PairingScattered(rhs: seq<Vec3>, dofs: seq<nat>, g: seq<Vec3>, n: nat, v: seq<Vec3>,
                                            mine: seq<Vec3>)
    requires n <= |dofs| == |g| && |v| == |rhs| && forall k :: 0 <= k < |dofs| ==> dofs[k] < |rhs|
    requires mine == AtNodes(v, dofs)
    ensures Pairing(Scattered(rhs, dofs, g, n), v) == Pairing(rhs, v) + Pairing(g[..n], mine[..n])
  {
    if n > 0 {
      PairingScattered(rhs, dofs, g, n - 1, v, mine);
      PairingUpdate(Scattered(rhs, dofs, g, n - 1), dofs[n - 1], g[n - 1], v);
      assert g[..n][..n - 1] == g[..n - 1] && mine[..n][..n - 1] == mine[..n - 1];
    }
  }

  lemma PairingElement(rhs: seq<Vec3>, e: Elem, opt: Options, v: seq<Vec3>)
    requires ElemFits(e, |rhs|) && |v| == |rhs|
    ensures Pairing(Scattered(rhs, e.dofs, ElementRhs(e, opt, |rhs|), |e.dofs|), v)
         == Pairing(rhs, v) + ElementPower(e, opt, v)
  {
    var g, mine := ElementRhs(e, opt, |rhs|), AtNodes(v, e.dofs);
    PairingScattered(rhs, e.dofs, g, |e.dofs|, v, mine);
    assert g[..|e.dofs|] == g && mine[..|e.dofs|] == mine;
    PairingSides(e, opt, |e.sides|, |rhs|, mine);
  }

  /** Along any nodal velocities the assembled right-hand side has the power of the weak form. */
  lemma {:induction false} AssembledIsWeakForm(es: seq<Elem>, opt: Options, nodes: nat, n: nat, v: seq<Vec3>)
    requires MeshFits(es, nodes) && n <= |es| && |v| == nodes
    ensures Pairing(Assembled(es, opt, nodes, n), v) == MeshPower(es, opt, v, n)
  {
    if n == 0 {
      PairingZeros(nodes, v);
    } else {
      AssembledIsWeakForm(es, opt, nodes, n - 1, v);
      assert ElemFits(es[n - 1], nodes);
      PairingElement(Assembled(es, opt, nodes, n - 1), es[n - 1], opt, v);
    }
  }
}
