/** IBFEMethod's two ways of putting elastic forces on the grid: all of it in the nodal right-hand side,
    or with the transmission force on the boundary split off and spread by itself. What the stress, body,
    pressure and surface functions return at a quadrature point is given. */
module FESplitForces {
  import opened Vectors

  datatype InteriorPoint = InteriorPoint(JxW: real, phi: seq<real>, dphi: seq<Vec3>, stress: Mat3, body: Vec3)

  /** `cofactor` is the inverse transpose of the deformation gradient applied to the normal, `n` its unit vector. */
  datatype FacePoint = FacePoint(JxW: real, phi: seq<real>, stress: Mat3, normal: Vec3, J: real, cofactor: Vec3,
                                 n: Vec3, pressure: real, surface: Vec3)

  datatype Side = Side(physical: bool, dirichlet: bool, points: seq<FacePoint>)

  datatype Elem = Elem(dofs: seq<nat>, points: seq<InteriorPoint>, sides: seq<Side>)

  /** Which force functions are registered, and how boundary forces are treated. */
  datatype Options = Options(split: bool, jumps: bool, hasStress: bool, hasBody: bool, hasPressure: bool,
                             hasSurface: bool)

  predicate ElemFits(e: Elem, nodes: nat) {
    && (forall k :: 0 <= k < |e.dofs| ==> e.dofs[k] < nodes)
    && (forall q :: 0 <= q < |e.points| ==> |e.points[q].phi| == |e.points[q].dphi| == |e.dofs|)
    && (forall s :: 0 <= s < |e.sides| ==> SideFits(e.sides[s], |e.dofs|))
  }

  predicate SideFits(s: Side, basis: nat) {
    forall q :: 0 <= q < |s.points| ==> |s.points[q].phi| == basis
  }

  predicate MeshFits(es: seq<Elem>, nodes: nat) {
    forall k :: 0 <= k < |es| ==> ElemFits(es[k], nodes)
  }

  // ------------------------------------------------------------ point forces

  function PressureForce(q: FacePoint): Vec3 {
    Scale(q.pressure * q.J, q.cofactor)
  }

  /** Whether a side's transmission force, pressure and surface force go into the right-hand side. */
  predicate Transmits(s: Side, opt: Options) {
    opt.hasStress && (if opt.split then !s.dirichlet else s.dirichlet)
  }

  predicate Presses(s: Side, opt: Options) {
    opt.hasPressure && !opt.split && !s.dirichlet
  }

  predicate Pulls(s: Side, opt: Options) {
    opt.hasSurface && !opt.split && !s.dirichlet
  }

  /** The normal part of a force. */
  function NormalPart(f: Vec3, n: Vec3): Vec3 {
    Scale(Dot(f, n), n)
  }

  /** What a boundary force is made of: each contribution with whether it is wanted. */
  datatype Parts = Parts(transmits: bool, transmission: Vec3, presses: bool, pressure: Vec3, pulls: bool, surface: Vec3,
                         normalOnly: bool, n: Vec3)

  function If(wanted: bool, f: Vec3): Vec3 {
    if wanted then f else ZERO
  }

  /** Transmission force, less pressure, plus surface force. */
  function Combined(p: Parts): Vec3 {
    Add(Sub(If(p.transmits, p.transmission), If(p.presses, p.pressure)), If(p.pulls, p.surface))
  }

  function Resultant(p: Parts): Vec3 {
    if p.normalOnly then NormalPart(Combined(p), p.n) else Combined(p)
  }

  /** With jump conditions only the normal part of a transmission force stays in the right-hand side. */
  function FaceParts(s: Side, q: FacePoint, opt: Options): Parts {
    Parts(Transmits(s, opt), Apply(q.stress, q.normal), Presses(s, opt), PressureForce(q), Pulls(s, opt), q.surface,
          opt.split && opt.jumps && !s.dirichlet, q.n)
  }

  function FaceForce(s: Side, q: FacePoint, opt: Options): Vec3 {
    Resultant(FaceParts(s, q, opt))
  }

  function PointForce(s: Side, opt: Options): FacePoint -> Vec3 {
    (q: FacePoint) => FaceForce(s, q, opt)
  }

  /** A side is skipped if it is not physical or needs no force. */
  predicate Skipped(s: Side, opt: Options) {
    !s.physical || !(Transmits(s, opt) || Presses(s, opt) || Pulls(s, opt))
  }

  // ------------------------------------------------------------ nodal vectors

  /** The sum over all basis functions or nodes. */
  function SumVec(a: seq<Vec3>): Vec3 {
    if a == [] then ZERO else Add(SumVec(a[..|a| - 1]), a[|a| - 1])
  }

  lemma Shuffle(a: Vec3, b: Vec3, c: Vec3, d: Vec3)
    ensures Add(Add(a, b), Add(c, d)) == Add(Add(a, c), Add(b, d))
  {
  }

  lemma {:induction false} SumAddVec(a: seq<Vec3>, b: seq<Vec3>)
    requires |a| == |b|
    ensures SumVec(AddVec(a, b)) == Add(SumVec(a), SumVec(b))
  {
    if a != [] {
      var n := |a| - 1;
      SumAddVec(a[..n], b[..n]);
      assert AddVec(a, b)[..n] == AddVec(a[..n], b[..n]);
      Shuffle(SumVec(a[..n]), SumVec(b[..n]), a[n], b[n]);
    }
  }

  lemma {:induction false} SumZeros(n: nat)
    ensures SumVec(Zeros(n)) == ZERO
  {
    if n > 0 {
      SumZeros(n - 1);
      assert Zeros(n)[..n - 1] == Zeros(n - 1);
    }
  }

  /** A force distributed by the basis functions, and the stress force of every basis function. */
  function ShapeForce(phi: real, JxW: real, f: Vec3): Vec3 {
    Scale(phi * JxW, f)
  }

  function Shaped(phi: seq<real>, JxW: real, f: Vec3): (r: seq<Vec3>)
    ensures |r| == |phi| && forall k :: 0 <= k < |phi| ==> r[k] == ShapeForce(phi[k], JxW, f)
  {
    seq(|phi|, k requires 0 <= k < |phi| => ShapeForce(phi[k], JxW, f))
  }

  function Stressed(dphi: seq<Vec3>, JxW: real, stress: Mat3): (r: seq<Vec3>)
    ensures |r| == |dphi| && forall k :: 0 <= k < |dphi| ==> r[k] == Scale(JxW, Neg(Apply(stress, dphi[k])))
  {
    seq(|dphi|, k requires 0 <= k < |dphi| => Scale(JxW, Neg(Apply(stress, dphi[k]))))
  }

  function AfterPoint(g: seq<Vec3>, q: InteriorPoint, opt: Options): (r: seq<Vec3>)
    requires |g| == |q.phi| == |q.dphi|
    ensures |r| == |g|
  {
    var h := if opt.hasStress then AddVec(g, Stressed(q.dphi, q.JxW, q.stress)) else g;
    if opt.hasBody then AddVec(h, Shaped(q.phi, q.JxW, q.body)) else h
  }

  function AfterPoints(e: Elem, opt: Options, n: nat, nodes: nat): (g: seq<Vec3>)
    requires ElemFits(e, nodes) && n <= |e.points|
    ensures |g| == |e.dofs|
  {
    if n == 0 then Zeros(|e.dofs|) else AfterPoint(AfterPoints(e, opt, n - 1, nodes), e.points[n - 1], opt)
  }

  /** The loop over the first `n` quadrature points of a side. */
  function AfterSide(g: seq<Vec3>, s: Side, force: FacePoint -> Vec3, n: nat): (r: seq<Vec3>)
    requires SideFits(s, |g|) && n <= |s.points|
    ensures |r| == |g|
  {
    if n == 0 then g
    else AddVec(AfterSide(g, s, force, n - 1), Shaped(s.points[n - 1].phi, s.points[n - 1].JxW, force(s.points[n - 1])))
  }

  function AfterSides(e: Elem, opt: Options, n: nat, nodes: nat): (g: seq<Vec3>)
    requires ElemFits(e, nodes) && n <= |e.sides|
    ensures |g| == |e.dofs|
  {
    if n == 0 then AfterPoints(e, opt, |e.points|, nodes)
    else if Skipped(e.sides[n - 1], opt) then AfterSides(e, opt, n - 1, nodes)
    else AfterSide(AfterSides(e, opt, n - 1, nodes), e.sides[n - 1], PointForce(e.sides[n - 1], opt),
                   |e.sides[n - 1].points|)
  }

  /** The element's contribution to the right-hand side. */
  function ElementRhs(e: Elem, opt: Options, nodes: nat): (g: seq<Vec3>)
    requires ElemFits(e, nodes)
    ensures |g| == |e.dofs|
  {
    AfterSides(e, opt, |e.sides|, nodes)
  }

  function Scattered(rhs: seq<Vec3>, dofs: seq<nat>, g: seq<Vec3>, n: nat): (r: seq<Vec3>)
    requires n <= |dofs| == |g| && forall k :: 0 <= k < |dofs| ==> dofs[k] < |rhs|
    ensures |r| == |rhs|
  {
    if n == 0 then rhs
    else
      var h := Scattered(rhs, dofs, g, n - 1);
      h[dofs[n - 1] := Add(h[dofs[n - 1]], g[n - 1])]
  }

  function Assembled(es: seq<Elem>, opt: Options, nodes: nat, n: nat): (r: seq<Vec3>)
    requires MeshFits(es, nodes) && n <= |es|
    ensures |r| == nodes
  {
    if n == 0 then Zeros(nodes)
    else Scattered(Assembled(es, opt, nodes, n - 1), es[n - 1].dofs, ElementRhs(es[n - 1], opt, nodes),
                   |es[n - 1].dofs|)
  }

  // ---------------------------------------------------------------- methods

  method AddPoint(g: seq<Vec3>, q: InteriorPoint, opt: Options) returns (r: seq<Vec3>)
    requires |g| == |q.phi| == |q.dphi|
    ensures r == AfterPoint(g, q, opt)
  {
    r := g;
    if opt.hasStress {
      ghost var f := Stressed(q.dphi, q.JxW, q.stress);
      for k := 0 to |g|
        invariant |r| == |g| && forall j :: 0 <= j < |g| ==> r[j] == if j < k then Add(g[j], f[j]) else g[j]
      {
        r := r[k := Add(r[k], Scale(q.JxW, Neg(Apply(q.stress, q.dphi[k]))))];
      }
      assert r == AddVec(g, f);
    }
    if opt.hasBody {
      r := AddShaped(r, q.phi, q.JxW, q.body);
    }
  }

  method AddShaped(g: seq<Vec3>, phi: seq<real>, JxW: real, F: Vec3) returns (r: seq<Vec3>)
    requires |g| == |phi|
    ensures r == AddVec(g, Shaped(phi, JxW, F))
  {
    r := g;
    ghost var f := Shaped(phi, JxW, F);
    for k := 0 to |g|
      invariant |r| == |g| && forall j :: 0 <= j < |g| ==> r[j] == if j < k then Add(g[j], f[j]) else g[j]
    {
      r := r[k := Add(r[k], ShapeForce(phi[k], JxW, F))];
    }
  }

  method CombineForces(p: Parts) returns (F: Vec3)
    ensures F == Combined(p)
  {
    F := ZERO;
    if p.transmits {
      F := Add(F, p.transmission);
    }
    if p.presses {
      F := Sub(F, p.pressure);
    }
    if p.pulls {
      F := Add(F, p.surface);
    }
  }

  method ComputeFaceForce(p: Parts) returns (F: Vec3)
    ensures F == Resultant(p)
  {
    F := CombineForces(p);
    if p.normalOnly {
      F := NormalPart(F, p.n);
    }
  }

  method ComputeElementRhs(e: Elem, opt: Options, ghost nodes: nat) returns (g: seq<Vec3>)
    requires ElemFits(e, nodes)
    ensures g == ElementRhs(e, opt, nodes)
  {
    g := Zeros(|e.dofs|);
    for q := 0 to |e.points|
      invariant g == AfterPoints(e, opt, q, nodes)
    {
      g := AddPoint(g, e.points[q], opt);
    }
    for n := 0 to |e.sides|
      invariant g == AfterSides(e, opt, n, nodes)
    {
      var s := e.sides[n];
      assert SideFits(s, |e.dofs|);
      if s.physical && (Transmits(s, opt) || Presses(s, opt) || Pulls(s, opt)) {
        g := AddSide(g, s, opt, PointForce(s, opt));
      }
    }
  }

  method AddPointForce(g: seq<Vec3>, s: Side, q: FacePoint, opt: Options, ghost force: FacePoint -> Vec3)
    returns (r: seq<Vec3>)
    requires |g| == |q.phi| && force == PointForce(s, opt)
    ensures r == AddVec(g, Shaped(q.phi, q.JxW, force(q)))
  {
    var F := ComputeFaceForce(FaceParts(s, q, opt));
    r := AddShaped(g, q.phi, q.JxW, F);
  }

  method AddSide(g: seq<Vec3>, s: Side, opt: Options, ghost force: FacePoint -> Vec3) returns (r: seq<Vec3>)
    requires SideFits(s, |g|) && force == PointForce(s, opt)
    ensures r == AfterSide(g, s, force, |s.points|)
  {
    r := g;
    for q := 0 to |s.points|
      invariant r == AfterSide(g, s, force, q)
    {
      r := AddPointForce(r, s, s.points[q], opt, force);
    }
  }

  /** The loop over the elements: the right-hand side before the projection. */
  method ComputeInteriorForceDensity(es: seq<Elem>, opt: Options, nodes: nat) returns (rhs: seq<Vec3>)
    requires MeshFits(es, nodes)
    ensures rhs == Assembled(es, opt, nodes, |es|)
  {
    rhs := Zeros(nodes);
    for n := 0 to |es|
      invariant rhs == Assembled(es, opt, nodes, n)
    {
      assert ElemFits(es[n], nodes);
      var g := ComputeElementRhs(es[n], opt, nodes);
      ghost var before := rhs;
      for k := 0 to |g|
        invariant rhs == Scattered(before, es[n].dofs, g, k)
      {
        var i := es[n].dofs[k];
        rhs := rhs[i := Add(rhs[i], g[k])];
      }
    }
  }

  /** The force a boundary point gives to the grid when forces are split. */
  function SpreadParts(q: FacePoint, opt: Options): Parts {
    Parts(opt.hasStress, Neg(Scale(q.JxW, Apply(q.stress, q.normal))), opt.hasPressure, Scale(q.JxW, PressureForce(q)),
          opt.hasSurface, Scale(q.JxW, q.surface), false, q.n)
  }

  function SpreadForce(opt: Options): FacePoint -> Vec3 {
    (q: FacePoint) => Combined(SpreadParts(q, opt))
  }

  predicate Spreads(s: Side, opt: Options) {
    s.physical && !s.dirichlet && (opt.hasStress || opt.hasPressure || opt.hasSurface)
  }

  function SideSpread(s: Side, force: FacePoint -> Vec3, n: nat): seq<Vec3>
    requires n <= |s.points|
  {
    if n == 0 then [] else SideSpread(s, force, n - 1) + [force(s.points[n - 1])]
  }

  function SpreadList(opt: Options): Side -> seq<Vec3> {
    (s: Side) => if Spreads(s, opt) then SideSpread(s, SpreadForce(opt), |s.points|) else []
  }

  function ElemSpread(sides: seq<Side>, list: Side -> seq<Vec3>, n: nat): seq<Vec3>
    requires n <= |sides|
  {
    if n == 0 then [] else ElemSpread(sides, list, n - 1) + list(sides[n - 1])
  }

  function MeshSpread(es: seq<Elem>, list: Side -> seq<Vec3>, n: nat): seq<Vec3>
    requires n <= |es|
  {
    if n == 0 then [] else MeshSpread(es, list, n - 1) + ElemSpread(es[n - 1].sides, list, |es[n - 1].sides|)
  }

  /** The forces handed to the spreading kernel, in order; nothing unless forces are split. */
  method SpreadTransmissionForceDensity(es: seq<Elem>, opt: Options) returns (T: seq<Vec3>)
    ensures T == if opt.split then MeshSpread(es, SpreadList(opt), |es|) else []
  {
    T := [];
    if !opt.split {
      return;
    }
    for m := 0 to |es|
      invariant T == MeshSpread(es, SpreadList(opt), m)
    {
      var mine := [];
      for n := 0 to |es[m].sides|
        invariant mine == ElemSpread(es[m].sides, SpreadList(opt), n)
      {
        var s := es[m].sides[n];
        if s.physical && !s.dirichlet && (opt.hasStress || opt.hasPressure || opt.hasSurface) {
          var side := SpreadSide(s, opt);
          mine := mine + side;
        }
      }
      T := T + mine;
    }
  }

  method SpreadSide(s: Side, opt: Options) returns (T: seq<Vec3>)
    ensures T == SideSpread(s, SpreadForce(opt), |s.points|)
  {
    T := [];
    for k := 0 to |s.points|
      invariant T == SideSpread(s, SpreadForce(opt), k)
    {
      var F := CombineForces(SpreadParts(s.points[k], opt));
      T := T + [F];
    }
  }

  // ------------------------------------------------------------- the identity

  function SumReal(a: seq<real>): real {
    if a == [] then 0.0 else SumReal(a[..|a| - 1]) + a[|a| - 1]
  }

  /** The basis functions sum to one and their gradients to zero at every quadrature point. */
  predicate PartitionOfUnity(e: Elem) {
    && (forall q :: 0 <= q < |e.points| ==> SumReal(e.points[q].phi) == 1.0 && SumVec(e.points[q].dphi) == ZERO)
    && (forall s :: 0 <= s < |e.sides| ==> SideUnity(e.sides[s]))
  }

  predicate SideUnity(s: Side) {
    forall q :: 0 <= q < |s.points| ==> SumReal(s.points[q].phi) == 1.0
  }

  lemma ShapesAdd(a: real, b: real, w: real, f: Vec3)
    ensures Add(ShapeForce(a, w, f), ShapeForce(b, w, f)) == ShapeForce(a + b, w, f)
  {
  }

  lemma {:induction false} SumShaped(phi: seq<real>, JxW: real, f: Vec3)
    ensures SumVec(Shaped(phi, JxW, f)) == ShapeForce(SumReal(phi), JxW, f)
  {
    if phi == [] {
      NoForce(JxW, f);
    } else {
      var n := |phi| - 1;
      SumShaped(phi[..n], JxW, f);
      assert Shaped(phi, JxW, f)[..n] == Shaped(phi[..n], JxW, f);
      ShapesAdd(SumReal(phi[..n]), phi[n], JxW, f);
    }
  }

  lemma NoForce(w: real, f: Vec3)
    ensures ShapeForce(0.0, w, f) == ZERO
  {
  }

  lemma StressLinear(w: real, m: Mat3, a: Vec3, b: Vec3)
    ensures Add(Scale(w, Neg(Apply(m, a))), Scale(w, Neg(Apply(m, b)))) == Scale(w, Neg(Apply(m, Add(a, b))))
  {
    DotLinear(1.0, a, b, m.r0);
    DotLinear(1.0, a, b, m.r1);
    DotLinear(1.0, a, b, m.r2);
    ScaleNegSum(w, Apply(m, a), Apply(m, b), Apply(m, Add(a, b)));
  }

  lemma ScaleNegSum(w: real, a: Vec3, b: Vec3, c: Vec3)
    requires c == Add(a, b)
    ensures Add(Scale(w, Neg(a)), Scale(w, Neg(b))) == Scale(w, Neg(c))
  {
  }

  lemma StressOfZero(w: real, m: Mat3)
    ensures Scale(w, Neg(Apply(m, ZERO))) == ZERO
  {
    assert Apply(m, ZERO) == ZERO;
  }

  lemma {:induction false} SumStressed(dphi: seq<Vec3>, JxW: real, stress: Mat3)
    ensures SumVec(Stressed(dphi, JxW, stress)) == Scale(JxW, Neg(Apply(stress, SumVec(dphi))))
  {
    if dphi == [] {
      StressOfZero(JxW, stress);
    } else {
      var n := |dphi| - 1;
      SumStressed(dphi[..n], JxW, stress);
      assert Stressed(dphi, JxW, stress)[..n] == Stressed(dphi[..n], JxW, stress);
      StressLinear(JxW, stress, SumVec(dphi[..n]), dphi[n]);
    }
  }

  lemma UnitWeight(s: real, w: real, f: Vec3)
    requires s == 1.0
    ensures ShapeForce(s, w, f) == Scale(w, f)
  {
  }

  /** A point's stress force vanishes over all basis functions; its body force keeps its whole weight. */
  lemma PointTotal(g: seq<Vec3>, q: InteriorPoint, opt: Options)
    requires |g| == |q.phi| == |q.dphi| && SumReal(q.phi) == 1.0 && SumVec(q.dphi) == ZERO
    ensures SumVec(AfterPoint(g, q, opt)) == Add(SumVec(g), if opt.hasBody then Scale(q.JxW, q.body) else ZERO)
  {
    var h := if opt.hasStress then AddVec(g, Stressed(q.dphi, q.JxW, q.stress)) else g;
    AddZero(SumVec(g));
    if opt.hasStress {
      SumAddVec(g, Stressed(q.dphi, q.JxW, q.stress));
      SumStressed(q.dphi, q.JxW, q.stress);
      StressOfZero(q.JxW, q.stress);
    }
    if opt.hasBody {
      SumAddVec(h, Shaped(q.phi, q.JxW, q.body));
      SumShaped(q.phi, q.JxW, q.body);
      UnitWeight(SumReal(q.phi), q.JxW, q.body);
    }
  }

  /** Body force, Dirichlet transmission, and face forces of a mesh, as totals. */
  function BodyTotal(e: Elem, hasBody: bool, n: nat): Vec3
    requires n <= |e.points|
  {
    if n == 0 then ZERO
    else Add(BodyTotal(e, hasBody, n - 1), if hasBody then Scale(e.points[n - 1].JxW, e.points[n - 1].body) else ZERO)
  }

  function FaceTotal(s: Side, force: FacePoint -> Vec3, n: nat): Vec3
    requires n <= |s.points|
  {
    if n == 0 then ZERO else Add(FaceTotal(s, force, n - 1), Scale(s.points[n - 1].JxW, force(s.points[n - 1])))
  }

  /** What a side adds to the total of the right-hand side. */
  function SideShare(s: Side, opt: Options): Vec3 {
    if Skipped(s, opt) then ZERO else FaceTotal(s, PointForce(s, opt), |s.points|)
  }

  function RhsShare(opt: Options): Side -> Vec3 {
    (s: Side) => SideShare(s, opt)
  }

  function SidesTotal(sides: seq<Side>, share: Side -> Vec3, n: nat): Vec3
    requires n <= |sides|
  {
    if n == 0 then ZERO else Add(SidesTotal(sides, share, n - 1), share(sides[n - 1]))
  }

  lemma {:induction false} PointsTotal(e: Elem, opt: Options, n: nat, nodes: nat)
    requires ElemFits(e, nodes) && PartitionOfUnity(e) && n <= |e.points|
    ensures SumVec(AfterPoints(e, opt, n, nodes)) == BodyTotal(e, opt.hasBody, n)
  {
    if n == 0 {
      SumZeros(|e.dofs|);
    } else {
      PointsTotal(e, opt, n - 1, nodes);
      PointTotal(AfterPoints(e, opt, n - 1, nodes), e.points[n - 1], opt);
    }
  }

  predicate SumsTo(h: seq<Vec3>, start: Vec3, more: Vec3) {
    SumVec(h) == Add(start, more)
  }

  lemma SideStep(h: seq<Vec3>, start: Vec3, before: Vec3, phi: seq<real>, JxW: real, f: Vec3)
    requires SumsTo(h, start, before) && |h| == |phi| && SumReal(phi) == 1.0
    ensures SumsTo(AddVec(h, Shaped(phi, JxW, f)), start, Add(before, Scale(JxW, f)))
  {
    SumAddVec(h, Shaped(phi, JxW, f));
    SumShaped(phi, JxW, f);
    UnitWeight(SumReal(phi), JxW, f);
    AddAssociative(start, before, Scale(JxW, f));
  }

  lemma {:induction false} SideTotal(g: seq<Vec3>, s: Side, force: FacePoint -> Vec3, n: nat)
    requires SideFits(s, |g|) && SideUnity(s) && n <= |s.points|
    ensures SumsTo(AfterSide(g, s, force, n), SumVec(g), FaceTotal(s, force, n))
  {
    if n == 0 {
      AddZero(SumVec(g));
    } else {
      var q := s.points[n - 1];
      SideTotal(g, s, force, n - 1);
      SideStep(AfterSide(g, s, force, n - 1), SumVec(g), FaceTotal(s, force, n - 1), q.phi, q.JxW, force(q));
    }
  }

  lemma {:induction false} ElementSides(e: Elem, opt: Options, n: nat, nodes: nat)
    requires ElemFits(e, nodes) && PartitionOfUnity(e) && n <= |e.sides|
    ensures SumVec(AfterSides(e, opt, n, nodes)) ==
            Add(BodyTotal(e, opt.hasBody, |e.points|), SidesTotal(e.sides, RhsShare(opt), n))
  {
    if n == 0 {
      PointsTotal(e, opt, |e.points|, nodes);
      AddZero(BodyTotal(e, opt.hasBody, |e.points|));
    } else {
      var s := e.sides[n - 1];
      ElementSides(e, opt, n - 1, nodes);
      AddZero(SidesTotal(e.sides, RhsShare(opt), n - 1));
      if !Skipped(s, opt) {
        assert SideFits(s, |e.dofs|) && SideUnity(s);
        SideTotal(AfterSides(e, opt, n - 1, nodes), s, PointForce(s, opt), |s.points|);
        AddAssociative(BodyTotal(e, opt.hasBody, |e.points|), SidesTotal(e.sides, RhsShare(opt), n - 1),
                       FaceTotal(s, PointForce(s, opt), |s.points|));
      }
    }
  }

  lemma {:induction false} SumUpdate(a: seq<Vec3>, i: nat, v: Vec3)
    requires i < |a|
    ensures SumVec(a[i := Add(a[i], v)]) == Add(SumVec(a), v)
  {
    var n := |a| - 1;
    if i == n {
      assert a[i := Add(a[i], v)][..n] == a[..n];
      AddAssociative(SumVec(a[..n]), a[n], v);
    } else {
      SumUpdate(a[..n], i, v);
      assert a[i := Add(a[i], v)][..n] == a[..n][i := Add(a[i], v)];
      Swap(SumVec(a[..n]), v, a[n]);
    }
  }

  lemma Swap(a: Vec3, b: Vec3, c: Vec3)
    ensures Add(Add(a, b), c) == Add(Add(a, c), b)
  {
  }

  lemma {:induction false} ScatterTotal(rhs: seq<Vec3>, dofs: seq<nat>, g: seq<Vec3>, n: nat)
    requires n <= |dofs| == |g| && forall k :: 0 <= k < |dofs| ==> dofs[k] < |rhs|
    ensures SumVec(Scattered(rhs, dofs, g, n)) == Add(SumVec(rhs), SumVec(g[..n]))
  {
    if n == 0 {
      AddZero(SumVec(rhs));
    } else {
      ScatterTotal(rhs, dofs, g, n - 1);
      SumUpdate(Scattered(rhs, dofs, g, n - 1), dofs[n - 1], g[n - 1]);
      assert g[..n][..n - 1] == g[..n - 1];
      AddAssociative(SumVec(rhs), SumVec(g[..n - 1]), g[n - 1]);
    }
  }

  function MeshBody(es: seq<Elem>, hasBody: bool, n: nat): Vec3
    requires n <= |es|
  {
    if n == 0 then ZERO else Add(MeshBody(es, hasBody, n - 1), BodyTotal(es[n - 1], hasBody, |es[n - 1].points|))
  }

  function MeshSides(es: seq<Elem>, share: Side -> Vec3, n: nat): Vec3
    requires n <= |es|
  {
    if n == 0 then ZERO else Add(MeshSides(es, share, n - 1), SidesTotal(es[n - 1].sides, share, |es[n - 1].sides|))
  }

  ghost predicate MeshUnity(es: seq<Elem>) {
    forall k :: 0 <= k < |es| ==> PartitionOfUnity(es[k])
  }

  lemma {:induction false} AssembledTotal(es: seq<Elem>, opt: Options, nodes: nat, n: nat)
    requires MeshFits(es, nodes) && MeshUnity(es) && n <= |es|
    ensures SumsTo(Assembled(es, opt, nodes, n), MeshBody(es, opt.hasBody, n), MeshSides(es, RhsShare(opt), n))
  {
    if n == 0 {
      SumZeros(nodes);
    } else {
      var e := es[n - 1];
      AssembledTotal(es, opt, nodes, n - 1);
      var g := ElementRhs(e, opt, nodes);
      ElementSides(e, opt, |e.sides|, nodes);
      AssembleStep(Assembled(es, opt, nodes, n - 1), e.dofs, g, MeshBody(es, opt.hasBody, n - 1),
                   MeshSides(es, RhsShare(opt), n - 1), BodyTotal(e, opt.hasBody, |e.points|),
                   SidesTotal(e.sides, RhsShare(opt), |e.sides|));
    }
  }

  lemma AssembleStep(rhs: seq<Vec3>, dofs: seq<nat>, g: seq<Vec3>, body: Vec3, sides: Vec3, moreBody: Vec3,
                     moreSides: Vec3)
    requires |dofs| == |g| && forall k :: 0 <= k < |dofs| ==> dofs[k] < |rhs|
    requires SumsTo(rhs, body, sides) && SumsTo(g, moreBody, moreSides)
    ensures SumsTo(Scattered(rhs, dofs, g, |dofs|), Add(body, moreBody), Add(sides, moreSides))
  {
    ScatterTotal(rhs, dofs, g, |dofs|);
    assert g[..|dofs|] == g;
    Shuffle(body, sides, moreBody, moreSides);
  }

  // ---------------------------------------------- split and unsplit agree

  function Unsplit(opt: Options): Options {
    opt.(split := false)
  }

  function Split(opt: Options, jumps: bool): Options {
    opt.(split := true, jumps := jumps)
  }

  /** The force a boundary point spreads, per unit of its weight. */
  function ExteriorParts(q: FacePoint, opt: Options): Parts {
    Parts(opt.hasStress, Neg(Apply(q.stress, q.normal)), opt.hasPressure, PressureForce(q), opt.hasSurface, q.surface,
          false, q.n)
  }

  function Exterior(opt: Options): FacePoint -> Vec3 {
    (q: FacePoint) => Combined(ExteriorParts(q, opt))
  }

  function SpreadShare(opt: Options): Side -> Vec3 {
    (s: Side) => if Spreads(s, opt) then FaceTotal(s, Exterior(opt), |s.points|) else ZERO
  }

  /** The transmission force on physical Dirichlet sides, which the unsplit form alone includes. */
  function Traction(): FacePoint -> Vec3 {
    (q: FacePoint) => Apply(q.stress, q.normal)
  }

  function DirichletShare(opt: Options): Side -> Vec3 {
    (s: Side) => if s.physical && s.dirichlet && opt.hasStress then FaceTotal(s, Traction(), |s.points|) else ZERO
  }

  /** What keeping the normal part alone drops. */
  function Tangential(): FacePoint -> Vec3 {
    (q: FacePoint) => Sub(Apply(q.stress, q.normal), NormalPart(Apply(q.stress, q.normal), q.n))
  }

  function TangentialShare(opt: Options): Side -> Vec3 {
    (s: Side) => if s.physical && !s.dirichlet && opt.hasStress then FaceTotal(s, Tangential(), |s.points|) else ZERO
  }

  lemma ScaleAdd(w: real, a: Vec3, b: Vec3)
    ensures Scale(w, Add(a, b)) == Add(Scale(w, a), Scale(w, b))
  {
  }

  lemma {:induction false} FaceTotalsAdd(s: Side, f: FacePoint -> Vec3, g: FacePoint -> Vec3, h: FacePoint -> Vec3,
                                         n: nat)
    requires n <= |s.points|
    requires forall q :: 0 <= q < |s.points| ==> f(s.points[q]) == Add(g(s.points[q]), h(s.points[q]))
    ensures FaceTotal(s, f, n) == Add(FaceTotal(s, g, n), FaceTotal(s, h, n))
  {
    if n > 0 {
      var q := s.points[n - 1];
      FaceTotalsAdd(s, f, g, h, n - 1);
      ScaleAdd(q.JxW, g(q), h(q));
      Shuffle(FaceTotal(s, g, n - 1), FaceTotal(s, h, n - 1), Scale(q.JxW, g(q)), Scale(q.JxW, h(q)));
    }
  }

  lemma {:induction false} FaceTotalsEqual(s: Side, f: FacePoint -> Vec3, g: FacePoint -> Vec3, n: nat)
    requires n <= |s.points|
    requires forall q :: 0 <= q < |s.points| ==> f(s.points[q]) == g(s.points[q])
    ensures FaceTotal(s, f, n) == FaceTotal(s, g, n)
  {
    if n > 0 {
      FaceTotalsEqual(s, f, g, n - 1);
    }
  }

  lemma {:induction false} NoFaceForce(s: Side, f: FacePoint -> Vec3, n: nat)
    requires n <= |s.points|
    requires forall q :: 0 <= q < |s.points| ==> f(s.points[q]) == ZERO
    ensures FaceTotal(s, f, n) == ZERO
  {
    if n > 0 {
      NoFaceForce(s, f, n - 1);
      assert Scale(s.points[n - 1].JxW, ZERO) == ZERO;
    }
  }

  lemma NoParts(p: Parts)
    requires !p.transmits && !p.presses && !p.pulls
    ensures Resultant(p) == ZERO
  {
    NormalOfZero(p.n);
  }

  lemma NormalOfZero(n: Vec3)
    ensures NormalPart(ZERO, n) == ZERO
  {
  }

  lemma SkippedPoint(s: Side, q: FacePoint, opt: Options)
    requires s.physical && Skipped(s, opt)
    ensures PointForce(s, opt)(q) == ZERO
  {
    NoParts(FaceParts(s, q, opt));
  }

  /** Skipping a physical side skips nothing but zeros. */
  lemma SkippingIsHarmless(s: Side, opt: Options, force: FacePoint -> Vec3)
    requires s.physical && force == PointForce(s, opt)
    ensures SideShare(s, opt) == FaceTotal(s, force, |s.points|)
  {
    if Skipped(s, opt) {
      forall q | 0 <= q < |s.points|
        ensures force(s.points[q]) == ZERO
      {
        SkippedPoint(s, s.points[q], opt);
      }
      NoFaceForce(s, force, |s.points|);
    }
  }

  lemma Rearranged(t: Vec3, minus: Vec3, p: Vec3, u: Vec3)
    requires minus == Neg(t)
    ensures Add(Sub(ZERO, p), u) == Add(Add(Sub(t, ZERO), ZERO), Add(Sub(minus, p), u))
  {
  }

  /** Inside plus spread is what the unsplit form puts inside. */
  lemma PartsSplit(unsplit: Parts, inside: Parts, spread: Parts)
    requires !unsplit.transmits && !inside.presses && !inside.pulls
    requires !unsplit.normalOnly && !inside.normalOnly
    requires spread.transmission == Neg(inside.transmission)
    requires unsplit.pressure == spread.pressure && unsplit.surface == spread.surface
    requires inside.transmits == spread.transmits && unsplit.presses == spread.presses && unsplit.pulls == spread.pulls
    ensures Resultant(unsplit) == Add(Resultant(inside), Combined(spread))
  {
    PartsSplitWith(unsplit, inside, spread, If(inside.transmits, inside.transmission),
                   If(spread.transmits, spread.transmission), If(spread.presses, spread.pressure),
                   If(spread.pulls, spread.surface));
  }

  lemma PartsSplitWith(unsplit: Parts, inside: Parts, spread: Parts, t: Vec3, minus: Vec3, p: Vec3, u: Vec3)
    requires !unsplit.transmits && !inside.presses && !inside.pulls
    requires !unsplit.normalOnly && !inside.normalOnly
    requires If(inside.transmits, inside.transmission) == t && If(spread.transmits, spread.transmission) == minus
    requires If(unsplit.presses, unsplit.pressure) == If(spread.presses, spread.pressure) == p
    requires If(unsplit.pulls, unsplit.surface) == If(spread.pulls, spread.surface) == u
    requires inside.transmits == spread.transmits && spread.transmission == Neg(inside.transmission)
    ensures Resultant(unsplit) == Add(Resultant(inside), Combined(spread))
  {
    NegIf(inside.transmits, inside.transmission);
    Rearranged(t, minus, p, u);
    assert Resultant(unsplit) == Add(Sub(ZERO, p), u);
    assert Resultant(inside) == Add(Sub(t, ZERO), ZERO);
    assert Combined(spread) == Add(Sub(minus, p), u);
  }

  lemma NegIf(wanted: bool, f: Vec3)
    ensures If(wanted, Neg(f)) == Neg(If(wanted, f))
  {
  }

  lemma PointSplits(s: Side, q: FacePoint, opt: Options)
    requires !s.dirichlet
    ensures PointForce(s, Unsplit(opt))(q) == Add(PointForce(s, Split(opt, false))(q), Exterior(opt)(q))
  {
    PartsSplit(FaceParts(s, q, Unsplit(opt)), FaceParts(s, q, Split(opt, false)), ExteriorParts(q, opt));
  }

  lemma OpenSideSplits(s: Side, opt: Options)
    requires s.physical && !s.dirichlet
    ensures SideShare(s, Unsplit(opt)) == Add(SideShare(s, Split(opt, false)), FaceTotal(s, Exterior(opt), |s.points|))
  {
    var whole, inside := PointForce(s, Unsplit(opt)), PointForce(s, Split(opt, false));
    SkippingIsHarmless(s, Unsplit(opt), whole);
    SkippingIsHarmless(s, Split(opt, false), inside);
    SplitPoints(s, opt, whole, inside, Exterior(opt));
    FaceTotalsAdd(s, whole, inside, Exterior(opt), |s.points|);
  }

  lemma SplitPoints(s: Side, opt: Options, whole: FacePoint -> Vec3, inside: FacePoint -> Vec3,
                    spread: FacePoint -> Vec3)
    requires !s.dirichlet
    requires whole == PointForce(s, Unsplit(opt)) && inside == PointForce(s, Split(opt, false))
    requires spread == Exterior(opt)
    ensures forall q :: 0 <= q < |s.points| ==> whole(s.points[q]) == Add(inside(s.points[q]), spread(s.points[q]))
  {
    forall q | 0 <= q < |s.points|
      ensures whole(s.points[q]) == Add(inside(s.points[q]), spread(s.points[q]))
    {
      PointSplits(s, s.points[q], opt);
    }
  }

  lemma NothingExterior(s: Side, opt: Options, spread: FacePoint -> Vec3)
    requires spread == Exterior(opt) && !(opt.hasStress || opt.hasPressure || opt.hasSurface)
    ensures FaceTotal(s, spread, |s.points|) == ZERO
  {
    forall q | 0 <= q < |s.points|
      ensures spread(s.points[q]) == ZERO
    {
      NoParts(ExteriorParts(s.points[q], opt));
    }
    NoFaceForce(s, spread, |s.points|);
  }

  lemma OnlyTransmission(p: Parts)
    requires p.transmits && !p.presses && !p.pulls && !p.normalOnly
    ensures Resultant(p) == p.transmission
  {
  }

  lemma DirichletSide(s: Side, opt: Options, whole: FacePoint -> Vec3)
    requires s.dirichlet && opt.hasStress && whole == PointForce(s, Unsplit(opt))
    ensures FaceTotal(s, whole, |s.points|) == FaceTotal(s, Traction(), |s.points|)
  {
    forall q | 0 <= q < |s.points|
      ensures whole(s.points[q]) == Traction()(s.points[q])
    {
      OnlyTransmission(FaceParts(s, s.points[q], Unsplit(opt)));
    }
    FaceTotalsEqual(s, whole, Traction(), |s.points|);
  }

  lemma DirichletCase(s: Side, opt: Options, whole: Side -> Vec3, inside: Side -> Vec3, spread: Side -> Vec3,
                      wall: Side -> Vec3)
    requires s.physical && s.dirichlet && whole == RhsShare(Unsplit(opt)) && inside == RhsShare(Split(opt, false))
    requires spread == SpreadShare(opt) && wall == DirichletShare(opt)
    ensures whole(s) == wall(s) && inside(s) == ZERO == spread(s)
  {
    if opt.hasStress {
      SkippingIsHarmless(s, Unsplit(opt), PointForce(s, Unsplit(opt)));
      DirichletSide(s, opt, PointForce(s, Unsplit(opt)));
    }
  }

  lemma OpenCase(s: Side, opt: Options, whole: Side -> Vec3, inside: Side -> Vec3, spread: Side -> Vec3,
                 wall: Side -> Vec3)
    requires s.physical && !s.dirichlet && whole == RhsShare(Unsplit(opt)) && inside == RhsShare(Split(opt, false))
    requires spread == SpreadShare(opt) && wall == DirichletShare(opt)
    ensures whole(s) == Add(inside(s), spread(s)) && wall(s) == ZERO
  {
    OpenSideSplits(s, opt);
    if !Spreads(s, opt) {
      NothingExterior(s, opt, Exterior(opt));
    }
  }

  lemma Together(whole: Vec3, inside: Vec3, spread: Vec3, wall: Vec3)
    requires (whole == wall && inside == ZERO == spread) || (whole == Add(inside, spread) && wall == ZERO)
    ensures whole == Add(Add(inside, spread), wall)
  {
  }

  /** Every side: unsplit is split plus spread plus the transmission force of a Dirichlet side. */
  lemma SideSplits(s: Side, opt: Options, whole: Side -> Vec3, inside: Side -> Vec3, spread: Side -> Vec3,
                   wall: Side -> Vec3)
    requires whole == RhsShare(Unsplit(opt)) && inside == RhsShare(Split(opt, false))
    requires spread == SpreadShare(opt) && wall == DirichletShare(opt)
    ensures whole(s) == Add(Add(inside(s), spread(s)), wall(s))
  {
    if s.physical {
      if s.dirichlet {
        DirichletCase(s, opt, whole, inside, spread, wall);
      } else {
        OpenCase(s, opt, whole, inside, spread, wall);
      }
    }
    Together(whole(s), inside(s), spread(s), wall(s));
  }

  /** How sums over sides combine. */
  ghost predicate Adds(a: Side -> Vec3, b: Side -> Vec3, c: Side -> Vec3, d: Side -> Vec3) {
    forall s :: a(s) == Add(Add(b(s), c(s)), d(s))
  }

  /** The four sums of one stretch of sides. */
  predicate SplitIn(whole: Vec3, b: Vec3, c: Vec3, d: Vec3) {
    whole == Add(Add(b, c), d)
  }

  lemma MoreSplit(a: Vec3, b: Vec3, c: Vec3, d: Vec3, w: Vec3, x: Vec3, y: Vec3, z: Vec3)
    requires SplitIn(a, b, c, d) && SplitIn(w, x, y, z)
    ensures SplitIn(Add(a, w), Add(b, x), Add(c, y), Add(d, z))
  {
  }

  lemma OneMoreSide(sides: seq<Side>, f: Side -> Vec3, n: nat)
    requires n < |sides|
    ensures SidesTotal(sides, f, n + 1) == Add(SidesTotal(sides, f, n), f(sides[n]))
  {
  }

  lemma OneMoreElement(es: seq<Elem>, f: Side -> Vec3, n: nat)
    requires n < |es|
    ensures MeshSides(es, f, n + 1) == Add(MeshSides(es, f, n), SidesTotal(es[n].sides, f, |es[n].sides|))
  {
  }

  lemma {:induction false} SidesAdd(sides: seq<Side>, a: Side -> Vec3, b: Side -> Vec3, c: Side -> Vec3,
                                    d: Side -> Vec3, n: nat)
    requires Adds(a, b, c, d) && n <= |sides|
    ensures SplitIn(SidesTotal(sides, a, n), SidesTotal(sides, b, n), SidesTotal(sides, c, n), SidesTotal(sides, d, n))
  {
    if n > 0 {
      var m, s := n - 1, sides[n - 1];
      SidesAdd(sides, a, b, c, d, m);
      OneMoreSide(sides, a, m);
      OneMoreSide(sides, b, m);
      OneMoreSide(sides, c, m);
      OneMoreSide(sides, d, m);
      MoreSplit(SidesTotal(sides, a, m), SidesTotal(sides, b, m), SidesTotal(sides, c, m), SidesTotal(sides, d, m),
                a(s), b(s), c(s), d(s));
    }
  }

  lemma {:induction false} MeshSidesAdd(es: seq<Elem>, a: Side -> Vec3, b: Side -> Vec3, c: Side -> Vec3,
                                        d: Side -> Vec3, n: nat)
    requires Adds(a, b, c, d) && n <= |es|
    ensures SplitIn(MeshSides(es, a, n), MeshSides(es, b, n), MeshSides(es, c, n), MeshSides(es, d, n))
  {
    if n > 0 {
      var m, sides := n - 1, es[n - 1].sides;
      MeshSidesAdd(es, a, b, c, d, m);
      SidesAdd(sides, a, b, c, d, |sides|);
      OneMoreElement(es, a, m);
      OneMoreElement(es, b, m);
      OneMoreElement(es, c, m);
      OneMoreElement(es, d, m);
      MoreSplit(MeshSides(es, a, m), MeshSides(es, b, m), MeshSides(es, c, m), MeshSides(es, d, m),
                SidesTotal(sides, a, |sides|), SidesTotal(sides, b, |sides|),
                SidesTotal(sides, c, |sides|), SidesTotal(sides, d, |sides|));
    }
  }

  lemma {:induction false} SumConcat(a: seq<Vec3>, b: seq<Vec3>)
    ensures SumVec(a + b) == Add(SumVec(a), SumVec(b))
  {
    if b == [] {
      assert a + b == a;
      AddZero(SumVec(a));
    } else {
      var n := |b| - 1;
      SumConcat(a, b[..n]);
      assert (a + b)[..|a + b| - 1] == a + b[..n];
      AddAssociative(SumVec(a), SumVec(b[..n]), b[n]);
    }
  }

  lemma SumOne(f: Vec3)
    ensures SumVec([f]) == f
  {
    assert [f][..0] == [];
    AddZero(f);
  }

  lemma ScaleNegParts(w: real, p: Parts, r: Parts)
    requires r == p.(transmission := Scale(w, p.transmission), pressure := Scale(w, p.pressure),
                     surface := Scale(w, p.surface))
    ensures Combined(r) == Scale(w, Combined(p))
  {
    ScaleIf(w, p.transmits, p.transmission);
    ScaleIf(w, p.presses, p.pressure);
    ScaleIf(w, p.pulls, p.surface);
    ScaleCombined(w, If(p.transmits, p.transmission), If(p.presses, p.pressure), If(p.pulls, p.surface));
  }

  lemma ScaleIf(w: real, wanted: bool, f: Vec3)
    ensures If(wanted, Scale(w, f)) == Scale(w, If(wanted, f))
  {
  }

  lemma ScaleCombined(w: real, t: Vec3, p: Vec3, u: Vec3)
    ensures Add(Sub(Scale(w, t), Scale(w, p)), Scale(w, u)) == Scale(w, Add(Sub(t, p), u))
  {
  }

  lemma SpreadIsExterior(q: FacePoint, opt: Options)
    ensures SpreadForce(opt)(q) == Scale(q.JxW, Exterior(opt)(q))
  {
    ScaleNeg(q.JxW, Apply(q.stress, q.normal));
    ScaleNegParts(q.JxW, ExteriorParts(q, opt), SpreadParts(q, opt));
  }

  lemma {:induction false} SideSpreadTotal(s: Side, force: FacePoint -> Vec3, spread: FacePoint -> Vec3, n: nat)
    requires n <= |s.points|
    requires forall q :: 0 <= q < |s.points| ==> force(s.points[q]) == Scale(s.points[q].JxW, spread(s.points[q]))
    ensures SumVec(SideSpread(s, force, n)) == FaceTotal(s, spread, n)
  {
    if n > 0 {
      var f := force(s.points[n - 1]);
      SideSpreadTotal(s, force, spread, n - 1);
      SumConcat(SideSpread(s, force, n - 1), [f]);
      SumOne(f);
    }
  }

  lemma SpreadPoints(s: Side, opt: Options, force: FacePoint -> Vec3, spread: FacePoint -> Vec3)
    requires force == SpreadForce(opt) && spread == Exterior(opt)
    ensures forall q :: 0 <= q < |s.points| ==> force(s.points[q]) == Scale(s.points[q].JxW, spread(s.points[q]))
  {
    forall q | 0 <= q < |s.points|
      ensures force(s.points[q]) == Scale(s.points[q].JxW, spread(s.points[q]))
    {
      SpreadIsExterior(s.points[q], opt);
    }
  }

  lemma SpreadListTotal(s: Side, opt: Options, list: Side -> seq<Vec3>, share: Side -> Vec3)
    requires list == SpreadList(opt) && share == SpreadShare(opt)
    ensures SumVec(list(s)) == share(s)
  {
    if Spreads(s, opt) {
      SpreadPoints(s, opt, SpreadForce(opt), Exterior(opt));
      SideSpreadTotal(s, SpreadForce(opt), Exterior(opt), |s.points|);
    }
  }

  ghost predicate Totals(list: Side -> seq<Vec3>, share: Side -> Vec3) {
    forall s :: SumVec(list(s)) == share(s)
  }

  lemma Joined(a: seq<Vec3>, b: seq<Vec3>, c: seq<Vec3>, x: Vec3, y: Vec3, z: Vec3)
    requires c == a + b && SumVec(a) == x && SumVec(b) == y && z == Add(x, y)
    ensures SumVec(c) == z
  {
    SumConcat(a, b);
  }

  lemma {:induction false} ElemSpreadTotal(sides: seq<Side>, list: Side -> seq<Vec3>, share: Side -> Vec3, n: nat)
    requires n <= |sides| && Totals(list, share)
    ensures SumVec(ElemSpread(sides, list, n)) == SidesTotal(sides, share, n)
  {
    if n > 0 {
      ElemSpreadTotal(sides, list, share, n - 1);
      Joined(ElemSpread(sides, list, n - 1), list(sides[n - 1]), ElemSpread(sides, list, n),
             SidesTotal(sides, share, n - 1), share(sides[n - 1]), SidesTotal(sides, share, n));
    }
  }

  lemma {:induction false} SpreadTotal(es: seq<Elem>, list: Side -> seq<Vec3>, share: Side -> Vec3, n: nat)
    requires n <= |es| && Totals(list, share)
    ensures SumVec(MeshSpread(es, list, n)) == MeshSides(es, share, n)
  {
    if n > 0 {
      var sides := es[n - 1].sides;
      SpreadTotal(es, list, share, n - 1);
      ElemSpreadTotal(sides, list, share, |sides|);
      Joined(MeshSpread(es, list, n - 1), ElemSpread(sides, list, |sides|), MeshSpread(es, list, n),
             MeshSides(es, share, n - 1), SidesTotal(sides, share, |sides|), MeshSides(es, share, n));
    }
  }

  /** The split and the unsplit treatment put the same total force on the grid, but for the transmission force
      on physical Dirichlet sides: the totals agree exactly if that vanishes. */
  lemma SplitMatchesUnsplit(es: seq<Elem>, opt: Options, nodes: nat)
    requires MeshFits(es, nodes) && MeshUnity(es)
    ensures var unsplit := SumVec(Assembled(es, Unsplit(opt), nodes, |es|));
            var split := SumVec(Assembled(es, Split(opt, false), nodes, |es|));
            var spread := SumVec(MeshSpread(es, SpreadList(opt), |es|));
            var wall := MeshSides(es, DirichletShare(opt), |es|);
            && unsplit == Add(Add(split, spread), wall)
            && (unsplit == Add(split, spread) <==> wall == ZERO)
  {
    var n := |es|;
    var whole, inside, spread, wall := RhsShare(Unsplit(opt)), RhsShare(Split(opt, false)), SpreadShare(opt),
      DirichletShare(opt);
    AssembledTotal(es, Unsplit(opt), nodes, n);
    AssembledTotal(es, Split(opt, false), nodes, n);
    SpreadTotals(opt, SpreadList(opt), spread);
    SpreadTotal(es, SpreadList(opt), spread, n);
    SharesAdd(opt, whole, inside, spread, wall);
    MeshSidesAdd(es, whole, inside, spread, wall, n);
    Reassociate(MeshBody(es, opt.hasBody, n), MeshSides(es, inside, n), MeshSides(es, spread, n),
                MeshSides(es, wall, n));
  }

  lemma SpreadTotals(opt: Options, list: Side -> seq<Vec3>, share: Side -> Vec3)
    requires list == SpreadList(opt) && share == SpreadShare(opt)
    ensures Totals(list, share)
  {
    forall s
      ensures SumVec(list(s)) == share(s)
    {
      SpreadListTotal(s, opt, list, share);
    }
  }

  lemma SharesAdd(opt: Options, whole: Side -> Vec3, inside: Side -> Vec3, spread: Side -> Vec3, wall: Side -> Vec3)
    requires whole == RhsShare(Unsplit(opt)) && inside == RhsShare(Split(opt, false))
    requires spread == SpreadShare(opt) && wall == DirichletShare(opt)
    ensures Adds(whole, inside, spread, wall)
  {
    forall s
      ensures whole(s) == Add(Add(inside(s), spread(s)), wall(s))
    {
      SideSplits(s, opt, whole, inside, spread, wall);
    }
  }

  lemma Reassociate(body: Vec3, inside: Vec3, spread: Vec3, wall: Vec3)
    ensures var whole := Add(body, Add(Add(inside, spread), wall));
            var both := Add(Add(body, inside), spread);
            whole == Add(both, wall) && (whole == both <==> wall == ZERO)
  {
  }

  ghost predicate NoDirichletSides(es: seq<Elem>) {
    forall k :: 0 <= k < |es| ==> forall m :: 0 <= m < |es[k].sides| ==>
      !(es[k].sides[m].physical && es[k].sides[m].dirichlet)
  }

  /** Without Dirichlet sides the totals agree. */
  lemma SplitMatchesWithoutDirichlet(es: seq<Elem>, opt: Options, nodes: nat)
    requires MeshFits(es, nodes) && MeshUnity(es) && NoDirichletSides(es)
    ensures SumVec(Assembled(es, Unsplit(opt), nodes, |es|)) ==
            Add(SumVec(Assembled(es, Split(opt, false), nodes, |es|)), SumVec(MeshSpread(es, SpreadList(opt), |es|)))
  {
    SplitMatchesUnsplit(es, opt, nodes);
    NothingOnWalls(es, DirichletShare(opt), |es|);
  }

  predicate Weights(phi: seq<real>, a: real, b: real, c: real, d: real) {
    |phi| == 4 && phi[0] == a && phi[1] == b && phi[2] == c && phi[3] == d
  }

  predicate Gradients(dphi: seq<Vec3>) {
    && |dphi| == 4 && dphi[0] == Vec3(-0.5, -1.0, -1.0)
    && dphi[1] == Vec3(0.5, 0.0, 0.0) && dphi[2] == Vec3(0.0, 1.0, 0.0) && dphi[3] == Vec3(0.0, 0.0, 1.0)
  }

  predicate FaceOf(s: Side, a: real, b: real, c: real, d: real, area: real, normal: Vec3) {
    && s.physical && |s.points| == 1 && Weights(s.points[0].phi, a, b, c, d)
    && s.points[0].JxW == area && s.points[0].normal == normal
  }

  /** A linear tetrahedron with corners (0,0,0), (2,0,0), (0,1,0) and (0,0,1), one quadrature point in its middle
      and one in the middle of every side. It is held on the side x = 0; the stress is any. */
  predicate HeldTetrahedron(e: Elem) {
    var third := 1.0 / 3.0;
    && e.dofs == [0, 1, 2, 3] && |e.points| == 1 && |e.sides| == 4
    && Weights(e.points[0].phi, 0.25, 0.25, 0.25, 0.25) && Gradients(e.points[0].dphi) && e.points[0].JxW == third
    && FaceOf(e.sides[0], third, 0.0, third, third, 0.5, Vec3(-1.0, 0.0, 0.0))
    && FaceOf(e.sides[1], 0.0, third, third, third, 1.5, Vec3(third, 2.0 * third, 2.0 * third))
    && FaceOf(e.sides[2], third, third, 0.0, third, 1.0, Vec3(0.0, -1.0, 0.0))
    && FaceOf(e.sides[3], third, third, third, 0.0, 1.0, Vec3(0.0, 0.0, -1.0))
    && e.sides[0].dirichlet && !e.sides[1].dirichlet && !e.sides[2].dirichlet && !e.sides[3].dirichlet
  }

  lemma SumFourReals(phi: seq<real>, a: real, b: real, c: real, d: real)
    requires Weights(phi, a, b, c, d)
    ensures SumReal(phi) == a + b + c + d
  {
    assert phi[..3][..2] == phi[..2] && phi[..2][..1] == phi[..1] && phi[..1][..0] == [];
    assert SumReal(phi[..1]) == a;
    assert SumReal(phi[..2]) == a + b;
    assert SumReal(phi[..3]) == a + b + c;
  }

  lemma SumFourVectors(a: Vec3, b: Vec3, c: Vec3, d: Vec3)
    ensures SumVec([a] + [b] + [c] + [d]) == Add(Add(Add(a, b), c), d)
  {
    SumOne(a);
    SumOne(b);
    SumOne(c);
    SumOne(d);
    SumConcat([a], [b]);
    SumConcat([a] + [b], [c]);
    SumConcat([a] + [b] + [c], [d]);
  }

  lemma GradientsVanish(dphi: seq<Vec3>)
    requires Gradients(dphi)
    ensures SumVec(dphi) == ZERO
  {
    assert dphi == [dphi[0]] + [dphi[1]] + [dphi[2]] + [dphi[3]];
    SumFourVectors(dphi[0], dphi[1], dphi[2], dphi[3]);
  }

  lemma FaceUnity(s: Side, a: real, b: real, c: real, d: real, area: real, normal: Vec3)
    requires FaceOf(s, a, b, c, d, area, normal) && a + b + c + d == 1.0
    ensures SideFits(s, 4) && SideUnity(s)
  {
    SumFourReals(s.points[0].phi, a, b, c, d);
  }

  lemma TetrahedronUnity(e: Elem)
    requires HeldTetrahedron(e)
    ensures ElemFits(e, 4) && PartitionOfUnity(e)
  {
    var third := 1.0 / 3.0;
    FaceUnity(e.sides[0], third, 0.0, third, third, 0.5, Vec3(-1.0, 0.0, 0.0));
    FaceUnity(e.sides[1], 0.0, third, third, third, 1.5, Vec3(third, 2.0 * third, 2.0 * third));
    FaceUnity(e.sides[2], third, third, 0.0, third, 1.0, Vec3(0.0, -1.0, 0.0));
    FaceUnity(e.sides[3], third, third, third, 0.0, 1.0, Vec3(0.0, 0.0, -1.0));
    SumFourReals(e.points[0].phi, 0.25, 0.25, 0.25, 0.25);
    GradientsVanish(e.points[0].dphi);
  }

  function HeldPoint(area: real, phi: seq<real>, stress: Mat3, normal: Vec3): FacePoint {
    FacePoint(area, phi, stress, normal, 1.0, normal, normal, 0.0, ZERO)
  }

  /** There is one under every stress. */
  lemma HeldUnder(stress: Mat3) returns (e: Elem)
    ensures HeldTetrahedron(e) && e.sides[0].points[0].stress == stress
  {
    var third := 1.0 / 3.0;
    var middle := [0.25, 0.25, 0.25, 0.25];
    var dphi := [Vec3(-0.5, -1.0, -1.0), Vec3(0.5, 0.0, 0.0), Vec3(0.0, 1.0, 0.0), Vec3(0.0, 0.0, 1.0)];
    var p := HeldPoint(0.5, [third, 0.0, third, third], stress, Vec3(-1.0, 0.0, 0.0));
    var q := HeldPoint(1.5, [0.0, third, third, third], stress, Vec3(third, 2.0 * third, 2.0 * third));
    var r := HeldPoint(1.0, [third, third, 0.0, third], stress, Vec3(0.0, -1.0, 0.0));
    var s := HeldPoint(1.0, [third, third, third, 0.0], stress, Vec3(0.0, 0.0, -1.0));
    e := Elem([0, 1, 2, 3], [InteriorPoint(third, middle, dphi, stress, ZERO)],
              [Side(true, true, [p]), Side(true, false, [q]), Side(true, false, [r]), Side(true, false, [s])]);
  }

  /** The traction on the held side of a tetrahedron reaches the grid in the unsplit form alone, so under any load
      on that side the totals differ. */
  lemma DirichletSidesLeaveAGap(e: Elem, opt: Options)
    requires opt.hasStress && HeldTetrahedron(e)
    ensures MeshFits([e], 4) && MeshUnity([e])
    ensures var unsplit := SumVec(Assembled([e], Unsplit(opt), 4, 1));
            var split := SumVec(Assembled([e], Split(opt, false), 4, 1));
            var spread := SumVec(MeshSpread([e], SpreadList(opt), 1));
            var traction := Traction()(e.sides[0].points[0]);
            && unsplit == Add(Add(split, spread), Scale(0.5, traction))
            && (traction != ZERO ==> unsplit != Add(split, spread))
  {
    TetrahedronUnity(e);
    SplitMatchesUnsplit([e], opt, 4);
    HeldGap([e], e, DirichletShare(opt), opt);
    HalfIsZero(Traction()(e.sides[0].points[0]));
  }

  lemma HalfIsZero(f: Vec3)
    ensures Scale(0.5, f) == ZERO <==> f == ZERO
  {
  }

  lemma HeldGap(es: seq<Elem>, e: Elem, share: Side -> Vec3, opt: Options)
    requires es == [e] && HeldTetrahedron(e) && opt.hasStress && share == DirichletShare(opt)
    ensures MeshSides(es, share, |es|) == Scale(0.5, Traction()(e.sides[0].points[0]))
  {
    OnePoint(e.sides[0], Traction());
    OneElement(es, share);
    OneLoaded(e.sides, share, |e.sides|);
  }

  lemma OnePoint(s: Side, force: FacePoint -> Vec3)
    requires |s.points| == 1
    ensures FaceTotal(s, force, 1) == Scale(s.points[0].JxW, force(s.points[0]))
  {
    assert FaceTotal(s, force, 0) == ZERO;
    AddZero(Scale(s.points[0].JxW, force(s.points[0])));
  }

  lemma OneElement(es: seq<Elem>, share: Side -> Vec3)
    requires |es| == 1
    ensures MeshSides(es, share, 1) == SidesTotal(es[0].sides, share, |es[0].sides|)
  {
    assert MeshSides(es, share, 0) == ZERO;
    AddZero(SidesTotal(es[0].sides, share, |es[0].sides|));
  }

  lemma {:induction false} OneLoaded(sides: seq<Side>, share: Side -> Vec3, n: nat)
    requires 1 <= n <= |sides|
    requires forall m :: 1 <= m < |sides| ==> share(sides[m]) == ZERO
    ensures SidesTotal(sides, share, n) == share(sides[0])
  {
    if n == 1 {
      assert SidesTotal(sides, share, 0) == ZERO;
    } else {
      OneLoaded(sides, share, n - 1);
      AddZero(share(sides[0]));
    }
    AddZero(share(sides[0]));
  }

  lemma {:induction false} NothingOnWalls(es: seq<Elem>, share: Side -> Vec3, n: nat)
    requires n <= |es|
    requires forall k :: 0 <= k < |es| ==> forall m :: 0 <= m < |es[k].sides| ==> share(es[k].sides[m]) == ZERO
    ensures MeshSides(es, share, n) == ZERO
  {
    if n > 0 {
      NothingOnWalls(es, share, n - 1);
      NoShare(es[n - 1].sides, share, |es[n - 1].sides|);
    }
  }

  lemma {:induction false} NoShare(sides: seq<Side>, share: Side -> Vec3, n: nat)
    requires n <= |sides| && forall m :: 0 <= m < |sides| ==> share(sides[m]) == ZERO
    ensures SidesTotal(sides, share, n) == ZERO
  {
    if n > 0 {
      NoShare(sides, share, n - 1);
    }
  }

  // ------------------------------------------------------- jump conditions

  /** The tangential part is orthogonal to a unit normal. */
  lemma TangentialIsOrthogonal(q: FacePoint)
    requires Dot(q.n, q.n) == 1.0
    ensures Dot(Tangential()(q), q.n) == 0.0
  {
    var f := Apply(q.stress, q.normal);
    DotLinear(1.0, f, NormalPart(f, q.n), q.n);
    DotLinear(Dot(f, q.n), q.n, q.n, q.n);
  }

  lemma PutBack(f: Vec3, g: Vec3)
    ensures f == Add(Add(g, ZERO), Sub(f, g))
  {
  }

  lemma JumpParts(plain: Parts, jump: Parts)
    requires !plain.normalOnly && jump == plain.(normalOnly := true)
    requires !plain.presses && !plain.pulls && plain.transmits
    ensures Resultant(plain) == plain.transmission && Resultant(jump) == NormalPart(plain.transmission, plain.n)
  {
    OnlyTransmission(plain);
  }

  lemma JumpPoints(s: Side, opt: Options, plain: FacePoint -> Vec3, jump: FacePoint -> Vec3)
    requires !s.dirichlet && opt.hasStress
    requires plain == PointForce(s, Split(opt, false)) && jump == PointForce(s, Split(opt, true))
    ensures forall q :: 0 <= q < |s.points| ==> plain(s.points[q]) == Add(jump(s.points[q]), Tangential()(s.points[q]))
  {
    forall q | 0 <= q < |s.points|
      ensures plain(s.points[q]) == Add(jump(s.points[q]), Tangential()(s.points[q]))
    {
      var p := s.points[q];
      JumpParts(FaceParts(s, p, Split(opt, false)), FaceParts(s, p, Split(opt, true)));
      PutBack(Apply(p.stress, p.normal), NormalPart(Apply(p.stress, p.normal), p.n));
    }
  }

  lemma SideJump(s: Side, opt: Options, plain: Side -> Vec3, jump: Side -> Vec3, dropped: Side -> Vec3)
    requires plain == RhsShare(Split(opt, false)) && jump == RhsShare(Split(opt, true))
    requires dropped == TangentialShare(opt)
    ensures plain(s) == Add(jump(s), dropped(s))
  {
    if s.physical && !s.dirichlet && opt.hasStress {
      OpenJump(s, opt, PointForce(s, Split(opt, false)), PointForce(s, Split(opt, true)));
    } else {
      NoJump(s, opt, plain, jump, dropped);
    }
  }

  /** Elsewhere there is nothing on the side, with or without jump conditions. */
  lemma NoJump(s: Side, opt: Options, plain: Side -> Vec3, jump: Side -> Vec3, dropped: Side -> Vec3)
    requires plain == RhsShare(Split(opt, false)) && jump == RhsShare(Split(opt, true))
    requires dropped == TangentialShare(opt)
    requires !(s.physical && !s.dirichlet && opt.hasStress)
    ensures plain(s) == Add(jump(s), dropped(s))
  {
    assert plain(s) == ZERO == jump(s) == dropped(s);
    AddZero(ZERO);
  }

  lemma OpenJump(s: Side, opt: Options, f: FacePoint -> Vec3, g: FacePoint -> Vec3)
    requires s.physical && !s.dirichlet && opt.hasStress
    requires f == PointForce(s, Split(opt, false)) && g == PointForce(s, Split(opt, true))
    ensures SideShare(s, Split(opt, false)) ==
            Add(SideShare(s, Split(opt, true)), FaceTotal(s, Tangential(), |s.points|))
  {
    JumpPoints(s, opt, f, g);
    SkippingIsHarmless(s, Split(opt, false), f);
    SkippingIsHarmless(s, Split(opt, true), g);
    FaceTotalsAdd(s, f, g, Tangential(), |s.points|);
  }

  /** With jump conditions the right-hand side loses exactly the tangential transmission forces of the
      physical sides that are not Dirichlet sides. */
  lemma JumpsDropTangentialPart(es: seq<Elem>, opt: Options, nodes: nat)
    requires MeshFits(es, nodes) && MeshUnity(es)
    ensures SumVec(Assembled(es, Split(opt, false), nodes, |es|)) ==
            Add(SumVec(Assembled(es, Split(opt, true), nodes, |es|)), MeshSides(es, TangentialShare(opt), |es|))
  {
    var n := |es|;
    var plain, jump, dropped := RhsShare(Split(opt, false)), RhsShare(Split(opt, true)), TangentialShare(opt);
    var nothing := (s: Side) => ZERO;
    AssembledTotal(es, Split(opt, false), nodes, n);
    AssembledTotal(es, Split(opt, true), nodes, n);
    JumpsAdd(opt, plain, jump, dropped, nothing);
    MeshSidesAdd(es, plain, jump, nothing, dropped, n);
    NothingOnWalls(es, nothing, n);
    AddZero(MeshSides(es, jump, n));
    AddAssociative(MeshBody(es, opt.hasBody, n), MeshSides(es, jump, n), MeshSides(es, dropped, n));
  }

  lemma JumpsAdd(opt: Options, plain: Side -> Vec3, jump: Side -> Vec3, dropped: Side -> Vec3, nothing: Side -> Vec3)
    requires plain == RhsShare(Split(opt, false)) && jump == RhsShare(Split(opt, true))
    requires dropped == TangentialShare(opt)
    requires forall s :: nothing(s) == ZERO
    ensures Adds(plain, jump, nothing, dropped)
  {
    forall s
      ensures plain(s) == Add(Add(jump(s), nothing(s)), dropped(s))
    {
      SideJump(s, opt, plain, jump, dropped);
      AddZero(jump(s));
    }
  }
}
