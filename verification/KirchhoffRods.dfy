/** IBKirchhoffRodForceGen: the force and torque a rod segment exerts on its two nodes, the scatter of
    both into global vectors, their balance over any network of rods, and the power they take up. */
module KirchhoffRods {
  import opened Vectors
  import opened Increments
  import opened NodalWork
  import opened RodSpecs
  import opened Rotations
  import opened Directors

  /** A segment from node `curr` to node `next` with the ten material parameters
      ds, a1, a2, a3, b1, b2, b3, kappa1, kappa2, tau. */
  datatype Rod = Rod(curr: nat, next: nat, params: seq<real>)

  predicate RodOk(r: Rod, nodes: nat) {
    r.curr < nodes && r.next < nodes && |r.params| == NUM_MATERIAL_PARAMS && r.params[0] != 0.0
  }

  predicate AllRodsOk(rods: seq<Rod>, nodes: nat) {
    forall k :: 0 <= k < |rods| ==> RodOk(rods[k], nodes)
  }

  // ----------------------------------------------------------- half directors

  /** The component of a vector by index, and a triad's directors by index. */
  function At(v: Vec3, i: nat): real
    requires i < 3
  {
    if i == 0 then v.x else if i == 1 then v.y else v.z
  }

  /** Entry (i,j) is the sum over the directors of (next director)_i (director)_j. */
  function AlignEntry(d: Triad, n: Triad, i: nat, j: nat): real
    requires i < 3 && j < 3
  {
    At(n.d1, i) * At(d.d1, j) + At(n.d2, i) * At(d.d2, j) + At(n.d3, i) * At(d.d3, j)
  }

  function Align(d: Triad, n: Triad): Mat3 {
    Mat3(Vec3(AlignEntry(d, n, 0, 0), AlignEntry(d, n, 0, 1), AlignEntry(d, n, 0, 2)),
         Vec3(AlignEntry(d, n, 1, 0), AlignEntry(d, n, 1, 1), AlignEntry(d, n, 1, 2)),
         Vec3(AlignEntry(d, n, 2, 0), AlignEntry(d, n, 2, 1), AlignEntry(d, n, 2, 2)))
  }

  function Carried(s: Mat3, d: Triad): Triad {
    Triad(Apply(s, d.d1), Apply(s, d.d2), Apply(s, d.d3))
  }

  method InterpolateDirectors(d: Triad, n: Triad, sqrtm: Mat3 -> Mat3) returns (half: Triad)
    ensures half == Carried(sqrtm(Align(d, n)), d)
  {
    var a := new real[3, 3];
    for j := 0 to 3
      invariant forall i, l :: 0 <= i < 3 && 0 <= l < j ==> a[i, l] == AlignEntry(d, n, i, l)
    {
      for i := 0 to 3
        invariant forall k, l :: 0 <= k < 3 && 0 <= l < j ==> a[k, l] == AlignEntry(d, n, k, l)
        invariant forall k :: 0 <= k < i ==> a[k, j] == AlignEntry(d, n, k, j)
      {
        a[i, j] := At(n.d1, i) * At(d.d1, j) + At(n.d2, i) * At(d.d2, j) + At(n.d3, i) * At(d.d3, j);
      }
    }
    var m := Mat3(Vec3(a[0, 0], a[0, 1], a[0, 2]), Vec3(a[1, 0], a[1, 1], a[1, 2]), Vec3(a[2, 0], a[2, 1], a[2, 2]));
    assert m == Align(d, n);
    half := Carried(sqrtm(m), d);
  }

  function Col(m: Mat3, j: nat): Vec3
    requires j < 3
  {
    Vec3(At(m.r0, j), At(m.r1, j), At(m.r2, j))
  }

  /** The columns are orthonormal. */
  ghost predicate Orthogonal(m: Mat3) {
    var c0, c1, c2 := Col(m, 0), Col(m, 1), Col(m, 2);
    && Dot(c0, c0) == 1.0 && Dot(c1, c1) == 1.0 && Dot(c2, c2) == 1.0
    && Dot(c0, c1) == 0.0 && Dot(c0, c2) == 0.0 && Dot(c1, c2) == 0.0
  }

  lemma ApplyColumns(m: Mat3, v: Vec3)
    ensures Apply(m, v) == Combo(v.x, Col(m, 0), v.y, Col(m, 1), v.z, Col(m, 2))
  {
  }

  lemma OrthogonalKeepsDot(m: Mat3, v: Vec3, w: Vec3)
    requires Orthogonal(m)
    ensures Dot(Apply(m, v), Apply(m, w)) == Dot(v, w)
  {
    ApplyColumns(m, v);
    ApplyColumns(m, w);
    OrthonormalColumns(Col(m, 0), Col(m, 1), Col(m, 2), v.x, v.y, v.z, w.x, w.y, w.z);
  }

  lemma OrthonormalColumns(c0: Vec3, c1: Vec3, c2: Vec3, vx: real, vy: real, vz: real, wx: real, wy: real, wz: real)
    requires Dot(c0, c0) == 1.0 && Dot(c1, c1) == 1.0 && Dot(c2, c2) == 1.0
    requires Dot(c0, c1) == 0.0 && Dot(c0, c2) == 0.0 && Dot(c1, c2) == 0.0
    ensures Dot(Combo(vx, c0, vy, c1, vz, c2), Combo(wx, c0, wy, c1, wz, c2)) == vx * wx + vy * wy + vz * wz
  {
    var w := Combo(wx, c0, wy, c1, wz, c2);
    DotCommutes(c0, c1);
    DotCommutes(c0, c2);
    DotCommutes(c1, c2);
    var x := DotCombo(wx, c0, wy, c1, wz, c2, c0, 1.0, 0.0, 0.0);
    var y := DotCombo(wx, c0, wy, c1, wz, c2, c1, 0.0, 1.0, 0.0);
    var z := DotCombo(wx, c0, wy, c1, wz, c2, c2, 0.0, 0.0, 1.0);
    var r := DotCombo(vx, c0, vy, c1, vz, c2, w, x, y, z);
  }

  function MatMul(a: Mat3, b: Mat3): Mat3 {
    Mat3(RowMul(a.r0, b), RowMul(a.r1, b), RowMul(a.r2, b))
  }

  function RowMul(r: Vec3, b: Mat3): Vec3 {
    Combo(r.x, b.r0, r.y, b.r1, r.z, b.r2)
  }

  lemma ApplyMatMul(a: Mat3, b: Mat3, v: Vec3)
    ensures Apply(MatMul(a, b), v) == Apply(a, Apply(b, v))
  {
    var x := DotCombo(a.r0.x, b.r0, a.r0.y, b.r1, a.r0.z, b.r2, v, Dot(b.r0, v), Dot(b.r1, v), Dot(b.r2, v));
    var y := DotCombo(a.r1.x, b.r0, a.r1.y, b.r1, a.r1.z, b.r2, v, Dot(b.r0, v), Dot(b.r1, v), Dot(b.r2, v));
    var z := DotCombo(a.r2.x, b.r0, a.r2.y, b.r1, a.r2.z, b.r2, v, Dot(b.r0, v), Dot(b.r1, v), Dot(b.r2, v));
  }

  lemma AlignRow(d: Triad, x: real, y: real, z: real, r: Vec3, v: Vec3, a: real, b: real, c: real)
    requires r == Combo(x, d.d1, y, d.d2, z, d.d3) && a == Dot(d.d1, v) && b == Dot(d.d2, v) && c == Dot(d.d3, v)
    ensures Dot(r, v) == x * a + y * b + z * c
  {
    var s := DotCombo(x, d.d1, y, d.d2, z, d.d3, v, a, b, c);
  }

  lemma AlignRowIs(d: Triad, n: Triad, i: nat)
    requires i < 3
    ensures Vec3(AlignEntry(d, n, i, 0), AlignEntry(d, n, i, 1), AlignEntry(d, n, i, 2))
         == Combo(At(n.d1, i), d.d1, At(n.d2, i), d.d2, At(n.d3, i), d.d3)
  {
  }

  lemma Aligns(d: Triad, n: Triad, v: Vec3, a: real, b: real, c: real)
    requires a == Dot(d.d1, v) && b == Dot(d.d2, v) && c == Dot(d.d3, v)
    ensures Apply(Align(d, n), v) == Vec3(n.d1.x * a + n.d2.x * b + n.d3.x * c, n.d1.y * a + n.d2.y * b + n.d3.y * c,
                                          n.d1.z * a + n.d2.z * b + n.d3.z * c)
  {
    AlignRowIs(d, n, 0);
    AlignRowIs(d, n, 1);
    AlignRowIs(d, n, 2);
    AlignRow(d, n.d1.x, n.d2.x, n.d3.x, Align(d, n).r0, v, a, b, c);
    AlignRow(d, n.d1.y, n.d2.y, n.d3.y, Align(d, n).r1, v, a, b, c);
    AlignRow(d, n.d1.z, n.d2.z, n.d3.z, Align(d, n).r2, v, a, b, c);
  }

  ghost predicate Orthonormal(d: Triad) {
    && Dot(d.d1, d.d1) == 1.0 && Dot(d.d2, d.d2) == 1.0 && Dot(d.d3, d.d3) == 1.0
    && Dot(d.d1, d.d2) == 0.0 && Dot(d.d1, d.d3) == 0.0 && Dot(d.d2, d.d3) == 0.0
  }

  /** For an orthonormal triad the matrix takes each director to the next node's. */
  lemma AlignCarries(d: Triad, n: Triad)
    requires Orthonormal(d)
    ensures Carried(Align(d, n), d) == n
  {
    DotCommutes(d.d1, d.d2);
    DotCommutes(d.d1, d.d3);
    DotCommutes(d.d2, d.d3);
    Aligns(d, n, d.d1, 1.0, 0.0, 0.0);
    Aligns(d, n, d.d2, 0.0, 1.0, 0.0);
    Aligns(d, n, d.d3, 0.0, 0.0, 1.0);
  }

  /** With an orthogonal square root S of the aligning matrix, the half directors S D are orthonormal
      and S takes them on to the next node's directors: they lie half way. */
  lemma HalfDirectors(d: Triad, n: Triad, s: Mat3)
    requires Orthonormal(d) && Orthogonal(s) && MatMul(s, s) == Align(d, n)
    ensures Orthonormal(Carried(s, d)) && Carried(s, Carried(s, d)) == n
  {
    OrthogonalKeepsDot(s, d.d1, d.d1);
    OrthogonalKeepsDot(s, d.d2, d.d2);
    OrthogonalKeepsDot(s, d.d3, d.d3);
    OrthogonalKeepsDot(s, d.d1, d.d2);
    OrthogonalKeepsDot(s, d.d1, d.d3);
    OrthogonalKeepsDot(s, d.d2, d.d3);
    ApplyMatMul(s, s, d.d1);
    ApplyMatMul(s, s, d.d2);
    ApplyMatMul(s, s, d.d3);
    AlignCarries(d, n);
  }

  // --------------------------------------------------------- force and torque

  datatype Load = Load(force: Vec3, torque: Vec3)

  /** A stiffness times a strain, and a stiffness times a strain's excess over its reference value. */
  function Shear(b: real, u: Vec3, v: Vec3): real {
    b * Dot(u, v)
  }

  function Excess(a: real, u: Vec3, v: Vec3, reference: real): real {
    a * (Dot(u, v) - reference)
  }

  /** The internal force and torque half way along a segment, from its stretch and shear and from its
      bend and twist against the half directors. */
  function RodLoad(x: Vec3, xn: Vec3, d: Triad, n: Triad, half: Triad, p: seq<real>): Load
    requires |p| == NUM_MATERIAL_PARAMS && p[0] != 0.0
  {
    var dX := Divide(Sub(xn, x), p[0]);
    var dD1, dD2, dD3 := Divide(Sub(n.d1, d.d1), p[0]), Divide(Sub(n.d2, d.d2), p[0]), Divide(Sub(n.d3, d.d3), p[0]);
    Load(Combo(Shear(p[4], half.d1, dX), half.d1, Shear(p[5], half.d2, dX), half.d2, Excess(p[6], half.d3, dX, 1.0),
               half.d3),
         Combo(Excess(p[1], dD2, half.d3, p[7]), half.d1, Excess(p[2], dD3, half.d1, p[8]), half.d2,
               Excess(p[3], dD1, half.d2, p[9]), half.d3))
  }

  method ComputeForceAndTorque(x: Vec3, xn: Vec3, d: Triad, n: Triad, p: seq<real>, sqrtm: Mat3 -> Mat3)
    returns (load: Load)
    requires |p| == NUM_MATERIAL_PARAMS && p[0] != 0.0
    ensures load == RodLoad(x, xn, d, n, Carried(sqrtm(Align(d, n)), d), p)
  {
    var half := InterpolateDirectors(d, n, sqrtm);
    var ds, a1, a2, a3, b1, b2, b3, kappa1, kappa2, tau := p[0], p[1], p[2], p[3], p[4], p[5], p[6], p[7], p[8], p[9];
    var dX := Divide(Sub(xn, x), ds);
    var F1, F2, F3 := Shear(b1, half.d1, dX), Shear(b2, half.d2, dX), Excess(b3, half.d3, dX, 1.0);
    var F := Combo(F1, half.d1, F2, half.d2, F3, half.d3);
    var dD1, dD2, dD3 := Divide(Sub(n.d1, d.d1), ds), Divide(Sub(n.d2, d.d2), ds), Divide(Sub(n.d3, d.d3), ds);
    var N1, N2, N3 := Excess(a1, dD2, half.d3, kappa1), Excess(a2, dD3, half.d1, kappa2), Excess(a3, dD1, half.d2, tau);
    var N := Combo(N1, half.d1, N2, half.d2, N3, half.d3);
    load := Load(F, N);
  }

  // ------------------------------------------------------- the loop and scatter

  /** Positions and triads of all nodes, and the matrix square root. */
  datatype Shape = Shape(x: seq<real>, d: seq<Triad>, sqrtm: Mat3 -> Mat3)

  predicate ShapeOk(s: Shape, nodes: nat) {
    |s.x| == NDIM * nodes && |s.d| == nodes
  }

  function LoadOf(r: Rod, s: Shape): Load
    requires RodOk(r, |s.d|) && ShapeOk(s, |s.d|)
  {
    RodLoad(NodeAt(s.x, r.curr), NodeAt(s.x, r.next), s.d[r.curr], s.d[r.next],
            Carried(s.sqrtm(Align(s.d[r.curr], s.d[r.next])), s.d[r.curr]), r.params)
  }

  function Loads(rods: seq<Rod>, s: Shape): (loads: seq<Load>)
    requires ShapeOk(s, |s.d|) && AllRodsOk(rods, |s.d|)
    ensures |loads| == |rods| && forall k :: 0 <= k < |rods| ==> loads[k] == LoadOf(rods[k], s)
  {
    seq(|rods|, k requires 0 <= k < |rods| => LoadOf(rods[k], s))
  }

  /** Half the lever arm of a segment crossed with its force. */
  function Lever(x: Vec3, xn: Vec3, f: Vec3): Vec3 {
    Scale(0.5, Cross(Sub(xn, x), f))
  }

  predicate LoadsFit(rods: seq<Rod>, loads: seq<Load>, x: seq<real>) {
    |loads| == |rods| && forall k :: 0 <= k < |rods| ==> RodOk(rods[k], |x| / NDIM)
  }

  function LeverAt(rods: seq<Rod>, loads: seq<Load>, x: seq<real>, k: nat): Vec3
    requires LoadsFit(rods, loads, x) && k < |rods|
  {
    Lever(NodeAt(x, rods[k].curr), NodeAt(x, rods[k].next), loads[k].force)
  }

  function CurrForces(rods: seq<Rod>, loads: seq<Load>, x: seq<real>): (incs: seq<Increment>)
    requires LoadsFit(rods, loads, x)
    ensures |incs| == |rods| && InRange(incs, |x| / NDIM)
  {
    seq(|rods|, k requires 0 <= k < |rods| => Increment(rods[k].curr, loads[k].force))
  }

  function NextForces(rods: seq<Rod>, loads: seq<Load>, x: seq<real>): (incs: seq<Increment>)
    requires LoadsFit(rods, loads, x)
    ensures |incs| == |rods| && InRange(incs, |x| / NDIM)
  {
    seq(|rods|, k requires 0 <= k < |rods| => Increment(rods[k].next, Neg(loads[k].force)))
  }

  function CurrTorques(rods: seq<Rod>, loads: seq<Load>, x: seq<real>): (incs: seq<Increment>)
    requires LoadsFit(rods, loads, x)
    ensures |incs| == |rods| && InRange(incs, |x| / NDIM)
  {
    seq(|rods|, k requires 0 <= k < |rods| => Increment(rods[k].curr, Add(loads[k].torque, LeverAt(rods, loads, x, k))))
  }

  function NextTorques(rods: seq<Rod>, loads: seq<Load>, x: seq<real>): (incs: seq<Increment>)
    requires LoadsFit(rods, loads, x)
    ensures |incs| == |rods| && InRange(incs, |x| / NDIM)
  {
    seq(|rods|, k requires 0 <= k < |rods| =>
        Increment(rods[k].next, Add(Neg(loads[k].torque), LeverAt(rods, loads, x, k))))
  }

  /** The force and torque vectors after the segments' contributions have been added. */
  function ForcesAfter(f: seq<real>, rods: seq<Rod>, loads: seq<Load>, x: seq<real>): (r: seq<real>)
    requires LoadsFit(rods, loads, x) && |f| == |x|
    ensures |r| == |f|
  {
    Accumulate(Accumulate(f, CurrForces(rods, loads, x)), NextForces(rods, loads, x))
  }

  function TorquesAfter(n: seq<real>, rods: seq<Rod>, loads: seq<Load>, x: seq<real>): (r: seq<real>)
    requires LoadsFit(rods, loads, x) && |n| == |x|
    ensures |r| == |n|
  {
    Accumulate(Accumulate(n, CurrTorques(rods, loads, x)), NextTorques(rods, loads, x))
  }

  /** VecSetValuesBlocked with ADD_VALUES. */
  method AddValuesBlocked(f: seq<real>, idxs: seq<nat>, vals: seq<Vec3>, ghost incs: seq<Increment>)
    returns (r: seq<real>)
    requires |idxs| == |vals| == |incs| && InRange(incs, |f| / NDIM)
    requires forall k :: 0 <= k < |incs| ==> incs[k] == Increment(idxs[k], vals[k])
    ensures r == Accumulate(f, incs)
  {
    r := f;
    for k := 0 to |idxs|
      invariant r == Accumulate(f, incs[..k])
    {
      assert incs[k].node == idxs[k];
      assert incs[..k + 1][..k] == incs[..k];
      r := AddAt(r, idxs[k], vals[k]);
    }
    assert incs[..|idxs|] == incs;
  }

  /** The values of one segment written to its four buffer entries. */
  method SegmentValues(r: Rod, s: Shape, ghost load: Load, ghost lever: Vec3)
    returns (fCurr: Vec3, fNext: Vec3, nCurr: Vec3, nNext: Vec3)
    requires ShapeOk(s, |s.d|) && RodOk(r, |s.d|) && load == LoadOf(r, s)
    requires lever == Lever(NodeAt(s.x, r.curr), NodeAt(s.x, r.next), load.force)
    ensures fCurr == load.force && fNext == Neg(load.force) && nCurr == Add(load.torque, lever)
    ensures nNext == Add(Neg(load.torque), lever)
  {
    var x, xn := NodeAt(s.x, r.curr), NodeAt(s.x, r.next);
    var half := ComputeForceAndTorque(x, xn, s.d[r.curr], s.d[r.next], r.params, s.sqrtm);
    fCurr, fNext := half.force, Neg(half.force);
    nCurr := Add(half.torque, Scale(0.5, Cross(Sub(xn, x), half.force)));
    nNext := Add(Neg(half.torque), Scale(0.5, Cross(Sub(xn, x), half.force)));
  }

  ghost predicate Buffered(incs: seq<Increment>, idxs: seq<nat>, vals: seq<Vec3>) {
    |idxs| == |vals| <= |incs| && forall j :: 0 <= j < |vals| ==> incs[j] == Increment(idxs[j], vals[j])
  }

  lemma Extend(incs: seq<Increment>, idxs: seq<nat>, vals: seq<Vec3>, i: nat, v: Vec3)
    requires Buffered(incs, idxs, vals) && |vals| < |incs| && incs[|vals|] == Increment(i, v)
    ensures Buffered(incs, idxs + [i], vals + [v])
  {
  }

  lemma IncrementsAt(rods: seq<Rod>, loads: seq<Load>, x: seq<real>, k: nat, load: Load, lever: Vec3)
    requires LoadsFit(rods, loads, x) && k < |rods| && load == loads[k] && lever == LeverAt(rods, loads, x, k)
    ensures CurrForces(rods, loads, x)[k] == Increment(rods[k].curr, load.force)
    ensures NextForces(rods, loads, x)[k] == Increment(rods[k].next, Neg(load.force))
    ensures CurrTorques(rods, loads, x)[k] == Increment(rods[k].curr, Add(load.torque, lever))
    ensures NextTorques(rods, loads, x)[k] == Increment(rods[k].next, Add(Neg(load.torque), lever))
  {
  }

  /** What one process's segments add to the force and torque vectors. */
  method ComputeLagrangianForceAndTorque(f: seq<real>, n: seq<real>, rods: seq<Rod>, s: Shape, ghost loads: seq<Load>)
    returns (f': seq<real>, n': seq<real>)
    requires ShapeOk(s, |s.d|) && AllRodsOk(rods, |s.d|) && |f| == |n| == |s.x| && LoadsFit(rods, loads, s.x)
    requires forall k :: 0 <= k < |rods| ==> loads[k] == LoadOf(rods[k], s)
    ensures f' == ForcesAfter(f, rods, loads, s.x) && n' == TorquesAfter(n, rods, loads, s.x)
  {
    ghost var cf, nf := CurrForces(rods, loads, s.x), NextForces(rods, loads, s.x);
    ghost var ct, nt := CurrTorques(rods, loads, s.x), NextTorques(rods, loads, s.x);
    var curr, next := [], [];
    var fCurr, fNext, nCurr, nNext := [], [], [], [];
    for k := 0 to |rods|
      invariant |curr| == |next| == k
      invariant Buffered(cf, curr, fCurr) && Buffered(nf, next, fNext)
      invariant Buffered(ct, curr, nCurr) && Buffered(nt, next, nNext)
    {
      ghost var lever := LeverAt(rods, loads, s.x, k);
      IncrementsAt(rods, loads, s.x, k, loads[k], lever);
      var a, b, c, d := SegmentValues(rods[k], s, loads[k], lever);
      Extend(cf, curr, fCurr, rods[k].curr, a);
      Extend(nf, next, fNext, rods[k].next, b);
      Extend(ct, curr, nCurr, rods[k].curr, c);
      Extend(nt, next, nNext, rods[k].next, d);
      curr, next := curr + [rods[k].curr], next + [rods[k].next];
      fCurr, fNext, nCurr, nNext := fCurr + [a], fNext + [b], nCurr + [c], nNext + [d];
    }
    f' := AddValuesBlocked(f, curr, fCurr, cf);
    f' := AddValuesBlocked(f', next, fNext, nf);
    n' := AddValuesBlocked(n, curr, nCurr, ct);
    n' := AddValuesBlocked(n', next, nNext, nt);
  }

  // ------------------------------------------------------------------ balance

  lemma SegmentBalance(x: Vec3, xn: Vec3, f: Vec3, n: Vec3, lever: Vec3)
    requires lever == Lever(x, xn, f)
    ensures Add(f, Neg(f)) == ZERO
    ensures Add(Add(Cross(x, f), Cross(xn, Neg(f))), Add(Add(n, lever), Add(Neg(n), lever))) == ZERO
  {
    CrossSub(xn, x, f);
    CrossScale(-1.0, xn, f);
    NegIsScale(f);
    NegIsScale(Cross(xn, f));
    Halves(Cross(x, f), Cross(xn, f), Cross(Sub(xn, x), f), n, lever);
  }

  lemma NegIsScale(v: Vec3)
    ensures Neg(v) == Scale(-1.0, v)
  {
  }

  lemma Halves(a: Vec3, b: Vec3, c: Vec3, n: Vec3, lever: Vec3)
    requires c == Sub(b, a) && lever == Scale(0.5, c)
    ensures Add(Add(a, Neg(b)), Add(Add(n, lever), Add(Neg(n), lever))) == ZERO
  {
  }

  lemma FourSums(a: Vec3, b: Vec3, c: Vec3, d: Vec3, a': Vec3, b': Vec3, c': Vec3, d': Vec3)
    requires Add(Add(a, b), Add(c, d)) == ZERO && Add(Add(a', b'), Add(c', d')) == ZERO
    ensures Add(Add(Add(a, a'), Add(b, b')), Add(Add(c, c'), Add(d, d'))) == ZERO
  {
  }

  lemma TwoSums(a: Vec3, b: Vec3, a': Vec3, b': Vec3)
    requires Add(a, b) == ZERO && Add(a', b') == ZERO
    ensures Add(Add(a, a'), Add(b, b')) == ZERO
  {
  }

  /** Four increments that cancel in force and in X x F plus torque. */
  ghost predicate Cancels(x: seq<real>, a: Increment, b: Increment, c: Increment, d: Increment)
    requires a.node < |x| / NDIM && b.node < |x| / NDIM
  {
    && Add(a.v, b.v) == ZERO
    && Add(Add(Cross(NodeAt(x, a.node), a.v), Cross(NodeAt(x, b.node), b.v)), Add(c.v, d.v)) == ZERO
  }

  lemma {:induction false} ListsCancel(x: seq<real>, a: seq<Increment>, b: seq<Increment>, c: seq<Increment>,
                                       d: seq<Increment>)
    requires |a| == |b| == |c| == |d| && InRange(a, |x| / NDIM) && InRange(b, |x| / NDIM)
    requires forall k :: 0 <= k < |a| ==> Cancels(x, a[k], b[k], c[k], d[k])
    ensures Add(Sum(a), Sum(b)) == ZERO
    ensures Add(Add(Moment(x, a), Moment(x, b)), Add(Sum(c), Sum(d))) == ZERO
  {
    if a != [] {
      var n := |a| - 1;
      ListsCancel(x, a[..n], b[..n], c[..n], d[..n]);
      assert Cancels(x, a[n], b[n], c[n], d[n]);
      TwoSums(Sum(a[..n]), Sum(b[..n]), a[n].v, b[n].v);
      FourSums(Moment(x, a[..n]), Moment(x, b[..n]), Sum(c[..n]), Sum(d[..n]),
               Cross(NodeAt(x, a[n].node), a[n].v), Cross(NodeAt(x, b[n].node), b[n].v), c[n].v, d[n].v);
    }
  }

  /** All increments of a list of segments cancel in force and in X x F plus torque. */
  lemma RodsBalance(rods: seq<Rod>, loads: seq<Load>, x: seq<real>)
    requires LoadsFit(rods, loads, x)
    ensures Add(Sum(CurrForces(rods, loads, x)), Sum(NextForces(rods, loads, x))) == ZERO
    ensures Add(Add(Moment(x, CurrForces(rods, loads, x)), Moment(x, NextForces(rods, loads, x))),
                Add(Sum(CurrTorques(rods, loads, x)), Sum(NextTorques(rods, loads, x)))) == ZERO
  {
    var a, b := CurrForces(rods, loads, x), NextForces(rods, loads, x);
    var c, d := CurrTorques(rods, loads, x), NextTorques(rods, loads, x);
    forall k | 0 <= k < |rods| ensures Cancels(x, a[k], b[k], c[k], d[k]) {
      var lever := LeverAt(rods, loads, x, k);
      IncrementsAt(rods, loads, x, k, loads[k], lever);
      SegmentBalance(NodeAt(x, rods[k].curr), NodeAt(x, rods[k].next), loads[k].force, loads[k].torque, lever);
    }
    ListsCancel(x, a, b, c, d);
  }

  /** The total of X x F plus nodal torques. */
  ghost function TotalTorque(x: seq<real>, f: seq<real>, n: seq<real>, nodes: nat): Vec3
    requires |x| == |f| == |n| == NDIM * nodes
  {
    Add(NetTorque(x, f, nodes), NetForce(n, nodes))
  }

  /** Whatever the segments and their loads, one process changes neither the total force nor the total
      of X x F plus torques. */
  lemma ProcessBalance(f: seq<real>, n: seq<real>, rods: seq<Rod>, loads: seq<Load>, x: seq<real>, m: nat)
    requires LoadsFit(rods, loads, x) && |f| == |n| == |x| == NDIM * m
    ensures NetForce(ForcesAfter(f, rods, loads, x), m) == NetForce(f, m)
    ensures TotalTorque(x, ForcesAfter(f, rods, loads, x), TorquesAfter(n, rods, loads, x), m) ==
            TotalTorque(x, f, n, m)
  {
    var f1, n1 := Accumulate(f, CurrForces(rods, loads, x)), Accumulate(n, CurrTorques(rods, loads, x));
    AccumulateNet(x, f, CurrForces(rods, loads, x), m);
    AccumulateNet(x, f1, NextForces(rods, loads, x), m);
    AccumulateNet(x, n, CurrTorques(rods, loads, x), m);
    AccumulateNet(x, n1, NextTorques(rods, loads, x), m);
    RodsBalance(rods, loads, x);
    Unmoved(NetForce(f, m), Sum(CurrForces(rods, loads, x)), Sum(NextForces(rods, loads, x)));
    UnmovedPair(NetTorque(x, f, m), Moment(x, CurrForces(rods, loads, x)), Moment(x, NextForces(rods, loads, x)),
                NetForce(n, m), Sum(CurrTorques(rods, loads, x)), Sum(NextTorques(rods, loads, x)));
  }

  lemma Unmoved(t: Vec3, a: Vec3, b: Vec3)
    requires Add(a, b) == ZERO
    ensures Add(Add(t, a), b) == t
  {
  }

  lemma UnmovedPair(t: Vec3, a: Vec3, b: Vec3, u: Vec3, c: Vec3, d: Vec3)
    requires Add(Add(a, b), Add(c, d)) == ZERO
    ensures Add(Add(Add(t, a), b), Add(Add(u, c), d)) == Add(t, u)
  {
  }

  // -------------------------------------------------------------------- power

  /** How fast a segment is stretched, against its own turning with the mean of its nodes' angular velocities, when the
      nodes move with velocities `v` and angular velocities `w`. */
  function StretchRate(r: Rod, x: seq<real>, v: seq<real>, w: seq<real>): Vec3
    requires RodOk(r, |x| / NDIM) && |v| == |w| == |x|
  {
    Sub(Sub(NodeAt(v, r.next), NodeAt(v, r.curr)),
        Cross(Scale(0.5, Add(NodeAt(w, r.curr), NodeAt(w, r.next))), Sub(NodeAt(x, r.next), NodeAt(x, r.curr))))
  }

  /** The power a segment takes up: its force along the rate of stretching and its torque along the difference of the
      angular velocities, from the current node to the next. */
  ghost function SegmentPower(r: Rod, s: Shape, v: seq<real>, w: seq<real>): real
    requires ShapeOk(s, |s.d|) && RodOk(r, |s.d|) && |v| == |w| == |s.x|
  {
    var load := RodLoad(NodeAt(s.x, r.curr), NodeAt(s.x, r.next), s.d[r.curr], s.d[r.next],
                        Carried(s.sqrtm(Align(s.d[r.curr], s.d[r.next])), s.d[r.curr]), r.params);
    Dot(load.force, StretchRate(r, s.x, v, w)) + Dot(load.torque, Sub(NodeAt(w, r.next), NodeAt(w, r.curr)))
  }

  ghost function RodsPower(rods: seq<Rod>, s: Shape, v: seq<real>, w: seq<real>): real
    requires ShapeOk(s, |s.d|) && AllRodsOk(rods, |s.d|) && |v| == |w| == |s.x|
  {
    if rods == [] then 0.0
    else RodsPower(rods[..|rods| - 1], s, v, w) + SegmentPower(rods[|rods| - 1], s, v, w)
  }

  /** The segments of all processes. */
  ghost predicate NetworkOk(processes: seq<seq<Rod>>, nodes: nat) {
    forall p :: 0 <= p < |processes| ==> AllRodsOk(processes[p], nodes)
  }

  ghost function NetworkPower(processes: seq<seq<Rod>>, s: Shape, v: seq<real>, w: seq<real>, n: nat): real
    requires ShapeOk(s, |s.d|) && NetworkOk(processes, |s.d|) && |v| == |w| == |s.x| && n <= |processes|
  {
    if n == 0 then 0.0 else NetworkPower(processes, s, v, w, n - 1) + RodsPower(processes[n - 1], s, v, w)
  }

  lemma SegmentWork(f: Vec3, n: Vec3, vc: Vec3, vn: Vec3, wc: Vec3, wn: Vec3, arm: Vec3, lever: Vec3, rate: Vec3)
    requires lever == Scale(0.5, Cross(arm, f)) && rate == Sub(Sub(vn, vc), Cross(Scale(0.5, Add(wc, wn)), arm))
    ensures Dot(vc, f) + Dot(vn, Neg(f)) + Dot(wc, Add(n, lever)) + Dot(wn, Add(Neg(n), lever))
         == -(Dot(f, rate) + Dot(n, Sub(wn, wc)))
  {
    var mean := Scale(0.5, Add(wc, wn));
    LeverPower(f, wc, wn, arm, lever, mean);
    DotLinear(1.0, Sub(vn, vc), Cross(mean, arm), f);
    DotLinear(1.0, vn, vc, f);
    DotLinear(1.0, wn, wc, n);
    DotLinear(1.0, n, lever, wc);
    DotLinear(1.0, Neg(n), lever, wn);
    DotNeg(vn, f);
    DotNeg(wn, n);
    DotCommutes(vc, f);
    DotCommutes(vn, f);
    DotCommutes(wc, n);
    DotCommutes(wn, n);
  }

  lemma LeverPower(f: Vec3, wc: Vec3, wn: Vec3, arm: Vec3, lever: Vec3, mean: Vec3)
    requires lever == Scale(0.5, Cross(arm, f)) && mean == Scale(0.5, Add(wc, wn))
    ensures Dot(wc, lever) + Dot(wn, lever) == Dot(f, Cross(mean, arm))
  {
    var k := Cross(arm, f);
    DotLinear(0.5, k, k, Add(wc, wn));
    DotLinear(0.5, Add(wc, wn), wc, k);
    DotLinear(1.0, wc, wn, lever);
    TripleCyclic(mean, arm, f);
  }

  ghost predicate ShapesLoads(rods: seq<Rod>, loads: seq<Load>, s: Shape) {
    && ShapeOk(s, |s.d|) && AllRodsOk(rods, |s.d|) && LoadsFit(rods, loads, s.x)
    && forall k :: 0 <= k < |rods| ==> loads[k] == LoadOf(rods[k], s)
  }

  /** The work of the four lists of increments of a process. */
  ghost function ListsWork(rods: seq<Rod>, loads: seq<Load>, x: seq<real>, v: seq<real>, w: seq<real>): real
    requires LoadsFit(rods, loads, x) && |v| == |w| == |x|
  {
    Work(v, CurrForces(rods, loads, x)) + Work(v, NextForces(rods, loads, x))
    + Work(w, CurrTorques(rods, loads, x)) + Work(w, NextTorques(rods, loads, x))
  }

  lemma LastIncrements(rods: seq<Rod>, loads: seq<Load>, x: seq<real>)
    requires LoadsFit(rods, loads, x) && rods != []
    ensures LoadsFit(rods[..|rods| - 1], loads[..|rods| - 1], x)
    ensures var n, load, lever := |rods| - 1, loads[|rods| - 1], LeverAt(rods, loads, x, |rods| - 1);
            && CurrForces(rods, loads, x) ==
               CurrForces(rods[..n], loads[..n], x) + [Increment(rods[n].curr, load.force)]
            && NextForces(rods, loads, x)
               == NextForces(rods[..n], loads[..n], x) + [Increment(rods[n].next, Neg(load.force))]
            && CurrTorques(rods, loads, x)
               == CurrTorques(rods[..n], loads[..n], x) + [Increment(rods[n].curr, Add(load.torque, lever))]
            && NextTorques(rods, loads, x)
               == NextTorques(rods[..n], loads[..n], x) + [Increment(rods[n].next, Add(Neg(load.torque), lever))]
  {
  }

  lemma OneMoreSegment(rods: seq<Rod>, loads: seq<Load>, x: seq<real>, v: seq<real>, w: seq<real>, n: nat)
    requires LoadsFit(rods, loads, x) && |rods| == n + 1 && |v| == |w| == |x|
    ensures LoadsFit(rods[..n], loads[..n], x)
    ensures var r, load, lever := rods[n], loads[n], LeverAt(rods, loads, x, n);
            ListsWork(rods, loads, x, v, w)
            == ListsWork(rods[..n], loads[..n], x, v, w)
               + (Dot(NodeAt(v, r.curr), load.force) + Dot(NodeAt(v, r.next), Neg(load.force))
                  + Dot(NodeAt(w, r.curr), Add(load.torque, lever))
                    + Dot(NodeAt(w, r.next), Add(Neg(load.torque), lever)))
  {
    LastIncrements(rods, loads, x);
    var r, load, lever := rods[n], loads[n], LeverAt(rods, loads, x, n);
    WorkGrows(v, CurrForces(rods[..n], loads[..n], x), Increment(r.curr, load.force), CurrForces(rods, loads, x));
    WorkGrows(v, NextForces(rods[..n], loads[..n], x), Increment(r.next, Neg(load.force)), NextForces(rods, loads, x));
    WorkGrows(w, CurrTorques(rods[..n], loads[..n], x), Increment(r.curr, Add(load.torque, lever)),
              CurrTorques(rods, loads, x));
    WorkGrows(w, NextTorques(rods[..n], loads[..n], x), Increment(r.next, Add(Neg(load.torque), lever)),
              NextTorques(rods, loads, x));
  }

  lemma {:induction false} ListsPower(rods: seq<Rod>, loads: seq<Load>, s: Shape, v: seq<real>, w: seq<real>)
    requires ShapesLoads(rods, loads, s) && |v| == |w| == |s.x|
    ensures ListsWork(rods, loads, s.x, v, w) == -RodsPower(rods, s, v, w)
  {
    if rods != [] {
      var n := |rods| - 1;
      var r, load := rods[n], loads[n];
      assert ShapesLoads(rods[..n], loads[..n], s);
      ListsPower(rods[..n], loads[..n], s, v, w);
      OneMoreSegment(rods, loads, s.x, v, w, n);
      SegmentWork(load.force, load.torque, NodeAt(v, r.curr), NodeAt(v, r.next), NodeAt(w, r.curr), NodeAt(w, r.next),
                  Sub(NodeAt(s.x, r.next), NodeAt(s.x, r.curr)), LeverAt(rods, loads, s.x, n),
                  StretchRate(r, s.x, v, w));
    }
  }

  /** The power of the nodal forces and torques along the nodes' velocities and angular velocities. */
  ghost function WholePower(f: seq<real>, n: seq<real>, v: seq<real>, w: seq<real>, m: nat): real
    requires |f| == |n| == |v| == |w| == NDIM * m
  {
    NodalPower(v, f, m) + NodalPower(w, n, m)
  }

  lemma ProcessPower(f: seq<real>, n: seq<real>, rods: seq<Rod>, loads: seq<Load>, s: Shape, v: seq<real>,
                     w: seq<real>, m: nat)
    requires ShapesLoads(rods, loads, s) && |f| == |n| == |s.x| == |v| == |w| == NDIM * m && |s.d| == m
    ensures WholePower(ForcesAfter(f, rods, loads, s.x), TorquesAfter(n, rods, loads, s.x), v, w, m)
         == WholePower(f, n, v, w, m) - RodsPower(rods, s, v, w)
  {
    var x := s.x;
    AccumulatePower(v, f, CurrForces(rods, loads, x), m);
    AccumulatePower(v, Accumulate(f, CurrForces(rods, loads, x)), NextForces(rods, loads, x), m);
    AccumulatePower(w, n, CurrTorques(rods, loads, x), m);
    AccumulatePower(w, Accumulate(n, CurrTorques(rods, loads, x)), NextTorques(rods, loads, x), m);
    ListsPower(rods, loads, s, v, w);
  }

  /** Along every motion the segments of the first `count` processes have taken up their power from the nodes. This
      determines the forces and torques they have added. */
  ghost predicate TakesUp(f: seq<real>, n: seq<real>, f': seq<real>, n': seq<real>, processes: seq<seq<Rod>>, s: Shape,
                          count: nat)
    requires ShapeOk(s, |s.d|) && NetworkOk(processes, |s.d|) && count <= |processes|
    requires |f| == |n| == |f'| == |n'| == |s.x|
  {
    forall v: seq<real>, w: seq<real> :: |v| == |w| == |s.x| ==>
      WholePower(f', n', v, w, |s.d|) == WholePower(f, n, v, w, |s.d|) - NetworkPower(processes, s, v, w, count)
  }

  lemma OneMoreProcess(f: seq<real>, n: seq<real>, f1: seq<real>, n1: seq<real>, f2: seq<real>, n2: seq<real>,
                       processes: seq<seq<Rod>>, loads: seq<Load>, s: Shape, p: nat)
    requires ShapeOk(s, |s.d|) && NetworkOk(processes, |s.d|) && p < |processes| && ShapesLoads(processes[p], loads, s)
    requires |f| == |n| == |f1| == |n1| == |s.x| && TakesUp(f, n, f1, n1, processes, s, p)
    requires f2 == ForcesAfter(f1, processes[p], loads, s.x) && n2 == TorquesAfter(n1, processes[p], loads, s.x)
    ensures TakesUp(f, n, f2, n2, processes, s, p + 1)
  {
    forall v: seq<real>, w: seq<real> | |v| == |w| == |s.x|
      ensures WholePower(f2, n2, v, w, |s.d|)
           == WholePower(f, n, v, w, |s.d|) - NetworkPower(processes, s, v, w, p + 1)
    {
      ProcessPower(f1, n1, processes[p], loads, s, v, w, |s.d|);
      assert WholePower(f1, n1, v, w, |s.d|) == WholePower(f, n, v, w, |s.d|) - NetworkPower(processes, s, v, w, p);
    }
  }

  /** The first `count` processes have taken up their power and left total force and total torque as they were. */
  ghost predicate Progress(f: seq<real>, n: seq<real>, f': seq<real>, n': seq<real>, processes: seq<seq<Rod>>,
                           s: Shape, count: nat)
    requires ShapeOk(s, |s.d|) && NetworkOk(processes, |s.d|) && count <= |processes| && |f| == |n| == |s.x|
  {
    && |f'| == |n'| == |s.x| && TakesUp(f, n, f', n', processes, s, count)
    && NetForce(f', |s.d|) == NetForce(f, |s.d|) && TotalTorque(s.x, f', n', |s.d|) == TotalTorque(s.x, f, n, |s.d|)
  }

  lemma ProcessProgress(f: seq<real>, n: seq<real>, f1: seq<real>, n1: seq<real>, f2: seq<real>, n2: seq<real>,
                        processes: seq<seq<Rod>>, loads: seq<Load>, s: Shape, p: nat)
    requires ShapeOk(s, |s.d|) && NetworkOk(processes, |s.d|) && p < |processes| && ShapesLoads(processes[p], loads, s)
    requires |f| == |n| == |s.x| && Progress(f, n, f1, n1, processes, s, p)
    requires f2 == ForcesAfter(f1, processes[p], loads, s.x) && n2 == TorquesAfter(n1, processes[p], loads, s.x)
    ensures Progress(f, n, f2, n2, processes, s, p + 1)
  {
    ProcessBalance(f1, n1, processes[p], loads, s.x, |s.d|);
    OneMoreProcess(f, n, f1, n1, f2, n2, processes, loads, s, p);
  }

  /** One process of the accumulation. */
  method AddProcess(f1: seq<real>, n1: seq<real>, processes: seq<seq<Rod>>, s: Shape, p: nat, ghost f: seq<real>,
                    ghost n: seq<real>)
    returns (f2: seq<real>, n2: seq<real>)
    requires ShapeOk(s, |s.d|) && NetworkOk(processes, |s.d|) && p < |processes| && |f| == |n| == |s.x|
    requires Progress(f, n, f1, n1, processes, s, p)
    ensures Progress(f, n, f2, n2, processes, s, p + 1)
  {
    ghost var loads := Loads(processes[p], s);
    f2, n2 := ComputeLagrangianForceAndTorque(f1, n1, processes[p], s, loads);
    ProcessProgress(f, n, f1, n1, f2, n2, processes, loads, s, p);
  }

  /** The whole accumulation over all processes: for any network of rods, positions, directors and
      parameters, total force and total torque are what they were before, and along every motion the nodal forces
      and torques have lost the power that the segments take up. */
  method ComputeAll(f: seq<real>, n: seq<real>, processes: seq<seq<Rod>>, s: Shape)
    returns (f': seq<real>, n': seq<real>)
    requires ShapeOk(s, |s.d|) && |f| == |n| == NDIM * |s.d|
    requires NetworkOk(processes, |s.d|)
    ensures |f'| == |n'| == NDIM * |s.d|
    ensures TakesUp(f, n, f', n', processes, s, |processes|)
    ensures NetForce(f', |s.d|) == NetForce(f, |s.d|)
    ensures TotalTorque(s.x, f', n', |s.d|) == TotalTorque(s.x, f, n, |s.d|)
  {
    f', n' := f, n;
    for p := 0 to |processes|
      invariant Progress(f, n, f', n', processes, s, p)
    {
      f', n' := AddProcess(f', n', processes, s, p, f, n);
    }
  }
}
