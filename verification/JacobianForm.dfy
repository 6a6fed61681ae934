/** The force Jacobian as a bilinear form of two motions of the nodes, read off the elements: along a spring it is
    dT/dR, across it T/R, of a beam the bending, of a target point the stiffness and the damping. It follows that
    stretched, stiffening springs, beams and target points dissipate. */
module JacobianForm {
  import opened Options
  import opened Vectors
  import opened Increments
  import opened NodalWork
  import opened ForceElements
  import opened ForceJacobian

  // ---------------------------------------------------------------- springs

  /** The product of two motions' parts along a spring. */
  function Along(d: Vec3, r: real, z: Vec3, y: Vec3): real
    requires r != 0.0
  {
    (Dot(d, z) / r) * (Dot(d, y) / r)
  }

  lemma AlongTimes(d: Vec3, r: real, z: Vec3, y: Vec3, s: real)
    requires r != 0.0 && s == r * r
    ensures Along(d, r, z, y) * s == Dot(d, z) * Dot(d, y)
  {
    var p, q := Dot(d, z) / r, Dot(d, y) / r;
    QuotientTimes(Dot(d, z), r, p);
    QuotientTimes(Dot(d, y), r, q);
    Paired(p, q, r, s, Dot(d, z), Dot(d, y));
  }

  lemma Paired(p: real, q: real, r: real, s: real, x: real, y: real)
    requires p * r == x && q * r == y && s == r * r
    ensures (p * q) * s == x * y
  {
    assert (p * q) * (r * r) == (p * r) * (q * r);
  }

  lemma FormSplits(h: real, s: real, q: real, p: real, gz: real, gy: real, w: real)
    requires h * s == q && p * s == gz * gy && w == h * gy
    ensures w * gz == q * p
  {
    assert w * gz == h * (gz * gy);
    assert h * (p * s) == (h * s) * p;
  }

  lemma DotOfSum(z: Vec3, y: Vec3, d: Vec3, tr: real, w: real, zy: real, g: real)
    requires zy == Dot(z, y) && g == Dot(d, z)
    ensures Dot(z, Add(Scale(tr, y), Scale(w, d))) == tr * zy + w * g
  {
    DotLinear(1.0, Scale(tr, y), Scale(w, d), z);
    DotLinear(tr, y, y, z);
    DotLinear(w, d, d, z);
  }

  lemma EntriesForm(tr: real, q: real, d: Vec3, s: real, h: real, z: Vec3, y: Vec3, zy: real, gz: real, gy: real)
    returns (f: real, w: real)
    requires s != 0.0 && h == q / s && zy == Dot(z, y) && gz == Dot(d, z) && gy == Dot(d, y)
    ensures f == Dot(z, Apply(SpringEntries(tr, q, d, s), y)) == tr * zy + w * gz && w == h * gy
  {
    w := h * gy;
    SpringTimes(tr, q, d, s, h, y, w);
    DotOfSum(z, y, d, tr, w, zy, gz);
    f := tr * zy + w * gz;
  }

  lemma ScaledForm(a: real, m: Mat3, z: Vec3, y: Vec3, f: real)
    requires f == Dot(z, Apply(m, y))
    ensures Dot(z, Apply(MatScale(a, m), y)) == a * f
  {
    ScaledTimes(a, m, y, Apply(m, y));
    DotScaled(a, Apply(m, y), z, f);
    DotCommutes(z, Scale(a, Apply(m, y)));
    DotCommutes(z, Apply(m, y));
  }

  /** A spring between two motions: dT/dR along it and T/R across. */
  function SpringValue(a: real, slope: real, t: real, r: real, d: Vec3, z: Vec3, y: Vec3): real
    requires r != 0.0
  {
    a * (slope * Along(d, r, z, y) + t / r * (Dot(z, y) - Along(d, r, z, y)))
  }

  lemma SplitValue(a: real, slope: real, t: real, r: real, d: Vec3, z: Vec3, y: Vec3, tr: real, q: real, p: real,
                   zy: real, wg: real, f: real)
    requires r != 0.0 && tr == t / r && p == Along(d, r, z, y) && zy == Dot(z, y)
    requires q == slope - tr && wg == q * p && f == tr * zy + wg
    ensures a * f == SpringValue(a, slope, t, r, d, z, y)
  {
    Split(slope, tr, p, zy, wg, f, q);
    SameFactor(a, f, slope * p + tr * (zy - p));
  }

  lemma Split(slope: real, tr: real, p: real, zy: real, wg: real, f: real, q: real)
    requires q == slope - tr && wg == q * p && f == tr * zy + wg
    ensures f == slope * p + tr * (zy - p)
  {
  }

  lemma SameFactor(a: real, x: real, y: real)
    requires x == y
    ensures a * x == a * y
  {
  }

  /** A spring's block between two vectors. */
  lemma SpringForm(a: real, slope: real, t: real, r: real, tr: real, q: real, d: Vec3, s: real, z: Vec3, y: Vec3)
    requires r > 0.0 && s == r * r && s != 0.0 && tr == t / r && q == slope - tr
    ensures Dot(z, Apply(MatScale(a, SpringEntries(tr, q, d, s)), y)) == SpringValue(a, slope, t, r, d, z, y)
  {
    var h := q / s;
    QuotientTimes(q, s, h);
    var f, w := EntriesForm(tr, q, d, s, h, z, y, Dot(z, y), Dot(d, z), Dot(d, y));
    AlongTimes(d, r, z, y, s);
    FormSplits(h, s, q, Along(d, r, z, y), Dot(d, z), Dot(d, y), w);
    SplitValue(a, slope, t, r, d, z, y, tr, q, Along(d, r, z, y), Dot(z, y), w * Dot(d, z), f);
    ScaledForm(a, SpringEntries(tr, q, d, s), z, y, f);
  }

  lemma ApplySub(k: Mat3, v: Vec3, w: Vec3)
    ensures Apply(k, Sub(v, w)) == Sub(Apply(k, v), Apply(k, w))
  {
    DotLinear(1.0, v, w, k.r0);
    DotLinear(1.0, v, w, k.r1);
    DotLinear(1.0, v, w, k.r2);
  }

  /** The four blocks of a spring do minus the work of its block between the differences of the end points. */
  lemma FourBlocksWork(k: Mat3, zm: Vec3, zs: Vec3, ym: Vec3, ys: Vec3, km: Vec3, ks: Vec3)
    requires km == Apply(k, ym) && ks == Apply(k, ys)
    ensures Dot(zm, ks) + Dot(zs, km) + Dot(zm, Neg(km)) + Dot(zs, Neg(ks)) == -Dot(Sub(zs, zm), Apply(k, Sub(ys, ym)))
  {
    ApplySub(k, ys, ym);
    var kd := Sub(ks, km);
    DotLinear(1.0, zs, zm, kd);
    DotLinear(1.0, ks, km, zs);
    DotLinear(1.0, ks, km, zm);
    DotNeg(zm, km);
    DotNeg(zs, ks);
  }

  // --------------------------------------------------------------- elements

  /** What an element adds to the form: X_coef times dT/dR along and T/R across a spring longer than the cut-off,
      X_coef times the rigidity times both bends, X_coef times the stiffness and U_coef times the damping. */
  ghost function ElementForm(e: Element, a: real, b: real, x: seq<real>, z: seq<real>, y: seq<real>, laws: Laws): real
    requires ValidLaws(laws) && |x| == |y| == |z| && Within(e, |x| / NDIM)
  {
    match e
    case Spring(lm, ls, m, s, fcn, params) =>
      var d := Sub(NodeAt(x, s), NodeAt(x, m));
      var r := laws.phys.norm(d);
      if r < laws.phys.eps then 0.0
      else
        var dz, dy := Sub(NodeAt(z, s), NodeAt(z, m)), Sub(NodeAt(y, s), NodeAt(y, m));
        SpringValue(a, Slope(e, r, laws), laws.phys.tension(fcn, r, params, lm, ls), r, d, dz, dy)
    case Beam(m, n, p, bend, _) => a * bend * Dot(Bend(z, m, n, p), Bend(y, m, n, p))
    case Target(m, kappa, eta, _) => (a * kappa + b * eta) * Dot(NodeAt(z, m), NodeAt(y, m))
  }

  ghost predicate FormOf(e: Element, a: real, b: real, x: seq<real>, z: seq<real>, y: seq<real>, laws: Laws,
                         incs: seq<Increment>)
    requires ValidLaws(laws) && |x| == |y| == |z| && Within(e, |x| / NDIM)
  {
    InRange(incs, |z| / NDIM) && Work(z, incs) == -ElementForm(e, a, b, x, z, y, laws)
  }

  lemma SpringBlocksForm(e: Element, a: real, b: real, x: seq<real>, z: seq<real>, y: seq<real>, laws: Laws)
    requires e.Spring? && ValidLaws(laws) && |x| == |y| == |z| && Within(e, |x| / NDIM)
    ensures FormOf(e, a, b, x, z, y, laws, Product(ElementBlocks(e, a, b, x, laws), y))
  {
    var d := Sub(NodeAt(x, e.slave), NodeAt(x, e.master));
    match SpringJacobian(e, d, a, laws)
    case None =>
      assert Product(ElementBlocks(e, a, b, x, laws), y) == [];
    case Some(k) =>
      var m, s := e.master, e.slave;
      var km, ks := Apply(k, NodeAt(y, m)), Apply(k, NodeAt(y, s));
      SpringProducts(m, s, k, y, km, ks);
      WorkOfFour(z, Increment(m, ks), Increment(s, km), Increment(m, Neg(km)), Increment(s, Neg(ks)),
                 Product(ElementBlocks(e, a, b, x, laws), y));
      FourBlocksWork(k, NodeAt(z, m), NodeAt(z, s), NodeAt(y, m), NodeAt(y, s), km, ks);
      SpringBlockForm(e, d, a, laws, laws.phys.norm(d), Sub(NodeAt(z, s), NodeAt(z, m)),
                      Sub(NodeAt(y, s), NodeAt(y, m)));
  }

  /** The products of a spring's blocks. */
  lemma SpringProducts(m: nat, s: nat, k: Mat3, y: seq<real>, km: Vec3, ks: Vec3)
    requires m < |y| / NDIM && s < |y| / NDIM && km == Apply(k, NodeAt(y, m)) && ks == Apply(k, NodeAt(y, s))
    ensures var blocks := [Block(m, s, k), Block(s, m, k), Block(m, m, MatNeg(k)), Block(s, s, MatNeg(k))];
            && BlocksIn(blocks, |y| / NDIM)
            && Product(blocks, y) == [Increment(m, ks), Increment(s, km), Increment(m, Neg(km)), Increment(s, Neg(ks))]
  {
    ApplyMatNeg(k, NodeAt(y, m));
    ApplyMatNeg(k, NodeAt(y, s));
    ChunkProducts([Block(m, s, k), Block(s, m, k), Block(m, m, MatNeg(k)), Block(s, s, MatNeg(k))], y, ks, km,
                  Neg(km), Neg(ks));
  }

  lemma MatrixForm(a: real, slope: real, t: real, r: real, d: Vec3, z: Vec3, y: Vec3)
    requires r > 0.0
    ensures Dot(z, Apply(SpringMatrix(a, t, slope, d, r), y)) == SpringValue(a, slope, t, r, d, z, y)
  {
    SquarePositive(r, r * r);
    SpringForm(a, slope, t, r, t / r, slope - t / r, d, r * r, z, y);
  }

  lemma SpringBlockForm(e: Element, d: Vec3, a: real, laws: Laws, r: real, z: Vec3, y: Vec3)
    requires e.Spring? && ValidLaws(laws) && SpringJacobian(e, d, a, laws).Some? && r == laws.phys.norm(d)
    ensures r >= laws.phys.eps
    ensures var t := laws.phys.tension(e.fcn, r, e.params, e.lagMaster, e.lagSlave);
            Dot(z, Apply(SpringJacobian(e, d, a, laws).value, y)) == SpringValue(a, Slope(e, r, laws), t, r, d, z, y)
  {
    MatrixForm(a, Slope(e, r, laws), laws.phys.tension(e.fcn, r, e.params, e.lagMaster, e.lagSlave), r, d, z, y);
  }

  /** The pulls of a beam in the motion `y` work along `z` against the stiffness times both bends. */
  lemma PullWork(c: real, zm: Vec3, zn: Vec3, zp: Vec3, g: Vec3, zb: Vec3, yb: Vec3)
    requires zb == Sub(Add(zn, zp), Scale(2.0, zm)) && g == Scale(c, yb)
    ensures Dot(zm, Scale(2.0, g)) + Dot(zn, Neg(g)) + Dot(zp, Neg(g)) == -(c * Dot(zb, yb))
  {
    DotLinear(2.0, g, g, zm);
    DotNeg(zn, g);
    DotNeg(zp, g);
    DotLinear(1.0, Add(zn, zp), Scale(2.0, zm), g);
    DotLinear(1.0, zn, zp, g);
    DotLinear(2.0, zm, zm, g);
    DotLinear(c, yb, yb, zb);
  }

  /** The pull of a beam in the motion `y`: X_coef times the rigidity times the bend. */
  lemma BendOf(e: Element, a: real, y: seq<real>, n: nat) returns (g: Vec3, c: real)
    requires e.Beam? && |y| == NDIM * n && Within(e, n)
    ensures g == Sub(Add(BendVector(e, a, y, e.next), BendVector(e, a, y, e.prev)),
                     Scale(2.0, BendVector(e, a, y, e.master)))
    ensures c == a * e.rigidity && g == Scale(c, Bend(y, e.master, e.next, e.prev))
  {
    g := Sub(Add(BendVector(e, a, y, e.next), BendVector(e, a, y, e.prev)),
             Scale(2.0, BendVector(e, a, y, e.master)));
    c := e.rigidity * a;
    ScaledBend(c, NodeAt(y, e.master), NodeAt(y, e.next), NodeAt(y, e.prev));
  }

  lemma ScaledBend(c: real, ym: Vec3, yn: Vec3, yp: Vec3)
    ensures Sub(Add(Scale(c, yn), Scale(c, yp)), Scale(2.0, Scale(c, ym))) == Scale(c, Sub(Add(yn, yp), Scale(2.0, ym)))
  {
  }

  /** The blocks of a beam do the work of its pulls. */
  lemma BeamBlocksWork(e: Element, a: real, b: real, x: seq<real>, z: seq<real>, y: seq<real>, laws: Laws, n: nat,
                       g: Vec3)
    requires e.Beam? && ValidLaws(laws) && |x| == |y| == |z| == NDIM * n && Within(e, n)
    requires g == Sub(Add(BendVector(e, a, y, e.next), BendVector(e, a, y, e.prev)),
                      Scale(2.0, BendVector(e, a, y, e.master)))
    ensures InRange(PullIncs(e.master, e.next, e.prev, g), n)
    ensures Work(z, Product(ElementBlocks(e, a, b, x, laws), y)) == Work(z, PullIncs(e.master, e.next, e.prev, g))
  {
    var incs, pulls := Product(ElementBlocks(e, a, b, x, laws), y), PullIncs(e.master, e.next, e.prev, g);
    forall i: nat | i < n
      ensures Total(incs, i) == Total(pulls, i)
    {
      BeamPull(e, a, b, x, y, laws, BendVector(e, a, y, e.master), BendVector(e, a, y, e.next),
               BendVector(e, a, y, e.prev), g, i);
    }
    SameTotalsSameWork(z, incs, pulls, n);
    WorkByNode(z, incs, n);
    WorkByNode(z, pulls, n);
  }

  lemma PullIncsWork(z: seq<real>, m: nat, nx: nat, pv: nat, c: real, g: Vec3, zb: Vec3, yb: Vec3)
    requires m < |z| / NDIM && nx < |z| / NDIM && pv < |z| / NDIM && zb == Bend(z, m, nx, pv) && g == Scale(c, yb)
    ensures InRange(PullIncs(m, nx, pv, g), |z| / NDIM)
    ensures Work(z, PullIncs(m, nx, pv, g)) == -(c * Dot(zb, yb))
  {
    WorkOfThree(z, Increment(m, Scale(2.0, g)), Increment(nx, Neg(g)), Increment(pv, Neg(g)),
                PullIncs(m, nx, pv, g));
    PullWork(c, NodeAt(z, m), NodeAt(z, nx), NodeAt(z, pv), g, zb, yb);
  }

  lemma BeamFormIs(e: Element, a: real, b: real, x: seq<real>, z: seq<real>, y: seq<real>, laws: Laws, c: real,
                   zb: Vec3, yb: Vec3)
    requires e.Beam? && ValidLaws(laws) && |x| == |y| == |z| && Within(e, |x| / NDIM) && c == a * e.rigidity
    requires zb == Bend(z, e.master, e.next, e.prev) && yb == Bend(y, e.master, e.next, e.prev)
    ensures ElementForm(e, a, b, x, z, y, laws) == c * Dot(zb, yb)
  {
  }

  lemma BeamBlocksForm(e: Element, a: real, b: real, x: seq<real>, z: seq<real>, y: seq<real>, laws: Laws, n: nat,
                       zb: Vec3, yb: Vec3)
    requires e.Beam? && ValidLaws(laws) && |x| == |y| == |z| == NDIM * n && Within(e, n)
    requires zb == Bend(z, e.master, e.next, e.prev) && yb == Bend(y, e.master, e.next, e.prev)
    ensures FormOf(e, a, b, x, z, y, laws, Product(ElementBlocks(e, a, b, x, laws), y))
  {
    var g, c := BendOf(e, a, y, n);
    BeamBlocksWork(e, a, b, x, z, y, laws, n, g);
    PullIncsWork(z, e.master, e.next, e.prev, c, g, zb, yb);
    BeamFormIs(e, a, b, x, z, y, laws, c, zb, yb);
  }

  lemma DiagonalForm(c: real, z: Vec3, y: Vec3)
    ensures Dot(z, Apply(Diagonal(c), y)) == c * Dot(z, y)
  {
    assert Apply(Diagonal(c), y) == Scale(c, y);
    DotLinear(c, y, y, z);
  }

  lemma OneProduct(k: Block, y: seq<real>) returns (a: Increment)
    requires k.row < |y| / NDIM && k.col < |y| / NDIM
    ensures BlocksIn([k], |y| / NDIM) && Product([k], y) == [a]
    ensures a.node == k.row && a.v == Apply(k.m, NodeAt(y, k.col))
  {
    a := Increment(k.row, Apply(k.m, NodeAt(y, k.col)));
    assert Product([k], y) == [a];
  }

  lemma TargetPull(a: real, b: real, k: real, eta: real, f: real) returns (c: real)
    ensures TargetMatrix(a, b, k, eta) == Diagonal(c) && c * f == -((a * k + b * eta) * f)
  {
    c := -a * k - b * eta;
    var p := a * k + b * eta;
    assert c == -p;
  }

  lemma TargetBlocksForm(e: Element, a: real, b: real, x: seq<real>, z: seq<real>, y: seq<real>, laws: Laws)
    requires e.Target? && ValidLaws(laws) && |x| == |y| == |z| && Within(e, |x| / NDIM)
    ensures FormOf(e, a, b, x, z, y, laws, Product(ElementBlocks(e, a, b, x, laws), y))
  {
    var m := e.master;
    var c := TargetPull(a, b, e.stiffness, e.damping, Dot(NodeAt(z, m), NodeAt(y, m)));
    DiagonalForm(c, NodeAt(z, m), NodeAt(y, m));
    var one := OneProduct(Block(m, m, Diagonal(c)), y);
    WorkOfOne(z, one);
  }

  // ------------------------------------------------------------------ meshes

  ghost function MeshForm(es: seq<Element>, a: real, b: real, x: seq<real>, z: seq<real>, y: seq<real>,
                          laws: Laws): real
    requires ValidLaws(laws) && |x| == |y| == |z| && MeshWithin(es, x)
  {
    if es == [] then 0.0
    else MeshForm(es[..|es| - 1], a, b, x, z, y, laws) + ElementForm(es[|es| - 1], a, b, x, z, y, laws)
  }

  lemma {:induction false} FlattenForm(es: seq<Element>, parts: seq<seq<Increment>>, a: real, b: real, x: seq<real>,
                                       z: seq<real>, y: seq<real>, laws: Laws)
    requires ValidLaws(laws) && |x| == |y| == |z| && MeshWithin(es, x) && |parts| == |es|
    requires forall k :: 0 <= k < |es| ==> FormOf(es[k], a, b, x, z, y, laws, parts[k])
    ensures InRange(Flatten(parts), |z| / NDIM) && Work(z, Flatten(parts)) == -MeshForm(es, a, b, x, z, y, laws)
  {
    if es != [] {
      var n := |es| - 1;
      FlattenForm(es[..n], parts[..n], a, b, x, z, y, laws);
      WorkConcat(z, Flatten(parts[..n]), parts[n]);
    }
  }

  /** The sum over the first `m` nodes of z_i . (J y)_i. */
  function Form(j: SparseMatrix, z: seq<real>, y: seq<real>, n: nat, m: nat): real
    requires NDIM * n <= |y| && NDIM * n <= |z| && m <= n
  {
    if m == 0 then 0.0 else Form(j, z, y, n, m - 1) + Dot(NodeAt(z, m - 1), RowTimes(j, m - 1, y, n))
  }

  lemma {:induction false} FormIsWork(j: SparseMatrix, z: seq<real>, y: seq<real>, n: nat, m: nat, incs: seq<Increment>)
    requires NDIM * n <= |y| && NDIM * n <= |z| && m <= n
    requires forall i: nat :: i < n ==> RowTimes(j, i, y, n) == Total(incs, i)
    ensures Form(j, z, y, n, m) == TotalWork(z, incs, m)
  {
    if m > 0 {
      FormIsWork(j, z, y, n, m - 1, incs);
    }
  }

  /** The assembled Jacobian of any mesh, between any two motions of the nodes. */
  lemma JacobianIsForm(es: seq<Element>, a: real, b: real, x: seq<real>, z: seq<real>, y: seq<real>, laws: Laws, n: nat)
    requires ValidLaws(laws) && |x| == |y| == |z| == NDIM * n && MeshWithin(es, x)
    ensures Form(AddBlocks(map[], AllBlocks(es, a, b, x, laws)), z, y, n, n) == -MeshForm(es, a, b, x, z, y, laws)
  {
    var parts := ElementProducts(es, a, b, x, y, laws);
    forall k | 0 <= k < |parts|
      ensures FormOf(es[k], a, b, x, z, y, laws, parts[k])
    {
      match es[k]
      case Spring(_, _, _, _, _, _) => SpringBlocksForm(es[k], a, b, x, z, y, laws);
      case Beam(m, nx, pv, _, _) =>
        BeamBlocksForm(es[k], a, b, x, z, y, laws, n, Bend(z, m, nx, pv), Bend(y, m, nx, pv));
      case Target(_, _, _, _) => TargetBlocksForm(es[k], a, b, x, z, y, laws);
    }
    FlattenForm(es, parts, a, b, x, z, y, laws);
    ProductOfMesh(es, a, b, x, y, laws, parts);
    var j := AddBlocks(map[], AllBlocks(es, a, b, x, laws));
    forall i: nat | i < n
      ensures RowTimes(j, i, y, n) == Total(Flatten(parts), i)
    {
      RowOfBlocks(AllBlocks(es, a, b, x, laws), i, y, n);
    }
    FormIsWork(j, z, y, n, n, Flatten(parts));
    WorkByNode(z, Flatten(parts), n);
  }

  // ------------------------------------------------------------- dissipation

  lemma SquareNonNegative(p: real, m: real)
    requires m == p * p
    ensures m >= 0.0
  {
  }

  lemma LengthNonNegative(v: Vec3)
    ensures Dot(v, v) >= 0.0
  {
    SquareNonNegative(v.x, v.x * v.x);
    SquareNonNegative(v.y, v.y * v.y);
    SquareNonNegative(v.z, v.z * v.z);
  }

  /** The part of a vector along a spring is no longer than the vector. */
  lemma CauchySchwarz(d: Vec3, r: real, v: Vec3, p: real)
    requires r > 0.0 && r * r == Dot(d, d) && p == Along(d, r, v, v)
    ensures 0.0 <= p <= Dot(v, v)
  {
    SquareNonNegative(Dot(d, v) / r, p);
    Lagrange(d, v, d, v);
    LengthNonNegative(Cross(d, v));
    DotCommutes(d, v);
    AlongTimes(d, r, v, v, r * r);
    SquarePositive(r, r * r);
    Smaller(p, Dot(v, v), r * r);
  }

  lemma Smaller(p: real, q: real, s: real)
    requires s > 0.0 && p * s <= s * q
    ensures p <= q
  {
    if p > q {
      ProductPositive(p - q, s, (p - q) * s);
    }
  }

  /** A spring under tension whose law does not soften, a beam or a target point of no negative stiffness. */
  ghost predicate Stiff(e: Element, x: seq<real>, laws: Laws)
    requires ValidLaws(laws) && Within(e, |x| / NDIM)
  {
    match e
    case Spring(_, _, m, s, _, _) =>
      var r := laws.phys.norm(Sub(NodeAt(x, s), NodeAt(x, m)));
      r >= laws.phys.eps ==>
        laws.phys.tension(e.fcn, r, e.params, e.lagMaster, e.lagSlave) >= 0.0 && Slope(e, r, laws) >= 0.0
    case Beam(_, _, _, bend, _) => bend >= 0.0
    case Target(_, stiffness, damping, _) => stiffness >= 0.0 && damping >= 0.0
  }

  lemma QuotientNonNegative(t: real, r: real, q: real)
    requires t >= 0.0 && r > 0.0 && q == t / r
    ensures q >= 0.0
  {
    QuotientTimes(t, r, q);
    if q < 0.0 {
      ProductPositive(-q, r, -q * r);
    }
  }

  lemma SpringFormNonNegative(a: real, slope: real, t: real, d: Vec3, r: real, v: Vec3, p: real)
    requires a >= 0.0 && slope >= 0.0 && t >= 0.0 && r > 0.0 && r * r == Dot(d, d) && p == Along(d, r, v, v)
    ensures SpringValue(a, slope, t, r, d, v, v) >= 0.0
  {
    var q := t / r;
    QuotientNonNegative(t, r, q);
    CauchySchwarz(d, r, v, p);
    NonNegative(slope, p);
    NonNegative(q, Dot(v, v) - p);
    NonNegative(a, slope * p + q * (Dot(v, v) - p));
  }

  lemma ElementDissipates(e: Element, a: real, b: real, x: seq<real>, y: seq<real>, laws: Laws)
    requires ValidLaws(laws) && IsNorm(laws.phys.norm) && |x| == |y| && Within(e, |x| / NDIM)
    requires a >= 0.0 && b >= 0.0 && Stiff(e, x, laws)
    ensures ElementForm(e, a, b, x, y, y, laws) >= 0.0
  {
    match e {
      case Spring(lm, ls, m, s, fcn, params) =>
        var d, v := Sub(NodeAt(x, s), NodeAt(x, m)), Sub(NodeAt(y, s), NodeAt(y, m));
        var r := laws.phys.norm(d);
        if r >= laws.phys.eps {
          SpringFormNonNegative(a, Slope(e, r, laws), laws.phys.tension(fcn, r, params, lm, ls), d, r, v,
                                Along(d, r, v, v));
        }
      case Beam(m, n, p, bend, _) =>
        LengthNonNegative(Bend(y, m, n, p));
        NonNegative(a, bend);
        NonNegative(a * bend, Dot(Bend(y, m, n, p), Bend(y, m, n, p)));
      case Target(m, kappa, eta, _) =>
        LengthNonNegative(NodeAt(y, m));
        NonNegative(a, kappa);
        NonNegative(b, eta);
        NonNegative(a * kappa + b * eta, Dot(NodeAt(y, m), NodeAt(y, m)));
    }
  }

  lemma {:induction false} MeshDissipates(es: seq<Element>, a: real, b: real, x: seq<real>, y: seq<real>, laws: Laws)
    requires ValidLaws(laws) && IsNorm(laws.phys.norm) && |x| == |y| && MeshWithin(es, x)
    requires a >= 0.0 && b >= 0.0 && forall k :: 0 <= k < |es| ==> Stiff(es[k], x, laws)
    ensures MeshForm(es, a, b, x, y, y, laws) >= 0.0
  {
    if es != [] {
      MeshDissipates(es[..|es| - 1], a, b, x, y, laws);
      ElementDissipates(es[|es| - 1], a, b, x, y, laws);
    }
  }

  /** The Jacobian of a stiff mesh is negative semidefinite: along any motion the forces it gives do no positive
      work. */
  lemma JacobianDissipates(es: seq<Element>, a: real, b: real, x: seq<real>, y: seq<real>, laws: Laws, n: nat)
    requires ValidLaws(laws) && IsNorm(laws.phys.norm) && |x| == |y| == NDIM * n && MeshWithin(es, x)
    requires a >= 0.0 && b >= 0.0 && forall k :: 0 <= k < |es| ==> Stiff(es[k], x, laws)
    ensures Form(AddBlocks(map[], AllBlocks(es, a, b, x, laws)), y, y, n, n) <= 0.0
  {
    JacobianIsForm(es, a, b, x, y, y, laws, n);
    MeshDissipates(es, a, b, x, y, laws);
  }
}
