/** IBStandardForceGen::computeLagrangianForceJacobian on a single process: 3x3 blocks added
    to a sparse matrix, one element at a time, and how the matrix relates to the force loops. */
module ForceJacobian {
  import opened Options
  import opened Vectors
  import opened Increments
  import opened ForceElements

  datatype Block = Block(row: nat, col: nat, m: Mat3)

  /** Tension laws with their derivatives; where none is registered the code uses a centred
      difference of step max(R, 1) times `step`. */
  datatype Laws = Laws(phys: Physics, derivative: int -> Option<(real, seq<real>, int, int) -> real>, step: real)

  predicate ValidLaws(laws: Laws) {
    laws.phys.eps > 0.0 && laws.step > 0.0
  }

  function StepLength(r: real, step: real): real {
    (if r >= 1.0 then r else 1.0) * step
  }

  function CentredDifference(hi: real, lo: real, eps: real): real
    requires eps > 0.0
  {
    (hi - lo) / (2.0 * eps)
  }

  function Slope(e: Element, r: real, laws: Laws): real
    requires e.Spring? && ValidLaws(laws)
  {
    match laws.derivative(e.fcn)
    case Some(g) => g(r, e.params, e.lagMaster, e.lagSlave)
    case None =>
      var eps := StepLength(r, laws.step);
      StepPositive(r, laws.step);
      CentredDifference(laws.phys.tension(e.fcn, r + eps, e.params, e.lagMaster, e.lagSlave),
                        laws.phys.tension(e.fcn, r - eps, e.params, e.lagMaster, e.lagSlave), eps)
  }

  lemma StepPositive(r: real, step: real)
    requires step > 0.0
    ensures StepLength(r, step) > 0.0
  {
  }

  // ------------------------------------------- what the difference quotient is

  /** A tension law that is a cubic polynomial of the length, and its derivative. */
  function Cubic(a: real, b: real, c: real, d: real, r: real): real {
    a + b * r + c * (r * r) + d * (r * r * r)
  }

  function CubicDerivative(b: real, c: real, d: real, r: real): real {
    b + 2.0 * (c * r) + 3.0 * (d * (r * r))
  }

  lemma CubicDifference(a: real, b: real, c: real, d: real, r: real, h: real)
    ensures Cubic(a, b, c, d, r + h) - Cubic(a, b, c, d, r - h) ==
            (CubicDerivative(b, c, d, r) + d * (h * h)) * (2.0 * h)
  {
    Squares(c, r, h);
    Cubes(d, r, h);
  }

  lemma Squares(c: real, r: real, h: real)
    ensures c * ((r + h) * (r + h)) - c * ((r - h) * (r - h)) == 4.0 * (c * r * h)
  {
  }

  lemma Cubes(d: real, r: real, h: real)
    ensures d * ((r + h) * (r + h) * (r + h)) - d * ((r - h) * (r - h) * (r - h)) ==
            6.0 * (d * r * r * h) + 2.0 * (d * h * h * h)
  {
  }

  lemma QuotientIs(num: real, q: real, h: real)
    requires h > 0.0 && num == q * (2.0 * h)
    ensures num / (2.0 * h) == q
  {
  }

  ghost predicate CubicLaw(e: Element, laws: Laws, a: real, b: real, c: real, d: real)
    requires e.Spring?
  {
    forall r :: laws.phys.tension(e.fcn, r, e.params, e.lagMaster, e.lagSlave) == Cubic(a, b, c, d, r)
  }

  /** Without a registered derivative the slope of a cubic law is off by its third coefficient times the squared
      step: it is exact precisely for laws that are quadratic, whatever the step. */
  lemma SlopeOfCubic(e: Element, r: real, laws: Laws, a: real, b: real, c: real, d: real)
    requires e.Spring? && ValidLaws(laws) && laws.derivative(e.fcn) == None && CubicLaw(e, laws, a, b, c, d)
    ensures var h := StepLength(r, laws.step); Slope(e, r, laws) == CubicDerivative(b, c, d, r) + d * (h * h)
    ensures Slope(e, r, laws) == CubicDerivative(b, c, d, r) <==> d == 0.0
  {
    var h := StepLength(r, laws.step);
    StepPositive(r, laws.step);
    CubicDifference(a, b, c, d, r, h);
    QuotientIs(Cubic(a, b, c, d, r + h) - Cubic(a, b, c, d, r - h), CubicDerivative(b, c, d, r) + d * (h * h), h);
    ProductPositive(h, h, h * h);
    NonzeroTimes(d, h * h);
  }

  lemma NonzeroTimes(d: real, p: real)
    requires p > 0.0
    ensures d * p == 0.0 <==> d == 0.0
  {
  }

  /** The law's chords all have slopes between `lo` and `hi`. */
  ghost predicate ChordsBetween(e: Element, laws: Laws, lo: real, hi: real)
    requires e.Spring?
  {
    forall p, q :: p < q ==>
      lo * (q - p) <= laws.phys.tension(e.fcn, q, e.params, e.lagMaster, e.lagSlave)
                      - laws.phys.tension(e.fcn, p, e.params, e.lagMaster, e.lagSlave) <= hi * (q - p)
  }

  /** For any law at all the slope lies between the bounds of its chords: a law that stiffens has a slope
      that is not negative. */
  lemma SlopeBetween(e: Element, r: real, laws: Laws, lo: real, hi: real)
    requires e.Spring? && ValidLaws(laws) && laws.derivative(e.fcn) == None && ChordsBetween(e, laws, lo, hi)
    ensures lo <= Slope(e, r, laws) <= hi
  {
    var h := StepLength(r, laws.step);
    StepPositive(r, laws.step);
    var q, p := r + h, r - h;
    assert p < q && q - p == 2.0 * h;
    var rise := laws.phys.tension(e.fcn, q, e.params, e.lagMaster, e.lagSlave)
                - laws.phys.tension(e.fcn, p, e.params, e.lagMaster, e.lagSlave);
    ChordQuotient(lo, hi, rise, 2.0 * h, Slope(e, r, laws));
  }

  lemma ChordQuotient(lo: real, hi: real, rise: real, run: real, slope: real)
    requires run > 0.0 && lo * run <= rise <= hi * run && slope == rise / run
    ensures lo <= slope <= hi
  {
    assert slope * run == rise;
    if slope < lo {
      ProductPositive(lo - slope, run, (lo - slope) * run);
    }
    if slope > hi {
      ProductPositive(slope - hi, run, (slope - hi) * run);
    }
  }

  // ------------------------------------------------------------------ blocks

  /** Row i of q D D^T / s. */
  function OuterRow(q: real, di: real, d: Vec3, s: real): Vec3
    requires s != 0.0
  {
    Vec3(q * di * d.x / s, q * di * d.y / s, q * di * d.z / s)
  }

  function PlusDiagonal(t: real, e0: Vec3, e1: Vec3, e2: Vec3): Mat3 {
    Mat3(Vec3(t + e0.x, e0.y, e0.z), Vec3(e1.x, t + e1.y, e1.z), Vec3(e2.x, e2.y, t + e2.z))
  }

  /** Entry (i,j) is t delta_ij + q D_i D_j / s, where t = T/R, q = dT/dR - T/R and s = R*R. */
  function SpringEntries(t: real, q: real, d: Vec3, s: real): Mat3
    requires s != 0.0
  {
    PlusDiagonal(t, OuterRow(q, d.x, d, s), OuterRow(q, d.y, d, s), OuterRow(q, d.z, d, s))
  }

  function MatScale(a: real, m: Mat3): Mat3 {
    Mat3(Scale(a, m.r0), Scale(a, m.r1), Scale(a, m.r2))
  }

  /** dF_dX(i,j) = X_coef ( (T/R) delta_ij + (dT/dR - T/R) D_i D_j / (R R) ). */
  function SpringMatrix(a: real, t: real, slope: real, d: Vec3, r: real): Mat3
    requires r > 0.0
  {
    var s := r * r;
    SquarePositive(r, s);
    MatScale(a, SpringEntries(t / r, slope - t / r, d, s))
  }

  lemma SquarePositive(r: real, s: real)
    requires r > 0.0 && s == r * r
    ensures s > 0.0
  {
    ProductPositive(r, r, s);
  }

  /** The derivative of a spring's pull on its master; nothing where the spring is skipped. */
  function SpringJacobian(e: Element, d: Vec3, a: real, laws: Laws): Option<Mat3>
    requires e.Spring? && ValidLaws(laws)
  {
    var r := laws.phys.norm(d);
    if r < laws.phys.eps then None
    else Some(SpringMatrix(a, laws.phys.tension(e.fcn, r, e.params, e.lagMaster, e.lagSlave), Slope(e, r, laws), d, r))
  }

  /** The diagonal blocks of a beam: the weight, the rigidity and the coefficient of X. */
  function BeamMatrix(weight: real, bend: real, a: real): Mat3 {
    Diagonal(weight * bend * a)
  }

  function TargetMatrix(a: real, b: real, kappa: real, eta: real): Mat3 {
    Diagonal(-a * kappa - b * eta)
  }

  /** The blocks one element adds, scaled by the coefficients of X and U. */
  function ElementBlocks(e: Element, a: real, b: real, x: seq<real>, laws: Laws): (blocks: seq<Block>)
    requires Within(e, |x| / NDIM) && ValidLaws(laws)
    ensures BlocksIn(blocks, |x| / NDIM)
  {
    match e
    case Spring(_, _, m, s, _, _) =>
      (match SpringJacobian(e, Sub(NodeAt(x, s), NodeAt(x, m)), a, laws)
       case None => []
       case Some(k) => [Block(m, s, k), Block(s, m, k), Block(m, m, MatNeg(k)), Block(s, s, MatNeg(k))])
    case Beam(m, n, p, bend, _) =>
      var k1, k2, k4 := BeamMatrix(-1.0, bend, a), BeamMatrix(2.0, bend, a), BeamMatrix(-4.0, bend, a);
      [Block(p, p, k1), Block(p, n, k1), Block(n, p, k1), Block(n, n, k1)]
      + [Block(p, m, k2), Block(n, m, k2), Block(m, p, k2), Block(m, n, k2)]
      + [Block(m, m, k4)]
    case Target(m, kappa, eta, _) =>
      [Block(m, m, TargetMatrix(a, b, kappa, eta))]
  }

  /** The product of the blocks with the nodal vector `y`, block by block. */
  function Product(blocks: seq<Block>, y: seq<real>): (incs: seq<Increment>)
    requires BlocksIn(blocks, |y| / NDIM)
    ensures |incs| == |blocks|
  {
    seq(|blocks|, k requires 0 <= k < |blocks| =>
        Increment(blocks[k].row, Apply(blocks[k].m, NodeAt(y, blocks[k].col))))
  }

  function Difference(y: seq<real>, x: seq<real>): (d: seq<real>)
    requires |x| == |y|
    ensures |d| == |x| && forall k :: 0 <= k < |x| ==> d[k] == y[k] - x[k]
  {
    seq(|x|, k requires 0 <= k < |x| => y[k] - x[k])
  }

  // ----------------------------------------------------- single elements

  lemma OneMoreTotal(before: seq<Increment>, a: Increment, incs: seq<Increment>, i: nat, t: Vec3)
    requires incs == before + [a] && Total(before, i) == t
    ensures Total(incs, i) == Add(t, One(a, i))
  {
    assert incs[..|incs| - 1] == before;
    AddZero(t);
  }

  lemma TotalGrown(p: seq<Increment>, q: seq<Increment>, r: seq<Increment>, s: seq<Increment>, a: Increment,
                   b: Increment, c: Increment, d: Increment, i: nat)
    requires p == [a] && q == p + [b] && r == q + [c] && s == r + [d]
    ensures Total(p, i) == One(a, i)
    ensures Total(q, i) == Add(One(a, i), One(b, i))
    ensures Total(r, i) == Add(Add(One(a, i), One(b, i)), One(c, i))
    ensures Total(s, i) == Add(Add(Add(One(a, i), One(b, i)), One(c, i)), One(d, i))
  {
    OneMoreTotal([], a, p, i, ZERO);
    AddZero(One(a, i));
    OneMoreTotal(p, b, q, i, One(a, i));
    OneMoreTotal(q, c, r, i, Add(One(a, i), One(b, i)));
    OneMoreTotal(r, d, s, i, Add(Add(One(a, i), One(b, i)), One(c, i)));
  }

  lemma TotalFew(a: Increment, b: Increment, c: Increment, d: Increment, i: nat)
    ensures Total([a], i) == One(a, i)
    ensures Total([a, b], i) == Add(One(a, i), One(b, i))
    ensures Total([a, b, c], i) == Add(Add(One(a, i), One(b, i)), One(c, i))
    ensures Total([a, b, c, d], i) == Add(Add(Add(One(a, i), One(b, i)), One(c, i)), One(d, i))
  {
    TotalGrown([a], [a, b], [a, b, c], [a, b, c, d], a, b, c, d, i);
  }

  function One(a: Increment, i: nat): Vec3 {
    if a.node == i then a.v else ZERO
  }

  /** Bends are linear: the change of a beam's pull between two configurations. */
  lemma BeamDifference(e: Element, xm: Vec3, xn: Vec3, xp: Vec3, ym: Vec3, yn: Vec3, yp: Vec3)
    requires e.Beam?
    ensures Sub(BeamForce(e, ym, yn, yp), BeamForce(e, xm, xn, xp))
         == Sub(Add(Scale(e.rigidity, Sub(yn, xn)), Scale(e.rigidity, Sub(yp, xp))),
                Scale(2.0, Scale(e.rigidity, Sub(ym, xm))))
  {
  }

  lemma TargetDifference(e: Element, x: Vec3, u: Vec3, y: Vec3, v: Vec3)
    requires e.Target?
    ensures Sub(TargetForce(e, y, v), TargetForce(e, x, u))
         == Add(Apply(TargetMatrix(1.0, 0.0, e.stiffness, e.damping), Sub(y, x)),
                Apply(TargetMatrix(0.0, 1.0, e.stiffness, e.damping), Sub(v, u)))
  {
  }

  lemma BeamDiagonal(c: real, bend: real, a: real, k: Mat3, v: Vec3, w: Vec3)
    requires k == BeamMatrix(c, bend, a) && w == Scale(bend * a, v)
    ensures Apply(k, v) == Scale(c, w)
  {
  }

  lemma BeamDiagonalZero(c: real, bend: real, v: Vec3)
    ensures Apply(BeamMatrix(c, bend, 0.0), v) == ZERO
  {
  }

  /** `v` at node `node` and nothing elsewhere. */
  function At(i: nat, node: nat, v: Vec3): Vec3 {
    if i == node then v else ZERO
  }

  /** The increments of a beam's blocks in its neighbours' rows, between neighbours and master, and of its pull. */
  function OuterIncs(n: nat, p: nat, an: Vec3, ap: Vec3): seq<Increment> {
    [Increment(p, Scale(-1.0, ap)), Increment(p, Scale(-1.0, an)), Increment(n, Scale(-1.0, ap)),
     Increment(n, Scale(-1.0, an))]
  }

  function MixedIncs(m: nat, n: nat, p: nat, am: Vec3, an: Vec3, ap: Vec3): seq<Increment> {
    [Increment(p, Scale(2.0, am)), Increment(n, Scale(2.0, am)), Increment(m, Scale(2.0, ap)),
     Increment(m, Scale(2.0, an))]
  }

  function PullIncs(m: nat, n: nat, p: nat, g: Vec3): seq<Increment> {
    [Increment(m, Scale(2.0, g)), Increment(n, Neg(g)), Increment(p, Neg(g))]
  }

  lemma OuterRows(n: nat, p: nat, an: Vec3, ap: Vec3, i: nat)
    ensures Total(OuterIncs(n, p, an, ap), i)
         == Add(At(i, p, Neg(Add(ap, an))), At(i, n, Neg(Add(ap, an))))
  {
    TotalFew(Increment(p, Scale(-1.0, ap)), Increment(p, Scale(-1.0, an)), Increment(n, Scale(-1.0, ap)),
             Increment(n, Scale(-1.0, an)), i);
  }

  lemma MixedRows(m: nat, n: nat, p: nat, am: Vec3, an: Vec3, ap: Vec3, i: nat)
    ensures Total(MixedIncs(m, n, p, am, an, ap), i)
         == Add(Add(At(i, p, Scale(2.0, am)), At(i, n, Scale(2.0, am))), At(i, m, Scale(2.0, Add(ap, an))))
  {
    TotalFew(Increment(p, Scale(2.0, am)), Increment(n, Scale(2.0, am)), Increment(m, Scale(2.0, ap)),
             Increment(m, Scale(2.0, an)), i);
  }

  lemma PullRows(m: nat, n: nat, p: nat, g: Vec3, i: nat)
    ensures Total(PullIncs(m, n, p, g), i)
         == Add(Add(At(i, m, Scale(2.0, g)), At(i, n, Neg(g))), At(i, p, Neg(g)))
  {
    TotalFew(Increment(m, Scale(2.0, g)), Increment(n, Neg(g)), Increment(p, Neg(g)), Increment(p, Neg(g)), i);
  }

  lemma RowsAgree(m: nat, n: nat, p: nat, am: Vec3, an: Vec3, ap: Vec3, g: Vec3, i: nat)
    requires g == Sub(Add(an, ap), Scale(2.0, am))
    ensures Add(Add(Add(At(i, p, Neg(Add(ap, an))), At(i, n, Neg(Add(ap, an)))),
                    Add(Add(At(i, p, Scale(2.0, am)), At(i, n, Scale(2.0, am))), At(i, m, Scale(2.0, Add(ap, an))))),
                At(i, m, Scale(-4.0, am)))
         == Add(Add(At(i, m, Scale(2.0, g)), At(i, n, Neg(g))), At(i, p, Neg(g)))
  {
  }

  lemma BeamExact(m: nat, n: nat, p: nat, am: Vec3, an: Vec3, ap: Vec3, g: Vec3, i: nat)
    requires g == Sub(Add(an, ap), Scale(2.0, am))
    ensures Total(OuterIncs(n, p, an, ap) + MixedIncs(m, n, p, am, an, ap) + [Increment(m, Scale(-4.0, am))], i)
         == Total(PullIncs(m, n, p, g), i)
  {
    var a, b, c := OuterIncs(n, p, an, ap), MixedIncs(m, n, p, am, an, ap), [Increment(m, Scale(-4.0, am))];
    TotalConcat(a + b, c, i);
    TotalConcat(a, b, i);
    OuterRows(n, p, an, ap, i);
    MixedRows(m, n, p, am, an, ap, i);
    TotalFew(c[0], c[0], c[0], c[0], i);
    PullRows(m, n, p, g, i);
    RowsAgree(m, n, p, am, an, ap, g, i);
  }

  lemma {:induction false} TotalOfZeros(incs: seq<Increment>, i: nat)
    requires forall k :: 0 <= k < |incs| ==> incs[k].v == ZERO
    ensures Total(incs, i) == ZERO
  {
    if incs != [] {
      TotalOfZeros(incs[..|incs| - 1], i);
    }
  }

  lemma {:induction false} TotalOfDifference(a: seq<Increment>, b: seq<Increment>, c: seq<Increment>, i: nat)
    requires |a| == |b| == |c|
    requires forall k :: 0 <= k < |a| ==> a[k].node == b[k].node == c[k].node && c[k].v == Sub(a[k].v, b[k].v)
    ensures Total(c, i) == Sub(Total(a, i), Total(b, i))
  {
    if a != [] {
      TotalOfDifference(a[..|a| - 1], b[..|a| - 1], c[..|a| - 1], i);
    }
  }

  /** For one beam or target point the Jacobian is exact, whatever the two configurations. */
  lemma ElementExact(e: Element, x: seq<real>, u: seq<real>, y: seq<real>, v: seq<real>, laws: Laws, i: nat)
    requires !e.Spring? && ValidLaws(laws) && |x| == |y| == |u| == |v| && Fits(e, x, u)
    ensures Add(Total(Product(ElementBlocks(e, 1.0, 0.0, x, laws), Difference(y, x)), i),
                Total(Product(ElementBlocks(e, 0.0, 1.0, x, laws), Difference(v, u)), i))
         == Sub(Total(ElementIncrements(e, y, v, laws.phys), i), Total(ElementIncrements(e, x, u, laws.phys), i))
  {
    if e.Beam? {
      BeamElementExact(e, x, u, y, v, laws, i);
    } else {
      TargetElementExact(e, x, u, y, v, laws, i);
    }
  }

  lemma TargetElementExact(e: Element, x: seq<real>, u: seq<real>, y: seq<real>, v: seq<real>, laws: Laws, i: nat)
    requires e.Target? && ValidLaws(laws) && |x| == |y| == |u| == |v| && Fits(e, x, u)
    ensures Add(Total(Product(ElementBlocks(e, 1.0, 0.0, x, laws), Difference(y, x)), i),
                Total(Product(ElementBlocks(e, 0.0, 1.0, x, laws), Difference(v, u)), i))
         == Sub(Total(ElementIncrements(e, y, v, laws.phys), i), Total(ElementIncrements(e, x, u, laws.phys), i))
  {
    var m := e.master;
    var dx, du := NodeAt(Difference(y, x), m), NodeAt(Difference(v, u), m);
    assert dx == Sub(NodeAt(y, m), NodeAt(x, m)) && du == Sub(NodeAt(v, m), NodeAt(u, m));
    TargetDifference(e, NodeAt(x, m), NodeAt(u, m), NodeAt(y, m), NodeAt(v, m));
    var a := Increment(m, Apply(TargetMatrix(1.0, 0.0, e.stiffness, e.damping), dx));
    var b := Increment(m, Apply(TargetMatrix(0.0, 1.0, e.stiffness, e.damping), du));
    var c, d := Increment(m, TargetForce(e, NodeAt(y, m), NodeAt(v, m))),
      Increment(m, TargetForce(e, NodeAt(x, m), NodeAt(u, m)));
    assert Product(ElementBlocks(e, 1.0, 0.0, x, laws), Difference(y, x)) == [a];
    assert Product(ElementBlocks(e, 0.0, 1.0, x, laws), Difference(v, u)) == [b];
    TotalFew(a, a, a, a, i);
    TotalFew(b, b, b, b, i);
    TotalFew(c, c, c, c, i);
    TotalFew(d, d, d, d, i);
  }

  lemma BeamElementExact(e: Element, x: seq<real>, u: seq<real>, y: seq<real>, v: seq<real>, laws: Laws, i: nat)
    requires e.Beam? && ValidLaws(laws) && |x| == |y| == |u| == |v| && Fits(e, x, u)
    ensures Add(Total(Product(ElementBlocks(e, 1.0, 0.0, x, laws), Difference(y, x)), i),
                Total(Product(ElementBlocks(e, 0.0, 1.0, x, laws), Difference(v, u)), i))
         == Sub(Total(ElementIncrements(e, y, v, laws.phys), i), Total(ElementIncrements(e, x, u, laws.phys), i))
  {
    BeamMoved(e, x, u, y, v, laws, i);
    BeamStill(e, x, Difference(v, u), laws, i);
  }

  function BendVector(e: Element, a: real, d: seq<real>, node: int): Vec3
    requires e.Beam? && 0 <= node < |d| / NDIM
  {
    Scale(e.rigidity * a, NodeAt(d, node))
  }

  lemma BendOne(e: Element, d: seq<real>, node: int)
    requires e.Beam? && 0 <= node < |d| / NDIM
    ensures BendVector(e, 1.0, d, node) == Scale(e.rigidity, NodeAt(d, node))
  {
  }

  lemma BeamMoved(e: Element, x: seq<real>, u: seq<real>, y: seq<real>, v: seq<real>, laws: Laws, i: nat)
    requires e.Beam? && ValidLaws(laws) && |x| == |y| == |u| == |v| && Fits(e, x, u)
    ensures Total(Product(ElementBlocks(e, 1.0, 0.0, x, laws), Difference(y, x)), i)
         == Sub(Total(ElementIncrements(e, y, v, laws.phys), i), Total(ElementIncrements(e, x, u, laws.phys), i))
  {
    var dx := Difference(y, x);
    var am, an, ap := BendVector(e, 1.0, dx, e.master), BendVector(e, 1.0, dx, e.next), BendVector(e, 1.0, dx, e.prev);
    var g := Sub(Add(an, ap), Scale(2.0, am));
    BendOne(e, dx, e.master);
    BendOne(e, dx, e.next);
    BendOne(e, dx, e.prev);
    BeamPull(e, 1.0, 0.0, x, dx, laws, am, an, ap, g, i);
    BeamForceChange(e, x, u, y, v, laws, g, i);
  }

  /** The nine blocks of a beam act on `d` as the pull `g` of its bend does. */
  lemma BeamPull(e: Element, a: real, b: real, x: seq<real>, d: seq<real>, laws: Laws, am: Vec3, an: Vec3, ap: Vec3,
                 g: Vec3, i: nat)
    requires e.Beam? && ValidLaws(laws) && |x| == |d| && Within(e, |x| / NDIM)
    requires am == BendVector(e, a, d, e.master) && an == BendVector(e, a, d, e.next)
    requires ap == BendVector(e, a, d, e.prev)
    requires g == Sub(Add(an, ap), Scale(2.0, am))
    ensures Total(Product(ElementBlocks(e, a, b, x, laws), d), i) == Total(PullIncs(e.master, e.next, e.prev, g), i)
  {
    BeamProducts(e, a, b, x, d, laws, am, an, ap);
    BeamExact(e.master, e.next, e.prev, am, an, ap, g, i);
  }

  /** The forces of a beam in two configurations differ by the pull `g` of their difference. */
  lemma BeamForceChange(e: Element, x: seq<real>, u: seq<real>, y: seq<real>, v: seq<real>, laws: Laws, g: Vec3, i: nat)
    requires e.Beam? && ValidLaws(laws) && |x| == |y| == |u| == |v| && Fits(e, x, u)
    requires var dx, k := Difference(y, x), e.rigidity;
             g == Sub(Add(Scale(k, NodeAt(dx, e.next)), Scale(k, NodeAt(dx, e.prev))),
                      Scale(2.0, Scale(k, NodeAt(dx, e.master))))
    ensures Total(PullIncs(e.master, e.next, e.prev, g), i)
         == Sub(Total(ElementIncrements(e, y, v, laws.phys), i), Total(ElementIncrements(e, x, u, laws.phys), i))
  {
    var m, n, p := e.master, e.next, e.prev;
    var fx := BeamForce(e, NodeAt(x, m), NodeAt(x, n), NodeAt(x, p));
    var fy := BeamForce(e, NodeAt(y, m), NodeAt(y, n), NodeAt(y, p));
    assert g == Sub(fy, fx) by {
      BeamDifference(e, NodeAt(x, m), NodeAt(x, n), NodeAt(x, p), NodeAt(y, m), NodeAt(y, n), NodeAt(y, p));
    }
    TotalOfDifference(PullIncs(m, n, p, fy),
                      PullIncs(m, n, p, fx),
                      PullIncs(m, n, p, g), i);
  }

  lemma ProductConcat(a: seq<Block>, b: seq<Block>, y: seq<real>)
    requires BlocksIn(a, |y| / NDIM) && BlocksIn(b, |y| / NDIM)
    ensures BlocksIn(a + b, |y| / NDIM)
    ensures Product(a + b, y) == Product(a, y) + Product(b, y)
  {
  }

  /** The product of a beam's blocks with `d`, in terms of bend X_coef times the three nodal vectors. */
  lemma BeamProducts(e: Element, a: real, b: real, x: seq<real>, d: seq<real>, laws: Laws, am: Vec3, an: Vec3, ap: Vec3)
    requires e.Beam? && ValidLaws(laws) && |x| == |d| && Within(e, |x| / NDIM)
    requires am == BendVector(e, a, d, e.master) && an == BendVector(e, a, d, e.next)
    requires ap == BendVector(e, a, d, e.prev)
    ensures var m, n, p := e.master, e.next, e.prev;
            Product(ElementBlocks(e, a, b, x, laws), d)
            == OuterIncs(n, p, an, ap)
               + MixedIncs(m, n, p, am, an, ap)
               + [Increment(m, Scale(-4.0, am))]
  {
    var k1, k2, k4 := BeamMatrix(-1.0, e.rigidity, a), BeamMatrix(2.0, e.rigidity, a), BeamMatrix(-4.0, e.rigidity, a);
    BeamMatrices(e.rigidity, a, k1, k2, k4, NodeAt(d, e.master), NodeAt(d, e.next), NodeAt(d, e.prev), am, an, ap);
    BeamChunks(e.master, e.next, e.prev, d, k1, k2, k4, am, an, ap);
  }

  lemma BeamMatrices(bend: real, a: real, k1: Mat3, k2: Mat3, k4: Mat3, dm: Vec3, dn: Vec3, dp: Vec3, am: Vec3,
                     an: Vec3, ap: Vec3)
    requires k1 == BeamMatrix(-1.0, bend, a) && k2 == BeamMatrix(2.0, bend, a) && k4 == BeamMatrix(-4.0, bend, a)
    requires am == Scale(bend * a, dm) && an == Scale(bend * a, dn) && ap == Scale(bend * a, dp)
    ensures Apply(k1, dp) == Scale(-1.0, ap) && Apply(k1, dn) == Scale(-1.0, an)
    ensures Apply(k2, dm) == Scale(2.0, am) && Apply(k2, dp) == Scale(2.0, ap) && Apply(k2, dn) == Scale(2.0, an)
    ensures Apply(k4, dm) == Scale(-4.0, am)
  {
    BeamDiagonal(-1.0, bend, a, k1, dp, ap);
    BeamDiagonal(-1.0, bend, a, k1, dn, an);
    BeamDiagonal(2.0, bend, a, k2, dm, am);
    BeamDiagonal(2.0, bend, a, k2, dp, ap);
    BeamDiagonal(2.0, bend, a, k2, dn, an);
    BeamDiagonal(-4.0, bend, a, k4, dm, am);
  }

  lemma BeamChunks(m: nat, n: nat, p: nat, d: seq<real>, k1: Mat3, k2: Mat3, k4: Mat3, am: Vec3, an: Vec3, ap: Vec3)
    requires m < |d| / NDIM && n < |d| / NDIM && p < |d| / NDIM
    requires Apply(k1, NodeAt(d, p)) == Scale(-1.0, ap) && Apply(k1, NodeAt(d, n)) == Scale(-1.0, an)
    requires Apply(k2, NodeAt(d, m)) == Scale(2.0, am) && Apply(k2, NodeAt(d, p)) == Scale(2.0, ap)
    requires Apply(k2, NodeAt(d, n)) == Scale(2.0, an)
    requires Apply(k4, NodeAt(d, m)) == Scale(-4.0, am)
    ensures var blocks := [Block(p, p, k1), Block(p, n, k1), Block(n, p, k1), Block(n, n, k1)]
                          + [Block(p, m, k2), Block(n, m, k2), Block(m, p, k2), Block(m, n, k2)] + [Block(m, m, k4)];
            BlocksIn(blocks, |d| / NDIM)
            && Product(blocks, d)
            == OuterIncs(n, p, an, ap)
               + MixedIncs(m, n, p, am, an, ap)
               + [Increment(m, Scale(-4.0, am))]
  {
    var b1 := [Block(p, p, k1), Block(p, n, k1), Block(n, p, k1), Block(n, n, k1)];
    var b2 := [Block(p, m, k2), Block(n, m, k2), Block(m, p, k2), Block(m, n, k2)];
    var b4 := [Block(m, m, k4)];
    ChunkProducts(b1, d, Scale(-1.0, ap), Scale(-1.0, an), Scale(-1.0, ap), Scale(-1.0, an));
    ChunkProducts(b2, d, Scale(2.0, am), Scale(2.0, am), Scale(2.0, ap), Scale(2.0, an));
    assert Product(b4, d) == [Increment(m, Scale(-4.0, am))];
    ProductConcat(b1, b2, d);
    ProductConcat(b1 + b2, b4, d);
  }

  lemma ChunkProducts(b: seq<Block>, d: seq<real>, v0: Vec3, v1: Vec3, v2: Vec3, v3: Vec3)
    requires |b| == 4 && BlocksIn(b, |d| / NDIM)
    requires Apply(b[0].m, NodeAt(d, b[0].col)) == v0 && Apply(b[1].m, NodeAt(d, b[1].col)) == v1
    requires Apply(b[2].m, NodeAt(d, b[2].col)) == v2 && Apply(b[3].m, NodeAt(d, b[3].col)) == v3
    ensures Product(b, d) ==
            [Increment(b[0].row, v0), Increment(b[1].row, v1), Increment(b[2].row, v2), Increment(b[3].row, v3)]
  {
  }

  lemma BeamStill(e: Element, x: seq<real>, d: seq<real>, laws: Laws, i: nat)
    requires e.Beam? && ValidLaws(laws) && |x| == |d| && Within(e, |x| / NDIM)
    ensures Total(Product(ElementBlocks(e, 0.0, 1.0, x, laws), d), i) == ZERO
  {
    var blocks := ElementBlocks(e, 0.0, 1.0, x, laws);
    forall k | 0 <= k < |blocks| ensures Apply(blocks[k].m, NodeAt(d, blocks[k].col)) == ZERO {
      var c := if k < 4 then -1.0 else if k < 8 then 2.0 else -4.0;
      BeamDiagonalZero(c, e.rigidity, NodeAt(d, blocks[k].col));
    }
    TotalOfZeros(Product(blocks, d), i);
  }

  // ------------------------------------------------------- whole meshes

  function FlattenBlocks(parts: seq<seq<Block>>): seq<Block> {
    if parts == [] then [] else FlattenBlocks(parts[..|parts| - 1]) + parts[|parts| - 1]
  }

  ghost predicate MeshWithin(es: seq<Element>, x: seq<real>) {
    forall k :: 0 <= k < |es| ==> Within(es[k], |x| / NDIM)
  }

  ghost function EachBlocks(es: seq<Element>, a: real, b: real, x: seq<real>, laws: Laws): (parts: seq<seq<Block>>)
    requires ValidLaws(laws) && MeshWithin(es, x)
    ensures |parts| == |es| && forall k :: 0 <= k < |es| ==> parts[k] == ElementBlocks(es[k], a, b, x, laws)
  {
    seq(|es|, k requires 0 <= k < |es| => ElementBlocks(es[k], a, b, x, laws))
  }

  predicate BlocksIn(blocks: seq<Block>, n: nat) {
    forall k :: 0 <= k < |blocks| ==> blocks[k].row < n && blocks[k].col < n
  }

  /** The blocks of all elements in order. */
  ghost function AllBlocks(es: seq<Element>, a: real, b: real, x: seq<real>, laws: Laws): (blocks: seq<Block>)
    requires ValidLaws(laws) && MeshWithin(es, x)
    ensures BlocksIn(blocks, |x| / NDIM)
  {
    FlattenBlocksIn(EachBlocks(es, a, b, x, laws), |x| / NDIM);
    FlattenBlocks(EachBlocks(es, a, b, x, laws))
  }

  lemma {:induction false} FlattenBlocksIn(parts: seq<seq<Block>>, n: nat)
    requires forall k :: 0 <= k < |parts| ==> BlocksIn(parts[k], n)
    ensures BlocksIn(FlattenBlocks(parts), n)
  {
    if parts != [] {
      FlattenBlocksIn(parts[..|parts| - 1], n);
    }
  }

  lemma {:induction false} ProductOfParts(blocks: seq<seq<Block>>, parts: seq<seq<Increment>>, y: seq<real>)
    requires |parts| == |blocks| && forall k :: 0 <= k < |blocks| ==>
             BlocksIn(blocks[k], |y| / NDIM) && parts[k] == Product(blocks[k], y)
    ensures BlocksIn(FlattenBlocks(blocks), |y| / NDIM) && Product(FlattenBlocks(blocks), y) == Flatten(parts)
  {
    FlattenBlocksIn(blocks, |y| / NDIM);
    if blocks != [] {
      var n := |blocks| - 1;
      ProductOfParts(blocks[..n], parts[..n], y);
      ProductConcat(FlattenBlocks(blocks[..n]), blocks[n], y);
    }
  }

  lemma ProductOfMesh(es: seq<Element>, a: real, b: real, x: seq<real>, y: seq<real>, laws: Laws,
                      parts: seq<seq<Increment>>)
    requires ValidLaws(laws) && MeshWithin(es, x) && |x| == |y| && |parts| == |es|
    requires forall k :: 0 <= k < |es| ==> parts[k] == Product(ElementBlocks(es[k], a, b, x, laws), y)
    ensures Product(AllBlocks(es, a, b, x, laws), y) == Flatten(parts)
  {
    ProductOfParts(EachBlocks(es, a, b, x, laws), parts, y);
  }

  ghost function ElementProducts(es: seq<Element>, a: real, b: real, x: seq<real>, y: seq<real>,
                                 laws: Laws): (parts: seq<seq<Increment>>)
    requires ValidLaws(laws) && MeshWithin(es, x) && |x| == |y|
    ensures |parts| == |es| && forall k :: 0 <= k < |es| ==> parts[k] == Product(ElementBlocks(es[k], a, b, x, laws), y)
  {
    seq(|es|, k requires 0 <= k < |es| => Product(ElementBlocks(es[k], a, b, x, laws), y))
  }

  /** A change of force put together from its parts in positions and velocities. */
  predicate Changes(p: Vec3, q: Vec3, r: Vec3, s: Vec3) {
    Add(p, q) == Sub(r, s)
  }

  lemma ChangesAdd(p: Vec3, q: Vec3, r: Vec3, s: Vec3, dp: Vec3, dq: Vec3, dr: Vec3, ds: Vec3)
    requires Changes(p, q, r, s) && Changes(dp, dq, dr, ds)
    ensures Changes(Add(p, dp), Add(q, dq), Add(r, dr), Add(s, ds))
  {
  }

  lemma FlattenLast(p: seq<seq<Increment>>, i: nat)
    requires p != []
    ensures Total(Flatten(p), i) == Add(Total(Flatten(p[..|p| - 1]), i), Total(p[|p| - 1], i))
  {
    TotalConcat(Flatten(p[..|p| - 1]), p[|p| - 1], i);
  }

  lemma {:induction false} FlattenExact(p: seq<seq<Increment>>, q: seq<seq<Increment>>, r: seq<seq<Increment>>,
                                        s: seq<seq<Increment>>, i: nat)
    requires |p| == |q| == |r| == |s|
    requires forall k :: 0 <= k < |p| ==> Changes(Total(p[k], i), Total(q[k], i), Total(r[k], i), Total(s[k], i))
    ensures Changes(Total(Flatten(p), i), Total(Flatten(q), i), Total(Flatten(r), i), Total(Flatten(s), i))
  {
    if p != [] {
      var n := |p| - 1;
      FlattenExact(p[..n], q[..n], r[..n], s[..n], i);
      FlattenLast(p, i);
      FlattenLast(q, i);
      FlattenLast(r, i);
      FlattenLast(s, i);
      ChangesAdd(Total(Flatten(p[..n]), i), Total(Flatten(q[..n]), i), Total(Flatten(r[..n]), i),
                 Total(Flatten(s[..n]), i), Total(p[n], i), Total(q[n], i), Total(r[n], i), Total(s[n], i));
    }
  }

  /** For any mesh of beams and target points and any two states, the Jacobian applied to their
      difference is the difference of the forces: J_X (Y - X) + J_U (V - U) == F(Y, V) - F(X, U). */
  lemma MeshExact(es: seq<Element>, x: seq<real>, u: seq<real>, y: seq<real>, v: seq<real>, laws: Laws, i: nat)
    requires ValidLaws(laws) && |x| == |y| == |u| == |v| && AllFit(es, x, u) && MeshWithin(es, x)
    requires forall k :: 0 <= k < |es| ==> !es[k].Spring?
    ensures AllFit(es, y, v)
    ensures Add(Total(Product(AllBlocks(es, 1.0, 0.0, x, laws), Difference(y, x)), i),
                Total(Product(AllBlocks(es, 0.0, 1.0, x, laws), Difference(v, u)), i))
         == Sub(Total(Loop(es, y, v, laws.phys), i), Total(Loop(es, x, u, laws.phys), i))
  {
    var p := ElementProducts(es, 1.0, 0.0, x, Difference(y, x), laws);
    var q := ElementProducts(es, 0.0, 1.0, x, Difference(v, u), laws);
    ProductOfMesh(es, 1.0, 0.0, x, Difference(y, x), laws, p);
    ProductOfMesh(es, 0.0, 1.0, x, Difference(v, u), laws, q);
    assert AllFit(es, y, v) by {
      assert forall k :: 0 <= k < |es| ==> Fits(es[k], x, u);
    }
    var r, s := Each(es, y, v, laws.phys), Each(es, x, u, laws.phys);
    forall k | 0 <= k < |es| ensures Changes(Total(p[k], i), Total(q[k], i), Total(r[k], i), Total(s[k], i)) {
      ElementExact(es[k], x, u, y, v, laws, i);
    }
    FlattenExact(p, q, r, s, i);
  }

  // ------------------------------------------- the assembled sparse matrix

  type SparseMatrix = map<(nat, nat), Mat3>

  function EntryAt(j: SparseMatrix, row: nat, col: nat): Mat3 {
    if (row, col) in j then j[(row, col)] else ZERO_MAT
  }

  /** MatSetValuesBlocked with ADD_VALUES. */
  function AddBlock(j: SparseMatrix, b: Block): SparseMatrix {
    j[(b.row, b.col) := MatAdd(EntryAt(j, b.row, b.col), b.m)]
  }

  function AddBlocks(j: SparseMatrix, blocks: seq<Block>): SparseMatrix {
    if blocks == [] then j else AddBlock(AddBlocks(j, blocks[..|blocks| - 1]), blocks[|blocks| - 1])
  }

  /** Row `row` of the matrix times the nodal vector `y` of `n` nodes. */
  function RowTimes(j: SparseMatrix, row: nat, y: seq<real>, n: nat): Vec3
    requires NDIM * n <= |y|
  {
    if n == 0 then ZERO else Add(RowTimes(j, row, y, n - 1), Apply(EntryAt(j, row, n - 1), NodeAt(y, n - 1)))
  }

  lemma {:induction false} AddBlockRow(j: SparseMatrix, b: Block, row: nat, y: seq<real>, n: nat, w: Vec3)
    requires NDIM * n <= |y| && NDIM * b.col + NDIM <= |y| && w == Apply(b.m, NodeAt(y, b.col))
    ensures RowTimes(AddBlock(j, b), row, y, n)
         == if b.row == row && b.col < n then Add(RowTimes(j, row, y, n), w) else RowTimes(j, row, y, n)
  {
    if n > 0 {
      AddBlockRow(j, b, row, y, n - 1, w);
      EntryRow(j, b, row, y, n - 1, w);
    }
  }

  lemma EntryRow(j: SparseMatrix, b: Block, row: nat, y: seq<real>, col: nat, w: Vec3)
    requires NDIM * col + NDIM <= |y| && NDIM * b.col + NDIM <= |y| && w == Apply(b.m, NodeAt(y, b.col))
    ensures Apply(EntryAt(AddBlock(j, b), row, col), NodeAt(y, col))
         == if b.row == row && b.col == col then Add(Apply(EntryAt(j, row, col), NodeAt(y, col)), w)
           else Apply(EntryAt(j, row, col), NodeAt(y, col))
  {
    if b.row == row && b.col == col {
      AddedEntry(EntryAt(j, row, col), b.m, NodeAt(y, col), w);
    }
  }

  lemma AddedEntry(e: Mat3, m: Mat3, v: Vec3, w: Vec3)
    requires w == Apply(m, v)
    ensures Apply(MatAdd(e, m), v) == Add(Apply(e, v), w)
  {
    ApplyMatAdd(e, m, v);
  }

  lemma TotalStep(incs: seq<Increment>, rest: seq<Increment>, last: Increment, i: nat)
    requires incs == rest + [last]
    ensures Total(incs, i) == if last.node == i then Add(Total(rest, i), last.v) else Total(rest, i)
  {
    assert incs[..|incs| - 1] == rest;
  }

  /** The assembled matrix acts as its blocks do one by one. */
  lemma {:induction false} AssembledRow(j: SparseMatrix, blocks: seq<Block>, row: nat, y: seq<real>, n: nat)
    requires |y| == NDIM * n && BlocksIn(blocks, n)
    ensures RowTimes(AddBlocks(j, blocks), row, y, n) == Add(RowTimes(j, row, y, n), Total(Product(blocks, y), row))
  {
    if blocks != [] {
      var rest, last := blocks[..|blocks| - 1], blocks[|blocks| - 1];
      AssembledRow(j, rest, row, y, n);
      var w := Apply(last.m, NodeAt(y, last.col));
      AddBlockRow(AddBlocks(j, rest), last, row, y, n, w);
      TotalStep(Product(blocks, y), Product(rest, y), Increment(last.row, w), row);
      AddAssociative(RowTimes(j, row, y, n), Total(Product(rest, y), row), w);
    }
  }

  lemma {:induction false} EmptyRow(row: nat, y: seq<real>, n: nat)
    requires NDIM * n <= |y|
    ensures RowTimes(map[], row, y, n) == ZERO
  {
    if n > 0 {
      EmptyRow(row, y, n - 1);
    }
  }

  lemma RowOfBlocks(blocks: seq<Block>, row: nat, y: seq<real>, n: nat)
    requires |y| == NDIM * n && BlocksIn(blocks, n)
    ensures RowTimes(AddBlocks(map[], blocks), row, y, n) == Total(Product(blocks, y), row)
  {
    AssembledRow(map[], blocks, row, y, n);
    EmptyRow(row, y, n);
  }

  /** Exactness for the assembled matrices. */
  lemma JacobianExact(es: seq<Element>, jx: SparseMatrix, ju: SparseMatrix, x: seq<real>, u: seq<real>, y: seq<real>,
                      v: seq<real>, laws: Laws, n: nat, i: nat)
    requires ValidLaws(laws) && |x| == |y| == |u| == |v| == NDIM * n && AllFit(es, x, u) && MeshWithin(es, x)
    requires forall k :: 0 <= k < |es| ==> !es[k].Spring?
    requires jx == AddBlocks(map[], AllBlocks(es, 1.0, 0.0, x, laws))
    requires ju == AddBlocks(map[], AllBlocks(es, 0.0, 1.0, x, laws))
    ensures AllFit(es, y, v)
    ensures Add(RowTimes(jx, i, Difference(y, x), n), RowTimes(ju, i, Difference(v, u), n))
         == Sub(Total(Loop(es, y, v, laws.phys), i), Total(Loop(es, x, u, laws.phys), i))
  {
    MeshExact(es, x, u, y, v, laws, i);
    RowOfBlocks(AllBlocks(es, 1.0, 0.0, x, laws), i, Difference(y, x), n);
    RowOfBlocks(AllBlocks(es, 0.0, 1.0, x, laws), i, Difference(v, u), n);
  }

  // --------------------------------------------------- spring directions

  lemma ProductQuotient(num: real, q: real, p: real, s: real, h: real)
    requires s != 0.0 && h == q / s && num == q * p
    ensures num / s == h * p
  {
    assert h * s == q;
    assert (h * p) * s == num;
  }

  lemma OuterEntry(q: real, di: real, dj: real, s: real, h: real, p: real, num: real)
    requires s != 0.0 && h == q / s && p == di * dj && num == q * di * dj
    ensures num / s == h * di * dj
  {
    assert num == q * p;
    ProductQuotient(num, q, p, s, h);
    assert h * p == h * di * dj;
  }

  lemma RowOuter(h: real, di: real, d: Vec3, v: Vec3, w: real, g: real, e0: real, e1: real, e2: real)
    requires e0 == h * di * d.x && e1 == h * di * d.y && e2 == h * di * d.z && g == Dot(d, v) && w == h * g
    ensures w * di == e0 * v.x + e1 * v.y + e2 * v.z
  {
    assert e0 * v.x == h * di * d.x * v.x;
    assert e1 * v.y == h * di * d.y * v.y;
    assert e2 * v.z == h * di * d.z * v.z;
    assert w == h * d.x * v.x + h * d.y * v.y + h * d.z * v.z;
    assert w * di == (h * d.x * v.x + h * d.y * v.y + h * d.z * v.z) * di;
  }

  lemma OuterRowTimes(q: real, di: real, d: Vec3, s: real, h: real, v: Vec3, w: real)
    requires s != 0.0 && h == q / s && w == h * Dot(d, v)
    ensures Dot(OuterRow(q, di, d, s), v) == w * di
  {
    var e := OuterRow(q, di, d, s);
    OuterEntry(q, di, d.x, s, h, di * d.x, q * di * d.x);
    OuterEntry(q, di, d.y, s, h, di * d.y, q * di * d.y);
    OuterEntry(q, di, d.z, s, h, di * d.z, q * di * d.z);
    RowOuter(h, di, d, v, w, Dot(d, v), e.x, e.y, e.z);
  }

  lemma PlusDiagonalTimes(t: real, e0: Vec3, e1: Vec3, e2: Vec3, v: Vec3)
    ensures Apply(PlusDiagonal(t, e0, e1, e2), v) == Add(Scale(t, v), Vec3(Dot(e0, v), Dot(e1, v), Dot(e2, v)))
  {
  }

  /** The entries form T/R I + h D D^T with h = q / s: times `v` they give T/R v + h (D.v) D. */
  lemma SpringTimes(t: real, q: real, d: Vec3, s: real, h: real, v: Vec3, w: real)
    requires s != 0.0 && h == q / s && w == h * Dot(d, v)
    ensures Apply(SpringEntries(t, q, d, s), v) == Add(Scale(t, v), Scale(w, d))
  {
    OuterRowTimes(q, d.x, d, s, h, v, w);
    OuterRowTimes(q, d.y, d, s, h, v, w);
    OuterRowTimes(q, d.z, d, s, h, v, w);
    PlusDiagonalTimes(t, OuterRow(q, d.x, d, s), OuterRow(q, d.y, d, s), OuterRow(q, d.z, d, s), v);
  }

  lemma ScaledRow(a: real, r: Vec3, v: Vec3, d: real) returns (p: real)
    requires d == Dot(r, v)
    ensures p == a * d == Dot(Scale(a, r), v)
  {
    p := a * d;
    DotScaled(a, r, v, d);
  }

  lemma ScaledTimes(a: real, m: Mat3, v: Vec3, mv: Vec3)
    requires mv == Apply(m, v)
    ensures Apply(MatScale(a, m), v) == Scale(a, mv)
  {
    var x := ScaledRow(a, m.r0, v, mv.x);
    var y := ScaledRow(a, m.r1, v, mv.y);
    var z := ScaledRow(a, m.r2, v, mv.z);
    RowsTimes(MatScale(a, m), Scale(a, m.r0), Scale(a, m.r1), Scale(a, m.r2), v, x, y, z);
    ScaleIs(a, mv, x, y, z);
  }

  lemma ScaleIs(a: real, v: Vec3, x: real, y: real, z: real)
    requires x == a * v.x && y == a * v.y && z == a * v.z
    ensures Scale(a, v) == Vec3(x, y, z)
  {
  }

  lemma RowsTimes(m: Mat3, r0: Vec3, r1: Vec3, r2: Vec3, v: Vec3, x: real, y: real, z: real)
    requires m == Mat3(r0, r1, r2) && Dot(r0, v) == x && Dot(r1, v) == y && Dot(r2, v) == z
    ensures Apply(m, v) == Vec3(x, y, z)
  {
  }

  /** A spring's block maps its displacement D to X_coef dT/dR D, and every vector orthogonal to D to X_coef T/R
      times itself. */
  lemma SpringDirections(a: real, tr: real, slope: real, d: Vec3, s: real, v: Vec3)
    requires s > 0.0 && s == Dot(d, d)
    ensures Apply(MatScale(a, SpringEntries(tr, slope - tr, d, s)), d) == Scale(a, Scale(slope, d))
    ensures Dot(d, v) == 0.0 ==> Apply(MatScale(a, SpringEntries(tr, slope - tr, d, s)), v) == Scale(a, Scale(tr, v))
  {
    var q := slope - tr;
    var m := SpringEntries(tr, q, d, s);
    AlongD(tr, q, d, s, q / s, slope);
    ScaledTimes(a, m, d, Scale(slope, d));
    if Dot(d, v) == 0.0 {
      AcrossD(tr, q, d, s, q / s, v);
      ScaledTimes(a, m, v, Scale(tr, v));
    }
  }

  lemma AcrossD(tr: real, q: real, d: Vec3, s: real, h: real, v: Vec3)
    requires s != 0.0 && Dot(d, v) == 0.0 && h == q / s
    ensures Apply(SpringEntries(tr, q, d, s), v) == Scale(tr, v)
  {
    SpringTimes(tr, q, d, s, h, v, 0.0);
  }

  lemma AlongD(tr: real, q: real, d: Vec3, s: real, h: real, slope: real)
    requires s != 0.0 && s == Dot(d, d) && h == q / s && slope == q + tr
    ensures Apply(SpringEntries(tr, q, d, s), d) == Scale(slope, d)
  {
    assert h * s == q;
    SpringTimes(tr, q, d, s, h, d, q);
  }
}
