/** What springs do in the assembled force Jacobian: the row of a spring's master gains X_coef dT/dR along the spring
    and X_coef T/R across it, the slave's row the opposite, and for Hookean springs the matrix is exact. */
module SpringRows {
  import opened Options
  import opened Vectors
  import opened Increments
  import opened NodalWork
  import opened ForceElements
  import opened ForceJacobian
  import opened JacobianForm

  // ------------------------------------------------- one spring in a matrix

  /** `g` meets `z` with slope `slope` along `d` and with the tension over the length across `d`, times `a`. */
  ghost predicate MeetsSpring(g: Vec3, z: Vec3, d: Vec3, a: real, slope: real, tension: real, length: real) {
    && Dot(g, d) == a * slope * Dot(z, d)
    && forall v :: Dot(d, v) == 0.0 ==> length * Dot(g, v) == a * tension * Dot(z, v)
  }

  lemma ValueAlong(a: real, slope: real, t: real, r: real, d: Vec3, z: Vec3)
    requires r > 0.0 && r * r == Dot(d, d)
    ensures SpringValue(a, slope, t, r, d, d, z) == a * slope * Dot(z, d)
  {
    var p := Along(d, r, d, z);
    SquarePositive(r, r * r);
    AlongTimes(d, r, d, z, r * r);
    SameTimes(p, Dot(d, z), r * r);
    DotCommutes(d, z);
    SplitValue(a, slope, t, r, d, d, z, t / r, slope - t / r, p, Dot(d, z), (slope - t / r) * p,
               t / r * Dot(d, z) + (slope - t / r) * p);
    FoldAlong(a, slope, t / r, p);
  }

  lemma SameTimes(p: real, q: real, s: real)
    requires s > 0.0 && p * s == s * q
    ensures p == q
  {
    Smaller(p, q, s);
    Smaller(q, p, s);
  }

  lemma FoldAlong(a: real, slope: real, tr: real, p: real)
    ensures a * (tr * p + (slope - tr) * p) == a * slope * p
  {
    assert tr * p + (slope - tr) * p == slope * p;
  }

  lemma ValueAcross(a: real, slope: real, t: real, r: real, d: Vec3, v: Vec3, z: Vec3)
    requires r > 0.0 && Dot(d, v) == 0.0
    ensures r * SpringValue(a, slope, t, r, d, v, z) == a * t * Dot(z, v)
  {
    var p := Along(d, r, v, z);
    SquarePositive(r, r * r);
    AlongTimes(d, r, v, z, r * r);
    SameTimes(p, 0.0, r * r);
    DotCommutes(v, z);
    QuotientTimes(t, r, t / r);
    SplitValue(a, slope, t, r, d, v, z, t / r, slope - t / r, p, Dot(v, z), (slope - t / r) * p,
               t / r * Dot(v, z) + (slope - t / r) * p);
    FoldAcross(a, slope, t, r, t / r, Dot(v, z), p);
  }

  lemma FoldAcross(a: real, slope: real, t: real, r: real, tr: real, zv: real, p: real)
    requires p == 0.0 && tr * r == t
    ensures r * (a * (tr * zv + (slope - tr) * p)) == a * t * zv
  {
    assert r * (a * (tr * zv)) == a * (tr * r) * zv;
  }

  lemma MatrixMeets(a: real, slope: real, t: real, r: real, d: Vec3, z: Vec3, g: Vec3)
    requires r > 0.0 && r * r == Dot(d, d) && g == Apply(SpringMatrix(a, t, slope, d, r), z)
    ensures MeetsSpring(g, z, d, a, slope, t, r)
  {
    MatrixForm(a, slope, t, r, d, d, z);
    ValueAlong(a, slope, t, r, d, z);
    DotCommutes(g, d);
    forall v | Dot(d, v) == 0.0 ensures r * Dot(g, v) == a * t * Dot(z, v) {
      MatrixForm(a, slope, t, r, d, v, z);
      ValueAcross(a, slope, t, r, d, v, z);
      DotCommutes(g, v);
    }
  }

  /** The motion of a spring's slave relative to its master. */
  function Stretch(e: Element, y: seq<real>): Vec3
    requires e.Spring? && Within(e, |y| / NDIM)
  {
    Sub(NodeAt(y, e.slave), NodeAt(y, e.master))
  }

  /** What a spring's blocks make of a motion `y`: `g` in the master's row, the opposite in the slave's. */
  ghost predicate RowOf(e: Element, a: real, x: seq<real>, y: seq<real>, laws: Laws, g: Vec3)
    requires e.Spring? && ValidLaws(laws) && |x| == |y| && Within(e, |x| / NDIM)
  {
    var d := Stretch(e, x);
    var r := laws.phys.norm(d);
    && (r < laws.phys.eps ==> g == ZERO)
    && (r >= laws.phys.eps ==>
          MeetsSpring(g, Stretch(e, y), d, a, Slope(e, r, laws),
                      laws.phys.tension(e.fcn, r, e.params, e.lagMaster, e.lagSlave), r))
  }

  lemma FourTotals(m: nat, s: nat, km: Vec3, ks: Vec3, g: Vec3, incs: seq<Increment>, i: nat)
    requires incs == [Increment(m, ks), Increment(s, km), Increment(m, Neg(km)), Increment(s, Neg(ks))]
    requires g == Sub(ks, km)
    ensures Total(incs, i) == Opposite(i, m, s, g)
  {
    TotalFew(Increment(m, ks), Increment(s, km), Increment(m, Neg(km)), Increment(s, Neg(ks)), i);
    FoldFour(m, s, km, ks, g, i);
  }

  lemma FoldFour(m: nat, s: nat, km: Vec3, ks: Vec3, g: Vec3, i: nat)
    requires g == Sub(ks, km)
    ensures Add(Add(Add(One(Increment(m, ks), i), One(Increment(s, km), i)), One(Increment(m, Neg(km)), i)),
                One(Increment(s, Neg(ks)), i)) == Opposite(i, m, s, g)
  {
  }

  lemma SpringBlocksTotal(e: Element, a: real, b: real, x: seq<real>, y: seq<real>, laws: Laws) returns (g: Vec3)
    requires e.Spring? && ValidLaws(laws) && IsNorm(laws.phys.norm) && |x| == |y| && Within(e, |x| / NDIM)
    ensures RowOf(e, a, x, y, laws, g)
    ensures forall i: nat :: Total(Product(ElementBlocks(e, a, b, x, laws), y), i) == Opposite(i, e.master, e.slave, g)
  {
    var d := Stretch(e, x);
    match SpringJacobian(e, d, a, laws)
    case None =>
      g := ShortSpringTotal(e, a, b, x, y, laws, d);
    case Some(k) =>
      g := LongSpringTotal(e, a, b, x, y, laws, d, k, laws.phys.norm(d));
  }

  lemma ShortSpringTotal(e: Element, a: real, b: real, x: seq<real>, y: seq<real>, laws: Laws, d: Vec3)
    returns (g: Vec3)
    requires e.Spring? && ValidLaws(laws) && |x| == |y| && Within(e, |x| / NDIM)
    requires d == Stretch(e, x) && SpringJacobian(e, d, a, laws) == None
    ensures RowOf(e, a, x, y, laws, g)
    ensures forall i: nat :: Total(Product(ElementBlocks(e, a, b, x, laws), y), i) == Opposite(i, e.master, e.slave, g)
  {
    g := ZERO;
    assert Product(ElementBlocks(e, a, b, x, laws), y) == [];
  }

  lemma LongSpringTotal(e: Element, a: real, b: real, x: seq<real>, y: seq<real>, laws: Laws, d: Vec3, k: Mat3, r: real)
    returns (g: Vec3)
    requires e.Spring? && ValidLaws(laws) && IsNorm(laws.phys.norm) && |x| == |y| && Within(e, |x| / NDIM)
    requires d == Stretch(e, x) && SpringJacobian(e, d, a, laws) == Some(k) && r == laws.phys.norm(d)
    ensures g == Apply(k, Stretch(e, y)) && RowOf(e, a, x, y, laws, g)
    ensures forall i: nat :: Total(Product(ElementBlocks(e, a, b, x, laws), y), i) == Opposite(i, e.master, e.slave, g)
  {
    var m, s := e.master, e.slave;
    g := Apply(k, Stretch(e, y));
    MatrixMeets(a, Slope(e, r, laws), laws.phys.tension(e.fcn, r, e.params, e.lagMaster, e.lagSlave), r, d,
                Stretch(e, y), g);
    SpringBlockTotals(m, s, k, y, g, Product(ElementBlocks(e, a, b, x, laws), y));
  }

  lemma SpringBlockTotals(m: nat, s: nat, k: Mat3, y: seq<real>, g: Vec3, incs: seq<Increment>)
    requires m < |y| / NDIM && s < |y| / NDIM && g == Apply(k, Sub(NodeAt(y, s), NodeAt(y, m)))
    requires var blocks := [Block(m, s, k), Block(s, m, k), Block(m, m, MatNeg(k)), Block(s, s, MatNeg(k))];
             BlocksIn(blocks, |y| / NDIM) && incs == Product(blocks, y)
    ensures forall i: nat :: Total(incs, i) == Opposite(i, m, s, g)
  {
    var km, ks := Apply(k, NodeAt(y, m)), Apply(k, NodeAt(y, s));
    SpringProducts(m, s, k, y, km, ks);
    ApplySub(k, NodeAt(y, s), NodeAt(y, m));
    forall i: nat ensures Total(incs, i) == Opposite(i, m, s, g) {
      FourTotals(m, s, km, ks, g, incs, i);
    }
  }

  /** Row `i` of the Jacobian of a mesh along `y`. */
  ghost function Row(es: seq<Element>, a: real, b: real, x: seq<real>, y: seq<real>, laws: Laws, n: nat, i: nat): Vec3
    requires ValidLaws(laws) && |x| == |y| == NDIM * n && MeshWithin(es, x)
  {
    RowTimes(AddBlocks(map[], AllBlocks(es, a, b, x, laws)), i, y, n)
  }

  lemma RowIsTotal(es: seq<Element>, a: real, b: real, x: seq<real>, y: seq<real>, laws: Laws, n: nat, i: nat)
    requires ValidLaws(laws) && |x| == |y| == NDIM * n && MeshWithin(es, x)
    ensures Row(es, a, b, x, y, laws, n, i) == Total(Flatten(ElementProducts(es, a, b, x, y, laws)), i)
  {
    ProductOfMesh(es, a, b, x, y, laws, ElementProducts(es, a, b, x, y, laws));
    RowOfBlocks(AllBlocks(es, a, b, x, laws), i, y, n);
  }

  lemma ProductsWithout(es: seq<Element>, k: nat, a: real, b: real, x: seq<real>, y: seq<real>, laws: Laws)
    requires ValidLaws(laws) && |x| == |y| && MeshWithin(es, x) && k < |es|
    ensures MeshWithin(Without(es, k), x)
    ensures var parts := ElementProducts(es, a, b, x, y, laws);
            ElementProducts(Without(es, k), a, b, x, y, laws) == parts[..k] + parts[k + 1..]
  {
  }

  lemma RowWithout(es: seq<Element>, k: nat, a: real, b: real, x: seq<real>, y: seq<real>, laws: Laws, n: nat, i: nat)
    requires ValidLaws(laws) && |x| == |y| == NDIM * n && MeshWithin(es, x) && k < |es|
    ensures MeshWithin(Without(es, k), x)
    ensures Row(es, a, b, x, y, laws, n, i)
         == Add(Row(Without(es, k), a, b, x, y, laws, n, i), Total(Product(ElementBlocks(es[k], a, b, x, laws), y), i))
  {
    ProductsWithout(es, k, a, b, x, y, laws);
    RowIsTotal(es, a, b, x, y, laws, n, i);
    RowIsTotal(Without(es, k), a, b, x, y, laws, n, i);
    FlattenRemove(ElementProducts(es, a, b, x, y, laws), k, i);
  }

  /** In the assembled Jacobian of any mesh a spring longer than the cut-off adds to its master's row X_coef dT/dR
      times the stretch along it and X_coef T/R times the stretch across it, the opposite to its slave's row, and
      nothing to any other; a shorter one adds nothing. */
  lemma SpringInJacobian(es: seq<Element>, k: nat, a: real, b: real, x: seq<real>, y: seq<real>, laws: Laws, n: nat)
    returns (g: Vec3)
    requires ValidLaws(laws) && IsNorm(laws.phys.norm) && |x| == |y| == NDIM * n && MeshWithin(es, x)
    requires k < |es| && es[k].Spring?
    ensures MeshWithin(Without(es, k), x) && RowOf(es[k], a, x, y, laws, g)
    ensures forall i: nat :: Row(es, a, b, x, y, laws, n, i)
              == Add(Row(Without(es, k), a, b, x, y, laws, n, i), Opposite(i, es[k].master, es[k].slave, g))
  {
    g := SpringBlocksTotal(es[k], a, b, x, y, laws);
    RowWithout(es, k, a, b, x, y, laws, n, 0);
    forall i: nat
      ensures Row(es, a, b, x, y, laws, n, i)
           == Add(Row(Without(es, k), a, b, x, y, laws, n, i), Opposite(i, es[k].master, es[k].slave, g))
    {
      RowWithout(es, k, a, b, x, y, laws, n, i);
    }
  }

  // -------------------------------------------------------- Hookean springs

  /** The tension is the length times `c`, and so is the derivative, if one is registered, `c`. */
  ghost predicate Hookean(e: Element, laws: Laws, c: real)
    requires e.Spring?
  {
    && (forall r :: laws.phys.tension(e.fcn, r, e.params, e.lagMaster, e.lagSlave) == c * r)
    && match laws.derivative(e.fcn)
       case None => true
       case Some(g) => forall r :: g(r, e.params, e.lagMaster, e.lagSlave) == c
  }

  lemma HookeanSlope(e: Element, r: real, laws: Laws, c: real)
    requires e.Spring? && ValidLaws(laws) && Hookean(e, laws, c)
    ensures Slope(e, r, laws) == c
  {
    if laws.derivative(e.fcn) == None {
      forall q ensures laws.phys.tension(e.fcn, q, e.params, e.lagMaster, e.lagSlave) == Cubic(0.0, c, 0.0, 0.0, q) {
        LinearCubic(c, q);
      }
      SlopeOfCubic(e, r, laws, 0.0, c, 0.0, 0.0);
      LinearCubic(c, r);
    }
  }

  lemma LinearCubic(c: real, q: real)
    ensures Cubic(0.0, c, 0.0, 0.0, q) == c * q && CubicDerivative(c, 0.0, 0.0, q) == c
  {
  }

  lemma HookeanMatrix(a: real, c: real, t: real, d: Vec3, r: real, z: Vec3)
    requires r > 0.0 && t == c * r
    ensures Apply(SpringMatrix(a, t, c, d, r), z) == Scale(a, Scale(c, z))
  {
    SquarePositive(r, r * r);
    HookeanQuotient(c, r, t);
    HookeanEntries(c, d, r * r, z);
    ScaledTimes(a, SpringEntries(c, 0.0, d, r * r), z, Scale(c, z));
  }

  lemma HookeanQuotient(c: real, r: real, t: real)
    requires r > 0.0 && t == c * r
    ensures t / r == c && c - t / r == 0.0
  {
    QuotientTimes(t, r, t / r);
    SameTimes(t / r, c, r);
  }

  lemma HookeanEntries(c: real, d: Vec3, s: real, z: Vec3)
    requires s != 0.0
    ensures Apply(SpringEntries(c, 0.0, d, s), z) == Scale(c, z)
  {
    SpringTimes(c, 0.0, d, s, 0.0, z, 0.0);
    assert Scale(0.0, d) == ZERO;
    AddZero(Scale(c, z));
  }

  ghost predicate Longer(e: Element, x: seq<real>, phys: Physics)
    requires e.Spring? && Within(e, |x| / NDIM)
  {
    phys.norm(Stretch(e, x)) >= phys.eps
  }

  lemma HookeanBlock(e: Element, a: real, laws: Laws, c: real, d: Vec3, r: real, k: Mat3, z: Vec3)
    requires e.Spring? && ValidLaws(laws) && Hookean(e, laws, c)
    requires r == laws.phys.norm(d) && SpringJacobian(e, d, a, laws) == Some(k)
    ensures Apply(k, z) == Scale(a, Scale(c, z))
  {
    HookeanSlope(e, r, laws, c);
    HookeanMatrix(a, c, laws.phys.tension(e.fcn, r, e.params, e.lagMaster, e.lagSlave), d, r, z);
  }

  lemma HookeanBlocks(e: Element, a: real, b: real, x: seq<real>, y: seq<real>, laws: Laws, c: real, i: nat)
    requires e.Spring? && ValidLaws(laws) && IsNorm(laws.phys.norm) && |x| == |y| && Within(e, |x| / NDIM)
    requires Hookean(e, laws, c) && Longer(e, x, laws.phys)
    ensures Total(Product(ElementBlocks(e, a, b, x, laws), y), i)
         == Opposite(i, e.master, e.slave, Scale(a, Scale(c, Stretch(e, y))))
  {
    var d := Stretch(e, x);
    var k := SpringJacobian(e, d, a, laws).value;
    var g := LongSpringTotal(e, a, b, x, y, laws, d, k, laws.phys.norm(d));
    HookeanBlock(e, a, laws, c, d, laws.phys.norm(d), k, Stretch(e, y));
  }

  lemma HookeanForce(e: Element, x: seq<real>, u: seq<real>, laws: Laws, c: real, i: nat)
    requires e.Spring? && ValidLaws(laws) && Fits(e, x, u) && Hookean(e, laws, c) && Longer(e, x, laws.phys)
    ensures Total(ElementIncrements(e, x, u, laws.phys), i) == Opposite(i, e.master, e.slave, Scale(c, Stretch(e, x)))
  {
    var d := Stretch(e, x);
    var r := laws.phys.norm(d);
    HookeanQuotient(c, r, laws.phys.tension(e.fcn, r, e.params, e.lagMaster, e.lagSlave));
    TwoIncrements(e.master, e.slave, Scale(c, d), i);
  }

  lemma OppositeDifference(i: nat, m: int, s: int, c: real, dy: Vec3, dx: Vec3, z: Vec3)
    requires z == Sub(dy, dx)
    ensures Changes(Opposite(i, m, s, Scale(1.0, Scale(c, z))), ZERO, Opposite(i, m, s, Scale(c, dy)),
                    Opposite(i, m, s, Scale(c, dx)))
  {
  }

  lemma OppositeZero(i: nat, m: int, s: int, v: Vec3)
    ensures Opposite(i, m, s, Scale(0.0, v)) == ZERO
  {
    assert Scale(0.0, v) == ZERO;
  }

  lemma HookeanExact(e: Element, x: seq<real>, u: seq<real>, y: seq<real>, v: seq<real>, laws: Laws, c: real, i: nat)
    requires e.Spring? && ValidLaws(laws) && IsNorm(laws.phys.norm) && |x| == |y| == |u| == |v| && Fits(e, x, u)
    requires Hookean(e, laws, c) && Longer(e, x, laws.phys) && Longer(e, y, laws.phys)
    ensures Changes(Total(Product(ElementBlocks(e, 1.0, 0.0, x, laws), Difference(y, x)), i),
                    Total(Product(ElementBlocks(e, 0.0, 1.0, x, laws), Difference(v, u)), i),
                    Total(ElementIncrements(e, y, v, laws.phys), i), Total(ElementIncrements(e, x, u, laws.phys), i))
  {
    var m, s := e.master, e.slave;
    HookeanBlocks(e, 1.0, 0.0, x, Difference(y, x), laws, c, i);
    HookeanBlocks(e, 0.0, 1.0, x, Difference(v, u), laws, c, i);
    OppositeZero(i, m, s, Scale(c, Stretch(e, Difference(v, u))));
    HookeanForce(e, y, v, laws, c, i);
    HookeanForce(e, x, u, laws, c, i);
    StretchDifference(e, y, x);
    OppositeDifference(i, m, s, c, Stretch(e, y), Stretch(e, x), Stretch(e, Difference(y, x)));
  }

  lemma StretchDifference(e: Element, y: seq<real>, x: seq<real>)
    requires e.Spring? && |x| == |y| && Within(e, |x| / NDIM)
    ensures Stretch(e, Difference(y, x)) == Sub(Stretch(e, y), Stretch(e, x))
  {
    var m, s := e.master, e.slave;
    assert NodeAt(Difference(y, x), m) == Sub(NodeAt(y, m), NodeAt(x, m));
    assert NodeAt(Difference(y, x), s) == Sub(NodeAt(y, s), NodeAt(x, s));
  }

  /** A spring, if the element is one, is Hookean and longer than the cut-off in both states. */
  ghost predicate LinearBetween(e: Element, x: seq<real>, y: seq<real>, laws: Laws)
    requires |x| == |y| && Within(e, |x| / NDIM)
  {
    e.Spring? ==> (exists c :: Hookean(e, laws, c)) && Longer(e, x, laws.phys) && Longer(e, y, laws.phys)
  }

  lemma LinearElementExact(e: Element, x: seq<real>, u: seq<real>, y: seq<real>, v: seq<real>, laws: Laws, i: nat)
    requires ValidLaws(laws) && IsNorm(laws.phys.norm) && |x| == |y| == |u| == |v| && Fits(e, x, u)
    requires LinearBetween(e, x, y, laws)
    ensures Changes(Total(Product(ElementBlocks(e, 1.0, 0.0, x, laws), Difference(y, x)), i),
                    Total(Product(ElementBlocks(e, 0.0, 1.0, x, laws), Difference(v, u)), i),
                    Total(ElementIncrements(e, y, v, laws.phys), i), Total(ElementIncrements(e, x, u, laws.phys), i))
  {
    if e.Spring? {
      var c :| Hookean(e, laws, c);
      HookeanExact(e, x, u, y, v, laws, c, i);
    } else {
      ElementExact(e, x, u, y, v, laws, i);
    }
  }

  /** For any mesh of Hookean springs, beams and target points and any two states in which no spring is shorter than
      the cut-off, the assembled Jacobians applied to their difference give the change of every nodal force, exactly:
      J_X (Y - X) + J_U (V - U) == F(Y, V) - F(X, U). */
  lemma LinearMeshExact(es: seq<Element>, x: seq<real>, u: seq<real>, y: seq<real>, v: seq<real>, laws: Laws, n: nat,
                        i: nat)
    requires ValidLaws(laws) && IsNorm(laws.phys.norm) && |x| == |y| == |u| == |v| == NDIM * n
    requires AllFit(es, x, u) && MeshWithin(es, x) && forall k :: 0 <= k < |es| ==> LinearBetween(es[k], x, y, laws)
    ensures AllFit(es, y, v)
    ensures Add(Row(es, 1.0, 0.0, x, Difference(y, x), laws, n, i), Row(es, 0.0, 1.0, x, Difference(v, u), laws, n, i))
         == Sub(Total(Loop(es, y, v, laws.phys), i), Total(Loop(es, x, u, laws.phys), i))
  {
    var p := ElementProducts(es, 1.0, 0.0, x, Difference(y, x), laws);
    var q := ElementProducts(es, 0.0, 1.0, x, Difference(v, u), laws);
    forall k | 0 <= k < |es| ensures Fits(es[k], y, v) {
      assert Fits(es[k], x, u);
    }
    RowIsTotal(es, 1.0, 0.0, x, Difference(y, x), laws, n, i);
    RowIsTotal(es, 0.0, 1.0, x, Difference(v, u), laws, n, i);
    var r, s := Each(es, y, v, laws.phys), Each(es, x, u, laws.phys);
    forall k | 0 <= k < |es| ensures Changes(Total(p[k], i), Total(q[k], i), Total(r[k], i), Total(s[k], i)) {
      LinearElementExact(es[k], x, u, y, v, laws, i);
    }
    FlattenExact(p, q, r, s, i);
  }
}
