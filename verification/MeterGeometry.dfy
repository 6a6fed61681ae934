/** The web of quadrilaterals spanned between a flow meter's perimeter and its centroid
    (IBInstrumentPanel), the areas it carries, and the correction for the meter's own motion. */
module MeterGeometry {
  import opened Vectors

  /** The point `n` of `N` steps along the ray from the perimeter node `p` to the centroid. */
  function Vertex(p: Vec3, c: Vec3, n: nat, N: nat): Vec3
    requires N > 0
  {
    Add(p, Scale(n as real, Divide(Sub(c, p), N as real)))
  }

  /** The area-weighted normal of a planar quadrilateral, half the product of its diagonals. */
  function Quad(x0: Vec3, x1: Vec3, x2: Vec3, x3: Vec3): Vec3 {
    Scale(0.5, Cross(Sub(x2, x0), Sub(x3, x1)))
  }

  /** Web patch `n` between perimeter nodes `p0` and `p1`. */
  function PatchArea(p0: Vec3, p1: Vec3, c: Vec3, n: nat, N: nat): Vec3
    requires N > 0
  {
    Quad(Vertex(p0, c, n, N), Vertex(p1, c, n, N), Vertex(p1, c, n + 1, N), Vertex(p0, c, n + 1, N))
  }

  /** How much of the way to the centroid is still left after `n` steps, and its square. */
  function Left(n: nat, N: nat): real
    requires N > 0
  {
    1.0 - n as real / N as real
  }

  function Remaining(n: nat, N: nat): real
    requires N > 0
  {
    Left(n, N) * Left(n, N)
  }

  lemma Regroup(a: real, N: real, q: real, n: real, e: real)
    requires n == a * N && e == q * N
    ensures n * q == a * e
  {
    assert n * q == (a * N) * q;
    assert a * e == a * (q * N);
  }

  lemma StepScalar(e: real, n: real, N: real, a: real)
    requires N != 0.0 && a == n / N
    ensures n * (e / N) == a * e
  {
    QuotientTimes(e, N, e / N);
    QuotientTimes(n, N, a);
    Regroup(a, N, e / N, n, e);
  }

  lemma StepVector(e: Vec3, n: real, N: real, a: real)
    requires N != 0.0 && a == n / N
    ensures Scale(n, Divide(e, N)) == Scale(a, e)
  {
    StepScalar(e.x, n, N, a);
    StepScalar(e.y, n, N, a);
    StepScalar(e.z, n, N, a);
  }

  lemma FromTheTip(p: Vec3, c: Vec3, a: real)
    ensures Add(p, Scale(a, Sub(c, p))) == Sub(c, Scale(1.0 - a, Sub(c, p)))
  {
  }

  lemma VertexIs(p: Vec3, c: Vec3, n: nat, N: nat)
    requires N > 0
    ensures Vertex(p, c, n, N) == Sub(c, Scale(Left(n, N), Sub(c, p)))
  {
    StepVector(Sub(c, p), n as real, N as real, n as real / N as real);
    FromTheTip(p, c, n as real / N as real);
  }

  lemma SelfQuotient(x: real)
    requires x != 0.0
    ensures x / x == 1.0
  {
  }

  lemma RemainingEnds(N: nat)
    requires N > 0
    ensures Remaining(0, N) == 1.0 && Remaining(N, N) == 0.0
  {
    SelfQuotient(N as real);
    assert Left(0, N) == 1.0 && Left(N, N) == 0.0;
  }

  /** (u e - v f) x (u f - v e) */
  lemma DiagonalCross(u: real, v: real, e: Vec3, f: Vec3)
    ensures Cross(Sub(Scale(u, e), Scale(v, f)), Sub(Scale(u, f), Scale(v, e))) == Scale(u * u - v * v, Cross(e, f))
  {
    var ue, vf, uf, ve := Scale(u, e), Scale(v, f), Scale(u, f), Scale(v, e);
    CrossSub(ue, vf, Sub(uf, ve));
    CrossSub(uf, ve, ue);
    CrossSub(uf, ve, vf);
    var c := Cross(e, f);
    ScaledCross(u, u, e, f, c);
    ScaledCross(v, v, f, e, Neg(c));
    CrossSelf(f, e);
    CrossSelf(e, e);
    CrossSelf(f, f);
    ScaledCross(u, v, e, e, ZERO);
    ScaledCross(v, u, f, f, ZERO);
    Collect(u * u, v * v, c);
    ZeroScale(u * v);
    ZeroScale(v * u);
  }

  lemma ScaledCross(u: real, v: real, e: Vec3, f: Vec3, c: Vec3)
    requires c == Cross(e, f)
    ensures Cross(Scale(u, e), Scale(v, f)) == Scale(u * v, c)
  {
    CrossScale(u, e, Scale(v, f));
    CrossScale(v, e, f);
    ScaleScale(u, v, c);
  }

  lemma ScaleScale(u: real, v: real, c: Vec3)
    ensures Scale(u, Scale(v, c)) == Scale(u * v, c)
  {
  }

  lemma ZeroScale(u: real)
    ensures Scale(u, ZERO) == ZERO
  {
  }

  lemma Collect(p: real, q: real, c: Vec3)
    ensures Sub(Sub(Scale(p, c), ZERO), Sub(ZERO, Scale(q, Neg(c)))) == Scale(p - q, c)
  {
  }

  lemma QuadIs(c: Vec3, u: real, v: real, uu: real, vv: real, e: Vec3, f: Vec3, x0: Vec3, x1: Vec3, x2: Vec3, x3: Vec3)
    requires uu == u * u && vv == v * v
    requires x0 == Sub(c, Scale(u, e)) && x1 == Sub(c, Scale(u, f)) && x2 == Sub(c, Scale(v, f))
    requires x3 == Sub(c, Scale(v, e))
    ensures Quad(x0, x1, x2, x3) == Scale(0.5, Scale(uu - vv, Cross(e, f)))
  {
    SubFrom(c, Scale(v, f), Scale(u, e));
    SubFrom(c, Scale(v, e), Scale(u, f));
    DiagonalCross(u, v, e, f);
  }

  lemma LeftOf(n: nat, N: nat) returns (u: real, r: real)
    requires N > 0
    ensures u == Left(n, N) && r == Remaining(n, N) == u * u
  {
    u, r := Left(n, N), Remaining(n, N);
  }

  /** A patch's area is the difference of two similar triangles with their tips at the centroid. */
  lemma PatchAreaIs(p0: Vec3, p1: Vec3, c: Vec3, n: nat, N: nat)
    requires N > 0
    ensures PatchArea(p0, p1, c, n, N) ==
            Scale(0.5, Scale(Remaining(n, N) - Remaining(n + 1, N), Cross(Sub(c, p0), Sub(c, p1))))
  {
    var u, r := LeftOf(n, N);
    var v, s := LeftOf(n + 1, N);
    VertexIs(p0, c, n, N);
    VertexIs(p0, c, n + 1, N);
    VertexIs(p1, c, n, N);
    VertexIs(p1, c, n + 1, N);
    QuadIs(c, u, v, r, s, Sub(c, p0), Sub(c, p1),
           Vertex(p0, c, n, N), Vertex(p1, c, n, N), Vertex(p1, c, n + 1, N), Vertex(p0, c, n + 1, N));
  }

  lemma SubFrom(c: Vec3, a: Vec3, b: Vec3)
    ensures Sub(Sub(c, a), Sub(c, b)) == Sub(b, a)
  {
  }

  /** The total area of the first `k` patches between two perimeter nodes. */
  function WedgeArea(p0: Vec3, p1: Vec3, c: Vec3, k: nat, N: nat): Vec3
    requires N > 0
  {
    if k == 0 then ZERO else Add(WedgeArea(p0, p1, c, k - 1, N), PatchArea(p0, p1, c, k - 1, N))
  }

  lemma {:induction false} WedgeTelescopes(p0: Vec3, p1: Vec3, c: Vec3, k: nat, N: nat, t: Vec3)
    requires 0 < N && k <= N && t == Cross(Sub(c, p0), Sub(c, p1))
    ensures WedgeArea(p0, p1, c, k, N) == Scale(0.5, Scale(1.0 - Remaining(k, N), t))
  {
    if k > 0 {
      WedgeTelescopes(p0, p1, c, k - 1, N, t);
      PatchAreaIs(p0, p1, c, k - 1, N);
      Telescoped(Remaining(k - 1, N), Remaining(k, N), t);
    } else {
      RemainingEnds(N);
      NothingLeft(t);
    }
  }

  lemma NothingLeft(t: Vec3)
    ensures Scale(0.5, Scale(0.0, t)) == ZERO && Scale(0.5, Scale(1.0, t)) == Scale(0.5, t)
  {
  }

  lemma Telescoped(u: real, v: real, t: Vec3)
    ensures Add(Scale(0.5, Scale(1.0 - u, t)), Scale(0.5, Scale(u - v, t))) == Scale(0.5, Scale(1.0 - v, t))
  {
  }

  /** The triangle from two perimeter nodes to the centroid, as the motion correction uses it. */
  function Triangle(p0: Vec3, p1: Vec3, c: Vec3): Vec3 {
    Scale(0.5, Cross(Sub(c, p0), Sub(c, p1)))
  }

  /** All patches of a wedge together have the area vector of the triangle. */
  lemma WedgeIsTriangle(p0: Vec3, p1: Vec3, c: Vec3, N: nat)
    requires N > 0
    ensures WedgeArea(p0, p1, c, N, N) == Triangle(p0, p1, c)
  {
    WedgeTelescopes(p0, p1, c, N, N, Cross(Sub(c, p0), Sub(c, p1)));
    RemainingEnds(N);
    NothingLeft(Cross(Sub(c, p0), Sub(c, p1)));
  }

  /** The perimeter node after node `m`, around the end. */
  function Next(m: nat, n: nat): (r: nat)
    requires m < n
    ensures r < n
  {
    if m + 1 == n then 0 else m + 1
  }

  lemma NextIs(m: nat, n: nat)
    requires m < n
    ensures (m + 1) % n == Next(m, n)
  {
  }

  /** The triangles of the first `k` perimeter nodes, and the boundary products that do not know the centroid. */
  function MeterArea(p: seq<Vec3>, c: Vec3, k: nat): Vec3
    requires k <= |p|
  {
    if k == 0 then ZERO else Add(MeterArea(p, c, k - 1), Triangle(p[k - 1], p[Next(k - 1, |p|)], c))
  }

  function BoundaryArea(p: seq<Vec3>, k: nat): Vec3
    requires k <= |p|
  {
    if k == 0 then ZERO else Add(BoundaryArea(p, k - 1), Scale(0.5, Cross(p[k - 1], p[Next(k - 1, |p|)])))
  }

  lemma TriangleExpands(p: Vec3, q: Vec3, c: Vec3)
    ensures Triangle(p, q, c) == Add(Scale(0.5, Cross(p, q)), Sub(Scale(0.5, Cross(c, p)), Scale(0.5, Cross(c, q))))
  {
    CrossSub(c, p, Sub(c, q));
    CrossSub(c, q, c);
    CrossSub(c, q, p);
    CrossSelf(c, c);
    CrossSelf(p, c);
    Expanded(Cross(c, c), Cross(c, q), Cross(p, c), Cross(p, q), Cross(c, p));
  }

  lemma Expanded(cc: Vec3, cq: Vec3, pc: Vec3, pq: Vec3, cp: Vec3)
    requires cc == ZERO && pc == Neg(cp)
    ensures Scale(0.5, Sub(Sub(cc, cq), Sub(pc, pq))) == Add(Scale(0.5, pq), Sub(Scale(0.5, cp), Scale(0.5, cq)))
  {
  }

  /** The perimeter is closed: node |p| is node 0 again. */
  function Around(p: seq<Vec3>, k: nat): Vec3
    requires k <= |p| && 0 < |p|
  {
    if k == |p| then p[0] else p[k]
  }

  lemma NextAround(p: seq<Vec3>, k: nat)
    requires k < |p|
    ensures p[Next(k, |p|)] == Around(p, k + 1) && p[k] == Around(p, k)
  {
  }

  function HalfCross(a: Vec3, b: Vec3): Vec3 {
    Scale(0.5, Cross(a, b))
  }

  lemma {:induction false} PartialAreas(p: seq<Vec3>, c: Vec3, k: nat)
    requires 0 < |p| && k <= |p|
    ensures MeterArea(p, c, k) == Add(BoundaryArea(p, k), Sub(HalfCross(c, p[0]), HalfCross(c, Around(p, k))))
  {
    if k == 0 {
      Cancelled(HalfCross(c, p[0]));
    } else {
      var a, b := Around(p, k - 1), Around(p, k);
      PartialAreas(p, c, k - 1);
      NextAround(p, k - 1);
      TriangleExpands(a, b, c);
      Chained(BoundaryArea(p, k - 1), HalfCross(c, p[0]), HalfCross(c, a), HalfCross(c, b), HalfCross(a, b));
    }
  }

  lemma Cancelled(a: Vec3)
    ensures ZERO == Add(ZERO, Sub(a, a))
  {
  }

  lemma Chained(b: Vec3, first: Vec3, mid: Vec3, last: Vec3, t: Vec3)
    ensures Add(Add(b, Sub(first, mid)), Add(t, Sub(mid, last))) == Add(Add(b, t), Sub(first, last))
  {
  }

  /** The meter's area vector does not depend on where the centroid lies. */
  lemma AreaOfBoundary(p: seq<Vec3>, c: Vec3)
    requires 0 < |p|
    ensures MeterArea(p, c, |p|) == BoundaryArea(p, |p|)
  {
    PartialAreas(p, c, |p|);
    Uncancelled(BoundaryArea(p, |p|), HalfCross(c, p[0]));
  }

  lemma Uncancelled(b: Vec3, a: Vec3)
    ensures Add(b, Sub(a, a)) == b
  {
  }

  // --------------------------------------------------------------- motion

  /** The velocity of a triangle's centre. */
  function CentreVelocity(u0: Vec3, u1: Vec3, uc: Vec3): Vec3 {
    Divide(Add(Add(u0, u1), uc), 3.0)
  }

  function Correction(u: seq<Vec3>, uc: Vec3, p: seq<Vec3>, c: Vec3, k: nat): real
    requires k <= |p| == |u|
  {
    if k == 0 then 0.0
    else Correction(u, uc, p, c, k - 1)
         + Dot(CentreVelocity(u[k - 1], u[Next(k - 1, |p|)], uc), Triangle(p[k - 1], p[Next(k - 1, |p|)], c))
  }

  method ComputeFlowCorrection(u: seq<Vec3>, uc: Vec3, p: seq<Vec3>, c: Vec3) returns (r: real)
    requires |u| == |p|
    ensures r == Correction(u, uc, p, c, |p|)
  {
    r := 0.0;
    for m := 0 to |p|
      invariant r == Correction(u, uc, p, c, m)
    {
      NextIs(m, |p|);
      var next := (m + 1) % |p|;
      var U := Divide(Add(Add(u[m], u[next]), uc), 3.0);
      var dA := Scale(0.5, Cross(Sub(c, p[m]), Sub(c, p[next])));
      r := r + Dot(U, dA);
    }
  }

  lemma ThirdOf(u: Vec3)
    ensures CentreVelocity(u, u, u) == u
  {
  }

  /** A meter moving with one velocity is corrected by that velocity times its area. */
  lemma {:induction false} UniformCorrection(u: seq<Vec3>, u0: Vec3, p: seq<Vec3>, c: Vec3, k: nat)
    requires k <= |p| == |u| && forall m :: 0 <= m < |u| ==> u[m] == u0
    ensures Correction(u, u0, p, c, k) == Dot(u0, MeterArea(p, c, k))
  {
    if k > 0 {
      UniformCorrection(u, u0, p, c, k - 1);
      ThirdOf(u0);
      DotLinear(1.0, MeterArea(p, c, k - 1), Triangle(p[k - 1], p[Next(k - 1, |p|)], c), u0);
    } else {
      DotZero(u0);
    }
  }

  // --------------------------------------------------------- patch centres

  /** The two parameters at which the lines joining opposite edge midpoints meet, by Cramer's rule. */
  lemma LinesMeet(d0d0: real, d0d1: real, d1d1: real, d0l0: real, d0l1: real, d1l0: real, d1l1: real, det: real)
    requires det == -d0d1 * d0d1 + d1d1 * d0d0 && det != 0.0
    requires d0l0 - d0l1 == 0.5 * (d0d1 - d0d0) && d1l0 - d1l1 == 0.5 * (d1d1 - d0d1)
    ensures (-d0l0 * d1d1 + d0l1 * d1d1 + d0d1 * d1l0 - d0d1 * d1l1) / det == 0.5
    ensures (d1l0 * d0d0 - d0d1 * d0l0 + d0d1 * d0l1 - d1l1 * d0d0) / det == 0.5
  {
    var a, b := d0l0 - d0l1, d1l0 - d1l1;
    var t := -d0l0 * d1d1 + d0l1 * d1d1 + d0d1 * d1l0 - d0d1 * d1l1;
    var s := d1l0 * d0d0 - d0d1 * d0l0 + d0d1 * d0l1 - d1l1 * d0d0;
    assert t == -(a * d1d1) + d0d1 * b;
    assert s == b * d0d0 - d0d1 * a;
    assert a * d1d1 == 0.5 * (d0d1 * d1d1) - 0.5 * (d0d0 * d1d1)
           && d0d1 * b == 0.5 * (d0d1 * d1d1) - 0.5 * (d0d1 * d0d1);
    assert b * d0d0 == 0.5 * (d1d1 * d0d0) - 0.5 * (d0d1 * d0d0)
           && d0d1 * a == 0.5 * (d0d1 * d0d1) - 0.5 * (d0d1 * d0d0);
    HalfQuotient(t, det);
    HalfQuotient(s, det);
  }

  lemma HalfQuotient(t: real, det: real)
    requires det != 0.0 && t == 0.5 * det
    ensures t / det == 0.5
  {
  }

  function Midpoint(a: Vec3, b: Vec3): Vec3 {
    Scale(0.5, Add(a, b))
  }

  /** The mean of the four vertices. */
  function Centre(x0: Vec3, x1: Vec3, x2: Vec3, x3: Vec3): Vec3 {
    Scale(0.25, Add(Add(x0, x1), Add(x2, x3)))
  }

  /** The denominator of both parameters is the square of the patch's area. */
  lemma DeterminantIsArea(x0: Vec3, x1: Vec3, x2: Vec3, x3: Vec3, d0: Vec3, d1: Vec3)
    requires d0 == Sub(Midpoint(x2, x3), Midpoint(x0, x1)) && d1 == Sub(Midpoint(x3, x0), Midpoint(x1, x2))
    ensures Cross(d0, d1) == Quad(x0, x1, x2, x3)
    ensures -Dot(d0, d1) * Dot(d0, d1) + Dot(d1, d1) * Dot(d0, d0) == Dot(Quad(x0, x1, x2, x3), Quad(x0, x1, x2, x3))
  {
    var a, b := Sub(x2, x0), Sub(x3, x1);
    HalfSum(x0, x1, x2, x3, a, b, d0, d1);
    var ha, hb := Scale(0.5, a), Scale(0.5, b);
    CrossSub(hb, ha, Add(ha, hb));
    CrossAdd(ha, hb, hb);
    CrossAdd(ha, hb, ha);
    CrossSelf(ha, hb);
    CrossSelf(hb, ha);
    CrossScale(0.5, a, hb);
    CrossScale(0.5, a, b);
    CrossSelf(Add(ha, hb), Sub(hb, ha));
    AreaScale(Cross(a, b), Cross(ha, hb), Cross(hb, ha));
    Lagrange(d0, d1, d0, d1);
    DotCommutes(d0, d1);
    Products(Dot(d0, d0), Dot(d1, d1), Dot(d0, d1), Dot(d1, d0));
  }

  lemma HalfSum(x0: Vec3, x1: Vec3, x2: Vec3, x3: Vec3, a: Vec3, b: Vec3, d0: Vec3, d1: Vec3)
    requires d0 == Sub(Midpoint(x2, x3), Midpoint(x0, x1)) && d1 == Sub(Midpoint(x3, x0), Midpoint(x1, x2))
    requires a == Sub(x2, x0) && b == Sub(x3, x1)
    ensures d0 == Add(Scale(0.5, a), Scale(0.5, b)) && d1 == Sub(Scale(0.5, b), Scale(0.5, a))
  {
  }

  lemma AreaScale(ab: Vec3, hh: Vec3, hb: Vec3)
    requires hh == Scale(0.5, Scale(0.5, ab)) && hb == Neg(hh)
    ensures Neg(Sub(Add(hb, ZERO), Add(ZERO, hh))) == Scale(0.5, ab)
  {
  }

  lemma Products(a: real, b: real, c: real, d: real)
    requires c == d
    ensures -c * c + b * a == a * b - c * d
  {
  }

  lemma DotOfDifference(d: Vec3, l0: Vec3, l1: Vec3, d0: Vec3, d1: Vec3)
    requires Sub(l0, l1) == Scale(0.5, Sub(d1, d0))
    ensures Dot(d, l0) - Dot(d, l1) == 0.5 * (Dot(d, d1) - Dot(d, d0))
  {
    DotLinear(1.0, l0, l1, d);
    DotLinear(0.5, Sub(d1, d0), d1, d);
    DotLinear(1.0, d1, d0, d);
  }

  lemma MidpointLines(x0: Vec3, x1: Vec3, x2: Vec3, x3: Vec3, l0: Vec3, l1: Vec3, d0: Vec3, d1: Vec3)
    requires l0 == Midpoint(x0, x1) && l1 == Midpoint(x1, x2)
    requires d0 == Sub(Midpoint(x2, x3), Midpoint(x0, x1)) && d1 == Sub(Midpoint(x3, x0), Midpoint(x1, x2))
    ensures Sub(l0, l1) == Scale(0.5, Sub(d1, d0))
    ensures Scale(0.5, Add(Add(Add(l0, Scale(0.5, d0)), l1), Scale(0.5, d1))) == Centre(x0, x1, x2, x3)
  {
  }

  /** A patch of a wedge whose perimeter nodes and centroid are not in line has an area. */
  lemma AreaNonzero(p0: Vec3, p1: Vec3, c: Vec3, n: nat, N: nat)
    requires n < N && Cross(Sub(c, p0), Sub(c, p1)) != ZERO
    ensures PatchArea(p0, p1, c, n, N) != ZERO
  {
    var t := Cross(Sub(c, p0), Sub(c, p1));
    PatchAreaIs(p0, p1, c, n, N);
    Shrinks(n, N);
    ScaledNonzero(Remaining(n, N) - Remaining(n + 1, N), t);
  }

  lemma ScaledNonzero(k: real, t: Vec3)
    requires k > 0.0 && t != ZERO
    ensures Scale(0.5, Scale(k, t)) != ZERO
  {
    if t.x != 0.0 {
      FactorNonzero(k, t.x);
    } else if t.y != 0.0 {
      FactorNonzero(k, t.y);
    } else {
      FactorNonzero(k, t.z);
    }
  }

  lemma FactorNonzero(k: real, x: real)
    requires k > 0.0 && x != 0.0
    ensures k * x != 0.0
  {
    if x > 0.0 {
      ProductPositive(k, x, k * x);
    } else {
      ProductPositive(k, -x, -(k * x));
    }
  }

  lemma Shrinks(n: nat, N: nat)
    requires n < N
    ensures Remaining(n, N) > Remaining(n + 1, N)
  {
    var u, v := Left(n, N), Left(n + 1, N);
    var a, b := n as real / N as real, (n + 1) as real / N as real;
    QuotientTimes(n as real, N as real, a);
    QuotientTimes((n + 1) as real, N as real, b);
    Ordered(a, b, N as real, n as real);
    ProductPositive(u - v, u + v, (u - v) * (u + v));
    assert (u - v) * (u + v) == u * u - v * v;
  }

  lemma Ordered(a: real, b: real, N: real, n: real)
    requires N > 0.0 && a * N == n && b * N == n + 1.0 && n + 1.0 <= N
    ensures a < b <= 1.0
  {
    if a >= b {
      Monotone(b, a, N);
    }
    if b > 1.0 {
      ProductPositive(b - 1.0, N, (b - 1.0) * N);
    }
  }

  lemma Monotone(b: real, a: real, N: real)
    requires b <= a && N > 0.0
    ensures b * N <= a * N
  {
    if b < a {
      ProductPositive(a - b, N, (a - b) * N);
    }
  }

  lemma LengthNonzero(v: Vec3)
    requires v != ZERO
    ensures Dot(v, v) != 0.0
  {
    var a := SquareOf(v.x);
    var b := SquareOf(v.y);
    var c := SquareOf(v.z);
    assert Dot(v, v) == a + b + c;
  }

  lemma SquareOf(x: real) returns (s: real)
    ensures s == x * x && s >= 0.0 && (x != 0.0 ==> s > 0.0)
  {
    s := x * x;
    if x > 0.0 {
      ProductPositive(x, x, s);
    } else if x < 0.0 {
      ProductPositive(-x, -x, s);
    }
  }

  /** The centre of one patch: where the lines joining the midpoints of opposite edges meet. */
  method PatchCentre(x0: Vec3, x1: Vec3, x2: Vec3, x3: Vec3) returns (x: Vec3)
    requires Quad(x0, x1, x2, x3) != ZERO
    ensures x == Centre(x0, x1, x2, x3)
  {
    var x01, x12, x23, x30 := Midpoint(x0, x1), Midpoint(x1, x2), Midpoint(x2, x3), Midpoint(x3, x0);
    var l0, d0, l1, d1 := x01, Sub(x23, x01), x12, Sub(x30, x12);
    var d0d0, d0d1, d1d1 := Dot(d0, d0), Dot(d0, d1), Dot(d1, d1);
    var d0l0, d0l1, d1l0, d1l1 := Dot(d0, l0), Dot(d0, l1), Dot(d1, l0), Dot(d1, l1);
    DeterminantIsArea(x0, x1, x2, x3, d0, d1);
    LengthNonzero(Quad(x0, x1, x2, x3));
    MidpointLines(x0, x1, x2, x3, l0, l1, d0, d1);
    DotOfDifference(d0, l0, l1, d0, d1);
    DotOfDifference(d1, l0, l1, d0, d1);
    DotCommutes(d0, d1);
    var det := -d0d1 * d0d1 + d1d1 * d0d0;
    LinesMeet(d0d0, d0d1, d1d1, d0l0, d0l1, d1l0, d1l1, det);
    var t := (-d0l0 * d1d1 + d0l1 * d1d1 + d0d1 * d1l0 - d0d1 * d1l1) / det;
    var s := (d1l0 * d0d0 - d0d1 * d0l0 + d0d1 * d0l1 - d1l1 * d0d0) / det;
    x := Scale(0.5, Add(Add(Add(l0, Scale(t, d0)), l1), Scale(s, d1)));
  }

  /** No wedge is degenerate; the code divides by the squared area of every patch. */
  predicate Spread(p: seq<Vec3>, c: Vec3) {
    forall m :: 0 <= m < |p| ==> Cross(Sub(c, p[m]), Sub(c, p[Next(m, |p|)])) != ZERO
  }

  function PatchMiddle(p0: Vec3, p1: Vec3, c: Vec3, n: nat, N: nat): Vec3
    requires N > 0
  {
    Centre(Vertex(p0, c, n, N), Vertex(p1, c, n, N), Vertex(p1, c, n + 1, N), Vertex(p0, c, n + 1, N))
  }

  /** One web patch, as the inner loop computes it. */
  method MeterElement(p0: Vec3, p1: Vec3, c: Vec3, n: nat, N: nat) returns (x: Vec3, dA: Vec3)
    requires n < N && Cross(Sub(c, p0), Sub(c, p1)) != ZERO
    ensures x == PatchMiddle(p0, p1, c, n, N) && dA == PatchArea(p0, p1, c, n, N)
  {
    var dX0, dX1 := Divide(Sub(c, p0), N as real), Divide(Sub(c, p1), N as real);
    var x0 := Add(p0, Scale(n as real, dX0));
    var x1 := Add(p1, Scale(n as real, dX1));
    var x2 := Add(p1, Scale((n + 1) as real, dX1));
    var x3 := Add(p0, Scale((n + 1) as real, dX0));
    AreaNonzero(p0, p1, c, n, N);
    x := PatchCentre(x0, x1, x2, x3);
    dA := Scale(0.5, Cross(Sub(x2, x0), Sub(x3, x1)));
  }

  /** Fills the centres and areas of all patches of a meter. */
  method InitMeterElements(xWeb: array2<Vec3>, dAWeb: array2<Vec3>, p: seq<Vec3>, c: Vec3)
    requires xWeb != dAWeb && xWeb.Length0 == dAWeb.Length0 == |p| && xWeb.Length1 == dAWeb.Length1
    requires xWeb.Length1 > 0 ==> Spread(p, c)
    modifies xWeb, dAWeb
    ensures forall m, n :: 0 <= m < |p| && 0 <= n < xWeb.Length1 ==>
              && xWeb[m, n] == PatchMiddle(p[m], p[Next(m, |p|)], c, n, xWeb.Length1)
              && dAWeb[m, n] == PatchArea(p[m], p[Next(m, |p|)], c, n, xWeb.Length1)
  {
    var N := xWeb.Length1;
    for m := 0 to |p|
      invariant forall i, n :: 0 <= i < m && 0 <= n < N ==>
                  && xWeb[i, n] == PatchMiddle(p[i], p[Next(i, |p|)], c, n, N)
                  && dAWeb[i, n] == PatchArea(p[i], p[Next(i, |p|)], c, n, N)
    {
      NextIs(m, |p|);
      var p0, p1 := p[m], p[(m + 1) % |p|];
      assert p1 == p[Next(m, |p|)];
      for n := 0 to N
        invariant forall i, j :: 0 <= i < m && 0 <= j < N ==>
                    && xWeb[i, j] == PatchMiddle(p[i], p[Next(i, |p|)], c, j, N)
                    && dAWeb[i, j] == PatchArea(p[i], p[Next(i, |p|)], c, j, N)
        invariant forall j :: 0 <= j < n ==>
                  xWeb[m, j] == PatchMiddle(p0, p1, c, j, N) && dAWeb[m, j] == PatchArea(p0, p1, c, j, N)
      {
        assert Cross(Sub(c, p[m]), Sub(c, p[Next(m, |p|)])) != ZERO;
        var x, dA := MeterElement(p0, p1, c, n, N);
        xWeb[m, n], dAWeb[m, n] := x, dA;
      }
    }
  }
}
