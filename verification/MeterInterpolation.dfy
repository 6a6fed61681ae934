/** The multilinear interpolation of cell- and side-centred data at a point of a grid cell (IBInstrumentPanel). */
module MeterInterpolation {
  import opened Vectors

  datatype Index = Index(i: int, j: int, k: int)

  /** The weight of the data point at `xc`, a hat of half-width `dx`. */
  function Hat(x: real, xc: real, dx: real): real
    requires dx > 0.0
  {
    (if x < xc then x - (xc - dx) else (xc + dx) - x) / dx
  }

  /** Where the data of one direction lie: the centres of the cell and its neighbour on the side of the
      point, or for the direction a side faces, the two sides of the cell. */
  function FirstShift(x: real, xCell: real, side: bool): int {
    if side then 0 else if x < xCell then -1 else 0
  }

  function DataPoint(xCell: real, dx: real, shift: int, side: bool): real {
    xCell + (shift as real + (if side then -0.5 else 0.0)) * dx
  }

  /** Both weights of one direction. */
  datatype Pair = Pair(first: int, w0: real, w1: real)

  function Weights(x: real, xCell: real, dx: real, side: bool): Pair
    requires dx > 0.0
  {
    var s := FirstShift(x, xCell, side);
    Pair(s, Hat(x, DataPoint(xCell, dx, s, side), dx), Hat(x, DataPoint(xCell, dx, s + 1, side), dx))
  }

  /** The point lies in the cell. */
  predicate InCell(x: real, xCell: real, dx: real) {
    xCell - 0.5 * dx <= x < xCell + 0.5 * dx
  }

  function Lerp(w0: real, a: real, w1: real, b: real): real {
    w0 * a + w1 * b
  }

  ghost predicate Convex(w0: real, w1: real) {
    w0 >= 0.0 && w1 >= 0.0 && w0 + w1 == 1.0
  }

  lemma QuotientSign(a: real, b: real)
    requires b > 0.0 && a >= 0.0
    ensures a / b >= 0.0
  {
    var q := a / b;
    QuotientTimes(a, b, q);
    if q < 0.0 {
      ProductPositive(-q, b, -a);
    }
  }

  lemma SumOfQuotients(a: real, b: real, d: real)
    requires d != 0.0 && a + b == d
    ensures a / d + b / d == 1.0
  {
    QuotientTimes(a, d, a / d);
    QuotientTimes(b, d, b / d);
    Same(a / d + b / d, 1.0, d);
  }

  lemma Same(p: real, q: real, d: real)
    requires d != 0.0 && p * d == q * d
    ensures p == q
  {
    assert (p - q) * d == 0.0;
  }

  /** Between two neighbouring data points the hats are convex weights that average the points to `x`. */
  lemma HatPair(x: real, x0: real, x1: real, dx: real)
    requires dx > 0.0 && x1 == x0 + dx && x0 <= x < x1
    ensures Convex(Hat(x, x0, dx), Hat(x, x1, dx))
    ensures Lerp(Hat(x, x0, dx), x0, Hat(x, x1, dx), x1) == x
  {
    var a, b := (x0 + dx) - x, x - (x1 - dx);
    QuotientSign(a, dx);
    QuotientSign(b, dx);
    SumOfQuotients(a, b, dx);
    QuotientTimes(b, dx, b / dx);
    Averages(a / dx, b / dx, x0, dx, x);
  }

  lemma Averages(w0: real, w1: real, x0: real, dx: real, x: real)
    requires w0 + w1 == 1.0 && w1 * dx == x - x0
    ensures w0 * x0 + w1 * (x0 + dx) == x
  {
    assert w0 * x0 + w1 * x0 == (w0 + w1) * x0;
  }

  lemma ShiftedPoints(xCell: real, dx: real, s: int, side: bool)
    ensures DataPoint(xCell, dx, s + 1, side) == DataPoint(xCell, dx, s, side) + dx
    ensures DataPoint(xCell, dx, 0, false) == xCell && DataPoint(xCell, dx, -1, false) == xCell - dx
    ensures DataPoint(xCell, dx, 0, true) == xCell - 0.5 * dx
  {
    Stepped(s as real + (if side then -0.5 else 0.0), dx);
  }

  lemma Stepped(a: real, dx: real)
    ensures (a + 1.0) * dx == a * dx + dx
  {
  }

  /** In every direction the two weights are convex and reproduce the point, wherever in its cell it lies. */
  lemma WeightsConvex(x: real, xCell: real, dx: real, side: bool)
    requires dx > 0.0 && InCell(x, xCell, dx)
    ensures var p := Weights(x, xCell, dx, side);
            Convex(p.w0, p.w1) && Lerp(p.w0, DataPoint(xCell, dx, p.first, side), p.w1,
                                       DataPoint(xCell, dx, p.first + 1, side)) == x
  {
    var s := FirstShift(x, xCell, side);
    ShiftedPoints(xCell, dx, s, side);
    HatPair(x, DataPoint(xCell, dx, s, side), DataPoint(xCell, dx, s + 1, side), dx);
  }

  // ------------------------------------------------------ three directions

  type GridData = Index -> real

  function At(v: GridData, c: Index, i: int, j: int, k: int): real {
    v(Index(i + c.i, j + c.j, k + c.k))
  }

  function Line(v: GridData, c: Index, p: Pair, j: int, k: int): real {
    Lerp(p.w0, At(v, c, p.first, j, k), p.w1, At(v, c, p.first + 1, j, k))
  }

  function Plane(v: GridData, c: Index, p: Pair, q: Pair, k: int): real {
    Lerp(q.w0, Line(v, c, p, q.first, k), q.w1, Line(v, c, p, q.first + 1, k))
  }

  /** The multilinear interpolant, direction by direction. */
  function Multilinear(v: GridData, c: Index, p: Pair, q: Pair, r: Pair): real {
    Lerp(r.w0, Plane(v, c, p, q, r.first), r.w1, Plane(v, c, p, q, r.first + 1))
  }

  function Weight(p: Pair, t: nat): real {
    if t == 0 then p.w0 else p.w1
  }

  function Upto(t: nat, a: real, b: real): real {
    if t == 0 then 0.0 else if t == 1 then a else a + b
  }

  function Term(v: GridData, c: Index, p: Pair, q: Pair, r: Pair, t0: nat, t1: nat, t2: nat): real {
    At(v, c, p.first + t0, q.first + t1, r.first + t2) * (Weight(p, t0) * Weight(q, t1) * Weight(r, t2))
  }

  function RowSum(v: GridData, c: Index, p: Pair, q: Pair, r: Pair, t1: nat, t2: nat, n: nat): real {
    Upto(n, Term(v, c, p, q, r, 0, t1, t2), Term(v, c, p, q, r, 1, t1, t2))
  }

  function PlaneSum(v: GridData, c: Index, p: Pair, q: Pair, r: Pair, t2: nat, n: nat): real {
    Upto(n, RowSum(v, c, p, q, r, 0, t2, 2), RowSum(v, c, p, q, r, 1, t2, 2))
  }

  function BlockSum(v: GridData, c: Index, p: Pair, q: Pair, r: Pair, n: nat): real {
    Upto(n, PlaneSum(v, c, p, q, r, 0, 2), PlaneSum(v, c, p, q, r, 1, 2))
  }

  lemma Factor(a: real, b: real, w0: real, w1: real, f: real, g: real)
    ensures a * (w0 * f * g) + b * (w1 * f * g) == (f * g) * Lerp(w0, a, w1, b)
  {
    assert a * (w0 * f * g) == (f * g) * (w0 * a);
    assert b * (w1 * f * g) == (f * g) * (w1 * b);
  }

  lemma FactorTwo(a: real, b: real, w0: real, w1: real, g: real)
    ensures (w0 * g) * a + (w1 * g) * b == g * Lerp(w0, a, w1, b)
  {
  }

  lemma RowIs(v: GridData, c: Index, p: Pair, q: Pair, r: Pair, t1: nat, t2: nat)
    ensures RowSum(v, c, p, q, r, t1, t2, 2) ==
            (Weight(q, t1) * Weight(r, t2)) * Line(v, c, p, q.first + t1, r.first + t2)
  {
    Factor(At(v, c, p.first, q.first + t1, r.first + t2), At(v, c, p.first + 1, q.first + t1, r.first + t2),
           p.w0, p.w1, Weight(q, t1), Weight(r, t2));
  }

  lemma PlaneIs(v: GridData, c: Index, p: Pair, q: Pair, r: Pair, t2: nat)
    ensures PlaneSum(v, c, p, q, r, t2, 2) == Weight(r, t2) * Plane(v, c, p, q, r.first + t2)
  {
    RowIs(v, c, p, q, r, 0, t2);
    RowIs(v, c, p, q, r, 1, t2);
    FactorTwo(Line(v, c, p, q.first, r.first + t2), Line(v, c, p, q.first + 1, r.first + t2), q.w0, q.w1,
              Weight(r, t2));
  }

  /** The eight weighted terms are the multilinear interpolant. */
  lemma EightTerms(v: GridData, c: Index, p: Pair, q: Pair, r: Pair)
    ensures BlockSum(v, c, p, q, r, 2) == Multilinear(v, c, p, q, r)
  {
    PlaneIs(v, c, p, q, r, 0);
    PlaneIs(v, c, p, q, r, 1);
  }

  /** Cell-centred data (no axis), or the data on the sides facing `axis`. */
  datatype Centring = Cells | Sides(axis: nat)

  function Faces(centring: Centring, d: nat): bool {
    centring.Sides? && centring.axis == d
  }

  function PairsOf(X: Vec3, xCell: Vec3, dx: Vec3, centring: Centring): (Pair, Pair, Pair)
    requires dx.x > 0.0 && dx.y > 0.0 && dx.z > 0.0
  {
    (Weights(X.x, xCell.x, dx.x, Faces(centring, 0)), Weights(X.y, xCell.y, dx.y, Faces(centring, 1)),
     Weights(X.z, xCell.z, dx.z, Faces(centring, 2)))
  }

  function Interpolant(X: Vec3, cell: Index, xCell: Vec3, dx: Vec3, centring: Centring, v: GridData): real
    requires dx.x > 0.0 && dx.y > 0.0 && dx.z > 0.0
  {
    var (p, q, r) := PairsOf(X, xCell, dx, centring);
    Multilinear(v, cell, p, q, r)
  }

  /** The innermost loop: the two terms of one line of data points. */
  method AddLine(U: real, X: real, xCell: real, dx: real, side: bool, w1: real, w2: real, c: Index, j: int, k: int,
                 v: GridData, ghost q: Pair, ghost r: Pair, ghost t1: nat, ghost t2: nat) returns (V: real)
    requires dx > 0.0 && w1 == Weight(q, t1) && w2 == Weight(r, t2) && j == q.first + t1 && k == r.first + t2
    ensures V == U + RowSum(v, c, Weights(X, xCell, dx, side), q, r, t1, t2, 2)
  {
    var s := FirstShift(X, xCell, side);
    ghost var p := Weights(X, xCell, dx, side);
    V := U;
    for t := 0 to 2
      invariant V == U + RowSum(v, c, p, q, r, t1, t2, t)
    {
      var w0 := Hat(X, DataPoint(xCell, dx, s + t, side), dx);
      assert w0 == Weight(p, t);
      var wgt := w0 * w1 * w2;
      V := V + v(Index(s + t + c.i, j + c.j, k + c.k)) * wgt;
    }
  }

  /** linear_interp for one component. */
  method LinearInterp(X: Vec3, cell: Index, xCell: Vec3, dx: Vec3, centring: Centring, v: GridData) returns (U: real)
    requires dx.x > 0.0 && dx.y > 0.0 && dx.z > 0.0
    ensures U == Interpolant(X, cell, xCell, dx, centring, v)
  {
    var s1 := FirstShift(X.y, xCell.y, Faces(centring, 1));
    var s2 := FirstShift(X.z, xCell.z, Faces(centring, 2));
    ghost var (p, q, r) := PairsOf(X, xCell, dx, centring);
    U := 0.0;
    for t2 := 0 to 2
      invariant U == BlockSum(v, cell, p, q, r, t2)
    {
      U := AddPlane(U, X, cell, xCell, dx, centring, v, s1, s2, t2, p, q, r);
    }
    EightTerms(v, cell, p, q, r);
  }

  method AddPlane(U: real, X: Vec3, cell: Index, xCell: Vec3, dx: Vec3, centring: Centring, v: GridData, s1: int,
                  s2: int, t2: nat, ghost p: Pair, ghost q: Pair, ghost r: Pair) returns (V: real)
    requires dx.x > 0.0 && dx.y > 0.0 && dx.z > 0.0 && (p, q, r) == PairsOf(X, xCell, dx, centring) && t2 < 2
    requires s1 == q.first && s2 == r.first
    ensures V == U + PlaneSum(v, cell, p, q, r, t2, 2)
  {
    var w2 := Hat(X.z, DataPoint(xCell.z, dx.z, s2 + t2, Faces(centring, 2)), dx.z);
    V := U;
    for t1 := 0 to 2
      invariant V == U + PlaneSum(v, cell, p, q, r, t2, t1)
    {
      var w1 := Hat(X.y, DataPoint(xCell.y, dx.y, s1 + t1, Faces(centring, 1)), dx.y);
      V := AddLine(V, X.x, xCell.x, dx.x, Faces(centring, 0), w1, w2, cell, s1 + t1, s2 + t2, v, q, r, t1, t2);
    }
  }

  // ----------------------------------------------------------- properties

  lemma LerpBetween(w0: real, a: real, w1: real, b: real, lo: real, hi: real)
    requires Convex(w0, w1) && lo <= a <= hi && lo <= b <= hi
    ensures lo <= Lerp(w0, a, w1, b) <= hi
  {
    NonNegative(w0, a - lo);
    NonNegative(w1, b - lo);
    NonNegative(w0, hi - a);
    NonNegative(w1, hi - b);
    assert w0 * lo + w1 * lo == (w0 + w1) * lo;
    assert w0 * hi + w1 * hi == (w0 + w1) * hi;
  }

  ghost predicate InCell3(X: Vec3, xCell: Vec3, dx: Vec3) {
    && dx.x > 0.0 && dx.y > 0.0 && dx.z > 0.0
    && InCell(X.x, xCell.x, dx.x) && InCell(X.y, xCell.y, dx.y) && InCell(X.z, xCell.z, dx.z)
  }

  lemma AllConvex(X: Vec3, xCell: Vec3, dx: Vec3, centring: Centring)
    requires InCell3(X, xCell, dx)
    ensures var (p, q, r) := PairsOf(X, xCell, dx, centring); Convex(p.w0, p.w1) && Convex(q.w0, q.w1)
                                                              && Convex(r.w0, r.w1)
  {
    WeightsConvex(X.x, xCell.x, dx.x, Faces(centring, 0));
    WeightsConvex(X.y, xCell.y, dx.y, Faces(centring, 1));
    WeightsConvex(X.z, xCell.z, dx.z, Faces(centring, 2));
  }

  /** The value at a point of the cell lies between the least and the greatest of the data. */
  lemma InterpolantBetween(X: Vec3, cell: Index, xCell: Vec3, dx: Vec3, centring: Centring, v: GridData, lo: real,
                           hi: real)
    requires InCell3(X, xCell, dx) && forall i :: lo <= v(i) <= hi
    ensures lo <= Interpolant(X, cell, xCell, dx, centring, v) <= hi
  {
    AllConvex(X, xCell, dx, centring);
    var (p, q, r) := PairsOf(X, xCell, dx, centring);
    MultilinearBetween(v, cell, p, q, r, lo, hi);
  }

  lemma MultilinearBetween(v: GridData, c: Index, p: Pair, q: Pair, r: Pair, lo: real, hi: real)
    requires Convex(p.w0, p.w1) && Convex(q.w0, q.w1) && Convex(r.w0, r.w1) && forall i :: lo <= v(i) <= hi
    ensures lo <= Multilinear(v, c, p, q, r) <= hi
  {
    PlaneBetween(v, c, p, q, r.first, lo, hi);
    PlaneBetween(v, c, p, q, r.first + 1, lo, hi);
    LerpBetween(r.w0, Plane(v, c, p, q, r.first), r.w1, Plane(v, c, p, q, r.first + 1), lo, hi);
  }

  lemma PlaneBetween(v: GridData, c: Index, p: Pair, q: Pair, k: int, lo: real, hi: real)
    requires Convex(p.w0, p.w1) && Convex(q.w0, q.w1) && forall i :: lo <= v(i) <= hi
    ensures lo <= Plane(v, c, p, q, k) <= hi
  {
    LerpBetween(p.w0, At(v, c, p.first, q.first, k), p.w1, At(v, c, p.first + 1, q.first, k), lo, hi);
    LerpBetween(p.w0, At(v, c, p.first, q.first + 1, k), p.w1, At(v, c, p.first + 1, q.first + 1, k), lo, hi);
    LerpBetween(q.w0, Line(v, c, p, q.first, k), q.w1, Line(v, c, p, q.first + 1, k), lo, hi);
  }

  /** Constant data are reproduced. */
  lemma InterpolantConstant(X: Vec3, cell: Index, xCell: Vec3, dx: Vec3, centring: Centring, v: GridData, a: real)
    requires InCell3(X, xCell, dx) && forall i :: v(i) == a
    ensures Interpolant(X, cell, xCell, dx, centring, v) == a
  {
    InterpolantBetween(X, cell, xCell, dx, centring, v, a, a);
  }

  /** An affine function, and data that sample it at the places of the three directions. */
  function AffineValue(a: real, g: Vec3, x: real, y: real, z: real): real {
    a + g.x * x + g.y * y + g.z * z
  }

  ghost predicate Samples(v: GridData, cell: Index, fx: int -> real, fy: int -> real, fz: int -> real, a: real,
                          g: Vec3) {
    forall i: int, j: int, k: int :: At(v, cell, i, j, k) == AffineValue(a, g, fx(i), fy(j), fz(k))
  }

  /** The weights of a direction average its two data points to `x`. */
  ghost predicate Reproduces(p: Pair, f: int -> real, x: real) {
    p.w0 + p.w1 == 1.0 && Lerp(p.w0, f(p.first), p.w1, f(p.first + 1)) == x
  }

  lemma LerpAffine(w0: real, x0: real, w1: real, x1: real, x: real, b: real, g: real, y0: real, y1: real)
    requires w0 + w1 == 1.0 && Lerp(w0, x0, w1, x1) == x && y0 == b + g * x0 && y1 == b + g * x1
    ensures Lerp(w0, y0, w1, y1) == b + g * x
  {
    assert w0 * y0 == w0 * b + g * (w0 * x0);
    assert w1 * y1 == w1 * b + g * (w1 * x1);
    assert w0 * b + w1 * b == (w0 + w1) * b;
    assert g * (w0 * x0) + g * (w1 * x1) == g * x;
  }

  lemma AffineLine(v: GridData, c: Index, fx: int -> real, fy: int -> real, fz: int -> real, a: real, g: Vec3, p: Pair,
                   x: real, j: int, k: int)
    requires Samples(v, c, fx, fy, fz, a, g) && Reproduces(p, fx, x)
    ensures Line(v, c, p, j, k) == AffineValue(a, g, x, fy(j), fz(k))
  {
    LerpAffine(p.w0, fx(p.first), p.w1, fx(p.first + 1), x, a + g.y * fy(j) + g.z * fz(k), g.x,
               At(v, c, p.first, j, k), At(v, c, p.first + 1, j, k));
  }

  lemma AffinePlane(v: GridData, c: Index, fx: int -> real, fy: int -> real, fz: int -> real, a: real, g: Vec3,
                    p: Pair, x: real, q: Pair, y: real, k: int)
    requires Samples(v, c, fx, fy, fz, a, g) && Reproduces(p, fx, x) && Reproduces(q, fy, y)
    ensures Plane(v, c, p, q, k) == AffineValue(a, g, x, y, fz(k))
  {
    AffineLine(v, c, fx, fy, fz, a, g, p, x, q.first, k);
    AffineLine(v, c, fx, fy, fz, a, g, p, x, q.first + 1, k);
    LerpAffine(q.w0, fy(q.first), q.w1, fy(q.first + 1), y, a + g.x * x + g.z * fz(k), g.y,
               Line(v, c, p, q.first, k), Line(v, c, p, q.first + 1, k));
  }

  lemma AffineBlock(v: GridData, c: Index, fx: int -> real, fy: int -> real, fz: int -> real, a: real, g: Vec3,
                    p: Pair, x: real, q: Pair, y: real, r: Pair, z: real)
    requires Samples(v, c, fx, fy, fz, a, g) && Reproduces(p, fx, x) && Reproduces(q, fy, y) && Reproduces(r, fz, z)
    ensures Multilinear(v, c, p, q, r) == AffineValue(a, g, x, y, z)
  {
    AffinePlane(v, c, fx, fy, fz, a, g, p, x, q, y, r.first);
    AffinePlane(v, c, fx, fy, fz, a, g, p, x, q, y, r.first + 1);
    LerpAffine(r.w0, fz(r.first), r.w1, fz(r.first + 1), z, a + g.x * x + g.y * y, g.z, Plane(v, c, p, q, r.first),
               Plane(v, c, p, q, r.first + 1));
  }

  /** The places of the data of one direction. */
  function Places(xCell: real, dx: real, side: bool): int -> real {
    (s: int) => DataPoint(xCell, dx, s, side)
  }

  /** Affine data are interpolated exactly, whether they live on cells or on sides. */
  lemma InterpolantAffine(X: Vec3, cell: Index, xCell: Vec3, dx: Vec3, centring: Centring, v: GridData, a: real,
                          g: Vec3)
    requires InCell3(X, xCell, dx)
    requires Samples(v, cell, Places(xCell.x, dx.x, Faces(centring, 0)), Places(xCell.y, dx.y, Faces(centring, 1)),
                     Places(xCell.z, dx.z, Faces(centring, 2)), a, g)
    ensures Interpolant(X, cell, xCell, dx, centring, v) == AffineValue(a, g, X.x, X.y, X.z)
  {
    WeightsConvex(X.x, xCell.x, dx.x, Faces(centring, 0));
    WeightsConvex(X.y, xCell.y, dx.y, Faces(centring, 1));
    WeightsConvex(X.z, xCell.z, dx.z, Faces(centring, 2));
    var (p, q, r) := PairsOf(X, xCell, dx, centring);
    var fx, fy, fz := Places(xCell.x, dx.x, Faces(centring, 0)), Places(xCell.y, dx.y, Faces(centring, 1)),
      Places(xCell.z, dx.z, Faces(centring, 2));
    AffineBlock(v, cell, fx, fy, fz, a, g, p, X.x, q, X.y, r, X.z);
  }
}
