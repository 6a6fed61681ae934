/** What the meters read when the fluid data sample fields that are affine in the position: cell-centred data at the
    centres of their cells, side-centred data half a cell below them along their own axis. */
module AffineMeters {
  import opened Options
  import opened Vectors
  import opened MeterGeometry
  import opened MeterInterpolation
  import opened MeterIndexing
  import opened MeterVisits
  import opened MeterReading
  import opened MeterPanel
  import opened WebQuadrature
  import opened FlowMeters

  /** A scalar affine in the position, and a vector field of three of them. */
  datatype Affine = Affine(a: real, g: Vec3)

  datatype Field = Field(u: Affine, v: Affine, w: Affine)

  function Value(f: Affine, X: Vec3): real {
    f.a + Dot(f.g, X)
  }

  function FieldAt(f: Field, X: Vec3): Vec3 {
    Vec3(Value(f.u, X), Value(f.v, X), Value(f.w, X))
  }

  /** The gradient of a field along `e`. */
  function Along(f: Field, e: Vec3): Vec3 {
    Vec3(Dot(f.u.g, e), Dot(f.v.g, e), Dot(f.w.g, e))
  }

  // ---------------------------------------------------- where the data lie

  /** Where the datum of cell `i` of a level lies in one direction: on the lower side of the cell if the data live on
      the sides that face this direction, otherwise at its middle. */
  function Place(xLower: real, dx: real, lower: int, ratio: int, i: int, faced: bool): real
    requires ratio > 0
  {
    xLower + ((i - lower * ratio) as real + (if faced then 0.0 else 0.5)) * (dx / ratio as real)
  }

  /** The place of the datum of cell `i` on level `ln` for data on the sides facing `axis`, or with axis 3 for data at
      the centres. */
  function DataPlace(g: Grid, ln: nat, i: Index, axis: nat): Vec3
    requires ln < |g.levels| && PositiveIndex(g.levels[ln].ratio)
  {
    var r := g.levels[ln].ratio;
    Vec3(Place(g.xLower.x, g.dx.x, g.lower.i, r.i, i.i, axis == 0),
         Place(g.xLower.y, g.dx.y, g.lower.j, r.j, i.j, axis == 1),
         Place(g.xLower.z, g.dx.z, g.lower.k, r.k, i.k, axis == 2))
  }

  const CENTRES := 3

  ghost predicate Sampled(g: Grid, ln: nat, v: GridData, axis: nat, f: Affine) {
    ln < |g.levels| && PositiveIndex(g.levels[ln].ratio) && forall i: Index ::
      v(i) == Value(f, DataPlace(g, ln, i, axis))
  }

  /** On every level the velocity data sample the field: each component on the sides that face its own axis if the
      data are side-centred, and at the cell centres if they are not. */
  ghost predicate AffineFlow(g: Grid, fluid: Fluid, f: Field) {
    forall ln: nat :: ln < |g.levels| ==>
      && Sampled(g, ln, fluid.u(ln, 0), if fluid.side then 0 else CENTRES, f.u)
      && Sampled(g, ln, fluid.u(ln, 1), if fluid.side then 1 else CENTRES, f.v)
      && Sampled(g, ln, fluid.u(ln, 2), if fluid.side then 2 else CENTRES, f.w)
  }

  ghost predicate AffinePressure(g: Grid, fluid: Fluid, f: Affine) {
    forall ln: nat :: ln < |g.levels| ==> Sampled(g, ln, fluid.p(ln), CENTRES, f)
  }

  lemma PlaceIs(xLower: real, dx: real, lower: int, ratio: int, c: int, s: int, faced: bool, h: real)
    requires ratio > 0 && h == Spacing(dx, ratio)
    ensures Place(xLower, dx, lower, ratio, s + c, faced)
         == DataPoint(xLower + h * ((c - lower * ratio) as real + 0.5), h, s, faced)
  {
    var d := c - lower * ratio;
    PlaceScalar(xLower, d as real, s as real, if faced then 0.0 else 0.5, if faced then -0.5 else 0.0, h,
                (s + c - lower * ratio) as real);
  }

  lemma PlaceScalar(xLower: real, d: real, s: real, up: real, down: real, h: real, sum: real)
    requires sum == s + d && up == down + 0.5
    ensures xLower + (sum + up) * h == xLower + h * (d + 0.5) + (s + down) * h
  {
  }

  ghost predicate FacesOnly(centring: Centring, axis: nat) {
    Faces(centring, 0) == (axis == 0) && Faces(centring, 1) == (axis == 1) && Faces(centring, 2) == (axis == 2)
  }

  /** The interpolant of sampled data is the field at every point of every level. */
  lemma ComponentAffine(g: Grid, ln: nat, X: Vec3, centring: Centring, axis: nat, v: GridData, f: Affine)
    requires ValidGrid(g) && ln < |g.levels| && Sampled(g, ln, v, axis, f)
    requires FacesOnly(centring, axis)
    ensures ComponentAt(g, ln, X, centring, v) == Value(f, X)
  {
    LevelsGood(g, ln);
    PointInLevelCell(g, ln, X);
    var c := CellIndex(g, ln, X);
    CellAffine(g, ln, X, c, centring, axis, v, f, CellCentre(g, ln, c), LevelSpacing(g, ln));
  }

  lemma CellAffine(g: Grid, ln: nat, X: Vec3, c: Index, centring: Centring, axis: nat, v: GridData, f: Affine, xc: Vec3,
                   dx: Vec3)
    requires ln < |g.levels| && Sampled(g, ln, v, axis, f) && FacesOnly(centring, axis)
    requires xc == CellCentre(g, ln, c) && dx == LevelSpacing(g, ln) && InCell3(X, xc, dx)
    ensures Interpolant(X, c, xc, dx, centring, v) == Value(f, X)
  {
    SamplesAround(g, ln, c, centring, axis, v, f, xc, dx);
    InterpolantAffine(X, c, xc, dx, centring, v, f.a, f.g);
    ValueIs(f, X);
  }

  lemma ValueIs(f: Affine, X: Vec3)
    ensures AffineValue(f.a, f.g, X.x, X.y, X.z) == Value(f, X)
  {
  }

  lemma SamplesAround(g: Grid, ln: nat, c: Index, centring: Centring, axis: nat, v: GridData, f: Affine, xc: Vec3,
                      dx: Vec3)
    requires ln < |g.levels| && Sampled(g, ln, v, axis, f)
    requires xc == CellCentre(g, ln, c) && dx == LevelSpacing(g, ln)
    requires FacesOnly(centring, axis)
    ensures Samples(v, c, Places(xc.x, dx.x, Faces(centring, 0)), Places(xc.y, dx.y, Faces(centring, 1)),
                    Places(xc.z, dx.z, Faces(centring, 2)), f.a, f.g)
  {
    var r := g.levels[ln].ratio;
    var fx, fy, fz := Places(xc.x, dx.x, Faces(centring, 0)), Places(xc.y, dx.y, Faces(centring, 1)),
      Places(xc.z, dx.z, Faces(centring, 2));
    forall i: int, j: int, k: int
      ensures At(v, c, i, j, k) == AffineValue(f.a, f.g, fx(i), fy(j), fz(k))
    {
      var at := Index(i + c.i, j + c.j, k + c.k);
      PlacesOf(g, ln, c, i, j, k, axis, xc, dx);
      assert v(at) == Value(f, DataPlace(g, ln, at, axis));
      ValueIs(f, Vec3(fx(i), fy(j), fz(k)));
    }
  }

  lemma PlacesOf(g: Grid, ln: nat, c: Index, i: int, j: int, k: int, axis: nat, xc: Vec3, dx: Vec3)
    requires ln < |g.levels| && PositiveIndex(g.levels[ln].ratio)
    requires xc == CellCentre(g, ln, c) && dx == LevelSpacing(g, ln)
    ensures DataPlace(g, ln, Index(i + c.i, j + c.j, k + c.k), axis)
         == Vec3(DataPoint(xc.x, dx.x, i, axis == 0), DataPoint(xc.y, dx.y, j, axis == 1),
                 DataPoint(xc.z, dx.z, k, axis == 2))
  {
    var r := g.levels[ln].ratio;
    PlaceIs(g.xLower.x, g.dx.x, g.lower.i, r.i, c.i, i, axis == 0, dx.x);
    PlaceIs(g.xLower.y, g.dx.y, g.lower.j, r.j, c.j, j, axis == 1, dx.y);
    PlaceIs(g.xLower.z, g.dx.z, g.lower.k, r.k, c.k, k, axis == 2, dx.z);
  }

  /** Side- or cell-centred velocity data that sample an affine field are read as that field. */
  lemma VelocityAffine(g: Grid, fluid: Fluid, ln: nat, X: Vec3, f: Field)
    requires ValidGrid(g) && ln < |g.levels| && AffineFlow(g, fluid, f)
    ensures VelocityAt(g, fluid, ln, X) == FieldAt(f, X)
  {
    ComponentAffine(g, ln, X, CentringOf(fluid, 0), if fluid.side then 0 else CENTRES, fluid.u(ln, 0), f.u);
    ComponentAffine(g, ln, X, CentringOf(fluid, 1), if fluid.side then 1 else CENTRES, fluid.u(ln, 1), f.v);
    ComponentAffine(g, ln, X, CentringOf(fluid, 2), if fluid.side then 2 else CENTRES, fluid.u(ln, 2), f.w);
  }

  lemma PressureAffine(g: Grid, fluid: Fluid, ln: nat, X: Vec3, f: Affine)
    requires ValidGrid(g) && ln < |g.levels| && AffinePressure(g, fluid, f)
    ensures PressureAt(g, fluid, ln, X) == Value(f, X)
  {
    ComponentAffine(g, ln, X, Cells, CENTRES, fluid.p(ln), f);
  }

  // ------------------------------------------------- from visits to patches

  /** Each patch is met once, in order, and adds what `f` says of it. */
  ghost predicate AddsInOrder(vs: seq<Visit>, webs: seq<Web>, h: Visit -> real, f: Web -> real) {
    |vs| == |webs| && forall w :: 0 <= w < |vs| ==> h(vs[w]) == f(webs[w])
  }

  lemma {:induction false} TotalIsWebSum(vs: seq<Visit>, webs: seq<Web>, h: Visit -> real, f: Web -> real)
    requires AddsInOrder(vs, webs, h, f)
    ensures Total(h, vs) == WebSum(webs, f)
  {
    if vs != [] {
      var n := |vs| - 1;
      assert AddsInOrder(vs[..n], webs[..n], h, f);
      TotalIsWebSum(vs[..n], webs[..n], h, f);
    }
  }

  /** The flux of a field through the patches of meter `k`, and what its pressure reading sums. */
  ghost function FluxThrough(f: Field, k: nat): Web -> real {
    (w: Web) => if w.meter == k then Dot(FieldAt(f, w.x), w.dA) else 0.0
  }

  ghost function LoadOn(f: Affine, norm: Vec3 -> real, k: nat): Web -> real {
    (w: Web) => if w.meter == k then Pressed(Value(f, w.x), norm(w.dA)) else 0.0
  }

  function Pressed(p: real, area: real): real {
    p * area
  }

  lemma PressedOnce(p: real, area: real, load: real)
    requires load == p * area
    ensures load == Pressed(p, area)
    ensures p == 1.0 ==> load == area
  {
  }

  lemma FluxOfVisit(s: Scene, q: Meeting, ln: nat, w: nat, f: Field, k: nat)
    requires ValidGrid(s.g) && ln < |s.g.levels| && w < |s.webs| && q == MeetingOf(s) && AffineFlow(s.g, s.fluid, f)
    ensures FlowOf(q, k)(Visit(ln, w)) == FluxThrough(f, k)(s.webs[w])
  {
    MeetingIs(s, ln, w);
    VelocityAffine(s.g, s.fluid, ln, s.webs[w].x, f);
  }

  lemma PressureOfIs(q: Meeting, ln: nat, w: nat, k: nat)
    requires w < |q.webs|
    ensures PressureOf(q, k)(Visit(ln, w))
         == if q.webs[w].meter == k then Pressed(q.pressure(ln, w), q.norm(q.webs[w].dA)) else 0.0
  {
    var p, area := q.pressure(ln, w), q.norm(q.webs[w].dA);
    PressedOnce(p, area, p * area);
  }

  lemma LoadOfVisit(s: Scene, q: Meeting, ln: nat, w: nat, f: Affine, k: nat)
    requires ValidGrid(s.g) && ln < |s.g.levels| && w < |s.webs| && q == MeetingOf(s) && AffinePressure(s.g, s.fluid, f)
    ensures PressureOf(q, k)(Visit(ln, w)) == LoadOn(f, s.norm, k)(s.webs[w])
  {
    MeetingIs(s, ln, w);
    PressureAffine(s.g, s.fluid, ln, s.webs[w].x, f);
    PressureOfIs(q, ln, w, k);
  }

  /** The flow a meter records in an affine flow is the flux through its patches: (a + G x) . dA of each, once. */
  lemma FluxOverPatches(g: Grid, fluid: Fluid, norm: Vec3 -> real, ms: seq<Meter>, k: nat, f: Field)
    requires ValidGrid(g) && ValidMeters(ms) && k < |ms| && AffineFlow(g, fluid, f)
    ensures var s := SceneOf(g, fluid, norm, ms);
            Total(FlowOf(MeetingOf(s), k), CountedVisits(s)) == PanelSum(ms, |ms|, FluxThrough(f, k))
  {
    var s := SceneOf(g, fluid, norm, ms);
    var vs, q := CountedVisits(s), MeetingOf(s);
    forall w | 0 <= w < |vs| ensures FlowOf(q, k)(vs[w]) == FluxThrough(f, k)(s.webs[w]) {
      FluxOfVisit(s, q, vs[w].ln, w, f, k);
    }
    TotalIsWebSum(vs, s.webs, FlowOf(q, k), FluxThrough(f, k));
  }

  lemma LoadOverPatches(g: Grid, fluid: Fluid, norm: Vec3 -> real, ms: seq<Meter>, k: nat, f: Affine)
    requires ValidGrid(g) && ValidMeters(ms) && k < |ms| && AffinePressure(g, fluid, f)
    ensures var s := SceneOf(g, fluid, norm, ms);
            Total(PressureOf(MeetingOf(s), k), CountedVisits(s)) == PanelSum(ms, |ms|, LoadOn(f, norm, k))
  {
    var s := SceneOf(g, fluid, norm, ms);
    var vs, q := CountedVisits(s), MeetingOf(s);
    forall w | 0 <= w < |vs| ensures PressureOf(q, k)(vs[w]) == LoadOn(f, norm, k)(s.webs[w]) {
      LoadOfVisit(s, q, vs[w].ln, w, f, k);
    }
    TotalIsWebSum(vs, s.webs, PressureOf(q, k), LoadOn(f, norm, k));
  }

  const UNIT := Affine(1.0, ZERO)

  lemma UnitIsOne(X: Vec3)
    ensures Value(UNIT, X) == 1.0
  {
  }

  lemma AreaOfVisit(q: Meeting, ln: nat, w: nat, k: nat)
    requires w < |q.webs|
    ensures AreaOf(q, k)(Visit(ln, w)) == LoadOn(UNIT, q.norm, k)(q.webs[w])
  {
    UnitIsOne(q.webs[w].x);
    var area := q.norm(q.webs[w].dA);
    PressedOnce(1.0, area, 1.0 * area);
  }

  lemma AreaOverPatches(g: Grid, fluid: Fluid, norm: Vec3 -> real, ms: seq<Meter>, k: nat)
    requires ValidGrid(g) && ValidMeters(ms) && k < |ms|
    ensures var s := SceneOf(g, fluid, norm, ms);
            Total(AreaOf(MeetingOf(s), k), CountedVisits(s)) == PanelSum(ms, |ms|, LoadOn(UNIT, norm, k))
  {
    var s := SceneOf(g, fluid, norm, ms);
    var vs, q := CountedVisits(s), MeetingOf(s);
    forall w | 0 <= w < |vs| ensures AreaOf(q, k)(vs[w]) == LoadOn(UNIT, norm, k)(s.webs[w]) {
      AreaOfVisit(q, vs[w].ln, w, k);
    }
    TotalIsWebSum(vs, s.webs, AreaOf(q, k), LoadOn(UNIT, norm, k));
  }

  // ------------------------------------------------- from patches to triangles

  /** The flux of a field through the triangle over one edge, if it is taken a part `t` of the way from the centroid to
      the middle of the edge. */
  function Crossing(f: Field, p: Vec3, q: Vec3, c: Vec3, t: real): real {
    Dot(FieldAt(f, OnMedian(p, q, c, t)), Triangle(p, q, c))
  }

  /** The same summed over the perimeter. */
  ghost function Crossings(f: Field, p: seq<Vec3>, c: Vec3, t: real, n: nat): real
    requires n <= |p|
  {
    if n == 0 then 0.0 else Crossings(f, p, c, t, n - 1) + Crossing(f, p[n - 1], p[Next(n - 1, |p|)], c, t)
  }

  lemma ValueMoves(f: Affine, X: Vec3, e: Vec3, t: real)
    ensures Value(f, Add(X, Scale(t, e))) == Value(f, X) + t * Dot(f.g, e)
  {
    DotLinear(t, X, Scale(t, e), f.g);
    DotLinear(t, e, e, f.g);
  }

  lemma FieldMoves(f: Field, X: Vec3, e: Vec3, t: real)
    ensures FieldAt(f, Add(X, Scale(t, e))) == Add(FieldAt(f, X), Scale(t, Along(f, e)))
  {
    ValueMoves(f.u, X, e, t);
    ValueMoves(f.v, X, e, t);
    ValueMoves(f.w, X, e, t);
  }

  /** The flux of the field at the centroid through the triangle, and of its change from there to the edge. */
  function CentreFlux(f: Field, p: Vec3, q: Vec3, c: Vec3): real {
    Dot(FieldAt(f, c), Triangle(p, q, c))
  }

  function EdgeSpreading(f: Field, p: Vec3, q: Vec3, c: Vec3): real {
    Dot(Along(f, Sub(EdgeMiddle(p, q), c)), Triangle(p, q, c))
  }

  lemma CrossingIs(f: Field, p: Vec3, q: Vec3, c: Vec3, t: real)
    ensures Crossing(f, p, q, c, t) == CentreFlux(f, p, q, c) + t * EdgeSpreading(f, p, q, c)
  {
    var e, T := Sub(EdgeMiddle(p, q), c), Triangle(p, q, c);
    FieldMoves(f, c, e, t);
    DotLinear(t, FieldAt(f, c), Scale(t, Along(f, e)), T);
    DotLinear(t, Along(f, e), Along(f, e), T);
  }

  lemma PatchFlux(f: Field, p: Vec3, q: Vec3, c: Vec3, n: nat, N: nat, a: real, b: real)
    requires n < N && a == CentreFlux(f, p, q, c) && b == EdgeSpreading(f, p, q, c)
    ensures Dot(FieldAt(f, PatchMiddle(p, q, c, n, N)), PatchArea(p, q, c, n, N)) == WedgeTerm(a, b, n, N)
  {
    PatchOnMedian(p, q, c, n, N);
    CrossingIs(f, p, q, c, Reach(n, N));
    var T, v := Triangle(p, q, c), FieldAt(f, OnMedian(p, q, c, Reach(n, N)));
    DotLinear(Share(n, N), T, T, v);
    ShareOf(Share(n, N), Dot(v, T), a, b, Reach(n, N), n, N);
  }

  lemma ShareOf(s: real, x: real, a: real, b: real, t: real, n: nat, N: nat)
    requires n < N && s == Share(n, N) && t == Reach(n, N) && x == a + t * b
    ensures s * x == WedgeTerm(a, b, n, N)
  {
  }

  lemma {:induction false} CrossingsAre(f: Field, p: seq<Vec3>, c: Vec3, t: real, n: nat, part: nat -> real)
    requires n <= |p| && forall i: nat :: i < |p| ==> part(i) == Crossing(f, p[i], p[Next(i, |p|)], c, t)
    ensures SumOf(part, n) == Crossings(f, p, c, t, n)
  {
    if n > 0 {
      CrossingsAre(f, p, c, t, n - 1, part);
    }
  }

  lemma FluxIsLocal(f: Field, k: nat)
    ensures ZeroElsewhere(FluxThrough(f, k), k)
  {
  }

  lemma FluxOnRow(f: Field, k: nat, p: seq<Vec3>, c: Vec3, i: nat, N: nat, patch: (nat, nat) -> Web)
    requires i < |p| && N > 0 && patch == PatchesOf(k, p, c, N)
    ensures RowSums(patch, i, N, FluxThrough(f, k), Crossing(f, p[i], p[Next(i, |p|)], c, WebReach(N)))
  {
    var next := p[Next(i, |p|)];
    var a, b := CentreFlux(f, p[i], next, c), EdgeSpreading(f, p[i], next, c);
    forall n: nat | n < N ensures FluxThrough(f, k)(patch(i, n)) == WedgeTerm(a, b, n, N) {
      PatchFlux(f, p[i], next, c, n, N, a, b);
    }
    CrossingIs(f, p[i], next, c, WebReach(N));
    assert LinearOnRow(patch, i, N, FluxThrough(f, k), a, b);
  }

  /** The web takes the flux through every triangle at one point: at 2/3 - 1/6N^2 of the median. */
  lemma FluxOverTriangles(ms: seq<Meter>, k: nat, m: Meter, f: Field)
    requires ValidMeters(ms) && k < |ms| && m == ms[k] && ValidMeter(m) && m.size > 0
    ensures PanelSum(ms, |ms|, FluxThrough(f, k))
         == Crossings(f, m.perimeter, MeterPanel.Mean(m.perimeter), WebReach(m.size), |m.perimeter|)
  {
    var p, c, N := m.perimeter, MeterPanel.Mean(m.perimeter), m.size;
    var patch := PatchesOf(k, p, c, N);
    var part := (i: nat) => if i < |p| then Crossing(f, p[i], p[Next(i, |p|)], c, WebReach(N)) else 0.0;
    forall i: nat | i < |p| ensures RowSums(patch, i, N, FluxThrough(f, k), part(i)) {
      FluxOnRow(f, k, p, c, i, N, patch);
    }
    FluxIsLocal(f, k);
    PanelRule(ms, k, m, FluxThrough(f, k), part, patch);
    CrossingsAre(f, p, c, WebReach(N), |p|, part);
  }

  // ----------------------------------------------------- the meter's own motion

  /** The nodes move with an affine field. */
  ghost predicate MovesWith(u: seq<Vec3>, f: Field, p: seq<Vec3>) {
    |u| == |p| && forall n :: 0 <= n < |p| ==> u[n] == FieldAt(f, p[n])
  }

  lemma AlongDifference(f: Field, X: Vec3, Y: Vec3)
    ensures Sub(FieldAt(f, X), FieldAt(f, Y)) == Along(f, Sub(X, Y))
  {
    DotLinear(1.0, X, Y, f.u.g);
    DotLinear(1.0, X, Y, f.v.g);
    DotLinear(1.0, X, Y, f.w.g);
  }

  lemma AlongAdd(f: Field, d: Vec3, e: Vec3)
    ensures Along(f, Add(d, e)) == Add(Along(f, d), Along(f, e))
    ensures Along(f, ZERO) == ZERO
  {
    DotLinear(1.0, d, e, f.u.g);
    DotLinear(1.0, d, e, f.v.g);
    DotLinear(1.0, d, e, f.w.g);
  }

  lemma {:induction false} DeviationsAlong(f: Field, u: seq<Vec3>, p: seq<Vec3>, c: Vec3, n: nat)
    requires MovesWith(u, f, p) && n <= |p|
    ensures Deviations(u, FieldAt(f, c), n) == Along(f, Deviations(p, c, n))
  {
    if n == 0 {
      AlongAdd(f, ZERO, ZERO);
    } else {
      DeviationsAlong(f, u, p, c, n - 1);
      AlongDifference(f, p[n - 1], c);
      AlongAdd(f, Deviations(p, c, n - 1), Sub(p[n - 1], c));
    }
  }

  /** The mean of an affine field over the nodes is the field at their centroid. */
  lemma MeanOfField(f: Field, u: seq<Vec3>, p: seq<Vec3>)
    requires p != [] && MovesWith(u, f, p)
    ensures MeterPanel.Mean(u) == FieldAt(f, MeterPanel.Mean(p))
  {
    var c := MeterPanel.Mean(p);
    var v, n := FieldAt(f, c), |u| as real;
    CentroidBalances(p);
    DeviationsAlong(f, u, p, c, |u|);
    AlongAdd(f, ZERO, ZERO);
    DeviationsSum(u, v, |u|);
    NothingBetween(SumUpto(u, |u|), Scale(n, v));
    MeanFromSum(u, v);
  }

  lemma MeanFromSum(u: seq<Vec3>, v: Vec3)
    requires u != [] && SumUpto(u, |u|) == Scale(|u| as real, v)
    ensures MeterPanel.Mean(u) == v
  {
    var n := |u| as real;
    ScaledBack(n, v.x);
    ScaledBack(n, v.y);
    ScaledBack(n, v.z);
  }

  lemma NothingBetween(a: Vec3, b: Vec3)
    requires Sub(a, b) == ZERO
    ensures a == b
  {
  }

  lemma ThirdOfValues(f: Affine, p: Vec3, q: Vec3, c: Vec3)
    ensures (Value(f, p) + Value(f, q) + Value(f, c)) / 3.0 == Value(f, OnMedian(p, q, c, 2.0 / 3.0))
  {
    var e := Sub(EdgeMiddle(p, q), c);
    ValueMoves(f, c, e, 2.0 / 3.0);
    DotLinear(0.5, EdgeMiddle(p, q), c, f.g);
    DotLinear(0.5, Add(p, q), c, f.g);
    DotLinear(0.5, p, q, f.g);
    ThirdScalar(f.a, Dot(f.g, p), Dot(f.g, q), Dot(f.g, c), Dot(f.g, e), Value(f, OnMedian(p, q, c, 2.0 / 3.0)));
  }

  lemma ThirdScalar(a: real, p: real, q: real, c: real, e: real, x: real)
    requires e == 0.5 * (p + q) - c && x == (a + c) + (2.0 / 3.0) * e
    ensures ((a + p) + (a + q) + (a + c)) / 3.0 == x
  {
  }

  lemma CentreOfTriangle(f: Field, p: Vec3, q: Vec3, c: Vec3)
    ensures CentreVelocity(FieldAt(f, p), FieldAt(f, q), FieldAt(f, c)) == FieldAt(f, OnMedian(p, q, c, 2.0 / 3.0))
  {
    ThirdOfValues(f.u, p, q, c);
    ThirdOfValues(f.v, p, q, c);
    ThirdOfValues(f.w, p, q, c);
  }

  /** The correction takes the meter's own motion at the centroid of every triangle: at 2/3 of the median. */
  lemma {:induction false} CorrectionAffine(f: Field, u: seq<Vec3>, p: seq<Vec3>, c: Vec3, n: nat)
    requires MovesWith(u, f, p) && n <= |p|
    ensures Correction(u, FieldAt(f, c), p, c, n) == Crossings(f, p, c, 2.0 / 3.0, n)
  {
    if n > 0 {
      CorrectionAffine(f, u, p, c, n - 1);
      CentreOfTriangle(f, p[n - 1], p[Next(n - 1, |p|)], c);
    }
  }

  // ---------------------------------------------------------- the readings

  /** In an affine flow a meter whose nodes move with another affine field reads the flux of the flow, taken at
      2/3 - 1/6N^2 of each median, less the flux of its own motion, taken at 2/3 of it. */
  lemma AffineMeterReads(g: Grid, fluid: Fluid, norm: Vec3 -> real, ms: seq<Meter>, k: nat, m: Meter, f: Field,
                         own: Field, flow: real, mean: Option<real>)
    requires ValidGrid(g) && ValidMeters(ms) && k < |ms| && m == ms[k] && ValidMeter(m) && m.size > 0
    requires AffineFlow(g, fluid, f) && MovesWith(m.velocity, own, m.perimeter)
    requires ReadsMeter(flow, mean, SceneOf(g, fluid, norm, ms), ms, k)
    ensures var p, c := m.perimeter, MeterPanel.Mean(m.perimeter);
            flow == Crossings(f, p, c, WebReach(m.size), |p|) - Crossings(own, p, c, 2.0 / 3.0, |p|)
  {
    var p, c := m.perimeter, MeterPanel.Mean(m.perimeter);
    FluxOverPatches(g, fluid, norm, ms, k, f);
    FluxOverTriangles(ms, k, m, f);
    MeanOfField(own, m.velocity, p);
    CorrectionAffine(own, m.velocity, p, c, |p|);
  }

  /** A meter at rest reads the flux of the flow through its patches, each counted once. */
  lemma RestingMeterReads(g: Grid, fluid: Fluid, norm: Vec3 -> real, ms: seq<Meter>, k: nat, f: Field, flow: real,
                          mean: Option<real>)
    requires ValidGrid(g) && ValidMeters(ms) && k < |ms| && AffineFlow(g, fluid, f)
    requires forall n :: 0 <= n < |ms[k].velocity| ==> ms[k].velocity[n] == ZERO
    requires ReadsMeter(flow, mean, SceneOf(g, fluid, norm, ms), ms, k)
    ensures flow == PanelSum(ms, |ms|, FluxThrough(f, k))
  {
    assert ValidMeter(ms[k]);
    FluxOverPatches(g, fluid, norm, ms, k, f);
    NoCorrection(ms[k]);
  }

  lemma NoCorrection(m: Meter)
    requires ValidMeter(m) && forall n :: 0 <= n < |m.velocity| ==> m.velocity[n] == ZERO
    ensures CorrectionOf(m) == 0.0
  {
    ConstantMean(m.velocity, ZERO);
    UniformCorrection(m.velocity, ZERO, m.perimeter, MeterPanel.Mean(m.perimeter), |m.perimeter|);
    DotZero(MeterArea(m.perimeter, MeterPanel.Mean(m.perimeter), |m.perimeter|));
  }

  /** How the field changes from the centroid to the edges, as flux through the triangles. */
  ghost function Spreading(f: Field, p: seq<Vec3>, c: Vec3, n: nat): real
    requires n <= |p|
  {
    if n == 0 then 0.0 else Spreading(f, p, c, n - 1) + EdgeSpreading(f, p[n - 1], p[Next(n - 1, |p|)], c)
  }

  ghost function MeterSpreading(f: Field, m: Meter): real
    requires ValidMeter(m)
  {
    Spreading(f, m.perimeter, MeterPanel.Mean(m.perimeter), |m.perimeter|)
  }

  lemma {:induction false} CrossingsDiffer(f: Field, p: seq<Vec3>, c: Vec3, t: real, t': real, n: nat, d: real)
    requires n <= |p| && d == t - t'
    ensures Crossings(f, p, c, t, n) == Crossings(f, p, c, t', n) + Part(d, Spreading(f, p, c, n))
  {
    if n > 0 {
      CrossingsDiffer(f, p, c, t, t', n - 1, d);
      EdgesDiffer(f, p[n - 1], p[Next(n - 1, |p|)], c, t, t', d);
      PartAdds(d, Spreading(f, p, c, n - 1), EdgeSpreading(f, p[n - 1], p[Next(n - 1, |p|)], c));
    }
  }

  lemma EdgesDiffer(f: Field, p: Vec3, q: Vec3, c: Vec3, t: real, t': real, d: real)
    requires d == t - t'
    ensures Crossing(f, p, q, c, t) == Crossing(f, p, q, c, t') + Part(d, EdgeSpreading(f, p, q, c))
  {
    CrossingIs(f, p, q, c, t);
    CrossingIs(f, p, q, c, t');
    PartsDiffer(t, t', d, EdgeSpreading(f, p, q, c));
  }

  lemma PartsDiffer(t: real, t': real, d: real, e: real)
    requires d == t - t'
    ensures t * e == t' * e + Part(d, e)
  {
  }

  lemma PartAdds(d: real, s: real, e: real)
    ensures Part(d, s + e) == Part(d, s) + Part(d, e)
    ensures Part(d, 0.0) == 0.0
  {
  }

  function Part(d: real, s: real): real {
    d * s
  }

  /** By how much the web falls short of the triangle's centroid. */
  function WebDefect(N: nat): real
    requires N > 0
  {
    (1.0 / N as real) * (1.0 / N as real) / 6.0
  }

  /** A meter carried along by an affine flow does not read zero: what is left is 1/6N^2 of the change of the flow
      from the centroid to the edges. It reads zero exactly if that flux is zero. */
  lemma CarriedMeterReads(g: Grid, fluid: Fluid, norm: Vec3 -> real, ms: seq<Meter>, k: nat, m: Meter, f: Field,
                          flow: real, mean: Option<real>)
    requires ValidGrid(g) && ValidMeters(ms) && k < |ms| && m == ms[k] && ValidMeter(m) && m.size > 0
    requires AffineFlow(g, fluid, f) && MovesWith(m.velocity, f, m.perimeter)
    requires ReadsMeter(flow, mean, SceneOf(g, fluid, norm, ms), ms, k)
    ensures flow == Part(-WebDefect(m.size), MeterSpreading(f, m)) && (flow == 0.0 <==> MeterSpreading(f, m) == 0.0)
  {
    AffineMeterReads(g, fluid, norm, ms, k, m, f, f, flow, mean);
    Remainder(f, m.perimeter, MeterPanel.Mean(m.perimeter), m.size, WebReach(m.size), WebDefect(m.size), flow);
  }

  lemma Remainder(f: Field, p: seq<Vec3>, c: Vec3, N: nat, t: real, rest: real, flow: real)
    requires N > 0 && t == WebReach(N) && rest == WebDefect(N)
    requires flow == Crossings(f, p, c, t, |p|) - Crossings(f, p, c, 2.0 / 3.0, |p|)
    ensures flow == Part(-rest, Spreading(f, p, c, |p|))
    ensures flow == 0.0 <==> Spreading(f, p, c, |p|) == 0.0
  {
    RestIs(N, rest);
    CrossingsDiffer(f, p, c, t, 2.0 / 3.0, |p|, -rest);
    ProductZero(-rest, Spreading(f, p, c, |p|), flow);
  }

  lemma RestIs(N: nat, rest: real)
    requires N > 0 && rest == WebDefect(N)
    ensures rest > 0.0 && -rest == WebReach(N) - 2.0 / 3.0
  {
    var h := 1.0 / N as real;
    QuotientTimes(1.0, N as real, h);
    ProductPositive(h, h, h * h);
  }

  lemma ProductZero(a: real, b: real, x: real)
    requires a != 0.0 && x == Part(a, b)
    ensures x == 0.0 <==> b == 0.0
  {
  }

  // ------------------------------------------------------------ mean pressure

  lemma SquareRootsEqual(x: real, y: real)
    requires x >= 0.0 && y >= 0.0 && x * x == y * y
    ensures x == y
  {
    assert (y - x) * (y + x) == 0.0;
    if x < y {
      ProductPositive(y - x, y + x, (y - x) * (y + x));
    } else if y < x {
      ProductPositive(x - y, y + x, (x - y) * (y + x));
    }
  }

  lemma NormScales(norm: Vec3 -> real, s: real, v: Vec3)
    requires IsNorm(norm) && s >= 0.0
    ensures norm(Scale(s, v)) == s * norm(v)
  {
    var w := Scale(s, v);
    DotLinear(s, v, v, w);
    DotLinear(s, v, v, v);
    NormScalar(norm(w), norm(v), s, Dot(v, v), Dot(v, w), Dot(w, w));
  }

  lemma NormScalar(x: real, n: real, s: real, d: real, e: real, q: real)
    requires x >= 0.0 && n >= 0.0 && s >= 0.0 && x * x == q && n * n == d && e == s * d && q == s * e
    ensures x == s * n
  {
    assert (s * n) * (s * n) == s * (s * (n * n));
    NonNegative(s, n);
    SquareRootsEqual(x, s * n);
  }

  lemma SharePositive(n: nat, N: nat)
    requires n < N
    ensures Share(n, N) >= 0.0
  {
    SquareOfCount(N);
    QuotientSign(2.0 * (N as real - n as real) - 1.0, N as real * N as real);
  }

  /** The force of an affine pressure on the triangle over one edge, taken at a point of the median. */
  ghost function Load(f: Affine, norm: Vec3 -> real, p: Vec3, q: Vec3, c: Vec3, t: real): real {
    Pressed(Value(f, OnMedian(p, q, c, t)), norm(Triangle(p, q, c)))
  }

  ghost function Loads(f: Affine, norm: Vec3 -> real, p: seq<Vec3>, c: Vec3, t: real, n: nat): real
    requires n <= |p|
  {
    if n == 0 then 0.0 else Loads(f, norm, p, c, t, n - 1) + Load(f, norm, p[n - 1], p[Next(n - 1, |p|)], c, t)
  }

  ghost function TriangleAreas(norm: Vec3 -> real, p: seq<Vec3>, c: Vec3, n: nat): real
    requires n <= |p|
  {
    if n == 0 then 0.0 else TriangleAreas(norm, p, c, n - 1) + norm(Triangle(p[n - 1], p[Next(n - 1, |p|)], c))
  }

  ghost function CentreLoad(f: Affine, norm: Vec3 -> real, p: Vec3, q: Vec3, c: Vec3): real {
    Pressed(Value(f, c), norm(Triangle(p, q, c)))
  }

  ghost function EdgeLoad(f: Affine, norm: Vec3 -> real, p: Vec3, q: Vec3, c: Vec3): real {
    Pressed(Dot(f.g, Sub(EdgeMiddle(p, q), c)), norm(Triangle(p, q, c)))
  }

  lemma LoadIs(f: Affine, norm: Vec3 -> real, p: Vec3, q: Vec3, c: Vec3, t: real)
    ensures Load(f, norm, p, q, c, t) == CentreLoad(f, norm, p, q, c) + t * EdgeLoad(f, norm, p, q, c)
  {
    var e := Sub(EdgeMiddle(p, q), c);
    ValueMoves(f, c, e, t);
    SpreadOut(Value(f, OnMedian(p, q, c, t)), Value(f, c), t, Dot(f.g, e), norm(Triangle(p, q, c)));
  }

  lemma SpreadOut(x: real, a: real, t: real, b: real, area: real)
    requires x == a + t * b
    ensures Pressed(x, area) == Pressed(a, area) + t * Pressed(b, area)
  {
  }

  lemma PatchLoad(f: Affine, norm: Vec3 -> real, p: Vec3, q: Vec3, c: Vec3, n: nat, N: nat, a: real, b: real)
    requires n < N && IsNorm(norm) && a == CentreLoad(f, norm, p, q, c) && b == EdgeLoad(f, norm, p, q, c)
    ensures Pressed(Value(f, PatchMiddle(p, q, c, n, N)), norm(PatchArea(p, q, c, n, N))) == WedgeTerm(a, b, n, N)
  {
    PatchOnMedian(p, q, c, n, N);
    LoadIs(f, norm, p, q, c, Reach(n, N));
    SharePositive(n, N);
    NormScales(norm, Share(n, N), Triangle(p, q, c));
    SharedLoad(Value(f, OnMedian(p, q, c, Reach(n, N))), norm(Triangle(p, q, c)), norm(PatchArea(p, q, c, n, N)), a, b,
               n, N);
  }

  lemma SharedLoad(x: real, area: real, part: real, a: real, b: real, n: nat, N: nat)
    requires n < N && part == Share(n, N) * area && Pressed(x, area) == a + Reach(n, N) * b
    ensures Pressed(x, part) == WedgeTerm(a, b, n, N)
  {
    PressedShare(x, Share(n, N), area);
    ShareOf(Share(n, N), Pressed(x, area), a, b, Reach(n, N), n, N);
  }

  lemma PressedShare(p: real, s: real, area: real)
    ensures Pressed(p, s * area) == s * Pressed(p, area)
  {
  }

  lemma LoadOfPatch(f: Affine, norm: Vec3 -> real, k: nat, p: seq<Vec3>, c: Vec3, i: nat, n: nat, N: nat,
                    patch: (nat, nat) -> Web, next: Vec3, a: real, b: real)
    requires i < |p| && n < N && patch == PatchesOf(k, p, c, N) && IsNorm(norm) && next == p[Next(i, |p|)]
    requires a == CentreLoad(f, norm, p[i], next, c) && b == EdgeLoad(f, norm, p[i], next, c)
    ensures LoadOn(f, norm, k)(patch(i, n)) == WedgeTerm(a, b, n, N)
  {
    assert patch(i, n) == Web(k, PatchMiddle(p[i], next, c, n, N), PatchArea(p[i], next, c, n, N));
    PatchLoad(f, norm, p[i], next, c, n, N, a, b);
  }

  lemma LoadOnRow(f: Affine, norm: Vec3 -> real, k: nat, p: seq<Vec3>, c: Vec3, i: nat, N: nat,
                  patch: (nat, nat) -> Web)
    requires i < |p| && N > 0 && patch == PatchesOf(k, p, c, N) && IsNorm(norm)
    ensures RowSums(patch, i, N, LoadOn(f, norm, k), Load(f, norm, p[i], p[Next(i, |p|)], c, WebReach(N)))
  {
    var next := p[Next(i, |p|)];
    var a, b := CentreLoad(f, norm, p[i], next, c), EdgeLoad(f, norm, p[i], next, c);
    LoadsLinear(f, norm, k, p, c, i, N, patch, next, a, b);
    LoadIs(f, norm, p[i], next, c, WebReach(N));
  }

  lemma LoadsLinear(f: Affine, norm: Vec3 -> real, k: nat, p: seq<Vec3>, c: Vec3, i: nat, N: nat,
                    patch: (nat, nat) -> Web, next: Vec3, a: real, b: real)
    requires i < |p| && N > 0 && patch == PatchesOf(k, p, c, N) && IsNorm(norm) && next == p[Next(i, |p|)]
    requires a == CentreLoad(f, norm, p[i], next, c) && b == EdgeLoad(f, norm, p[i], next, c)
    ensures LinearOnRow(patch, i, N, LoadOn(f, norm, k), a, b)
  {
    forall n: nat | n < N ensures LoadOn(f, norm, k)(patch(i, n)) == WedgeTerm(a, b, n, N) {
      LoadOfPatch(f, norm, k, p, c, i, n, N, patch, next, a, b);
    }
  }

  lemma {:induction false} LoadsAre(f: Affine, norm: Vec3 -> real, p: seq<Vec3>, c: Vec3, t: real, n: nat,
                                    part: nat -> real)
    requires n <= |p| && forall i: nat :: i < |p| ==> part(i) == Load(f, norm, p[i], p[Next(i, |p|)], c, t)
    ensures SumOf(part, n) == Loads(f, norm, p, c, t, n)
  {
    if n > 0 {
      LoadsAre(f, norm, p, c, t, n - 1, part);
    }
  }

  lemma LoadIsLocal(f: Affine, norm: Vec3 -> real, k: nat)
    ensures ZeroElsewhere(LoadOn(f, norm, k), k)
  {
  }

  lemma LoadOverTriangles(norm: Vec3 -> real, ms: seq<Meter>, k: nat, m: Meter, f: Affine)
    requires ValidMeters(ms) && k < |ms| && m == ms[k] && ValidMeter(m) && m.size > 0 && IsNorm(norm)
    ensures PanelSum(ms, |ms|, LoadOn(f, norm, k))
         == Loads(f, norm, m.perimeter, MeterPanel.Mean(m.perimeter), WebReach(m.size), |m.perimeter|)
  {
    var p, c, N := m.perimeter, MeterPanel.Mean(m.perimeter), m.size;
    var patch := PatchesOf(k, p, c, N);
    var part := (i: nat) => if i < |p| then Load(f, norm, p[i], p[Next(i, |p|)], c, WebReach(N)) else 0.0;
    forall i: nat | i < |p| ensures RowSums(patch, i, N, LoadOn(f, norm, k), part(i)) {
      LoadOnRow(f, norm, k, p, c, i, N, patch);
    }
    LoadIsLocal(f, norm, k);
    PanelRule(ms, k, m, LoadOn(f, norm, k), part, patch);
    LoadsAre(f, norm, p, c, WebReach(N), |p|, part);
  }

  lemma {:induction false} UnitLoads(norm: Vec3 -> real, p: seq<Vec3>, c: Vec3, t: real, n: nat)
    requires n <= |p|
    ensures Loads(UNIT, norm, p, c, t, n) == TriangleAreas(norm, p, c, n)
  {
    if n > 0 {
      var a, b := p[n - 1], p[Next(n - 1, |p|)];
      UnitLoads(norm, p, c, t, n - 1);
      UnitIsOne(OnMedian(a, b, c, t));
      PressedOnce(1.0, norm(Triangle(a, b, c)), Load(UNIT, norm, a, b, c, t));
    }
  }

  /** The mean of an affine pressure is its mean over the triangles, weighted by area and taken at 2/3 - 1/6N^2 of the
      medians; there is none exactly if all triangles have area zero. */
  lemma AffineMeanPressure(g: Grid, fluid: Fluid, norm: Vec3 -> real, ms: seq<Meter>, k: nat, m: Meter, f: Affine,
                           flow: real, mean: Option<real>, area: real, load: real)
    requires ValidGrid(g) && ValidMeters(ms) && k < |ms| && m == ms[k] && ValidMeter(m) && m.size > 0
    requires AffinePressure(g, fluid, f) && IsNorm(norm)
    requires ReadsMeter(flow, mean, SceneOf(g, fluid, norm, ms), ms, k)
    requires area == TriangleAreas(norm, m.perimeter, MeterPanel.Mean(m.perimeter), |m.perimeter|)
    requires load
          == Loads(f, norm, m.perimeter, MeterPanel.Mean(m.perimeter), WebReach(m.size), |m.perimeter|)
    ensures mean == if area == 0.0 then None else Some(load / area)
  {
    LoadOverPatches(g, fluid, norm, ms, k, f);
    AreaOverPatches(g, fluid, norm, ms, k);
    LoadOverTriangles(norm, ms, k, m, f);
    LoadOverTriangles(norm, ms, k, m, UNIT);
    UnitLoads(norm, m.perimeter, MeterPanel.Mean(m.perimeter), WebReach(m.size), |m.perimeter|);
  }
}
