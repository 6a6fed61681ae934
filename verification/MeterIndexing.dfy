/** Where web patches are filed: the cell of the finest level that contains them, in a hierarchy of
    nested levels whose patches are spread over processes; and how often the reading loops meet them. */
module MeterIndexing {
  import opened Vectors
  import opened MeterInterpolation

  datatype Box = Box(lower: Index, upper: Index)

  predicate InBox(b: Box, c: Index) {
    b.lower.i <= c.i <= b.upper.i && b.lower.j <= c.j <= b.upper.j && b.lower.k <= c.k <= b.upper.k
  }

  /** A level: its refinement over the next coarser level and over level zero, and the patch boxes each process
      holds. */
  datatype Level = Level(refine: Index, ratio: Index, procs: seq<seq<Box>>)

  /** The coarsest spacing, the lower corner of the domain and its lowest cell on level zero. */
  datatype Grid = Grid(xLower: Vec3, dx: Vec3, lower: Index, procs: nat, levels: seq<Level>)

  /** How many of the first `n` boxes contain the cell. */
  function CountUpto(boxes: seq<Box>, n: nat, c: Index): nat
    requires n <= |boxes|
  {
    if n == 0 then 0 else CountUpto(boxes, n - 1, c) + (if InBox(boxes[n - 1], c) then 1 else 0)
  }

  function CountIn(boxes: seq<Box>, c: Index): nat {
    CountUpto(boxes, |boxes|, c)
  }

  /** How many patches of the first `p` processes contain the cell. */
  function Holders(l: Level, p: nat, c: Index): nat
    requires p <= |l.procs|
  {
    if p == 0 then 0 else Holders(l, p - 1, c) + CountIn(l.procs[p - 1], c)
  }

  predicate Contains(l: Level, c: Index) {
    Holders(l, |l.procs|, c) > 0
  }

  predicate PositiveIndex(r: Index) {
    r.i > 0 && r.j > 0 && r.k > 0
  }

  function Times(a: Index, b: Index): Index {
    Index(a.i * b.i, a.j * b.j, a.k * b.k)
  }

  /** Division of cell indices rounds down, also below zero. */
  function Coarsen(c: Index, r: Index): Index
    requires PositiveIndex(r)
  {
    Index(c.i / r.i, c.j / r.j, c.k / r.k)
  }

  ghost predicate Nested(coarse: Level, fine: Level)
    requires PositiveIndex(fine.refine)
  {
    forall c :: Contains(fine, c) ==> Contains(coarse, Coarsen(c, fine.refine))
  }

  ghost predicate DisjointPatches(l: Level) {
    forall c :: Holders(l, |l.procs|, c) <= 1
  }

  ghost predicate ValidGrid(g: Grid) {
    && g.dx.x > 0.0 && g.dx.y > 0.0 && g.dx.z > 0.0 && g.levels != []
    && g.levels[0].ratio == Index(1, 1, 1)
    && (forall ln :: 0 <= ln < |g.levels| ==> ValidLevel(g, g.levels[ln]))
    && (forall ln :: 0 < ln < |g.levels| ==> RefinedAt(g, ln))
  }

  ghost predicate RefinedAt(g: Grid, ln: nat)
    requires 0 < ln < |g.levels|
  {
    Refines(g.levels[ln - 1], g.levels[ln])
  }

  ghost predicate ValidLevel(g: Grid, l: Level) {
    |l.procs| == g.procs && PositiveIndex(l.refine) && PositiveIndex(l.ratio) && DisjointPatches(l)
  }

  ghost predicate Refines(coarse: Level, fine: Level) {
    PositiveIndex(fine.refine) && fine.ratio == Times(coarse.ratio, fine.refine) && Nested(coarse, fine)
  }

  // ------------------------------------------------------------ cell indices

  function Spacing(dx: real, ratio: int): real
    requires ratio > 0
  {
    dx / ratio as real
  }

  /** getCellIndex in one direction. */
  function CellOf(x: real, xLower: real, dx: real, lower: int): int
    requires dx != 0.0
  {
    ((x - xLower) / dx).Floor + lower
  }

  lemma SpacingPositive(dx: real, ratio: int)
    requires dx > 0.0 && ratio > 0
    ensures Spacing(dx, ratio) > 0.0
  {
    var s := Spacing(dx, ratio);
    QuotientTimes(dx, ratio as real, s);
    if s <= 0.0 {
      NonNegative(-s, ratio as real);
    }
  }

  function LevelCell(x: real, xLower: real, dx: real, lower: int, ratio: int): int
    requires dx > 0.0 && ratio > 0
  {
    SpacingPositive(dx, ratio);
    CellOf(x, xLower, Spacing(dx, ratio), lower * ratio)
  }

  /** The cell of level `ln` in which a point lies. */
  function CellIndex(g: Grid, ln: nat, X: Vec3): Index
    requires ln < |g.levels| && PositiveIndex(g.levels[ln].ratio) && g.dx.x > 0.0 && g.dx.y > 0.0 && g.dx.z > 0.0
  {
    var r := g.levels[ln].ratio;
    Index(LevelCell(X.x, g.xLower.x, g.dx.x, g.lower.i, r.i),
          LevelCell(X.y, g.xLower.y, g.dx.y, g.lower.j, r.j),
          LevelCell(X.z, g.xLower.z, g.dx.z, g.lower.k, r.k))
  }

  /** Refining by `r` multiplies the distance in cells by `r`. */
  lemma FinerDistance(d: real, dx: real, ratio: int, r: int, y: real, z: real)
    requires dx > 0.0 && ratio > 0 && r > 0 && ratio * r > 0
    requires Spacing(dx, ratio) > 0.0 && Spacing(dx, ratio * r) > 0.0
    requires y == d / Spacing(dx, ratio) && z == d / Spacing(dx, ratio * r)
    ensures z == y * r as real
  {
    var s, t := Spacing(dx, ratio), Spacing(dx, ratio * r);
    QuotientTimes(dx, ratio as real, s);
    QuotientTimes(dx, (ratio * r) as real, t);
    QuotientTimes(d, s, y);
    QuotientTimes(d, t, z);
    SpacingsRelate(dx, ratio as real, r as real, (ratio * r) as real, s, t);
    Rescaled(y, z, s, t, r as real, d);
  }

  lemma SpacingsRelate(dx: real, a: real, r: real, ar: real, s: real, t: real)
    requires a > 0.0 && ar == a * r && s * a == dx && t * ar == dx
    ensures s == t * r
  {
    assert (t * r) * a == t * ar;
    Same(s, t * r, a);
  }

  lemma Rescaled(y: real, z: real, s: real, t: real, r: real, d: real)
    requires t != 0.0 && s == t * r && y * s == d && z * t == d
    ensures z == y * r
  {
    assert (y * r) * t == y * s;
    Same(z, y * r, t);
  }

  lemma FloorOfMultiple(y: real, r: int, z: real)
    requires r > 0 && z == y * r as real
    ensures z.Floor / r == y.Floor
  {
    var n := y.Floor;
    var f := y - n as real;
    assert 0.0 <= f < 1.0;
    NonNegative(f, r as real);
    ProductPositive(1.0 - f, r as real, (1.0 - f) * r as real);
    assert z == (n * r) as real + f * r as real by {
      assert y * r as real == (n as real) * (r as real) + f * r as real;
    }
    assert n * r <= z.Floor < n * r + r;
    DivisionBetween(z.Floor, n, r);
  }

  lemma DivisionBetween(a: int, n: int, r: int)
    requires r > 0 && n * r <= a < n * r + r
    ensures a / r == n
  {
    var q := a / r;
    assert a == q * r + a % r;
    if q < n {
      Gap(q, n, r);
    } else if q > n {
      Gap(n, q, r);
    }
  }

  lemma Gap(p: int, q: int, r: int)
    requires r > 0 && p < q
    ensures p * r + r <= q * r
  {
    assert (q - p - 1) * r >= 0;
    assert (q - p - 1) * r == q * r - p * r - r;
  }

  lemma DivisionShift(a: int, b: int, r: int)
    requires r > 0
    ensures (a + b * r) / r == a / r + b
  {
    var q := a / r;
    assert a == q * r + a % r;
    assert (q + b) * r == q * r + b * r;
    DivisionBetween(a + b * r, q + b, r);
  }

  /** The finer cell of a point coarsens to its coarser cell. */
  lemma FinerCell(x: real, xLower: real, dx: real, lower: int, ratio: int, r: int)
    requires dx > 0.0 && ratio > 0 && r > 0 && ratio * r > 0
    ensures LevelCell(x, xLower, dx, lower, ratio * r) / r == LevelCell(x, xLower, dx, lower, ratio)
  {
    SpacingPositive(dx, ratio);
    SpacingPositive(dx, ratio * r);
    var d := x - xLower;
    var y, z := d / Spacing(dx, ratio), d / Spacing(dx, ratio * r);
    FinerDistance(d, dx, ratio, r, y, z);
    FloorOfMultiple(y, r, z);
    DivisionShift(z.Floor, lower * ratio, r);
    assert lower * (ratio * r) == (lower * ratio) * r;
  }

  lemma FinerIndex(g: Grid, ln: nat, X: Vec3)
    requires ValidGrid(g) && 0 < ln < |g.levels|
    ensures Coarsen(CellIndex(g, ln, X), g.levels[ln].refine) == CellIndex(g, ln - 1, X)
  {
    var coarse, fine := g.levels[ln - 1], g.levels[ln];
    assert ValidLevel(g, coarse) && ValidLevel(g, fine) && RefinedAt(g, ln);
    FinerCell(X.x, g.xLower.x, g.dx.x, g.lower.i, coarse.ratio.i, fine.refine.i);
    FinerCell(X.y, g.xLower.y, g.dx.y, g.lower.j, coarse.ratio.j, fine.refine.j);
    FinerCell(X.z, g.xLower.z, g.dx.z, g.lower.k, coarse.ratio.k, fine.refine.k);
  }

  /** A cell of a level as the reading loops see its centre; points filed under the cell lie in it. */
  function CellCentre(g: Grid, ln: nat, c: Index): Vec3
    requires ln < |g.levels| && PositiveIndex(g.levels[ln].ratio)
  {
    var r := g.levels[ln].ratio;
    Vec3(g.xLower.x + Spacing(g.dx.x, r.i) * ((c.i - g.lower.i * r.i) as real + 0.5),
         g.xLower.y + Spacing(g.dx.y, r.j) * ((c.j - g.lower.j * r.j) as real + 0.5),
         g.xLower.z + Spacing(g.dx.z, r.k) * ((c.k - g.lower.k * r.k) as real + 0.5))
  }

  function LevelSpacing(g: Grid, ln: nat): Vec3
    requires ln < |g.levels| && PositiveIndex(g.levels[ln].ratio)
  {
    var r := g.levels[ln].ratio;
    Vec3(Spacing(g.dx.x, r.i), Spacing(g.dx.y, r.j), Spacing(g.dx.z, r.k))
  }

  lemma PointInCell(x: real, xLower: real, dx: real, lower: int)
    requires dx > 0.0
    ensures InCell(x, xLower + dx * ((CellOf(x, xLower, dx, lower) - lower) as real + 0.5), dx)
  {
    var y := (x - xLower) / dx;
    QuotientTimes(x - xLower, dx, y);
    var n := y.Floor;
    var f := y - n as real;
    NonNegative(f, dx);
    ProductPositive(1.0 - f, dx, (1.0 - f) * dx);
    assert y * dx == (n as real) * dx + f * dx;
    assert dx * (n as real + 0.5) == (n as real) * dx + 0.5 * dx;
    assert CellOf(x, xLower, dx, lower) - lower == n;
  }

  lemma PointInLevelCell(g: Grid, ln: nat, X: Vec3)
    requires ValidGrid(g) && ln < |g.levels|
    ensures InCell3(X, CellCentre(g, ln, CellIndex(g, ln, X)), LevelSpacing(g, ln))
  {
    var r := g.levels[ln].ratio;
    assert ValidLevel(g, g.levels[ln]);
    SpacingPositive(g.dx.x, r.i);
    SpacingPositive(g.dx.y, r.j);
    SpacingPositive(g.dx.z, r.k);
    PointInCell(X.x, g.xLower.x, Spacing(g.dx.x, r.i), g.lower.i * r.i);
    PointInCell(X.y, g.xLower.y, Spacing(g.dx.y, r.j), g.lower.j * r.j);
    PointInCell(X.z, g.xLower.z, Spacing(g.dx.z, r.k), g.lower.k * r.k);
  }

  // -------------------------------------------------- filing on one level

  predicate Holds(g: Grid, ln: nat, X: Vec3)
    requires ln < |g.levels| && PositiveIndex(g.levels[ln].ratio) && g.dx.x > 0.0 && g.dx.y > 0.0 && g.dx.z > 0.0
  {
    Contains(g.levels[ln], CellIndex(g, ln, X))
  }

  /** The condition under which a patch is filed on a level: the level holds it and no finer level does. */
  ghost predicate FiledOn(g: Grid, ln: nat, X: Vec3)
    requires ValidGrid(g) && ln < |g.levels|
  {
    assert ValidLevel(g, g.levels[ln]) && (ln + 1 < |g.levels| ==> ValidLevel(g, g.levels[ln + 1]));
    Holds(g, ln, X) && (ln == |g.levels| - 1 || !Holds(g, ln + 1, X))
  }

  ghost function LevelFrom(g: Grid, ln: nat, X: Vec3): (r: nat)
    requires ValidGrid(g) && ln < |g.levels|
    ensures ln <= r < |g.levels|
    decreases |g.levels| - ln
  {
    assert ln + 1 < |g.levels| ==> ValidLevel(g, g.levels[ln + 1]);
    if ln == |g.levels| - 1 || !Holds(g, ln + 1, X) then ln else LevelFrom(g, ln + 1, X)
  }

  /** A level holds every point that a finer level holds. */
  lemma HeldCoarser(g: Grid, ln: nat, X: Vec3)
    requires ValidGrid(g) && 0 < ln < |g.levels|
    ensures ValidLevel(g, g.levels[ln]) && ValidLevel(g, g.levels[ln - 1])
    ensures Holds(g, ln, X) ==> Holds(g, ln - 1, X)
  {
    assert RefinedAt(g, ln);
    FinerIndex(g, ln, X);
  }

  lemma {:induction false} NotHeldFiner(g: Grid, ln: nat, m: nat, X: Vec3)
    requires ValidGrid(g) && ln <= m < |g.levels|
    ensures ValidLevel(g, g.levels[ln]) && ValidLevel(g, g.levels[m])
    ensures Holds(g, m, X) ==> Holds(g, ln, X)
  {
    if ln < m {
      HeldCoarser(g, m, X);
      NotHeldFiner(g, ln, m - 1, X);
    }
  }

  lemma {:induction false} LevelFromFiles(g: Grid, ln: nat, X: Vec3)
    requires ValidGrid(g) && ln < |g.levels|
    ensures ValidLevel(g, g.levels[ln])
    ensures Holds(g, ln, X) ==> FiledOn(g, LevelFrom(g, ln, X), X)
    decreases |g.levels| - ln
  {
    if ln < |g.levels| - 1 {
      LevelFromFiles(g, ln + 1, X);
    }
  }

  /** A point is filed on exactly one level if level zero holds it, and on none otherwise. */
  lemma FiledOnce(g: Grid, X: Vec3)
    requires ValidGrid(g)
    ensures ValidLevel(g, g.levels[0])
    ensures Holds(g, 0, X) ==> forall ln :: 0 <= ln < |g.levels| ==> (FiledOn(g, ln, X) <==> ln == LevelFrom(g, 0, X))
    ensures !Holds(g, 0, X) ==> forall ln :: 0 <= ln < |g.levels| ==> !FiledOn(g, ln, X)
  {
    LevelFromFiles(g, 0, X);
    var r := LevelFrom(g, 0, X);
    forall ln | 0 <= ln < |g.levels| && FiledOn(g, ln, X) ensures Holds(g, 0, X) && ln == r {
      NotHeldFiner(g, 0, ln, X);
      if ln < r {
        NotHeldFiner(g, ln + 1, r, X);
      } else if r < ln {
        NotHeldFiner(g, r + 1, ln, X);
      }
    }
  }

  /** Some patch of some process holds the cell. */
  ghost predicate OnSomePatch(l: Level, c: Index) {
    exists p, b :: 0 <= p < |l.procs| && 0 <= b < |l.procs[p]| && InBox(l.procs[p][b], c)
  }

  lemma {:induction false} CountedBox(boxes: seq<Box>, n: nat, c: Index)
    requires n <= |boxes|
    ensures CountUpto(boxes, n, c) > 0 <==> exists b :: 0 <= b < n && InBox(boxes[b], c)
  {
    if n > 0 {
      CountedBox(boxes, n - 1, c);
      if InBox(boxes[n - 1], c) {
        assert 0 <= n - 1 < n && InBox(boxes[n - 1], c);
      }
    }
  }

  lemma {:induction false} HeldByPatch(l: Level, p: nat, c: Index)
    requires p <= |l.procs|
    ensures Holders(l, p, c) > 0 <==>
            exists q, b :: 0 <= q < p && 0 <= b < |l.procs[q]| && InBox(l.procs[q][b], c)
  {
    if p > 0 {
      HeldByPatch(l, p - 1, c);
      CountedBox(l.procs[p - 1], |l.procs[p - 1]|, c);
      if CountIn(l.procs[p - 1], c) > 0 {
        var b :| 0 <= b < |l.procs[p - 1]| && InBox(l.procs[p - 1][b], c);
        assert 0 <= p - 1 < p && InBox(l.procs[p - 1][b], c);
      }
    }
  }

  /** A point is filed on the finest level of which some patch holds its cell. */
  lemma FiledOnFinest(g: Grid, ln: nat, X: Vec3)
    requires ValidGrid(g) && ln < |g.levels|
    ensures forall m :: 0 <= m < |g.levels| ==> ValidLevel(g, g.levels[m])
    ensures FiledOn(g, ln, X) <==>
            && OnSomePatch(g.levels[ln], CellIndex(g, ln, X))
            && forall m :: ln < m < |g.levels| ==> !OnSomePatch(g.levels[m], CellIndex(g, m, X))
  {
    HeldByPatch(g.levels[ln], |g.levels[ln].procs|, CellIndex(g, ln, X));
    assert ValidLevel(g, g.levels[ln]);
    forall m | ln < m < |g.levels| ensures ValidLevel(g, g.levels[m])
      ensures OnSomePatch(g.levels[m], CellIndex(g, m, X)) ==> OnSomePatch(g.levels[ln + 1], CellIndex(g, ln + 1, X))
    {
      NotHeldFiner(g, ln + 1, m, X);
      HeldByPatch(g.levels[m], |g.levels[m].procs|, CellIndex(g, m, X));
      HeldByPatch(g.levels[ln + 1], |g.levels[ln + 1].procs|, CellIndex(g, ln + 1, X));
    }
    if ln + 1 < |g.levels| {
      assert ValidLevel(g, g.levels[ln + 1]);
      HeldByPatch(g.levels[ln + 1], |g.levels[ln + 1].procs|, CellIndex(g, ln + 1, X));
    }
  }
}
