/** Reading the meters: every process adds up what it meets, the processes' sums are added, mean
    pressures are normalised and flows corrected for the meters' own motion (readInstrumentData). */
module MeterReading {
  import opened Vectors
  import opened MeterInterpolation
  import opened MeterIndexing
  import opened MeterVisits
  import opened Multisets

  /** A web patch of a meter: its centre and area vector. */
  datatype Web = Web(meter: nat, x: Vec3, dA: Vec3)

  /** Fluid data by level: velocity components, cell- or side-centred, and cell-centred pressure. */
  datatype Fluid = Fluid(side: bool, u: (nat, nat) -> GridData, p: nat -> GridData)

  datatype Scene = Scene(g: Grid, webs: seq<Web>, fluid: Fluid, norm: Vec3 -> real, meters: nat)

  datatype Readings = Readings(flow: seq<real>, pressure: seq<real>, area: seq<real>)

  ghost predicate ValidScene(s: Scene) {
    ValidGrid(s.g) && forall w :: 0 <= w < |s.webs| ==> s.webs[w].meter < s.meters
  }

  function Points(webs: seq<Web>): (r: seq<Vec3>)
    ensures |r| == |webs| && forall w :: 0 <= w < |webs| ==> r[w] == webs[w].x
  {
    seq(|webs|, w requires 0 <= w < |webs| => webs[w].x)
  }

  function CentringOf(f: Fluid, d: nat): Centring {
    if f.side then Sides(d) else Cells
  }

  predicate GoodLevel(g: Grid, ln: nat) {
    ln < |g.levels| && PositiveIndex(g.levels[ln].ratio) && g.dx.x > 0.0 && g.dx.y > 0.0 && g.dx.z > 0.0
  }

  lemma LevelsGood(g: Grid, ln: nat)
    requires ValidGrid(g) && ln < |g.levels|
    ensures GoodLevel(g, ln)
    ensures LevelSpacing(g, ln).x > 0.0 && LevelSpacing(g, ln).y > 0.0 && LevelSpacing(g, ln).z > 0.0
  {
    assert ValidLevel(g, g.levels[ln]);
    var r := g.levels[ln].ratio;
    SpacingPositive(g.dx.x, r.i);
    SpacingPositive(g.dx.y, r.j);
    SpacingPositive(g.dx.z, r.k);
  }

  ghost function ComponentAt(g: Grid, ln: nat, X: Vec3, centring: Centring, v: GridData): real
    requires ValidGrid(g) && ln < |g.levels|
  {
    LevelsGood(g, ln);
    var c := CellIndex(g, ln, X);
    Interpolant(X, c, CellCentre(g, ln, c), LevelSpacing(g, ln), centring, v)
  }

  /** The interpolated velocity and pressure at a point filed on level `ln`. */
  ghost function VelocityAt(g: Grid, f: Fluid, ln: nat, X: Vec3): Vec3
    requires ValidGrid(g) && ln < |g.levels|
  {
    Vec3(ComponentAt(g, ln, X, CentringOf(f, 0), f.u(ln, 0)), ComponentAt(g, ln, X, CentringOf(f, 1), f.u(ln, 1)),
         ComponentAt(g, ln, X, CentringOf(f, 2), f.u(ln, 2)))
  }

  ghost function PressureAt(g: Grid, f: Fluid, ln: nat, X: Vec3): real
    requires ValidGrid(g) && ln < |g.levels|
  {
    ComponentAt(g, ln, X, Cells, f.p(ln))
  }

  /** What the readings depend on: the patches, and the velocity and pressure met with patch `w` on level `ln`. */
  datatype Meeting = Meeting(webs: seq<Web>, meters: nat, norm: Vec3 -> real, velocity: (nat, nat) -> Vec3,
                             pressure: (nat, nat) -> real)

  ghost function MeetingOf(s: Scene): Meeting
    requires ValidGrid(s.g)
  {
    Meeting(s.webs, s.meters, s.norm,
            (ln: nat, w: nat) => if ln < |s.g.levels| && w < |s.webs| then VelocityAt(s.g, s.fluid, ln, s.webs[w].x)
              else ZERO,
            (ln: nat, w: nat) => if ln < |s.g.levels| && w < |s.webs| then PressureAt(s.g, s.fluid, ln, s.webs[w].x)
              else 0.0)
  }

  lemma MeetingIs(s: Scene, ln: nat, w: nat)
    requires ValidGrid(s.g) && ln < |s.g.levels| && w < |s.webs|
    ensures MeetingOf(s).velocity(ln, w) == VelocityAt(s.g, s.fluid, ln, s.webs[w].x)
    ensures MeetingOf(s).pressure(ln, w) == PressureAt(s.g, s.fluid, ln, s.webs[w].x)
  {
  }

  ghost predicate Counts(q: Meeting, v: Visit, k: nat) {
    v.web < |q.webs| && q.webs[v.web].meter == k
  }

  /** What one visit adds to the readings of meter `k`. */
  ghost function FlowOf(q: Meeting, k: nat): Visit -> real {
    (v: Visit) => if Counts(q, v, k) then Dot(q.velocity(v.ln, v.web), q.webs[v.web].dA) else 0.0
  }

  ghost function PressureOf(q: Meeting, k: nat): Visit -> real {
    (v: Visit) => if Counts(q, v, k) then q.pressure(v.ln, v.web) * q.norm(q.webs[v.web].dA) else 0.0
  }

  ghost function AreaOf(q: Meeting, k: nat): Visit -> real {
    (v: Visit) => if Counts(q, v, k) then q.norm(q.webs[v.web].dA) else 0.0
  }

  ghost function Total(f: Visit -> real, vs: seq<Visit>): real {
    if vs == [] then 0.0 else Total(f, vs[..|vs| - 1]) + f(vs[|vs| - 1])
  }

  lemma {:induction false} TotalConcat(f: Visit -> real, a: seq<Visit>, b: seq<Visit>)
    ensures Total(f, a + b) == Total(f, a) + Total(f, b)
  {
    if b == [] {
      assert a + b == a;
    } else {
      assert (a + b)[..|a + b| - 1] == a + b[..|b| - 1];
      TotalConcat(f, a, b[..|b| - 1]);
    }
  }

  lemma TotalOne(f: Visit -> real, vs: seq<Visit>, v: Visit)
    ensures Total(f, vs + [v]) == Total(f, vs) + f(v)
  {
    assert (vs + [v])[..|vs|] == vs;
  }

  lemma TotalAround(f: Visit -> real, a: seq<Visit>, v: Visit, b: seq<Visit>)
    ensures Total(f, a + [v] + b) == Total(f, a + b) + f(v)
  {
    TotalConcat(f, a + [v], b);
    TotalOne(f, a, v);
    TotalConcat(f, a, b);
  }

  lemma TotalRemove(f: Visit -> real, vs: seq<Visit>, k: nat)
    requires k < |vs|
    ensures Total(f, vs) == Total(f, vs[..k] + vs[k + 1..]) + f(vs[k])
  {
    TakeOut(f, vs, vs[..k], vs[k], vs[k + 1..]);
  }

  lemma TakeOut(f: Visit -> real, vs: seq<Visit>, a: seq<Visit>, v: Visit, b: seq<Visit>)
    requires vs == a + [v] + b
    ensures Total(f, vs) == Total(f, a + b) + f(v)
  {
    TotalAround(f, a, v, b);
  }

  /** A total does not depend on the order of the visits. */
  lemma {:induction false} TotalPermutation(f: Visit -> real, a: seq<Visit>, b: seq<Visit>)
    requires multiset(a) == multiset(b)
    ensures Total(f, a) == Total(f, b)
    decreases |a|
  {
    if a == [] {
      assert |multiset(b)| == 0;
    } else {
      var j := |a| - 1;
      assert a[j] in multiset(b);
      var k :| 0 <= k < |b| && b[k] == a[j];
      MultisetRemove(a, j);
      MultisetRemove(b, k);
      CancelOne(multiset(a[..j] + a[j + 1..]), multiset(b[..k] + b[k + 1..]), a[j]);
      TotalPermutation(f, a[..j] + a[j + 1..], b[..k] + b[k + 1..]);
      TotalRemove(f, a, j);
      TotalRemove(f, b, k);
    }
  }

  // ------------------------------------------------------------ recording

  /** The readings are the totals over the visits made so far. */
  ghost predicate Records(r: Readings, q: Meeting, vs: seq<Visit>) {
    && |r.flow| == |r.pressure| == |r.area| == q.meters
    && forall k :: 0 <= k < q.meters ==> RecordsMeter(r.flow[k], r.pressure[k], r.area[k], q, k, vs)
  }

  ghost predicate RecordsMeter(flow: real, pressure: real, area: real, q: Meeting, k: nat, vs: seq<Visit>) {
    flow == Total(FlowOf(q, k), vs) && pressure == Total(PressureOf(q, k), vs) && area == Total(AreaOf(q, k), vs)
  }

  /** The readings of meter `m` after a patch of area vector `dA` met with velocity `U` and pressure `p`. */
  function Recorded(r: Readings, m: nat, U: Vec3, p: real, dA: Vec3, norm: Vec3 -> real): Readings
    requires m < |r.flow| == |r.pressure| == |r.area|
  {
    Readings(r.flow[m := r.flow[m] + Dot(U, dA)], r.pressure[m := r.pressure[m] + p * norm(dA)],
             r.area[m := r.area[m] + norm(dA)])
  }

  lemma RecordVisit(r: Readings, r': Readings, q: Meeting, vs: seq<Visit>, v: Visit, m: nat, U: Vec3, p: real, dA: Vec3)
    requires Records(r, q, vs) && v.web < |q.webs| && q.webs[v.web].meter == m < q.meters && dA == q.webs[v.web].dA
    requires U == q.velocity(v.ln, v.web) && p == q.pressure(v.ln, v.web)
    requires r' == Recorded(r, m, U, p, dA, q.norm)
    ensures Records(r', q, vs + [v])
  {
    forall k | 0 <= k < q.meters ensures RecordsMeter(r'.flow[k], r'.pressure[k], r'.area[k], q, k, vs + [v]) {
      assert RecordsMeter(r.flow[k], r.pressure[k], r.area[k], q, k, vs);
      TotalOne(FlowOf(q, k), vs, v);
      TotalOne(PressureOf(q, k), vs, v);
      TotalOne(AreaOf(q, k), vs, v);
    }
  }

  method InterpolateAt(s: Scene, ln: nat, c: Index, X: Vec3) returns (U: Vec3, p: real)
    requires ValidGrid(s.g) && GoodLevel(s.g, ln) && c == CellIndex(s.g, ln, X)
    ensures U == VelocityAt(s.g, s.fluid, ln, X) && p == PressureAt(s.g, s.fluid, ln, X)
  {
    LevelsGood(s.g, ln);
    var xCell, dx := CellCentre(s.g, ln, c), LevelSpacing(s.g, ln);
    var u0 := LinearInterp(X, c, xCell, dx, CentringOf(s.fluid, 0), s.fluid.u(ln, 0));
    var u1 := LinearInterp(X, c, xCell, dx, CentringOf(s.fluid, 1), s.fluid.u(ln, 1));
    var u2 := LinearInterp(X, c, xCell, dx, CentringOf(s.fluid, 2), s.fluid.u(ln, 2));
    U := Vec3(u0, u1, u2);
    p := LinearInterp(X, c, xCell, dx, Cells, s.fluid.p(ln));
  }

  method Meet(s: Scene, ln: nat, c: Index, w: nat, ghost q: Meeting) returns (U: Vec3, p: real)
    requires ValidScene(s) && q == MeetingOf(s) && GoodLevel(s.g, ln) && w < |s.webs|
    requires c == CellIndex(s.g, ln, s.webs[w].x)
    ensures U == q.velocity(ln, w) && p == q.pressure(ln, w)
  {
    U, p := InterpolateAt(s, ln, c, s.webs[w].x);
    MeetingIs(s, ln, w);
  }

  /** One entry of a cell accumulated. */
  method AddEntry(r: Readings, s: Scene, v: Visit, U: Vec3, p: real, ghost q: Meeting, ghost vs: seq<Visit>)
    returns (r': Readings)
    requires Records(r, q, vs) && q.webs == s.webs && q.norm == s.norm && v.web < |s.webs|
    requires s.webs[v.web].meter < q.meters
    requires U == q.velocity(v.ln, v.web) && p == q.pressure(v.ln, v.web)
    ensures Records(r', q, vs + [v])
  {
    var dA, m := s.webs[v.web].dA, s.webs[v.web].meter;
    r' := Recorded(r, m, U, p, dA, s.norm);
    RecordVisit(r, r', q, vs, v, m, U, p, dA);
  }

  lemma TaggedConcat(ln: nat, a: seq<nat>, b: seq<nat>, vs: seq<Visit>)
    ensures vs + Tagged(ln, a + b) == (vs + Tagged(ln, a)) + Tagged(ln, b)
  {
    assert Tagged(ln, a + b) == Tagged(ln, a) + Tagged(ln, b);
  }

  /** All entries are those of points filed on the level, under the cells that hold them. */
  ghost predicate EntriesOk(s: Scene, ln: nat, es: seq<Entry>) {
    GoodLevel(s.g, ln) && forall k :: 0 <= k < |es| ==>
      es[k].web < |s.webs| && es[k].key == CellIndex(s.g, ln, s.webs[es[k].web].x)
  }

  lemma {:induction false} CellEntries(s: Scene, ln: nat, es: seq<Entry>, c: Index)
    requires EntriesOk(s, ln, es)
    ensures forall k :: 0 <= k < |CellVisits(es, c)| ==>
              CellVisits(es, c)[k] < |s.webs| && c == CellIndex(s.g, ln, s.webs[CellVisits(es, c)[k]].x)
  {
    if es != [] {
      CellEntries(s, ln, es[..|es| - 1], c);
    }
  }

  method ReadCell(r: Readings, s: Scene, ln: nat, es: seq<Entry>, c: Index, ghost q: Meeting, ghost vs: seq<Visit>)
    returns (r': Readings)
    requires ValidScene(s) && q == MeetingOf(s) && EntriesOk(s, ln, es) && Records(r, q, vs)
    ensures Records(r', q, vs + Tagged(ln, CellVisits(es, c)))
  {
    var range := CellVisits(es, c);
    CellEntries(s, ln, es, c);
    r' := r;
    assert vs + Tagged(ln, range[..0]) == vs;
    for k := 0 to |range|
      invariant Records(r', q, vs + Tagged(ln, range[..k]))
    {
      assert range[..k + 1] == range[..k] + [range[k]];
      TaggedConcat(ln, range[..k], [range[k]], vs);
      assert Tagged(ln, [range[k]]) == [Visit(ln, range[k])];
      var U, p := Meet(s, ln, c, range[k], q);
      r' := AddEntry(r', s, Visit(ln, range[k]), U, p, q, vs + Tagged(ln, range[..k]));
    }
    assert range[..|range|] == range;
  }

  method ReadBox(r: Readings, s: Scene, ln: nat, es: seq<Entry>, b: Box, ghost q: Meeting, ghost vs: seq<Visit>,
                 ghost met: seq<nat>) returns (r': Readings)
    requires ValidScene(s) && q == MeetingOf(s) && EntriesOk(s, ln, es) && Records(r, q, vs) && met == BoxVisits(es)(b)
    ensures Records(r', q, vs + Tagged(ln, met))
  {
    var cells := BoxCells(b);
    ghost var part := CellsPart(es, cells);
    r' := r;
    assert vs + Tagged(ln, Concat(part, 0)) == vs;
    for k := 0 to |cells|
      invariant Records(r', q, vs + Tagged(ln, Concat(part, k)))
    {
      TaggedConcat(ln, Concat(part, k), part(k), vs);
      r' := ReadCell(r', s, ln, es, cells[k], q, vs + Tagged(ln, Concat(part, k)));
    }
  }

  /** Part `k` of the visits to a level's patches is what is met in box `k`. */
  ghost predicate PartIs(es: seq<Entry>, boxes: seq<Box>, part: nat -> seq<nat>, k: nat) {
    k < |boxes| && part(k) == BoxVisits(es)(boxes[k])
  }

  lemma PartsAre(es: seq<Entry>, boxes: seq<Box>, part: nat -> seq<nat>)
    requires part == PatchPart(BoxVisits(es), boxes)
    ensures forall k: nat :: k < |boxes| ==> PartIs(es, boxes, part, k)
  {
  }

  ghost predicate Ready(s: Scene, ln: nat, es: seq<Entry>, q: Meeting) {
    ValidScene(s) && q == MeetingOf(s) && EntriesOk(s, ln, es)
  }

  /** The next patch of a level. */
  method ReadNextPatch(r: Readings, s: Scene, ln: nat, es: seq<Entry>, boxes: seq<Box>, k: nat, ghost q: Meeting,
                       ghost vs: seq<Visit>, ghost part: nat -> seq<nat>, ghost before: seq<nat>, ghost met: seq<nat>)
                         returns (r': Readings)
    requires Ready(s, ln, es, q) && PartIs(es, boxes, part, k) && met == part(k)
    requires Records(r, q, vs + Tagged(ln, before))
    ensures Records(r', q, vs + Tagged(ln, before + met))
  {
    r' := ReadBox(r, s, ln, es, boxes[k], q, vs + Tagged(ln, before), met);
    TaggedConcat(ln, before, met, vs);
  }

  method ReadPatches(r: Readings, s: Scene, ln: nat, es: seq<Entry>, boxes: seq<Box>, ghost q: Meeting,
                     ghost vs: seq<Visit>, ghost part: nat -> seq<nat>)
    returns (r': Readings)
    requires Ready(s, ln, es, q) && Records(r, q, vs) && forall k: nat :: k < |boxes| ==> PartIs(es, boxes, part, k)
    ensures Records(r', q, vs + Tagged(ln, Concat(part, |boxes|)))
  {
    r' := r;
    assert vs + Tagged(ln, Concat(part, 0)) == vs;
    for k := 0 to |boxes|
      invariant Records(r', q, vs + Tagged(ln, Concat(part, k)))
    {
      r' := ReadNextPatch(r', s, ln, es, boxes, k, q, vs, part, Concat(part, k), part(k));
    }
  }

  ghost predicate MapOk(s: Scene, m: seq<seq<Entry>>) {
    MapFits(s.g, m) && forall ln :: 0 <= ln < |m| ==> EntriesOk(s, ln, m[ln])
  }

  ghost predicate Scanned(s: Scene, m: seq<seq<Entry>>, q: Meeting, visits: (nat, nat) -> seq<nat>) {
    ValidScene(s) && q == MeetingOf(s) && MapOk(s, m) && visits == LevelVisits(s.g, m)
  }

  /** One level read by one process, given what the process meets there. */
  method ReadLevel(r: Readings, s: Scene, m: seq<seq<Entry>>, p: nat, ln: nat, ghost q: Meeting,
                   ghost visits: (nat, nat) -> seq<nat>, ghost vs: seq<Visit>) returns (r': Readings)
    requires Scanned(s, m, q, visits) && p < s.g.procs && ln < |s.g.levels| && Records(r, q, vs)
    ensures Records(r', q, vs + Tagged(ln, visits(ln, p)))
  {
    var es, boxes := m[ln], s.g.levels[ln].procs[p];
    ghost var part := PatchPart(BoxVisits(es), boxes);
    assert EntriesOk(s, ln, es);
    PartsAre(es, boxes, part);
    r' := ReadPatches(r, s, ln, es, boxes, q, vs, part);
  }

  lemma NextLevel(visits: (nat, nat) -> seq<nat>, p: nat, ln: nat)
    ensures ProcessVisits(visits, p, ln + 1) == ProcessVisits(visits, p, ln) + Tagged(ln, visits(ln, p))
  {
  }

  /** What one process reads on all its levels. */
  method ReadProcess(s: Scene, m: seq<seq<Entry>>, p: nat, ghost q: Meeting, ghost visits: (nat, nat) -> seq<nat>)
    returns (r: Readings)
    requires Scanned(s, m, q, visits) && p < s.g.procs
    ensures Records(r, q, ProcessVisits(visits, p, |s.g.levels|))
  {
    var zeros := seq(s.meters, _ => 0.0);
    r := Readings(zeros, zeros, zeros);
    for ln := 0 to |s.g.levels|
      invariant Records(r, q, ProcessVisits(visits, p, ln))
    {
      r := ReadLevel(r, s, m, p, ln, q, visits, ProcessVisits(visits, p, ln));
      NextLevel(visits, p, ln);
    }
  }

  function AddSeq(a: seq<real>, b: seq<real>): (r: seq<real>)
    requires |a| == |b|
    ensures |r| == |a| && forall k :: 0 <= k < |a| ==> r[k] == a[k] + b[k]
  {
    seq(|a|, k requires 0 <= k < |a| => a[k] + b[k])
  }

  /** The reduction that adds one process's readings to the sum of the others'. */
  method AddReadings(a: Readings, b: Readings, ghost q: Meeting, ghost vs: seq<Visit>, ghost ws: seq<Visit>)
    returns (r: Readings)
    requires Records(a, q, vs) && Records(b, q, ws)
    ensures Records(r, q, vs + ws)
  {
    r := Readings(AddSeq(a.flow, b.flow), AddSeq(a.pressure, b.pressure), AddSeq(a.area, b.area));
    forall k | 0 <= k < q.meters ensures RecordsMeter(r.flow[k], r.pressure[k], r.area[k], q, k, vs + ws) {
      assert RecordsMeter(a.flow[k], a.pressure[k], a.area[k], q, k, vs)
             && RecordsMeter(b.flow[k], b.pressure[k], b.area[k], q, k, ws);
      TotalConcat(FlowOf(q, k), vs, ws);
      TotalConcat(PressureOf(q, k), vs, ws);
      TotalConcat(AreaOf(q, k), vs, ws);
    }
  }

  /** All processes' readings, added up. */
  method ReadAll(s: Scene, m: seq<seq<Entry>>, ghost q: Meeting) returns (r: Readings)
    requires ValidScene(s) && q == MeetingOf(s) && MapOk(s, m)
    ensures Records(r, q, AllVisits(LevelVisits(s.g, m), |s.g.levels|, s.g.procs))
  {
    var zeros := seq(s.meters, _ => 0.0);
    r := Readings(zeros, zeros, zeros);
    ghost var visits := LevelVisits(s.g, m);
    ghost var part := AllPart(visits, |s.g.levels|);
    for p := 0 to s.g.procs
      invariant Records(r, q, Concat(part, p))
    {
      var mine := ReadProcess(s, m, p, q, visits);
      r := AddReadings(r, mine, q, Concat(part, p), part(p));
    }
  }

  lemma {:induction false} FiledKeys(s: Scene, ln: nat, n: nat)
    requires ValidGrid(s.g) && ln < |s.g.levels| && n <= |s.webs|
    ensures EntriesOk(s, ln, Filed(s.g, ln, Points(s.webs), n))
  {
    LevelsGood(s.g, ln);
    if n > 0 {
      FiledKeys(s, ln, n - 1);
    }
  }

  lemma MapIsOk(s: Scene, m: seq<seq<Entry>>)
    requires ValidGrid(s.g) && IsMap(s.g, Points(s.webs), m)
    ensures MapOk(s, m)
  {
    MapFitsGrid(s.g, Points(s.webs), m);
    forall ln | 0 <= ln < |m| ensures EntriesOk(s, ln, m[ln]) {
      FiledKeys(s, ln, |s.webs|);
    }
  }

  lemma RecordsPermuted(r: Readings, q: Meeting, vs: seq<Visit>, ws: seq<Visit>)
    requires Records(r, q, vs) && multiset(vs) == multiset(ws)
    ensures Records(r, q, ws)
  {
    forall k | 0 <= k < q.meters ensures RecordsMeter(r.flow[k], r.pressure[k], r.area[k], q, k, ws) {
      assert RecordsMeter(r.flow[k], r.pressure[k], r.area[k], q, k, vs);
      TotalPermutation(FlowOf(q, k), vs, ws);
      TotalPermutation(PressureOf(q, k), vs, ws);
      TotalPermutation(AreaOf(q, k), vs, ws);
    }
  }

  /** Filing all patches and reading them on all processes counts every patch exactly once. */
  method ReadWebs(s: Scene) returns (r: Readings)
    requires ValidScene(s) && AllHeld(s.g, Points(s.webs))
    ensures Records(r, MeetingOf(s), Canonical(s.g, Points(s.webs)))
  {
    var m := BuildMap(s.g, Points(s.webs));
    MapIsOk(s, m);
    r := ReadAll(s, m, MeetingOf(s));
    VisitsAreCanonical(s.g, Points(s.webs), m);
    RecordsPermuted(r, MeetingOf(s), AllVisits(LevelVisits(s.g, m), |s.g.levels|, s.g.procs),
                    Canonical(s.g, Points(s.webs)));
  }
}
