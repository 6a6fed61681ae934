/** What the flow meters finally report: a meter carried along with a uniform flow reads zero, and the
    mean pressure lies between the bounds of the pressure data. */
module FlowMeters {
  import opened Options
  import opened Vectors
  import opened MeterGeometry
  import opened MeterInterpolation
  import opened MeterIndexing
  import opened MeterVisits
  import opened MeterReading
  import opened MeterPanel

  ghost function CorrectionOf(m: Meter): real
    requires ValidMeter(m)
  {
    Correction(m.velocity, MeterPanel.Mean(m.velocity), m.perimeter, MeterPanel.Mean(m.perimeter), |m.perimeter|)
  }

  ghost function SceneOf(g: Grid, fluid: Fluid, norm: Vec3 -> real, ms: seq<Meter>): Scene
    requires ValidMeters(ms)
  {
    Scene(g, AllWebs(ms, |ms|), fluid, norm, |ms|)
  }

  /** The visits that are counted: every patch of every meter, once. */
  ghost function CountedVisits(s: Scene): seq<Visit>
    requires ValidGrid(s.g)
  {
    Canonical(s.g, Points(s.webs))
  }

  /** Level zero holds the centres of all patches, as it does when the meters lie in the domain. */
  ghost predicate PatchesHeld(g: Grid, ms: seq<Meter>)
    requires ValidGrid(g) && ValidMeters(ms)
  {
    AllHeld(g, Points(AllWebs(ms, |ms|)))
  }

  /** The code divides by the squared area of every patch, so a meter with patches has no degenerate wedge. */
  ghost predicate MetersSpread(ms: seq<Meter>)
    requires ValidMeters(ms)
  {
    forall k :: 0 <= k < |ms| && ms[k].size > 0 ==>
      ms[k].perimeter != [] && Spread(ms[k].perimeter, MeterPanel.Mean(ms[k].perimeter))
  }

  /** readInstrumentData: flow through each meter relative to its own motion, and mean pressure if it has an area. */
  method ReadInstrumentData(g: Grid, fluid: Fluid, norm: Vec3 -> real, ms: seq<Meter>)
    returns (flow: seq<real>, mean: seq<Option<real>>)
    requires ValidGrid(g) && ValidMeters(ms)
    requires MetersSpread(ms) && PatchesHeld(g, ms)
    ensures |flow| == |mean| == |ms|
    ensures forall k :: 0 <= k < |ms| ==> ReadsMeter(flow[k], mean[k], SceneOf(g, fluid, norm, ms), ms, k)
  {
    var webs := BuildWebs(ms);
    AllOwners(ms, |ms|);
    var s := Scene(g, webs, fluid, norm, |ms|);
    var r := ReadWebs(s);
    flow, mean := [], [];
    for k := 0 to |ms|
      invariant |flow| == |mean| == k
      invariant forall j :: 0 <= j < k ==> ReadsMeter(flow[j], mean[j], s, ms, j)
    {
      assert RecordsMeter(r.flow[k], r.pressure[k], r.area[k], MeetingOf(s), k, CountedVisits(s));
      var f, p := FinishMeter(s, ms, k, r.flow[k], r.pressure[k], r.area[k]);
      flow, mean := flow + [f], mean + [p];
    }
  }

  /** Normalises the mean pressure of one meter and corrects its flow for the meter's motion. */
  method FinishMeter(ghost s: Scene, ms: seq<Meter>, k: nat, flux: real, pressure: real, area: real)
    returns (flow: real, mean: Option<real>)
    requires ValidGrid(s.g) && ValidMeters(ms) && k < |ms|
    requires RecordsMeter(flux, pressure, area, MeetingOf(s), k, CountedVisits(s))
    ensures ReadsMeter(flow, mean, s, ms, k)
  {
    assert ValidMeter(ms[k]);
    mean := if area == 0.0 then None else Some(pressure / area);
    var c := Centroid(ms[k].perimeter);
    var uc := Centroid(ms[k].velocity);
    var correction := ComputeFlowCorrection(ms[k].velocity, uc, ms[k].perimeter, c);
    flow := flux - correction;
  }

  ghost predicate ReadsMeter(flow: real, mean: Option<real>, s: Scene, ms: seq<Meter>, k: nat)
    requires ValidGrid(s.g) && ValidMeters(ms) && k < |ms|
  {
    var q, vs := MeetingOf(s), CountedVisits(s);
    assert ValidMeter(ms[k]);
    && flow == Total(FlowOf(q, k), vs) - CorrectionOf(ms[k])
    && mean == (if Total(AreaOf(q, k), vs) == 0.0 then None
                else Some(Total(PressureOf(q, k), vs) / Total(AreaOf(q, k), vs)))
  }

  // -------------------------------------------------------- uniform motion

  /** The fluid moves with velocity `u0` everywhere on every level. */
  ghost predicate UniformFlow(f: Fluid, u0: Vec3) {
    forall ln: nat, i: Index :: f.u(ln, 0)(i) == u0.x && f.u(ln, 1)(i) == u0.y && f.u(ln, 2)(i) == u0.z
  }

  lemma VelocityUniform(g: Grid, f: Fluid, ln: nat, X: Vec3, u0: Vec3)
    requires ValidGrid(g) && ln < |g.levels| && UniformFlow(f, u0)
    ensures VelocityAt(g, f, ln, X) == u0
  {
    LevelsGood(g, ln);
    PointInLevelCell(g, ln, X);
    var c := CellIndex(g, ln, X);
    InterpolantConstant(X, c, CellCentre(g, ln, c), LevelSpacing(g, ln), CentringOf(f, 0), f.u(ln, 0), u0.x);
    InterpolantConstant(X, c, CellCentre(g, ln, c), LevelSpacing(g, ln), CentringOf(f, 1), f.u(ln, 1), u0.y);
    InterpolantConstant(X, c, CellCentre(g, ln, c), LevelSpacing(g, ln), CentringOf(f, 2), f.u(ln, 2), u0.z);
  }

  /** Each patch is met once, with its own number and one velocity. */
  ghost predicate MetInOrder(vs: seq<Visit>, q: Meeting, u0: Vec3) {
    |vs| == |q.webs| && forall w :: 0 <= w < |vs| ==> vs[w].web == w && q.velocity(vs[w].ln, w) == u0
  }

  lemma {:induction false} UniformTotal(q: Meeting, vs: seq<Visit>, u0: Vec3, k: nat, n: nat)
    requires MetInOrder(vs, q, u0) && n <= |vs|
    ensures Total(FlowOf(q, k), vs[..n]) == Dot(u0, AreaSum(q.webs[..n], k))
  {
    if n == 0 {
      DotZero(u0);
    } else {
      UniformTotal(q, vs, u0, k, n - 1);
      assert vs[..n] == vs[..n - 1] + [vs[n - 1]] && q.webs[..n][..n - 1] == q.webs[..n - 1];
      TotalOne(FlowOf(q, k), vs[..n - 1], vs[n - 1]);
      DotLinear(1.0, AreaSum(q.webs[..n - 1], k), q.webs[n - 1].dA, u0);
    }
  }

  lemma UniformMeeting(s: Scene, u0: Vec3)
    requires ValidGrid(s.g) && UniformFlow(s.fluid, u0)
    ensures MetInOrder(CountedVisits(s), MeetingOf(s), u0)
  {
    var vs, q := CountedVisits(s), MeetingOf(s);
    forall w | 0 <= w < |vs| ensures vs[w].web == w && q.velocity(vs[w].ln, w) == u0 {
      MeetingIs(s, vs[w].ln, w);
      VelocityUniform(s.g, s.fluid, vs[w].ln, s.webs[w].x, u0);
    }
  }

  /** A meter whose perimeter moves with velocity `u0` in a fluid of uniform velocity `u0` reads exactly
      zero, wherever it lies in the hierarchy and however it is shaped and distributed. */
  lemma CarriedMeterReadsZero(g: Grid, fluid: Fluid, norm: Vec3 -> real, ms: seq<Meter>, k: nat, u0: Vec3, flow: real,
                              mean: Option<real>)
    requires ValidGrid(g) && ValidMeters(ms) && k < |ms| && UniformFlow(fluid, u0)
    requires forall n :: 0 <= n < |ms[k].velocity| ==> ms[k].velocity[n] == u0
    requires ReadsMeter(flow, mean, SceneOf(g, fluid, norm, ms), ms, k)
    ensures flow == 0.0
  {
    var s, m := SceneOf(g, fluid, norm, ms), ms[k];
    assert ValidMeter(m);
    var q, vs := MeetingOf(s), CountedVisits(s);
    UniformMeeting(s, u0);
    UniformTotal(q, vs, u0, k, |vs|);
    assert vs[..|vs|] == vs && q.webs[..|vs|] == s.webs;
    AllSum(ms, |ms|, k, FullArea(m));
    ConstantMean(m.velocity, u0);
    UniformCorrection(m.velocity, u0, m.perimeter, MeterPanel.Mean(m.perimeter), |m.perimeter|);
  }

  // ---------------------------------------------------------- total area

  /** The area of the first `n` patches that belong to a meter. */
  ghost function PatchAreas(webs: seq<Web>, norm: Vec3 -> real, k: nat, n: nat): real
    requires n <= |webs|
  {
    if n == 0 then 0.0
    else PatchAreas(webs, norm, k, n - 1) + (if webs[n - 1].meter == k then norm(webs[n - 1].dA) else 0.0)
  }

  lemma {:induction false} AreasInOrder(q: Meeting, vs: seq<Visit>, k: nat, n: nat)
    requires |vs| == |q.webs| && (forall w :: 0 <= w < |vs| ==> vs[w].web == w) && n <= |vs|
    ensures Total(AreaOf(q, k), vs[..n]) == PatchAreas(q.webs, q.norm, k, n)
  {
    if n == 0 {
      assert vs[..n] == [];
    } else {
      AreasInOrder(q, vs, k, n - 1);
      var v := vs[n - 1];
      assert vs[..n] == vs[..n - 1] + [v];
      TotalOne(AreaOf(q, k), vs[..n - 1], v);
      assert v.web == n - 1;
      assert Counts(q, v, k) <==> q.webs[n - 1].meter == k;
    }
  }

  /** The area a meter's mean pressure is divided by is that of all its patches, none left out or met twice. */
  lemma AreaIsPatchArea(s: Scene, k: nat)
    requires ValidGrid(s.g)
    ensures Total(AreaOf(MeetingOf(s), k), CountedVisits(s)) == PatchAreas(s.webs, s.norm, k, |s.webs|)
  {
    var q, vs := MeetingOf(s), CountedVisits(s);
    AreasInOrder(q, vs, k, |vs|);
    assert vs[..|vs|] == vs && q.webs == s.webs && q.norm == s.norm;
  }

  // --------------------------------------------------------- mean pressure

  ghost predicate PressureBetween(f: Fluid, lo: real, hi: real) {
    forall ln: nat, i: Index :: lo <= f.p(ln)(i) <= hi
  }

  lemma PressureAtBetween(g: Grid, f: Fluid, ln: nat, X: Vec3, lo: real, hi: real)
    requires ValidGrid(g) && ln < |g.levels| && PressureBetween(f, lo, hi)
    ensures lo <= PressureAt(g, f, ln, X) <= hi
  {
    LevelsGood(g, ln);
    PointInLevelCell(g, ln, X);
    var c := CellIndex(g, ln, X);
    InterpolantBetween(X, c, CellCentre(g, ln, c), LevelSpacing(g, ln), Cells, f.p(ln), lo, hi);
  }

  /** Visit `j` is to one of the meter's own patches. */
  ghost predicate Own(q: Meeting, vs: seq<Visit>, k: nat, j: nat) {
    j < |vs| && Counts(q, vs[j], k)
  }

  ghost function PressureMet(q: Meeting, vs: seq<Visit>, j: nat): real
    requires j < |vs|
  {
    q.pressure(vs[j].ln, vs[j].web)
  }

  /** Every pressure met at the meter's own patches lies between the bounds. */
  ghost predicate MeetsBetween(q: Meeting, vs: seq<Visit>, k: nat, lo: real, hi: real) {
    forall j: nat :: Own(q, vs, k, j) ==> lo <= PressureMet(q, vs, j) <= hi
  }

  ghost predicate AreasNonNegative(q: Meeting) {
    forall v :: q.norm(v) >= 0.0
  }

  /** A weighted value lies between the bounds of its weight. */
  ghost predicate WeightedBetween(p: real, a: real, lo: real, hi: real) {
    a >= 0.0 && lo * a <= p <= hi * a
  }

  lemma WeightedSum(p: real, a: real, p': real, a': real, lo: real, hi: real)
    requires WeightedBetween(p, a, lo, hi) && WeightedBetween(p', a', lo, hi)
    ensures WeightedBetween(p + p', a + a', lo, hi)
  {
    assert lo * (a + a') == lo * a + lo * a' && hi * (a + a') == hi * a + hi * a';
  }

  lemma Weighed(p: real, a: real, lo: real, hi: real)
    requires a >= 0.0 && lo <= p <= hi
    ensures WeightedBetween(p * a, a, lo, hi)
  {
    NonNegative(p - lo, a);
    NonNegative(hi - p, a);
  }

  lemma {:induction false} TotalsBetween(f: Visit -> real, area: Visit -> real, vs: seq<Visit>, lo: real, hi: real)
    requires forall j :: 0 <= j < |vs| ==> WeightedBetween(f(vs[j]), area(vs[j]), lo, hi)
    ensures WeightedBetween(Total(f, vs), Total(area, vs), lo, hi)
  {
    if vs != [] {
      var rest, v := vs[..|vs| - 1], vs[|vs| - 1];
      TotalsBetween(f, area, rest, lo, hi);
      WeightedSum(Total(f, rest), Total(area, rest), f(v), area(v), lo, hi);
    }
  }

  lemma TotalBetween(q: Meeting, vs: seq<Visit>, k: nat, lo: real, hi: real)
    requires AreasNonNegative(q) && MeetsBetween(q, vs, k, lo, hi)
    ensures WeightedBetween(Total(PressureOf(q, k), vs), Total(AreaOf(q, k), vs), lo, hi)
  {
    forall j: nat | j < |vs| ensures WeightedBetween(PressureOf(q, k)(vs[j]), AreaOf(q, k)(vs[j]), lo, hi) {
      if Own(q, vs, k, j) {
        Weighed(PressureMet(q, vs, j), q.norm(q.webs[vs[j].web].dA), lo, hi);
      }
    }
    TotalsBetween(PressureOf(q, k), AreaOf(q, k), vs, lo, hi);
  }

  /** The mean pressure of a meter lies between any bounds of the pressures met at its own patches. */
  lemma MeanBetweenMet(s: Scene, ms: seq<Meter>, k: nat, lo: real, hi: real, flow: real, mean: Option<real>)
    requires ValidGrid(s.g) && ValidMeters(ms) && k < |ms| && IsNorm(s.norm) && ReadsMeter(flow, mean, s, ms, k)
    requires MeetsBetween(MeetingOf(s), CountedVisits(s), k, lo, hi)
    ensures mean.Some? ==> lo <= mean.value <= hi
  {
    var q, vs := MeetingOf(s), CountedVisits(s);
    NormsNonNegative(s.norm);
    TotalBetween(q, vs, k, lo, hi);
    if mean.Some? {
      QuotientBetween(Total(PressureOf(q, k), vs), Total(AreaOf(q, k), vs), lo, hi);
    }
  }

  lemma {:induction false} NoOwnVisits(q: Meeting, vs: seq<Visit>, k: nat)
    requires forall j: nat :: !Own(q, vs, k, j)
    ensures Total(AreaOf(q, k), vs) == 0.0
  {
    if vs != [] {
      var rest := vs[..|vs| - 1];
      assert !Own(q, vs, k, |vs| - 1);
      forall j: nat
        ensures !Own(q, rest, k, j)
      {
        assert !Own(q, vs, k, j);
      }
      NoOwnVisits(q, rest, k);
    }
  }

  /** An own visit with the least, and one with the greatest pressure among the first `n`. */
  lemma {:induction false} Extremes(q: Meeting, vs: seq<Visit>, k: nat, n: nat, start: nat) returns (i: nat, j: nat)
    requires n <= |vs| && Own(q, vs, k, start)
    ensures Own(q, vs, k, i) && Own(q, vs, k, j)
    ensures PressureMet(q, vs, i) <= PressureMet(q, vs, start) <= PressureMet(q, vs, j)
    ensures forall m: nat :: m < n && Own(q, vs, k, m) ==>
            PressureMet(q, vs, i) <= PressureMet(q, vs, m) <= PressureMet(q, vs, j)
  {
    if n == 0 {
      i, j := start, start;
    } else {
      i, j := Extremes(q, vs, k, n - 1, start);
      if Own(q, vs, k, n - 1) {
        if PressureMet(q, vs, n - 1) < PressureMet(q, vs, i) {
          i := n - 1;
        }
        if PressureMet(q, vs, n - 1) > PressureMet(q, vs, j) {
          j := n - 1;
        }
      }
    }
  }

  /** The mean pressure lies between the least and the greatest pressure interpolated at the meter's own patches:
      one of them is met with no more, and one with no less. */
  lemma MeanBetweenOwnPatches(s: Scene, ms: seq<Meter>, k: nat, flow: real, mean: Option<real>)
    requires ValidGrid(s.g) && ValidMeters(ms) && k < |ms| && IsNorm(s.norm) && ReadsMeter(flow, mean, s, ms, k)
    requires mean.Some?
    ensures var q, vs := MeetingOf(s), CountedVisits(s);
            exists i: nat, j: nat ::
              Own(q, vs, k, i) && Own(q, vs, k, j) && PressureMet(q, vs, i) <= mean.value <= PressureMet(q, vs, j)
  {
    var q, vs := MeetingOf(s), CountedVisits(s);
    if forall j: nat :: !Own(q, vs, k, j) {
      NoOwnVisits(q, vs, k);
      assert false;
    } else {
      var start: nat :| Own(q, vs, k, start);
      var i, j := Extremes(q, vs, k, |vs|, start);
      MeanBetweenMet(s, ms, k, PressureMet(q, vs, i), PressureMet(q, vs, j), flow, mean);
    }
  }

  /** In particular it lies between any bounds of the pressure data. */
  lemma MeanPressureBetween(g: Grid, fluid: Fluid, norm: Vec3 -> real, ms: seq<Meter>, k: nat, lo: real, hi: real,
                            flow: real, mean: Option<real>)
    requires ValidGrid(g) && ValidMeters(ms) && k < |ms| && IsNorm(norm) && PressureBetween(fluid, lo, hi)
    requires ReadsMeter(flow, mean, SceneOf(g, fluid, norm, ms), ms, k)
    ensures mean.Some? ==> lo <= mean.value <= hi
  {
    var s := SceneOf(g, fluid, norm, ms);
    MeetingBetween(s, MeetingOf(s), CountedVisits(s), k, lo, hi);
    MeanBetweenMet(s, ms, k, lo, hi, flow, mean);
  }

  lemma MeetingBetween(s: Scene, q: Meeting, vs: seq<Visit>, k: nat, lo: real, hi: real)
    requires ValidGrid(s.g) && PressureBetween(s.fluid, lo, hi) && q == MeetingOf(s) && vs == CountedVisits(s)
    ensures MeetsBetween(q, vs, k, lo, hi)
  {
    forall j: nat | Own(q, vs, k, j) ensures lo <= PressureMet(q, vs, j) <= hi {
      MeetingIs(s, vs[j].ln, j);
      PressureAtBetween(s.g, s.fluid, vs[j].ln, s.webs[j].x, lo, hi);
    }
  }

  lemma NormsNonNegative(norm: Vec3 -> real)
    requires IsNorm(norm)
    ensures forall v :: norm(v) >= 0.0
  {
  }
}
