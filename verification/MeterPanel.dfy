/** The instrument panel as a whole: centroids, web sizes, the webs of all meters, and what the
    readings mean for a meter carried along by the fluid and for the mean pressure. */
module MeterPanel {
  import opened Vectors
  import opened MeterGeometry
  import opened MeterInterpolation
  import opened MeterReading

  /** The perimeter nodes of a meter with their velocities, and the number of patches along each ray. */
  datatype Meter = Meter(perimeter: seq<Vec3>, velocity: seq<Vec3>, size: nat)

  function SumUpto(vs: seq<Vec3>, n: nat): Vec3
    requires n <= |vs|
  {
    if n == 0 then ZERO else Add(SumUpto(vs, n - 1), vs[n - 1])
  }

  /** The mean of the perimeter, for positions and velocities alike. */
  function Mean(vs: seq<Vec3>): Vec3
    requires vs != []
  {
    Divide(SumUpto(vs, |vs|), |vs| as real)
  }

  method Centroid(vs: seq<Vec3>) returns (c: Vec3)
    requires vs != []
    ensures c == Mean(vs)
  {
    c := ZERO;
    for n := 0 to |vs|
      invariant c == SumUpto(vs, n)
    {
      c := Add(c, vs[n]);
    }
    c := Divide(c, |vs| as real);
  }

  lemma {:induction false} ConstantSum(vs: seq<Vec3>, u: Vec3, n: nat)
    requires n <= |vs| && forall k :: 0 <= k < |vs| ==> vs[k] == u
    ensures SumUpto(vs, n) == Scale(n as real, u)
  {
    if n > 0 {
      ConstantSum(vs, u, n - 1);
      OneMoreTime(n as real, u);
    }
  }

  lemma OneMoreTime(n: real, u: Vec3)
    ensures Add(Scale(n - 1.0, u), u) == Scale(n, u)
  {
  }

  lemma ConstantMean(vs: seq<Vec3>, u: Vec3)
    requires vs != [] && forall k :: 0 <= k < |vs| ==> vs[k] == u
    ensures Mean(vs) == u
  {
    ConstantSum(vs, u, |vs|);
    var n := |vs| as real;
    ScaledBack(n, u.x);
    ScaledBack(n, u.y);
    ScaledBack(n, u.z);
  }

  lemma ScaledBack(n: real, x: real)
    requires n != 0.0
    ensures (n * x) / n == x
  {
    QuotientTimes(n * x, n, (n * x) / n);
    Same((n * x) / n, x, n);
  }

  // --------------------------------------------------------------- web size

  function Ceiling(x: real): int {
    -((-x).Floor)
  }

  method MaxDistance(p: seq<Vec3>, c: Vec3, norm: Vec3 -> real) returns (rMax: real)
    ensures rMax >= 0.0 && forall k :: 0 <= k < |p| ==> norm(Sub(p[k], c)) <= rMax
    ensures rMax > 0.0 ==> exists k :: 0 <= k < |p| && norm(Sub(p[k], c)) == rMax
  {
    rMax := 0.0;
    for n := 0 to |p|
      invariant rMax >= 0.0 && forall k :: 0 <= k < n ==> norm(Sub(p[k], c)) <= rMax
      invariant rMax > 0.0 ==> exists k :: 0 <= k < n && norm(Sub(p[k], c)) == rMax
    {
      var r := norm(Sub(p[n], c));
      if r > rMax {
        rMax := r;
      }
    }
  }

  method SizeFor(rMax: real, h: real) returns (size: nat)
    requires h > 0.0 && rMax >= 0.0
    ensures rMax <= size as real * (0.5 * h)
    ensures size == 0 <==> rMax == 0.0
  {
    QuotientSign(rMax, h);
    var q := rMax / h;
    QuotientTimes(rMax, h, q);
    size := 2 * Ceiling(q);
    WideEnough(q, h, rMax, size);
  }

  /** The number of patches along a ray: twice the largest distance to the centroid in finest cells, rounded up. */
  method WebSize(p: seq<Vec3>, c: Vec3, h: real, norm: Vec3 -> real) returns (size: nat)
    requires h > 0.0 && IsNorm(norm)
    ensures forall n :: 0 <= n < |p| ==> norm(Sub(p[n], c)) <= size as real * (0.5 * h)
    ensures size == 0 <==> forall n :: 0 <= n < |p| ==> p[n] == c
  {
    var rMax := MaxDistance(p, c, norm);
    size := SizeFor(rMax, h);
    ZeroSize(p, c, norm, rMax, size);
  }

  lemma ZeroSize(p: seq<Vec3>, c: Vec3, norm: Vec3 -> real, rMax: real, size: nat)
    requires IsNorm(norm) && (size == 0 <==> rMax == 0.0) && rMax >= 0.0 && forall k :: 0 <= k < |p| ==>
             norm(Sub(p[k], c)) <= rMax
    requires rMax > 0.0 ==> exists k :: 0 <= k < |p| && norm(Sub(p[k], c)) == rMax
    ensures size == 0 <==> forall n :: 0 <= n < |p| ==> p[n] == c
  {
    if size == 0 {
      forall n | 0 <= n < |p| ensures p[n] == c {
        NoLength(norm, Sub(p[n], c));
        Coincide(p[n], c);
      }
    } else {
      var k :| 0 <= k < |p| && norm(Sub(p[k], c)) == rMax;
      if p[k] == c {
        ZeroNorm(norm, Sub(p[k], c));
        assert false;
      }
    }
  }

  lemma WideEnough(q: real, h: real, r: real, size: nat)
    requires h > 0.0 && q >= 0.0 && q * h == r && size == 2 * Ceiling(q)
    ensures r <= size as real * (0.5 * h)
    ensures size == 0 <==> r == 0.0
  {
    var c := Ceiling(q);
    NonNegative(c as real - q, h);
    assert (c as real - q) * h == c as real * h - r;
    assert size as real * (0.5 * h) == c as real * h;
    if q > 0.0 {
      ProductPositive(q, h, r);
    }
  }

  lemma SumOfSquares(a: real, b: real, c: real, s: real)
    requires s == a * a + b * b + c * c && s == 0.0
    ensures a == 0.0 && b == 0.0 && c == 0.0
  {
    var x := SquareOf(a);
    var y := SquareOf(b);
    var z := SquareOf(c);
    assert x + y + z == s;
  }

  lemma NoLength(norm: Vec3 -> real, v: Vec3)
    requires IsNorm(norm) && norm(v) <= 0.0
    ensures v == ZERO
  {
    assert norm(v) == 0.0;
    SumOfSquares(v.x, v.y, v.z, Dot(v, v));
  }

  lemma ZeroNorm(norm: Vec3 -> real, v: Vec3)
    requires IsNorm(norm) && v == ZERO
    ensures norm(v) == 0.0
  {
    var n := norm(v);
    if n > 0.0 {
      ProductPositive(n, n, n * n);
      assert false;
    }
  }

  lemma Coincide(a: Vec3, b: Vec3)
    requires Sub(a, b) == ZERO
    ensures a == b
  {
  }

  // ------------------------------------------------------------------- webs

  /** The patches of one row of a web, and of the first `m` rows. */
  function RowWebs(patch: (nat, nat) -> Web, m: nat, n: nat): seq<Web> {
    if n == 0 then [] else RowWebs(patch, m, n - 1) + [patch(m, n - 1)]
  }

  function GridWebs(patch: (nat, nat) -> Web, m: nat, N: nat): seq<Web> {
    if m == 0 then [] else GridWebs(patch, m - 1, N) + RowWebs(patch, m - 1, N)
  }

  function PatchesOf(k: nat, p: seq<Vec3>, c: Vec3, N: nat): (nat, nat) -> Web {
    (m: nat, n: nat) => if m < |p| && n < N
                        then Web(k, PatchMiddle(p[m], p[Next(m, |p|)], c, n, N),
                                 PatchArea(p[m], p[Next(m, |p|)], c, n, N))
                        else Web(k, ZERO, ZERO)
  }

  ghost predicate ValidMeter(m: Meter) {
    && m.perimeter != [] && |m.velocity| == |m.perimeter|
    && (m.size == 0 ==> forall n :: 0 <= n < |m.perimeter| ==> m.perimeter[n] == Mean(m.perimeter))
  }

  ghost predicate ValidMeters(ms: seq<Meter>) {
    forall k :: 0 <= k < |ms| ==> ValidMeter(ms[k])
  }

  ghost function WebsOf(k: nat, m: Meter): seq<Web>
    requires ValidMeter(m)
  {
    GridWebs(PatchesOf(k, m.perimeter, Mean(m.perimeter), m.size), |m.perimeter|, m.size)
  }

  ghost function AllWebs(ms: seq<Meter>, k: nat): seq<Web>
    requires ValidMeters(ms) && k <= |ms|
  {
    if k == 0 then []
    else
      assert ValidMeter(ms[k - 1]);
      AllWebs(ms, k - 1) + WebsOf(k - 1, ms[k - 1])
  }

  method CollectWebs(k: nat, xWeb: array2<Vec3>, dAWeb: array2<Vec3>, ghost patch: (nat, nat) -> Web)
    returns (webs: seq<Web>)
    requires xWeb.Length0 == dAWeb.Length0 && xWeb.Length1 == dAWeb.Length1
    requires forall m, n :: 0 <= m < xWeb.Length0 && 0 <= n < xWeb.Length1 ==>
             patch(m, n) == Web(k, xWeb[m, n], dAWeb[m, n])
    ensures webs == GridWebs(patch, xWeb.Length0, xWeb.Length1)
  {
    webs := [];
    for m := 0 to xWeb.Length0
      invariant webs == GridWebs(patch, m, xWeb.Length1)
    {
      var row := [];
      for n := 0 to xWeb.Length1
        invariant row == RowWebs(patch, m, n)
      {
        row := row + [Web(k, xWeb[m, n], dAWeb[m, n])];
      }
      webs := webs + row;
    }
  }

  method BuildMeterWebs(k: nat, p: seq<Vec3>, c: Vec3, N: nat) returns (webs: seq<Web>)
    requires N > 0 ==> Spread(p, c)
    ensures webs == GridWebs(PatchesOf(k, p, c, N), |p|, N)
  {
    var xWeb, dAWeb := new Vec3[|p|, N]((_, _) => ZERO), new Vec3[|p|, N]((_, _) => ZERO);
    InitMeterElements(xWeb, dAWeb, p, c);
    webs := CollectWebs(k, xWeb, dAWeb, PatchesOf(k, p, c, N));
  }

  method BuildWebs(ms: seq<Meter>) returns (webs: seq<Web>)
    requires ValidMeters(ms)
    requires forall k :: 0 <= k < |ms| && ms[k].size > 0 ==>
             ms[k].perimeter != [] && Spread(ms[k].perimeter, Mean(ms[k].perimeter))
    ensures webs == AllWebs(ms, |ms|)
  {
    webs := [];
    for k := 0 to |ms|
      invariant webs == AllWebs(ms, k)
    {
      assert ValidMeter(ms[k]);
      var c := Centroid(ms[k].perimeter);
      var mine := BuildMeterWebs(k, ms[k].perimeter, c, ms[k].size);
      webs := webs + mine;
    }
  }

  /** The sum of the area vectors of a meter's patches. */
  function AreaSum(webs: seq<Web>, k: nat): Vec3 {
    if webs == [] then ZERO
    else
      var rest, last := AreaSum(webs[..|webs| - 1], k), webs[|webs| - 1];
      if last.meter == k then Add(rest, last.dA) else rest
  }

  lemma {:induction false} AreaConcat(a: seq<Web>, b: seq<Web>, k: nat)
    ensures AreaSum(a + b, k) == Add(AreaSum(a, k), AreaSum(b, k))
  {
    if b == [] {
      assert a + b == a;
      AddZero(AreaSum(a, k));
    } else {
      assert (a + b)[..|a + b| - 1] == a + b[..|b| - 1];
      AreaConcat(a, b[..|b| - 1], k);
      AddAssociative(AreaSum(a, k), AreaSum(b[..|b| - 1], k), b[|b| - 1].dA);
    }
  }

  lemma {:induction false} RowSum(patch: (nat, nat) -> Web, m: nat, k: nat, p0: Vec3, p1: Vec3, c: Vec3, n: nat, N: nat,
                                  j: nat)
    requires n <= N && 0 < N
    requires forall i: nat :: i < n ==> patch(m, i).meter == k && patch(m, i).dA == PatchArea(p0, p1, c, i, N)
    ensures AreaSum(RowWebs(patch, m, n), j) == if j == k then WedgeArea(p0, p1, c, n, N) else ZERO
  {
    if n > 0 {
      RowSum(patch, m, k, p0, p1, c, n - 1, N, j);
      var webs := RowWebs(patch, m, n);
      assert webs[..|webs| - 1] == RowWebs(patch, m, n - 1) && webs[|webs| - 1] == patch(m, n - 1);
    }
  }

  lemma RowIsTriangle(k: nat, p: seq<Vec3>, c: Vec3, m: nat, N: nat, j: nat, patch: (nat, nat) -> Web)
    requires m < |p| && 0 < N && patch == PatchesOf(k, p, c, N)
    ensures AreaSum(RowWebs(patch, m, N), j) == if j == k then Triangle(p[m], p[Next(m, |p|)], c) else ZERO
  {
    RowSum(patch, m, k, p[m], p[Next(m, |p|)], c, N, N, j);
    WedgeIsTriangle(p[m], p[Next(m, |p|)], c, N);
  }

  lemma {:induction false} GridSum(k: nat, p: seq<Vec3>, c: Vec3, m: nat, N: nat, j: nat, patch: (nat, nat) -> Web)
    requires m <= |p| && forall i: nat :: i < m ==>
             AreaSum(RowWebs(patch, i, N), j) == if j == k then Triangle(p[i], p[Next(i, |p|)], c) else ZERO
    ensures AreaSum(GridWebs(patch, m, N), j) == if j == k then MeterArea(p, c, m) else ZERO
  {
    if m > 0 {
      GridSum(k, p, c, m - 1, N, j, patch);
      AreaConcat(GridWebs(patch, m - 1, N), RowWebs(patch, m - 1, N), j);
      AddZero(ZERO);
    }
  }

  lemma MeterSum(k: nat, p: seq<Vec3>, c: Vec3, N: nat, j: nat)
    requires 0 < N
    ensures AreaSum(GridWebs(PatchesOf(k, p, c, N), |p|, N), j) == if j == k then MeterArea(p, c, |p|) else ZERO
  {
    var patch := PatchesOf(k, p, c, N);
    forall i: nat | i < |p|
      ensures AreaSum(RowWebs(patch, i, N), j) == if j == k then Triangle(p[i], p[Next(i, |p|)], c) else ZERO
    {
      RowIsTriangle(k, p, c, i, N, j, patch);
    }
    GridSum(k, p, c, |p|, N, j, patch);
  }

  lemma {:induction false} NoWebs(patch: (nat, nat) -> Web, m: nat)
    ensures GridWebs(patch, m, 0) == []
  {
    if m > 0 {
      NoWebs(patch, m - 1);
    }
  }

  lemma {:induction false} FlatArea(p: seq<Vec3>, c: Vec3, m: nat)
    requires m <= |p| && forall k: nat :: k < |p| ==> Triangle(p[k], p[Next(k, |p|)], c) == ZERO
    ensures MeterArea(p, c, m) == ZERO
  {
    if m > 0 {
      FlatArea(p, c, m - 1);
      assert Triangle(p[m - 1], p[Next(m - 1, |p|)], c) == ZERO;
      AddZero(ZERO);
    }
  }

  lemma CollapsedArea(p: seq<Vec3>, c: Vec3)
    requires forall n :: 0 <= n < |p| ==> p[n] == c
    ensures MeterArea(p, c, |p|) == ZERO
  {
    forall k: nat | k < |p| ensures Triangle(p[k], p[Next(k, |p|)], c) == ZERO {
      Collapsed(p[k], p[Next(k, |p|)], c);
    }
    FlatArea(p, c, |p|);
  }

  lemma Collapsed(a: Vec3, b: Vec3, c: Vec3)
    requires a == c && b == c
    ensures Triangle(a, b, c) == ZERO
  {
  }

  /** A meter's patches carry exactly the area vector of its triangles, also when there are none. */
  lemma OneMeterSum(k: nat, m: Meter, j: nat)
    requires ValidMeter(m)
    ensures AreaSum(WebsOf(k, m), j) == if j == k then FullArea(m) else ZERO
  {
    var c := Mean(m.perimeter);
    if m.size == 0 {
      NoWebs(PatchesOf(k, m.perimeter, c, 0), |m.perimeter|);
      CollapsedArea(m.perimeter, c);
    } else {
      MeterSum(k, m.perimeter, c, m.size, j);
    }
  }

  ghost function FullArea(m: Meter): Vec3
    requires ValidMeter(m)
  {
    MeterArea(m.perimeter, Mean(m.perimeter), |m.perimeter|)
  }

  lemma {:induction false} AllSum(ms: seq<Meter>, n: nat, j: nat, area: Vec3)
    requires ValidMeters(ms) && n <= |ms| && j < |ms| && ValidMeter(ms[j]) && area == FullArea(ms[j])
    ensures AreaSum(AllWebs(ms, n), j) == if j < n then area else ZERO
  {
    if n > 0 {
      assert ValidMeter(ms[n - 1]);
      AllSum(ms, n - 1, j, area);
      OneMeterSum(n - 1, ms[n - 1], j);
      AreaConcat(AllWebs(ms, n - 1), WebsOf(n - 1, ms[n - 1]), j);
      AddZero(if j < n - 1 then area else ZERO);
      AddZero(area);
    }
  }

  lemma {:induction false} RowOwners(patch: (nat, nat) -> Web, m: nat, n: nat, k: nat)
    requires forall i: nat, j: nat :: patch(i, j).meter == k
    ensures forall w :: 0 <= w < |RowWebs(patch, m, n)| ==> RowWebs(patch, m, n)[w].meter == k
  {
    if n > 0 {
      RowOwners(patch, m, n - 1, k);
    }
  }

  lemma {:induction false} GridOwners(patch: (nat, nat) -> Web, m: nat, N: nat, k: nat)
    requires forall i: nat, j: nat :: patch(i, j).meter == k
    ensures forall w :: 0 <= w < |GridWebs(patch, m, N)| ==> GridWebs(patch, m, N)[w].meter == k
  {
    if m > 0 {
      GridOwners(patch, m - 1, N, k);
      RowOwners(patch, m - 1, N, k);
    }
  }

  lemma {:induction false} AllOwners(ms: seq<Meter>, n: nat)
    requires ValidMeters(ms) && n <= |ms|
    ensures forall w :: 0 <= w < |AllWebs(ms, n)| ==> AllWebs(ms, n)[w].meter < n
  {
    if n > 0 {
      assert ValidMeter(ms[n - 1]);
      AllOwners(ms, n - 1);
      GridOwners(PatchesOf(n - 1, ms[n - 1].perimeter, Mean(ms[n - 1].perimeter), ms[n - 1].size),
                 |ms[n - 1].perimeter|, ms[n - 1].size, n - 1);
    }
  }
}
