/** The web of a meter as a quadrature rule: where its patches lie on the triangles of the meter, what part of their
    area each carries, and what sums over all patches of functions linear in the position come to. */
module WebQuadrature {
  import opened Vectors
  import opened MeterGeometry
  import opened MeterReading
  import opened MeterPanel

  function EdgeMiddle(p0: Vec3, p1: Vec3): Vec3 {
    Scale(0.5, Add(p0, p1))
  }

  /** The point a part `t` of the way from the centroid to the middle of an edge. */
  function OnMedian(p0: Vec3, p1: Vec3, c: Vec3, t: real): Vec3 {
    Add(c, Scale(t, Sub(EdgeMiddle(p0, p1), c)))
  }

  /** How far from the centroid the centre of patch `n` lies, and its share of the triangle. */
  function Reach(n: nat, N: nat): real
    requires N > 0
  {
    (2.0 * (N as real - n as real) - 1.0) / (2.0 * N as real)
  }

  function Share(n: nat, N: nat): real
    requires N > 0
  {
    SquareOfCount(N);
    (2.0 * (N as real - n as real) - 1.0) / (N as real * N as real)
  }

  lemma SquareOfCount(N: nat)
    requires N > 0
    ensures N as real * N as real > 0.0
  {
    ProductPositive(N as real, N as real, N as real * N as real);
  }

  lemma ReachScalars(k: real, N: real, h: real, reach: real, share: real)
    requires N > 0.0 && N * N > 0.0 && h == 1.0 / N
    requires reach == (2.0 * k - 1.0) / (2.0 * N) && share == (2.0 * k - 1.0) / (N * N)
    ensures reach == 0.5 * (2.0 * (k * h) - h) && share == h * (2.0 * (k * h) - h)
  {
    var s := 2.0 * k - 1.0;
    QuotientTimes(1.0, N, h);
    QuotientTimes(s, 2.0 * N, reach);
    QuotientTimes(s, N * N, share);
    assert 2.0 * (k * h) - h == s * h;
    TimesInverse(s, N, h, reach);
    TimesInverseTwice(s, N, h, share);
  }

  lemma TimesInverse(s: real, N: real, h: real, reach: real)
    requires h * N == 1.0 && reach * (2.0 * N) == s
    ensures reach == 0.5 * (s * h)
  {
    assert s * h == 2.0 * reach * (N * h);
  }

  lemma TimesInverseTwice(s: real, N: real, h: real, share: real)
    requires h * N == 1.0 && share * (N * N) == s
    ensures share == h * (s * h)
  {
    assert h * (s * h) == share * ((h * N) * (h * N));
  }

  lemma LeftIs(n: nat, N: nat) returns (h: real, l: real, m: real)
    requires n < N
    ensures h == 1.0 / N as real && l == Left(n, N) && m == Left(n + 1, N) && m == l - h
    ensures l == (N as real - n as real) * h
  {
    h, l, m := 1.0 / N as real, Left(n, N), Left(n + 1, N);
    var r := N as real;
    QuotientTimes(1.0, r, h);
    QuotientTimes(n as real, r, n as real / r);
    QuotientTimes((n + 1) as real, r, (n + 1) as real / r);
    SameQuotient(n as real / r, n as real * h, r, h, n as real);
    SameQuotient((n + 1) as real / r, (n + 1) as real * h, r, h, (n + 1) as real);
    assert l == 1.0 - n as real * h && m == 1.0 - (n + 1) as real * h;
  }

  lemma SameQuotient(p: real, q: real, r: real, h: real, k: real)
    requires r > 0.0 && h * r == 1.0 && p * r == k && q == k * h
    ensures p == q
  {
    assert q * r == k * (h * r);
    if p < q {
      ProductPositive(q - p, r, (q - p) * r);
    } else if q < p {
      ProductPositive(p - q, r, (p - q) * r);
    }
  }

  lemma ReachIs(n: nat, N: nat) returns (h: real, l: real, m: real)
    requires n < N
    ensures h == 1.0 / N as real && l == Left(n, N) && m == Left(n + 1, N) && m == l - h
    ensures Reach(n, N) == 0.5 * (2.0 * l - h) == 0.5 * (l + m) && Share(n, N) == h * (2.0 * l - h)
  {
    h, l, m := LeftIs(n, N);
    SquareOfCount(N);
    ReachScalars(N as real - n as real, N as real, h, Reach(n, N), Share(n, N));
  }

  lemma ShareOfArea(l: real, m: real, h: real, share: real)
    requires m == l - h && share == h * (2.0 * l - h)
    ensures l * l - m * m == share
  {
  }

  function FourMean(a: real, b: real, c: real, d: real): real {
    0.25 * ((a + b) + (c + d))
  }

  function Drawn(c: real, l: real, p: real): real {
    c - l * (c - p)
  }

  function Ahead(c: real, t: real, e: real): real {
    c + t * e
  }

  function Toward(c: real, t: real, p: real, q: real): real {
    Ahead(c, t, 0.5 * (p + q) - c)
  }

  lemma AheadVector(c: Vec3, t: real, e: Vec3)
    ensures Add(c, Scale(t, e)) == Vec3(Ahead(c.x, t, e.x), Ahead(c.y, t, e.y), Ahead(c.z, t, e.z))
  {
  }

  lemma ToMiddle(p0: Vec3, p1: Vec3, c: Vec3)
    ensures Sub(EdgeMiddle(p0, p1), c)
         == Vec3(0.5 * (p0.x + p1.x) - c.x, 0.5 * (p0.y + p1.y) - c.y, 0.5 * (p0.z + p1.z) - c.z)
  {
  }

  lemma DrawnVector(c: Vec3, l: real, p: Vec3)
    ensures Sub(c, Scale(l, Sub(c, p))) == Vec3(Drawn(c.x, l, p.x), Drawn(c.y, l, p.y), Drawn(c.z, l, p.z))
  {
  }

  lemma TowardVector(p0: Vec3, p1: Vec3, c: Vec3, t: real)
    ensures OnMedian(p0, p1, c, t)
         == Vec3(Toward(c.x, t, p0.x, p1.x), Toward(c.y, t, p0.y, p1.y), Toward(c.z, t, p0.z, p1.z))
  {
    ToMiddle(p0, p1, c);
    AheadVector(c, t, Sub(EdgeMiddle(p0, p1), c));
  }

  lemma CentreVector(x0: Vec3, x1: Vec3, x2: Vec3, x3: Vec3)
    ensures Centre(x0, x1, x2, x3) == Vec3(FourMean(x0.x, x1.x, x2.x, x3.x), FourMean(x0.y, x1.y, x2.y, x3.y),
                                           FourMean(x0.z, x1.z, x2.z, x3.z))
  {
  }

  lemma CentreScalars(c: Vec3, p0: Vec3, p1: Vec3, l: real, m: real, t: real, x0: Vec3, x1: Vec3, x2: Vec3, x3: Vec3)
    requires t == 0.5 * (l + m)
    requires x0 == Vec3(Drawn(c.x, l, p0.x), Drawn(c.y, l, p0.y), Drawn(c.z, l, p0.z))
    requires x1 == Vec3(Drawn(c.x, l, p1.x), Drawn(c.y, l, p1.y), Drawn(c.z, l, p1.z))
    requires x2 == Vec3(Drawn(c.x, m, p1.x), Drawn(c.y, m, p1.y), Drawn(c.z, m, p1.z))
    requires x3 == Vec3(Drawn(c.x, m, p0.x), Drawn(c.y, m, p0.y), Drawn(c.z, m, p0.z))
    ensures Centre(x0, x1, x2, x3) == OnMedian(p0, p1, c, t)
  {
    CentreVector(x0, x1, x2, x3);
    TowardVector(p0, p1, c, t);
    CentreScalar(c.x, p0.x, p1.x, l, m, t);
    CentreScalar(c.y, p0.y, p1.y, l, m, t);
    CentreScalar(c.z, p0.z, p1.z, l, m, t);
  }

  lemma CentreScalar(c: real, p: real, q: real, l: real, m: real, t: real)
    requires t == 0.5 * (l + m)
    ensures FourMean(Drawn(c, l, p), Drawn(c, l, q), Drawn(c, m, q), Drawn(c, m, p)) == Toward(c, t, p, q)
  {
    var e := (c - p) + (c - q);
    assert l * (c - p) + l * (c - q) == l * e && m * (c - p) + m * (c - q) == m * e;
    assert 0.25 * (l * e + m * e) == 0.5 * (t * e);
    assert t * (0.5 * (p + q) - c) == -0.5 * (t * e);
  }

  lemma MiddleOnMedian(p0: Vec3, p1: Vec3, c: Vec3, n: nat, N: nat, l: real, m: real, t: real)
    requires n < N && l == Left(n, N) && m == Left(n + 1, N) && t == 0.5 * (l + m)
    ensures PatchMiddle(p0, p1, c, n, N) == OnMedian(p0, p1, c, t)
  {
    VertexIs(p0, c, n, N);
    VertexIs(p0, c, n + 1, N);
    VertexIs(p1, c, n, N);
    VertexIs(p1, c, n + 1, N);
    DrawnVector(c, l, p0);
    DrawnVector(c, l, p1);
    DrawnVector(c, m, p1);
    DrawnVector(c, m, p0);
    CentreScalars(c, p0, p1, l, m, t, Vertex(p0, c, n, N), Vertex(p1, c, n, N), Vertex(p1, c, n + 1, N),
                  Vertex(p0, c, n + 1, N));
  }

  lemma AreaShare(p0: Vec3, p1: Vec3, c: Vec3, n: nat, N: nat, l: real, m: real, h: real, s: real)
    requires n < N && l == Left(n, N) && m == Left(n + 1, N) && m == l - h && s == h * (2.0 * l - h)
    ensures PatchArea(p0, p1, c, n, N) == Scale(s, Triangle(p0, p1, c))
  {
    PatchAreaIs(p0, p1, c, n, N);
    var r := Remaining(n, N) - Remaining(n + 1, N);
    ShareLeft(n, N, l, m, h, s, r);
    ShareTimes(r, s, Cross(Sub(c, p0), Sub(c, p1)), PatchArea(p0, p1, c, n, N), Triangle(p0, p1, c));
  }

  lemma ShareLeft(n: nat, N: nat, l: real, m: real, h: real, s: real, r: real)
    requires n < N && l == Left(n, N) && m == Left(n + 1, N) && m == l - h && s == h * (2.0 * l - h)
    requires r == Remaining(n, N) - Remaining(n + 1, N)
    ensures r == s
  {
    SquareLeft(n, N, l);
    SquareLeft(n + 1, N, m);
    ShareOfArea(l, m, h, s);
  }

  lemma SquareLeft(n: nat, N: nat, l: real)
    requires N > 0 && l == Left(n, N)
    ensures Remaining(n, N) == l * l
  {
  }

  lemma ShareTimes(r: real, s: real, v: Vec3, area: Vec3, t: Vec3)
    requires r == s && area == Scale(0.5, Scale(r, v)) && t == Scale(0.5, v)
    ensures area == Scale(s, t)
  {
    HalfOfScaled(s, v);
  }

  /** Every patch is centred on the line from the centroid to the middle of its edge and carries a share of the
      triangle: patch `n` of `N` at (2 (N - n) - 1) / 2N of the way, with (2 (N - n) - 1) / N^2 of the area. */
  lemma PatchOnMedian(p0: Vec3, p1: Vec3, c: Vec3, n: nat, N: nat)
    requires n < N
    ensures PatchMiddle(p0, p1, c, n, N) == OnMedian(p0, p1, c, Reach(n, N))
    ensures PatchArea(p0, p1, c, n, N) == Scale(Share(n, N), Triangle(p0, p1, c))
  {
    var h, l, m := ReachIs(n, N);
    MiddleOnMedian(p0, p1, c, n, N, l, m, Reach(n, N));
    AreaShare(p0, p1, c, n, N, l, m, h, Share(n, N));
  }

  lemma HalfOfScaled(s: real, v: Vec3)
    ensures Scale(0.5, Scale(s, v)) == Scale(s, Scale(0.5, v))
  {
  }

  // ------------------------------------------------------- sums over a wedge

  /** What patch `n` of a wedge adds to the sum of a quantity that grows linearly from the centroid. */
  function WedgeTerm(a: real, b: real, n: nat, N: nat): real
    requires N > 0
  {
    Share(n, N) * (a + Reach(n, N) * b)
  }

  ghost function Weighted(a: real, b: real, n: nat, N: nat): real
    requires n <= N && N > 0
  {
    if n == 0 then 0.0 else Weighted(a, b, n - 1, N) + WedgeTerm(a, b, n - 1, N)
  }

  /** The sum between two distances from the centroid, of which the squares and the cubic terms are given. */
  function Between(a: real, b: real, r0: real, r1: real, c0: real, c1: real): real {
    a * (r0 - r1) + b * (c0 - c1)
  }

  lemma BetweenChained(a: real, b: real, r0: real, r1: real, r2: real, c0: real, c1: real, c2: real)
    ensures Between(a, b, r0, r1, c0, c1) + Between(a, b, r1, r2, c1, c2) == Between(a, b, r0, r2, c0, c2)
  {
    assert a * (r0 - r1) + a * (r1 - r2) == a * (r0 - r2);
    assert b * (c0 - c1) + b * (c1 - c2) == b * (c0 - c2);
  }

  function Cap(l: real, h: real): real {
    (4.0 * (l * l * l) - h * h * l) / 6.0
  }

  lemma CapStep(l: real, m: real, h: real, share: real, reach: real)
    requires m == l - h && share == h * (2.0 * l - h) && reach == 0.5 * (2.0 * l - h)
    ensures share * reach == Cap(l, h) - Cap(m, h)
  {
    Cubed(l, h);
    assert m * m * m == (l - h) * (l - h) * (l - h);
    assert h * h * m == h * h * l - h * h * h;
    var q := 2.0 * l - h;
    assert share * reach == 0.5 * (h * (q * q));
    assert q * q == 4.0 * (l * l) - 4.0 * (l * h) + h * h;
    assert h * (q * q) == 4.0 * (l * l * h) - 4.0 * (l * h * h) + h * h * h;
  }

  lemma Cubed(l: real, h: real)
    ensures (l - h) * (l - h) * (l - h) == l * l * l - 3.0 * (l * l * h) + 3.0 * (l * h * h) - h * h * h
  {
  }

  lemma WeightStep(a: real, b: real, share: real, reach: real, ds: real, dc: real)
    requires share == ds && share * reach == dc
    ensures share * (a + reach * b) == a * ds + b * dc
  {
    assert share * (reach * b) == (share * reach) * b;
  }

  lemma NextTerm(a: real, b: real, n: nat, N: nat, h: real)
    requires n < N && h == 1.0 / N as real
    ensures WedgeTerm(a, b, n, N)
         == Between(a, b, Remaining(n, N), Remaining(n + 1, N), Cap(Left(n, N), h), Cap(Left(n + 1, N), h))
  {
    var k, l, m := ReachIs(n, N);
    var s := Share(n, N);
    CapStep(l, m, h, s, Reach(n, N));
    ShareLeft(n, N, l, m, h, s, Remaining(n, N) - Remaining(n + 1, N));
    WeightStep(a, b, s, Reach(n, N), Remaining(n, N) - Remaining(n + 1, N), Cap(l, h) - Cap(m, h));
  }

  lemma {:induction false} WeightedUpTo(a: real, b: real, n: nat, N: nat, h: real)
    requires n <= N && N > 0 && h == 1.0 / N as real
    ensures Weighted(a, b, n, N) == Between(a, b, 1.0, Remaining(n, N), Cap(1.0, h), Cap(Left(n, N), h))
  {
    if n == 0 {
      RemainingEnds(N);
      assert Left(0, N) == 1.0;
    } else {
      WeightedUpTo(a, b, n - 1, N, h);
      NextTerm(a, b, n - 1, N, h);
      BetweenChained(a, b, 1.0, Remaining(n - 1, N), Remaining(n, N), Cap(1.0, h), Cap(Left(n - 1, N), h),
                     Cap(Left(n, N), h));
    }
  }

  /** Where the web takes a linear quantity: a little inside the centroid of the triangle, which lies at 2/3. */
  function WebReach(N: nat): real
    requires N > 0
  {
    2.0 / 3.0 - (1.0 / N as real) * (1.0 / N as real) / 6.0
  }

  /** A whole wedge takes a linear quantity at one point of the median. */
  lemma WedgeRule(a: real, b: real, N: nat)
    requires N > 0
    ensures Weighted(a, b, N, N) == a + WebReach(N) * b
  {
    var h := 1.0 / N as real;
    WeightedUpTo(a, b, N, N, h);
    RemainingEnds(N);
    SelfQuotient(N as real);
    assert Left(N, N) == 0.0 && Cap(0.0, h) == 0.0;
    assert Cap(1.0, h) == WebReach(N);
  }

  // --------------------------------------------------------- sums over webs

  ghost function WebSum(webs: seq<Web>, f: Web -> real): real {
    if webs == [] then 0.0 else WebSum(webs[..|webs| - 1], f) + f(webs[|webs| - 1])
  }

  lemma {:induction false} WebSumConcat(a: seq<Web>, b: seq<Web>, f: Web -> real)
    ensures WebSum(a + b, f) == WebSum(a, f) + WebSum(b, f)
  {
    if b == [] {
      assert a + b == a;
    } else {
      assert (a + b)[..|a + b| - 1] == a + b[..|b| - 1];
      WebSumConcat(a, b[..|b| - 1], f);
    }
  }

  lemma WebSumOne(a: seq<Web>, w: Web, f: Web -> real)
    ensures WebSum(a + [w], f) == WebSum(a, f) + f(w)
  {
    assert (a + [w])[..|a|] == a;
  }

  /** On the patches of row `m` the function is the patch's share of a quantity linear along the median. */
  ghost predicate LinearOnRow(patch: (nat, nat) -> Web, m: nat, N: nat, f: Web -> real, a: real, b: real) {
    forall n: nat :: n < N ==> f(patch(m, n)) == WedgeTerm(a, b, n, N)
  }

  lemma {:induction false} RowWebSum(patch: (nat, nat) -> Web, m: nat, n: nat, N: nat, f: Web -> real, a: real, b: real)
    requires n <= N && N > 0 && LinearOnRow(patch, m, N, f, a, b)
    ensures WebSum(RowWebs(patch, m, n), f) == Weighted(a, b, n, N)
  {
    if n > 0 {
      RowWebSum(patch, m, n - 1, N, f, a, b);
      WebSumOne(RowWebs(patch, m, n - 1), patch(m, n - 1), f);
    }
  }

  ghost function SumOf(part: nat -> real, n: nat): real {
    if n == 0 then 0.0 else SumOf(part, n - 1) + part(n - 1)
  }

  lemma {:induction false} GridWebSum(patch: (nat, nat) -> Web, m: nat, N: nat, f: Web -> real, part: nat -> real)
    requires forall i: nat :: i < m ==> WebSum(RowWebs(patch, i, N), f) == part(i)
    ensures WebSum(GridWebs(patch, m, N), f) == SumOf(part, m)
  {
    if m > 0 {
      GridWebSum(patch, m - 1, N, f, part);
      WebSumConcat(GridWebs(patch, m - 1, N), RowWebs(patch, m - 1, N), f);
    }
  }

  lemma {:induction false} WebSumZero(webs: seq<Web>, f: Web -> real)
    requires forall k :: 0 <= k < |webs| ==> f(webs[k]) == 0.0
    ensures WebSum(webs, f) == 0.0
  {
    if webs != [] {
      WebSumZero(webs[..|webs| - 1], f);
    }
  }

  /** The function counts the patches of meter `j` only. */
  ghost predicate ZeroElsewhere(f: Web -> real, j: nat) {
    forall w: Web :: w.meter != j ==> f(w) == 0.0
  }

  /** The sum over the patches of one meter, and over those of the first `n` meters. */
  ghost function OwnSum(ms: seq<Meter>, j: nat, f: Web -> real): real
    requires ValidMeters(ms) && j < |ms|
  {
    assert ValidMeter(ms[j]);
    WebSum(WebsOf(j, ms[j]), f)
  }

  ghost function PanelSum(ms: seq<Meter>, n: nat, f: Web -> real): real
    requires ValidMeters(ms) && n <= |ms|
  {
    WebSum(AllWebs(ms, n), f)
  }

  lemma OthersAddNothing(ms: seq<Meter>, k: nat, j: nat, f: Web -> real)
    requires ValidMeters(ms) && k < |ms| && j != k && ZeroElsewhere(f, j)
    ensures OwnSum(ms, k, f) == 0.0
  {
    assert ValidMeter(ms[k]);
    WebsOwned(k, ms[k]);
    WebSumZero(WebsOf(k, ms[k]), f);
  }

  lemma OneMoreMeter(ms: seq<Meter>, n: nat, f: Web -> real)
    requires ValidMeters(ms) && n < |ms|
    ensures PanelSum(ms, n + 1, f) == PanelSum(ms, n, f) + OwnSum(ms, n, f)
  {
    assert ValidMeter(ms[n]);
    WebSumConcat(AllWebs(ms, n), WebsOf(n, ms[n]), f);
  }

  lemma NoMeters(ms: seq<Meter>, f: Web -> real)
    requires ValidMeters(ms)
    ensures PanelSum(ms, 0, f) == 0.0
  {
  }

  /** A running sum to which only part `j` adds. */
  lemma {:induction false} OnlyOne(sum: nat -> real, own: nat -> real, size: nat, n: nat, j: nat)
    requires n <= size && sum(0) == 0.0 && forall k: nat :: k < size ==> sum(k + 1) == sum(k) + own(k)
    requires forall k: nat :: k < size && k != j ==> own(k) == 0.0
    ensures sum(n) == if j < n then own(j) else 0.0
  {
    if n > 0 {
      OnlyOne(sum, own, size, n - 1, j);
    }
  }

  /** All patches of meter `j`, found among the patches of all meters. */
  lemma AllWebSum(ms: seq<Meter>, j: nat, f: Web -> real)
    requires ValidMeters(ms) && j < |ms| && ZeroElsewhere(f, j)
    ensures PanelSum(ms, |ms|, f) == OwnSum(ms, j, f)
  {
    var sum := (n: nat) => if n <= |ms| then PanelSum(ms, n, f) else 0.0;
    var own := (k: nat) => if k < |ms| then OwnSum(ms, k, f) else 0.0;
    NoMeters(ms, f);
    forall k: nat | k < |ms| ensures sum(k + 1) == sum(k) + own(k) {
      OneMoreMeter(ms, k, f);
    }
    forall k: nat | k < |ms| && k != j ensures own(k) == 0.0 {
      OthersAddNothing(ms, k, j, f);
    }
    OnlyOne(sum, own, |ms|, |ms|, j);
  }

  /** A row on which the function is linear along the median, with the sum that the wedge rule gives it. */
  ghost predicate RowSums(patch: (nat, nat) -> Web, m: nat, N: nat, f: Web -> real, x: real)
    requires N > 0
  {
    exists a, b :: LinearOnRow(patch, m, N, f, a, b) && x == a + WebReach(N) * b
  }

  lemma RowTotal(patch: (nat, nat) -> Web, m: nat, N: nat, f: Web -> real, x: real)
    requires N > 0 && RowSums(patch, m, N, f, x)
    ensures WebSum(RowWebs(patch, m, N), f) == x
  {
    var a, b :| LinearOnRow(patch, m, N, f, a, b) && x == a + WebReach(N) * b;
    RowWebSum(patch, m, N, N, f, a, b);
    WedgeRule(a, b, N);
  }

  /** The sum over all patches of a function of one meter's patches that is linear along every median. */
  lemma PanelRule(ms: seq<Meter>, j: nat, m: Meter, f: Web -> real, part: nat -> real, patch: (nat, nat) -> Web)
    requires ValidMeters(ms) && j < |ms| && m == ms[j] && ValidMeter(m) && m.size > 0 && ZeroElsewhere(f, j)
    requires patch == PatchesOf(j, m.perimeter, MeterPanel.Mean(m.perimeter), m.size)
    requires forall i: nat :: i < |m.perimeter| ==> RowSums(patch, i, m.size, f, part(i))
    ensures PanelSum(ms, |ms|, f) == SumOf(part, |m.perimeter|)
  {
    forall i: nat | i < |m.perimeter| ensures WebSum(RowWebs(patch, i, m.size), f) == part(i) {
      RowTotal(patch, i, m.size, f, part(i));
    }
    GridWebSum(patch, |m.perimeter|, m.size, f, part);
    AllWebSum(ms, j, f);
  }

  lemma WebsOwned(k: nat, m: Meter)
    requires ValidMeter(m)
    ensures forall i :: 0 <= i < |WebsOf(k, m)| ==> WebsOf(k, m)[i].meter == k
  {
    GridOwners(PatchesOf(k, m.perimeter, MeterPanel.Mean(m.perimeter), m.size), |m.perimeter|, m.size, k);
  }

  // -------------------------------------------------------------- centroids

  /** The sum of the first `n` deviations from a point. */
  ghost function Deviations(vs: seq<Vec3>, c: Vec3, n: nat): Vec3
    requires n <= |vs|
  {
    if n == 0 then ZERO else Add(Deviations(vs, c, n - 1), Sub(vs[n - 1], c))
  }

  lemma {:induction false} DeviationsSum(vs: seq<Vec3>, c: Vec3, n: nat)
    requires n <= |vs|
    ensures Deviations(vs, c, n) == Sub(SumUpto(vs, n), Scale(n as real, c))
  {
    if n > 0 {
      DeviationsSum(vs, c, n - 1);
      MoreDeviation(SumUpto(vs, n - 1), vs[n - 1], c, n as real);
    }
  }

  lemma MoreDeviation(s: Vec3, v: Vec3, c: Vec3, n: real)
    ensures Add(Sub(s, Scale(n - 1.0, c)), Sub(v, c)) == Sub(Add(s, v), Scale(n, c))
  {
  }

  /** The deviations from the centroid cancel. */
  lemma CentroidBalances(vs: seq<Vec3>)
    requires vs != []
    ensures Deviations(vs, MeterPanel.Mean(vs), |vs|) == ZERO
  {
    var c, n := MeterPanel.Mean(vs), |vs| as real;
    DeviationsSum(vs, c, |vs|);
    QuotientTimes(SumUpto(vs, |vs|).x, n, c.x);
    QuotientTimes(SumUpto(vs, |vs|).y, n, c.y);
    QuotientTimes(SumUpto(vs, |vs|).z, n, c.z);
  }
}
