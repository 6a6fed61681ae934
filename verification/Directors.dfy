/** The director triads of GeneralizedIBMethod: turned in each step by a rotation built from the
    angular velocity, always starting from the triads at the beginning of the step. */
module Directors {
  import opened Vectors
  import opened Rotations
  import opened LagrangianData

  type Positive = x: real | x > 0.0 witness 1.0

  /** Length, cosine, sine, and the length below which an angular velocity counts as zero. */
  datatype Trig = Trig(norm: Vec3 -> real, cos: real -> real, sin: real -> real, eps: Positive)

  ghost predicate ValidTrig(t: Trig) {
    IsNorm(t.norm) && forall x :: t.cos(x) * t.cos(x) + t.sin(x) * t.sin(x) == 1.0
  }

  function Angle(n: real, dt: real): real {
    n * dt
  }

  /** A director turned about `w` for the time `dt`. */
  function Turned(w: Vec3, dt: real, t: Trig, d: Vec3): Vec3 {
    var n := t.norm(w);
    if n > t.eps then Apply(Rodrigues(Divide(w, n), t.cos(Angle(n, dt)), t.sin(Angle(n, dt))), d) else d
  }

  /** Three directors that are orthonormal and right-handed. */
  ghost predicate Frame(d1: Vec3, d2: Vec3, d3: Vec3) {
    && Dot(d1, d1) == 1.0 && Dot(d2, d2) == 1.0 && Dot(d3, d3) == 1.0
    && Dot(d1, d2) == 0.0 && Dot(d1, d3) == 0.0 && Dot(d2, d3) == 0.0
    && Cross(d1, d2) == d3
  }

  lemma Cancel(m: real, s: real)
    requires m > 0.0 && m * s == m
    ensures s == 1.0
  {
    if s < 1.0 {
      ProductPositive(1.0 - s, m, (1.0 - s) * m);
    } else if s > 1.0 {
      ProductPositive(s - 1.0, m, (s - 1.0) * m);
    }
  }

  lemma Square(x: real, p: real, n: real, nn: real, pp: real)
    requires x == p * n && nn == n * n && pp == p * p
    ensures x * x == nn * pp
  {
    assert x * x == (p * n) * (p * n);
    assert nn * pp == (n * n) * (p * p);
  }

  lemma UnitScalars(x: real, y: real, z: real, n: real, p: real, q: real, r: real, nn: real, s: real)
    requires n > 0.0 && nn == n * n && nn == x * x + y * y + z * z
    requires x == p * n && y == q * n && z == r * n && s == p * p + q * q + r * r
    ensures s == 1.0
  {
    ProductPositive(n, n, nn);
    Square(x, p, n, nn, p * p);
    Square(y, q, n, nn, q * q);
    Square(z, r, n, nn, r * r);
    SumOfSquares(nn, p * p, q * q, r * r, x * x, y * y, z * z, s);
  }

  lemma SumOfSquares(nn: real, pp: real, qq: real, rr: real, xx: real, yy: real, zz: real, s: real)
    requires nn > 0.0 && nn == xx + yy + zz && xx == nn * pp && yy == nn * qq && zz == nn * rr && s == pp + qq + rr
    ensures s == 1.0
  {
    Distribute(nn, pp, qq, rr, s);
    assert nn * s == xx + yy + zz;
    Cancel(nn, s);
  }

  lemma UnitLength(w: Vec3, n: real, e: Vec3)
    requires n > 0.0 && n * n == Dot(w, w) && e == Divide(w, n)
    ensures Dot(e, e) == 1.0
  {
    QuotientTimes(w.x, n, e.x);
    QuotientTimes(w.y, n, e.y);
    QuotientTimes(w.z, n, e.z);
    UnitScalars(w.x, w.y, w.z, n, e.x, e.y, e.z, n * n, Dot(e, e));
  }

  /** The unit axis, cosine and sine of the rotation a sizeable angular velocity gives. */
  lemma AxisOf(w: Vec3, dt: real, t: Trig) returns (e: Vec3, c: real, s: real)
    requires ValidTrig(t) && t.norm(w) > t.eps
    ensures e == Divide(w, t.norm(w)) && Dot(e, e) == 1.0
    ensures c == t.cos(Angle(t.norm(w), dt)) && s == t.sin(Angle(t.norm(w), dt)) && c * c + s * s == 1.0
  {
    var n := t.norm(w);
    e := Divide(w, n);
    UnitLength(w, n, e);
    c, s := t.cos(Angle(n, dt)), t.sin(Angle(n, dt));
  }

  lemma TurnedIs(w: Vec3, dt: real, t: Trig, e: Vec3, c: real, s: real, d: Vec3)
    requires ValidTrig(t) && t.norm(w) > t.eps
    requires e == Divide(w, t.norm(w)) && c == t.cos(Angle(t.norm(w), dt)) && s == t.sin(Angle(t.norm(w), dt))
    ensures Turned(w, dt, t, d) == Rotated(e, c, s, d)
  {
    ApplyRodrigues(e, c, s, d);
  }

  /** Turning keeps inner products, cross products and therefore frames. */
  lemma TurnedKeeps(w: Vec3, dt: real, t: Trig, u: Vec3, v: Vec3)
    requires ValidTrig(t)
    ensures Dot(Turned(w, dt, t, u), Turned(w, dt, t, v)) == Dot(u, v)
    ensures Cross(Turned(w, dt, t, u), Turned(w, dt, t, v)) == Turned(w, dt, t, Cross(u, v))
  {
    if t.norm(w) > t.eps {
      var e, c, s := AxisOf(w, dt, t);
      TurnedIs(w, dt, t, e, c, s, u);
      TurnedIs(w, dt, t, e, c, s, v);
      TurnedIs(w, dt, t, e, c, s, Cross(u, v));
      KeepsDot(e, c, s, u, v);
      KeepsCross(e, c, s, u, v);
    }
  }

  lemma TurnedFrame(w: Vec3, dt: real, t: Trig, d1: Vec3, d2: Vec3, d3: Vec3)
    requires ValidTrig(t) && Frame(d1, d2, d3)
    ensures Frame(Turned(w, dt, t, d1), Turned(w, dt, t, d2), Turned(w, dt, t, d3))
  {
    TurnedKeeps(w, dt, t, d1, d1);
    TurnedKeeps(w, dt, t, d2, d2);
    TurnedKeeps(w, dt, t, d3, d3);
    TurnedKeeps(w, dt, t, d1, d2);
    TurnedKeeps(w, dt, t, d1, d3);
    TurnedKeeps(w, dt, t, d2, d3);
  }

  /** The axis of rotation stays where it is, and so does the component of every director along it. */
  lemma AxisComponent(w: Vec3, dt: real, t: Trig, d: Vec3)
    requires ValidTrig(t) && t.norm(w) > t.eps
    ensures var e := Divide(w, t.norm(w));
            Turned(w, dt, t, e) == e && Dot(Turned(w, dt, t, d), e) == Dot(d, e)
  {
    var e, c, s := AxisOf(w, dt, t);
    TurnedIs(w, dt, t, e, c, s, e);
    TurnedKeeps(w, dt, t, d, e);
    KeepsAxis(e, c, s);
  }

  /** `r` is `d` turned about `w` through the angle |w| dt, seen along the axis, towards the part of `d` across the
      axis and a right angle ahead of it; below the cut-off it is `d`. For `d` not along the axis only one vector
      is meant. */
  ghost predicate TurnedThrough(d: Vec3, r: Vec3, w: Vec3, dt: real, t: Trig) {
    var n := t.norm(w);
    if n <= t.eps then r == d
    else
      var e := Divide(w, n);
      var across := Sub(d, Scale(Dot(d, e), e));
      && Dot(r, r) == Dot(d, d) && Dot(r, e) == Dot(d, e)
      && Dot(r, across) == t.cos(n * dt) * Dot(across, across)
      && Dot(r, Cross(e, d)) == t.sin(n * dt) * Dot(across, across)
  }

  /** The part of a vector across a unit axis: its products with the vector, the axis and the vector ahead. */
  lemma AcrossProducts(e: Vec3, d: Vec3, g: real, p: Vec3, q: real)
    requires Dot(e, e) == 1.0 && g == Dot(d, e) && p == Sub(d, Scale(g, e)) && q == Dot(d, d) - g * g
    ensures Dot(d, p) == q == Dot(p, p) && Dot(e, p) == 0.0 && Dot(Cross(e, d), p) == 0.0
    ensures Dot(Cross(e, d), Cross(e, d)) == q && Dot(d, Cross(e, d)) == 0.0 == Dot(e, Cross(e, d))
  {
    DotLinear(g, d, Scale(g, e), d);
    DotLinear(g, e, e, d);
    DotLinear(g, d, Scale(g, e), e);
    DotLinear(g, e, e, e);
    DotLinear(g, d, Scale(g, e), p);
    DotLinear(g, e, e, p);
    CrossSelf(e, d);
    DotLinear(g, d, Scale(g, e), Cross(e, d));
    DotLinear(g, e, e, Cross(e, d));
    Lagrange(e, d, e, d);
  }

  lemma RotatedThrough(e: Vec3, c: real, s: real, d: Vec3, g: real, p: Vec3, q: real)
    requires Dot(e, e) == 1.0 && g == Dot(d, e) && p == Sub(d, Scale(g, e)) && q == Dot(p, p)
    ensures Dot(Rotated(e, c, s, d), p) == c * q && Dot(Rotated(e, c, s, d), Cross(e, d)) == s * q
  {
    AcrossProducts(e, d, g, p, Dot(d, d) - g * g);
    var k := Weight(c, e, d);
    var x := DotCombo(c, d, k, e, s, Cross(e, d), p, q, 0.0, 0.0);
    DotCommutes(d, Cross(e, d));
    var y := DotCombo(c, d, k, e, s, Cross(e, d), Cross(e, d), 0.0, 0.0, q);
  }

  /** A director is turned through the angle |w| dt about `w`, counter-clockwise. */
  lemma TurnedIsThrough(w: Vec3, dt: real, t: Trig, d: Vec3)
    requires ValidTrig(t)
    ensures TurnedThrough(d, Turned(w, dt, t, d), w, dt, t)
  {
    if t.norm(w) > t.eps {
      var e, c, s := AxisOf(w, dt, t);
      var g := Dot(d, e);
      var p := Sub(d, Scale(g, e));
      TurnedIs(w, dt, t, e, c, s, d);
      TurnedKeeps(w, dt, t, d, d);
      AxisComponent(w, dt, t, d);
      RotatedThrough(e, c, s, d, g, p, Dot(p, p));
    }
  }

  /** In particular for a unit vector across the axis. */
  lemma QuarterTurns(w: Vec3, dt: real, t: Trig, d: Vec3)
    requires ValidTrig(t) && t.norm(w) > t.eps && Dot(d, d) == 1.0 && Dot(d, w) == 0.0
    ensures var r, n := Turned(w, dt, t, d), t.norm(w);
            Dot(r, d) == t.cos(n * dt) && Dot(r, Cross(Divide(w, n), d)) == t.sin(n * dt)
  {
    var e, c, s := AxisOf(w, dt, t);
    AcrossUnit(w, t.norm(w), e, d);
    TurnedIsThrough(w, dt, t, d);
  }

  lemma AcrossUnit(w: Vec3, n: real, e: Vec3, d: Vec3)
    requires n != 0.0 && e == Divide(w, n) && Dot(d, w) == 0.0
    ensures Dot(d, e) == 0.0 && Sub(d, Scale(Dot(d, e), e)) == d
  {
    QuotientTimes(w.x, n, e.x);
    QuotientTimes(w.y, n, e.y);
    QuotientTimes(w.z, n, e.z);
    assert w == Scale(n, e);
    DotLinear(n, e, e, d);
    assert n * Dot(d, e) == 0.0;
    ZeroProduct(n, Dot(d, e));
    assert Scale(0.0, e) == ZERO;
  }

  lemma ZeroProduct(n: real, g: real)
    requires n != 0.0 && n * g == 0.0
    ensures g == 0.0
  {
  }

  /** Without angular velocity directors stay where they are. */
  lemma AtRest(dt: real, t: Trig, d: Vec3)
    requires ValidTrig(t)
    ensures Turned(ZERO, dt, t, d) == d
  {
    var n := t.norm(ZERO);
    if n > t.eps {
      ProductPositive(n, n, n * n);
      assert false;
    }
  }

  // ------------------------------------------------- the stepping of directors

  /** How a time and an angular velocity turn a director. */
  type Turn = (real, Vec3, Vec3) -> Vec3

  function TurnBy(t: Trig): Turn {
    (dt: real, w: Vec3, d: Vec3) => Turned(w, dt, t, d)
  }

  datatype Triad = Triad(d1: Vec3, d2: Vec3, d3: Vec3)

  function TurnTriad(d: Triad, w: Vec3, dt: real, turn: Turn): Triad {
    Triad(turn(dt, w, d.d1), turn(dt, w, d.d2), turn(dt, w, d.d3))
  }

  /** The triads of a structure turned node by node. */
  function AllTurned(d: seq<Triad>, w: seq<Vec3>, dt: real, turn: Turn): (r: seq<Triad>)
    requires |d| == |w|
    ensures |r| == |d| && forall l :: 0 <= l < |d| ==> r[l] == TurnTriad(d[l], w[l], dt, turn)
  {
    seq(|d|, l requires 0 <= l < |d| => TurnTriad(d[l], w[l], dt, turn))
  }

  ghost predicate AllFrames(d: seq<Triad>) {
    forall l :: 0 <= l < |d| ==> Frame(d[l].d1, d[l].d2, d[l].d3)
  }

  ghost predicate KeepsFrames(turn: Turn) {
    forall dt, w, d1, d2, d3 :: Frame(d1, d2, d3) ==> Frame(turn(dt, w, d1), turn(dt, w, d2), turn(dt, w, d3))
  }

  ghost predicate KeepsAtRest(turn: Turn) {
    forall dt, w, d :: w == ZERO ==> turn(dt, w, d) == d
  }

  /** The rotations of the code do both. */
  lemma TurnKeeps(t: Trig)
    requires ValidTrig(t)
    ensures KeepsFrames(TurnBy(t)) && KeepsAtRest(TurnBy(t))
  {
    var turn := TurnBy(t);
    forall dt, w, d1, d2, d3 | Frame(d1, d2, d3) ensures Frame(turn(dt, w, d1), turn(dt, w, d2), turn(dt, w, d3)) {
      TurnedFrame(w, dt, t, d1, d2, d3);
    }
    forall dt, w, d | w == ZERO ensures turn(dt, w, d) == d {
      AtRest(dt, t, d);
    }
  }

  lemma TurnedFrames(d: seq<Triad>, w: seq<Vec3>, dt: real, turn: Turn)
    requires |d| == |w| && KeepsFrames(turn) && AllFrames(d)
    ensures AllFrames(AllTurned(d, w, dt, turn))
  {
  }

  function Halfway(a: seq<Vec3>, b: seq<Vec3>): (r: seq<Vec3>)
    requires |a| == |b|
    ensures |r| == |a| && forall l :: 0 <= l < |a| ==> r[l] == Scale(0.5, Add(a[l], b[l]))
  {
    seq(|a|, l requires 0 <= l < |a| => Scale(0.5, Add(a[l], b[l])))
  }

  /** Node `l`'s triad is turned through its angle about `w`. */
  ghost predicate TriadThrough(d: seq<Triad>, r: seq<Triad>, l: nat, w: Vec3, dt: real, t: Trig)
    requires l < |d| == |r|
  {
    && TurnedThrough(d[l].d1, r[l].d1, w, dt, t)
    && TurnedThrough(d[l].d2, r[l].d2, w, dt, t)
    && TurnedThrough(d[l].d3, r[l].d3, w, dt, t)
  }

  lemma AllThrough(d: seq<Triad>, r: seq<Triad>, w: seq<Vec3>, dt: real, t: Trig)
    requires ValidTrig(t) && |d| == |w| && r == AllTurned(d, w, dt, TurnBy(t))
    ensures forall l: nat :: l < |d| ==> TriadThrough(d, r, l, w[l], dt, t)
  {
    forall l: nat | l < |d| ensures TriadThrough(d, r, l, w[l], dt, t) {
      TurnedIsThrough(w[l], dt, t, d[l].d1);
      TurnedIsThrough(w[l], dt, t, d[l].d2);
      TurnedIsThrough(w[l], dt, t, d[l].d3);
    }
  }

  class GeneralizedIBMethod {
    const nodes: nat
    const trig: Trig
    const anchors: seq<nat>
    var dCurrent: array2<Vec3>
    var dNew: array2<Vec3>
    var wCurrent: seq<Vec3>
    var wNew: seq<Vec3>

    constructor (nodes: nat, trig: Trig, anchors: seq<nat>, d: seq<Triad>, w: seq<Vec3>)
      requires ValidTrig(trig) && |w| == |d| == nodes && AllFrames(d)
      ensures Valid() && fresh(dCurrent) && fresh(dNew) && Triads(dCurrent) == d && wCurrent == w
      ensures this.nodes == nodes && this.trig == trig && this.anchors == anchors
    {
      this.nodes, this.trig, this.anchors := nodes, trig, anchors;
      dCurrent := new Vec3[nodes, 3]((l, alpha) requires 0 <= l < |d| => if alpha == 0 then d[l].d1
                                     else if alpha == 1 then d[l].d2 else d[l].d3);
      dNew := new Vec3[nodes, 3]((l, alpha) requires 0 <= l < |d| => if alpha == 0 then d[l].d1
                                 else if alpha == 1 then d[l].d2 else d[l].d3);
      wCurrent, wNew := w, w;
      new;
      assert Triads(dCurrent) == d && Triads(dNew) == d;
    }

    ghost function Triads(a: array2<Vec3>): (r: seq<Triad>)
      requires a.Length1 == 3
      reads a
      ensures |r| == a.Length0
    {
      seq(a.Length0, l requires 0 <= l < a.Length0 reads a => Triad(a[l, 0], a[l, 1], a[l, 2]))
    }

    ghost predicate Sizes()
      reads this
    {
      && dCurrent != dNew && dCurrent.Length0 == dNew.Length0 == nodes && dCurrent.Length1 == dNew.Length1 == 3
      && |wCurrent| == |wNew| == nodes
    }

    /** In every state, at the start of a step and after any of its moves, all triads are frames. */
    ghost predicate Valid()
      reads this, dCurrent, dNew
    {
      ValidTrig(trig) && Sizes() && AllFrames(Triads(dCurrent)) && AllFrames(Triads(dNew))
    }

    method PreprocessIntegrateData()
      requires Valid()
      modifies this`wNew, dNew
      ensures Valid() && Triads(dNew) == Triads(dCurrent) == old(Triads(dCurrent)) && wNew == wCurrent
    {
      wNew := wCurrent;
      forall l, alpha | 0 <= l < nodes && 0 <= alpha < 3 {
        dNew[l, alpha] := dCurrent[l, alpha];
      }
      assert Triads(dCurrent) == old(Triads(dCurrent));
      assert Triads(dNew) == Triads(dCurrent);
    }

    /** The triads at the end of the step, each turned about its own axis from where it started the step. */
    method TurnDirectors(w: seq<Vec3>, dt: real)
      requires Valid() && |w| == nodes
      modifies dNew
      ensures Valid() && Triads(dCurrent) == old(Triads(dCurrent))
      ensures Triads(dNew) == AllTurned(Triads(dCurrent), w, dt, TurnBy(trig))
    {
      ghost var d := Triads(dCurrent);
      for l := 0 to nodes
        invariant Triads(dCurrent) == d
        invariant forall j :: 0 <= j < l ==> Triads(dNew)[j] == TurnTriad(d[j], w[j], dt, TurnBy(trig))
      {
        label Before:
        var n := trig.norm(w[l]);
        if n > trig.eps {
          var R := Rodrigues(Divide(w[l], n), trig.cos(Angle(n, dt)), trig.sin(Angle(n, dt)));
          for alpha := 0 to 3
            invariant Triads(dCurrent) == d
            invariant forall j, a :: 0 <= j < nodes && j != l && 0 <= a < 3 ==> dNew[j, a] == old@Before(dNew[j, a])
            invariant forall a :: 0 <= a < alpha ==> dNew[l, a] == Apply(R, dCurrent[l, a])
          {
            dNew[l, alpha] := Apply(R, dCurrent[l, alpha]);
          }
        } else {
          for alpha := 0 to 3
            invariant Triads(dCurrent) == d
            invariant forall j, a :: 0 <= j < nodes && j != l && 0 <= a < 3 ==> dNew[j, a] == old@Before(dNew[j, a])
            invariant forall a :: 0 <= a < alpha ==> dNew[l, a] == dCurrent[l, a]
          {
            dNew[l, alpha] := dCurrent[l, alpha];
          }
        }
        assert d[l] == Triad(dCurrent[l, 0], dCurrent[l, 1], dCurrent[l, 2]);
        forall j | 0 <= j < l ensures Triads(dNew)[j] == TurnTriad(d[j], w[j], dt, TurnBy(trig)) {
          assert Triads(dNew)[j] == old@Before(Triads(dNew)[j]);
        }
      }
      assert Triads(dNew) == AllTurned(d, w, dt, TurnBy(trig));
      TurnKeeps(trig);
      TurnedFrames(d, w, dt, TurnBy(trig));
    }

    method EulerStep(t0: real, t1: real)
      requires Valid()
      modifies dNew
      ensures Valid() && Triads(dCurrent) == old(Triads(dCurrent))
      ensures Triads(dNew) == AllTurned(Triads(dCurrent), wCurrent, t1 - t0, TurnBy(trig))
      ensures forall l: nat :: l < nodes ==>
                TriadThrough(Triads(dCurrent), Triads(dNew), l, wCurrent[l], t1 - t0, trig)
    {
      TurnDirectors(wCurrent, t1 - t0);
      AllThrough(Triads(dCurrent), Triads(dNew), wCurrent, t1 - t0, trig);
    }

    method TrapezoidalStep(t0: real, t1: real)
      requires Valid()
      modifies dNew
      ensures Valid() && Triads(dCurrent) == old(Triads(dCurrent))
      ensures Triads(dNew) == AllTurned(Triads(dCurrent), Halfway(wCurrent, wNew), t1 - t0, TurnBy(trig))
      ensures forall l: nat :: l < nodes ==>
                TriadThrough(Triads(dCurrent), Triads(dNew), l, Scale(0.5, Add(wCurrent[l], wNew[l])), t1 - t0, trig)
    {
      TurnDirectors(Halfway(wCurrent, wNew), t1 - t0);
      AllThrough(Triads(dCurrent), Triads(dNew), Halfway(wCurrent, wNew), t1 - t0, trig);
    }

    /** The angular velocities interpolated at the new time, anchored nodes set to zero. */
    method InterpolateAngularVelocity(w: seq<Vec3>)
      requires Valid() && |w| == nodes
      modifies this`wNew
      ensures Valid() && wNew == Anchored(w, anchors)
    {
      wNew := Anchored(w, anchors);
    }

    method PostprocessIntegrateData()
      requires Valid()
      modifies this`dCurrent, this`dNew, this`wCurrent, this`wNew
      ensures Valid() && dCurrent == old(dNew) && dNew == old(dCurrent)
      ensures Triads(dCurrent) == old(Triads(dNew)) && wCurrent == old(wNew)
    {
      dCurrent, dNew := dNew, dCurrent;
      wCurrent, wNew := wNew, wCurrent;
    }

    ghost function Now(): Spin
      requires Sizes()
      reads this, dCurrent
    {
      Spin(Triads(dCurrent), wCurrent)
    }

    /** One trapezoidal step of any number of cycles, given what is interpolated in each cycle and after the
        last: whatever the predictions were, every triad ends turned once from where it started, through the angle
        of the mean of the old angular velocity and the one of the last cycle. */
    method Advance(t0: real, t1: real, ws: seq<seq<Vec3>>, last: seq<Vec3>)
      requires Valid() && |ws| >= 1 && |last| == nodes && forall k :: 0 <= k < |ws| ==> |ws[k]| == nodes
      modifies this, dCurrent, dNew
      ensures Valid() && {dCurrent, dNew} == old({dCurrent, dNew})
      ensures Now() == SpinOnce(old(Now()), SpinStep(t1 - t0, Anchored(ws[|ws| - 1], anchors), Anchored(last, anchors)),
                                TurnBy(trig))
      ensures forall l: nat :: l < nodes ==>
                var final := if l in anchors then ZERO else ws[|ws| - 1][l];
                TriadThrough(old(Triads(dCurrent)), Triads(dCurrent), l, Scale(0.5, Add(old(wCurrent)[l], final)),
                             t1 - t0, trig)
      ensures forall l: nat :: l < nodes ==> wCurrent[l] == if l in anchors then ZERO else last[l]
    {
      PreprocessIntegrateData();
      ghost var d, w0 := Triads(dCurrent), wCurrent;
      if |ws| == 1 {
        EulerStep(t0, t1);
      }
      for k := 0 to |ws|
        invariant Valid() && dCurrent == old(dCurrent) && dNew == old(dNew) && Triads(dCurrent) == d && wCurrent == w0
        invariant k > 0 ==> wNew == Anchored(ws[k - 1], anchors)
        invariant k > 1 || (k == 1 && |ws| == 1) ==>
                  Triads(dNew) == AllTurned(d, Halfway(w0, wNew), t1 - t0, TurnBy(trig))
      {
        InterpolateAngularVelocity(ws[k]);
        if |ws| > 1 && k == 0 {
          EulerStep(t0, t1);
        } else {
          TrapezoidalStep(t0, t1);
        }
      }
      ghost var wLast := wNew;
      InterpolateAngularVelocity(last);
      PostprocessIntegrateData();
      AllThrough(d, Triads(dCurrent), Halfway(w0, wLast), t1 - t0, trig);
    }
  }

  // --------------------------------------------------------------- runs

  /** Triads and angular velocities between steps. */
  datatype Spin = Spin(d: seq<Triad>, w: seq<Vec3>)

  /** A step: its length and the angular velocities left by its last cycle and after it. */
  datatype SpinStep = SpinStep(dt: real, lastCycle: seq<Vec3>, final: seq<Vec3>)

  ghost predicate FitsStep(s: SpinStep, n: nat) {
    |s.lastCycle| == |s.final| == n
  }

  ghost predicate AllFit(steps: seq<SpinStep>, n: nat) {
    forall k :: 0 <= k < |steps| ==> FitsStep(steps[k], n)
  }

  ghost function SpinOnce(s: Spin, step: SpinStep, turn: Turn): (r: Spin)
    requires |s.d| == |s.w| && FitsStep(step, |s.w|)
    ensures |r.d| == |s.d| && |r.w| == |s.w|
  {
    Spin(AllTurned(s.d, Halfway(s.w, step.lastCycle), step.dt, turn), step.final)
  }

  ghost function SpinRun(s: Spin, steps: seq<SpinStep>, turn: Turn): (r: Spin)
    requires |s.d| == |s.w| && AllFit(steps, |s.w|)
    ensures |r.d| == |s.d| && |r.w| == |s.w|
  {
    if steps == [] then s
    else SpinOnce(SpinRun(s, steps[..|steps| - 1], turn), steps[|steps| - 1], turn)
  }

  lemma {:induction false} RunKeepsFrames(s: Spin, steps: seq<SpinStep>, turn: Turn)
    requires KeepsFrames(turn) && |s.d| == |s.w| && AllFrames(s.d) && AllFit(steps, |s.w|)
    ensures AllFrames(SpinRun(s, steps, turn).d)
  {
    if steps != [] {
      var last, rest := steps[|steps| - 1], steps[..|steps| - 1];
      RunKeepsFrames(s, rest, turn);
      var before := SpinRun(s, rest, turn);
      TurnedFrames(before.d, Halfway(before.w, last.lastCycle), last.dt, turn);
    }
  }

  /** The node has no angular velocity in any of the steps, as an anchored node has none. */
  ghost predicate Rests(steps: seq<SpinStep>, l: nat, n: nat)
    requires l < n && AllFit(steps, n)
  {
    forall k :: 0 <= k < |steps| ==> FitsStep(steps[k], n) && steps[k].lastCycle[l] == ZERO == steps[k].final[l]
  }

  lemma HalfwayZero(a: seq<Vec3>, b: seq<Vec3>, l: nat)
    requires |a| == |b| && l < |a| && a[l] == ZERO && b[l] == ZERO
    ensures Halfway(a, b)[l] == ZERO
  {
  }

  lemma TriadAtRest(d: Triad, dt: real, turn: Turn)
    requires KeepsAtRest(turn)
    ensures TurnTriad(d, ZERO, dt, turn) == d
  {
  }

  lemma OnceAtRest(s: Spin, step: SpinStep, turn: Turn, l: nat)
    requires KeepsAtRest(turn) && |s.d| == |s.w| && FitsStep(step, |s.w|)
    requires l < |s.w| && s.w[l] == ZERO == step.lastCycle[l]
    ensures SpinOnce(s, step, turn).d[l] == s.d[l] && SpinOnce(s, step, turn).w[l] == step.final[l]
  {
    HalfwayZero(s.w, step.lastCycle, l);
    TriadAtRest(s.d[l], step.dt, turn);
  }

  lemma LastStep(s: Spin, steps: seq<SpinStep>, turn: Turn)
    requires |s.d| == |s.w| && AllFit(steps, |s.w|) && steps != []
    ensures AllFit(steps[..|steps| - 1], |s.w|)
    ensures SpinRun(s, steps, turn) == SpinOnce(SpinRun(s, steps[..|steps| - 1], turn), steps[|steps| - 1], turn)
  {
  }

  lemma {:induction false} RunKeepsAtRest(s: Spin, steps: seq<SpinStep>, turn: Turn, l: nat)
    requires KeepsAtRest(turn) && |s.d| == |s.w| && AllFit(steps, |s.w|) && l < |s.w| && s.w[l] == ZERO
    requires Rests(steps, l, |s.w|)
    ensures SpinRun(s, steps, turn).d[l] == s.d[l] && SpinRun(s, steps, turn).w[l] == ZERO
  {
    if steps != [] {
      var last, rest := steps[|steps| - 1], steps[..|steps| - 1];
      RunKeepsAtRest(s, rest, turn, l);
      OnceAtRest(SpinRun(s, rest, turn), last, turn, l);
      LastStep(s, steps, turn);
    }
  }

  /** Over any run of steps orthonormal, right-handed triads stay so, and the triad of a node without
      angular velocity never moves. */
  lemma DirectorsOverRuns(s: Spin, steps: seq<SpinStep>, t: Trig)
    requires ValidTrig(t) && |s.d| == |s.w| && AllFrames(s.d) && AllFit(steps, |s.w|)
    ensures var r := SpinRun(s, steps, TurnBy(t));
            && AllFrames(r.d)
            && forall l :: 0 <= l < |s.d| && s.w[l] == ZERO && Rests(steps, l, |s.w|) ==> r.d[l] == s.d[l]
  {
    TurnKeeps(t);
    RunKeepsFrames(s, steps, TurnBy(t));
    forall l | 0 <= l < |s.d| && s.w[l] == ZERO && Rests(steps, l, |s.w|)
      ensures SpinRun(s, steps, TurnBy(t)).d[l] == s.d[l]
    {
      RunKeepsAtRest(s, steps, TurnBy(t), l);
    }
  }
}
