/** What the internal force and torque of a rod segment are: independent of the observer, zero exactly at the
    reference strains, the gradient of a quadratic energy, and along each half director the stiffness times the
    excess of the twist about it. */
module RodLoads {
  import opened Vectors
  import opened Rotations
  import opened Directors
  import opened KirchhoffRods
  import opened RodSpecs

  predicate ParamsOk(p: seq<real>) {
    |p| == NUM_MATERIAL_PARAMS && p[0] != 0.0
  }

  // ----------------------------------------------------- frame indifference

  /** A point seen by an observer who has turned and shifted. */
  function Seen(q: Mat3, c: Vec3, x: Vec3): Vec3 {
    Add(Apply(q, x), c)
  }

  lemma ApplyCombo(q: Mat3, a: real, u: Vec3, b: real, v: Vec3, c: real, w: Vec3)
    ensures Apply(q, Combo(a, u, b, v, c, w)) == Combo(a, Apply(q, u), b, Apply(q, v), c, Apply(q, w))
  {
    var x := DotCombo(a, u, b, v, c, w, q.r0, Dot(u, q.r0), Dot(v, q.r0), Dot(w, q.r0));
    var y := DotCombo(a, u, b, v, c, w, q.r1, Dot(u, q.r1), Dot(v, q.r1), Dot(w, q.r1));
    var z := DotCombo(a, u, b, v, c, w, q.r2, Dot(u, q.r2), Dot(v, q.r2), Dot(w, q.r2));
    RowsCommute(q, u);
    RowsCommute(q, v);
    RowsCommute(q, w);
  }

  lemma RowsCommute(q: Mat3, v: Vec3)
    ensures Apply(q, v) == Vec3(Dot(v, q.r0), Dot(v, q.r1), Dot(v, q.r2))
  {
    DotCommutes(v, q.r0);
    DotCommutes(v, q.r1);
    DotCommutes(v, q.r2);
  }

  lemma ApplyDifference(q: Mat3, v: Vec3, w: Vec3)
    ensures Sub(Apply(q, v), Apply(q, w)) == Apply(q, Sub(v, w))
  {
    DotLinear(1.0, v, w, q.r0);
    DotLinear(1.0, v, w, q.r1);
    DotLinear(1.0, v, w, q.r2);
  }

  lemma ApplyQuotient(q: Mat3, v: Vec3, s: real)
    requires s != 0.0
    ensures Divide(Apply(q, v), s) == Apply(q, Divide(v, s))
  {
    DotQuotient(q.r0, v, s);
    DotQuotient(q.r1, v, s);
    DotQuotient(q.r2, v, s);
  }

  lemma DotQuotient(r: Vec3, v: Vec3, s: real)
    requires s != 0.0
    ensures Dot(r, v) / s == Dot(r, Divide(v, s))
  {
    var w := Divide(v, s);
    assert Scale(s, w) == v;
    DotLinear(s, w, w, r);
    Undo(Dot(r, w), s, Dot(r, v));
  }

  lemma Undo(a: real, s: real, p: real)
    requires s != 0.0 && p == s * a
    ensures p / s == a
  {
  }

  lemma ShiftDrops(c: Vec3, v: Vec3, w: Vec3)
    ensures Sub(Add(v, c), Add(w, c)) == Sub(v, w)
  {
  }

  /** A difference quotient of points, and of directors, turns with the observer. */
  lemma RateSeen(q: Mat3, c: Vec3, v: Vec3, w: Vec3, s: real)
    requires s != 0.0
    ensures Divide(Sub(Seen(q, c, v), Seen(q, c, w)), s) == Apply(q, Divide(Sub(v, w), s))
    ensures Divide(Sub(Apply(q, v), Apply(q, w)), s) == Apply(q, Divide(Sub(v, w), s))
  {
    ShiftDrops(c, Apply(q, v), Apply(q, w));
    ApplyDifference(q, v, w);
    ApplyQuotient(q, Sub(v, w), s);
  }

  /** The force of a segment from its rate of change of position, and the torque from those of its directors. */
  function ForceOf(dX: Vec3, half: Triad, p: seq<real>): Vec3
    requires ParamsOk(p)
  {
    Combo(Shear(p[4], half.d1, dX), half.d1, Shear(p[5], half.d2, dX), half.d2, Excess(p[6], half.d3, dX, 1.0), half.d3)
  }

  function TorqueOf(rate: Triad, half: Triad, p: seq<real>): Vec3
    requires ParamsOk(p)
  {
    Combo(Excess(p[1], rate.d2, half.d3, p[7]), half.d1, Excess(p[2], rate.d3, half.d1, p[8]), half.d2,
          Excess(p[3], rate.d1, half.d2, p[9]), half.d3)
  }

  function Rates(d: Triad, n: Triad, ds: real): Triad
    requires ds != 0.0
  {
    Triad(Divide(Sub(n.d1, d.d1), ds), Divide(Sub(n.d2, d.d2), ds), Divide(Sub(n.d3, d.d3), ds))
  }

  lemma LoadIs(x: Vec3, xn: Vec3, d: Triad, n: Triad, half: Triad, p: seq<real>)
    requires ParamsOk(p)
    ensures RodLoad(x, xn, d, n, half, p) ==
            Load(ForceOf(Divide(Sub(xn, x), p[0]), half, p), TorqueOf(Rates(d, n, p[0]), half, p))
  {
  }

  /** Strains that an orthogonal matrix keeps. */
  lemma StrainsKept(q: Mat3, a: real, u: Vec3, v: Vec3, reference: real)
    requires Orthogonal(q)
    ensures Shear(a, Apply(q, u), Apply(q, v)) == Shear(a, u, v)
    ensures Excess(a, Apply(q, u), Apply(q, v), reference) == Excess(a, u, v, reference)
  {
    OrthogonalKeepsDot(q, u, v);
  }

  lemma ForceTurns(q: Mat3, dX: Vec3, half: Triad, p: seq<real>)
    requires Orthogonal(q) && ParamsOk(p)
    ensures ForceOf(Apply(q, dX), Carried(q, half), p) == Apply(q, ForceOf(dX, half, p))
  {
    StrainsKept(q, p[4], half.d1, dX, 0.0);
    StrainsKept(q, p[5], half.d2, dX, 0.0);
    StrainsKept(q, p[6], half.d3, dX, 1.0);
    ApplyCombo(q, Shear(p[4], half.d1, dX), half.d1, Shear(p[5], half.d2, dX), half.d2, Excess(p[6], half.d3, dX, 1.0),
               half.d3);
  }

  lemma TorqueTurns(q: Mat3, rate: Triad, half: Triad, p: seq<real>)
    requires Orthogonal(q) && ParamsOk(p)
    ensures TorqueOf(Carried(q, rate), Carried(q, half), p) == Apply(q, TorqueOf(rate, half, p))
  {
    StrainsKept(q, p[1], rate.d2, half.d3, p[7]);
    StrainsKept(q, p[2], rate.d3, half.d1, p[8]);
    StrainsKept(q, p[3], rate.d1, half.d2, p[9]);
    ApplyCombo(q, Excess(p[1], rate.d2, half.d3, p[7]), half.d1, Excess(p[2], rate.d3, half.d1, p[8]), half.d2,
               Excess(p[3], rate.d1, half.d2, p[9]), half.d3);
  }

  /** An observer who has turned and shifted sees the same load, turned. */
  lemma LoadIsObjective(q: Mat3, c: Vec3, x: Vec3, xn: Vec3, d: Triad, n: Triad, half: Triad, p: seq<real>)
    requires Orthogonal(q) && ParamsOk(p)
    ensures var load := RodLoad(x, xn, d, n, half, p);
            RodLoad(Seen(q, c, x), Seen(q, c, xn), Carried(q, d), Carried(q, n), Carried(q, half), p)
            == Load(Apply(q, load.force), Apply(q, load.torque))
  {
    LoadIs(x, xn, d, n, half, p);
    LoadIs(Seen(q, c, x), Seen(q, c, xn), Carried(q, d), Carried(q, n), Carried(q, half), p);
    RateSeen(q, c, xn, x, p[0]);
    RateSeen(q, c, n.d1, d.d1, p[0]);
    RateSeen(q, c, n.d2, d.d2, p[0]);
    RateSeen(q, c, n.d3, d.d3, p[0]);
    ForceTurns(q, Divide(Sub(xn, x), p[0]), half, p);
    TorqueTurns(q, Rates(d, n, p[0]), half, p);
  }

  // --------------------------------------------------- along the half directors

  lemma AlongDirectors(half: Triad, a: real, b: real, c: real, v: Vec3)
    requires Orthonormal(half) && v == Combo(a, half.d1, b, half.d2, c, half.d3)
    ensures Dot(v, half.d1) == a && Dot(v, half.d2) == b && Dot(v, half.d3) == c
  {
    DotCommutes(half.d1, half.d2);
    DotCommutes(half.d1, half.d3);
    DotCommutes(half.d2, half.d3);
    var x := DotCombo(a, half.d1, b, half.d2, c, half.d3, half.d1, 1.0, 0.0, 0.0);
    var y := DotCombo(a, half.d1, b, half.d2, c, half.d3, half.d2, 0.0, 1.0, 0.0);
    var z := DotCombo(a, half.d1, b, half.d2, c, half.d3, half.d3, 0.0, 0.0, 1.0);
  }

  lemma NoCombo(half: Triad, a: real, b: real, c: real, v: Vec3)
    requires Orthonormal(half) && v == Combo(a, half.d1, b, half.d2, c, half.d3)
    ensures v == ZERO <==> a == 0.0 && b == 0.0 && c == 0.0
  {
    AlongDirectors(half, a, b, c, v);
    if v == ZERO {
      DotZero(half.d1);
      DotZero(half.d2);
      DotZero(half.d3);
    } else if a == 0.0 && b == 0.0 && c == 0.0 {
      NothingScaled(half);
    }
  }

  lemma NothingScaled(half: Triad)
    ensures Combo(0.0, half.d1, 0.0, half.d2, 0.0, half.d3) == ZERO
  {
  }

  lemma NoProduct(a: real, e: real)
    requires a != 0.0
    ensures a * e == 0.0 <==> e == 0.0
  {
  }

  lemma NoStrain(a: real, u: Vec3, v: Vec3, reference: real)
    requires a != 0.0
    ensures Shear(a, u, v) == 0.0 <==> Dot(u, v) == 0.0
    ensures Excess(a, u, v, reference) == 0.0 <==> Dot(u, v) == reference
  {
    NoProduct(a, Dot(u, v));
    NoProduct(a, Dot(u, v) - reference);
  }

  /** Stretched by one along the third half director, sheared along neither other, bent and twisted as in its
      reference shape. */
  predicate AtReference(x: Vec3, xn: Vec3, d: Triad, n: Triad, half: Triad, p: seq<real>)
    requires ParamsOk(p)
  {
    var dX, rate := Divide(Sub(xn, x), p[0]), Rates(d, n, p[0]);
    && Dot(half.d1, dX) == 0.0 && Dot(half.d2, dX) == 0.0 && Dot(half.d3, dX) == 1.0
    && Dot(rate.d2, half.d3) == p[7] && Dot(rate.d3, half.d1) == p[8] && Dot(rate.d1, half.d2) == p[9]
  }

  /** A segment carries no load exactly at its reference strains. */
  lemma UnloadedIff(x: Vec3, xn: Vec3, d: Triad, n: Triad, half: Triad, p: seq<real>)
    requires ParamsOk(p) && Orthonormal(half) && forall i :: 1 <= i <= 6 ==> p[i] != 0.0
    ensures RodLoad(x, xn, d, n, half, p) == Load(ZERO, ZERO) <==> AtReference(x, xn, d, n, half, p)
  {
    var dX, rate := Divide(Sub(xn, x), p[0]), Rates(d, n, p[0]);
    LoadIs(x, xn, d, n, half, p);
    NoForceIff(dX, half, p);
    NoTorqueIff(rate, half, p);
  }

  lemma NoForceIff(dX: Vec3, half: Triad, p: seq<real>)
    requires ParamsOk(p) && Orthonormal(half) && p[4] != 0.0 && p[5] != 0.0 && p[6] != 0.0
    ensures ForceOf(dX, half, p) == ZERO
       <==> Dot(half.d1, dX) == 0.0 && Dot(half.d2, dX) == 0.0 && Dot(half.d3, dX) == 1.0
  {
    NoCombo(half, Shear(p[4], half.d1, dX), Shear(p[5], half.d2, dX), Excess(p[6], half.d3, dX, 1.0),
            ForceOf(dX, half, p));
    NoStrain(p[4], half.d1, dX, 0.0);
    NoStrain(p[5], half.d2, dX, 0.0);
    NoStrain(p[6], half.d3, dX, 1.0);
  }

  lemma NoTorqueIff(rate: Triad, half: Triad, p: seq<real>)
    requires ParamsOk(p) && Orthonormal(half) && p[1] != 0.0 && p[2] != 0.0 && p[3] != 0.0
    ensures TorqueOf(rate, half, p) == ZERO
       <==> Dot(rate.d2, half.d3) == p[7] && Dot(rate.d3, half.d1) == p[8] && Dot(rate.d1, half.d2) == p[9]
  {
    NoCombo(half, Excess(p[1], rate.d2, half.d3, p[7]), Excess(p[2], rate.d3, half.d1, p[8]),
            Excess(p[3], rate.d1, half.d2, p[9]), TorqueOf(rate, half, p));
    NoStrain(p[1], rate.d2, half.d3, p[7]);
    NoStrain(p[2], rate.d3, half.d1, p[8]);
    NoStrain(p[3], rate.d1, half.d2, p[9]);
  }

  // ------------------------------------------------------------------ energy

  /** Half a stiffness times the square of a strain. */
  function Stored(b: real, strain: real): real {
    0.5 * (b * (strain * strain))
  }

  /** The energy per length of shear and stretch. */
  function StretchEnergy(dX: Vec3, half: Triad, p: seq<real>): real
    requires ParamsOk(p)
  {
    Stored(p[4], Dot(half.d1, dX)) + Stored(p[5], Dot(half.d2, dX)) + Stored(p[6], Dot(half.d3, dX) - 1.0)
  }

  lemma StoredGrows(b: real, g: real, e: real)
    ensures Stored(b, g + e) - Stored(b, g) == (b * g) * e + Stored(b, e)
  {
  }

  /** The force is the gradient of the stretch energy: a change `e` of the rate of change of position stores the
      work of the force along `e`, and beyond it only the square of `e`. */
  lemma ForceIsGradient(dX: Vec3, e: Vec3, half: Triad, p: seq<real>)
    requires ParamsOk(p)
    ensures StretchEnergy(Add(dX, e), half, p) - StretchEnergy(dX, half, p)
         == Dot(ForceOf(dX, half, p), e)
            + (Stored(p[4], Dot(half.d1, e)) + Stored(p[5], Dot(half.d2, e)) + Stored(p[6], Dot(half.d3, e)))
  {
    var e1, e2, e3 := Dot(half.d1, e), Dot(half.d2, e), Dot(half.d3, e);
    DotLinear(1.0, dX, e, half.d1);
    DotLinear(1.0, dX, e, half.d2);
    DotLinear(1.0, dX, e, half.d3);
    StoredGrows(p[4], Dot(half.d1, dX), e1);
    StoredGrows(p[5], Dot(half.d2, dX), e2);
    StoredGrows(p[6], Dot(half.d3, dX) - 1.0, e3);
    var w := DotCombo(Shear(p[4], half.d1, dX), half.d1, Shear(p[5], half.d2, dX), half.d2,
                      Excess(p[6], half.d3, dX, 1.0), half.d3, e, e1, e2, e3);
  }

  // ------------------------------------------------------------------- twist

  /** The axis about which a rotation turns, times twice the sine of its angle. */
  function Axial(s: Mat3): Vec3 {
    Vec3(s.r2.y - s.r1.z, s.r0.z - s.r2.x, s.r1.x - s.r0.y)
  }

  lemma AxialCross(s: Mat3, v: Vec3)
    ensures Sub(Apply(s, v), Apply(Transpose(s), v)) == Cross(Axial(s), v)
  {
  }

  /** The transpose of an orthogonal matrix undoes it. */
  lemma TransposeUndoes(s: Mat3, v: Vec3)
    requires Orthogonal(s)
    ensures Apply(Transpose(s), Apply(s, v)) == v
  {
    ApplyColumns(s, v);
    var c0, c1, c2 := Col(s, 0), Col(s, 1), Col(s, 2);
    DotCommutes(c0, c1);
    DotCommutes(c0, c2);
    DotCommutes(c1, c2);
    var x := DotCombo(v.x, c0, v.y, c1, v.z, c2, c0, 1.0, 0.0, 0.0);
    var y := DotCombo(v.x, c0, v.y, c1, v.z, c2, c1, 0.0, 1.0, 0.0);
    var z := DotCombo(v.x, c0, v.y, c1, v.z, c2, c2, 0.0, 0.0, 1.0);
  }

  /** The change of a director along the segment is a turn of its half director about one vector. */
  lemma DirectorTurns(s: Mat3, d: Vec3, h: Vec3, n: Vec3)
    requires Orthogonal(s) && h == Apply(s, d) && n == Apply(s, h)
    ensures Sub(n, d) == Cross(Axial(s), h)
  {
    TransposeUndoes(s, d);
    AxialCross(s, h);
  }

  /** The rate at which the directors turn along the segment. */
  function Twist(s: Mat3, ds: real): Vec3
    requires ds != 0.0
  {
    Divide(Axial(s), ds)
  }

  lemma CrossQuotient(v: Vec3, w: Vec3, s: real)
    requires s != 0.0
    ensures Divide(Cross(v, w), s) == Cross(Divide(v, s), w)
  {
    var u := Divide(v, s);
    assert Scale(s, u) == v;
    CrossScale(s, u, w);
    UndoScale(s, Cross(u, w));
  }

  lemma UndoScale(s: real, v: Vec3)
    requires s != 0.0
    ensures Divide(Scale(s, v), s) == v
  {
    Undo(v.x, s, s * v.x);
    Undo(v.y, s, s * v.y);
    Undo(v.z, s, s * v.z);
  }

  /** What the code measures as bend and twist is the rate of turning about the half directors. */
  lemma StrainsAreTwist(w: Vec3, h: Triad)
    requires Frame(h.d1, h.d2, h.d3)
    ensures Dot(Cross(w, h.d2), h.d3) == Dot(w, h.d1)
    ensures Dot(Cross(w, h.d3), h.d1) == Dot(w, h.d2)
    ensures Dot(Cross(w, h.d1), h.d2) == Dot(w, h.d3)
  {
    OtherCrosses(h);
    MovedFactor(w, h.d2, h.d3);
    MovedFactor(w, h.d3, h.d1);
    MovedFactor(w, h.d1, h.d2);
  }

  lemma MovedFactor(w: Vec3, u: Vec3, v: Vec3)
    ensures Dot(Cross(w, u), v) == Dot(w, Cross(u, v))
  {
    TripleCyclic(v, w, u);
    DotCommutes(v, Cross(w, u));
  }

  /** In a right-handed frame every director is the product of the two that follow it. */
  lemma OtherCrosses(h: Triad)
    requires Frame(h.d1, h.d2, h.d3)
    ensures Cross(h.d2, h.d3) == h.d1 && Cross(h.d3, h.d1) == h.d2
  {
    DotCommutes(h.d1, h.d2);
    BacCab(h.d2, h.d1, h.d2);
    BacCab(h.d1, h.d1, h.d2);
    CrossSelf(h.d3, h.d1);
    OneOfTwo(h.d1, h.d2);
  }

  lemma OneOfTwo(u: Vec3, v: Vec3)
    ensures Sub(Scale(1.0, u), Scale(0.0, v)) == u && Neg(Sub(Scale(0.0, u), Scale(1.0, v))) == v
  {
  }

  /** The components of a torque along the half directors are stiffnesses times excesses of the twist `w`. */
  predicate ExcessTwist(torque: Vec3, half: Triad, w: Vec3, p: seq<real>)
    requires ParamsOk(p)
  {
    && Dot(torque, half.d1) == p[1] * (Dot(w, half.d1) - p[7])
    && Dot(torque, half.d2) == p[2] * (Dot(w, half.d2) - p[8])
    && Dot(torque, half.d3) == p[3] * (Dot(w, half.d3) - p[9])
  }

  /** The torque of a segment along each half director is the stiffness times the excess of the twist about it
      over the reference value. */
  lemma TorqueIsExcessTwist(x: Vec3, xn: Vec3, d: Triad, n: Triad, s: Mat3, p: seq<real>)
    requires ParamsOk(p) && Orthogonal(s) && Orthonormal(d) && MatMul(s, s) == Align(d, n)
    requires var half := Carried(s, d); Frame(half.d1, half.d2, half.d3)
    ensures ExcessTwist(RodLoad(x, xn, d, n, Carried(s, d), p).torque, Carried(s, d), Twist(s, p[0]), p)
  {
    var half := Carried(s, d);
    HalfDirectors(d, n, s);
    LoadIs(x, xn, d, n, half, p);
    RatesTurn(d, n, s, half, p[0]);
    TorqueAlong(Rates(d, n, p[0]), half, Twist(s, p[0]), p, RodLoad(x, xn, d, n, half, p).torque);
  }

  lemma RatesTurn(d: Triad, n: Triad, s: Mat3, half: Triad, ds: real)
    requires ds != 0.0 && Orthogonal(s) && half == Carried(s, d) && n == Carried(s, half)
    ensures Rates(d, n, ds) ==
            Triad(Cross(Twist(s, ds), half.d1), Cross(Twist(s, ds), half.d2), Cross(Twist(s, ds), half.d3))
  {
    DirectorTurns(s, d.d1, half.d1, n.d1);
    DirectorTurns(s, d.d2, half.d2, n.d2);
    DirectorTurns(s, d.d3, half.d3, n.d3);
    CrossQuotient(Axial(s), half.d1, ds);
    CrossQuotient(Axial(s), half.d2, ds);
    CrossQuotient(Axial(s), half.d3, ds);
  }

  lemma TorqueAlong(rate: Triad, half: Triad, w: Vec3, p: seq<real>, torque: Vec3)
    requires ParamsOk(p) && Frame(half.d1, half.d2, half.d3) && torque == TorqueOf(rate, half, p)
    requires rate == Triad(Cross(w, half.d1), Cross(w, half.d2), Cross(w, half.d3))
    ensures ExcessTwist(torque, half, w, p)
  {
    StrainsAreTwist(w, half);
    AlongDirectors(half, Excess(p[1], rate.d2, half.d3, p[7]), Excess(p[2], rate.d3, half.d1, p[8]),
                   Excess(p[3], rate.d1, half.d2, p[9]), torque);
  }
}
