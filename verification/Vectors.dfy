/** Three-dimensional vectors and matrices over the reals, with the algebraic
    identities that the balance, rotation and flow-meter proofs rest on. */
module Vectors {

  datatype Vec3 = Vec3(x: real, y: real, z: real)

  const ZERO := Vec3(0.0, 0.0, 0.0)

  function Add(a: Vec3, b: Vec3): Vec3 {
    Vec3(a.x + b.x, a.y + b.y, a.z + b.z)
  }

  function Sub(a: Vec3, b: Vec3): Vec3 {
    Vec3(a.x - b.x, a.y - b.y, a.z - b.z)
  }

  function Scale(k: real, a: Vec3): Vec3 {
    Vec3(k * a.x, k * a.y, k * a.z)
  }

  function Divide(a: Vec3, k: real): Vec3
    requires k != 0.0
  {
    Vec3(a.x / k, a.y / k, a.z / k)
  }

  function Neg(a: Vec3): Vec3 {
    Vec3(-a.x, -a.y, -a.z)
  }

  function Dot(a: Vec3, b: Vec3): real {
    a.x * b.x + a.y * b.y + a.z * b.z
  }

  function Cross(a: Vec3, b: Vec3): Vec3 {
    Vec3(a.y * b.z - b.y * a.z, b.x * a.z - a.x * b.z, a.x * b.y - b.x * a.y)
  }

  /** A Euclidean length: the square root is not computed here, only characterised. */
  ghost predicate IsNorm(norm: Vec3 -> real) {
    forall v :: norm(v) >= 0.0 && norm(v) * norm(v) == Dot(v, v)
  }

  lemma DotLinear(k: real, a: Vec3, b: Vec3, c: Vec3)
    ensures Dot(Add(a, b), c) == Dot(a, c) + Dot(b, c)
    ensures Dot(c, Add(a, b)) == Dot(c, a) + Dot(c, b)
    ensures Dot(Sub(a, b), c) == Dot(a, c) - Dot(b, c)
    ensures Dot(c, Sub(a, b)) == Dot(c, a) - Dot(c, b)
    ensures Dot(Scale(k, a), c) == k * Dot(a, c) == Dot(c, Scale(k, a))
    ensures Dot(a, c) == Dot(c, a)
  {
    Distribute(k, a.x * c.x, a.y * c.y, a.z * c.z, Dot(a, c));
  }

  lemma Distribute(k: real, p: real, q: real, r: real, s: real)
    requires s == p + q + r
    ensures k * s == k * p + k * q + k * r
  {
  }

  lemma AddAssociative(a: Vec3, b: Vec3, c: Vec3)
    ensures Add(Add(a, b), c) == Add(a, Add(b, c))
  {
  }

  lemma AddZero(a: Vec3)
    ensures Add(a, ZERO) == a && Add(ZERO, a) == a
  {
  }

  lemma ProductPositive(p: real, q: real, m: real)
    requires p > 0.0 && q > 0.0 && m == p * q
    ensures m > 0.0
  {
  }

  lemma NonNegative(p: real, q: real)
    requires p >= 0.0 && q >= 0.0
    ensures p * q >= 0.0
  {
    if p > 0.0 && q > 0.0 {
      ProductPositive(p, q, p * q);
    }
  }

  lemma QuotientTimes(a: real, b: real, q: real)
    requires b != 0.0 && q == a / b
    ensures q * b == a
  {
  }

  lemma QuotientBetween(p: real, a: real, lo: real, hi: real)
    requires a > 0.0 && lo * a <= p <= hi * a
    ensures lo <= p / a <= hi
  {
    var m := p / a;
    QuotientTimes(p, a, m);
    if m < lo {
      ProductPositive(lo - m, a, (lo - m) * a);
    }
    if m > hi {
      ProductPositive(m - hi, a, (m - hi) * a);
    }
  }

  lemma DotCommutes(a: Vec3, b: Vec3)
    ensures Dot(a, b) == Dot(b, a)
  {
  }

  lemma DotZero(a: Vec3)
    ensures Dot(a, ZERO) == 0.0 == Dot(ZERO, a)
  {
  }

  lemma DotNeg(a: Vec3, b: Vec3)
    ensures Dot(a, Neg(b)) == -Dot(a, b)
  {
  }

  lemma DotScaled(k: real, a: Vec3, b: Vec3, d: real)
    requires d == Dot(a, b)
    ensures Dot(Scale(k, a), b) == k * d
  {
    DotLinear(k, a, a, b);
  }

  lemma ScaleNeg(k: real, a: Vec3)
    ensures Neg(Scale(k, a)) == Scale(k, Neg(a))
  {
  }

  lemma CrossNeg(a: Vec3, b: Vec3)
    ensures Cross(a, Neg(b)) == Neg(Cross(a, b)) == Cross(Neg(a), b)
  {
  }

  lemma CrossAdd(a: Vec3, b: Vec3, c: Vec3)
    ensures Cross(Add(a, b), c) == Add(Cross(a, c), Cross(b, c))
    ensures Cross(c, Add(a, b)) == Add(Cross(c, a), Cross(c, b))
  {
  }

  lemma CrossSub(a: Vec3, b: Vec3, c: Vec3)
    ensures Cross(Sub(a, b), c) == Sub(Cross(a, c), Cross(b, c))
    ensures Cross(c, Sub(a, b)) == Sub(Cross(c, a), Cross(c, b))
  {
  }

  lemma CrossScale(k: real, a: Vec3, b: Vec3)
    ensures Cross(Scale(k, a), b) == Scale(k, Cross(a, b))
    ensures Cross(a, Scale(k, b)) == Scale(k, Cross(a, b))
  {
    CrossScaleLeft(k, a, b);
    CrossScaleLeft(k, b, a);
    CrossSelf(a, b);
    CrossSelf(a, Scale(k, b));
  }

  lemma CrossScaleLeft(k: real, a: Vec3, b: Vec3)
    ensures Cross(Scale(k, a), b) == Scale(k, Cross(a, b))
  {
    ScaledDifference(k, a.y, b.z, b.y, a.z, Cross(a, b).x);
    ScaledDifference(k, b.x, a.z, a.x, b.z, Cross(a, b).y);
    ScaledDifference(k, a.x, b.y, b.x, a.y, Cross(a, b).z);
  }

  lemma ScaledDifference(k: real, p: real, q: real, r: real, s: real, d: real)
    requires d == p * q - r * s
    ensures (k * p) * q - r * (k * s) == k * d
    ensures p * (k * q) - (k * r) * s == k * d
  {
  }

  lemma CrossSelf(a: Vec3, b: Vec3)
    ensures Cross(a, a) == ZERO
    ensures Cross(a, b) == Neg(Cross(b, a))
    ensures Dot(a, Cross(a, b)) == 0.0 == Dot(b, Cross(a, b))
  {
  }

  lemma TripleCyclic(a: Vec3, b: Vec3, c: Vec3)
    ensures Dot(a, Cross(b, c)) == Dot(b, Cross(c, a)) == Dot(c, Cross(a, b))
  {
    TripleTurned(a, b, c, Cross(b, c), Cross(c, a));
    TripleTurned(b, c, a, Cross(c, a), Cross(a, b));
  }

  lemma TripleTurned(a: Vec3, b: Vec3, c: Vec3, u: Vec3, v: Vec3)
    requires u == Cross(b, c) && v == Cross(c, a)
    ensures Dot(a, u) == Dot(b, v)
  {
    TripleScalars(a.x, a.y, a.z, b.x, b.y, b.z, c.x, c.y, c.z, u.x, u.y, u.z, v.x, v.y, v.z);
  }

  lemma TripleScalars(ax: real, ay: real, az: real, bx: real, b_y: real, bz: real, cx: real, cy: real, cz: real,
                      ux: real, uy: real, uz: real, vx: real, vy: real, vz: real)
    requires ux == b_y * cz - cy * bz && uy == cx * bz - bx * cz && uz == bx * cy - cx * b_y
    requires vx == cy * az - ay * cz && vy == ax * cz - cx * az && vz == cx * ay - ax * cy
    ensures ax * ux + ay * uy + az * uz == bx * vx + b_y * vy + bz * vz
  {
  }

  lemma Lagrange(a: Vec3, b: Vec3, c: Vec3, d: Vec3)
    ensures Dot(Cross(a, b), Cross(c, d)) == Dot(a, c) * Dot(b, d) - Dot(a, d) * Dot(b, c)
  {
  }

  function Zeros(n: nat): (r: seq<Vec3>)
    ensures |r| == n && forall k :: 0 <= k < n ==> r[k] == ZERO
  {
    seq(n, _ => ZERO)
  }

  function AddVec(a: seq<Vec3>, b: seq<Vec3>): (r: seq<Vec3>)
    requires |a| == |b|
    ensures |r| == |a| && forall k :: 0 <= k < |a| ==> r[k] == Add(a[k], b[k])
  {
    seq(|a|, k requires 0 <= k < |a| => Add(a[k], b[k]))
  }

  /** The cyclic relabelling of the axes, under which products are invariant. */
  function Turn(a: Vec3): Vec3 {
    Vec3(a.y, a.z, a.x)
  }

  lemma TurnProducts(a: Vec3, b: Vec3)
    ensures Dot(Turn(a), Turn(b)) == Dot(a, b)
    ensures Cross(Turn(a), Turn(b)) == Turn(Cross(a, b))
  {
  }

  lemma BacCabX(a: Vec3, b: Vec3, c: Vec3, w: Vec3, ac: real, ab: real)
    requires w == Cross(b, c) && ac == Dot(a, c) && ab == Dot(a, b)
    ensures Cross(a, w).x == ac * b.x - ab * c.x
  {
    assert a.y * w.z == a.y * (b.x * c.y - c.x * b.y);
    assert w.y * a.z == (c.x * b.z - b.x * c.z) * a.z;
  }

  lemma BacCabTurned(a: Vec3, b: Vec3, c: Vec3, w: Vec3, ac: real, ab: real)
    requires w == Cross(b, c) && ac == Dot(a, c) && ab == Dot(a, b)
    ensures Cross(a, w).y == ac * b.y - ab * c.y
  {
    TurnProducts(a, b);
    TurnProducts(a, c);
    TurnProducts(b, c);
    TurnProducts(a, w);
    BacCabX(Turn(a), Turn(b), Turn(c), Turn(w), ac, ab);
  }

  lemma BacCabTurnedTwice(a: Vec3, b: Vec3, c: Vec3, w: Vec3, ac: real, ab: real)
    requires w == Cross(b, c) && ac == Dot(a, c) && ab == Dot(a, b)
    ensures Cross(a, w).z == ac * b.z - ab * c.z
  {
    TurnProducts(a, b);
    TurnProducts(a, c);
    TurnProducts(b, c);
    TurnProducts(a, w);
    BacCabTurned(Turn(a), Turn(b), Turn(c), Turn(w), ac, ab);
  }

  lemma BacCab(a: Vec3, b: Vec3, c: Vec3)
    ensures Cross(a, Cross(b, c)) == Sub(Scale(Dot(a, c), b), Scale(Dot(a, b), c))
  {
    BacCabX(a, b, c, Cross(b, c), Dot(a, c), Dot(a, b));
    BacCabTurned(a, b, c, Cross(b, c), Dot(a, c), Dot(a, b));
    BacCabTurnedTwice(a, b, c, Cross(b, c), Dot(a, c), Dot(a, b));
  }

  /** A 3x3 matrix by rows. */
  datatype Mat3 = Mat3(r0: Vec3, r1: Vec3, r2: Vec3)

  function Apply(m: Mat3, v: Vec3): Vec3 {
    Vec3(Dot(m.r0, v), Dot(m.r1, v), Dot(m.r2, v))
  }

  function MatAdd(a: Mat3, b: Mat3): Mat3 {
    Mat3(Add(a.r0, b.r0), Add(a.r1, b.r1), Add(a.r2, b.r2))
  }

  function MatNeg(a: Mat3): Mat3 {
    Mat3(Neg(a.r0), Neg(a.r1), Neg(a.r2))
  }

  function Diagonal(k: real): Mat3 {
    Mat3(Vec3(k, 0.0, 0.0), Vec3(0.0, k, 0.0), Vec3(0.0, 0.0, k))
  }

  function Transpose(m: Mat3): Mat3 {
    Mat3(Vec3(m.r0.x, m.r1.x, m.r2.x), Vec3(m.r0.y, m.r1.y, m.r2.y), Vec3(m.r0.z, m.r1.z, m.r2.z))
  }

  const ZERO_MAT := Mat3(ZERO, ZERO, ZERO)

  lemma ApplyMatAdd(m: Mat3, n: Mat3, v: Vec3)
    ensures Apply(MatAdd(m, n), v) == Add(Apply(m, v), Apply(n, v))
  {
  }

  lemma ApplyMatNeg(m: Mat3, v: Vec3)
    ensures Apply(MatNeg(m), v) == Neg(Apply(m, v))
  {
  }
}
