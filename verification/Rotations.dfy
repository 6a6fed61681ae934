/** Rodrigues' rotation matrices and what they preserve. */
module Rotations {
  import opened Vectors

  /** The matrix written to R: entry (i,j) is c delta_ij + (1 - c) e_i e_j plus s times the cross-product matrix
      of e. */
  function Rodrigues(e: Vec3, c: real, s: real): Mat3 {
    Entries(e, c, 1.0 - c, s)
  }

  /** Entry on the diagonal, and the two entries that follow it cyclically in its row. */
  function OnDiagonal(c: real, k: real, ex: real): real {
    c + k * ex * ex
  }

  function After(k: real, s: real, ex: real, ey: real, ez: real): real {
    k * ex * ey - s * ez
  }

  function Before(k: real, s: real, ex: real, ey: real, ez: real): real {
    k * ex * ez + s * ey
  }

  function Entries(e: Vec3, c: real, k: real, s: real): Mat3 {
    Mat3(Vec3(OnDiagonal(c, k, e.x), After(k, s, e.x, e.y, e.z), Before(k, s, e.x, e.y, e.z)),
         Vec3(Before(k, s, e.y, e.z, e.x), OnDiagonal(c, k, e.y), After(k, s, e.y, e.z, e.x)),
         Vec3(After(k, s, e.z, e.x, e.y), Before(k, s, e.z, e.x, e.y), OnDiagonal(c, k, e.z)))
  }

  function Combo(a: real, u: Vec3, b: real, v: Vec3, c: real, w: Vec3): Vec3 {
    Add(Add(Scale(a, u), Scale(b, v)), Scale(c, w))
  }

  function Mix(a: real, u: real, b: real, v: real, c: real, w: real): real {
    a * u + b * v + c * w
  }

  ghost predicate IsCombo(r: Vec3, a: real, u: Vec3, b: real, v: Vec3, c: real, w: Vec3) {
    r.x == Mix(a, u.x, b, v.x, c, w.x) && r.y == Mix(a, u.y, b, v.y, c, w.y) && r.z == Mix(a, u.z, b, v.z, c, w.z)
  }

  lemma ComboIs(a: real, u: Vec3, b: real, v: Vec3, c: real, w: Vec3)
    ensures IsCombo(Combo(a, u, b, v, c, w), a, u, b, v, c, w)
  {
  }

  /** c v + (1 - c) (e.v) e + s (e x v) */
  function Rotated(e: Vec3, c: real, s: real, v: Vec3): Vec3 {
    Combo(c, v, Weight(c, e, v), e, s, Cross(e, v))
  }

  function Weight(c: real, e: Vec3, v: Vec3): real {
    (1.0 - c) * Dot(e, v)
  }

  lemma RowScalars(r0: real, r1: real, r2: real, c: real, k: real, s: real,
                   ex: real, ey: real, ez: real, vx: real, vy: real, vz: real, g: real, p: real, kg: real)
    requires r0 == c + k * ex * ex && r1 == k * ex * ey - s * ez && r2 == k * ex * ez + s * ey
    requires g == ex * vx + ey * vy + ez * vz && p == ey * vz - vy * ez && kg == k * g
    ensures r0 * vx + r1 * vy + r2 * vz == c * vx + kg * ex + s * p
  {
    var kx := k * ex;
    assert r0 * vx == c * vx + kx * (ex * vx);
    assert r1 * vy == kx * (ey * vy) - s * (ez * vy);
    assert r2 * vz == kx * (ez * vz) + s * (ey * vz);
    Distribute(kx, ex * vx, ey * vy, ez * vz, g);
    assert kg * ex == kx * g;
  }

  lemma ApplyRodrigues(e: Vec3, c: real, s: real, v: Vec3)
    ensures Apply(Rodrigues(e, c, s), v) == Rotated(e, c, s, v)
  {
    WeightIs(c, e, v, 1.0 - c, Dot(e, v));
    ApplyEntries(e, c, 1.0 - c, s, v, Dot(e, v), Cross(e, v), Weight(c, e, v));
  }

  lemma WeightIs(c: real, e: Vec3, v: Vec3, k: real, g: real)
    requires k == 1.0 - c && g == Dot(e, v)
    ensures Weight(c, e, v) == k * g
  {
    SameProduct(1.0 - c, k, Dot(e, v), g);
  }

  lemma SameProduct(p: real, q: real, x: real, y: real)
    requires p == q && x == y
    ensures p * x == q * y
  {
  }

  lemma ApplyEntries(e: Vec3, c: real, k: real, s: real, v: Vec3, g: real, p: Vec3, kg: real)
    requires g == Dot(e, v) && p == Cross(e, v) && kg == k * g
    ensures Apply(Entries(e, c, k, s), v) == Combo(c, v, kg, e, s, p)
  {
    ApplyRows(Entries(e, c, k, s), e, c, k, s, v, g, p, kg);
  }

  /** The three rows are one row with the axes turned. */
  lemma ApplyRows(m: Mat3, e: Vec3, c: real, k: real, s: real, v: Vec3, g: real, p: Vec3, kg: real)
    requires g == e.x * v.x + e.y * v.y + e.z * v.z && kg == k * g
    requires p.x == e.y * v.z - v.y * e.z && p.y == v.x * e.z - e.x * v.z && p.z == e.x * v.y - v.x * e.y
    requires m == Entries(e, c, k, s)
    ensures Apply(m, v) == Combo(c, v, kg, e, s, p)
  {
    RowIs(m.r0.x, m.r0.y, m.r0.z, c, k, s, e.x, e.y, e.z, v.x, v.y, v.z, g, p.x, kg, Dot(m.r0, v));
    RowIs(m.r1.y, m.r1.z, m.r1.x, c, k, s, e.y, e.z, e.x, v.y, v.z, v.x, g, p.y, kg, Dot(m.r1, v));
    RowIs(m.r2.z, m.r2.x, m.r2.y, c, k, s, e.z, e.x, e.y, v.z, v.x, v.y, g, p.z, kg, Dot(m.r2, v));
    ComboIs(c, v, kg, e, s, p);
  }

  lemma RowIs(r0: real, r1: real, r2: real, c: real, k: real, s: real, ex: real, ey: real, ez: real,
              vx: real, vy: real, vz: real, g: real, p: real, kg: real, r: real)
    requires r0 == OnDiagonal(c, k, ex) && r1 == After(k, s, ex, ey, ez) && r2 == Before(k, s, ex, ey, ez)
    requires g == ex * vx + ey * vy + ez * vz && p == ey * vz - vy * ez && kg == k * g
    requires r == r0 * vx + r1 * vy + r2 * vz
    ensures r == Mix(c, vx, kg, ex, s, p)
  {
    RowScalars(r0, r1, r2, c, k, s, ex, ey, ez, vx, vy, vz, g, p, kg);
  }

  // -------------------------------------------------------------- lengths

  lemma DotCombo(a: real, u: Vec3, b: real, v: Vec3, c: real, w: Vec3, t: Vec3, x: real, y: real, z: real)
    returns (r: real)
    requires x == Dot(u, t) && y == Dot(v, t) && z == Dot(w, t)
    ensures r == a * x + b * y + c * z && r == Dot(Combo(a, u, b, v, c, w), t) && r == Dot(t, Combo(a, u, b, v, c, w))
  {
    DotScaled(a, u, t, x);
    DotScaled(b, v, t, y);
    DotScaled(c, w, t, z);
    var au, bv, cw := Scale(a, u), Scale(b, v), Scale(c, w);
    DotSum(au, bv, cw, t);
    DotCommutes(Combo(a, u, b, v, c, w), t);
    r := a * x + b * y + c * z;
  }

  lemma DotSum(u: Vec3, v: Vec3, w: Vec3, t: Vec3)
    ensures Dot(Add(Add(u, v), w), t) == Dot(u, t) + Dot(v, t) + Dot(w, t)
  {
  }

  /** The arithmetic left once all inner products are known. */
  lemma DotScalars(c: real, s: real, k: real, a: real, b: real, d: real, t: real, x: real, y: real, z: real, kb: real,
                   n: real, ka: real)
    requires k == 1.0 - c && c * c + s * s == 1.0 && kb == k * b && n == d - a * b && ka == k * a
    requires x == c * d + kb * a + s * t && y == c * b + kb * 1.0 + s * 0.0 && z == c * (-t) + kb * 0.0 + s * n
    ensures c * x + ka * y + s * z == d
  {
    assert y == b;
    var ab := a * b;
    assert c * x == (c * c) * d + (c * k) * ab + (c * s) * t;
    assert (k * a) * y == k * ab;
    assert s * z == -((c * s) * t) + (s * s) * d - (s * s) * ab;
    assert c * k + k - s * s == 0.0;
    assert (c * k) * ab + k * ab - (s * s) * ab == (c * k + k - s * s) * ab;
    assert (c * c) * d + (s * s) * d == (c * c + s * s) * d;
  }

  /** A rotation about a unit axis keeps inner products. */
  lemma KeepsDot(e: Vec3, c: real, s: real, v: Vec3, w: Vec3)
    requires Dot(e, e) == 1.0 && c * c + s * s == 1.0
    ensures Dot(Rotated(e, c, s, v), Rotated(e, c, s, w)) == Dot(v, w)
  {
    var a, b, d, t := Dot(e, v), Dot(e, w), Dot(v, w), Dot(v, Cross(e, w));
    Inner(e, v, w, a, b, d, t);
    WeightIs(c, e, v, 1.0 - c, a);
    WeightIs(c, e, w, 1.0 - c, b);
    KeepsDotFrom(c, s, 1.0 - c, e, v, w, Cross(e, v), Cross(e, w), a, b, d, t, Weight(c, e, v), Weight(c, e, w),
                 d - a * b);
  }

  /** All inner products of e, v, w, e x v and e x w. */
  lemma Inner(e: Vec3, v: Vec3, w: Vec3, a: real, b: real, d: real, t: real)
    requires Dot(e, e) == 1.0 && a == Dot(e, v) && b == Dot(e, w) && d == Dot(v, w) && t == Dot(v, Cross(e, w))
    ensures Dot(w, v) == d && Dot(w, e) == b && Dot(v, e) == a && Dot(Cross(e, w), v) == t
    ensures Dot(w, Cross(e, v)) == -t && Dot(Cross(e, w), e) == 0.0 == Dot(e, Cross(e, v))
    ensures Dot(Cross(e, w), Cross(e, v)) == d - a * b
  {
    CrossSelf(e, v);
    CrossSelf(e, w);
    PullBack(e, v, w);
    DotCommutes(Cross(e, v), w);
    DotCommutes(Cross(e, w), e);
    DotCommutes(Cross(e, w), v);
    DotCommutes(Cross(e, w), Cross(e, v));
    DotCommutes(v, w);
    DotCommutes(w, e);
    DotCommutes(v, e);
    LagrangeUnit(e, v, w, a, b, d);
  }

  lemma LagrangeUnit(e: Vec3, v: Vec3, w: Vec3, a: real, b: real, d: real)
    requires Dot(e, e) == 1.0 && a == Dot(v, e) && b == Dot(e, w) && d == Dot(v, w)
    ensures Dot(Cross(e, v), Cross(e, w)) == d - a * b
  {
    Lagrange(e, v, e, w);
    DotCommutes(v, e);
    OneTimes(Dot(e, e), d, b, a);
  }

  lemma OneTimes(one: real, d: real, b: real, a: real)
    requires one == 1.0
    ensures one * d - b * a == d - a * b
  {
  }

  lemma KeepsDotFrom(c: real, s: real, k: real, e: Vec3, v: Vec3, w: Vec3, p: Vec3, q: Vec3,
                     a: real, b: real, d: real, t: real, ka: real, kb: real, n: real)
    requires k == 1.0 - c && c * c + s * s == 1.0 && ka == k * a && kb == k * b && n == d - a * b
    requires Dot(e, e) == 1.0 && Dot(e, v) == a && Dot(e, w) == b && Dot(w, v) == d && Dot(w, e) == b && Dot(q, v) == t
    requires Dot(w, p) == -t && Dot(q, e) == 0.0 == Dot(e, p) && Dot(q, p) == n
    ensures Dot(Combo(c, v, ka, e, s, p), Combo(c, w, kb, e, s, q)) == d
  {
    var rw := Combo(c, w, kb, e, s, q);
    var x := DotCombo(c, w, kb, e, s, q, v, d, a, t);
    var y := DotCombo(c, w, kb, e, s, q, e, b, 1.0, 0.0);
    var z := DotCombo(c, w, kb, e, s, q, p, -t, 0.0, n);
    var r := DotCombo(c, v, ka, e, s, p, rw, x, y, z);
    DotScalars(c, s, k, a, b, d, t, x, y, z, kb, n, ka);
  }

  lemma PullBack(e: Vec3, v: Vec3, w: Vec3)
    ensures Dot(Cross(e, v), w) == -Dot(v, Cross(e, w))
  {
    TripleCyclic(w, e, v);
    DotCommutes(Cross(e, v), w);
    CrossSelf(w, e);
    DotNeg(v, Cross(e, w));
  }

  // ---------------------------------------------------------- orientation

  lemma CrossCombo(a: real, u: Vec3, b: real, v: Vec3, c: real, w: Vec3, t: Vec3)
    ensures Cross(Combo(a, u, b, v, c, w), t) == Combo(a, Cross(u, t), b, Cross(v, t), c, Cross(w, t))
    ensures Cross(t, Combo(a, u, b, v, c, w)) == Combo(a, Cross(t, u), b, Cross(t, v), c, Cross(t, w))
  {
    var au, bv, cw := Scale(a, u), Scale(b, v), Scale(c, w);
    CrossAdd(Add(au, bv), cw, t);
    CrossAdd(au, bv, t);
    CrossScale(a, u, t);
    CrossScale(b, v, t);
    CrossScale(c, w, t);
    CrossScale(a, t, u);
    CrossScale(b, t, v);
    CrossScale(c, t, w);
  }

  /** b times `v` minus `a` times `w`, as BacCab leaves it. */
  function Bend(b: real, v: Vec3, a: real, w: Vec3): Vec3 {
    Sub(Scale(b, v), Scale(a, w))
  }

  /** The cross products of v, e and p = e x v with w, e and q = e x w, where m = v x w. */
  lemma CrossTable(e: Vec3, v: Vec3, w: Vec3, p: Vec3, q: Vec3, m: Vec3, a: real, b: real, d: real, tau: real)
    requires Dot(e, e) == 1.0 && p == Cross(e, v) && q == Cross(e, w) && m == Cross(v, w)
    requires a == Dot(e, v) && b == Dot(e, w) && d == Dot(v, w) && tau == Dot(e, m)
    ensures Cross(v, e) == Neg(p) && Cross(v, q) == Bend(d, e, a, w)
    ensures Cross(e, e) == ZERO && Cross(e, q) == Bend(b, e, 1.0, w)
    ensures Cross(p, w) == Neg(Bend(d, e, b, v)) && Cross(p, e) == Neg(Bend(a, e, 1.0, v))
    ensures Cross(p, q) == Bend(tau, e, 0.0, w)
    ensures Cross(e, m) == Bend(b, v, a, w)
  {
    DotCommutes(v, e);
    DotCommutes(w, e);
    DotCommutes(w, v);
    DotCommutes(p, e);
    CrossSelf(v, e);
    CrossSelf(e, v);
    CrossSelf(p, w);
    CrossSelf(p, e);
    BacCab(v, e, w);
    BacCab(e, e, w);
    BacCab(w, e, v);
    BacCab(e, e, v);
    BacCab(p, e, w);
    BacCab(e, v, w);
    TripleCyclic(e, v, w);
    DotCommutes(p, w);
  }

  /** e x (e x m), expanded in two ways. */
  lemma DoubleCross(e: Vec3, v: Vec3, w: Vec3, p: Vec3, q: Vec3, m: Vec3, a: real, b: real, tau: real)
    requires Dot(e, e) == 1.0 && p == Cross(e, v) && q == Cross(e, w) && m == Cross(v, w) && tau == Dot(e, m)
    requires Cross(e, m) == Bend(b, v, a, w)
    ensures Bend(b, p, a, q) == Bend(tau, e, 1.0, m)
  {
    BacCab(e, e, m);
    CrossSub(Scale(b, v), Scale(a, w), e);
    CrossScale(b, e, v);
    CrossScale(a, e, w);
  }

  lemma Regrouped(k: real, x: real, y: real, kx: real, xy: real)
    requires kx == k * x && xy == x * y
    ensures kx * y == k * xy
  {
    assert kx * y == (k * x) * y;
    assert k * xy == k * (x * y);
  }

  /** A factor times a three-term component. */
  lemma Spread(f: real, x: real, y: real, z: real, fx: real, fy: real, fz: real, g: real, h: real, i: real, r: real)
    requires r == x * g + y * h + z * i && fx == f * x && fy == f * y && fz == f * z
    ensures f * r == fx * g + fy * h + fz * i
  {
    Regrouped(f, x, g, fx, x * g);
    Regrouped(f, y, h, fy, y * h);
    Regrouped(f, z, i, fz, z * i);
    Distribute(f, x * g, y * h, z * i, r);
  }

  /** The collected terms: each product of the sine and cosine is a coefficient of its own. */
  lemma Collected(c: real, s: real, k: real, cc: real, ck: real, cs: real, ks: real, ss: real,
                  m: real, bp: real, aq: real, te: real, n1: real, n2: real, n3: real, n4: real, n6: real)
    requires cc + ck == c && cs + ks == s && ss - ck == k && bp - aq == te - m && n1 + n3 == n6 && n2 + n4 == n6
    ensures (cc * m - ck * bp + cs * n1) + (ck * aq + ks * n2) + (cs * n3 + ks * n4 + ss * te) ==
            c * m + k * te + s * n6
  {
    assert ck * bp == ck * aq + ck * te - ck * m by {
      assert ck * bp == ck * (aq + te - m);
    }
    assert c * m == cc * m + ck * m;
    assert k * te == ss * te - ck * te;
    assert s * n6 == cs * n6 + ks * n6;
    assert cs * n6 == cs * n1 + cs * n3;
    assert ks * n6 == ks * n2 + ks * n4;
  }

  lemma Coefficients(c: real, s: real, k: real)
    requires k == 1.0 - c && c * c + s * s == 1.0
    ensures c * c + c * k == c && c * s + k * s == s && s * s - c * k == k
  {
  }

  lemma FirstTerm(c: real, s: real, k: real, b: real, kb: real, p: real, bp: real, m: real, n: real, cc: real, ck: real,
                  cs: real, r: real)
    requires kb == k * b && bp == b * p && r == c * m - kb * p + s * n && cc == c * c && ck == c * k && cs == c * s
    ensures c * r == cc * m - ck * bp + cs * n
  {
    Regrouped(k, b, p, kb, bp);
    Spread(c, c, -k, s, cc, -ck, cs, m, bp, n, r);
  }

  lemma SecondTerm(c: real, s: real, k: real, a: real, ka: real, q: real, aq: real, n: real, an: real, ck: real,
                   ks: real, r: real)
    requires ka == k * a && aq == a * q && an == a * n && r == c * q + s * n && ck == c * k && ks == k * s
    ensures ka * r == ck * aq + ks * an
  {
    Regrouped(k, a, q, ka, aq);
    Regrouped(k, a, n, ka, an);
    Distribute(ka, c * q, s * n, 0.0, r);
    Regrouped(c, k, aq, ck, k * aq);
    Regrouped(s, k, an, ks, k * an);
    assert ka * (c * q) == c * (ka * q) && ka * (s * n) == s * (ka * n);
  }

  lemma ThirdTerm(c: real, s: real, k: real, b: real, kb: real, n: real, l: real, bl: real, te: real, cs: real,
                  ks: real, ss: real, r: real)
    requires kb == k * b && bl == b * l && r == c * n + kb * l + s * te && cs == c * s && ks == k * s && ss == s * s
    ensures s * r == cs * n + ks * bl + ss * te
  {
    Regrouped(k, b, l, kb, bl);
    Spread(s, c, k, s, cs, ks, ss, n, bl, te, r);
  }

  /** One component of the cross product of the images against the image of the cross product. */
  lemma CrossScalars(c: real, s: real, k: real, a: real, b: real, ka: real, kb: real, kt: real,
                     e: real, p: real, q: real, m: real, bp: real, aq: real, te: real,
                     n1: real, n2: real, n3: real, n4: real, n6: real, an2: real, bn4: real, r1: real, r2: real,
                     r3: real, cc: real, ck: real, cs: real, ks: real, ss: real)
    requires ka == k * a && kb == k * b && kt * e == k * te
    requires cc == c * c && ck == c * k && cs == c * s && ks == k * s && ss == s * s
    requires cc + ck == c && cs + ks == s && ss - ck == k
    requires bp == b * p && aq == a * q && an2 == a * n2 && bn4 == b * n4
    requires bp - aq == te - m && n1 + n3 == n6 && an2 + bn4 == n6
    requires r1 == c * m - kb * p + s * n1 && r2 == c * q + s * n2 && r3 == c * n3 + kb * n4 + s * te
    ensures c * r1 + ka * r2 + s * r3 == c * m + kt * e + s * n6
  {
    FirstTerm(c, s, k, b, kb, p, bp, m, n1, cc, ck, cs, r1);
    SecondTerm(c, s, k, a, ka, q, aq, n2, an2, ck, ks, r2);
    ThirdTerm(c, s, k, b, kb, n3, n4, bn4, te, cs, ks, ss, r3);
    Collected(c, s, k, cc, ck, cs, ks, ss, m, bp, aq, te, n1, an2, n3, bn4, n6);
  }

  lemma ComponentsAgree(c: real, s: real, k: real, a: real, b: real, d: real, tau: real, ka: real, kb: real, kt: real,
                        v: real, w: real, e: real, p: real, q: real, m: real, np: real,
                        n1: real, n2: real, n3: real, n4: real, n5: real, n6: real, r1: real, r2: real, r3: real,
                        l: real, r: real, bent: real)
    requires k == 1.0 - c && c * c + s * s == 1.0 && ka == k * a && kb == k * b && kt == k * tau
    requires bent == Bent(b, p, a, q) && bent == Bent(tau, e, 1.0, m) && np == -p
    requires n1 == Bent(d, e, a, w) && n2 == Bent(b, e, 1.0, w) && -n3 == Bent(d, e, b, v) && -n4 == Bent(a, e, 1.0, v)
    requires n5 == Bent(tau, e, 0.0, w) && n6 == Bent(b, v, a, w)
    requires r1 == Mix(c, m, kb, np, s, n1) && r2 == Mix(c, q, kb, 0.0, s, n2) && r3 == Mix(c, n3, kb, n4, s, n5)
    requires l == Mix(c, r1, ka, r2, s, r3) && r == Mix(c, m, kt, e, s, n6)
    ensures l == r
  {
    Coefficients(c, s, k);
    Regrouped(k, tau, e, kt, n5);
    Negated(kb, p, np);
    Expanded(a, b, e, w, n2);
    Expanded(b, a, e, v, -n4);
    CrossScalars(c, s, k, a, b, ka, kb, kt, e, p, q, m, b * p, a * q, n5, n1, n2, n3, n4, n6, a * n2, b * n4, r1, r2,
                 r3, c * c, c * k, c * s, k * s, s * s);
  }

  lemma Negated(k: real, p: real, n: real)
    requires n == -p
    ensures k * n == -(k * p)
  {
  }

  lemma Expanded(a: real, b: real, e: real, w: real, n: real)
    requires n == b * e - 1.0 * w
    ensures a * n == a * b * e - a * w && a * (-n) == a * w - a * b * e
  {
  }

  function Bent(b: real, v: real, a: real, w: real): real {
    b * v - a * w
  }

  ghost predicate IsBend(n: Vec3, b: real, v: Vec3, a: real, w: Vec3) {
    n.x == Bent(b, v.x, a, w.x) && n.y == Bent(b, v.y, a, w.y) && n.z == Bent(b, v.z, a, w.z)
  }

  lemma BendIs(b: real, v: Vec3, a: real, w: Vec3)
    ensures IsBend(Bend(b, v, a, w), b, v, a, w)
  {
  }

  /** The componentwise form of everything the cross product of two images consists of. */
  ghost predicate TermsFit(c: real, s: real, k: real, e: Vec3, v: Vec3, w: Vec3, p: Vec3, q: Vec3, m: Vec3,
                   a: real, b: real, d: real, tau: real, ka: real, kb: real, kt: real, r1: Vec3, r2: Vec3, r3: Vec3,
                   l: Vec3, r: Vec3, np: Vec3, n1: Vec3, n2: Vec3, n3: Vec3, n4: Vec3, n5: Vec3, n6: Vec3, bent: Vec3) {
    && k == 1.0 - c && c * c + s * s == 1.0 && ka == k * a && kb == k * b && kt == k * tau
    && IsBend(bent, b, p, a, q) && IsBend(bent, tau, e, 1.0, m) && np == Neg(p)
    && IsBend(n1, d, e, a, w) && IsBend(n2, b, e, 1.0, w) && IsBend(Neg(n3), d, e, b, v)
       && IsBend(Neg(n4), a, e, 1.0, v)
    && IsBend(n5, tau, e, 0.0, w) && IsBend(n6, b, v, a, w)
    && IsCombo(r1, c, m, kb, np, s, n1) && IsCombo(r2, c, q, kb, ZERO, s, n2) && IsCombo(r3, c, n3, kb, n4, s, n5)
    && IsCombo(l, c, r1, ka, r2, s, r3) && IsCombo(r, c, m, kt, e, s, n6)
  }

  lemma TermsX(c: real, s: real, k: real, e: Vec3, v: Vec3, w: Vec3, p: Vec3, q: Vec3, m: Vec3,
                   a: real, b: real, d: real, tau: real, ka: real, kb: real, kt: real, r1: Vec3, r2: Vec3, r3: Vec3,
                   l: Vec3, r: Vec3, np: Vec3, n1: Vec3, n2: Vec3, n3: Vec3, n4: Vec3, n5: Vec3, n6: Vec3, bent: Vec3)
    requires TermsFit(c, s, k, e, v, w, p, q, m, a, b, d, tau, ka, kb, kt, r1, r2, r3, l, r, np, n1, n2, n3, n4, n5, n6,
                      bent)
    ensures l.x == r.x
  {
    ComponentsAgree(c, s, k, a, b, d, tau, ka, kb, kt, v.x, w.x, e.x, p.x, q.x, m.x, np.x, n1.x, n2.x, n3.x, n4.x, n5.x,
                    n6.x, r1.x, r2.x, r3.x, l.x, r.x, bent.x);
  }

  lemma TermsY(c: real, s: real, k: real, e: Vec3, v: Vec3, w: Vec3, p: Vec3, q: Vec3, m: Vec3,
                   a: real, b: real, d: real, tau: real, ka: real, kb: real, kt: real, r1: Vec3, r2: Vec3, r3: Vec3,
                   l: Vec3, r: Vec3, np: Vec3, n1: Vec3, n2: Vec3, n3: Vec3, n4: Vec3, n5: Vec3, n6: Vec3, bent: Vec3)
    requires TermsFit(c, s, k, e, v, w, p, q, m, a, b, d, tau, ka, kb, kt, r1, r2, r3, l, r, np, n1, n2, n3, n4, n5, n6,
                      bent)
    ensures l.y == r.y
  {
    ComponentsAgree(c, s, k, a, b, d, tau, ka, kb, kt, v.y, w.y, e.y, p.y, q.y, m.y, np.y, n1.y, n2.y, n3.y, n4.y, n5.y,
                    n6.y, r1.y, r2.y, r3.y, l.y, r.y, bent.y);
  }

  lemma TermsZ(c: real, s: real, k: real, e: Vec3, v: Vec3, w: Vec3, p: Vec3, q: Vec3, m: Vec3,
                   a: real, b: real, d: real, tau: real, ka: real, kb: real, kt: real, r1: Vec3, r2: Vec3, r3: Vec3,
                   l: Vec3, r: Vec3, np: Vec3, n1: Vec3, n2: Vec3, n3: Vec3, n4: Vec3, n5: Vec3, n6: Vec3, bent: Vec3)
    requires TermsFit(c, s, k, e, v, w, p, q, m, a, b, d, tau, ka, kb, kt, r1, r2, r3, l, r, np, n1, n2, n3, n4, n5, n6,
                      bent)
    ensures l.z == r.z
  {
    ComponentsAgree(c, s, k, a, b, d, tau, ka, kb, kt, v.z, w.z, e.z, p.z, q.z, m.z, np.z, n1.z, n2.z, n3.z, n4.z, n5.z,
                    n6.z, r1.z, r2.z, r3.z, l.z, r.z, bent.z);
  }

  lemma TermsAgree(c: real, s: real, k: real, e: Vec3, v: Vec3, w: Vec3, p: Vec3, q: Vec3, m: Vec3,
                   a: real, b: real, d: real, tau: real, ka: real, kb: real, kt: real, r1: Vec3, r2: Vec3, r3: Vec3,
                   l: Vec3, r: Vec3, np: Vec3, n1: Vec3, n2: Vec3, n3: Vec3, n4: Vec3, n5: Vec3, n6: Vec3, bent: Vec3)
    requires TermsFit(c, s, k, e, v, w, p, q, m, a, b, d, tau, ka, kb, kt, r1, r2, r3, l, r, np, n1, n2, n3, n4, n5, n6,
                      bent)
    ensures l == r
  {
    TermsX(c, s, k, e, v, w, p, q, m, a, b, d, tau, ka, kb, kt, r1, r2, r3, l, r, np, n1, n2, n3, n4, n5, n6, bent);
    TermsY(c, s, k, e, v, w, p, q, m, a, b, d, tau, ka, kb, kt, r1, r2, r3, l, r, np, n1, n2, n3, n4, n5, n6, bent);
    TermsZ(c, s, k, e, v, w, p, q, m, a, b, d, tau, ka, kb, kt, r1, r2, r3, l, r, np, n1, n2, n3, n4, n5, n6, bent);
  }

  /** The images' cross product, in three combinations of the tabled products. */
  lemma ExpandImages(c: real, s: real, e: Vec3, v: Vec3, w: Vec3, p: Vec3, q: Vec3, ka: real, kb: real, r1: Vec3,
                     r2: Vec3, r3: Vec3)
    requires r1 == Combo(c, Cross(v, w), kb, Cross(v, e), s, Cross(v, q))
    requires r2 == Combo(c, Cross(e, w), kb, Cross(e, e), s, Cross(e, q))
    requires r3 == Combo(c, Cross(p, w), kb, Cross(p, e), s, Cross(p, q))
    ensures Cross(Combo(c, v, ka, e, s, p), Combo(c, w, kb, e, s, q)) == Combo(c, r1, ka, r2, s, r3)
  {
    var rw := Combo(c, w, kb, e, s, q);
    CrossCombo(c, v, ka, e, s, p, rw);
    CrossCombo(c, w, kb, e, s, q, v);
    CrossCombo(c, w, kb, e, s, q, e);
    CrossCombo(c, w, kb, e, s, q, p);
  }

  lemma KeepsCrossFrom(c: real, s: real, k: real, e: Vec3, v: Vec3, w: Vec3, p: Vec3, q: Vec3, m: Vec3,
                       a: real, b: real, d: real, tau: real, ka: real, kb: real, kt: real,
                       n1: Vec3, n2: Vec3, n3: Vec3, n4: Vec3, n5: Vec3, n6: Vec3, bent: Vec3)
    requires k == 1.0 - c && c * c + s * s == 1.0 && ka == k * a && kb == k * b && kt == k * tau
    requires Cross(v, w) == m && Cross(v, e) == Neg(p) && Cross(v, q) == n1
    requires Cross(e, w) == q && Cross(e, e) == ZERO && Cross(e, q) == n2
    requires Cross(p, w) == n3 && Cross(p, e) == n4 && Cross(p, q) == n5 && Cross(e, m) == n6
    requires IsBend(bent, b, p, a, q) && IsBend(bent, tau, e, 1.0, m)
    requires IsBend(n1, d, e, a, w) && IsBend(n2, b, e, 1.0, w) && IsBend(Neg(n3), d, e, b, v)
    requires IsBend(Neg(n4), a, e, 1.0, v)
    requires IsBend(n5, tau, e, 0.0, w) && IsBend(n6, b, v, a, w)
    ensures Cross(Combo(c, v, ka, e, s, p), Combo(c, w, kb, e, s, q)) == Combo(c, m, kt, e, s, n6)
  {
    var r1, r2, r3 := Combo(c, m, kb, Neg(p), s, n1), Combo(c, q, kb, ZERO, s, n2), Combo(c, n3, kb, n4, s, n5);
    ExpandImages(c, s, e, v, w, p, q, ka, kb, r1, r2, r3);
    var l, r := Combo(c, r1, ka, r2, s, r3), Combo(c, m, kt, e, s, n6);
    ComboIs(c, m, kb, Neg(p), s, n1);
    ComboIs(c, q, kb, ZERO, s, n2);
    ComboIs(c, n3, kb, n4, s, n5);
    ComboIs(c, r1, ka, r2, s, r3);
    ComboIs(c, m, kt, e, s, n6);
    TermsAgree(c, s, k, e, v, w, p, q, m, a, b, d, tau, ka, kb, kt, r1, r2, r3, l, r, Neg(p), n1, n2, n3, n4, n5, n6,
               bent);
  }

  lemma NegNeg(n: Vec3)
    ensures Neg(Neg(n)) == n
  {
  }

  /** A rotation about a unit axis keeps cross products: the image of v x w is the cross product of the images. */
  lemma KeepsCross(e: Vec3, c: real, s: real, v: Vec3, w: Vec3)
    requires Dot(e, e) == 1.0 && c * c + s * s == 1.0
    ensures Cross(Rotated(e, c, s, v), Rotated(e, c, s, w)) == Rotated(e, c, s, Cross(v, w))
  {
    var m, k := Cross(v, w), 1.0 - c;
    var a, b, tau := Dot(e, v), Dot(e, w), Dot(e, m);
    var ka := WeightOf(c, e, v, k, a);
    var kb := WeightOf(c, e, w, k, b);
    var kt := WeightOf(c, e, m, k, tau);
    KeepsCrossOf(e, c, s, k, v, w, Cross(e, v), Cross(e, w), m, a, b, Dot(v, w), tau, ka, kb, kt);
  }

  lemma WeightOf(c: real, e: Vec3, v: Vec3, k: real, g: real) returns (kg: real)
    requires k == 1.0 - c && g == Dot(e, v)
    ensures kg == k * g && kg == Weight(c, e, v)
  {
    WeightIs(c, e, v, k, g);
    kg := Weight(c, e, v);
  }

  lemma KeepsCrossOf(e: Vec3, c: real, s: real, k: real, v: Vec3, w: Vec3, p: Vec3, q: Vec3, m: Vec3,
                     a: real, b: real, d: real, tau: real, ka: real, kb: real, kt: real)
    requires Dot(e, e) == 1.0 && k == 1.0 - c && c * c + s * s == 1.0 && p == Cross(e, v) && q == Cross(e, w)
    requires m == Cross(v, w)
    requires a == Dot(e, v) && b == Dot(e, w) && d == Dot(v, w) && tau == Dot(e, m)
    requires ka == k * a && kb == k * b && kt == k * tau
    ensures Cross(Combo(c, v, ka, e, s, p), Combo(c, w, kb, e, s, q)) == Combo(c, m, kt, e, s, Cross(e, m))
  {
    CrossTable(e, v, w, p, q, m, a, b, d, tau);
    DoubleCross(e, v, w, p, q, m, a, b, tau);
    BendIs(d, e, a, w);
    BendIs(b, e, 1.0, w);
    BendIs(d, e, b, v);
    BendIs(a, e, 1.0, v);
    BendIs(tau, e, 0.0, w);
    BendIs(b, v, a, w);
    BendIs(b, p, a, q);
    BendIs(tau, e, 1.0, m);
    NegNeg(Bend(d, e, b, v));
    NegNeg(Bend(a, e, 1.0, v));
    KeepsCrossFrom(c, s, k, e, v, w, p, q, m, a, b, d, tau, ka, kb, kt,
                   Bend(d, e, a, w), Bend(b, e, 1.0, w), Neg(Bend(d, e, b, v)), Neg(Bend(a, e, 1.0, v)),
                   Bend(tau, e, 0.0, w), Bend(b, v, a, w), Bend(b, p, a, q));
  }

  /** The axis itself does not move. */
  lemma KeepsAxis(e: Vec3, c: real, s: real)
    requires Dot(e, e) == 1.0
    ensures Rotated(e, c, s, e) == e
  {
    CrossSelf(e, e);
    WeightIs(c, e, e, 1.0 - c, 1.0);
    AxisCombo(c, 1.0 - c, s, e);
  }

  lemma AxisCombo(c: real, k: real, s: real, e: Vec3)
    requires k == 1.0 - c
    ensures Combo(c, e, k, e, s, ZERO) == e
  {
    AxisScalar(c, k, e.x);
    AxisScalar(c, k, e.y);
    AxisScalar(c, k, e.z);
  }

  lemma AxisScalar(c: real, k: real, x: real)
    requires k == 1.0 - c
    ensures c * x + k * x == x
  {
    assert c * x + k * x == (c + k) * x;
  }
}
