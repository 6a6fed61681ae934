/** Springs and beams only exchange momentum, and springs only exchange angular momentum:
    the net force and the net torque of whole meshes. */
module ForceBalance {
  import opened Vectors
  import opened Increments
  import opened ForceElements
  import opened ForceAssembly
  import opened DistributedForce

  /** The torque a beam exerts through its preferred curvature; springs exert none. */
  function Couple(e: Element, x: seq<real>): Vec3
    requires Within(e, |x| / NDIM)
  {
    match e
    case Beam(m, n, p, k, c) =>
      Scale(k, Cross(Sub(Add(NodeAt(x, n), NodeAt(x, p)), Scale(2.0, NodeAt(x, m))), c))
    case _ => ZERO
  }

  function VectorSum(vs: seq<Vec3>): Vec3 {
    if vs == [] then ZERO else Add(VectorSum(vs[..|vs| - 1]), vs[|vs| - 1])
  }

  /** The total couple of all beams. */
  function Couples(es: seq<Element>, x: seq<real>, u: seq<real>): Vec3
    requires AllFit(es, x, u)
  {
    VectorSum(seq(|es|, k requires 0 <= k < |es| => Couple(es[k], x)))
  }

  lemma SumOfOne(x: seq<real>, a: Increment)
    requires a.node < |x| / NDIM
    ensures InRange([a], |x| / NDIM) && Sum([a]) == a.v && Moment(x, [a]) == Cross(NodeAt(x, a.node), a.v)
  {
    assert [a][..0] == [];
  }

  lemma SumOfTwo(x: seq<real>, a: Increment, b: Increment)
    requires a.node < |x| / NDIM && b.node < |x| / NDIM
    ensures InRange([a, b], |x| / NDIM)
    ensures Sum([a, b]) == Add(a.v, b.v)
    ensures Moment(x, [a, b]) == Add(Cross(NodeAt(x, a.node), a.v), Cross(NodeAt(x, b.node), b.v))
  {
    assert [a, b][..1] == [a];
    SumOfOne(x, a);
  }

  lemma SumOfThree(x: seq<real>, a: Increment, b: Increment, c: Increment)
    requires a.node < |x| / NDIM && b.node < |x| / NDIM && c.node < |x| / NDIM
    ensures InRange([a, b, c], |x| / NDIM)
    ensures Sum([a, b, c]) == Add(Add(a.v, b.v), c.v)
    ensures Moment(x, [a, b, c])
         == Add(Add(Cross(NodeAt(x, a.node), a.v), Cross(NodeAt(x, b.node), b.v)), Cross(NodeAt(x, c.node), c.v))
  {
    assert [a, b, c][..2] == [a, b];
    SumOfTwo(x, a, b);
  }

  /** A pull along the line joining two points has no moment. */
  lemma CentralPull(k: real, xm: Vec3, xs: Vec3, d: Vec3, f: Vec3)
    requires d == Sub(xs, xm) && f == Scale(k, d)
    ensures Add(Cross(xm, f), Cross(xs, Neg(f))) == ZERO
  {
    ParallelCross(k, d, f);
    CrossSub(xs, xm, f);
    CrossNeg(xs, f);
  }

  lemma ParallelCross(k: real, d: Vec3, f: Vec3)
    requires f == Scale(k, d)
    ensures Cross(d, f) == ZERO
  {
    CrossScale(k, d, d);
    CrossSelf(d, d);
  }

  /** The three pulls of a bent beam: only the preferred curvature leaves a moment. */
  lemma BeamMoment(k: real, xm: Vec3, xn: Vec3, xp: Vec3, c: Vec3)
    ensures var s := Sub(Add(xn, xp), Scale(2.0, xm)); var f := Scale(k, Sub(s, c));
            Add(Add(Cross(xm, Scale(2.0, f)), Cross(xn, Neg(f))), Cross(xp, Neg(f))) == Scale(k, Cross(s, c))
  {
    var s := Sub(Add(xn, xp), Scale(2.0, xm));
    var f := Scale(k, Sub(s, c));
    CrossNeg(xn, f);
    CrossNeg(xp, f);
    CrossScale(2.0, xm, f);
    CrossAdd(xn, xp, f);
    CrossSub(Add(xn, xp), Scale(2.0, xm), f);
    CrossScale(k, s, Sub(s, c));
    CrossSub(s, c, s);
    CrossSelf(s, c);
    FoldMoment(Cross(xm, f), Cross(xn, f), Cross(xp, f), Cross(s, f));
    NegScaleNeg(k, Cross(s, c));
  }

  lemma FoldMoment(a: Vec3, b: Vec3, c: Vec3, t: Vec3)
    requires t == Sub(Add(b, c), Scale(2.0, a))
    ensures Add(Add(Scale(2.0, a), Neg(b)), Neg(c)) == Neg(t)
  {
  }

  lemma NegScaleNeg(k: real, a: Vec3)
    ensures Neg(Scale(k, Sub(ZERO, a))) == Scale(k, a)
  {
  }

  lemma ElementBalance(e: Element, x: seq<real>, u: seq<real>, phys: Physics)
    requires Fits(e, x, u) && phys.eps > 0.0 && !e.Target?
    ensures Sum(ElementIncrements(e, x, u, phys)) == ZERO
    ensures Moment(x, ElementIncrements(e, x, u, phys)) == Couple(e, x)
  {
    match e {
      case Spring(_, _, m, s, fcn, params) =>
        var xm, xs := NodeAt(x, m), NodeAt(x, s);
        var r := phys.norm(Sub(xs, xm));
        if r >= phys.eps {
          var f := SpringForce(e, Sub(xs, xm), phys).value;
          SumOfTwo(x, Increment(m, f), Increment(s, Neg(f)));
          CentralPull(phys.tension(fcn, r, params, e.lagMaster, e.lagSlave) / r, xm, xs, Sub(xs, xm), f);
        }
      case Beam(m, n, p, k, c) =>
        var f := BeamForce(e, NodeAt(x, m), NodeAt(x, n), NodeAt(x, p));
        SumOfThree(x, Increment(m, Scale(2.0, f)), Increment(n, Neg(f)), Increment(p, Neg(f)));
        BeamMoment(k, NodeAt(x, m), NodeAt(x, n), NodeAt(x, p), c);
    }
  }

  lemma {:induction false} FlattenSum(parts: seq<seq<Increment>>)
    requires forall k :: 0 <= k < |parts| ==> Sum(parts[k]) == ZERO
    ensures Sum(Flatten(parts)) == ZERO
  {
    if parts != [] {
      FlattenSum(parts[..|parts| - 1]);
      SumConcat(Flatten(parts[..|parts| - 1]), parts[|parts| - 1]);
    }
  }

  lemma {:induction false} FlattenMoment(x: seq<real>, parts: seq<seq<Increment>>, couples: seq<Vec3>)
    requires |parts| == |couples|
    requires forall k :: 0 <= k < |parts| ==> InRange(parts[k], |x| / NDIM) && Moment(x, parts[k]) == couples[k]
    ensures InRange(Flatten(parts), |x| / NDIM) && Moment(x, Flatten(parts)) == VectorSum(couples)
  {
    FlattenAll(parts, |x| / NDIM);
    if parts != [] {
      var n := |parts| - 1;
      FlattenMoment(x, parts[..n], couples[..n]);
      MomentConcat(x, Flatten(parts[..n]), parts[n]);
    }
  }

  /** The increments of a loop over springs and beams sum to zero; their moments sum to the couples of
      the beams. Springs add nothing to either, whatever their tension law and however short. */
  lemma LoopBalance(es: seq<Element>, x: seq<real>, u: seq<real>, phys: Physics)
    requires AllFit(es, x, u) && phys.eps > 0.0 && forall k :: 0 <= k < |es| ==> !es[k].Target?
    ensures Sum(Loop(es, x, u, phys)) == ZERO
    ensures Moment(x, Loop(es, x, u, phys)) == Couples(es, x, u)
  {
    var parts := Each(es, x, u, phys);
    var couples := seq(|es|, k requires 0 <= k < |es| => Couple(es[k], x));
    forall k | 0 <= k < |es|
      ensures InRange(parts[k], |x| / NDIM) && Sum(parts[k]) == ZERO && Moment(x, parts[k]) == couples[k]
    {
      ElementBalance(es[k], x, u, phys);
    }
    FlattenSum(parts);
    FlattenMoment(x, parts, couples);
  }

  lemma {:induction false} VectorSumZero(vs: seq<Vec3>)
    requires forall k :: 0 <= k < |vs| ==> vs[k] == ZERO
    ensures VectorSum(vs) == ZERO
  {
    if vs != [] {
      VectorSumZero(vs[..|vs| - 1]);
    }
  }

  /** Without preferred curvature there are no couples. */
  lemma NoCouples(es: seq<Element>, x: seq<real>, u: seq<real>)
    requires AllFit(es, x, u) && forall k :: 0 <= k < |es| ==> es[k].Beam? ==> es[k].curvature == ZERO
    ensures Couples(es, x, u) == ZERO
  {
    VectorSumZero(seq(|es|, k requires 0 <= k < |es| => Couple(es[k], x)));
  }

  lemma {:induction false} NetOfEqual(x: seq<real>, f: seq<real>, g: seq<real>, n: nat)
    requires |x| == |f| == |g| && NDIM * n <= |f| && forall i: nat :: i < n ==> NodeAt(f, i) == NodeAt(g, i)
    ensures NetForce(f, n) == NetForce(g, n) && NetTorque(x, f, n) == NetTorque(x, g, n)
  {
    if n > 0 {
      NetOfEqual(x, f, g, n - 1);
    }
  }

  lemma {:induction false} NetOfZero(x: seq<real>, f: seq<real>, n: nat)
    requires |x| == |f| && NDIM * n <= |f| && forall k :: 0 <= k < |f| ==> f[k] == 0.0
    ensures NetForce(f, n) == ZERO == NetTorque(x, f, n)
  {
    if n > 0 {
      NetOfZero(x, f, n - 1);
    }
  }

  lemma FromZero(x: seq<real>, zero: seq<real>, incs: seq<Increment>, n: nat)
    requires |x| == |zero| == NDIM * n && InRange(incs, n) && forall k :: 0 <= k < |zero| ==> zero[k] == 0.0
    ensures NetForce(Accumulate(zero, incs), n) == Sum(incs)
    ensures NetTorque(x, Accumulate(zero, incs), n) == Moment(x, incs)
  {
    AccumulateNet(x, zero, incs, n);
    NetOfZero(x, zero, n);
    AddZero(Sum(incs));
    AddZero(Moment(x, incs));
  }

  lemma FromZeroAt(zero: seq<real>, incs: seq<Increment>, i: nat)
    requires InRange(incs, |zero| / NDIM) && NDIM * i + NDIM <= |zero| && forall k :: 0 <= k < |zero| ==> zero[k] == 0.0
    ensures NodeAt(Accumulate(zero, incs), i) == Total(incs, i)
  {
    AccumulateAt(zero, incs, i);
  }

  lemma TotalsBalance(x: seq<real>, incs: seq<Increment>, f: seq<real>, n: nat)
    requires |x| == |f| == NDIM * n && InRange(incs, n)
    requires forall i: nat :: i < n ==> NodeAt(f, i) == Total(incs, i)
    ensures NetForce(f, n) == Sum(incs)
    ensures NetTorque(x, f, n) == Moment(x, incs)
  {
    var zero := seq(|f|, _ => 0.0);
    forall i: nat | i < n ensures NodeAt(f, i) == NodeAt(Accumulate(zero, incs), i) {
      FromZeroAt(zero, incs, i);
    }
    FromZero(x, zero, incs, n);
    NetOfEqual(x, f, Accumulate(zero, incs), n);
  }

  /** The nodal forces of a whole mesh of springs and beams have no net force, and as net torque
      the couples of the beams. */
  lemma MeshBalance(es: seq<Element>, x: seq<real>, u: seq<real>, phys: Physics, f: seq<real>, n: nat)
    requires AllFit(es, x, u) && phys.eps > 0.0 && |x| == |f| == NDIM * n
    requires forall k :: 0 <= k < |es| ==> !es[k].Target?
    requires forall i: nat :: i < n ==> NodeAt(f, i) == Total(Loop(es, x, u, phys), i)
    ensures NetForce(f, n) == ZERO
    ensures NetTorque(x, f, n) == Couples(es, x, u)
  {
    TotalsBalance(x, Loop(es, x, u, phys), f, n);
    LoopBalance(es, x, u, phys);
  }

  /** The same for the vector assembled by all processes together. */
  lemma DistributedBalance(w: World, x: seq<real>, u: seq<real>, phys: Physics, f: seq<real>)
    requires ValidWorld(w) && |x| == |u| == |f| == NDIM * NumNodes(w) && phys.eps > 0.0
    requires forall i: nat :: i < NumNodes(w) ==> NodeAt(f, i) == SerialForce(w, x, u, phys, i)
    requires forall k :: 0 <= k < |Join(Parts(w))| ==> !Join(Parts(w))[k].Target?
    ensures NetForce(f, NumNodes(w)) == ZERO
    ensures AllFit(Join(Parts(w)), x, u) && NetTorque(x, f, NumNodes(w)) == Couples(Join(Parts(w)), x, u)
  {
    WorldFits(w, x, u);
    JoinFits(Parts(w), x, u);
    MeshBalance(Join(Parts(w)), x, u, phys, f, NumNodes(w));
  }
}
