/** What the assembled forces are, said without the formulas that compute them: how one spring, beam or target
    point acts in a whole mesh, and the power the distributed force has along any motion of the nodes, read off the
    specifications attached to them. */
module ForceLaws {
  import opened Vectors
  import opened Increments
  import opened NodalWork
  import opened ForceElements
  import opened ForceIndexing
  import opened ForceAssembly
  import opened DistributedForce

  // ------------------------------------------------------ one spring in a mesh

  /** `f` lies along `d` and is as large as the tension, pointing along `d` if that is positive. */
  ghost predicate PullsAlong(f: Vec3, d: Vec3, tension: real, length: real) {
    Dot(f, d) == tension * length && forall v :: Dot(d, v) == 0.0 ==> Dot(f, v) == 0.0
  }

  lemma ScaledPull(t: real, r: real, d: Vec3, f: Vec3)
    requires r > 0.0 && r * r == Dot(d, d) && f == Scale(t / r, d)
    ensures PullsAlong(f, d, t, r)
  {
    var q := t / r;
    QuotientTimes(t, r, q);
    DotScaled(q, d, d, Dot(d, d));
    Regrouped(q, r, t, Dot(d, d));
    forall v | Dot(d, v) == 0.0 ensures Dot(f, v) == 0.0 {
      DotScaled(q, d, v, 0.0);
    }
  }

  lemma Regrouped(q: real, r: real, t: real, rr: real)
    requires q * r == t && rr == r * r
    ensures q * rr == t * r
  {
    assert q * (r * r) == (q * r) * r;
  }

  lemma WithoutParts(es: seq<Element>, k: nat, x: seq<real>, u: seq<real>, phys: Physics)
    requires AllFit(es, x, u) && phys.eps > 0.0 && k < |es|
    ensures AllFit(Without(es, k), x, u)
    ensures var parts := Each(es, x, u, phys);
            Each(Without(es, k), x, u, phys) == parts[..k] + parts[k + 1..]
  {
  }

  /** Taking an element out of a mesh takes its own increments off every nodal force. */
  lemma TakenOut(es: seq<Element>, k: nat, x: seq<real>, u: seq<real>, phys: Physics, i: nat)
    requires AllFit(es, x, u) && phys.eps > 0.0 && k < |es|
    ensures AllFit(Without(es, k), x, u)
    ensures Total(Loop(es, x, u, phys), i)
         == Add(Total(Loop(Without(es, k), x, u, phys), i), Total(ElementIncrements(es[k], x, u, phys), i))
  {
    WithoutParts(es, k, x, u, phys);
    FlattenRemove(Each(es, x, u, phys), k, i);
  }

  /** `f` is the pull of spring `e` on its master: along the line to the slave and as large as the tension, or
      nothing below the cut-off. */
  ghost predicate PullOf(e: Element, x: seq<real>, phys: Physics, f: Vec3)
    requires e.Spring? && Within(e, |x| / NDIM)
  {
    var d := Sub(NodeAt(x, e.slave), NodeAt(x, e.master));
    var r := phys.norm(d);
    && (r < phys.eps ==> f == ZERO)
    && (r >= phys.eps ==> PullsAlong(f, d, phys.tension(e.fcn, r, e.params, e.lagMaster, e.lagSlave), r))
  }

  lemma LongSpring(e: Element, x: seq<real>, u: seq<real>, phys: Physics, d: Vec3, r: real, t: real) returns (f: Vec3)
    requires e.Spring? && Fits(e, x, u) && IsNorm(phys.norm) && phys.eps > 0.0
    requires d == Sub(NodeAt(x, e.slave), NodeAt(x, e.master)) && r == phys.norm(d) && r >= phys.eps
    requires t == phys.tension(e.fcn, r, e.params, e.lagMaster, e.lagSlave)
    ensures PullOf(e, x, phys, f)
    ensures ElementIncrements(e, x, u, phys) == [Increment(e.master, f), Increment(e.slave, Neg(f))]
  {
    f := Scale(t / r, d);
    ScaledPull(t, r, d, f);
  }

  lemma SpringIncrements(e: Element, x: seq<real>, u: seq<real>, phys: Physics) returns (f: Vec3)
    requires Fits(e, x, u) && phys.eps > 0.0 && IsNorm(phys.norm) && e.Spring?
    ensures PullOf(e, x, phys, f)
    ensures forall i: nat :: Total(ElementIncrements(e, x, u, phys), i) == Opposite(i, e.master, e.slave, f)
  {
    var d := Sub(NodeAt(x, e.slave), NodeAt(x, e.master));
    var r := phys.norm(d);
    if r < phys.eps {
      f := ShortSpring(e, x, u, phys, d, r);
    } else {
      f := LongSpring(e, x, u, phys, d, r, phys.tension(e.fcn, r, e.params, e.lagMaster, e.lagSlave));
      OppositeTotals(ElementIncrements(e, x, u, phys), e.master, e.slave, f);
    }
  }

  lemma ShortSpring(e: Element, x: seq<real>, u: seq<real>, phys: Physics, d: Vec3, r: real) returns (f: Vec3)
    requires e.Spring? && Fits(e, x, u) && phys.eps > 0.0
    requires d == Sub(NodeAt(x, e.slave), NodeAt(x, e.master)) && r == phys.norm(d) && r < phys.eps
    ensures PullOf(e, x, phys, f)
    ensures forall i: nat :: Total(ElementIncrements(e, x, u, phys), i) == Opposite(i, e.master, e.slave, f)
  {
    f := ZERO;
    assert ElementIncrements(e, x, u, phys) == [];
  }

  lemma OppositeTotals(incs: seq<Increment>, m: int, s: int, f: Vec3)
    requires m >= 0 && s >= 0 && incs == [Increment(m, f), Increment(s, Neg(f))]
    ensures forall i: nat :: Total(incs, i) == Opposite(i, m, s, f)
  {
    forall i: nat ensures Total(incs, i) == Opposite(i, m, s, f) {
      TwoIncrements(m, s, f, i);
    }
  }

  /** In any mesh a spring pulls its master along the line to the slave, with its tension, and the slave the other
      way; a spring shorter than the cut-off does nothing. */
  lemma SpringPulls(es: seq<Element>, k: nat, x: seq<real>, u: seq<real>, phys: Physics) returns (f: Vec3)
    requires AllFit(es, x, u) && phys.eps > 0.0 && IsNorm(phys.norm) && k < |es| && es[k].Spring?
    ensures AllFit(Without(es, k), x, u) && PullOf(es[k], x, phys, f)
    ensures forall i: nat :: Total(Loop(es, x, u, phys), i)
              == Add(Total(Loop(Without(es, k), x, u, phys), i), Opposite(i, es[k].master, es[k].slave, f))
  {
    f := SpringIncrements(es[k], x, u, phys);
    WithoutParts(es, k, x, u, phys);
    forall i: nat
      ensures Total(Loop(es, x, u, phys), i)
           == Add(Total(Loop(Without(es, k), x, u, phys), i), Opposite(i, es[k].master, es[k].slave, f))
    {
      TakenOut(es, k, x, u, phys, i);
    }
  }

  /** The same for the force the processes assemble together. */
  lemma AssembledSpringPulls(w: World, k: nat, x: seq<real>, u: seq<real>, phys: Physics) returns (f: Vec3)
    requires ValidWorld(w) && |x| == |u| == NDIM * NumNodes(w) && phys.eps > 0.0 && IsNorm(phys.norm)
    requires k < |Join(Parts(w))| && Join(Parts(w))[k].Spring?
    ensures var es := Join(Parts(w));
            && AllFit(es, x, u) && AllFit(Without(es, k), x, u) && PullOf(es[k], x, phys, f)
            && forall i: nat :: SerialForce(w, x, u, phys, i)
                 == Add(Total(Loop(Without(es, k), x, u, phys), i), Opposite(i, es[k].master, es[k].slave, f))
  {
    WorldFits(w, x, u);
    JoinFits(Parts(w), x, u);
    f := SpringPulls(Join(Parts(w)), k, x, u, phys);
  }

  /** A target point at rest at its place does nothing. */
  lemma TargetAtRest(es: seq<Element>, k: nat, x: seq<real>, u: seq<real>, phys: Physics, i: nat)
    requires AllFit(es, x, u) && phys.eps > 0.0 && k < |es| && es[k].Target?
    requires NodeAt(x, es[k].master) == es[k].x0 && NodeAt(u, es[k].master) == ZERO
    ensures AllFit(Without(es, k), x, u)
    ensures Total(Loop(es, x, u, phys), i) == Total(Loop(Without(es, k), x, u, phys), i)
  {
    var e := es[k];
    TakenOut(es, k, x, u, phys, i);
    NoTargetForce(e.stiffness, e.damping, e.x0);
    assert ElementIncrements(e, x, u, phys) == [Increment(e.master, ZERO)];
    TotalZero(e.master, i);
    AddZero(Total(Loop(Without(es, k), x, u, phys), i));
  }

  lemma NoTargetForce(k: real, c: real, x: Vec3)
    ensures Sub(Scale(k, Sub(x, x)), Scale(c, ZERO)) == ZERO
  {
  }

  lemma TotalZero(m: nat, i: nat)
    ensures Total([Increment(m, ZERO)], i) == ZERO
  {
    assert [Increment(m, ZERO)][..0] == [];
  }

  // ----------------------------------------------- power along a motion

  /** The tension times the rate at which the spring grows longer as the nodes move by `d`. */
  ghost function SpringPower(fcn: int, params: seq<real>, lagMaster: int, lagSlave: int, m: int, s: int, x: seq<real>,
                             d: seq<real>, phys: Physics): real
    requires 0 <= m < |x| / NDIM && 0 <= s < |x| / NDIM && |x| == |d| && phys.eps > 0.0
  {
    var along := Sub(NodeAt(x, s), NodeAt(x, m));
    var r := phys.norm(along);
    if r < phys.eps then 0.0
    else phys.tension(fcn, r, params, lagMaster, lagSlave) * (Dot(along, Sub(NodeAt(d, s), NodeAt(d, m))) / r)
  }

  /** The rigidity times the excess bend, along the rate of bending. */
  ghost function BeamPower(bend: real, curvature: Vec3, m: int, n: int, p: int, x: seq<real>, d: seq<real>): real
    requires 0 <= m < |x| / NDIM && 0 <= n < |x| / NDIM && 0 <= p < |x| / NDIM && |x| == |d|
  {
    bend * Dot(Sub(Bend(x, m, n, p), curvature), Bend(d, m, n, p))
  }

  /** The stiffness times the distance from the target, and the damping times the velocity, along the motion. */
  ghost function TargetPower(kappa: real, eta: real, x0: Vec3, m: int, x: seq<real>, u: seq<real>, d: seq<real>): real
    requires 0 <= m < |x| / NDIM && m < |u| / NDIM && |x| == |d|
  {
    kappa * Dot(Sub(NodeAt(x, m), x0), NodeAt(d, m)) + eta * Dot(NodeAt(u, m), NodeAt(d, m))
  }

  ghost function ElementPower(e: Element, x: seq<real>, u: seq<real>, d: seq<real>, phys: Physics): real
    requires Fits(e, x, u) && |x| == |d| && phys.eps > 0.0
  {
    match e
    case Spring(lm, ls, m, s, fcn, params) => SpringPower(fcn, params, lm, ls, m, s, x, d, phys)
    case Beam(m, n, p, bend, curvature) => BeamPower(bend, curvature, m, n, p, x, d)
    case Target(m, kappa, eta, x0) => TargetPower(kappa, eta, x0, m, x, u, d)
  }

  lemma SpringWork(t: real, r: real, along: Vec3, dm: Vec3, ds: Vec3, f: Vec3, g: real)
    requires r > 0.0 && f == Scale(t / r, along) && g == Dot(along, Sub(ds, dm))
    ensures Dot(dm, f) + Dot(ds, Neg(f)) == -(t * (g / r))
  {
    DotNeg(ds, f);
    DotLinear(t / r, ds, dm, f);
    DotLinear(t / r, along, along, Sub(ds, dm));
    QuotientTurns(t, r, g);
  }

  lemma QuotientTurns(t: real, r: real, g: real)
    requires r != 0.0
    ensures (t / r) * g == t * (g / r)
  {
  }

  lemma BeamWork(k: real, b: Vec3, dm: Vec3, dn: Vec3, dp: Vec3, f: Vec3)
    requires f == Scale(k, b)
    ensures Dot(dm, Scale(2.0, f)) + Dot(dn, Neg(f)) + Dot(dp, Neg(f))
         == -(k * Dot(b, Sub(Add(dn, dp), Scale(2.0, dm))))
  {
    DotLinear(2.0, f, f, dm);
    DotNeg(dn, f);
    DotNeg(dp, f);
    DotLinear(2.0, Add(dn, dp), Scale(2.0, dm), f);
    DotLinear(2.0, dn, dp, f);
    DotLinear(2.0, dm, dm, f);
    DotLinear(k, b, b, Sub(Add(dn, dp), Scale(2.0, dm)));
  }

  lemma TargetWork(k: real, c: real, x0: Vec3, x: Vec3, u: Vec3, d: Vec3)
    ensures Dot(d, Sub(Scale(k, Sub(x0, x)), Scale(c, u))) == -(k * Dot(Sub(x, x0), d) + c * Dot(u, d))
  {
    DotLinear(k, Scale(k, Sub(x0, x)), Scale(c, u), d);
    DotLinear(k, Sub(x0, x), u, d);
    DotLinear(c, u, u, d);
    Reversed(x, x0, d);
    TimesNegative(k, Dot(Sub(x0, x), d), Dot(Sub(x, x0), d));
  }

  lemma Reversed(x: Vec3, y: Vec3, d: Vec3)
    ensures Dot(Sub(y, x), d) == -Dot(Sub(x, y), d)
  {
    DotLinear(1.0, x, y, d);
    DotLinear(1.0, y, x, d);
  }

  lemma TimesNegative(k: real, p: real, q: real)
    requires p == -q
    ensures k * p == -(k * q)
  {
  }

  lemma SpringElementWork(e: Element, x: seq<real>, u: seq<real>, d: seq<real>, phys: Physics)
    requires e.Spring? && Fits(e, x, u) && |x| == |d| && phys.eps > 0.0
    ensures Work(d, ElementIncrements(e, x, u, phys)) == -ElementPower(e, x, u, d, phys)
  {
    var along := Sub(NodeAt(x, e.slave), NodeAt(x, e.master));
    var r := phys.norm(along);
    if r >= phys.eps {
      var t := phys.tension(e.fcn, r, e.params, e.lagMaster, e.lagSlave);
      var f := Scale(t / r, along);
      WorkOfTwo(d, Increment(e.master, f), Increment(e.slave, Neg(f)));
      SpringWork(t, r, along, NodeAt(d, e.master), NodeAt(d, e.slave), f,
                 Dot(along, Sub(NodeAt(d, e.slave), NodeAt(d, e.master))));
    }
  }

  lemma BeamElementWork(e: Element, x: seq<real>, u: seq<real>, d: seq<real>, phys: Physics)
    requires e.Beam? && Fits(e, x, u) && |x| == |d| && phys.eps > 0.0
    ensures Work(d, ElementIncrements(e, x, u, phys)) == -ElementPower(e, x, u, d, phys)
  {
    var f := Scale(e.rigidity, Sub(Bend(x, e.master, e.next, e.prev), e.curvature));
    WorkOfThree(d, Increment(e.master, Scale(2.0, f)), Increment(e.next, Neg(f)), Increment(e.prev, Neg(f)),
                ElementIncrements(e, x, u, phys));
    BeamWork(e.rigidity, Sub(Bend(x, e.master, e.next, e.prev), e.curvature), NodeAt(d, e.master), NodeAt(d, e.next),
             NodeAt(d, e.prev), f);
  }

  lemma TargetElementWork(e: Element, x: seq<real>, u: seq<real>, d: seq<real>, phys: Physics)
    requires e.Target? && Fits(e, x, u) && |x| == |d| && phys.eps > 0.0
    ensures Work(d, ElementIncrements(e, x, u, phys)) == -ElementPower(e, x, u, d, phys)
  {
    var m := e.master;
    WorkOfOne(d, Increment(m, Sub(Scale(e.stiffness, Sub(e.x0, NodeAt(x, m))), Scale(e.damping, NodeAt(u, m)))));
    TargetWork(e.stiffness, e.damping, e.x0, NodeAt(x, m), NodeAt(u, m), NodeAt(d, m));
  }

  /** The increments of one element work against its power. */
  lemma ElementWork(e: Element, x: seq<real>, u: seq<real>, d: seq<real>, phys: Physics)
    requires Fits(e, x, u) && |x| == |d| && phys.eps > 0.0
    ensures Work(d, ElementIncrements(e, x, u, phys)) == -ElementPower(e, x, u, d, phys)
  {
    match e {
      case Spring(_, _, _, _, _, _) => SpringElementWork(e, x, u, d, phys);
      case Beam(_, _, _, _, _) => BeamElementWork(e, x, u, d, phys);
      case Target(_, _, _, _) => TargetElementWork(e, x, u, d, phys);
    }
  }

  ghost function MeshPower(es: seq<Element>, x: seq<real>, u: seq<real>, d: seq<real>, phys: Physics): real
    requires AllFit(es, x, u) && |x| == |d| && phys.eps > 0.0
  {
    if es == [] then 0.0
    else MeshPower(es[..|es| - 1], x, u, d, phys) + ElementPower(es[|es| - 1], x, u, d, phys)
  }

  lemma {:induction false} MeshPowerConcat(a: seq<Element>, b: seq<Element>, x: seq<real>, u: seq<real>, d: seq<real>,
                                           phys: Physics)
    requires AllFit(a, x, u) && AllFit(b, x, u) && |x| == |d| && phys.eps > 0.0
    ensures AllFit(a + b, x, u)
    ensures MeshPower(a + b, x, u, d, phys) == MeshPower(a, x, u, d, phys) + MeshPower(b, x, u, d, phys)
  {
    if b == [] {
      assert a + b == a;
    } else {
      assert (a + b)[..|a + b| - 1] == a + b[..|b| - 1];
      MeshPowerConcat(a, b[..|b| - 1], x, u, d, phys);
    }
  }

  /** In every mesh and along every motion the nodal forces work against the elements' powers. */
  lemma {:induction false} MeshWork(es: seq<Element>, x: seq<real>, u: seq<real>, d: seq<real>, phys: Physics)
    requires AllFit(es, x, u) && |x| == |d| && phys.eps > 0.0
    ensures Work(d, Loop(es, x, u, phys)) == -MeshPower(es, x, u, d, phys)
  {
    if es == [] {
      assert Each(es, x, u, phys) == [];
    } else {
      var rest, e := es[..|es| - 1], es[|es| - 1];
      MeshWork(rest, x, u, d, phys);
      ElementWork(e, x, u, d, phys);
      assert es == rest + [e];
      LoopConcat(rest, [e], x, u, phys);
      SingleLoop(e, x, u, phys);
      WorkConcat(d, Loop(rest, x, u, phys), ElementIncrements(e, x, u, phys));
    }
  }

  lemma SingleLoop(e: Element, x: seq<real>, u: seq<real>, phys: Physics)
    requires Fits(e, x, u) && phys.eps > 0.0
    ensures AllFit([e], x, u) && Loop([e], x, u, phys) == ElementIncrements(e, x, u, phys)
  {
    var parts := Each([e], x, u, phys);
    assert parts == [ElementIncrements(e, x, u, phys)];
    assert Flatten(parts[..0]) == [] && [] + parts[0] == parts[0];
  }

  // ------------------------------------------- read off the specifications

  /** All nodes a local node's specifications name, in global numbering, exist. */
  ghost predicate NodeWithin(node: LNode, ao: int -> int, n: nat) {
    && Consistent(node) && 0 <= node.petsc < n
    && (node.spring.Some? ==> forall k :: 0 <= k < |node.spring.value.slaveIdxs| ==>
          0 <= ao(node.spring.value.slaveIdxs[k]) < n)
    && (node.beam.Some? ==> forall k :: 0 <= k < |node.beam.value.neighborIdxs| ==>
          var (next, prev) := node.beam.value.neighborIdxs[k]; 0 <= ao(next) < n && 0 <= ao(prev) < n)
  }

  /** The power of the first `n` springs, or beams, of a node. */
  ghost function SpringsPower(node: LNode, ao: int -> int, x: seq<real>, d: seq<real>, phys: Physics, n: nat): real
    requires NodeWithin(node, ao, |x| / NDIM) && |x| == |d| && phys.eps > 0.0
    requires node.spring.Some? && n <= |node.spring.value.slaveIdxs|
  {
    var s := node.spring.value;
    if n == 0 then 0.0
    else SpringsPower(node, ao, x, d, phys, n - 1)
         + SpringPower(s.forceFcnIdxs[n - 1], s.parameters[n - 1], node.lag, s.slaveIdxs[n - 1], node.petsc,
                       ao(s.slaveIdxs[n - 1]), x, d, phys)
  }

  ghost function BeamsPower(node: LNode, ao: int -> int, x: seq<real>, d: seq<real>, n: nat): real
    requires NodeWithin(node, ao, |x| / NDIM) && |x| == |d|
    requires node.beam.Some? && n <= |node.beam.value.neighborIdxs|
  {
    var b := node.beam.value;
    if n == 0 then 0.0
    else
      var (next, prev) := b.neighborIdxs[n - 1];
      BeamsPower(node, ao, x, d, n - 1)
      + BeamPower(b.bendRigidities[n - 1], b.curvatures[n - 1], node.petsc, ao(next), ao(prev), x, d)
  }

  ghost function NodePower(node: LNode, ao: int -> int, x: seq<real>, u: seq<real>, d: seq<real>, phys: Physics): real
    requires NodeWithin(node, ao, |x| / NDIM) && |x| == |d| == |u| && phys.eps > 0.0
  {
    (if node.spring.Some? then SpringsPower(node, ao, x, d, phys, |node.spring.value.slaveIdxs|) else 0.0)
    + (if node.beam.Some? then BeamsPower(node, ao, x, d, |node.beam.value.neighborIdxs|) else 0.0)
    + (if node.target.Some? then
         var t := node.target.value; TargetPower(t.stiffness, t.damping, t.position, node.petsc, x, u, d)
       else 0.0)
  }

  ghost predicate NodesWithin(nodes: seq<LNode>, ao: int -> int, n: nat) {
    forall l :: 0 <= l < |nodes| ==> NodeWithin(nodes[l], ao, n)
  }

  ghost function NodesPower(nodes: seq<LNode>, ao: int -> int, x: seq<real>, u: seq<real>, d: seq<real>,
                            phys: Physics): real
    requires NodesWithin(nodes, ao, |x| / NDIM) && |x| == |d| == |u| && phys.eps > 0.0
  {
    if nodes == [] then 0.0
    else NodesPower(nodes[..|nodes| - 1], ao, x, u, d, phys) + NodePower(nodes[|nodes| - 1], ao, x, u, d, phys)
  }

  /** The power of everything attached to the nodes of the first `n` processes. */
  ghost function WorldPower(w: World, x: seq<real>, u: seq<real>, d: seq<real>, phys: Physics, n: nat): real
    requires n <= |w.procs| && |x| == |d| == |u| && phys.eps > 0.0
    requires forall p :: 0 <= p < |w.procs| ==> NodesWithin(w.procs[p], w.ao, |x| / NDIM)
  {
    if n == 0 then 0.0
    else WorldPower(w, x, u, d, phys, n - 1) + NodesPower(w.procs[n - 1], w.ao, x, u, d, phys)
  }

  lemma OneMorePower(es: seq<Element>, n: nat, x: seq<real>, u: seq<real>, d: seq<real>, phys: Physics)
    requires n < |es| && AllFit(es[..n], x, u) && Fits(es[n], x, u) && |x| == |d| && phys.eps > 0.0
    ensures AllFit(es[..n + 1], x, u)
    ensures MeshPower(es[..n + 1], x, u, d, phys)
         == MeshPower(es[..n], x, u, d, phys) + ElementPower(es[n], x, u, d, phys)
  {
    assert es[..n + 1][..n] == es[..n];
  }

  lemma SpringAt(node: LNode, ao: int -> int, x: seq<real>, u: seq<real>, d: seq<real>, phys: Physics, k: nat)
    requires NodeWithin(node, ao, |x| / NDIM) && |x| == |d| == |u| && phys.eps > 0.0
    requires node.spring.Some? && k < |node.spring.value.slaveIdxs|
    ensures var s, e := node.spring.value, NodeSprings(node, ao)[k];
            && Fits(e, x, u)
            && ElementPower(e, x, u, d, phys)
               == SpringPower(s.forceFcnIdxs[k], s.parameters[k], node.lag, s.slaveIdxs[k], node.petsc,
                              ao(s.slaveIdxs[k]), x, d, phys)
  {
  }

  lemma {:induction false} NodeSpringsPower(node: LNode, es: seq<Element>, ao: int -> int, x: seq<real>, u: seq<real>,
                                            d: seq<real>, phys: Physics, n: nat)
    requires NodeWithin(node, ao, |x| / NDIM) && |x| == |d| == |u| && phys.eps > 0.0 && es == NodeSprings(node, ao)
    requires node.spring.Some? && n <= |node.spring.value.slaveIdxs|
    ensures AllFit(es[..n], x, u)
    ensures MeshPower(es[..n], x, u, d, phys) == SpringsPower(node, ao, x, d, phys, n)
  {
    if n > 0 {
      NodeSpringsPower(node, es, ao, x, u, d, phys, n - 1);
      SpringAt(node, ao, x, u, d, phys, n - 1);
      OneMorePower(es, n - 1, x, u, d, phys);
    }
  }

  lemma BeamAt(node: LNode, ao: int -> int, x: seq<real>, u: seq<real>, d: seq<real>, phys: Physics, k: nat)
    requires NodeWithin(node, ao, |x| / NDIM) && |x| == |d| == |u| && phys.eps > 0.0
    requires node.beam.Some? && k < |node.beam.value.neighborIdxs|
    ensures var b, e := node.beam.value, NodeBeams(node, ao)[k];
            var (next, prev) := b.neighborIdxs[k];
            && Fits(e, x, u)
            && ElementPower(e, x, u, d, phys)
               == BeamPower(b.bendRigidities[k], b.curvatures[k], node.petsc, ao(next), ao(prev), x, d)
  {
  }

  lemma {:induction false} NodeBeamsPower(node: LNode, es: seq<Element>, ao: int -> int, x: seq<real>, u: seq<real>,
                                          d: seq<real>, phys: Physics, n: nat)
    requires NodeWithin(node, ao, |x| / NDIM) && |x| == |d| == |u| && phys.eps > 0.0 && es == NodeBeams(node, ao)
    requires node.beam.Some? && n <= |node.beam.value.neighborIdxs|
    ensures AllFit(es[..n], x, u)
    ensures MeshPower(es[..n], x, u, d, phys) == BeamsPower(node, ao, x, d, n)
  {
    if n > 0 {
      NodeBeamsPower(node, es, ao, x, u, d, phys, n - 1);
      BeamAt(node, ao, x, u, d, phys, n - 1);
      OneMorePower(es, n - 1, x, u, d, phys);
    }
  }

  lemma NodeTargetsPower(node: LNode, ao: int -> int, x: seq<real>, u: seq<real>, d: seq<real>, phys: Physics)
    requires NodeWithin(node, ao, |x| / NDIM) && |x| == |d| == |u| && phys.eps > 0.0 && node.target.Some?
    ensures AllFit(NodeTargets(node), x, u)
    ensures var t := node.target.value;
            MeshPower(NodeTargets(node), x, u, d, phys)
            == TargetPower(t.stiffness, t.damping, t.position, node.petsc, x, u, d)
  {
    assert NodeTargets(node)[..0] == [];
    assert MeshPower([], x, u, d, phys) == 0.0;
  }

  /** The elements of one node have together the power read off its specifications. */
  lemma NodeElementsPower(node: LNode, ao: int -> int, x: seq<real>, u: seq<real>, d: seq<real>, phys: Physics)
    requires NodeWithin(node, ao, |x| / NDIM) && |x| == |d| == |u| && phys.eps > 0.0
    ensures AllFit(NodeSprings(node, ao), x, u) && AllFit(NodeBeams(node, ao), x, u) && AllFit(NodeTargets(node), x, u)
    ensures MeshPower(NodeSprings(node, ao), x, u, d, phys) + MeshPower(NodeBeams(node, ao), x, u, d, phys)
            + MeshPower(NodeTargets(node), x, u, d, phys) == NodePower(node, ao, x, u, d, phys)
  {
    assert MeshPower([], x, u, d, phys) == 0.0;
    if node.spring.Some? {
      var n := |node.spring.value.slaveIdxs|;
      NodeSpringsPower(node, NodeSprings(node, ao), ao, x, u, d, phys, n);
      assert NodeSprings(node, ao)[..n] == NodeSprings(node, ao);
    }
    if node.beam.Some? {
      var n := |node.beam.value.neighborIdxs|;
      NodeBeamsPower(node, NodeBeams(node, ao), ao, x, u, d, phys, n);
      assert NodeBeams(node, ao)[..n] == NodeBeams(node, ao);
    }
    if node.target.Some? {
      NodeTargetsPower(node, ao, x, u, d, phys);
    }
  }

  lemma {:induction false} LevelPower(nodes: seq<LNode>, ao: int -> int, x: seq<real>, u: seq<real>, d: seq<real>,
                                      phys: Physics)
    requires NodesWithin(nodes, ao, |x| / NDIM) && |x| == |d| == |u| && phys.eps > 0.0
    ensures AllConsistent(nodes)
    ensures AllFit(LevelSprings(nodes, ao), x, u) && AllFit(LevelBeams(nodes, ao), x, u)
    ensures AllFit(LevelTargets(nodes), x, u)
    ensures MeshPower(LevelSprings(nodes, ao), x, u, d, phys) + MeshPower(LevelBeams(nodes, ao), x, u, d, phys)
            + MeshPower(LevelTargets(nodes), x, u, d, phys) == NodesPower(nodes, ao, x, u, d, phys)
  {
    if nodes == [] {
      assert MeshPower([], x, u, d, phys) == 0.0;
    } else {
      var rest, node := nodes[..|nodes| - 1], nodes[|nodes| - 1];
      LevelPower(rest, ao, x, u, d, phys);
      NodeElementsPower(node, ao, x, u, d, phys);
      MeshPowerConcat(LevelSprings(rest, ao), NodeSprings(node, ao), x, u, d, phys);
      MeshPowerConcat(LevelBeams(rest, ao), NodeBeams(node, ao), x, u, d, phys);
      MeshPowerConcat(LevelTargets(rest), NodeTargets(node), x, u, d, phys);
    }
  }

  lemma ProcessPower(nodes: seq<LNode>, ao: int -> int, x: seq<real>, u: seq<real>, d: seq<real>, phys: Physics)
    requires NodesWithin(nodes, ao, |x| / NDIM) && |x| == |d| == |u| && phys.eps > 0.0
    ensures AllConsistent(nodes) && AllFit(Elements(nodes, ao), x, u)
    ensures MeshPower(Elements(nodes, ao), x, u, d, phys) == NodesPower(nodes, ao, x, u, d, phys)
  {
    LevelPower(nodes, ao, x, u, d, phys);
    MeshPowerConcat(LevelSprings(nodes, ao), LevelBeams(nodes, ao), x, u, d, phys);
    MeshPowerConcat(LevelSprings(nodes, ao) + LevelBeams(nodes, ao), LevelTargets(nodes), x, u, d, phys);
  }

  /** `parts` are the elements of the first `n` processes. */
  ghost predicate PartsOf(w: World, parts: seq<seq<Element>>, n: nat) {
    && n <= |w.procs| == |parts|
    && forall p :: 0 <= p < n ==> AllConsistent(w.procs[p]) && parts[p] == Elements(w.procs[p], w.ao)
  }

  lemma JoinStep(parts: seq<seq<Element>>, n: nat)
    requires n < |parts|
    ensures Join(parts[..n + 1]) == Join(parts[..n]) + parts[n]
  {
    assert parts[..n + 1][..n] == parts[..n];
  }

  lemma {:induction false} JoinPower(w: World, parts: seq<seq<Element>>, x: seq<real>, u: seq<real>, d: seq<real>,
                                     phys: Physics, n: nat)
    requires n <= |w.procs| && |x| == |d| == |u| && phys.eps > 0.0 && PartsOf(w, parts, |w.procs|)
    requires forall p :: 0 <= p < |w.procs| ==> NodesWithin(w.procs[p], w.ao, |x| / NDIM)
    ensures AllFit(Join(parts[..n]), x, u)
    ensures MeshPower(Join(parts[..n]), x, u, d, phys) == WorldPower(w, x, u, d, phys, n)
  {
    if n == 0 {
      assert Join(parts[..0]) == [];
    } else {
      JoinPower(w, parts, x, u, d, phys, n - 1);
      ProcessPower(w.procs[n - 1], w.ao, x, u, d, phys);
      JoinedPower(parts, n - 1, x, u, d, phys);
    }
  }

  lemma JoinedPower(parts: seq<seq<Element>>, n: nat, x: seq<real>, u: seq<real>, d: seq<real>, phys: Physics)
    requires n < |parts| && |x| == |d| == |u| && phys.eps > 0.0
    requires AllFit(Join(parts[..n]), x, u) && AllFit(parts[n], x, u)
    ensures AllFit(Join(parts[..n + 1]), x, u)
    ensures MeshPower(Join(parts[..n + 1]), x, u, d, phys)
         == MeshPower(Join(parts[..n]), x, u, d, phys) + MeshPower(parts[n], x, u, d, phys)
  {
    JoinStep(parts, n);
    MeshPowerConcat(Join(parts[..n]), parts[n], x, u, d, phys);
  }

  ghost predicate AllWithin(es: seq<Element>, n: nat) {
    forall k :: 0 <= k < |es| ==> Within(es[k], n)
  }

  lemma WithinParts(a: seq<Element>, b: seq<Element>, n: nat)
    requires AllWithin(a + b, n)
    ensures AllWithin(a, n) && AllWithin(b, n)
  {
    forall k | 0 <= k < |a| ensures Within(a[k], n) {
      assert (a + b)[k] == a[k];
    }
    forall k | 0 <= k < |b| ensures Within(b[k], n) {
      assert (a + b)[|a| + k] == b[k];
    }
  }

  ghost predicate LevelWithin(nodes: seq<LNode>, ao: int -> int, n: nat) {
    && AllConsistent(nodes) && (forall l :: 0 <= l < |nodes| ==> 0 <= nodes[l].petsc < n)
    && AllWithin(LevelSprings(nodes, ao), n) && AllWithin(LevelBeams(nodes, ao), n)
  }

  lemma {:induction false} SpecsWithin(nodes: seq<LNode>, ao: int -> int, n: nat)
    requires LevelWithin(nodes, ao, n)
    ensures NodesWithin(nodes, ao, n)
  {
    if nodes != [] {
      LastNodeWithin(nodes, ao, n, nodes[..|nodes| - 1], nodes[|nodes| - 1]);
      SpecsWithin(nodes[..|nodes| - 1], ao, n);
    }
  }

  lemma LastNodeWithin(nodes: seq<LNode>, ao: int -> int, n: nat, rest: seq<LNode>, node: LNode)
    requires nodes != [] && rest == nodes[..|nodes| - 1] && node == nodes[|nodes| - 1] && LevelWithin(nodes, ao, n)
    ensures LevelWithin(rest, ao, n) && NodeWithin(node, ao, n)
  {
    WithinParts(LevelSprings(rest, ao), NodeSprings(node, ao), n);
    WithinParts(LevelBeams(rest, ao), NodeBeams(node, ao), n);
    NodeSpecsWithin(node, ao, n);
  }

  lemma NodeSpecsWithin(node: LNode, ao: int -> int, n: nat)
    requires Consistent(node) && 0 <= node.petsc < n
    requires AllWithin(NodeSprings(node, ao), n) && AllWithin(NodeBeams(node, ao), n)
    ensures NodeWithin(node, ao, n)
  {
    if node.spring.Some? {
      forall k | 0 <= k < |node.spring.value.slaveIdxs|
        ensures 0 <= ao(node.spring.value.slaveIdxs[k]) < n
      {
        assert Within(NodeSprings(node, ao)[k], n);
      }
    }
    if node.beam.Some? {
      forall k | 0 <= k < |node.beam.value.neighborIdxs|
        ensures var (next, prev) := node.beam.value.neighborIdxs[k]; 0 <= ao(next) < n && 0 <= ao(prev) < n
      {
        assert Within(NodeBeams(node, ao)[k], n);
      }
    }
  }

  lemma ProcessWithin(w: World, p: nat)
    requires ValidWorld(w) && p < |w.procs|
    ensures NodesWithin(w.procs[p], w.ao, NumNodes(w))
  {
    assert ValidProcess(w, p);
    OffsetMonotone(w, p, |w.procs|);
    var nodes, n := w.procs[p], NumNodes(w);
    var es := Elements(nodes, w.ao);
    forall k | 0 <= k < |es| ensures Within(es[k], n) {
      assert es[k] in es;
    }
    WithinParts(LevelSprings(nodes, w.ao) + LevelBeams(nodes, w.ao), LevelTargets(nodes), n);
    WithinParts(LevelSprings(nodes, w.ao), LevelBeams(nodes, w.ao), n);
    forall l | 0 <= l < |nodes| ensures 0 <= nodes[l].petsc < n {
      assert Owns(w, p, nodes[l].petsc);
    }
    SpecsWithin(nodes, w.ao, n);
  }

  /** The assembled force, node by node, and the power of a nodal force: the sum of F_i . d_i. */
  ghost function AssembledForce(w: World, x: seq<real>, u: seq<real>, phys: Physics): nat -> Vec3
    requires ValidWorld(w) && |x| == |u| == NDIM * NumNodes(w) && phys.eps > 0.0
  {
    (i: nat) => SerialForce(w, x, u, phys, i)
  }

  ghost function ForcePower(force: nat -> Vec3, d: seq<real>, n: nat): real
    requires NDIM * n <= |d|
  {
    if n == 0 then 0.0 else ForcePower(force, d, n - 1) + Dot(NodeAt(d, n - 1), force(n - 1))
  }

  lemma {:induction false} ForcePowerIsWork(force: nat -> Vec3, d: seq<real>, incs: seq<Increment>, n: nat)
    requires NDIM * n <= |d| && forall i: nat :: i < n ==> force(i) == Total(incs, i)
    ensures ForcePower(force, d, n) == TotalWork(d, incs, n)
  {
    if n > 0 {
      ForcePowerIsWork(force, d, incs, n - 1);
    }
  }

  /** Virtual work: however nodes and specifications are distributed and along whatever motion, the assembled force
      works against the tension times the stretching of every spring, the rigidity times the excess bend of every
      beam along its bending, and the pull and the damping of every target point, as the nodes' specifications give
      them. This determines the force. */
  lemma VirtualWork(w: World, x: seq<real>, u: seq<real>, d: seq<real>, phys: Physics)
    requires ValidWorld(w) && |x| == |u| == |d| == NDIM * NumNodes(w) && phys.eps > 0.0
    ensures forall p :: 0 <= p < |w.procs| ==> NodesWithin(w.procs[p], w.ao, |x| / NDIM)
    ensures ForcePower(AssembledForce(w, x, u, phys), d, NumNodes(w)) == -WorldPower(w, x, u, d, phys, |w.procs|)
  {
    forall p | 0 <= p < |w.procs| ensures NodesWithin(w.procs[p], w.ao, |x| / NDIM) {
      ProcessWithin(w, p);
    }
    var parts := Parts(w);
    assert parts[..|w.procs|] == parts;
    JoinPower(w, parts, x, u, d, phys, |w.procs|);
    WorldFits(w, x, u);
    var incs := Loop(Join(parts), x, u, phys);
    MeshWork(Join(parts), x, u, d, phys);
    WorkByNode(d, incs, NumNodes(w));
    ForcePowerIsWork(AssembledForce(w, x, u, phys), d, incs, NumNodes(w));
  }
}
