/** The force specifications attached to Lagrangian nodes, the elements they give rise
    to, and the nodal increments one element makes when its force is computed. */
module ForceElements {
  import opened Options
  import opened Vectors
  import opened Increments
  import opened Multisets

  datatype SpringSpec = SpringSpec(masterIdx: int, slaveIdxs: seq<int>, forceFcnIdxs: seq<int>,
                                   parameters: seq<seq<real>>)

  datatype BeamSpec = BeamSpec(masterIdx: int, neighborIdxs: seq<(int, int)>, bendRigidities: seq<real>,
                               curvatures: seq<Vec3>)

  datatype TargetSpec = TargetSpec(masterIdx: int, stiffness: real, damping: real, position: Vec3)

  /** A node of the distributed mesh: its Lagrangian index, its global PETSc index and its specs. */
  datatype LNode = LNode(lag: int, petsc: int, spring: Option<SpringSpec>, beam: Option<BeamSpec>,
                         target: Option<TargetSpec>)

  /** The square root, the tension laws and the length below which a spring is skipped. */
  datatype Physics = Physics(norm: Vec3 -> real, tension: (int, real, seq<real>, int, int) -> real, eps: real)

  datatype Element =
    | Spring(lagMaster: int, lagSlave: int, master: int, slave: int, fcn: int, params: seq<real>)
    | Beam(master: int, next: int, prev: int, rigidity: real, curvature: Vec3)
    | Target(master: int, stiffness: real, damping: real, x0: Vec3)

  function Nodes(e: Element): set<int> {
    match e
    case Spring(_, _, m, s, _, _) => {m, s}
    case Beam(m, n, p, _, _) => {m, n, p}
    case Target(m, _, _, _) => {m}
  }

  predicate Within(e: Element, nodes: nat) {
    match e
    case Spring(_, _, m, s, _, _) => 0 <= m < nodes && 0 <= s < nodes
    case Beam(m, n, p, _, _) => 0 <= m < nodes && 0 <= n < nodes && 0 <= p < nodes
    case Target(m, _, _, _) => 0 <= m < nodes
  }

  /** The element refers to nodes of the position vector, and a target point to a node of the velocity vector. */
  predicate Fits(e: Element, x: seq<real>, u: seq<real>) {
    Within(e, |x| / NDIM) && (e.Target? ==> e.master < |u| / NDIM)
  }

  predicate AllFit(es: seq<Element>, x: seq<real>, u: seq<real>) {
    forall k :: 0 <= k < |es| ==> Fits(es[k], x, u)
  }

  /** The pull of a spring on its master node; a spring of negligible length is skipped. */
  function SpringForce(e: Element, d: Vec3, phys: Physics): Option<Vec3>
    requires e.Spring? && phys.eps > 0.0
  {
    var r := phys.norm(d);
    if r < phys.eps then None
    else Some(Scale(phys.tension(e.fcn, r, e.params, e.lagMaster, e.lagSlave) / r, d))
  }

  function BeamForce(e: Element, xm: Vec3, xn: Vec3, xp: Vec3): Vec3
    requires e.Beam?
  {
    Scale(e.rigidity, Sub(Sub(Add(xn, xp), Scale(2.0, xm)), e.curvature))
  }

  function TargetForce(e: Element, x: Vec3, u: Vec3): Vec3
    requires e.Target?
  {
    Sub(Scale(e.stiffness, Sub(e.x0, x)), Scale(e.damping, u))
  }

  /** The "+=" operations the force loop performs for one element. */
  function ElementIncrements(e: Element, x: seq<real>, u: seq<real>, phys: Physics): (incs: seq<Increment>)
    requires Fits(e, x, u) && phys.eps > 0.0
    ensures forall k :: 0 <= k < |incs| ==> incs[k].node in Nodes(e)
    ensures InRange(incs, |x| / NDIM)
  {
    match e
    case Spring(_, _, m, s, _, _) =>
      (match SpringForce(e, Sub(NodeAt(x, s), NodeAt(x, m)), phys)
       case None => []
       case Some(f) => [Increment(m, f), Increment(s, Neg(f))])
    case Beam(m, n, p, _, _) =>
      var f := BeamForce(e, NodeAt(x, m), NodeAt(x, n), NodeAt(x, p));
      [Increment(m, Scale(2.0, f)), Increment(n, Neg(f)), Increment(p, Neg(f))]
    case Target(m, _, _, _) =>
      [Increment(m, TargetForce(e, NodeAt(x, m), NodeAt(u, m)))]
  }

  function Flatten(parts: seq<seq<Increment>>): (incs: seq<Increment>) {
    if parts == [] then [] else Flatten(parts[..|parts| - 1]) + parts[|parts| - 1]
  }

  function Each(es: seq<Element>, x: seq<real>, u: seq<real>, phys: Physics): (parts: seq<seq<Increment>>)
    requires AllFit(es, x, u) && phys.eps > 0.0
    ensures |parts| == |es| && forall k :: 0 <= k < |es| ==> parts[k] == ElementIncrements(es[k], x, u, phys)
  {
    seq(|es|, k requires 0 <= k < |es| => ElementIncrements(es[k], x, u, phys))
  }

  /** One serial, in-order loop over the elements. */
  function Loop(es: seq<Element>, x: seq<real>, u: seq<real>, phys: Physics): (incs: seq<Increment>)
    requires AllFit(es, x, u) && phys.eps > 0.0
    ensures InRange(incs, |x| / NDIM)
  {
    FlattenAll(Each(es, x, u, phys), |x| / NDIM);
    Flatten(Each(es, x, u, phys))
  }

  lemma {:induction false} FlattenAll(parts: seq<seq<Increment>>, nodes: nat)
    requires forall k :: 0 <= k < |parts| ==> InRange(parts[k], nodes)
    ensures InRange(Flatten(parts), nodes)
  {
    if parts != [] {
      FlattenAll(parts[..|parts| - 1], nodes);
    }
  }

  lemma {:induction false} FlattenConcat(a: seq<seq<Increment>>, b: seq<seq<Increment>>)
    ensures Flatten(a + b) == Flatten(a) + Flatten(b)
  {
    if b == [] {
      assert a + b == a;
    } else {
      assert (a + b)[..|a + b| - 1] == a + b[..|b| - 1];
      FlattenConcat(a, b[..|b| - 1]);
    }
  }

  lemma LoopConcat(a: seq<Element>, b: seq<Element>, x: seq<real>, u: seq<real>, phys: Physics)
    requires AllFit(a, x, u) && AllFit(b, x, u) && phys.eps > 0.0
    ensures AllFit(a + b, x, u)
    ensures Loop(a + b, x, u, phys) == Loop(a, x, u, phys) + Loop(b, x, u, phys)
  {
    assert Each(a + b, x, u, phys) == Each(a, x, u, phys) + Each(b, x, u, phys);
    FlattenConcat(Each(a, x, u, phys), Each(b, x, u, phys));
  }

  function MapSeq<A, B>(g: A -> B, s: seq<A>): (r: seq<B>)
    ensures |r| == |s| && forall k :: 0 <= k < |s| ==> r[k] == g(s[k])
  {
    seq(|s|, k requires 0 <= k < |s| => g(s[k]))
  }

  lemma {:induction false} MapPermutation<A, B>(g: A -> B, a: seq<A>, b: seq<A>)
    requires multiset(a) == multiset(b)
    ensures multiset(MapSeq(g, a)) == multiset(MapSeq(g, b))
    decreases |a|
  {
    if a == [] {
      assert |multiset(b)| == 0;
    } else {
      var j := |a| - 1;
      assert a[j] in multiset(b);
      var k :| 0 <= k < |b| && b[k] == a[j];
      var a', b' := a[..j] + a[j + 1..], b[..k] + b[k + 1..];
      MultisetRemove(a, j);
      MultisetRemove(b, k);
      CancelOne(multiset(a'), multiset(b'), a[j]);
      MapPermutation(g, a', b');
      MultisetRemove(MapSeq(g, a), j);
      MultisetRemove(MapSeq(g, b), k);
      assert MapSeq(g, a') == MapSeq(g, a)[..j] + MapSeq(g, a)[j + 1..];
      assert MapSeq(g, b') == MapSeq(g, b)[..k] + MapSeq(g, b)[k + 1..];
    }
  }

  /** The elements but for one of them. */
  function Without(es: seq<Element>, k: nat): seq<Element>
    requires k < |es|
  {
    es[..k] + es[k + 1..]
  }

  lemma FlattenRemove(parts: seq<seq<Increment>>, k: nat, i: nat)
    requires k < |parts|
    ensures Total(Flatten(parts), i) == Add(Total(Flatten(parts[..k] + parts[k + 1..]), i), Total(parts[k], i))
  {
    var a, b, c := parts[..k], [parts[k]], parts[k + 1..];
    assert parts == a + b + c && Flatten([]) == [] && b[..0] == [];
    FlattenConcat(a + b, c);
    FlattenConcat(a, b);
    FlattenConcat(a, c);
    TotalConcat(Flatten(a) + parts[k], Flatten(c), i);
    TotalConcat(Flatten(a), parts[k], i);
    TotalConcat(Flatten(a), Flatten(c), i);
  }

  lemma {:induction false} FlattenPermutation(a: seq<seq<Increment>>, b: seq<seq<Increment>>, i: nat)
    requires multiset(a) == multiset(b)
    ensures Total(Flatten(a), i) == Total(Flatten(b), i)
    decreases |a|
  {
    if a == [] {
      assert |multiset(b)| == 0;
    } else {
      var j := |a| - 1;
      assert a[j] in multiset(b);
      var k :| 0 <= k < |b| && b[k] == a[j];
      MultisetRemove(a, j);
      MultisetRemove(b, k);
      CancelOne(multiset(a[..j] + a[j + 1..]), multiset(b[..k] + b[k + 1..]), a[j]);
      FlattenPermutation(a[..j] + a[j + 1..], b[..k] + b[k + 1..], i);
      FlattenRemove(a, j, i);
      FlattenRemove(b, k, i);
    }
  }

  /** The serial loop may take the elements in any order: every nodal force stays the same. */
  lemma LoopPermutation(a: seq<Element>, b: seq<Element>, x: seq<real>, u: seq<real>, phys: Physics, i: nat)
    requires multiset(a) == multiset(b) && AllFit(a, x, u) && AllFit(b, x, u) && phys.eps > 0.0
    ensures Total(Loop(a, x, u, phys), i) == Total(Loop(b, x, u, phys), i)
  {
    var g := (e: Element) => if Fits(e, x, u) then ElementIncrements(e, x, u, phys) else [];
    assert Each(a, x, u, phys) == MapSeq(g, a) && Each(b, x, u, phys) == MapSeq(g, b);
    MapPermutation(g, a, b);
    FlattenPermutation(Each(a, x, u, phys), Each(b, x, u, phys), i);
  }

  /** The same element with its nodes renumbered. */
  function Relabel(e: Element, f: int -> int): (r: Element)
    ensures r.Target? <==> e.Target?
  {
    match e
    case Spring(lm, ls, m, s, fcn, params) => Spring(lm, ls, f(m), f(s), fcn, params)
    case Beam(m, n, p, k, c) => Beam(f(m), f(n), f(p), k, c)
    case Target(m, k, d, x0) => Target(f(m), k, d, x0)
  }

  /** `x'`, `u'` hold under the new number of every node of `e` what `x`, `u` hold under the old one. */
  ghost predicate Transported(e: Element, f: int -> int, x: seq<real>, u: seq<real>, x': seq<real>, u': seq<real>) {
    && Fits(e, x, u)
    && Fits(Relabel(e, f), x', u')
    && (forall i :: i in Nodes(e) ==>
        0 <= i < |x| / NDIM && 0 <= f(i) < |x'| / NDIM && NodeAt(x', f(i)) == NodeAt(x, i))
    && (e.Target? ==> NodeAt(u', f(e.master)) == NodeAt(u, e.master))
  }

  ghost predicate Renumbered(a: seq<Increment>, b: seq<Increment>, f: int -> int) {
    |a| == |b| && forall k :: 0 <= k < |a| ==> b[k].node == f(a[k].node) && b[k].v == a[k].v
  }

  lemma RelabelIncrements(e: Element, f: int -> int, x: seq<real>, u: seq<real>, x': seq<real>, u': seq<real>,
                          phys: Physics)
    requires Transported(e, f, x, u, x', u') && phys.eps > 0.0
    ensures Renumbered(ElementIncrements(e, x, u, phys), ElementIncrements(Relabel(e, f), x', u', phys), f)
  {
    match e
    case Spring(_, _, m, s, _, _) =>
      assert m in Nodes(e) && s in Nodes(e);
    case Beam(m, n, p, _, _) =>
      assert m in Nodes(e) && n in Nodes(e) && p in Nodes(e);
    case Target(m, _, _, _) =>
      assert m in Nodes(e);
  }

  ghost predicate InjectiveOn(f: int -> int, known: int -> bool) {
    forall i, j :: known(i) && known(j) && f(i) == f(j) ==> i == j
  }

  /** Renumbering nodes injectively moves the nodal totals with the numbers. */
  lemma {:induction false} RenumberedTotal(a: seq<Increment>, b: seq<Increment>, f: int -> int, known: int -> bool,
                                           i: nat)
    requires Renumbered(a, b, f) && InjectiveOn(f, known)
    requires known(i) && f(i) >= 0 && forall k :: 0 <= k < |a| ==> known(a[k].node)
    ensures Total(b, f(i)) == Total(a, i)
  {
    if a != [] {
      RenumberedTotal(a[..|a| - 1], b[..|b| - 1], f, known, i);
    }
  }

  lemma {:induction false} FlattenRenumbered(a: seq<seq<Increment>>, b: seq<seq<Increment>>, f: int -> int)
    requires |a| == |b| && forall k :: 0 <= k < |a| ==> Renumbered(a[k], b[k], f)
    ensures Renumbered(Flatten(a), Flatten(b), f)
  {
    if a != [] {
      FlattenRenumbered(a[..|a| - 1], b[..|b| - 1], f);
    }
  }

  lemma RelabelLoop(es: seq<Element>, rs: seq<Element>, f: int -> int, x: seq<real>, u: seq<real>,
                    x': seq<real>, u': seq<real>, phys: Physics)
    requires phys.eps > 0.0 && |rs| == |es|
    requires forall k :: 0 <= k < |es| ==> rs[k] == Relabel(es[k], f) && Transported(es[k], f, x, u, x', u')
    ensures AllFit(es, x, u) && AllFit(rs, x', u')
    ensures Renumbered(Loop(es, x, u, phys), Loop(rs, x', u', phys), f)
  {
    var a, b := Each(es, x, u, phys), Each(rs, x', u', phys);
    forall k | 0 <= k < |es| ensures Renumbered(a[k], b[k], f) {
      RelabelIncrements(es[k], f, x, u, x', u', phys);
    }
    FlattenRenumbered(a, b, f);
  }

  lemma {:induction false} FlattenNodes(parts: seq<seq<Increment>>, known: int -> bool)
    requires forall k, j :: 0 <= k < |parts| && 0 <= j < |parts[k]| ==> known(parts[k][j].node)
    ensures forall j :: 0 <= j < |Flatten(parts)| ==> known(Flatten(parts)[j].node)
  {
    if parts != [] {
      FlattenNodes(parts[..|parts| - 1], known);
    }
  }

  lemma LoopNodes(es: seq<Element>, x: seq<real>, u: seq<real>, phys: Physics, known: int -> bool)
    requires AllFit(es, x, u) && phys.eps > 0.0
    requires forall k, g :: 0 <= k < |es| && g in Nodes(es[k]) ==> known(g)
    ensures forall j :: 0 <= j < |Loop(es, x, u, phys)| ==> known(Loop(es, x, u, phys)[j].node)
  {
    FlattenNodes(Each(es, x, u, phys), known);
  }
}
