/** IBStandardForceGen::computeLagrangianForce over all processes equals one serial loop. */
module DistributedForce {
  import opened Vectors
  import opened Increments
  import opened ForceElements
  import opened ForceIndexing
  import opened ForceLoops
  import opened ForceAssembly

  /** The elements held by each process. */
  ghost function Parts(w: World): (parts: seq<seq<Element>>)
    requires ValidWorld(w)
    ensures |parts| == |w.procs|
    ensures forall p :: 0 <= p < |w.procs| ==> AllConsistent(w.procs[p]) && parts[p] == Elements(w.procs[p], w.ao)
  {
    AllProcessesConsistent(w);
    seq(|w.procs|, p requires 0 <= p < |w.procs| && AllConsistent(w.procs[p]) => Elements(w.procs[p], w.ao))
  }

  lemma AllProcessesConsistent(w: World)
    requires ValidWorld(w)
    ensures forall p :: 0 <= p < |w.procs| ==> AllConsistent(w.procs[p])
  {
    forall p | 0 <= p < |w.procs| ensures AllConsistent(w.procs[p]) {
      assert ValidProcess(w, p);
    }
  }

  function Join(parts: seq<seq<Element>>): seq<Element> {
    if parts == [] then [] else Join(parts[..|parts| - 1]) + parts[|parts| - 1]
  }

  ghost predicate PartsFit(parts: seq<seq<Element>>, x: seq<real>, u: seq<real>) {
    forall p :: 0 <= p < |parts| ==> AllFit(parts[p], x, u)
  }

  lemma WorldFits(w: World, x: seq<real>, u: seq<real>)
    requires ValidWorld(w) && |x| == |u| == NDIM * NumNodes(w)
    ensures PartsFit(Parts(w), x, u)
  {
    forall p | 0 <= p < |w.procs| ensures AllFit(Parts(w)[p], x, u) {
      assert ValidProcess(w, p);
      var es := Elements(w.procs[p], w.ao);
      forall k | 0 <= k < |es| ensures Fits(es[k], x, u) {
        assert es[k] in es;
      }
    }
  }

  lemma {:induction false} JoinFits(parts: seq<seq<Element>>, x: seq<real>, u: seq<real>)
    requires PartsFit(parts, x, u)
    ensures AllFit(Join(parts), x, u)
  {
    if parts != [] {
      JoinFits(parts[..|parts| - 1], x, u);
    }
  }

  /** The reference: one serial loop over the elements of all processes, in global numbering. */
  ghost function SerialForce(w: World, x: seq<real>, u: seq<real>, phys: Physics, i: nat): Vec3
    requires ValidWorld(w) && |x| == |u| == NDIM * NumNodes(w) && phys.eps > 0.0
  {
    WorldFits(w, x, u);
    JoinFits(Parts(w), x, u);
    Total(Loop(Join(Parts(w)), x, u, phys), i)
  }

  /** The increments of each process in global numbering. */
  ghost function PartLoops(parts: seq<seq<Element>>, x: seq<real>, u: seq<real>,
                           phys: Physics): (loops: seq<seq<Increment>>)
    requires PartsFit(parts, x, u) && phys.eps > 0.0
    ensures |loops| == |parts| && forall p :: 0 <= p < |parts| ==> loops[p] == Loop(parts[p], x, u, phys)
  {
    seq(|parts|, p requires 0 <= p < |parts| => Loop(parts[p], x, u, phys))
  }

  lemma {:induction false} LoopJoin(parts: seq<seq<Element>>, loops: seq<seq<Increment>>, x: seq<real>, u: seq<real>,
                                    phys: Physics)
    requires PartsFit(parts, x, u) && phys.eps > 0.0 && |loops| == |parts|
    requires forall p :: 0 <= p < |parts| ==> loops[p] == Loop(parts[p], x, u, phys)
    ensures AllFit(Join(parts), x, u)
    ensures Loop(Join(parts), x, u, phys) == Flatten(loops)
  {
    JoinFits(parts, x, u);
    if parts == [] {
      assert Each([], x, u, phys) == [];
    } else {
      var n := |parts| - 1;
      LoopJoin(parts[..n], loops[..n], x, u, phys);
      LoopConcat(Join(parts[..n]), parts[n], x, u, phys);
    }
  }

  lemma {:induction false} OffsetMonotone(w: World, p: nat, q: nat)
    requires p <= q <= |w.procs|
    ensures Offset(w, p) <= Offset(w, q)
    ensures p < q ==> Offset(w, p) + |w.procs[p]| <= Offset(w, q)
    decreases q - p
  {
    if p < q {
      OffsetMonotone(w, p, q - 1);
    }
  }

  /** `l` is the ghosted local form of the global vector `v`. */
  ghost predicate GhostedForm(l: seq<real>, v: seq<real>, offset: nat, n: nat, nonlocal: seq<int>) {
    && |l| == NDIM * (n + |nonlocal|)
    && forall s: nat :: s < n + |nonlocal| ==>
         0 <= GlobalOf(offset, n, nonlocal, s) < |v| / NDIM
           && NodeAt(l, s) == NodeAt(v, GlobalOf(offset, n, nonlocal, s))
  }

  /** The loop over a process's own slots leaves in each slot what the serial loop over
      the same elements leaves at the node the slot stands for. */
  lemma LocalTotal(es: seq<Element>, offset: nat, nonlocal: seq<int>, n: nat, x: seq<real>, u: seq<real>,
                   lx: seq<real>, lu: seq<real>, phys: Physics, s: nat)
    requires GhostList(offset, n, nonlocal) && NeighboursKnown(es, offset, n, nonlocal)
    requires AllFit(es, x, u) && GhostedForm(lx, x, offset, n, nonlocal) && GhostedForm(lu, u, offset, n, [])
    requires phys.eps > 0.0 && s < n + |nonlocal|
    ensures AllFit(Slotted(es, offset, n, nonlocal), lx, lu)
    ensures Total(Loop(Slotted(es, offset, n, nonlocal), lx, lu, phys), s)
         == Total(Loop(es, x, u, phys), GlobalOf(offset, n, nonlocal, s))
  {
    var f := SlotMap(offset, n, nonlocal);
    var rs := Slotted(es, offset, n, nonlocal);
    forall k | 0 <= k < |es| ensures Transported(es[k], f, x, u, lx, lu) {
      ElementTransported(es[k], offset, nonlocal, n, x, u, lx, lu);
    }
    RelabelLoop(es, rs, f, x, u, lx, lu, phys);
    var g := GlobalOf(offset, n, nonlocal, s);
    var known := KnownNodes(offset, n, nonlocal);
    KnownLoop(es, offset, n, nonlocal, x, u, phys);
    SlotBijection(offset, n, nonlocal);
    RenumberedTotal(Loop(es, x, u, phys), Loop(rs, lx, lu, phys), f, known, g);
  }

  ghost function KnownNodes(offset: int, n: nat, nonlocal: seq<int>): int -> bool {
    (g: int) => Known(offset, n, nonlocal, g)
  }

  lemma KnownLoop(es: seq<Element>, offset: int, n: nat, nonlocal: seq<int>, x: seq<real>, u: seq<real>, phys: Physics)
    requires NeighboursKnown(es, offset, n, nonlocal) && AllFit(es, x, u) && phys.eps > 0.0
    ensures forall j :: 0 <= j < |Loop(es, x, u, phys)| ==> Known(offset, n, nonlocal, Loop(es, x, u, phys)[j].node)
  {
    var known := KnownNodes(offset, n, nonlocal);
    forall k, g | 0 <= k < |es| && g in Nodes(es[k]) ensures known(g) {
      assert es[k] in es;
    }
    LoopNodes(es, x, u, phys, known);
  }

  lemma ElementTransported(e: Element, offset: nat, nonlocal: seq<int>, n: nat, x: seq<real>, u: seq<real>,
                           lx: seq<real>, lu: seq<real>)
    requires GhostList(offset, n, nonlocal) && Fits(e, x, u) && Local(e.master, offset, n)
    requires forall g :: g in Nodes(e) ==> Known(offset, n, nonlocal, g)
    requires GhostedForm(lx, x, offset, n, nonlocal) && GhostedForm(lu, u, offset, n, [])
    ensures Transported(e, SlotMap(offset, n, nonlocal), x, u, lx, lu)
  {
    var f := SlotMap(offset, n, nonlocal);
    SlotBijection(offset, n, nonlocal);
    forall g | g in Nodes(e)
      ensures 0 <= g < |x| / NDIM && 0 <= f(g) < |lx| / NDIM && NodeAt(lx, f(g)) == NodeAt(x, g)
    {
      assert Known(offset, n, nonlocal, g);
      assert GlobalOf(offset, n, nonlocal, f(g)) == g;
    }
    match e
    case Spring(_, _, m, s, _, _) =>
      assert m in Nodes(e) && s in Nodes(e);
    case Beam(m, k, p, _, _) =>
      assert m in Nodes(e) && k in Nodes(e) && p in Nodes(e);
    case Target(m, _, _, _) =>
      assert m in Nodes(e);
      assert GlobalOf(offset, n, [], f(m)) == m;
  }

  /** VecGhostUpdate, SCATTER_FORWARD: own nodes first, then the ghost nodes copied from their owners. */
  method GhostedCopy(v: array<real>, offset: nat, n: nat, nonlocal: seq<int>) returns (l: array<real>)
    requires NDIM * (offset + n) <= v.Length
    requires forall k :: 0 <= k < |nonlocal| ==> 0 <= nonlocal[k] < v.Length / NDIM
    ensures fresh(l) && GhostedForm(l[..], v[..], offset, n, nonlocal)
  {
    l := new real[NDIM * (n + |nonlocal|)];
    for s := 0 to n + |nonlocal|
      invariant forall t: nat :: t < s ==> NodeAt(l[..], t) == NodeAt(v[..], GlobalOf(offset, n, nonlocal, t))
    {
      var g := if s < n then offset + s else nonlocal[s - n];
      ghost var before := l[..];
      l[NDIM * s], l[NDIM * s + 1], l[NDIM * s + 2] := v[NDIM * g], v[NDIM * g + 1], v[NDIM * g + 2];
      forall t: nat | t < s ensures NodeAt(l[..], t) == NodeAt(before, t) {}
    }
  }

  /** The three force loops one after the other, on a vector set to zero. */
  method RunLoops(gen: LevelCache, f: array<real>, lx: array<real>, lu: array<real>, phys: Physics,
                  ghost a: seq<Element>, ghost b: seq<Element>, ghost c: seq<Element>)
    requires CachesSprings(gen.springs, a, NDIM) && CachesBeams(gen.beams, b, NDIM)
    requires CachesTargets(gen.targets, c, NDIM)
    requires AllFit(a, lx[..], lu[..]) && AllFit(b, lx[..], lu[..]) && AllFit(c, lx[..], lu[..])
    requires f.Length == lx.Length && f != lx && f != lu && phys.eps > 0.0
    requires forall k :: 0 <= k < f.Length ==> f[k] == 0.0
    modifies f
    ensures AllFit(a + b + c, lx[..], lu[..])
    ensures forall s: nat :: s < f.Length / NDIM ==> NodeAt(f[..], s) == Total(Loop(a + b + c, lx[..], lu[..], phys), s)
  {
    ghost var xs, us := lx[..], lu[..];
    ghost var f0 := f[..];
    ghost var run := InOrderRun(a, f0, xs, us, phys);
    ComputeLagrangianSpringForce(gen.springs, f, lx, phys, a, run, xs, us);
    run := InOrderRun(b, f[..], xs, us, phys);
    ComputeLagrangianBeamForce(gen.beams, f, lx, phys, b, run, xs, us);
    run := InOrderRun(c, f[..], xs, us, phys);
    ComputeLagrangianTargetPointForce(gen.targets, f, lx, lu, phys, c, run, xs, us);
    LoopConcat(a, b, xs, us, phys);
    LoopConcat(a + b, c, xs, us, phys);
    forall s: nat | s < f.Length / NDIM ensures NodeAt(f[..], s) == Total(Loop(a + b + c, xs, us, phys), s) {
      ThreeLoops(a, b, c, f0, xs, us, phys, s);
    }
  }

  lemma SlottedConcat(a: seq<Element>, b: seq<Element>, c: seq<Element>, offset: int, n: nat, nonlocal: seq<int>)
    ensures Slotted(a + b + c, offset, n, nonlocal)
         == Slotted(a, offset, n, nonlocal) + Slotted(b, offset, n, nonlocal) + Slotted(c, offset, n, nonlocal)
  {
  }

  lemma ConcatFits(a: seq<Element>, b: seq<Element>, c: seq<Element>, x: seq<real>, u: seq<real>)
    requires AllFit(a + b + c, x, u)
    ensures AllFit(a, x, u) && AllFit(b, x, u) && AllFit(c, x, u)
  {
    var all := a + b + c;
    forall k | 0 <= k < |a| ensures Fits(a[k], x, u) { assert all[k] == a[k]; }
    forall k | 0 <= k < |b| ensures Fits(b[k], x, u) { assert all[|a| + k] == b[k]; }
    forall k | 0 <= k < |c| ensures Fits(c[k], x, u) { assert all[|a| + |b| + k] == c[k]; }
  }

  lemma SlottedFit(es: seq<Element>, offset: nat, nonlocal: seq<int>, n: nat, x: seq<real>, u: seq<real>, lx: seq<real>,
                   lu: seq<real>)
    requires GhostList(offset, n, nonlocal) && NeighboursKnown(es, offset, n, nonlocal)
    requires AllFit(es, x, u) && GhostedForm(lx, x, offset, n, nonlocal) && GhostedForm(lu, u, offset, n, [])
    ensures AllFit(Slotted(es, offset, n, nonlocal), lx, lu)
  {
    forall k | 0 <= k < |es| ensures Fits(Slotted(es, offset, n, nonlocal)[k], lx, lu) {
      ElementTransported(es[k], offset, nonlocal, n, x, u, lx, lu);
    }
  }

  lemma ThreeLoops(a: seq<Element>, b: seq<Element>, c: seq<Element>, f: seq<real>, x: seq<real>, u: seq<real>,
                   phys: Physics, s: nat)
    requires AllFit(a, x, u) && AllFit(b, x, u) && AllFit(c, x, u) && phys.eps > 0.0
    requires |f| == |x| && NDIM * s + NDIM <= |f| && NodeAt(f, s) == ZERO
    ensures AllFit(a + b + c, x, u)
    ensures NodeAt(Accumulate(Accumulate(Accumulate(f, Loop(a, x, u, phys)), Loop(b, x, u, phys)), Loop(c, x, u, phys)),
                   s)
         == Total(Loop(a + b + c, x, u, phys), s)
  {
    var la, lb, lc := Loop(a, x, u, phys), Loop(b, x, u, phys), Loop(c, x, u, phys);
    LoopConcat(a, b, x, u, phys);
    LoopConcat(a + b, c, x, u, phys);
    TotalConcat(la, lb, s);
    TotalConcat(la + lb, lc, s);
    AccumulateAt(f, la, s);
    AccumulateAt(Accumulate(f, la), lb, s);
    AccumulateAt(Accumulate(Accumulate(f, la), lb), lc, s);
  }

  // ------------------------------------------------ all processes together

  /** What each process adds to each node, process by process. */
  type Contribution = (nat, nat) -> Vec3

  /** What the processes before `p` add to node `i` as its owner, without owning it, and together. */
  ghost function OwnSum(w: World, c: Contribution, p: nat, i: nat): Vec3
    requires p <= |w.procs|
  {
    if p == 0 then ZERO else Add(OwnSum(w, c, p - 1, i), if Owns(w, p - 1, i) then c(p - 1, i) else ZERO)
  }

  ghost function GhostSum(w: World, c: Contribution, p: nat, i: nat): Vec3
    requires p <= |w.procs|
  {
    if p == 0 then ZERO else Add(GhostSum(w, c, p - 1, i), if Owns(w, p - 1, i) then ZERO else c(p - 1, i))
  }

  ghost function FullSum(c: Contribution, p: nat, i: nat): Vec3 {
    if p == 0 then ZERO else Add(FullSum(c, p - 1, i), c(p - 1, i))
  }

  lemma {:induction false} OwnPlusGhost(w: World, c: Contribution, p: nat, i: nat)
    requires p <= |w.procs|
    ensures Add(OwnSum(w, c, p, i), GhostSum(w, c, p, i)) == FullSum(c, p, i)
  {
    if p > 0 {
      OwnPlusGhost(w, c, p - 1, i);
    }
  }

  lemma {:induction false} OwnSumOutside(w: World, c: Contribution, p: nat, i: nat)
    requires p <= |w.procs| && i >= Offset(w, p)
    ensures OwnSum(w, c, p, i) == ZERO
  {
    if p > 0 {
      OwnSumOutside(w, c, p - 1, i);
    }
  }

  /** The contributions made by the increments of each process. */
  ghost function Contributions(loops: seq<seq<Increment>>): Contribution {
    (p: nat, i: nat) => if p < |loops| then Total(loops[p], i) else ZERO
  }

  /** The contributions of all processes sum to one serial loop over all elements. */
  lemma {:induction false} FullSumIsSerial(loops: seq<seq<Increment>>, p: nat, i: nat)
    requires p <= |loops|
    ensures FullSum(Contributions(loops), p, i) == Total(Flatten(loops[..p]), i)
  {
    if p > 0 {
      FullSumIsSerial(loops, p - 1, i);
      assert loops[..p][..p - 1] == loops[..p - 1];
      TotalConcat(Flatten(loops[..p - 1]), loops[p - 1], i);
    }
  }

  /** The processes hold caches for their part of the mesh; every ghost is a neighbour of one of their elements. */
  ghost predicate AllInitialized(w: World, gens: seq<LevelCache>)
  {
    && |gens| == |w.procs|
    && forall p :: 0 <= p < |gens| ==>
         && Initialized(gens[p], w.procs[p], w.ao, Offset(w, p))
         && forall g :: g in gens[p].nonlocal ==> Touched(Elements(w.procs[p], w.ao), g)
  }

  /** How the slots of process `p` lie in the global vector. */
  ghost predicate Layout(w: World, gen: LevelCache, p: nat)
    requires p < |w.procs|
  {
    && gen.offset == Offset(w, p) && gen.numLocal == |w.procs[p]|
    && GhostList(gen.offset, gen.numLocal, gen.nonlocal)
    && forall k :: 0 <= k < |gen.nonlocal| ==> 0 <= gen.nonlocal[k] < NumNodes(w)
  }

  lemma GhostInMesh(w: World, p: nat, g: int)
    requires p < |w.procs| && ValidProcess(w, p) && Touched(Elements(w.procs[p], w.ao), g)
    ensures 0 <= g < NumNodes(w)
  {
    var e :| e in Elements(w.procs[p], w.ao) && g in Nodes(e);
    assert Within(e, NumNodes(w));
  }

  lemma LayoutHolds(w: World, gen: LevelCache, p: nat)
    requires p < |w.procs| && ValidProcess(w, p) && Initialized(gen, w.procs[p], w.ao, Offset(w, p))
    requires forall g :: g in gen.nonlocal ==> Touched(Elements(w.procs[p], w.ao), g)
    ensures Layout(w, gen, p)
  {
    forall k | 0 <= k < |gen.nonlocal| ensures 0 <= gen.nonlocal[k] < NumNodes(w) {
      GhostInMesh(w, p, gen.nonlocal[k]);
    }
  }

  /** The local result of process `p` holds its contribution in every slot. */
  ghost predicate LocalResult(w: World, gen: LevelCache, p: nat, part: seq<real>, c: Contribution)
    requires p < |w.procs|
  {
    && Layout(w, gen, p)
    && |part| == NDIM * (gen.numLocal + |gen.nonlocal|)
    && forall s: nat :: s < gen.numLocal + |gen.nonlocal| ==>
         NodeAt(part, s) == c(p, GlobalOf(gen.offset, gen.numLocal, gen.nonlocal, s))
  }

  /** Own entries of all processes put end to end: the global vector before the reverse scatter. */
  method GatherOwned(w: World, gens: seq<LevelCache>, results: seq<seq<real>>, ghost c: Contribution)
    returns (g: seq<real>)
    requires |results| == |gens| == |w.procs|
    requires forall p :: 0 <= p < |gens| ==> LocalResult(w, gens[p], p, results[p], c)
    ensures |g| == NDIM * NumNodes(w)
    ensures forall i: nat :: i < NumNodes(w) ==> NodeAt(g, i) == OwnSum(w, c, |gens|, i)
  {
    g := [];
    for p := 0 to |gens|
      invariant |g| == NDIM * Offset(w, p)
      invariant forall i: nat :: i < Offset(w, p) ==> NodeAt(g, i) == OwnSum(w, c, p, i)
    {
      assert LocalResult(w, gens[p], p, results[p], c);
      ghost var before, off := g, Offset(w, p);
      var n := gens[p].numLocal;
      g := g + results[p][..NDIM * n];
      forall i: nat | i < Offset(w, p + 1) ensures NodeAt(g, i) == OwnSum(w, c, p + 1, i) {
        if i < off {
          assert NodeAt(g, i) == NodeAt(before, i);
        } else {
          OwnSumOutside(w, c, p, i);
          assert NodeAt(g, i) == NodeAt(results[p], i - off);
        }
      }
    }
  }

  /** VecGhostUpdate, ADD_VALUES, SCATTER_REVERSE for process `p`: its ghost entries are added to their owners. */
  method ScatterReverse(w: World, gen: LevelCache, p: nat, part: seq<real>, g0: seq<real>, ghost c: Contribution)
    returns (g: seq<real>)
    requires p < |w.procs| && LocalResult(w, gen, p, part, c) && |g0| == NDIM * NumNodes(w)
    requires Supported(gen, p, c)
    ensures |g| == |g0|
    ensures forall i: nat :: i < NumNodes(w) ==>
            NodeAt(g, i) == Add(NodeAt(g0, i), if Owns(w, p, i) then ZERO else c(p, i))
  {
    var nl, n := gen.nonlocal, gen.numLocal;
    g := g0;
    for k := 0 to |nl|
      invariant |g| == |g0|
      invariant forall i: nat :: i < NumNodes(w) ==>
                NodeAt(g, i) == Add(NodeAt(g0, i), if i in nl[..k] then c(p, i) else ZERO)
    {
      assert GlobalOf(gen.offset, n, nl, n + k) == nl[k] && nl[k] !in nl[..k];
      var v := Vec3(part[NDIM * (n + k)], part[NDIM * (n + k) + 1], part[NDIM * (n + k) + 2]);
      assert v == NodeAt(part, n + k) == c(p, nl[k]);
      ghost var before := g;
      g := AddAt(g, nl[k], v);
      forall i: nat | i < NumNodes(w)
        ensures NodeAt(g, i) == Add(NodeAt(g0, i), if i in nl[..k + 1] then c(p, i) else ZERO)
      {
        AddAtNode(before, nl[k], v, i);
        assert nl[..k + 1] == nl[..k] + [nl[k]];
      }
    }
    assert nl[..|nl|] == nl;
  }

  /** One process: forces of its elements in its own ghosted vector. */
  method ComputeLocalForce(gen: LevelCache, x: array<real>, u: array<real>, phys: Physics,
                           ghost w: World, ghost p: nat, ghost es: seq<Element>, ghost c: Contribution)
    returns (part: seq<real>)
    requires p < |w.procs| && Layout(w, gen, p) && Initialized(gen, w.procs[p], w.ao, Offset(w, p))
    requires x.Length == u.Length == NDIM * NumNodes(w) && phys.eps > 0.0
    requires es == Elements(w.procs[p], w.ao) && AllFit(es, x[..], u[..])
    requires forall i: nat :: c(p, i) == Total(Loop(es, x[..], u[..], phys), i)
    ensures LocalResult(w, gen, p, part, c) && Supported(gen, p, c)
  {
    ghost var off, n, nl, xs, us := Offset(w, p), gen.numLocal, gen.nonlocal, x[..], u[..];
    OffsetMonotone(w, p, |w.procs|);
    var lx := GhostedCopy(x, gen.offset, gen.numLocal, gen.nonlocal);
    var lu := GhostedCopy(u, gen.offset, gen.numLocal, []);
    var f := new real[lx.Length](_ => 0.0);
    ghost var a, b, d := LevelSprings(w.procs[p], w.ao), LevelBeams(w.procs[p], w.ao), LevelTargets(w.procs[p]);
    SlottedFit(es, off, nl, n, xs, us, lx[..], lu[..]);
    SlottedConcat(a, b, d, off, n, nl);
    ConcatFits(Slotted(a, off, n, nl), Slotted(b, off, n, nl), Slotted(d, off, n, nl), lx[..], lu[..]);
    RunLoops(gen, f, lx, lu, phys, Slotted(a, off, n, nl), Slotted(b, off, n, nl), Slotted(d, off, n, nl));
    part := f[..];
    forall s: nat | s < n + |nl| ensures NodeAt(part, s) == c(p, GlobalOf(off, n, nl, s)) {
      LocalTotal(es, off, nl, n, xs, us, lx[..], lu[..], phys, s);
    }
    forall i: nat | !Known(off, n, nl, i) ensures c(p, i) == ZERO {
      KnownLoop(es, off, n, nl, xs, us, phys);
      TotalElsewhere(Loop(es, xs, us, phys), i);
    }
  }

  /** The local results of all processes. */
  ghost predicate AllLocal(w: World, gens: seq<LevelCache>, results: seq<seq<real>>, c: Contribution, n: nat)
    requires n <= |gens| == |w.procs| && n <= |results|
  {
    forall p :: 0 <= p < n ==> LocalResult(w, gens[p], p, results[p], c) && Supported(gens[p], p, c)
  }

  /** A process adds nothing to a node that is neither its own nor one of its ghosts. */
  ghost predicate Supported(gen: LevelCache, p: nat, c: Contribution)
  {
    forall i: nat :: !Known(gen.offset, gen.numLocal, gen.nonlocal, i) ==> c(p, i) == ZERO
  }

  lemma Ready(w: World, gens: seq<LevelCache>, p: nat)
    requires ValidWorld(w) && AllInitialized(w, gens) && p < |gens|
    ensures AllConsistent(w.procs[p]) && Initialized(gens[p], w.procs[p], w.ao, Offset(w, p)) && Layout(w, gens[p], p)
  {
    assert ValidProcess(w, p);
    LayoutHolds(w, gens[p], p);
  }

  lemma ExtendLocal(w: World, gens: seq<LevelCache>, results: seq<seq<real>>, part: seq<real>, c: Contribution, p: nat)
    requires p < |gens| == |w.procs| && p == |results| && AllLocal(w, gens, results, c, p)
    requires LocalResult(w, gens[p], p, part, c) && Supported(gens[p], p, c)
    ensures AllLocal(w, gens, results + [part], c, p + 1)
  {
    forall q | 0 <= q < p + 1 ensures LocalResult(w, gens[q], q, (results + [part])[q], c) && Supported(gens[q], q, c) {
      if q < p {
        assert LocalResult(w, gens[q], q, results[q], c) && Supported(gens[q], q, c);
      }
    }
  }

  method ComputeAllLocal(w: World, gens: seq<LevelCache>, x: array<real>, u: array<real>, phys: Physics,
                         ghost parts: seq<seq<Element>>, ghost c: Contribution)
    returns (results: seq<seq<real>>)
    requires |gens| == |w.procs| == |parts| && phys.eps > 0.0 && x.Length == u.Length == NDIM * NumNodes(w)
    requires ValidWorld(w) && AllInitialized(w, gens) && parts == Parts(w) && PartsFit(parts, x[..], u[..])
    requires forall p: nat, i: nat :: p < |gens| ==> c(p, i) == Total(Loop(parts[p], x[..], u[..], phys), i)
    ensures |results| == |gens| && AllLocal(w, gens, results, c, |gens|)
  {
    results := [];
    for p := 0 to |gens|
      invariant |results| == p && AllLocal(w, gens, results, c, p)
    {
      Ready(w, gens, p);
      var part := ComputeLocalForce(gens[p], x, u, phys, w, p, parts[p], c);
      ExtendLocal(w, gens, results, part, c, p);
      results := results + [part];
    }
  }

  /** The distributed computation adds to every node exactly the serial force at that node. */
  method ComputeLagrangianForce(w: World, gens: seq<LevelCache>, f: array<real>, x: array<real>, u: array<real>,
                                phys: Physics)
    requires ValidWorld(w) && AllInitialized(w, gens) && phys.eps > 0.0
    requires f.Length == x.Length == u.Length == NDIM * NumNodes(w) && f != x && f != u
    modifies f
    ensures forall i: nat :: i < NumNodes(w) ==>
              NodeAt(f[..], i) == Add(NodeAt(old(f[..]), i), SerialForce(w, x[..], u[..], phys, i))
  {
    ghost var xs, us := x[..], u[..];
    WorldFits(w, xs, us);
    ghost var loops := PartLoops(Parts(w), xs, us, phys);
    var results := ComputeAllLocal(w, gens, x, u, phys, Parts(w), Contributions(loops));
    var g := Assemble(w, gens, results, Contributions(loops));
    Axpy(f, g);
    forall i: nat | i < NumNodes(w) ensures NodeAt(g, i) == SerialForce(w, xs, us, phys, i) {
      SerialSum(w, loops, xs, us, phys, i);
    }
  }

  lemma SerialSum(w: World, loops: seq<seq<Increment>>, x: seq<real>, u: seq<real>, phys: Physics, i: nat)
    requires ValidWorld(w) && |x| == |u| == NDIM * NumNodes(w) && phys.eps > 0.0
    requires PartsFit(Parts(w), x, u) && loops == PartLoops(Parts(w), x, u, phys)
    ensures FullSum(Contributions(loops), |w.procs|, i) == SerialForce(w, x, u, phys, i)
  {
    FullSumIsSerial(loops, |w.procs|, i);
    assert loops[..|w.procs|] == loops;
    LoopJoin(Parts(w), loops, x, u, phys);
  }

  method Assemble(w: World, gens: seq<LevelCache>, results: seq<seq<real>>, ghost c: Contribution)
    returns (g: seq<real>)
    requires |results| == |gens| == |w.procs| && AllLocal(w, gens, results, c, |gens|)
    ensures |g| == NDIM * NumNodes(w)
    ensures forall i: nat :: i < NumNodes(w) ==> NodeAt(g, i) == FullSum(c, |gens|, i)
  {
    g := GatherOwned(w, gens, results, c);
    for p := 0 to |gens|
      invariant |g| == NDIM * NumNodes(w)
      invariant forall i: nat :: i < NumNodes(w) ==> NodeAt(g, i) == Add(OwnSum(w, c, |gens|, i), GhostSum(w, c, p, i))
    {
      assert LocalResult(w, gens[p], p, results[p], c) && Supported(gens[p], p, c);
      g := ScatterReverse(w, gens[p], p, results[p], g, c);
    }
    forall i: nat | i < NumNodes(w) ensures NodeAt(g, i) == FullSum(c, |gens|, i) {
      OwnPlusGhost(w, c, |gens|, i);
    }
  }

  method Axpy(f: array<real>, g: seq<real>)
    requires |g| == f.Length
    modifies f
    ensures forall i: nat :: i < |g| / NDIM ==> NodeAt(f[..], i) == Add(NodeAt(old(f[..]), i), NodeAt(g, i))
  {
    for k := 0 to f.Length
      invariant forall j :: 0 <= j < f.Length ==> f[j] == if j < k then old(f[j]) + g[j] else old(f[j])
    {
      f[k] := f[k] + g[k];
    }
  }
}
