/** IBStandardForceGen over all processes: ghosted position copies, local force loops, and the
    reverse scatter that adds ghost entries back to their owners. The specification is one
    serial loop over all elements in global numbering. */
module ForceAssembly {
  import opened Increments
  import opened ForceElements
  import opened ForceIndexing

  /** The local nodes of every process, and the application ordering that numbers Lagrangian nodes globally. */
  datatype World = World(procs: seq<seq<LNode>>, ao: int -> int)

  /** The first global node number of process `p`. */
  function Offset(w: World, p: nat): nat
    requires p <= |w.procs|
  {
    if p == 0 then 0 else Offset(w, p - 1) + |w.procs[p - 1]|
  }

  function NumNodes(w: World): nat {
    Offset(w, |w.procs|)
  }

  predicate Owns(w: World, p: nat, g: int)
    requires p < |w.procs|
  {
    Local(g, Offset(w, p), |w.procs[p]|)
  }

  ghost predicate AllConsistent(nodes: seq<LNode>) {
    forall k :: 0 <= k < |nodes| ==> Consistent(nodes[k])
  }

  /** The elements whose master is a local node: springs, then beams, then target points. */
  function Elements(nodes: seq<LNode>, ao: int -> int): seq<Element>
    requires AllConsistent(nodes)
  {
    LevelSprings(nodes, ao) + LevelBeams(nodes, ao) + LevelTargets(nodes)
  }

  ghost predicate ValidProcess(w: World, p: nat)
    requires p < |w.procs|
  {
    && AllConsistent(w.procs[p])
    && (forall k :: 0 <= k < |w.procs[p]| ==> Owns(w, p, w.procs[p][k].petsc))
    && (forall e :: e in Elements(w.procs[p], w.ao) ==> Within(e, NumNodes(w)))
  }

  ghost predicate ValidWorld(w: World) {
    forall p :: 0 <= p < |w.procs| ==> ValidProcess(w, p)
  }

  function SlotMap(offset: int, n: nat, nonlocal: seq<int>): int -> int {
    (g: int) => Slot(offset, n, nonlocal, g)
  }

  function Slotted(es: seq<Element>, offset: int, n: nat, nonlocal: seq<int>): (r: seq<Element>)
    ensures |r| == |es| && forall k :: 0 <= k < |es| ==> r[k] == Relabel(es[k], SlotMap(offset, n, nonlocal))
  {
    seq(|es|, k requires 0 <= k < |es| => Relabel(es[k], SlotMap(offset, n, nonlocal)))
  }

  ghost predicate Known(offset: int, n: nat, nonlocal: seq<int>, g: int) {
    Local(g, offset, n) || g in nonlocal
  }

  // ------------------------------------------------ what a process caches

  lemma {:induction false} LevelMasters(nodes: seq<LNode>, ao: int -> int, offset: int, n: nat)
    requires AllConsistent(nodes) && forall k :: 0 <= k < |nodes| ==> Local(nodes[k].petsc, offset, n)
    ensures forall e :: e in LevelSprings(nodes, ao) ==> e.Spring? && Local(e.master, offset, n)
    ensures forall e :: e in LevelBeams(nodes, ao) ==> e.Beam? && Local(e.master, offset, n)
    ensures forall e :: e in LevelTargets(nodes) ==> e.Target? && Local(e.master, offset, n)
  {
    if nodes != [] {
      LevelMasters(nodes[..|nodes| - 1], ao, offset, n);
      assert Consistent(nodes[|nodes| - 1]);
    }
  }

  /** What one process caches for a level: its elements in slot numbering and its ghost nodes. */
  datatype LevelCache = LevelCache(springs: SpringArrays, beams: BeamArrays, targets: TargetArrays,
                                   nonlocal: seq<int>, offset: int, numLocal: nat)

  /** The cache describes the elements of `nodes` in slot numbering, every node of which has a slot. */
  ghost predicate Initialized(d: LevelCache, nodes: seq<LNode>, ao: int -> int, off: int) {
    && AllConsistent(nodes) && d.offset == off && d.numLocal == |nodes|
    && GhostList(off, |nodes|, d.nonlocal)
    && NeighboursKnown(Elements(nodes, ao), off, |nodes|, d.nonlocal)
    && CachesSprings(d.springs, Slotted(LevelSprings(nodes, ao), off, |nodes|, d.nonlocal), NDIM)
    && CachesBeams(d.beams, Slotted(LevelBeams(nodes, ao), off, |nodes|, d.nonlocal), NDIM)
    && CachesTargets(d.targets, Slotted(LevelTargets(nodes), off, |nodes|, d.nonlocal), NDIM)
  }

  class StandardForceGen {
    var cache: LevelCache

    constructor ()
    {
      cache := LevelCache(SpringArrays([], [], [], [], [], []), BeamArrays([], [], [], [], []),
                          TargetArrays([], [], [], []), [], 0, 0);
    }

    method InitializeLevelData(nodes: seq<LNode>, ao: int -> int, off: int)
      requires AllConsistent(nodes) && forall k :: 0 <= k < |nodes| ==> Local(nodes[k].petsc, off, |nodes|)
      modifies this
      ensures Initialized(cache, nodes, ao, off)
      ensures forall g :: g in cache.nonlocal ==> Touched(Elements(nodes, ao), g)
    {
      var n := |nodes|;
      var sp, nl1 := InitializeSpringLevelData(nodes, ao, off, []);
      var bm, nl2 := InitializeBeamLevelData(nodes, ao, off, nl1);
      var tp := InitializeTargetPointLevelData(nodes);
      LevelMasters(nodes, ao, off, n);
      GhostsAreNeighbours(nodes, ao, off, sp, bm, nl2);

      var sm := ResetLocalPETScIndices(sp.petscMastr, off);
      var bmm := ResetLocalPETScIndices(bm.petscMastr, off);
      var tm := ResetLocalPETScIndices(tp.petscNode, off);
      var ss := ResetLocalOrNonlocalPETScIndices(sp.petscSlave, off, n, nl2);
      var bn := ResetLocalOrNonlocalPETScIndices(bm.petscNext, off, n, nl2);
      var bp := ResetLocalOrNonlocalPETScIndices(bm.petscPrev, off, n, nl2);

      sm := ScaleByDepth(sm);
      ss := ScaleByDepth(ss);
      bmm := ScaleByDepth(bmm);
      bn := ScaleByDepth(bn);
      bp := ScaleByDepth(bp);
      tm := ScaleByDepth(tm);

      var springs := sp.(petscMastr := sm, petscSlave := ss);
      var beams := bm.(petscMastr := bmm, petscNext := bn, petscPrev := bp);
      var targets := tp.(petscNode := tm);
      cache := LevelCache(springs, beams, targets, nl2, off, n);
      SlottedSprings(LevelSprings(nodes, ao), off, n, nl2, sp, springs);
      SlottedBeams(LevelBeams(nodes, ao), off, n, nl2, bm, beams);
      SlottedTargets(LevelTargets(nodes), off, n, nl2, tp, targets);
    }
  }

  lemma SpringNeighbours(es: seq<Element>, off: int, n: nat, nonlocal: seq<int>, d: SpringArrays)
    requires CachesSprings(d, es, 1) && forall e :: e in es ==> Local(e.master, off, n)
    ensures (forall g :: Outside(d.petscSlave, off, n, g) ==> g in nonlocal) ==>
              forall e, g :: e in es && g in Nodes(e) ==> Known(off, n, nonlocal, g)
    ensures forall g :: g in d.petscSlave ==> exists e :: e in es && g in Nodes(e)
  {
    forall k | 0 <= k < |es|
      ensures es[k].Spring? && es[k].slave in d.petscSlave && d.petscSlave[k] in Nodes(es[k]) && es[k] in es
    {
      assert SpringEntry(d, es[k], 1, k);
    }
  }

  lemma BeamNeighbours(es: seq<Element>, off: int, n: nat, nonlocal: seq<int>, d: BeamArrays)
    requires CachesBeams(d, es, 1) && forall e :: e in es ==> Local(e.master, off, n)
    ensures (forall g :: Outside(d.petscNext, off, n, g) || Outside(d.petscPrev, off, n, g) ==> g in nonlocal) ==>
              forall e, g :: e in es && g in Nodes(e) ==> Known(off, n, nonlocal, g)
    ensures forall g :: g in d.petscNext || g in d.petscPrev ==> exists e :: e in es && g in Nodes(e)
  {
    forall k | 0 <= k < |es|
      ensures es[k].Beam? && es[k].next in d.petscNext && es[k].prev in d.petscPrev && es[k] in es
      ensures d.petscNext[k] in Nodes(es[k]) && d.petscPrev[k] in Nodes(es[k])
    {
      assert BeamEntry(d, es[k], 1, k);
    }
  }

  lemma InElements(nodes: seq<LNode>, ao: int -> int, e: Element)
    requires AllConsistent(nodes)
    ensures e in Elements(nodes, ao) <==>
            e in LevelSprings(nodes, ao) || e in LevelBeams(nodes, ao) || e in LevelTargets(nodes)
  {
  }

  ghost predicate NeighboursKnown(es: seq<Element>, off: int, n: nat, nonlocal: seq<int>) {
    forall e :: e in es ==> Local(e.master, off, n) && forall g :: g in Nodes(e) ==> Known(off, n, nonlocal, g)
  }

  ghost predicate Touched(es: seq<Element>, g: int) {
    exists e :: e in es && g in Nodes(e)
  }

  /** The arrays hold the springs and beams of the local nodes in global numbering. */
  ghost predicate CachesLevel(sp: SpringArrays, bm: BeamArrays, nodes: seq<LNode>, ao: int -> int)
    requires AllConsistent(nodes)
  {
    CachesSprings(sp, LevelSprings(nodes, ao), 1) && CachesBeams(bm, LevelBeams(nodes, ao), 1)
  }

  /** Every neighbour of an element is local or a ghost, and every ghost is a neighbour of some element. */
  lemma GhostsAreNeighbours(nodes: seq<LNode>, ao: int -> int, off: int, sp: SpringArrays, bm: BeamArrays,
                            nonlocal: seq<int>)
    requires AllConsistent(nodes) && forall k :: 0 <= k < |nodes| ==> Local(nodes[k].petsc, off, |nodes|)
    requires CachesLevel(sp, bm, nodes, ao)
    requires forall g :: g in nonlocal <==>
               (Outside(sp.petscSlave, off, |nodes|, g) || Outside(bm.petscNext, off, |nodes|, g)
                || Outside(bm.petscPrev, off, |nodes|, g))
    ensures NeighboursKnown(Elements(nodes, ao), off, |nodes|, nonlocal)
    ensures forall g :: g in nonlocal ==> !Local(g, off, |nodes|) && Touched(Elements(nodes, ao), g)
  {
    LevelMasters(nodes, ao, off, |nodes|);
    forall e | e in Elements(nodes, ao)
      ensures Local(e.master, off, |nodes|) && forall g :: g in Nodes(e) ==> Known(off, |nodes|, nonlocal, g)
    {
      InElements(nodes, ao, e);
      SpringNeighbours(LevelSprings(nodes, ao), off, |nodes|, nonlocal, sp);
      BeamNeighbours(LevelBeams(nodes, ao), off, |nodes|, nonlocal, bm);
    }
    forall g | g in nonlocal ensures Touched(Elements(nodes, ao), g) {
      GhostTouched(nodes, ao, off, sp, bm, nonlocal, g);
    }
  }

  lemma GhostTouched(nodes: seq<LNode>, ao: int -> int, off: int, sp: SpringArrays, bm: BeamArrays, nonlocal: seq<int>,
                     g: int)
    requires AllConsistent(nodes) && forall k :: 0 <= k < |nodes| ==> Local(nodes[k].petsc, off, |nodes|)
    requires CachesLevel(sp, bm, nodes, ao)
    requires g in sp.petscSlave || g in bm.petscNext || g in bm.petscPrev
    ensures Touched(Elements(nodes, ao), g)
  {
    LevelMasters(nodes, ao, off, |nodes|);
    SpringNeighbours(LevelSprings(nodes, ao), off, |nodes|, nonlocal, sp);
    BeamNeighbours(LevelBeams(nodes, ao), off, |nodes|, nonlocal, bm);
    var e :| (e in LevelSprings(nodes, ao) || e in LevelBeams(nodes, ao)) && g in Nodes(e);
    InElements(nodes, ao, e);
  }

  lemma SlottedSprings(es: seq<Element>, off: int, n: nat, nonlocal: seq<int>, d: SpringArrays, r: SpringArrays)
    requires CachesSprings(d, es, 1) && forall e :: e in es ==> Local(e.master, off, n)
    requires r == d.(petscMastr := r.petscMastr, petscSlave := r.petscSlave) && |r.petscMastr| == |r.petscSlave| == |es|
    requires forall k :: 0 <= k < |es| ==> r.petscMastr[k] == NDIM * (d.petscMastr[k] - off)
    requires forall k :: 0 <= k < |es| ==> r.petscSlave[k] == NDIM * Slot(off, n, nonlocal, d.petscSlave[k])
    ensures CachesSprings(r, Slotted(es, off, n, nonlocal), NDIM)
  {
    var ss := Slotted(es, off, n, nonlocal);
    forall k | 0 <= k < |es| ensures SpringEntry(r, ss[k], NDIM, k) {
      assert SpringEntry(d, es[k], 1, k) && es[k] in es;
    }
  }

  lemma SlottedBeams(es: seq<Element>, off: int, n: nat, nonlocal: seq<int>, d: BeamArrays, r: BeamArrays)
    requires CachesBeams(d, es, 1) && forall e :: e in es ==> Local(e.master, off, n)
    requires r == d.(petscMastr := r.petscMastr, petscNext := r.petscNext, petscPrev := r.petscPrev)
    requires |r.petscMastr| == |r.petscNext| == |r.petscPrev| == |es|
    requires forall k :: 0 <= k < |es| ==> r.petscMastr[k] == NDIM * (d.petscMastr[k] - off)
    requires forall k :: 0 <= k < |es| ==> r.petscNext[k] == NDIM * Slot(off, n, nonlocal, d.petscNext[k])
    requires forall k :: 0 <= k < |es| ==> r.petscPrev[k] == NDIM * Slot(off, n, nonlocal, d.petscPrev[k])
    ensures CachesBeams(r, Slotted(es, off, n, nonlocal), NDIM)
  {
    var ss := Slotted(es, off, n, nonlocal);
    forall k | 0 <= k < |es| ensures BeamEntry(r, ss[k], NDIM, k) {
      assert BeamEntry(d, es[k], 1, k) && es[k] in es;
    }
  }

  lemma SlottedTargets(es: seq<Element>, off: int, n: nat, nonlocal: seq<int>, d: TargetArrays, r: TargetArrays)
    requires CachesTargets(d, es, 1) && forall e :: e in es ==> Local(e.master, off, n)
    requires r == d.(petscNode := r.petscNode) && |r.petscNode| == |es|
    requires forall k :: 0 <= k < |es| ==> r.petscNode[k] == NDIM * (d.petscNode[k] - off)
    ensures CachesTargets(r, Slotted(es, off, n, nonlocal), NDIM)
  {
    var ss := Slotted(es, off, n, nonlocal);
    forall k | 0 <= k < |es| ensures TargetEntry(r, ss[k], NDIM, k) {
      assert TargetEntry(d, es[k], 1, k) && es[k] in es;
    }
  }
}
