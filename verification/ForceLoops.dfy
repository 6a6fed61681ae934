/** The hand-blocked force loops of IBStandardForceGen over the slots of one process. */
module ForceLoops {
  import opened CDivision
  import opened Vectors
  import opened Increments
  import opened ForceElements
  import opened ForceIndexing

  const BLOCKSIZE := 16

  /** Every block handled by the first loop is followed by a nonempty rest, whatever the number
      of elements, so the block prefetched next begins, and every look-ahead at k + 1 ends, below n. */
  lemma LookAheadInRange(n: nat, kblock: nat, kunroll: nat)
    requires kblock < CDiv(n - 1, BLOCKSIZE) && kunroll < BLOCKSIZE
    ensures BLOCKSIZE * (kblock + 1) < n
    ensures kblock * BLOCKSIZE + kunroll + 1 < n
  {
  }

  method AddNode(f: array<real>, idx: nat, v: Vec3, ghost node: nat)
    requires idx == NDIM * node && idx + NDIM <= f.Length
    modifies f
    ensures f[..] == AddAt(old(f[..]), node, v)
  {
    f[idx + 0] := f[idx + 0] + v.x;
    f[idx + 1] := f[idx + 1] + v.y;
    f[idx + 2] := f[idx + 2] + v.z;
  }

  method ReadNode(x: array<real>, idx: nat, ghost node: nat) returns (v: Vec3)
    requires idx == NDIM * node && idx + NDIM <= x.Length
    ensures v == NodeAt(x[..], node)
  {
    v := Vec3(x[idx + 0], x[idx + 1], x[idx + 2]);
  }

  lemma AfterStep(es: seq<Element>, k: nat, f: seq<real>, x: seq<real>, u: seq<real>, phys: Physics)
    requires k < |es| && AllFit(es, x, u) && phys.eps > 0.0 && |f| == |x|
    ensures After(k + 1, es, f, x, u, phys) ==
            Accumulate(After(k, es, f, x, u, phys), ElementIncrements(es[k], x, u, phys))
  {
    assert es[..k + 1] == es[..k] + [es[k]];
    LoopConcat(es[..k], [es[k]], x, u, phys);
    assert Each([es[k]], x, u, phys) == [ElementIncrements(es[k], x, u, phys)];
    LoopSingle(ElementIncrements(es[k], x, u, phys));
    AccumulateConcat(f, Loop(es[..k], x, u, phys), ElementIncrements(es[k], x, u, phys));
  }

  /** The force vector after the first `k` elements of the in-order loop. */
  ghost function After(k: nat, es: seq<Element>, f: seq<real>, x: seq<real>, u: seq<real>, phys: Physics): seq<real>
    requires k <= |es| && AllFit(es, x, u) && phys.eps > 0.0 && |f| == |x|
  {
    Accumulate(f, Loop(es[..k], x, u, phys))
  }

  /** `run(k)` is the force vector after the first `k` elements of the in-order loop. */
  ghost predicate InOrder(run: nat -> seq<real>, es: seq<Element>, x: seq<real>, u: seq<real>, phys: Physics) {
    && AllFit(es, x, u) && phys.eps > 0.0 && |run(0)| == |x|
    && forall k: nat {:trigger es[k], run(k)} :: k < |es| ==>
         |run(k)| == |x| && run(k + 1) == Accumulate(run(k), ElementIncrements(es[k], x, u, phys))
  }

  lemma InOrderRun(es: seq<Element>, f: seq<real>, x: seq<real>, u: seq<real>, phys: Physics)
    returns (run: nat -> seq<real>)
    requires AllFit(es, x, u) && phys.eps > 0.0 && |f| == |x|
    ensures InOrder(run, es, x, u, phys)
    ensures run(0) == f && run(|es|) == Accumulate(f, Loop(es, x, u, phys))
  {
    run := (k: nat) => if k <= |es| then After(k, es, f, x, u, phys) else f;
    assert es[..0] == [] && es[..|es|] == es;
    forall k: nat | k < |es|
      ensures |run(k)| == |x| && run(k + 1) == Accumulate(run(k), ElementIncrements(es[k], x, u, phys))
    {
      AfterStep(es, k, f, x, u, phys);
    }
  }

  lemma LoopSingle(incs: seq<Increment>)
    ensures Flatten([incs]) == incs
  {
    assert [incs][..0] == [];
  }

  /** The increments of one element in order, as the loop body writes them. */
  lemma AccumulateFew(f: seq<real>, a: Increment, b: Increment, c: Increment)
    requires a.node < |f| / NDIM && b.node < |f| / NDIM && c.node < |f| / NDIM
    ensures InRange([a], |f| / NDIM) && InRange([a, b], |f| / NDIM) && InRange([a, b, c], |f| / NDIM)
    ensures Accumulate(f, [a]) == AddAt(f, a.node, a.v)
    ensures Accumulate(f, [a, b]) == AddAt(AddAt(f, a.node, a.v), b.node, b.v)
    ensures Accumulate(f, [a, b, c]) == AddAt(AddAt(AddAt(f, a.node, a.v), b.node, b.v), c.node, c.v)
  {
    assert [a][..0] == [] && [a, b][..1] == [a] && [a, b, c][..2] == [a, b];
  }

  method AddSpring(d: SpringArrays, k: nat, f: array<real>, x: array<real>, phys: Physics,
                   ghost es: seq<Element>, ghost run: nat -> seq<real>, ghost xs: seq<real>, ghost us: seq<real>)
    requires CachesSprings(d, es, NDIM) && k < |es| && InOrder(run, es, xs, us, phys)
    requires f.Length == x.Length && f != x && xs == x[..] && f[..] == run(k)
    modifies f
    ensures f[..] == run(k + 1)
  {
    ghost var e := es[k];
    assert SpringEntry(d, e, NDIM, k) && Fits(e, xs, us);
    assert run(k + 1) == Accumulate(run(k), ElementIncrements(e, xs, us, phys));
    var mastrIdx, slaveIdx := d.petscMastr[k], d.petscSlave[k];
    var xSlave := ReadNode(x, slaveIdx, e.slave);
    var xm := ReadNode(x, mastrIdx, e.master);
    var D := Sub(xSlave, xm);
    var r := phys.norm(D);
    ghost var f1 := f[..];
    if r < phys.eps {
      assert ElementIncrements(e, xs, us, phys) == [];
      return;
    }
    var tOverR := phys.tension(d.forceFcns[k], r, d.parameters[k], d.lagMastr[k], d.lagSlave[k]) / r;
    var F := Scale(tOverR, D);
    AddNode(f, mastrIdx, F, e.master);
    AddNode(f, slaveIdx, Neg(F), e.slave);
    ghost var a, b := Increment(e.master, F), Increment(e.slave, Neg(F));
    AccumulateFew(f1, a, b, b);
  }

  method SpringRange(d: SpringArrays, lo: nat, hi: nat, lookAhead: bool, f: array<real>, x: array<real>, phys: Physics,
                     ghost es: seq<Element>, ghost run: nat -> seq<real>, ghost xs: seq<real>, ghost us: seq<real>)
    requires CachesSprings(d, es, NDIM) && InOrder(run, es, xs, us, phys) && lo <= hi <= |es|
    requires (lookAhead ==> hi < |es|)
    requires f.Length == x.Length && f != x && xs == x[..] && f[..] == run(lo)
    modifies f
    ensures f[..] == run(hi)
  {
    var k := lo;
    while k < hi
      invariant lo <= k <= hi && x[..] == xs
      invariant f[..] == run(k)
    {
      if lookAhead {
        var nextMastr, nextSlave, nextParameters := d.petscMastr[k + 1], d.petscSlave[k + 1], d.parameters[k + 1];
      }
      AddSpring(d, k, f, x, phys, es, run, xs, us);
      k := k + 1;
    }
  }

  method ComputeLagrangianSpringForce(d: SpringArrays, f: array<real>, x: array<real>, phys: Physics,
                                      ghost es: seq<Element>, ghost run: nat -> seq<real>, ghost xs: seq<real>,
                                      ghost us: seq<real>)
    requires CachesSprings(d, es, NDIM) && InOrder(run, es, xs, us, phys)
    requires f.Length == x.Length && f != x && xs == x[..] && f[..] == run(0)
    modifies f
    ensures f[..] == run(|es|)
  {
    var num := |d.lagMastr|;
    var kblock := 0;
    while kblock < CDiv(num - 1, BLOCKSIZE)  // the last block is not handled by this loop
      invariant 0 <= BLOCKSIZE * kblock <= num && x[..] == xs
      invariant f[..] == run(BLOCKSIZE * kblock)
      decreases num - kblock
    {
      LookAheadInRange(num, kblock, BLOCKSIZE - 1);
      SpringRange(d, BLOCKSIZE * kblock, BLOCKSIZE * (kblock + 1), true, f, x, phys, es, run, xs, us);
      kblock := kblock + 1;
    }
    SpringRange(d, kblock * BLOCKSIZE, num, false, f, x, phys, es, run, xs, us);
  }

  method AddBeam(d: BeamArrays, k: nat, f: array<real>, x: array<real>, phys: Physics,
                 ghost es: seq<Element>, ghost run: nat -> seq<real>, ghost xs: seq<real>, ghost us: seq<real>)
    requires CachesBeams(d, es, NDIM) && k < |es| && InOrder(run, es, xs, us, phys)
    requires f.Length == x.Length && f != x && xs == x[..] && f[..] == run(k)
    modifies f
    ensures f[..] == run(k + 1)
  {
    ghost var e := es[k];
    assert BeamEntry(d, e, NDIM, k) && Fits(e, xs, us);
    assert run(k + 1) == Accumulate(run(k), ElementIncrements(e, xs, us, phys));
    var mastrIdx, nextIdx, prevIdx := d.petscMastr[k], d.petscNext[k], d.petscPrev[k];
    var xm := ReadNode(x, mastrIdx, e.master);
    var xn := ReadNode(x, nextIdx, e.next);
    var xp := ReadNode(x, prevIdx, e.prev);
    var F := Scale(d.rigidities[k], Sub(Sub(Add(xn, xp), Scale(2.0, xm)), d.curvatures[k]));
    ghost var f1 := f[..];
    AddNode(f, mastrIdx, Scale(2.0, F), e.master);
    AddNode(f, nextIdx, Neg(F), e.next);
    AddNode(f, prevIdx, Neg(F), e.prev);
    AccumulateFew(f1, Increment(e.master, Scale(2.0, F)), Increment(e.next, Neg(F)), Increment(e.prev, Neg(F)));
  }

  method BeamRange(d: BeamArrays, lo: nat, hi: nat, lookAhead: bool, f: array<real>, x: array<real>, phys: Physics,
                     ghost es: seq<Element>, ghost run: nat -> seq<real>, ghost xs: seq<real>, ghost us: seq<real>)
    requires CachesBeams(d, es, NDIM) && InOrder(run, es, xs, us, phys) && lo <= hi <= |es| && (lookAhead ==> hi < |es|)
    requires f.Length == x.Length && f != x && xs == x[..] && f[..] == run(lo)
    modifies f
    ensures f[..] == run(hi)
  {
    var k := lo;
    while k < hi
      invariant lo <= k <= hi && x[..] == xs
      invariant f[..] == run(k)
    {
      if lookAhead {
        var nextMastr, nextNext, nextPrev := d.petscMastr[k + 1], d.petscNext[k + 1], d.petscPrev[k + 1];
      }
      AddBeam(d, k, f, x, phys, es, run, xs, us);
      k := k + 1;
    }
  }

  method ComputeLagrangianBeamForce(d: BeamArrays, f: array<real>, x: array<real>, phys: Physics,
                                      ghost es: seq<Element>, ghost run: nat -> seq<real>, ghost xs: seq<real>,
                                      ghost us: seq<real>)
    requires CachesBeams(d, es, NDIM) && InOrder(run, es, xs, us, phys)
    requires f.Length == x.Length && f != x && xs == x[..] && f[..] == run(0)
    modifies f
    ensures f[..] == run(|es|)
  {
    var num := |d.petscMastr|;
    var kblock := 0;
    while kblock < CDiv(num - 1, BLOCKSIZE)  // the last block is not handled by this loop
      invariant 0 <= BLOCKSIZE * kblock <= num && x[..] == xs
      invariant f[..] == run(BLOCKSIZE * kblock)
      decreases num - kblock
    {
      LookAheadInRange(num, kblock, BLOCKSIZE - 1);
      BeamRange(d, BLOCKSIZE * kblock, BLOCKSIZE * (kblock + 1), true, f, x, phys, es, run, xs, us);
      kblock := kblock + 1;
    }
    BeamRange(d, kblock * BLOCKSIZE, num, false, f, x, phys, es, run, xs, us);
  }

  method AddTarget(d: TargetArrays, k: nat, f: array<real>, x: array<real>, u: array<real>, phys: Physics,
                   ghost es: seq<Element>, ghost run: nat -> seq<real>, ghost xs: seq<real>, ghost us: seq<real>)
    requires CachesTargets(d, es, NDIM) && k < |es| && InOrder(run, es, xs, us, phys)
    requires f.Length == x.Length && f != x && f != u && xs == x[..] && us == u[..] && f[..] == run(k)
    modifies f
    ensures f[..] == run(k + 1)
  {
    ghost var e := es[k];
    assert TargetEntry(d, e, NDIM, k) && Fits(e, xs, us);
    assert run(k + 1) == Accumulate(run(k), ElementIncrements(e, xs, us, phys));
    var idx := d.petscNode[k];
    var xi := ReadNode(x, idx, e.master);
    var ui := ReadNode(u, idx, e.master);
    ghost var f1 := f[..];
    var F := Sub(Scale(d.kappa[k], Sub(d.x0[k], xi)), Scale(d.eta[k], ui));
    AddNode(f, idx, F, e.master);
    ghost var a := Increment(e.master, F);
    AccumulateFew(f1, a, a, a);
  }

  method TargetRange(d: TargetArrays, lo: nat, hi: nat, lookAhead: bool, f: array<real>, x: array<real>, u: array<real>,
                     phys: Physics, ghost es: seq<Element>, ghost run: nat -> seq<real>, ghost xs: seq<real>,
                     ghost us: seq<real>)
    requires CachesTargets(d, es, NDIM) && InOrder(run, es, xs, us, phys) && lo <= hi <= |es|
    requires (lookAhead ==> hi < |es|)
    requires f.Length == x.Length && f != x && xs == x[..] && f != u && us == u[..] && f[..] == run(lo)
    modifies f
    ensures f[..] == run(hi)
  {
    var k := lo;
    while k < hi
      invariant lo <= k <= hi && x[..] == xs && u[..] == us
      invariant f[..] == run(k)
    {
      if lookAhead {
        var nextNode, nextKappa, nextEta, nextX0 := d.petscNode[k + 1], d.kappa[k + 1], d.eta[k + 1], d.x0[k + 1];
      }
      AddTarget(d, k, f, x, u, phys, es, run, xs, us);
      k := k + 1;
    }
  }

  method ComputeLagrangianTargetPointForce(d: TargetArrays, f: array<real>, x: array<real>, u: array<real>,
                                           phys: Physics, ghost es: seq<Element>, ghost run: nat -> seq<real>,
                                           ghost xs: seq<real>, ghost us: seq<real>)
    requires CachesTargets(d, es, NDIM) && InOrder(run, es, xs, us, phys)
    requires f.Length == x.Length && f != x && xs == x[..] && f != u && us == u[..] && f[..] == run(0)
    modifies f
    ensures f[..] == run(|es|)
  {
    var num := |d.petscNode|;
    var kblock := 0;
    while kblock < CDiv(num - 1, BLOCKSIZE)  // the last block is not handled by this loop
      invariant 0 <= BLOCKSIZE * kblock <= num && x[..] == xs && u[..] == us
      invariant f[..] == run(BLOCKSIZE * kblock)
      decreases num - kblock
    {
      LookAheadInRange(num, kblock, BLOCKSIZE - 1);
      TargetRange(d, BLOCKSIZE * kblock, BLOCKSIZE * (kblock + 1), true, f, x, u, phys, es, run, xs, us);
      kblock := kblock + 1;
    }
    TargetRange(d, kblock * BLOCKSIZE, num, false, f, x, u, phys, es, run, xs, us);
  }

}
