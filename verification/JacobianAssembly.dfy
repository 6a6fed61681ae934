/** The Jacobian routine itself, and the symmetry and translation invariance of what it assembles. */
module JacobianAssembly {
  import opened Options
  import opened Vectors
  import opened Increments
  import opened ForceElements
  import opened ForceIndexing
  import opened ForceJacobian

  /** The sparse block matrix the routine adds to. */
  class BlockMatrix {
    var entries: SparseMatrix

    constructor ()
      ensures entries == map[]
    {
      entries := map[];
    }

    method AddValuesBlocked(row: nat, col: nat, m: Mat3)
      modifies this
      ensures entries == AddBlock(old(entries), Block(row, col, m))
    {
      var old_ := if (row, col) in entries then entries[(row, col)] else ZERO_MAT;
      entries := entries[(row, col) := MatAdd(old_, m)];
    }
  }

  lemma {:induction false} AddBlocksConcat(j: SparseMatrix, a: seq<Block>, b: seq<Block>)
    ensures AddBlocks(j, a + b) == AddBlocks(AddBlocks(j, a), b)
  {
    if b == [] {
      assert a + b == a;
    } else {
      assert (a + b)[..|a + b| - 1] == a + b[..|b| - 1];
      AddBlocksConcat(j, a, b[..|b| - 1]);
    }
  }

  lemma AddOneBlock(j: SparseMatrix, a: Block)
    ensures AddBlocks(j, [a]) == AddBlock(j, a)
  {
    assert [a][..0] == [] && AddBlocks(j, []) == j;
  }

  lemma AddFourBlocks(j: SparseMatrix, a: Block, b: Block, c: Block, d: Block)
    ensures AddBlocks(j, [a, b, c, d]) == AddBlock(AddBlock(AddBlock(AddBlock(j, a), b), c), d)
  {
    AddOneBlock(j, a);
    assert [a, b][..1] == [a] && AddBlocks(j, [a, b]) == AddBlock(AddBlocks(j, [a]), b);
    assert [a, b, c][..2] == [a, b] && AddBlocks(j, [a, b, c]) == AddBlock(AddBlocks(j, [a, b]), c);
    assert [a, b, c, d][..3] == [a, b, c];
  }

  lemma {:induction false} FlattenBlocksConcat(p: seq<seq<Block>>, q: seq<seq<Block>>)
    ensures FlattenBlocks(p + q) == FlattenBlocks(p) + FlattenBlocks(q)
  {
    if q == [] {
      assert p + q == p;
    } else {
      assert (p + q)[..|p + q| - 1] == p + q[..|q| - 1];
      FlattenBlocksConcat(p, q[..|q| - 1]);
    }
  }

  lemma FlattenStep(j: SparseMatrix, parts: seq<seq<Block>>, k: nat)
    requires k < |parts|
    ensures AddBlocks(j, FlattenBlocks(parts[..k + 1])) == AddBlocks(AddBlocks(j, FlattenBlocks(parts[..k])), parts[k])
  {
    assert parts[..k + 1][..k] == parts[..k];
    AddBlocksConcat(j, FlattenBlocks(parts[..k]), parts[k]);
  }

  /** dT/dR: the registered derivative, or a centred difference where there is none. */
  method ComputeSlope(d: SpringArrays, k: nat, r: real, laws: Laws, ghost e: Element) returns (slope: real)
    requires k < |d.lagMastr| == |d.lagSlave| == |d.petscMastr| == |d.petscSlave| == |d.forceFcns| == |d.parameters|
    requires SpringEntry(d, e, NDIM, k) && ValidLaws(laws)
    ensures slope == Slope(e, r, laws)
  {
    match laws.derivative(d.forceFcns[k]) {
      case Some(g) =>
        slope := g(r, d.parameters[k], d.lagMastr[k], d.lagSlave[k]);
      case None =>
        var eps := StepLength(r, laws.step);
        StepPositive(r, laws.step);
        var hi := laws.phys.tension(d.forceFcns[k], r + eps, d.parameters[k], d.lagMastr[k], d.lagSlave[k]);
        var lo := laws.phys.tension(d.forceFcns[k], r - eps, d.parameters[k], d.lagMastr[k], d.lagSlave[k]);
        slope := CentredDifference(hi, lo, eps);
    }
  }

  method AddFour(j: BlockMatrix, a: Block, b: Block, c: Block, d: Block)
    modifies j
    ensures j.entries == AddBlocks(old(j.entries), [a, b, c, d])
  {
    AddFourBlocks(j.entries, a, b, c, d);
    j.AddValuesBlocked(a.row, a.col, a.m);
    j.AddValuesBlocked(b.row, b.col, b.m);
    j.AddValuesBlocked(c.row, c.col, c.m);
    j.AddValuesBlocked(d.row, d.col, d.m);
  }

  method ComputeSpringJacobian(d: SpringArrays, k: nat, D: Vec3, a: real, laws: Laws, ghost e: Element)
    returns (m: Option<Mat3>)
    requires k < |d.lagMastr| == |d.lagSlave| == |d.petscMastr| == |d.petscSlave| == |d.forceFcns| == |d.parameters|
    requires SpringEntry(d, e, NDIM, k) && ValidLaws(laws)
    ensures m == SpringJacobian(e, D, a, laws)
  {
    var r := laws.phys.norm(D);
    if r < laws.phys.eps {
      return None;
    }
    var t := laws.phys.tension(d.forceFcns[k], r, d.parameters[k], d.lagMastr[k], d.lagSlave[k]);
    var slope := ComputeSlope(d, k, r, laws, e);
    m := Some(SpringMatrix(a, t, slope, D, r));
  }

  method AddSpringBlocks(j: BlockMatrix, d: SpringArrays, k: nat, a: real, x: seq<real>, laws: Laws, ghost e: Element,
                         ghost b: real)
    requires k < |d.lagMastr| == |d.lagSlave| == |d.petscMastr| == |d.petscSlave| == |d.forceFcns| == |d.parameters|
    requires SpringEntry(d, e, NDIM, k) && Within(e, |x| / NDIM) && ValidLaws(laws)
    modifies j
    ensures j.entries == AddBlocks(old(j.entries), ElementBlocks(e, a, b, x, laws))
  {
    var mastr, slave := d.petscMastr[k], d.petscSlave[k];
    var D := Sub(Vec3(x[slave], x[slave + 1], x[slave + 2]), Vec3(x[mastr], x[mastr + 1], x[mastr + 2]));
    assert D == Sub(NodeAt(x, e.slave), NodeAt(x, e.master));
    var jacobian := ComputeSpringJacobian(d, k, D, a, laws, e);
    match jacobian {
      case None =>
      case Some(m) =>
        var mb, sb := mastr / NDIM, slave / NDIM;
        AddFour(j, Block(mb, sb, m), Block(sb, mb, m), Block(mb, mb, MatNeg(m)), Block(sb, sb, MatNeg(m)));
    }
  }

  method AddBeamBlocks(j: BlockMatrix, d: BeamArrays, k: nat, a: real, ghost x: seq<real>, ghost laws: Laws,
                       ghost e: Element, ghost b: real)
    requires k < |d.petscMastr| == |d.petscNext| == |d.petscPrev| == |d.rigidities| == |d.curvatures|
    requires BeamEntry(d, e, NDIM, k) && Within(e, |x| / NDIM) && ValidLaws(laws)
    modifies j
    ensures j.entries == AddBlocks(old(j.entries), ElementBlocks(e, a, b, x, laws))
  {
    var m, n, p := d.petscMastr[k] / NDIM, d.petscNext[k] / NDIM, d.petscPrev[k] / NDIM;
    var bend := d.rigidities[k];
    ghost var j0 := j.entries;
    var k1, k2, k4 := BeamMatrix(-1.0, bend, a), BeamMatrix(2.0, bend, a), BeamMatrix(-4.0, bend, a);
    AddFour(j, Block(p, p, k1), Block(p, n, k1), Block(n, p, k1), Block(n, n, k1));
    AddFour(j, Block(p, m, k2), Block(n, m, k2), Block(m, p, k2), Block(m, n, k2));
    AddOneBlock(j.entries, Block(m, m, k4));
    j.AddValuesBlocked(m, m, k4);
    ThreeBlockLists(j0, [Block(p, p, k1), Block(p, n, k1), Block(n, p, k1), Block(n, n, k1)],
                     [Block(p, m, k2), Block(n, m, k2), Block(m, p, k2), Block(m, n, k2)], [Block(m, m, k4)]);
  }

  lemma ThreeBlockLists(j: SparseMatrix, a: seq<Block>, b: seq<Block>, c: seq<Block>)
    ensures AddBlocks(j, a + b + c) == AddBlocks(AddBlocks(AddBlocks(j, a), b), c)
  {
    AddBlocksConcat(j, a + b, c);
    AddBlocksConcat(j, a, b);
  }

  method AddTargetBlock(j: BlockMatrix, d: TargetArrays, k: nat, a: real, b: real, ghost x: seq<real>, ghost laws: Laws,
                        ghost e: Element)
    requires k < |d.petscNode| == |d.kappa| == |d.eta| == |d.x0|
    requires TargetEntry(d, e, NDIM, k) && Within(e, |x| / NDIM) && ValidLaws(laws)
    modifies j
    ensures j.entries == AddBlocks(old(j.entries), ElementBlocks(e, a, b, x, laws))
  {
    var node := d.petscNode[k] / NDIM;
    var m := TargetMatrix(a, b, d.kappa[k], d.eta[k]);
    AddOneBlock(j.entries, Block(node, node, m));
    j.AddValuesBlocked(node, node, m);
  }

  method AssembleSprings(j: BlockMatrix, d: SpringArrays, a: real, x: seq<real>, laws: Laws, ghost b: real,
                         ghost es: seq<Element>)
    requires CachesSprings(d, es, NDIM) && MeshWithin(es, x) && ValidLaws(laws)
    modifies j
    ensures j.entries == AddBlocks(old(j.entries), AllBlocks(es, a, b, x, laws))
  {
    ghost var j0, parts := j.entries, EachBlocks(es, a, b, x, laws);
    for k := 0 to |d.lagMastr|
      invariant j.entries == AddBlocks(j0, FlattenBlocks(parts[..k]))
    {
      FlattenStep(j0, parts, k);
      assert SpringEntry(d, es[k], NDIM, k);
      AddSpringBlocks(j, d, k, a, x, laws, es[k], b);
    }
    assert parts[..|d.lagMastr|] == parts;
  }

  method AssembleBeams(j: BlockMatrix, d: BeamArrays, a: real, ghost x: seq<real>, ghost laws: Laws, ghost b: real,
                       ghost es: seq<Element>)
    requires CachesBeams(d, es, NDIM) && MeshWithin(es, x) && ValidLaws(laws)
    modifies j
    ensures j.entries == AddBlocks(old(j.entries), AllBlocks(es, a, b, x, laws))
  {
    ghost var j0, parts := j.entries, EachBlocks(es, a, b, x, laws);
    for k := 0 to |d.petscMastr|
      invariant j.entries == AddBlocks(j0, FlattenBlocks(parts[..k]))
    {
      FlattenStep(j0, parts, k);
      assert BeamEntry(d, es[k], NDIM, k);
      AddBeamBlocks(j, d, k, a, x, laws, es[k], b);
    }
    assert parts[..|d.petscMastr|] == parts;
  }

  method AssembleTargets(j: BlockMatrix, d: TargetArrays, a: real, b: real, ghost x: seq<real>, ghost laws: Laws,
                         ghost es: seq<Element>)
    requires CachesTargets(d, es, NDIM) && MeshWithin(es, x) && ValidLaws(laws)
    modifies j
    ensures j.entries == AddBlocks(old(j.entries), AllBlocks(es, a, b, x, laws))
  {
    ghost var j0, parts := j.entries, EachBlocks(es, a, b, x, laws);
    for k := 0 to |d.petscNode|
      invariant j.entries == AddBlocks(j0, FlattenBlocks(parts[..k]))
    {
      FlattenStep(j0, parts, k);
      assert TargetEntry(d, es[k], NDIM, k);
      AddTargetBlock(j, d, k, a, b, x, laws, es[k]);
    }
    assert parts[..|d.petscNode|] == parts;
  }

  lemma AllBlocksConcat(s: seq<Element>, t: seq<Element>, a: real, b: real, x: seq<real>, laws: Laws)
    requires ValidLaws(laws) && MeshWithin(s, x) && MeshWithin(t, x)
    ensures MeshWithin(s + t, x)
    ensures AllBlocks(s + t, a, b, x, laws) == AllBlocks(s, a, b, x, laws) + AllBlocks(t, a, b, x, laws)
  {
    assert EachBlocks(s + t, a, b, x, laws) == EachBlocks(s, a, b, x, laws) + EachBlocks(t, a, b, x, laws);
    FlattenBlocksConcat(EachBlocks(s, a, b, x, laws), EachBlocks(t, a, b, x, laws));
  }

  /** The routine adds the blocks of all cached springs, beams and target points of a single process. */
  method ComputeLagrangianForceJacobian(j: BlockMatrix, springs: SpringArrays, beams: BeamArrays, targets: TargetArrays,
                                        a: real, b: real, x: seq<real>, laws: Laws,
                                        ghost ss: seq<Element>, ghost bs: seq<Element>, ghost ts: seq<Element>)
    requires CachesSprings(springs, ss, NDIM) && CachesBeams(beams, bs, NDIM) && CachesTargets(targets, ts, NDIM)
    requires MeshWithin(ss, x) && MeshWithin(bs, x) && MeshWithin(ts, x) && ValidLaws(laws)
    modifies j
    ensures MeshWithin(ss + bs + ts, x)
    ensures j.entries == AddBlocks(old(j.entries), AllBlocks(ss + bs + ts, a, b, x, laws))
  {
    ghost var j0 := j.entries;
    AssembleSprings(j, springs, a, x, laws, b, ss);
    AssembleBeams(j, beams, a, x, laws, b, bs);
    AssembleTargets(j, targets, a, b, x, laws, ts);
    AllBlocksConcat(ss, bs, a, b, x, laws);
    AllBlocksConcat(ss + bs, ts, a, b, x, laws);
    ThreeBlockLists(j0, AllBlocks(ss, a, b, x, laws), AllBlocks(bs, a, b, x, laws), AllBlocks(ts, a, b, x, laws));
  }
}
