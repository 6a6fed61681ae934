/** What holds of every assembled force Jacobian: it is symmetric, springs and beams make it
    annihilate uniform translations, and a spring's block acts on its own displacement by dT/dR
    and across it by T/R. */
module JacobianSymmetry {
  import opened Options
  import opened Vectors
  import opened Increments
  import opened ForceElements
  import opened ForceJacobian

  function Picked(b: Block, row: nat, col: nat): Mat3 {
    if b.row == row && b.col == col then b.m else ZERO_MAT
  }

  /** The sum of the blocks aimed at one entry. */
  function EntrySum(blocks: seq<Block>, row: nat, col: nat): Mat3 {
    if blocks == [] then ZERO_MAT
    else MatAdd(EntrySum(blocks[..|blocks| - 1], row, col), Picked(blocks[|blocks| - 1], row, col))
  }

  lemma {:induction false} EntrySumConcat(a: seq<Block>, b: seq<Block>, row: nat, col: nat)
    ensures EntrySum(a + b, row, col) == MatAdd(EntrySum(a, row, col), EntrySum(b, row, col))
  {
    if b == [] {
      assert a + b == a;
    } else {
      assert (a + b)[..|a + b| - 1] == a + b[..|b| - 1];
      EntrySumConcat(a, b[..|b| - 1], row, col);
    }
  }

  lemma EntrySumFew(a: Block, b: Block, c: Block, d: Block, row: nat, col: nat)
    ensures EntrySum([a], row, col) == Picked(a, row, col)
    ensures EntrySum([a, b, c, d], row, col)
         == MatAdd(MatAdd(MatAdd(Picked(a, row, col), Picked(b, row, col)), Picked(c, row, col)), Picked(d, row, col))
  {
    assert [a][..0] == [] && [a, b][..1] == [a] && [a, b, c][..2] == [a, b] && [a, b, c, d][..3] == [a, b, c];
    MatAddZero(Picked(a, row, col));
    assert EntrySum([a, b], row, col) == MatAdd(EntrySum([a], row, col), Picked(b, row, col));
    assert EntrySum([a, b, c], row, col) == MatAdd(EntrySum([a, b], row, col), Picked(c, row, col));
  }

  lemma MatAddZero(a: Mat3)
    ensures MatAdd(a, ZERO_MAT) == a == MatAdd(ZERO_MAT, a)
  {
  }

  lemma {:induction false} AssembledEntry(j: SparseMatrix, blocks: seq<Block>, row: nat, col: nat)
    ensures EntryAt(AddBlocks(j, blocks), row, col) == MatAdd(EntryAt(j, row, col), EntrySum(blocks, row, col))
  {
    if blocks != [] {
      var rest, last := blocks[..|blocks| - 1], blocks[|blocks| - 1];
      AssembledEntry(j, rest, row, col);
      AddBlockEntry(AddBlocks(j, rest), last, row, col);
      MatAddAssociative(EntryAt(j, row, col), EntrySum(rest, row, col), Picked(last, row, col));
    } else {
      MatAddZero(EntryAt(j, row, col));
    }
  }

  lemma AddBlockEntry(j: SparseMatrix, b: Block, row: nat, col: nat)
    ensures EntryAt(AddBlock(j, b), row, col) == MatAdd(EntryAt(j, row, col), Picked(b, row, col))
  {
  }

  lemma MatAddAssociative(a: Mat3, b: Mat3, c: Mat3)
    ensures MatAdd(MatAdd(a, b), c) == MatAdd(a, MatAdd(b, c))
  {
  }

  predicate Symmetric(m: Mat3) {
    Transpose(m) == m
  }

  /** Entry (j, i) of the sum is the transpose of entry (i, j). */
  ghost predicate SymmetricAt(blocks: seq<Block>, i: nat, j: nat) {
    EntrySum(blocks, j, i) == Transpose(EntrySum(blocks, i, j))
  }

  lemma SymmetricConcat(a: seq<Block>, b: seq<Block>, i: nat, j: nat)
    requires SymmetricAt(a, i, j) && SymmetricAt(b, i, j)
    ensures SymmetricAt(a + b, i, j)
  {
    EntrySumConcat(a, b, i, j);
    EntrySumConcat(a, b, j, i);
  }

  lemma PickedSwap(a: Block, b: Block, i: nat, j: nat)
    requires a.row == b.col && a.col == b.row && b.m == Transpose(a.m)
    ensures Picked(b, j, i) == Transpose(Picked(a, i, j))
  {
  }

  /** Four blocks of which each has its mirror image among the four. */
  lemma SymmetricFour(a: Block, b: Block, c: Block, d: Block, i: nat, j: nat)
    requires Symmetric(a.m) && Symmetric(d.m) && b.m == a.m && (c.m == a.m || c.m == d.m)
    requires
      || (a.row == b.col && a.col == b.row && c.row == c.col && d.row == d.col)
      || (a.row == a.col && d.row == d.col && b.row == c.col && b.col == c.row && c.m == b.m)
      || (a.row == c.col && a.col == c.row && b.row == d.col && b.col == d.row && c.m == a.m && d.m == b.m)
    ensures SymmetricAt([a, b, c, d], i, j)
  {
    EntrySumFew(a, b, c, d, i, j);
    EntrySumFew(a, b, c, d, j, i);
    if a.row == b.col && a.col == b.row && c.row == c.col && d.row == d.col {
      PickedSwap(a, b, i, j);
      PickedSwap(b, a, i, j);
      PickedSwap(c, c, i, j);
      PickedSwap(d, d, i, j);
      SumSwapped(Picked(a, i, j), Picked(b, i, j), Picked(c, i, j), Picked(d, i, j));
    } else if a.row == a.col && d.row == d.col && b.row == c.col && b.col == c.row && c.m == b.m {
      PickedSwap(a, a, i, j);
      PickedSwap(b, c, i, j);
      PickedSwap(c, b, i, j);
      PickedSwap(d, d, i, j);
      SumSwapped(Picked(a, i, j), Picked(b, i, j), Picked(c, i, j), Picked(d, i, j));
    } else {
      PickedSwap(a, c, i, j);
      PickedSwap(c, a, i, j);
      PickedSwap(b, d, i, j);
      PickedSwap(d, b, i, j);
      SumSwapped(Picked(a, i, j), Picked(b, i, j), Picked(c, i, j), Picked(d, i, j));
    }
  }

  lemma SumSwapped(p: Mat3, q: Mat3, r: Mat3, s: Mat3)
    ensures var t := Transpose(MatAdd(MatAdd(MatAdd(p, q), r), s));
            && t == MatAdd(MatAdd(MatAdd(Transpose(q), Transpose(p)), Transpose(r)), Transpose(s))
            && t == MatAdd(MatAdd(MatAdd(Transpose(p), Transpose(r)), Transpose(q)), Transpose(s))
            && t == MatAdd(MatAdd(MatAdd(Transpose(r), Transpose(s)), Transpose(p)), Transpose(q))
  {
  }

  lemma RowsSymmetric(t: real, e0: Vec3, e1: Vec3, e2: Vec3)
    requires e0.y == e1.x && e0.z == e2.x && e1.z == e2.y
    ensures Symmetric(PlusDiagonal(t, e0, e1, e2))
  {
  }

  lemma SpringMatrixSymmetric(a: real, t: real, slope: real, d: Vec3, r: real)
    requires r > 0.0
    ensures Symmetric(SpringMatrix(a, t, slope, d, r)) && Symmetric(MatNeg(SpringMatrix(a, t, slope, d, r)))
  {
    var s := r * r;
    SquarePositive(r, s);
    var q := slope - t / r;
    EntriesSymmetric(t / r, q, d, s);
    ScaledSymmetric(a, SpringEntries(t / r, q, d, s));
  }

  lemma EntriesSymmetric(t: real, q: real, d: Vec3, s: real)
    requires s != 0.0
    ensures Symmetric(SpringEntries(t, q, d, s))
  {
    RowsSymmetric(t, OuterRow(q, d.x, d, s), OuterRow(q, d.y, d, s), OuterRow(q, d.z, d, s));
  }

  lemma ScaledSymmetric(a: real, m: Mat3)
    requires Symmetric(m)
    ensures Symmetric(MatScale(a, m)) && Symmetric(MatNeg(MatScale(a, m)))
  {
  }

  lemma ElementSymmetric(e: Element, a: real, b: real, x: seq<real>, laws: Laws, i: nat, j: nat)
    requires Within(e, |x| / NDIM) && ValidLaws(laws)
    ensures SymmetricAt(ElementBlocks(e, a, b, x, laws), i, j)
  {
    match e
    case Spring(_, _, m, s, _, _) =>
      var d := Sub(NodeAt(x, s), NodeAt(x, m));
      var r := laws.phys.norm(d);
      if r >= laws.phys.eps {
        var t := laws.phys.tension(e.fcn, r, e.params, e.lagMaster, e.lagSlave);
        var k := SpringMatrix(a, t, Slope(e, r, laws), d, r);
        SpringMatrixSymmetric(a, t, Slope(e, r, laws), d, r);
        SymmetricFour(Block(m, s, k), Block(s, m, k), Block(m, m, MatNeg(k)), Block(s, s, MatNeg(k)), i, j);
      }
    case Beam(m, n, p, bend, _) =>
      BeamSymmetric(m, n, p, BeamMatrix(-1.0, bend, a), BeamMatrix(2.0, bend, a), BeamMatrix(-4.0, bend, a), i, j);
    case Target(m, kappa, eta, _) =>
      OneSymmetric(m, TargetMatrix(a, b, kappa, eta), i, j);
  }

  lemma OneSymmetric(m: nat, k: Mat3, i: nat, j: nat)
    requires Symmetric(k)
    ensures SymmetricAt([Block(m, m, k)], i, j)
  {
    var c := Block(m, m, k);
    EntrySumFew(c, c, c, c, i, j);
    EntrySumFew(c, c, c, c, j, i);
  }

  lemma BeamSymmetric(m: nat, n: nat, p: nat, k1: Mat3, k2: Mat3, k4: Mat3, i: nat, j: nat)
    requires Symmetric(k1) && Symmetric(k2) && Symmetric(k4)
    ensures SymmetricAt([Block(p, p, k1), Block(p, n, k1), Block(n, p, k1), Block(n, n, k1)]
                        + [Block(p, m, k2), Block(n, m, k2), Block(m, p, k2), Block(m, n, k2)] + [Block(m, m, k4)], i,
                        j)
  {
    SymmetricFour(Block(p, p, k1), Block(p, n, k1), Block(n, p, k1), Block(n, n, k1), i, j);
    SymmetricFour(Block(p, m, k2), Block(n, m, k2), Block(m, p, k2), Block(m, n, k2), i, j);
    OneSymmetric(m, k4, i, j);
    var b1 := [Block(p, p, k1), Block(p, n, k1), Block(n, p, k1), Block(n, n, k1)];
    var b2 := [Block(p, m, k2), Block(n, m, k2), Block(m, p, k2), Block(m, n, k2)];
    SymmetricConcat(b1, b2, i, j);
    SymmetricConcat(b1 + b2, [Block(m, m, k4)], i, j);
  }

  lemma {:induction false} FlattenSymmetric(parts: seq<seq<Block>>, i: nat, j: nat)
    requires forall k :: 0 <= k < |parts| ==> SymmetricAt(parts[k], i, j)
    ensures SymmetricAt(FlattenBlocks(parts), i, j)
  {
    if parts != [] {
      FlattenSymmetric(parts[..|parts| - 1], i, j);
      SymmetricConcat(FlattenBlocks(parts[..|parts| - 1]), parts[|parts| - 1], i, j);
    }
  }

  /** The Jacobian of any mesh of springs, beams and target points is symmetric. */
  lemma JacobianSymmetric(es: seq<Element>, a: real, b: real, x: seq<real>, laws: Laws, i: nat, j: nat)
    requires ValidLaws(laws) && MeshWithin(es, x)
    ensures var jac := AddBlocks(map[], AllBlocks(es, a, b, x, laws));
            EntryAt(jac, j, i) == Transpose(EntryAt(jac, i, j))
  {
    var parts := EachBlocks(es, a, b, x, laws);
    forall k | 0 <= k < |parts| ensures SymmetricAt(parts[k], i, j) {
      ElementSymmetric(es[k], a, b, x, laws, i, j);
    }
    FlattenSymmetric(parts, i, j);
    AssembledEntry(map[], FlattenBlocks(parts), i, j);
    AssembledEntry(map[], FlattenBlocks(parts), j, i);
  }

  // ---------------------------------------------------------- translations

  /** The same vector `c` at every node. */
  ghost predicate Uniform(y: seq<real>, c: Vec3) {
    forall i :: 0 <= i < |y| / NDIM ==> NodeAt(y, i) == c
  }

  lemma SpringTranslation(m: nat, s: nat, k: Mat3, y: seq<real>, c: Vec3, i: nat)
    requires m < |y| / NDIM && s < |y| / NDIM && Uniform(y, c)
    ensures var blocks := [Block(m, s, k), Block(s, m, k), Block(m, m, MatNeg(k)), Block(s, s, MatNeg(k))];
            BlocksIn(blocks, |y| / NDIM) && Total(Product(blocks, y), i) == ZERO
  {
    var w := Apply(k, c);
    ApplyMatNeg(k, c);
    var blocks := [Block(m, s, k), Block(s, m, k), Block(m, m, MatNeg(k)), Block(s, s, MatNeg(k))];
    ChunkProducts(blocks, y, w, w, Neg(w), Neg(w));
    TotalFew(Increment(m, w), Increment(s, w), Increment(m, Neg(w)), Increment(s, Neg(w)), i);
    FourCancel(m, s, w, i);
  }

  lemma FourCancel(m: nat, s: nat, w: Vec3, i: nat)
    ensures Add(Add(Add(One(Increment(m, w), i), One(Increment(s, w), i)), One(Increment(m, Neg(w)), i)),
                One(Increment(s, Neg(w)), i)) == ZERO
  {
  }

  lemma BeamTranslation(e: Element, a: real, b: real, x: seq<real>, y: seq<real>, laws: Laws, c: Vec3, i: nat)
    requires e.Beam? && ValidLaws(laws) && |x| == |y| && Within(e, |x| / NDIM) && Uniform(y, c)
    ensures Total(Product(ElementBlocks(e, a, b, x, laws), y), i) == ZERO
  {
    var w := BendVector(e, a, y, e.master);
    assert BendVector(e, a, y, e.next) == w && BendVector(e, a, y, e.prev) == w;
    SecondDifference(w);
    BeamPull(e, a, b, x, y, laws, w, w, w, ZERO, i);
    TotalOfZeros(PullIncs(e.master, e.next, e.prev, ZERO), i);
  }

  lemma SecondDifference(w: Vec3)
    ensures ZERO == Sub(Add(w, w), Scale(2.0, w))
  {
  }

  lemma ElementTranslation(e: Element, a: real, b: real, x: seq<real>, y: seq<real>, laws: Laws, c: Vec3, i: nat)
    requires !e.Target? && ValidLaws(laws) && |x| == |y| && Within(e, |x| / NDIM) && Uniform(y, c)
    ensures Total(Product(ElementBlocks(e, a, b, x, laws), y), i) == ZERO
  {
    if e.Spring? {
      match SpringJacobian(e, Sub(NodeAt(x, e.slave), NodeAt(x, e.master)), a, laws)
      case None =>
      case Some(k) => SpringTranslation(e.master, e.slave, k, y, c, i);
    } else {
      BeamTranslation(e, a, b, x, y, laws, c, i);
    }
  }

  lemma {:induction false} FlattenZero(parts: seq<seq<Increment>>, i: nat)
    requires forall k :: 0 <= k < |parts| ==> Total(parts[k], i) == ZERO
    ensures Total(Flatten(parts), i) == ZERO
  {
    if parts != [] {
      FlattenZero(parts[..|parts| - 1], i);
      TotalConcat(Flatten(parts[..|parts| - 1]), parts[|parts| - 1], i);
    }
  }

  /** The Jacobian of springs and beams annihilates a uniform translation of all nodes. */
  lemma JacobianTranslation(es: seq<Element>, a: real, b: real, x: seq<real>, y: seq<real>, laws: Laws, c: Vec3, n: nat,
                            i: nat)
    requires ValidLaws(laws) && |x| == |y| == NDIM * n && MeshWithin(es, x) && Uniform(y, c)
    requires forall k :: 0 <= k < |es| ==> !es[k].Target?
    ensures RowTimes(AddBlocks(map[], AllBlocks(es, a, b, x, laws)), i, y, n) == ZERO
  {
    var parts := ElementProducts(es, a, b, x, y, laws);
    forall k | 0 <= k < |parts| ensures Total(parts[k], i) == ZERO {
      ElementTranslation(es[k], a, b, x, y, laws, c, i);
    }
    FlattenZero(parts, i);
    ProductOfMesh(es, a, b, x, y, laws, parts);
    RowOfBlocks(AllBlocks(es, a, b, x, laws), i, y, n);
  }

  /** The block of a spring that is not skipped stretches its displacement by X_coef dT/dR and
      every orthogonal vector by X_coef T/R; a skipped spring has no block and no force. */
  lemma SpringJacobianDirections(e: Element, d: Vec3, a: real, laws: Laws, v: Vec3)
    requires e.Spring? && ValidLaws(laws) && IsNorm(laws.phys.norm)
    ensures SpringJacobian(e, d, a, laws) == None <==> SpringForce(e, d, laws.phys) == None
    ensures SpringJacobian(e, d, a, laws) != None ==>
              var r := laws.phys.norm(d);
              var t := laws.phys.tension(e.fcn, r, e.params, e.lagMaster, e.lagSlave);
              var k := SpringJacobian(e, d, a, laws).value;
              && r != 0.0
              && Apply(k, d) == Scale(a, Scale(Slope(e, r, laws), d))
              && (Dot(d, v) == 0.0 ==> Apply(k, v) == Scale(a, Scale(t / r, v)))
  {
    var r := laws.phys.norm(d);
    if r >= laws.phys.eps {
      var t := laws.phys.tension(e.fcn, r, e.params, e.lagMaster, e.lagSlave);
      SquarePositive(r, r * r);
      SpringDirections(a, t / r, Slope(e, r, laws), d, r * r, v);
    }
  }
}
