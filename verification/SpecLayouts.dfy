/** Where every datum of a spring, beam or rod specification stands in a message stream. */
module SpecLayouts {

  import opened ForceElements
  import opened Increments
  import opened Options
  import opened RodSpecs
  import opened SpecStreams

  /** How many cells the first `k` rows take, each with its length in front of it unless all have the same width. */
  function Offset(rows: seq<seq<real>>, counted: bool, k: nat): nat
    requires k <= |rows|
  {
    if k == 0 then 0 else (if counted then 1 else 0) + |rows[0]| + Offset(rows[1..], counted, k - 1)
  }

  /** Row `k` stands at its offset: its length if that is written, then its numbers. */
  ghost predicate RowAt(c: seq<Cell>, at: nat, row: seq<real>, counted: bool) {
    var first := at + if counted then 1 else 0;
    && first + |row| <= |c|
    && (counted ==> c[at] == IntCell(|row|))
    && forall j :: 0 <= j < |row| ==> c[first + j] == DoubleCell(row[j])
  }

  lemma RowShifted(a: seq<Cell>, c: seq<Cell>, at: nat, row: seq<real>, counted: bool)
    requires RowAt(c, at, row, counted)
    ensures RowAt(a + c, |a| + at, row, counted)
  {
  }

  lemma RowExtended(c: seq<Cell>, more: seq<Cell>, at: nat, row: seq<real>, counted: bool)
    requires RowAt(c, at, row, counted)
    ensures RowAt(c + more, at, row, counted)
  {
  }

  lemma FirstRow(rows: seq<seq<real>>, width: Option<nat>, first: seq<Cell>)
    requires rows != [] && RowsFit(rows, width) && first == EncodeRow(rows[0], width)
    ensures EncodeRows(rows, width) == first + EncodeRows(rows[1..], width) && RowsFit(rows[1..], width)
    ensures |first| == (if width.None? then 1 else 0) + |rows[0]| && RowAt(first, 0, rows[0], width.None?)
  {
    FitsTail(rows, width);
  }

  lemma {:induction false} RowsLength(rows: seq<seq<real>>, width: Option<nat>)
    requires RowsFit(rows, width)
    ensures |EncodeRows(rows, width)| == Offset(rows, width.None?, |rows|)
  {
    if rows != [] {
      FirstRow(rows, width, EncodeRow(rows[0], width));
      RowsLength(rows[1..], width);
    }
  }

  lemma NextOffset(rows: seq<seq<real>>, counted: bool, k: nat)
    requires 0 < k <= |rows|
    ensures Offset(rows, counted, k) == (if counted then 1 else 0) + |rows[0]| + Offset(rows[1..], counted, k - 1)
  {
  }

  lemma {:induction false} RowsLaidOut(rows: seq<seq<real>>, width: Option<nat>, k: nat)
    requires k < |rows| && RowsFit(rows, width)
    ensures RowAt(EncodeRows(rows, width), Offset(rows, width.None?, k), rows[k], width.None?)
  {
    var first, rest := EncodeRow(rows[0], width), EncodeRows(rows[1..], width);
    FirstRow(rows, width, first);
    if k == 0 {
      RowExtended(first, rest, 0, rows[0], width.None?);
    } else {
      RowsLaidOut(rows[1..], width, k - 1);
      NextOffset(rows, width.None?, k);
      RowShifted(first, rest, Offset(rows[1..], width.None?, k - 1), rows[1..][k - 1], width.None?);
    }
  }

  /** Rows of one width stand at its multiples. */
  lemma {:induction false} FixedOffset(rows: seq<seq<real>>, w: nat, k: nat)
    requires k <= |rows| && RowsFit(rows, Some(w))
    ensures Offset(rows, false, k) == w * k
  {
    if k > 0 {
      assert RowFits(rows[0], Some(w));
      FitsTail(rows, Some(w));
      FixedOffset(rows[1..], w, k - 1);
      assert w * k == w + w * (k - 1);
    }
  }

  // ---------------------------------------------------------------- springs

  /** A spring specification in a stream: the number of springs, the master, all slaves, all force functions, and
      behind them the parameters of every spring, preceded by their number. */
  ghost predicate SpringLaidOut(c: seq<Cell>, s: SpringSpec)
    requires SpringConsistent(s)
  {
    var n := |s.slaveIdxs|;
    && |c| == 2 + 2 * n + Offset(s.parameters, true, n)
    && c[0] == IntCell(n) && c[1] == IntCell(s.masterIdx)
    && (forall k :: 0 <= k < n ==> c[2 + k] == IntCell(s.slaveIdxs[k]))
    && (forall k :: 0 <= k < n ==> c[2 + n + k] == IntCell(s.forceFcnIdxs[k]))
    && (forall k :: 0 <= k < n ==> RowAt(c, 2 + 2 * n + Offset(s.parameters, true, k), s.parameters[k], true))
  }

  lemma ParametersLaidOut(front: seq<Cell>, s: SpringSpec, n: nat, rows: seq<Cell>)
    requires SpringConsistent(s) && n == |s.slaveIdxs| && |front| == 2 + 2 * n
    requires rows == EncodeRows(s.parameters, None)
    ensures |rows| == Offset(s.parameters, true, n)
    ensures forall k :: 0 <= k < n ==>
              RowAt(front + rows, 2 + 2 * n + Offset(s.parameters, true, k), s.parameters[k], true)
  {
    RowsLength(s.parameters, None);
    forall k | 0 <= k < n
      ensures RowAt(front + rows, 2 + 2 * n + Offset(s.parameters, true, k), s.parameters[k], true)
    {
      RowsLaidOut(s.parameters, None, k);
      RowShifted(front, rows, Offset(s.parameters, true, k), s.parameters[k], true);
    }
  }

  lemma SpringLayout(s: SpringSpec)
    requires SpringConsistent(s)
    ensures SpringLaidOut(EncodeSpring(s), s)
  {
    var n := |s.slaveIdxs|;
    var front := Header(n, s.masterIdx) + (Ints(s.slaveIdxs) + Ints(s.forceFcnIdxs));
    var rows := EncodeRows(s.parameters, None);
    assert EncodeSpring(s) == front + rows;
    ParametersLaidOut(front, s, n, rows);
  }

  // ------------------------------------------------------------------ beams

  /** What stands in front of the curvatures: the number of beams, the master, the pairs of next and previous neighbours
      and the rigidities. */
  ghost predicate PairsAt(c: seq<Cell>, s: BeamSpec, n: nat)
    requires BeamConsistent(s) && n == |s.neighborIdxs|
  {
    && |c| >= 2 + 3 * n && c[0] == IntCell(n) && c[1] == IntCell(s.masterIdx)
    && (forall k :: 0 <= k < n ==> c[2 + 2 * k] == IntCell(s.neighborIdxs[k].0))
    && (forall k :: 0 <= k < n ==> c[2 + 2 * k + 1] == IntCell(s.neighborIdxs[k].1))
    && (forall k :: 0 <= k < n ==> c[2 + 2 * n + k] == DoubleCell(s.bendRigidities[k]))
  }

  /** A beam specification: behind all that, NDIM curvature components a beam. */
  ghost predicate BeamLaidOut(c: seq<Cell>, s: BeamSpec)
    requires BeamConsistent(s)
  {
    var n := |s.neighborIdxs|;
    && |c| == 2 + 3 * n + NDIM * n && PairsAt(c, s, n)
    && (forall k :: 0 <= k < n ==>
        RowAt(c, 2 + 3 * n + NDIM * k, [s.curvatures[k].x, s.curvatures[k].y, s.curvatures[k].z],
                                         false))
  }

  lemma PairInterleaved(pairs: seq<(int, int)>, k: nat, idxs: seq<int>)
    requires k < |pairs| && idxs == Interleaved(pairs)
    ensures |idxs| == 2 * |pairs| && idxs[2 * k] == pairs[k].0 && idxs[2 * k + 1] == pairs[k].1
  {
    Halves(k);
  }

  lemma PairsLaidOut(front: seq<Cell>, s: BeamSpec, n: nat)
    requires BeamConsistent(s) && n == |s.neighborIdxs|
    requires front == Header(n, s.masterIdx) + (Ints(Interleaved(s.neighborIdxs)) + Doubles(s.bendRigidities))
    ensures |front| == 2 + 3 * n && PairsAt(front, s, n)
  {
    var idxs := Interleaved(s.neighborIdxs);
    forall k | 0 <= k < n
      ensures front[2 + 2 * k] == IntCell(s.neighborIdxs[k].0) && front[2 + 2 * k + 1] == IntCell(s.neighborIdxs[k].1)
    {
      PairInterleaved(s.neighborIdxs, k, idxs);
      assert front[2 + 2 * k] == IntCell(idxs[2 * k]) && front[2 + 2 * k + 1] == IntCell(idxs[2 * k + 1]);
    }
  }

  lemma PairsExtended(front: seq<Cell>, more: seq<Cell>, s: BeamSpec, n: nat)
    requires BeamConsistent(s) && n == |s.neighborIdxs| && PairsAt(front, s, n)
    ensures PairsAt(front + more, s, n)
  {
  }

  lemma CurvaturesLaidOut(front: seq<Cell>, s: BeamSpec, n: nat, rows: seq<Cell>)
    requires BeamConsistent(s) && n == |s.neighborIdxs| && |front| == 2 + 3 * n
    requires rows == EncodeRows(Rows(s.curvatures), Some(NDIM))
    ensures |rows| == NDIM * n
    ensures forall k :: 0 <= k < n ==> RowAt(front + rows, 2 + 3 * n + NDIM * k,
                                             [s.curvatures[k].x, s.curvatures[k].y, s.curvatures[k].z], false)
  {
    var curvatures := Rows(s.curvatures);
    RowsLength(curvatures, Some(NDIM));
    FixedOffset(curvatures, NDIM, n);
    forall k | 0 <= k < n ensures RowAt(front + rows, 2 + 3 * n + NDIM * k, curvatures[k], false) {
      RowsLaidOut(curvatures, Some(NDIM), k);
      FixedOffset(curvatures, NDIM, k);
      RowShifted(front, rows, NDIM * k, curvatures[k], false);
    }
  }

  lemma BeamLayout(s: BeamSpec)
    requires BeamConsistent(s)
    ensures BeamLaidOut(EncodeBeam(s), s)
  {
    var n := |s.neighborIdxs|;
    var front := Header(n, s.masterIdx) + (Ints(Interleaved(s.neighborIdxs)) + Doubles(s.bendRigidities));
    var rows := EncodeRows(Rows(s.curvatures), Some(NDIM));
    assert EncodeBeam(s) == front + rows;
    PairsLaidOut(front, s, n);
    PairsExtended(front, rows, s, n);
    CurvaturesLaidOut(front, s, n, rows);
  }

  // ------------------------------------------------------------------- rods

  /** A rod specification: the number of rods, the master, the next nodes, and ten material parameters a rod. */
  ghost predicate RodLaidOut(c: seq<Cell>, s: RodSpec)
    requires RodConsistent(s)
  {
    var n := |s.nextIdxs|;
    && |c| == 2 + n + 10 * n
    && c[0] == IntCell(n) && c[1] == IntCell(s.masterIdx)
    && (forall k :: 0 <= k < n ==> c[2 + k] == IntCell(s.nextIdxs[k]))
    && (forall k :: 0 <= k < n ==> RowAt(c, 2 + n + 10 * k, s.materialParams[k], false))
  }

  lemma RodLayout(s: RodSpec)
    requires RodConsistent(s)
    ensures RodLaidOut(EncodeRod(s), s)
  {
    var n := |s.nextIdxs|;
    var front := Header(n, s.masterIdx) + Ints(s.nextIdxs);
    var rows := EncodeRows(s.materialParams, Some(NUM_MATERIAL_PARAMS));
    assert EncodeRod(s) == front + rows;
    RowsLength(s.materialParams, Some(NUM_MATERIAL_PARAMS));
    FixedOffset(s.materialParams, NUM_MATERIAL_PARAMS, n);
    forall k | 0 <= k < n
      ensures RowAt(front + rows, 2 + n + 10 * k, s.materialParams[k], false)
    {
      RowsLaidOut(s.materialParams, Some(NUM_MATERIAL_PARAMS), k);
      FixedOffset(s.materialParams, NUM_MATERIAL_PARAMS, k);
      RowShifted(front, rows, NUM_MATERIAL_PARAMS * k, s.materialParams[k], false);
    }
  }
}
