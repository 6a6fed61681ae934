/** How spring, beam and rod specifications are written to and read from a message stream. */
module SpecStreams {

  import opened ForceElements
  import opened Increments
  import opened Options
  import opened RodSpecs
  import opened Vectors

  /** One integer or one double of a stream. */
  datatype Cell = IntCell(i: int) | DoubleCell(d: real)

  datatype RodSpec = RodSpec(masterIdx: int, nextIdxs: seq<int>, materialParams: seq<seq<real>>)

  // ------------------------------------------------------------ the stream

  class AbstractStream {
    var cells: seq<Cell>
    var cursor: nat

    predicate Valid()
      reads this
    {
      cursor <= |cells|
    }

    function Rest(): seq<Cell>
      requires Valid()
      reads this
    {
      cells[cursor..]
    }

    constructor ()
      ensures Valid() && cells == [] && cursor == 0
    {
      cells, cursor := [], 0;
    }

    method Pack(data: seq<Cell>)
      modifies this`cells
      ensures cells == old(cells) + data
    {
      cells := cells + data;
    }

    method UnpackInts(n: nat) returns (s: seq<int>)
      requires Valid() && TakeInts(Rest(), n).Some?
      modifies this`cursor
      ensures Valid() && Some((s, Rest())) == TakeInts(old(Rest()), n)
    {
      s := [];
      while |s| < n
        invariant |s| <= n && cursor == old(cursor) + |s|
        invariant forall k :: 0 <= k < |s| ==> s[k] == old(Rest())[k].i
      {
        assert cells[cursor] == old(Rest())[|s|];
        s := s + [cells[cursor].i];
        cursor := cursor + 1;
      }
      assert s == TakeInts(old(Rest()), n).value.0;
      assert Rest() == old(Rest())[n..];
    }

    method UnpackDoubles(n: nat) returns (s: seq<real>)
      requires Valid() && TakeDoubles(Rest(), n).Some?
      modifies this`cursor
      ensures Valid() && Some((s, Rest())) == TakeDoubles(old(Rest()), n)
    {
      s := [];
      while |s| < n
        invariant |s| <= n && cursor == old(cursor) + |s|
        invariant forall k :: 0 <= k < |s| ==> s[k] == old(Rest())[k].d
      {
        assert cells[cursor] == old(Rest())[|s|];
        s := s + [cells[cursor].d];
        cursor := cursor + 1;
      }
      assert s == TakeDoubles(old(Rest()), n).value.0;
      assert Rest() == old(Rest())[n..];
    }
  }

  // ------------------------------------------------- what is written, what is read

  function Ints(s: seq<int>): (c: seq<Cell>)
    ensures |c| == |s| && forall k :: 0 <= k < |s| ==> c[k] == IntCell(s[k])
  {
    seq(|s|, k requires 0 <= k < |s| => IntCell(s[k]))
  }

  function Doubles(s: seq<real>): (c: seq<Cell>)
    ensures |c| == |s| && forall k :: 0 <= k < |s| ==> c[k] == DoubleCell(s[k])
  {
    seq(|s|, k requires 0 <= k < |s| => DoubleCell(s[k]))
  }

  function TakeInts(c: seq<Cell>, n: nat): Option<(seq<int>, seq<Cell>)> {
    if n <= |c| && forall k :: 0 <= k < n ==> c[k].IntCell? then
      Some((seq(n, k requires 0 <= k < n => c[k].i), c[n..]))
    else None
  }

  function TakeDoubles(c: seq<Cell>, n: nat): Option<(seq<real>, seq<Cell>)> {
    if n <= |c| && forall k :: 0 <= k < n ==> c[k].DoubleCell? then
      Some((seq(n, k requires 0 <= k < n => c[k].d), c[n..]))
    else None
  }

  lemma TakeIntsIff(c: seq<Cell>, n: nat, s: seq<int>, rest: seq<Cell>)
    ensures TakeInts(c, n) == Some((s, rest)) <==> |s| == n && c == Ints(s) + rest
  {
    if TakeInts(c, n).Some? {
      assert c == Ints(TakeInts(c, n).value.0) + c[n..];
    }
    if |s| == n && c == Ints(s) + rest {
      forall k | 0 <= k < n
        ensures c[k] == IntCell(s[k])
      {
      }
      assert c[n..] == rest;
      assert TakeInts(c, n).value.0 == s;
    }
  }

  lemma TakeDoublesIff(c: seq<Cell>, n: nat, s: seq<real>, rest: seq<Cell>)
    ensures TakeDoubles(c, n) == Some((s, rest)) <==> |s| == n && c == Doubles(s) + rest
  {
    if TakeDoubles(c, n).Some? {
      assert c == Doubles(TakeDoubles(c, n).value.0) + c[n..];
    }
    if |s| == n && c == Doubles(s) + rest {
      forall k | 0 <= k < n
        ensures c[k] == DoubleCell(s[k])
      {
      }
      assert c[n..] == rest;
      assert TakeDoubles(c, n).value.0 == s;
    }
  }

  /** The number of elements and the master node, which every specification starts with. */
  function TakeHeader(c: seq<Cell>): Option<((nat, int), seq<Cell>)> {
    var n :- TakeInts(c, 1);
    var master :- TakeInts(n.1, 1);
    if n.0[0] < 0 then None else Some(((n.0[0], master.0[0]), master.1))
  }

  function Header(n: nat, master: int): seq<Cell> {
    [IntCell(n), IntCell(master)]
  }

  lemma TakeHeaderIff(c: seq<Cell>, n: nat, master: int, rest: seq<Cell>)
    ensures TakeHeader(c) == Some(((n, master), rest)) <==> c == Header(n, master) + rest
  {
    if TakeHeader(c) == Some(((n, master), rest)) {
      assert c == [c[0], c[1]] + c[1..][1..];
    }
    if c == Header(n, master) + rest {
      assert c[1..][1..] == rest;
    }
  }

  // ------------------------------------------------------------------ rows

  /** A row of doubles, preceded by its length unless all rows have the same width. */
  function EncodeRow(row: seq<real>, width: Option<nat>): seq<Cell> {
    (if width.None? then [IntCell(|row|)] else []) + Doubles(row)
  }

  predicate RowFits(row: seq<real>, width: Option<nat>) {
    width.None? || |row| == width.value
  }

  function TakeWidth(c: seq<Cell>, width: Option<nat>): Option<(nat, seq<Cell>)> {
    if width.Some? then Some((width.value, c))
    else
      var m :- TakeInts(c, 1);
      if m.0[0] < 0 then None else Some((m.0[0], m.1))
  }

  function TakeRow(c: seq<Cell>, width: Option<nat>): Option<(seq<real>, seq<Cell>)> {
    var w :- TakeWidth(c, width);
    TakeDoubles(w.1, w.0)
  }

  lemma TakeRowIff(c: seq<Cell>, width: Option<nat>, row: seq<real>, rest: seq<Cell>)
    ensures TakeRow(c, width) == Some((row, rest)) <==> RowFits(row, width) && c == EncodeRow(row, width) + rest
  {
    if width.Some? {
      TakeDoublesIff(c, width.value, row, rest);
      assert EncodeRow(row, width) == Doubles(row);
    } else {
      if TakeWidth(c, width).Some? {
        var m := TakeWidth(c, width).value.0;
        TakeIntsIff(c, 1, [m], c[1..]);
        TakeDoublesIff(c[1..], m, row, rest);
        assert c == [IntCell(m)] + c[1..];
        assert [IntCell(m)] + (Doubles(row) + rest) == [IntCell(m)] + Doubles(row) + rest;
        if c == EncodeRow(row, width) + rest {
          assert c[0] == IntCell(|row|);
          assert c[1..] == Doubles(row) + rest;
        }
      }
    }
  }

  function EncodeRows(rows: seq<seq<real>>, width: Option<nat>): seq<Cell> {
    if rows == [] then [] else EncodeRow(rows[0], width) + EncodeRows(rows[1..], width)
  }

  predicate RowsFit(rows: seq<seq<real>>, width: Option<nat>) {
    forall k :: 0 <= k < |rows| ==> RowFits(rows[k], width)
  }

  function TakeRows(c: seq<Cell>, n: nat, width: Option<nat>): Option<(seq<seq<real>>, seq<Cell>)> {
    if n == 0 then Some(([], c))
    else
      var row :- TakeRow(c, width);
      var rows :- TakeRows(row.1, n - 1, width);
      Some(([row.0] + rows.0, rows.1))
  }

  lemma {:induction false} TakeRowsIff(c: seq<Cell>, n: nat, width: Option<nat>, rows: seq<seq<real>>, rest: seq<Cell>)
    ensures TakeRows(c, n, width) == Some((rows, rest)) <==>
            |rows| == n && RowsFit(rows, width) && c == EncodeRows(rows, width) + rest
  {
    if TakeRows(c, n, width) == Some((rows, rest)) {
      RowsTaken(c, n, width, rows, rest);
    }
    if |rows| == n && RowsFit(rows, width) && c == EncodeRows(rows, width) + rest {
      RowsWritten(c, n, width, rows, rest);
    }
  }

  lemma {:induction false} RowsTaken(c: seq<Cell>, n: nat, width: Option<nat>, rows: seq<seq<real>>, rest: seq<Cell>)
    requires TakeRows(c, n, width) == Some((rows, rest))
    ensures |rows| == n && RowsFit(rows, width) && c == EncodeRows(rows, width) + rest
  {
    if n > 0 {
      var row := TakeRow(c, width).value;
      TakeRowIff(c, width, row.0, row.1);
      assert rows[1..] == TakeRows(row.1, n - 1, width).value.0;
      RowsTaken(row.1, n - 1, width, rows[1..], rest);
      FitsTail(rows, width);
      Regroup(EncodeRow(rows[0], width), EncodeRows(rows[1..], width), rest);
    }
  }

  lemma {:induction false} RowsWritten(c: seq<Cell>, n: nat, width: Option<nat>, rows: seq<seq<real>>, rest: seq<Cell>)
    requires |rows| == n && RowsFit(rows, width) && c == EncodeRows(rows, width) + rest
    ensures TakeRows(c, n, width) == Some((rows, rest))
  {
    if n == 0 {
      assert EncodeRows(rows, width) + rest == rest;
    } else {
      var after := EncodeRows(rows[1..], width) + rest;
      Regroup(EncodeRow(rows[0], width), EncodeRows(rows[1..], width), rest);
      TakeRowIff(c, width, rows[0], after);
      FitsTail(rows, width);
      RowsWritten(after, n - 1, width, rows[1..], rest);
      assert rows == [rows[0]] + rows[1..];
    }
  }

  lemma FitsTail(rows: seq<seq<real>>, width: Option<nat>)
    requires rows != []
    ensures RowsFit(rows, width) <==> RowFits(rows[0], width) && RowsFit(rows[1..], width)
  {
    assert forall k :: 0 < k < |rows| ==> rows[k] == rows[1..][k - 1];
  }

  lemma Regroup(a: seq<Cell>, b: seq<Cell>, c: seq<Cell>)
    ensures a + b + c == a + (b + c)
  {
  }

  // --------------------------------------------------------------- the specs

  function Interleaved(pairs: seq<(int, int)>): seq<int> {
    seq(2 * |pairs|, k requires 0 <= k < 2 * |pairs| => if k % 2 == 0 then pairs[k / 2].0 else pairs[k / 2].1)
  }

  predicate SpringConsistent(s: SpringSpec) {
    |s.slaveIdxs| == |s.forceFcnIdxs| == |s.parameters|
  }

  function EncodeSpring(s: SpringSpec): seq<Cell> {
    Header(|s.slaveIdxs|, s.masterIdx) + (Ints(s.slaveIdxs) + (Ints(s.forceFcnIdxs) + EncodeRows(s.parameters, None)))
  }

  function TakeSpring(c: seq<Cell>): Option<(SpringSpec, seq<Cell>)> {
    var h :- TakeHeader(c);
    var n := h.0.0;
    var slaves :- TakeInts(h.1, n);
    var fcns :- TakeInts(slaves.1, n);
    var rows :- TakeRows(fcns.1, n, None);
    Some((SpringSpec(h.0.1, slaves.0, fcns.0, rows.0), rows.1))
  }

  predicate BeamConsistent(s: BeamSpec) {
    |s.neighborIdxs| == |s.bendRigidities| == |s.curvatures|
  }

  function EncodeBeam(s: BeamSpec): seq<Cell> {
    Header(|s.neighborIdxs|, s.masterIdx)
      + (Ints(Interleaved(s.neighborIdxs)) + (Doubles(s.bendRigidities) + EncodeRows(Rows(s.curvatures), Some(NDIM))))
  }

  /** Curvatures as rows of NDIM doubles, and back. */
  function Rows(vs: seq<Vec3>): (r: seq<seq<real>>)
    ensures |r| == |vs| && RowsFit(r, Some(NDIM)) && forall k :: 0 <= k < |vs| ==> r[k] == [vs[k].x, vs[k].y, vs[k].z]
  {
    seq(|vs|, k requires 0 <= k < |vs| => [vs[k].x, vs[k].y, vs[k].z])
  }

  function Vecs(rows: seq<seq<real>>): (r: seq<Vec3>)
    requires RowsFit(rows, Some(NDIM))
    ensures |r| == |rows| && forall k :: 0 <= k < |rows| ==> r[k] == Vec3(rows[k][0], rows[k][1], rows[k][2])
  {
    seq(|rows|, k requires 0 <= k < |rows| => Vec3(rows[k][0], rows[k][1], rows[k][2]))
  }

  lemma VecsUndo(vs: seq<Vec3>, rows: seq<seq<real>>)
    ensures Vecs(Rows(vs)) == vs
    ensures RowsFit(rows, Some(NDIM)) ==> Rows(Vecs(rows)) == rows
  {
    if RowsFit(rows, Some(NDIM)) {
      forall k | 0 <= k < |rows|
        ensures Rows(Vecs(rows))[k] == rows[k]
      {
        assert RowFits(rows[k], Some(NDIM));
        assert rows[k] == [rows[k][0], rows[k][1], rows[k][2]];
      }
    }
  }

  function Pairs(s: seq<int>): seq<(int, int)>
  {
    seq(|s| / 2, k requires 0 <= k < |s| / 2 => (s[2 * k], s[2 * k + 1]))
  }

  function TakeBeam(c: seq<Cell>): Option<(BeamSpec, seq<Cell>)> {
    var h :- TakeHeader(c);
    var n := h.0.0;
    var idxs :- TakeInts(h.1, 2 * n);
    var rigidities :- TakeDoubles(idxs.1, n);
    var rows :- TakeRows(rigidities.1, n, Some(NDIM));
    RowsTaken(rigidities.1, n, Some(NDIM), rows.0, rows.1);
    Some((BeamSpec(h.0.1, Pairs(idxs.0), rigidities.0, Vecs(rows.0)), rows.1))
  }

  predicate RodConsistent(s: RodSpec) {
    |s.nextIdxs| == |s.materialParams| && RowsFit(s.materialParams, Some(NUM_MATERIAL_PARAMS))
  }

  function EncodeRod(s: RodSpec): seq<Cell> {
    Header(|s.nextIdxs|, s.masterIdx) + (Ints(s.nextIdxs) + EncodeRows(s.materialParams, Some(NUM_MATERIAL_PARAMS)))
  }

  function TakeRod(c: seq<Cell>): Option<(RodSpec, seq<Cell>)> {
    var h :- TakeHeader(c);
    var nexts :- TakeInts(h.1, h.0.0);
    var rows :- TakeRows(nexts.1, h.0.0, Some(NUM_MATERIAL_PARAMS));
    Some((RodSpec(h.0.1, nexts.0, rows.0), rows.1))
  }

  // ----------------------------------------------- reading undoes writing

  /** Reading gives a specification and leaves the rest exactly when what was there is that
      specification, consistent and as written, followed by the rest. */
  lemma SpringRoundTrip(c: seq<Cell>, s: SpringSpec, rest: seq<Cell>)
    ensures TakeSpring(c) == Some((s, rest)) <==> SpringConsistent(s) && c == EncodeSpring(s) + rest
  {
    var n := |s.slaveIdxs|;
    var rows := EncodeRows(s.parameters, None) + rest;
    var fcns := Ints(s.forceFcnIdxs) + rows;
    var slaves := Ints(s.slaveIdxs) + fcns;
    SpringGroups(s, rest);
    if TakeSpring(c) == Some((s, rest)) {
      var h := TakeHeader(c).value;
      var a := TakeInts(h.1, h.0.0).value;
      var b := TakeInts(a.1, h.0.0).value;
      TakeHeaderIff(c, h.0.0, h.0.1, h.1);
      TakeIntsIff(h.1, h.0.0, a.0, a.1);
      TakeIntsIff(a.1, h.0.0, b.0, b.1);
      TakeRowsIff(b.1, h.0.0, None, s.parameters, rest);
    }
    if SpringConsistent(s) && c == EncodeSpring(s) + rest {
      TakeHeaderIff(c, n, s.masterIdx, slaves);
      TakeIntsIff(slaves, n, s.slaveIdxs, fcns);
      TakeIntsIff(fcns, n, s.forceFcnIdxs, rows);
      TakeRowsIff(rows, n, None, s.parameters, rest);
    }
  }

  lemma SpringGroups(s: SpringSpec, rest: seq<Cell>)
    ensures EncodeSpring(s) + rest ==
            Header(|s.slaveIdxs|, s.masterIdx)
              + (Ints(s.slaveIdxs) + (Ints(s.forceFcnIdxs) + (EncodeRows(s.parameters, None) + rest)))
  {
    Regroup4(Header(|s.slaveIdxs|, s.masterIdx), Ints(s.slaveIdxs), Ints(s.forceFcnIdxs),
             EncodeRows(s.parameters, None), rest);
  }

  lemma Regroup4(a: seq<Cell>, b: seq<Cell>, c: seq<Cell>, d: seq<Cell>, e: seq<Cell>)
    ensures (a + (b + (c + d))) + e == a + (b + (c + (d + e)))
  {
    Regroup(c, d, e);
    Regroup(b, c + d, e);
    Regroup(a, b + (c + d), e);
  }

  lemma PairsUndo(pairs: seq<(int, int)>)
    ensures Pairs(Interleaved(pairs)) == pairs
  {
    forall k | 0 <= k < |pairs|
      ensures Pairs(Interleaved(pairs))[k] == pairs[k]
    {
      Halves(k);
    }
  }

  lemma InterleavedUndo(s: seq<int>, n: nat)
    requires |s| == 2 * n
    ensures Interleaved(Pairs(s)) == s
  {
    forall k | 0 <= k < |s|
      ensures Interleaved(Pairs(s))[k] == s[k]
    {
      assert k == 2 * (k / 2) + k % 2;
    }
  }

  lemma Halves(k: nat)
    ensures (2 * k) / 2 == k && (2 * k + 1) / 2 == k && (2 * k) % 2 == 0 && (2 * k + 1) % 2 == 1
  {
  }

  lemma BeamRoundTrip(c: seq<Cell>, s: BeamSpec, rest: seq<Cell>)
    ensures TakeBeam(c) == Some((s, rest)) <==> BeamConsistent(s) && c == EncodeBeam(s) + rest
  {
    var n, width := |s.neighborIdxs|, Some(NDIM);
    var rows := EncodeRows(Rows(s.curvatures), width) + rest;
    var rigidities := Doubles(s.bendRigidities) + rows;
    var idxs := Ints(Interleaved(s.neighborIdxs)) + rigidities;
    Regroup4(Header(n, s.masterIdx), Ints(Interleaved(s.neighborIdxs)), Doubles(s.bendRigidities),
             EncodeRows(Rows(s.curvatures), width), rest);
    if TakeBeam(c) == Some((s, rest)) {
      var h := TakeHeader(c).value;
      var a := TakeInts(h.1, 2 * h.0.0).value;
      var b := TakeDoubles(a.1, h.0.0).value;
      TakeHeaderIff(c, h.0.0, h.0.1, h.1);
      TakeIntsIff(h.1, 2 * h.0.0, a.0, a.1);
      InterleavedUndo(a.0, h.0.0);
      TakeDoublesIff(a.1, h.0.0, b.0, b.1);
      var d := TakeRows(b.1, h.0.0, width).value;
      RowsTaken(b.1, h.0.0, width, d.0, d.1);
      VecsUndo(s.curvatures, d.0);
    }
    if BeamConsistent(s) && c == EncodeBeam(s) + rest {
      TakeHeaderIff(c, n, s.masterIdx, idxs);
      TakeIntsIff(idxs, 2 * n, Interleaved(s.neighborIdxs), rigidities);
      PairsUndo(s.neighborIdxs);
      TakeDoublesIff(rigidities, n, s.bendRigidities, rows);
      TakeRowsIff(rows, n, width, Rows(s.curvatures), rest);
      VecsUndo(s.curvatures, Rows(s.curvatures));
    }
  }

  lemma RodRoundTrip(c: seq<Cell>, s: RodSpec, rest: seq<Cell>)
    ensures TakeRod(c) == Some((s, rest)) <==> RodConsistent(s) && c == EncodeRod(s) + rest
  {
    var n, width := |s.nextIdxs|, Some(NUM_MATERIAL_PARAMS);
    var rows := EncodeRows(s.materialParams, width) + rest;
    var nexts := Ints(s.nextIdxs) + rows;
    Regroup(Ints(s.nextIdxs), EncodeRows(s.materialParams, width), rest);
    Regroup(Header(n, s.masterIdx), Ints(s.nextIdxs) + EncodeRows(s.materialParams, width), rest);
    if TakeRod(c) == Some((s, rest)) {
      var h := TakeHeader(c).value;
      var a := TakeInts(h.1, h.0.0).value;
      TakeHeaderIff(c, h.0.0, h.0.1, h.1);
      TakeIntsIff(h.1, h.0.0, a.0, a.1);
      TakeRowsIff(a.1, h.0.0, width, s.materialParams, rest);
    }
    if RodConsistent(s) && c == EncodeRod(s) + rest {
      TakeHeaderIff(c, n, s.masterIdx, nexts);
      TakeIntsIff(nexts, n, s.nextIdxs, rows);
      TakeRowsIff(rows, n, width, s.materialParams, rest);
    }
  }

  // ------------------------------------------------------------------ sizes

  /** What a stretch of a stream occupies, for given sizes of an integer and a double. */
  function Bytes(c: seq<Cell>, sizeofInt: nat, sizeofDouble: nat): nat {
    if c == [] then 0
    else (if c[0].IntCell? then sizeofInt else sizeofDouble) + Bytes(c[1..], sizeofInt, sizeofDouble)
  }

  lemma {:induction false} BytesConcat(a: seq<Cell>, b: seq<Cell>, si: nat, sd: nat)
    ensures Bytes(a + b, si, sd) == Bytes(a, si, sd) + Bytes(b, si, sd)
  {
    if a == [] {
      assert a + b == b;
    } else {
      BytesConcat(a[1..], b, si, sd);
      assert (a + b)[1..] == a[1..] + b;
    }
  }

  lemma {:induction false} BytesOfInts(s: seq<int>, si: nat, sd: nat)
    ensures Bytes(Ints(s), si, sd) == |s| * si
  {
    if s != [] {
      BytesOfInts(s[1..], si, sd);
      assert Ints(s)[1..] == Ints(s[1..]);
      OneMore(|s| - 1, si);
    }
  }

  lemma {:induction false} BytesOfDoubles(s: seq<real>, si: nat, sd: nat)
    ensures Bytes(Doubles(s), si, sd) == |s| * sd
  {
    if s != [] {
      BytesOfDoubles(s[1..], si, sd);
      assert Doubles(s)[1..] == Doubles(s[1..]);
      OneMore(|s| - 1, sd);
    }
  }

  lemma OneMore(n: int, k: int)
    ensures k + n * k == (n + 1) * k
  {
  }

  lemma BytesOfRow(row: seq<real>, width: Option<nat>, si: nat, sd: nat)
    ensures Bytes(EncodeRow(row, width), si, sd) == (if width.None? then si else 0) + |row| * sd
  {
    var count := if width.None? then [IntCell(|row|)] else [];
    BytesConcat(count, Doubles(row), si, sd);
    BytesOfDoubles(row, si, sd);
    assert Bytes(count[..0], si, sd) == 0;
    assert width.None? ==> count[1..] == [];
  }

  lemma {:induction false} BytesOfFixedRows(rows: seq<seq<real>>, w: nat, si: nat, sd: nat)
    requires RowsFit(rows, Some(w))
    ensures Bytes(EncodeRows(rows, Some(w)), si, sd) == (w * |rows|) * sd
  {
    if rows != [] {
      FitsTail(rows, Some(w));
      BytesOfFixedRows(rows[1..], w, si, sd);
      BytesConcat(EncodeRow(rows[0], Some(w)), EncodeRows(rows[1..], Some(w)), si, sd);
      BytesOfRow(rows[0], Some(w), si, sd);
      RowsProduct(w, |rows|, sd);
    }
  }

  lemma RowsProduct(w: int, n: int, k: int)
    ensures w * k + (w * (n - 1)) * k == (w * n) * k
  {
    assert w * (n - 1) == w * n - w;
  }

  // ---------------------------------------------------------------- methods

  method PackRow(row: seq<real>, width: Option<nat>, stream: AbstractStream)
    modifies stream`cells
    ensures stream.cells == old(stream.cells) + EncodeRow(row, width)
  {
    if width.None? {
      stream.Pack([IntCell(|row|)]);
    }
    stream.Pack(Doubles(row));
  }

  method PackRows(rows: seq<seq<real>>, width: Option<nat>, stream: AbstractStream)
    modifies stream`cells
    ensures stream.cells == old(stream.cells) + EncodeRows(rows, width)
  {
    for k := 0 to |rows|
      invariant stream.cells + EncodeRows(rows[k..], width) == old(stream.cells) + EncodeRows(rows, width)
    {
      ghost var before := stream.cells;
      assert rows[k..][1..] == rows[k + 1..];
      PackRow(rows[k], width, stream);
      Regroup(before, EncodeRow(rows[k], width), EncodeRows(rows[k + 1..], width));
    }
    assert rows[|rows|..] == [];
  }

  method UnpackRow(width: Option<nat>, stream: AbstractStream) returns (row: seq<real>)
    requires stream.Valid() && TakeRow(stream.Rest(), width).Some?
    modifies stream`cursor
    ensures stream.Valid() && Some((row, stream.Rest())) == TakeRow(old(stream.Rest()), width)
  {
    if width.Some? {
      row := stream.UnpackDoubles(width.value);
    } else {
      var m := stream.UnpackInts(1);
      row := stream.UnpackDoubles(m[0]);
    }
  }

  lemma RowsStep(c: seq<Cell>, n: nat, width: Option<nat>)
    requires n > 0 && TakeRows(c, n, width).Some?
    ensures TakeRow(c, width).Some?
    ensures var row := TakeRow(c, width).value;
            && TakeRows(row.1, n - 1, width).Some?
            && TakeRows(c, n, width).value ==
               ([row.0] + TakeRows(row.1, n - 1, width).value.0, TakeRows(row.1, n - 1, width).value.1)
  {
  }

  method UnpackRows(n: nat, width: Option<nat>, stream: AbstractStream) returns (rows: seq<seq<real>>)
    requires stream.Valid() && TakeRows(stream.Rest(), n, width).Some?
    modifies stream`cursor
    ensures stream.Valid() && Some((rows, stream.Rest())) == TakeRows(old(stream.Rest()), n, width)
  {
    rows := [];
    ghost var whole := TakeRows(stream.Rest(), n, width).value;
    for k := 0 to n
      invariant stream.Valid() && TakeRows(stream.Rest(), n - k, width).Some?
      invariant whole.0 == rows + TakeRows(stream.Rest(), n - k, width).value.0
      invariant whole.1 == TakeRows(stream.Rest(), n - k, width).value.1
    {
      RowsStep(stream.Rest(), n - k, width);
      var row := UnpackRow(width, stream);
      rows := rows + [row];
    }
    assert whole.0 == rows;
  }

  method PackHeader(n: nat, master: int, stream: AbstractStream)
    modifies stream`cells
    ensures stream.cells == old(stream.cells) + Header(n, master)
  {
    stream.Pack([IntCell(n)]);
    stream.Pack([IntCell(master)]);
  }

  method UnpackHeader(stream: AbstractStream) returns (n: nat, master: int)
    requires stream.Valid() && TakeHeader(stream.Rest()).Some?
    modifies stream`cursor
    ensures stream.Valid() && Some(((n, master), stream.Rest())) == TakeHeader(old(stream.Rest()))
  {
    var count := stream.UnpackInts(1);
    var node := stream.UnpackInts(1);
    n, master := count[0], node[0];
  }

  method PackSpring(s: SpringSpec, stream: AbstractStream)
    requires SpringConsistent(s)
    modifies stream`cells
    ensures stream.cells == old(stream.cells) + EncodeSpring(s)
  {
    PackHeader(|s.slaveIdxs|, s.masterIdx, stream);
    stream.Pack(Ints(s.slaveIdxs));
    stream.Pack(Ints(s.forceFcnIdxs));
    PackRows(s.parameters, None, stream);
    Regrouped(old(stream.cells), Header(|s.slaveIdxs|, s.masterIdx), Ints(s.slaveIdxs), Ints(s.forceFcnIdxs),
              EncodeRows(s.parameters, None));
  }

  method UnpackSpring(stream: AbstractStream) returns (s: SpringSpec)
    requires stream.Valid() && TakeSpring(stream.Rest()).Some?
    modifies stream`cursor
    ensures stream.Valid() && Some((s, stream.Rest())) == TakeSpring(old(stream.Rest()))
  {
    var n, master := UnpackHeader(stream);
    var slaves := stream.UnpackInts(n);
    var fcns := stream.UnpackInts(n);
    var parameters := UnpackRows(n, None, stream);
    s := SpringSpec(master, slaves, fcns, parameters);
  }

  method Interleave(pairs: seq<(int, int)>) returns (idxs: seq<int>)
    ensures idxs == Interleaved(pairs)
  {
    idxs := [];
    for k := 0 to |pairs|
      invariant |idxs| == 2 * k
      invariant forall j :: 0 <= j < 2 * k ==> idxs[j] == Interleaved(pairs)[j]
    {
      Halves(k);
      idxs := idxs + [pairs[k].0, pairs[k].1];
    }
  }

  method Separate(idxs: seq<int>, n: nat) returns (pairs: seq<(int, int)>)
    requires |idxs| == 2 * n
    ensures pairs == Pairs(idxs)
  {
    pairs := [];
    for k := 0 to n
      invariant |pairs| == k
      invariant forall j :: 0 <= j < k ==> pairs[j] == Pairs(idxs)[j]
    {
      pairs := pairs + [(idxs[2 * k], idxs[2 * k + 1])];
    }
  }

  lemma Regrouped(a: seq<Cell>, b: seq<Cell>, c: seq<Cell>, d: seq<Cell>, e: seq<Cell>)
    ensures a + b + c + d + e == a + (b + (c + (d + e)))
  {
  }

  method PackBeam(s: BeamSpec, stream: AbstractStream)
    requires BeamConsistent(s)
    modifies stream`cells
    ensures stream.cells == old(stream.cells) + EncodeBeam(s)
  {
    var n := |s.neighborIdxs|;
    var idxs := Interleave(s.neighborIdxs);
    PackHeader(n, s.masterIdx, stream);
    stream.Pack(Ints(idxs));
    stream.Pack(Doubles(s.bendRigidities));
    PackRows(Rows(s.curvatures), Some(NDIM), stream);
    Regrouped(old(stream.cells), Header(n, s.masterIdx), Ints(idxs), Doubles(s.bendRigidities),
              EncodeRows(Rows(s.curvatures), Some(NDIM)));
  }

  method UnpackBeam(stream: AbstractStream) returns (s: BeamSpec)
    requires stream.Valid() && TakeBeam(stream.Rest()).Some?
    modifies stream`cursor
    ensures stream.Valid() && Some((s, stream.Rest())) == TakeBeam(old(stream.Rest()))
  {
    var n, master := UnpackHeader(stream);
    var idxs := stream.UnpackInts(2 * n);
    var neighbors := Separate(idxs, n);
    var rigidities := stream.UnpackDoubles(n);
    ghost var rest := stream.Rest();
    var curvatures := UnpackRows(n, Some(NDIM), stream);
    RowsTaken(rest, n, Some(NDIM), curvatures, stream.Rest());
    s := BeamSpec(master, neighbors, rigidities, Vecs(curvatures));
  }

  method PackRod(s: RodSpec, stream: AbstractStream)
    requires RodConsistent(s)
    modifies stream`cells
    ensures stream.cells == old(stream.cells) + EncodeRod(s)
  {
    PackHeader(|s.nextIdxs|, s.masterIdx, stream);
    stream.Pack(Ints(s.nextIdxs));
    PackRows(s.materialParams, Some(NUM_MATERIAL_PARAMS), stream);
  }

  method UnpackRod(stream: AbstractStream) returns (s: RodSpec)
    requires stream.Valid() && TakeRod(stream.Rest()).Some?
    modifies stream`cursor
    ensures stream.Valid() && Some((s, stream.Rest())) == TakeRod(old(stream.Rest()))
  {
    var n, master := UnpackHeader(stream);
    var nexts := stream.UnpackInts(n);
    var materials := UnpackRows(n, Some(NUM_MATERIAL_PARAMS), stream);
    s := RodSpec(master, nexts, materials);
  }

  lemma BytesOfHeader(n: nat, master: int, si: nat, sd: nat)
    ensures Bytes(Header(n, master), si, sd) == 2 * si
  {
    assert Header(n, master) == Ints([n, master]);
    BytesOfInts([n, master], si, sd);
  }

  /** The announced size of a spring specification is what packing it writes. */
  method SpringDataStreamSize(s: SpringSpec, sizeofInt: nat, sizeofDouble: nat) returns (size: nat)
    requires SpringConsistent(s)
    ensures size == Bytes(EncodeSpring(s), sizeofInt, sizeofDouble)
  {
    var n := |s.slaveIdxs|;
    size := (2 + 2 * n) * sizeofInt;
    var more := ParametersSize(s.parameters, sizeofInt, sizeofDouble);
    SpringBytes(s, sizeofInt, sizeofDouble);
    size := size + more;
  }

  /** The part of the size that the loop over the springs adds. */
  method ParametersSize(rows: seq<seq<real>>, sizeofInt: nat, sizeofDouble: nat) returns (size: nat)
    ensures size == Bytes(EncodeRows(rows, None), sizeofInt, sizeofDouble)
  {
    size := 0;
    for k := 0 to |rows|
      invariant size + Bytes(EncodeRows(rows[k..], None), sizeofInt, sizeofDouble) ==
                Bytes(EncodeRows(rows, None), sizeofInt, sizeofDouble)
    {
      assert rows[k..][1..] == rows[k + 1..];
      BytesConcat(EncodeRow(rows[k], None), EncodeRows(rows[k + 1..], None), sizeofInt, sizeofDouble);
      BytesOfRow(rows[k], None, sizeofInt, sizeofDouble);
      size := size + (sizeofInt + |rows[k]| * sizeofDouble);
    }
  }

  lemma SpringBytes(s: SpringSpec, si: nat, sd: nat)
    requires SpringConsistent(s)
    ensures Bytes(EncodeSpring(s), si, sd) ==
            (2 + 2 * |s.slaveIdxs|) * si + Bytes(EncodeRows(s.parameters, None), si, sd)
  {
    var rows := EncodeRows(s.parameters, None);
    BytesConcat(Header(|s.slaveIdxs|, s.masterIdx), Ints(s.slaveIdxs) + (Ints(s.forceFcnIdxs) + rows), si, sd);
    BytesConcat(Ints(s.slaveIdxs), Ints(s.forceFcnIdxs) + rows, si, sd);
    BytesConcat(Ints(s.forceFcnIdxs), rows, si, sd);
    BytesOfHeader(|s.slaveIdxs|, s.masterIdx, si, sd);
    BytesOfInts(s.slaveIdxs, si, sd);
    BytesOfInts(s.forceFcnIdxs, si, sd);
    Sizes(|s.slaveIdxs|, 0, si, sd);
  }

  lemma BeamBytes(s: BeamSpec, si: nat, sd: nat)
    requires BeamConsistent(s)
    ensures Bytes(EncodeBeam(s), si, sd) == (2 + 2 * |s.neighborIdxs|) * si + ((1 + NDIM) * |s.neighborIdxs|) * sd
  {
    var n, idxs, rows := |s.neighborIdxs|, Interleaved(s.neighborIdxs), EncodeRows(Rows(s.curvatures), Some(NDIM));
    BytesConcat(Header(n, s.masterIdx), Ints(idxs) + (Doubles(s.bendRigidities) + rows), si, sd);
    BytesConcat(Ints(idxs), Doubles(s.bendRigidities) + rows, si, sd);
    BytesConcat(Doubles(s.bendRigidities), rows, si, sd);
    BytesOfHeader(n, s.masterIdx, si, sd);
    BytesOfInts(idxs, si, sd);
    BytesOfDoubles(s.bendRigidities, si, sd);
    BytesOfFixedRows(Rows(s.curvatures), NDIM, si, sd);
    Sizes(n, NDIM, si, sd);
  }

  lemma Sizes(n: int, w: int, si: int, sd: int)
    ensures 2 * si + (2 * n) * si == (2 + 2 * n) * si
    ensures n * sd + (w * n) * sd == ((1 + w) * n) * sd
    ensures 2 * si + n * si == (2 + n) * si
    ensures 2 * si + n * si + n * si == (2 + 2 * n) * si
  {
    assert (1 + w) * n == n + w * n;
  }

  lemma RodBytes(s: RodSpec, si: nat, sd: nat)
    requires RodConsistent(s)
    ensures Bytes(EncodeRod(s), si, sd) == (2 + |s.nextIdxs|) * si + (NUM_MATERIAL_PARAMS * |s.nextIdxs|) * sd
  {
    var n, rows := |s.nextIdxs|, EncodeRows(s.materialParams, Some(NUM_MATERIAL_PARAMS));
    BytesConcat(Header(n, s.masterIdx), Ints(s.nextIdxs) + rows, si, sd);
    BytesConcat(Ints(s.nextIdxs), rows, si, sd);
    BytesOfHeader(n, s.masterIdx, si, sd);
    BytesOfInts(s.nextIdxs, si, sd);
    BytesOfFixedRows(s.materialParams, NUM_MATERIAL_PARAMS, si, sd);
    Sizes(n, NUM_MATERIAL_PARAMS, si, sd);
  }

  /** The announced sizes of beam and rod specifications are what packing them writes. */
  method BeamDataStreamSize(s: BeamSpec, sizeofInt: nat, sizeofDouble: nat) returns (size: nat)
    requires BeamConsistent(s)
    ensures size == Bytes(EncodeBeam(s), sizeofInt, sizeofDouble)
  {
    BeamBytes(s, sizeofInt, sizeofDouble);
    var n := |s.neighborIdxs|;
    size := (2 + 2 * n) * sizeofInt + ((1 + NDIM) * n) * sizeofDouble;
  }

  method RodDataStreamSize(s: RodSpec, sizeofInt: nat, sizeofDouble: nat) returns (size: nat)
    requires RodConsistent(s)
    ensures size == Bytes(EncodeRod(s), sizeofInt, sizeofDouble)
  {
    RodBytes(s, sizeofInt, sizeofDouble);
    var n := |s.nextIdxs|;
    size := (2 + n) * sizeofInt + (NUM_MATERIAL_PARAMS * n) * sizeofDouble;
  }
}
