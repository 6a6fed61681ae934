/** The work of a nodal vector along a displacement, by nodes and by the increments that made it. */
module NodalWork {
  import opened Vectors
  import opened Increments

  /** The work done by increments along the nodal vector `y`. */
  function Work(y: seq<real>, incs: seq<Increment>): real
    requires InRange(incs, |y| / NDIM)
  {
    if incs == [] then 0.0
    else Work(y, incs[..|incs| - 1]) + Dot(NodeAt(y, incs[|incs| - 1].node), incs[|incs| - 1].v)
  }

  /** The work of the nodal totals, summed over the first `n` nodes. */
  function TotalWork(y: seq<real>, incs: seq<Increment>, n: nat): real
    requires NDIM * n <= |y|
  {
    if n == 0 then 0.0 else TotalWork(y, incs, n - 1) + Dot(NodeAt(y, n - 1), Total(incs, n - 1))
  }

  lemma {:induction false} NoWork(y: seq<real>, n: nat)
    requires NDIM * n <= |y|
    ensures TotalWork(y, [], n) == 0.0
  {
    if n > 0 {
      NoWork(y, n - 1);
      DotZero(NodeAt(y, n - 1));
    }
  }

  lemma {:induction false} OneMoreIncrement(y: seq<real>, incs: seq<Increment>, last: Increment, n: nat)
    requires NDIM * n <= |y| && last.node < |y| / NDIM
    ensures TotalWork(y, incs + [last], n)
         == TotalWork(y, incs, n) + if last.node < n then Dot(NodeAt(y, last.node), last.v) else 0.0
  {
    if n > 0 {
      OneMoreIncrement(y, incs, last, n - 1);
      assert (incs + [last])[..|incs|] == incs;
      DotLinear(1.0, Total(incs, n - 1), last.v, NodeAt(y, n - 1));
    }
  }

  /** Summing over the nodes or over the increments is the same. */
  lemma {:induction false} WorkByNode(y: seq<real>, incs: seq<Increment>, n: nat)
    requires |y| == NDIM * n && InRange(incs, n)
    ensures TotalWork(y, incs, n) == Work(y, incs)
  {
    if incs == [] {
      NoWork(y, n);
    } else {
      var rest, last := incs[..|incs| - 1], incs[|incs| - 1];
      WorkByNode(y, rest, n);
      assert incs == rest + [last];
      OneMoreIncrement(y, rest, last, n);
    }
  }

  lemma {:induction false} SameTotalsSameWork(y: seq<real>, a: seq<Increment>, b: seq<Increment>, n: nat)
    requires NDIM * n <= |y| && forall i: nat :: i < n ==> Total(a, i) == Total(b, i)
    ensures TotalWork(y, a, n) == TotalWork(y, b, n)
  {
    if n > 0 {
      SameTotalsSameWork(y, a, b, n - 1);
    }
  }

  lemma {:induction false} WorkConcat(y: seq<real>, a: seq<Increment>, b: seq<Increment>)
    requires InRange(a, |y| / NDIM) && InRange(b, |y| / NDIM)
    ensures InRange(a + b, |y| / NDIM) && Work(y, a + b) == Work(y, a) + Work(y, b)
  {
    if b == [] {
      assert a + b == a;
    } else {
      assert (a + b)[..|a + b| - 1] == a + b[..|b| - 1];
      WorkConcat(y, a, b[..|b| - 1]);
    }
  }

  lemma WorkOfOne(y: seq<real>, a: Increment)
    requires a.node < |y| / NDIM
    ensures InRange([a], |y| / NDIM) && Work(y, [a]) == Dot(NodeAt(y, a.node), a.v)
  {
    assert [a][..0] == [] && Work(y, []) == 0.0;
  }

  lemma WorkOfTwo(y: seq<real>, a: Increment, b: Increment)
    requires a.node < |y| / NDIM && b.node < |y| / NDIM
    ensures InRange([a, b], |y| / NDIM)
    ensures Work(y, [a, b]) == Dot(NodeAt(y, a.node), a.v) + Dot(NodeAt(y, b.node), b.v)
  {
    assert [a, b][..1] == [a];
    WorkOfOne(y, a);
  }

  lemma WorkGrows(y: seq<real>, before: seq<Increment>, a: Increment, incs: seq<Increment>)
    requires InRange(before, |y| / NDIM) && a.node < |y| / NDIM && incs == before + [a]
    ensures InRange(incs, |y| / NDIM) && Work(y, incs) == Work(y, before) + Dot(NodeAt(y, a.node), a.v)
  {
    assert incs[..|incs| - 1] == before;
  }

  lemma WorkOfThree(y: seq<real>, a: Increment, b: Increment, c: Increment, incs: seq<Increment>)
    requires a.node < |y| / NDIM && b.node < |y| / NDIM && c.node < |y| / NDIM && incs == [a, b, c]
    ensures InRange(incs, |y| / NDIM)
    ensures Work(y, incs) == Dot(NodeAt(y, a.node), a.v) + Dot(NodeAt(y, b.node), b.v) + Dot(NodeAt(y, c.node), c.v)
  {
    WorkOfTwo(y, a, b);
    WorkGrows(y, [a, b], c, incs);
  }

  lemma WorkOfFour(y: seq<real>, a: Increment, b: Increment, c: Increment, d: Increment, incs: seq<Increment>)
    requires a.node < |y| / NDIM && b.node < |y| / NDIM && c.node < |y| / NDIM && d.node < |y| / NDIM
    requires incs == [a, b, c, d]
    ensures InRange(incs, |y| / NDIM)
    ensures Work(y, incs)
         == Dot(NodeAt(y, a.node), a.v) + Dot(NodeAt(y, b.node), b.v) + Dot(NodeAt(y, c.node), c.v)
           + Dot(NodeAt(y, d.node), d.v)
  {
    WorkOfThree(y, a, b, c, [a, b, c]);
    WorkGrows(y, [a, b, c], d, incs);
  }

  /** The second difference of a nodal vector across a beam. */
  function Bend(v: seq<real>, m: int, n: int, p: int): Vec3
    requires 0 <= m < |v| / NDIM && 0 <= n < |v| / NDIM && 0 <= p < |v| / NDIM
  {
    Sub(Add(NodeAt(v, n), NodeAt(v, p)), Scale(2.0, NodeAt(v, m)))
  }

  /** The force `f` at node `m` and its opposite at node `s`, as they are felt at node `i`. */
  function Opposite(i: nat, m: int, s: int, f: Vec3): Vec3 {
    Add(if i == m then f else ZERO, if i == s then Neg(f) else ZERO)
  }

  lemma TwoIncrements(m: nat, s: nat, f: Vec3, i: nat)
    ensures Total([Increment(m, f), Increment(s, Neg(f))], i) == Opposite(i, m, s, f)
  {
    var a, b := Increment(m, f), Increment(s, Neg(f));
    assert [a, b][..1] == [a] && [a][..0] == [];
    assert Total([a], i) == if m == i then f else ZERO;
  }

  /** The power of a flat nodal vector along nodal velocities, over the first `n` nodes. */
  ghost function NodalPower(y: seq<real>, f: seq<real>, n: nat): real
    requires NDIM * n <= |y| && NDIM * n <= |f|
  {
    if n == 0 then 0.0 else NodalPower(y, f, n - 1) + Dot(NodeAt(y, n - 1), NodeAt(f, n - 1))
  }

  lemma {:induction false} AddAtPower(y: seq<real>, f: seq<real>, i: nat, v: Vec3, n: nat)
    requires NDIM * n <= |y| && NDIM * n <= |f| && i < |f| / NDIM
    ensures NodalPower(y, AddAt(f, i, v), n) == NodalPower(y, f, n) + if i < n then Dot(NodeAt(y, i), v) else 0.0
  {
    if n > 0 {
      AddAtPower(y, f, i, v, n - 1);
      AddAtNode(f, i, v, n - 1);
      DotLinear(1.0, NodeAt(f, n - 1), v, NodeAt(y, n - 1));
    }
  }

  /** Increments add their work to the power. */
  lemma {:induction false} AccumulatePower(y: seq<real>, f: seq<real>, incs: seq<Increment>, n: nat)
    requires |y| == |f| == NDIM * n && InRange(incs, n)
    ensures NodalPower(y, Accumulate(f, incs), n) == NodalPower(y, f, n) + Work(y, incs)
  {
    if incs != [] {
      var last := incs[|incs| - 1];
      AccumulatePower(y, f, incs[..|incs| - 1], n);
      AddAtPower(y, Accumulate(f, incs[..|incs| - 1]), last.node, last.v, n);
    }
  }
}
