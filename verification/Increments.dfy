/** Nodal vectors stored flat, NDIM = 3 values a node, and the "+=" increments that
    the force loops make to them. An element loop is described by the increments it
    performs in order; what it leaves at one node is the sum of the increments made there. */
module Increments {
  import opened Vectors

  const NDIM := 3

  datatype Increment = Increment(node: nat, v: Vec3)

  /** The vector stored for node `i`. */
  function NodeAt(f: seq<real>, i: nat): Vec3
    requires NDIM * i + NDIM <= |f|
  {
    Vec3(f[NDIM * i], f[NDIM * i + 1], f[NDIM * i + 2])
  }

  function AddAt(f: seq<real>, i: nat, v: Vec3): (r: seq<real>)
    requires NDIM * i + NDIM <= |f|
    ensures |r| == |f|
    ensures forall k :: 0 <= k < |f| && !(NDIM * i <= k < NDIM * i + NDIM) ==> r[k] == f[k]
    ensures NodeAt(r, i) == Add(NodeAt(f, i), v)
  {
    f[NDIM * i := f[NDIM * i] + v.x][NDIM * i + 1 := f[NDIM * i + 1] + v.y][NDIM * i + 2 := f[NDIM * i + 2] + v.z]
  }

  predicate InRange(incs: seq<Increment>, nodes: nat) {
    forall k :: 0 <= k < |incs| ==> incs[k].node < nodes
  }

  /** The in-order execution of the increments on the flat vector `f`. */
  function Accumulate(f: seq<real>, incs: seq<Increment>): (r: seq<real>)
    requires InRange(incs, |f| / NDIM)
    ensures |r| == |f|
  {
    if incs == [] then f
    else
      var last := incs[|incs| - 1];
      AddAt(Accumulate(f, incs[..|incs| - 1]), last.node, last.v)
  }

  /** The sum of the increments made at node `i`. */
  function Total(incs: seq<Increment>, i: nat): Vec3 {
    if incs == [] then ZERO
    else
      var last := incs[|incs| - 1];
      var rest := Total(incs[..|incs| - 1], i);
      if last.node == i then Add(rest, last.v) else rest
  }

  lemma AddAtNode(f: seq<real>, i: nat, v: Vec3, j: nat)
    requires NDIM * i + NDIM <= |f| && NDIM * j + NDIM <= |f|
    ensures NodeAt(AddAt(f, i, v), j) == if i == j then Add(NodeAt(f, j), v) else NodeAt(f, j)
  {
  }

  /** Executing increments in order leaves at every node its old value plus its total. */
  lemma {:induction false} AccumulateAt(f: seq<real>, incs: seq<Increment>, i: nat)
    requires InRange(incs, |f| / NDIM) && NDIM * i + NDIM <= |f|
    ensures NodeAt(Accumulate(f, incs), i) == Add(NodeAt(f, i), Total(incs, i))
  {
    if incs != [] {
      var last := incs[|incs| - 1];
      AccumulateAt(f, incs[..|incs| - 1], i);
      AddAtNode(Accumulate(f, incs[..|incs| - 1]), last.node, last.v, i);
    }
  }

  lemma {:induction false} AccumulateConcat(f: seq<real>, a: seq<Increment>, b: seq<Increment>)
    requires InRange(a, |f| / NDIM) && InRange(b, |f| / NDIM)
    ensures InRange(a + b, |f| / NDIM)
    ensures Accumulate(f, a + b) == Accumulate(Accumulate(f, a), b)
  {
    if b == [] {
      assert a + b == a;
    } else {
      assert (a + b)[..|a + b| - 1] == a + b[..|b| - 1];
      AccumulateConcat(f, a, b[..|b| - 1]);
    }
  }

  lemma {:induction false} TotalConcat(a: seq<Increment>, b: seq<Increment>, i: nat)
    ensures Total(a + b, i) == Add(Total(a, i), Total(b, i))
  {
    if b == [] {
      assert a + b == a;
    } else {
      assert (a + b)[..|a + b| - 1] == a + b[..|b| - 1];
      TotalConcat(a, b[..|b| - 1], i);
    }
  }

  lemma {:induction false} TotalElsewhere(incs: seq<Increment>, i: nat)
    requires forall k :: 0 <= k < |incs| ==> incs[k].node != i
    ensures Total(incs, i) == ZERO
  {
    if incs != [] {
      TotalElsewhere(incs[..|incs| - 1], i);
    }
  }

  /** The sum over the first `n` nodes of a nodal vector. */
  function NetForce(f: seq<real>, n: nat): Vec3
    requires NDIM * n <= |f|
  {
    if n == 0 then ZERO else Add(NetForce(f, n - 1), NodeAt(f, n - 1))
  }

  /** The sum of X x F over the first `n` nodes. */
  function NetTorque(x: seq<real>, f: seq<real>, n: nat): Vec3
    requires NDIM * n <= |f| && NDIM * n <= |x|
  {
    if n == 0 then ZERO else Add(NetTorque(x, f, n - 1), Cross(NodeAt(x, n - 1), NodeAt(f, n - 1)))
  }

  /** The sum of all increments, and the sum of X x v over them. */
  function Sum(incs: seq<Increment>): Vec3 {
    if incs == [] then ZERO else Add(Sum(incs[..|incs| - 1]), incs[|incs| - 1].v)
  }

  function Moment(x: seq<real>, incs: seq<Increment>): Vec3
    requires InRange(incs, |x| / NDIM)
  {
    if incs == [] then ZERO
    else
      var last := incs[|incs| - 1];
      Add(Moment(x, incs[..|incs| - 1]), Cross(NodeAt(x, last.node), last.v))
  }

  lemma {:induction false} AddAtNet(x: seq<real>, f: seq<real>, i: nat, v: Vec3, n: nat)
    requires |x| == |f| && NDIM * i + NDIM <= |f| && NDIM * n <= |f|
    ensures NetForce(AddAt(f, i, v), n) == if i < n then Add(NetForce(f, n), v) else NetForce(f, n)
    ensures NetTorque(x, AddAt(f, i, v), n)
         == if i < n then Add(NetTorque(x, f, n), Cross(NodeAt(x, i), v)) else NetTorque(x, f, n)
  {
    if n > 0 {
      AddAtNet(x, f, i, v, n - 1);
      AddAtNode(f, i, v, n - 1);
      CrossAdd(NodeAt(f, n - 1), v, NodeAt(x, n - 1));
    }
  }

  /** What an element loop adds to the total force and torque depends on its increments alone. */
  lemma {:induction false} AccumulateNet(x: seq<real>, f: seq<real>, incs: seq<Increment>, n: nat)
    requires |x| == |f| == NDIM * n && InRange(incs, n)
    ensures NetForce(Accumulate(f, incs), n) == Add(NetForce(f, n), Sum(incs))
    ensures NetTorque(x, Accumulate(f, incs), n) == Add(NetTorque(x, f, n), Moment(x, incs))
  {
    if incs != [] {
      var last := incs[|incs| - 1];
      AccumulateNet(x, f, incs[..|incs| - 1], n);
      AddAtNet(x, Accumulate(f, incs[..|incs| - 1]), last.node, last.v, n);
    }
  }

  lemma {:induction false} SumConcat(a: seq<Increment>, b: seq<Increment>)
    ensures Sum(a + b) == Add(Sum(a), Sum(b))
  {
    if b == [] {
      assert a + b == a;
    } else {
      assert (a + b)[..|a + b| - 1] == a + b[..|b| - 1];
      SumConcat(a, b[..|b| - 1]);
    }
  }

  lemma {:induction false} MomentConcat(x: seq<real>, a: seq<Increment>, b: seq<Increment>)
    requires InRange(a, |x| / NDIM) && InRange(b, |x| / NDIM)
    ensures InRange(a + b, |x| / NDIM)
    ensures Moment(x, a + b) == Add(Moment(x, a), Moment(x, b))
  {
    if b == [] {
      assert a + b == a;
    } else {
      var last := b[|b| - 1];
      assert (a + b)[..|a + b| - 1] == a + b[..|b| - 1] && (a + b)[|a + b| - 1] == last;
      MomentConcat(x, a, b[..|b| - 1]);
      AddAssociative(Moment(x, a), Moment(x, b[..|b| - 1]), Cross(NodeAt(x, last.node), last.v));
    }
  }
}
