/** Nodal data with their ghost copies, Eulerian fields, and the operators of the fluid solver
    and of the coupling, which are given functions here. */
module LagrangianData {
  import opened Vectors

  /** One vector per node, over all levels that hold Lagrangian data. */
  type Nodes = seq<Vec3>

  /** An Eulerian grid function, as the list of its values. */
  type Field = seq<real>

  /** A nodal vector: the values its owners hold, and the values other processes last copied from them. */
  datatype LData = LData(owned: Nodes, copy: Nodes)

  function Fresh(v: Nodes): LData {
    LData(v, v)
  }

  /** 0.5 a + 0.5 b */
  function Mean(a: Nodes, b: Nodes): (r: Nodes)
    requires |a| == |b|
    ensures |r| == |a|
  {
    seq(|a|, i requires 0 <= i < |a| => Add(Scale(0.5, a[i]), Scale(0.5, b[i])))
  }

  /** dt u + x */
  function Waxpy(dt: real, u: Nodes, x: Nodes): (r: Nodes)
    requires |u| == |x|
    ensures |r| == |x|
  {
    seq(|x|, i requires 0 <= i < |x| => Add(Scale(dt, u[i]), x[i]))
  }

  /** The anchored nodes set to zero. */
  function Anchored(v: Nodes, anchors: seq<nat>): (r: Nodes)
    ensures |r| == |v|
    ensures forall i :: 0 <= i < |v| ==> r[i] == if i in anchors then ZERO else v[i]
  {
    seq(|v|, i requires 0 <= i < |v| => if i in anchors then ZERO else v[i])
  }

  lemma MeanSelf(a: Nodes)
    ensures Mean(a, a) == a
  {
    forall i | 0 <= i < |a| ensures Mean(a, a)[i] == a[i] {
      HalfHalf(a[i]);
    }
  }

  lemma HalfHalf(v: Vec3)
    ensures Add(Scale(0.5, v), Scale(0.5, v)) == v
  {
  }

  lemma AnchoredTwice(v: Nodes, anchors: seq<nat>)
    ensures Anchored(Anchored(v, anchors), anchors) == Anchored(v, anchors)
  {
  }

  function AddFields(a: Field, b: Field): (r: Field)
    requires |a| == |b|
    ensures |r| == |a|
  {
    seq(|a|, i requires 0 <= i < |a| => a[i] + b[i])
  }

  function MeanField(a: Field, b: Field): (r: Field)
    requires |a| == |b|
    ensures |r| == |a|
  {
    seq(|a|, i requires 0 <= i < |a| => 0.5 * a[i] + 0.5 * b[i])
  }

  function ZeroField(n: nat): (r: Field)
    ensures |r| == n
  {
    seq(n, _ => 0.0)
  }

  lemma AddZeroField(a: Field)
    ensures AddFields(ZeroField(|a|), a) == a
  {
  }

  lemma MeanFieldSelf(a: Field, b: Field)
    requires |a| == |b|
    ensures MeanField(a, b) == a <==> b == a
  {
    if MeanField(a, b) == a {
      forall i | 0 <= i < |a| ensures b[i] == a[i] {
        assert MeanField(a, b)[i] == a[i];
      }
    }
  }

  /** What the fluid solver is given in one of its cycles. */
  datatype Input = Solve(force: Field, source: Field, cycle: nat) | EndOfStep

  /** The Lagrangian force, the interpolation and spreading kernels, the source field, and the
      velocity the fluid solver has reached after all it was given since the start of the run. */
  datatype Environment = Environment(
    force: (Nodes, Nodes, real) -> Nodes,
    interp: (Field, Nodes, real) -> Nodes,
    spread: (LData, LData) -> Field,
    source: (Nodes, real) -> Field,
    velocity: seq<Input> -> Field)

  ghost predicate ValidEnvironment(env: Environment, nodes: nat, cells: nat) {
    && (forall x, u, t :: |env.force(x, u, t)| == nodes)
    && (forall u, x, t :: |env.interp(u, x, t)| == nodes)
    && (forall f, x :: |env.spread(f, x)| == cells)
    && (forall x, t :: |env.source(x, t)| == cells)
    && (forall h :: |env.velocity(h)| == cells)
  }

  function HalfTime(t0: real, t1: real): real {
    t0 + 0.5 * (t1 - t0)
  }

  lemma TimesDistinct(t0: real, t1: real)
    requires t0 < t1
    ensures t0 < HalfTime(t0, t1) < t1
  {
  }
}
