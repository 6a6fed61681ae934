/** The equations of a time step, written out for every node and cell: what each cycle evaluates, hands to the fluid
    and reads back. Only the given operators occur in them. */
module StepEquations {
  import opened Vectors
  import opened LagrangianData
  import opened TimeStepping

  ghost predicate IsMean(m: Nodes, a: Nodes, b: Nodes) {
    |m| == |a| == |b| && forall i :: 0 <= i < |m| ==> m[i] == Scale(0.5, Add(a[i], b[i]))
  }

  ghost predicate IsMeanField(m: Field, a: Field, b: Field) {
    |m| == |a| == |b| && forall i :: 0 <= i < |m| ==> m[i] == 0.5 * a[i] + 0.5 * b[i]
  }

  /** x + dt u */
  ghost predicate IsMoved(r: Nodes, x: Nodes, dt: real, u: Nodes) {
    |r| == |x| == |u| && forall i :: 0 <= i < |r| ==> r[i] == Add(x[i], Scale(dt, u[i]))
  }

  /** `v`, but zero at the anchors. */
  ghost predicate IsAnchored(r: Nodes, v: Nodes, anchors: seq<nat>) {
    |r| == |v| && forall i :: 0 <= i < |r| ==> r[i] == if i in anchors then ZERO else v[i]
  }

  /** The fluid is given the force and the source: once as cycle `k`, or in all its own cycles where the scheme has a
      single one. */
  ghost predicate IsGiven(after: seq<Input>, before: seq<Input>, force: Field, source: Field, ins: nat, nc: nat,
                          k: nat) {
    if nc > 1 then after == before + [Solve(force, source, k)]
    else
      && |after| == |before| + ins && after[..|before|] == before
      && forall j: nat :: j < ins ==> after[|before| + j] == Solve(force, source, j)
  }

  /** One cycle: the prediction it starts from and its mean with the old positions, where the coupling operators are,
      the forces at the start of the step and in the cycle, what the fluid is given, the fluid velocity read back,
      the velocity interpolated from it, the next prediction, and all the fluid has been given by then. */
  datatype Record = Record(guess: Nodes, half: Nodes, coupling: Nodes, start: Nodes, force: Nodes, field: Field,
                           source: Field, flow: Field, v: Nodes, x: Nodes, history: seq<Input>)

  /** The midpoint rule: force at the mean positions and the half time, velocity from the mean of both flows. */
  ghost predicate MidpointEquations(p: Setup, st: State, t0: real, t1: real, nc: nat, k: nat, v: Nodes,
                                    before: seq<Input>, r: Record)
  {
    var half := 0.5 * (t0 + t1);
    && IsMean(r.half, st.x, r.guess)
    && r.coupling == (if p.fixed then st.x else r.half)
    && IsAnchored(r.force, p.env.force(r.half, v, half), p.anchors)
    && r.field == p.env.spread(LData(r.force, r.force), LData(r.coupling, r.coupling))
    && r.source == (if p.hasSources then p.env.source(r.coupling, half) else [])
    && IsGiven(r.history, before, r.field, r.source, p.insCycles, nc, k)
    && IsMeanField(r.flow, st.fluid, p.env.velocity(r.history))
    && IsAnchored(r.v, p.env.interp(r.flow, r.coupling, half), p.anchors)
    && IsMoved(r.x, st.x, t1 - t0, if nc > 1 && k == 0 then st.u else r.v)
  }

  /** The trapezoidal rule: the fluid is given the mean of the forces spread for both ends of the step, the first of
      several cycles the one for the start alone; the velocity is that of the new flow. */
  ghost predicate TrapezoidalEquations(p: Setup, st: State, t0: real, t1: real, nc: nat, k: nat, v: Nodes,
                                       before: seq<Input>, r: Record)
  {
    var half := 0.5 * (t0 + t1);
    var startField := p.env.spread(LData(r.start, r.start), LData(st.x, st.x));
    && IsMean(r.half, st.x, r.guess)
    && r.coupling == (if p.fixed then st.x else r.guess)
    && IsAnchored(r.start, p.env.force(st.x, st.u, t0), p.anchors)
    && (if nc > 1 && k == 0 then
          && r.field == startField
          && IsMoved(r.x, st.x, t1 - t0, st.u)
        else
          && IsAnchored(r.force, p.env.force(r.guess, v, t1), p.anchors)
          && IsMeanField(r.field, startField,
                         p.env.spread(LData(r.force, r.force), LData(r.coupling, r.coupling)))
          && |r.x| == |st.x| == |st.u| == |r.v|
          && forall i :: 0 <= i < |r.x| ==> r.x[i] == Add(st.x[i], Scale(0.5 * (t1 - t0), Add(st.u[i], r.v[i]))))
    && r.source == (if p.hasSources then p.env.source(if p.fixed then st.x else r.half, half) else [])
    && IsGiven(r.history, before, r.field, r.source, p.insCycles, nc, k)
    && r.flow == p.env.velocity(r.history)
    && IsAnchored(r.v, p.env.interp(r.flow, r.coupling, t1), p.anchors)
  }

  ghost predicate CycleEquations(p: Setup, st: State, t0: real, t1: real, nc: nat, k: nat, v: Nodes,
                                 before: seq<Input>, r: Record)
  {
    match p.scheme
    case MidpointRule => MidpointEquations(p, st, t0, t1, nc, k, v, before, r)
    case TrapezoidalRule => TrapezoidalEquations(p, st, t0, t1, nc, k, v, before, r)
  }

  /** The velocity and the history cycle `k` starts from. */
  function VelocityBefore(st: State, rs: seq<Record>, k: nat): Nodes
    requires k <= |rs|
  {
    if k == 0 then st.u else rs[k - 1].v
  }

  function HistoryBefore(st: State, rs: seq<Record>, k: nat): seq<Input>
    requires k <= |rs|
  {
    if k == 0 then st.history else rs[k - 1].history
  }

  /** Cycle `k` starts from the last one's prediction and velocity; the first from the old positions, or, where it is
      the only one, from a step with the old velocity. */
  ghost predicate Linked(p: Setup, st: State, t0: real, t1: real, nc: nat, rs: seq<Record>, k: nat)
    requires k < |rs|
  {
    && (if k > 0 then rs[k].guess == rs[k - 1].x
        else if nc == 1 then IsMoved(rs[0].guess, st.x, t1 - t0, st.u)
        else rs[0].guess == st.x)
    && CycleEquations(p, st, t0, t1, nc, k, VelocityBefore(st, rs, k), HistoryBefore(st, rs, k), rs[k])
  }

  ghost predicate Chained(p: Setup, st: State, t0: real, t1: real, nc: nat, rs: seq<Record>) {
    forall k: nat :: k < |rs| ==> Linked(p, st, t0, t1, nc, rs, k)
  }

  /** A whole step: the last prediction is the new position, the fluid and its history are those of the last cycle,
      and the velocity carried on is interpolated once more. */
  ghost predicate EquationsHold(p: Setup, st: State, t0: real, t1: real, nc: nat, rs: seq<Record>, r: State) {
    && |rs| == nc >= 1 && Chained(p, st, t0, t1, nc, rs)
    && r.x == rs[nc - 1].x
    && r.fluid == p.env.velocity(rs[nc - 1].history)
    && r.history == rs[nc - 1].history + [EndOfStep]
    && IsAnchored(r.u, p.env.interp(r.fluid, if p.fixed then st.x else r.x, t1), p.anchors)
  }

  // ------------------------------------------------------ the step solves them

  lemma MeanIs(a: Nodes, b: Nodes)
    requires |a| == |b|
    ensures IsMean(Mean(a, b), a, b)
  {
    forall i | 0 <= i < |a| ensures Mean(a, b)[i] == Scale(0.5, Add(a[i], b[i])) {
      HalvesOfBoth(a[i], b[i]);
    }
  }

  lemma HalvesOfBoth(a: Vec3, b: Vec3)
    ensures Add(Scale(0.5, a), Scale(0.5, b)) == Scale(0.5, Add(a, b))
  {
  }

  lemma WaxpyIs(dt: real, u: Nodes, x: Nodes)
    requires |u| == |x|
    ensures IsMoved(Waxpy(dt, u, x), x, dt, u)
  {
    forall i | 0 <= i < |x| ensures Waxpy(dt, u, x)[i] == Add(x[i], Scale(dt, u[i])) {
      Turned(Scale(dt, u[i]), x[i]);
    }
  }

  lemma Turned(a: Vec3, b: Vec3)
    ensures Add(a, b) == Add(b, a)
  {
  }

  lemma InputsAreGiven(before: seq<Input>, f: Field, q: Field, ins: nat, nc: nat, k: nat)
    ensures IsGiven(before + Inputs(f, q, ins, nc, k), before, f, q, ins, nc, k)
  {
  }

  lemma HalfTimeIs(t0: real, t1: real)
    ensures HalfTime(t0, t1) == 0.5 * (t0 + t1)
  {
  }

  lemma MidpointSolves(p: Setup, st: State, t0: real, t1: real, nc: nat, k: nat, c: Cycle) returns (r: Record)
    requires ValidSetup(p) && ValidState(p, st) && ValidCycle(p, c)
    ensures r.guess == c.x && MidpointEquations(p, st, t0, t1, nc, k, c.v, c.history, r)
    ensures Matches(MidpointCycle(p, st, t0, t1, nc, k, c), r)
  {
    var half, n := HalfTime(t0, t1), MidpointCycle(p, st, t0, t1, nc, k, c);
    HalfTimeIs(t0, t1);
    var xm, le := Mean(st.x, c.x), HalfCoupling(p, st, c);
    var f, q := SpreadAt(p, n.force, le), SourceField(p, le, half);
    MeanIs(st.x, c.x);
    InputsAreGiven(c.history, f, q, p.insCycles, nc, k);
    WaxpyIs(t1 - t0, if Predicts(nc, k) then st.u else n.v, st.x);
    r := Record(c.x, xm, le, [], n.force, f, q, MeanField(st.fluid, p.env.velocity(n.history)), n.v, n.x, n.history);
  }

  /** The record ends where the textbook cycle does. */
  ghost predicate Matches(n: Cycle, r: Record) {
    r.x == n.x && r.v == n.v && r.force == n.force && r.history == n.history
  }

  lemma TrapezoidalMoves(st: State, t0: real, t1: real, v: Nodes)
    requires |st.x| == |st.u| == |v|
    ensures var r := TrapezoidalUpdate(st, t0, t1, v);
            forall i :: 0 <= i < |r| ==> r[i] == Add(st.x[i], Scale(0.5 * (t1 - t0), Add(st.u[i], v[i])))
  {
    var r := TrapezoidalUpdate(st, t0, t1, v);
    forall i | 0 <= i < |r| ensures r[i] == Add(st.x[i], Scale(0.5 * (t1 - t0), Add(st.u[i], v[i]))) {
      Halves(0.5 * (t1 - t0), st.u[i], v[i], st.x[i]);
    }
  }

  lemma TrapezoidalSolves(p: Setup, st: State, t0: real, t1: real, nc: nat, k: nat, c: Cycle) returns (r: Record)
    requires ValidSetup(p) && ValidState(p, st) && ValidCycle(p, c)
    ensures r.guess == c.x && TrapezoidalEquations(p, st, t0, t1, nc, k, c.v, c.history, r)
    ensures Matches(TrapezoidalCycle(p, st, t0, t1, nc, k, c), r)
  {
    var half, n := HalfTime(t0, t1), TrapezoidalCycle(p, st, t0, t1, nc, k, c);
    HalfTimeIs(t0, t1);
    var f, q := TrapezoidalField(p, st, t0, t1, nc, k, c), SourceField(p, HalfCoupling(p, st, c), half);
    MeanIs(st.x, c.x);
    InputsAreGiven(c.history, f, q, p.insCycles, nc, k);
    WaxpyIs(t1 - t0, st.u, st.x);
    TrapezoidalMoves(st, t0, t1, n.v);
    r := Record(c.x, Mean(st.x, c.x), NewCoupling(p, st, c.x), ForceOf(p, st.x, st.u, t0), n.force, f, q,
                p.env.velocity(n.history), n.v, n.x, n.history);
  }

  /** Every textbook cycle solves the equations of its rule. */
  lemma CycleSolves(p: Setup, st: State, t0: real, t1: real, nc: nat, k: nat, c: Cycle) returns (r: Record)
    requires ValidSetup(p) && ValidState(p, st) && ValidCycle(p, c)
    ensures r.guess == c.x && CycleEquations(p, st, t0, t1, nc, k, c.v, c.history, r)
    ensures Matches(NextCycle(p, st, t0, t1, nc, k, c), r)
  {
    match p.scheme
    case MidpointRule => r := MidpointSolves(p, st, t0, t1, nc, k, c);
    case TrapezoidalRule => r := TrapezoidalSolves(p, st, t0, t1, nc, k, c);
  }

  /** The first `n` records end where the textbook does after `n` cycles. */
  ghost predicate Reaches(p: Setup, st: State, t0: real, t1: real, nc: nat, rs: seq<Record>, n: nat)
    requires ValidSetup(p) && ValidState(p, st)
  {
    && |rs| == n && Chained(p, st, t0, t1, nc, rs)
    && (n > 0 ==> Matches(Cycles(p, st, t0, t1, nc, n), rs[n - 1]))
  }

  lemma LinkKept(p: Setup, st: State, t0: real, t1: real, nc: nat, rs: seq<Record>, r: Record, k: nat)
    requires k < |rs| && Linked(p, st, t0, t1, nc, rs, k)
    ensures Linked(p, st, t0, t1, nc, rs + [r], k)
  {
    var all := rs + [r];
    assert all[k] == rs[k] && (k > 0 ==> all[k - 1] == rs[k - 1]);
  }

  lemma ChainGrows(p: Setup, st: State, t0: real, t1: real, nc: nat, rs: seq<Record>, r: Record)
    requires Chained(p, st, t0, t1, nc, rs) && Linked(p, st, t0, t1, nc, rs + [r], |rs|)
    ensures Chained(p, st, t0, t1, nc, rs + [r])
  {
    forall k: nat | k < |rs| + 1 ensures Linked(p, st, t0, t1, nc, rs + [r], k) {
      if k < |rs| {
        LinkKept(p, st, t0, t1, nc, rs, r, k);
      }
    }
  }

  lemma NextLink(p: Setup, st: State, t0: real, t1: real, nc: nat, rs: seq<Record>, n: nat, c: Cycle)
    returns (r: Record)
    requires ValidSetup(p) && ValidState(p, st) && ValidCycle(p, c)
    requires |rs| == n && VelocityBefore(st, rs, n) == c.v && HistoryBefore(st, rs, n) == c.history
    requires if n > 0 then c.x == rs[n - 1].x else c == Initial(p, st, t0, t1, nc)
    ensures Linked(p, st, t0, t1, nc, rs + [r], n)
    ensures Matches(NextCycle(p, st, t0, t1, nc, n, c), r)
  {
    r := CycleSolves(p, st, t0, t1, nc, n, c);
    WaxpyIs(t1 - t0, st.u, st.x);
    var all := rs + [r];
    assert all[n] == r && VelocityBefore(st, all, n) == c.v && HistoryBefore(st, all, n) == c.history;
  }

  lemma {:induction false} CyclesSolve(p: Setup, st: State, t0: real, t1: real, nc: nat, n: nat)
    returns (rs: seq<Record>)
    requires ValidSetup(p) && ValidState(p, st)
    ensures Reaches(p, st, t0, t1, nc, rs, n)
    decreases n
  {
    if n == 0 {
      rs := [];
    } else {
      rs := CyclesSolve(p, st, t0, t1, nc, n - 1);
      var c := Cycles(p, st, t0, t1, nc, n - 1);
      var r := NextLink(p, st, t0, t1, nc, rs, n - 1, c);
      ChainGrows(p, st, t0, t1, nc, rs, r);
      rs := rs + [r];
    }
  }

  /** The textbook step solves the equations, and the force of its last cycle is the one in them. */
  lemma StepSolves(p: Setup, st: State, t0: real, t1: real, nc: nat) returns (rs: seq<Record>)
    requires ValidSetup(p) && ValidState(p, st) && nc >= 1
    ensures EquationsHold(p, st, t0, t1, nc, rs, Step(p, st, t0, t1, nc))
    ensures rs[nc - 1].force == Cycles(p, st, t0, t1, nc, nc).force
  {
    rs := CyclesSolve(p, st, t0, t1, nc, nc);
  }
}
