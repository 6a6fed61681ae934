/** One time step of the coupled scheme as a textbook would write it, with no flags, caches or
    allocation: a prediction of the new positions refined by fixed-point cycles. */
module TimeStepping {
  import opened Vectors
  import opened LagrangianData

  datatype Scheme = MidpointRule | TrapezoidalRule

  /** What stays the same over a run; `insCycles` is the number of cycles the fluid solver asks for. */
  datatype Setup = Setup(env: Environment, nodes: nat, cells: nat, anchors: seq<nat>, fixed: bool, scheme: Scheme,
                         insCycles: nat, hasSources: bool)

  ghost predicate ValidSetup(s: Setup) {
    ValidEnvironment(s.env, s.nodes, s.cells)
  }

  /** Structure and fluid between steps. */
  datatype State = State(x: Nodes, u: Nodes, fluid: Field, history: seq<Input>)

  ghost predicate ValidState(s: Setup, st: State) {
    |st.x| == |st.u| == s.nodes && |st.fluid| == s.cells
  }

  /** The prediction of the new positions, the velocity last interpolated, the force last spread, and the fluid's
      inputs. */
  datatype Cycle = Cycle(x: Nodes, v: Nodes, force: Nodes, history: seq<Input>)

  ghost predicate ValidCycle(s: Setup, c: Cycle) {
    |c.x| == |c.v| == |c.force| == s.nodes
  }

  /** Positions at the half time, and those the coupling operators use at half and new time. */
  ghost function HalfCoupling(s: Setup, st: State, c: Cycle): (r: Nodes)
    requires ValidState(s, st) && ValidCycle(s, c)
    ensures |r| == s.nodes
  {
    if s.fixed then st.x else Mean(st.x, c.x)
  }

  ghost function NewCoupling(s: Setup, st: State, x: Nodes): Nodes {
    if s.fixed then st.x else x
  }

  ghost function SpreadAt(s: Setup, force: Nodes, x: Nodes): (r: Field)
    requires ValidSetup(s)
    ensures |r| == s.cells
  {
    s.env.spread(Fresh(force), Fresh(x))
  }

  ghost function InterpAt(s: Setup, u: Field, x: Nodes, t: real): (r: Nodes)
    requires ValidSetup(s)
    ensures |r| == s.nodes
  {
    Anchored(s.env.interp(u, x, t), s.anchors)
  }

  ghost function ForceOf(s: Setup, x: Nodes, u: Nodes, t: real): (r: Nodes)
    requires ValidSetup(s)
    ensures |r| == s.nodes
  {
    Anchored(s.env.force(x, u, t), s.anchors)
  }

  /** The force at the start of the step, used by the trapezoidal rule. */
  ghost function CurrentField(s: Setup, st: State, t0: real): (r: Field)
    requires ValidSetup(s)
    ensures |r| == s.cells
  {
    SpreadAt(s, ForceOf(s, st.x, st.u, t0), st.x)
  }

  ghost function SourceField(s: Setup, x: Nodes, t: real): Field {
    if s.hasSources then s.env.source(x, t) else []
  }

  /** One solver cycle for each cycle of the scheme, or all of the solver's own cycles in a single one. */
  function Inputs(f: Field, q: Field, ins: nat, nc: nat, k: nat): seq<Input> {
    if nc > 1 then [Solve(f, q, k)] else seq(ins, j requires 0 <= j < ins => Solve(f, q, j))
  }

  ghost function Initial(s: Setup, st: State, t0: real, t1: real, nc: nat): (c: Cycle)
    requires ValidSetup(s) && ValidState(s, st)
    ensures ValidCycle(s, c)
  {
    Cycle(if nc == 1 then Waxpy(t1 - t0, st.u, st.x) else st.x, st.u, ForceOf(s, st.x, st.u, t0), st.history)
  }

  /** The first of several cycles ends with a forward-Euler prediction. */
  predicate Predicts(nc: nat, k: nat) {
    nc > 1 && k == 0
  }

  ghost function MidpointCycle(s: Setup, st: State, t0: real, t1: real, nc: nat, k: nat, c: Cycle): (r: Cycle)
    requires ValidSetup(s) && ValidState(s, st) && ValidCycle(s, c)
    ensures ValidCycle(s, r)
  {
    var half := HalfTime(t0, t1);
    var force := ForceOf(s, Mean(st.x, c.x), c.v, half);
    var le := HalfCoupling(s, st, c);
    var h := c.history + Inputs(SpreadAt(s, force, le), SourceField(s, le, half), s.insCycles, nc, k);
    var v := InterpAt(s, MeanField(st.fluid, s.env.velocity(h)), le, half);
    Cycle(Waxpy(t1 - t0, if Predicts(nc, k) then st.u else v, st.x), v, force, h)
  }

  /** The first of several trapezoidal cycles reuses the force of the current time. */
  ghost function TrapezoidalForce(s: Setup, st: State, t1: real, nc: nat, k: nat, c: Cycle): (r: Nodes)
    requires ValidSetup(s) && ValidCycle(s, c)
    ensures |r| == s.nodes
  {
    if Predicts(nc, k) then c.force else ForceOf(s, c.x, c.v, t1)
  }

  ghost function TrapezoidalField(s: Setup, st: State, t0: real, t1: real, nc: nat, k: nat, c: Cycle): (r: Field)
    requires ValidSetup(s) && ValidCycle(s, c)
    ensures |r| == s.cells
  {
    if Predicts(nc, k) then CurrentField(s, st, t0)
    else MeanField(CurrentField(s, st, t0), SpreadAt(s, ForceOf(s, c.x, c.v, t1), NewCoupling(s, st, c.x)))
  }

  ghost function TrapezoidalCycle(s: Setup, st: State, t0: real, t1: real, nc: nat, k: nat, c: Cycle): (r: Cycle)
    requires ValidSetup(s) && ValidState(s, st) && ValidCycle(s, c)
    ensures ValidCycle(s, r)
  {
    var q := SourceField(s, HalfCoupling(s, st, c), HalfTime(t0, t1));
    var h := c.history + Inputs(TrapezoidalField(s, st, t0, t1, nc, k, c), q, s.insCycles, nc, k);
    var v := InterpAt(s, s.env.velocity(h), NewCoupling(s, st, c.x), t1);
    Cycle(if Predicts(nc, k) then Waxpy(t1 - t0, st.u, st.x) else TrapezoidalUpdate(st, t0, t1, v),
          v, TrapezoidalForce(s, st, t1, nc, k, c), h)
  }

  ghost function TrapezoidalUpdate(st: State, t0: real, t1: real, v: Nodes): (r: Nodes)
    requires |st.x| == |st.u| == |v|
    ensures |r| == |v|
  {
    Waxpy(0.5 * (t1 - t0), v, Waxpy(0.5 * (t1 - t0), st.u, st.x))
  }

  ghost function NextCycle(s: Setup, st: State, t0: real, t1: real, nc: nat, k: nat, c: Cycle): (r: Cycle)
    requires ValidSetup(s) && ValidState(s, st) && ValidCycle(s, c)
    ensures ValidCycle(s, r)
  {
    match s.scheme
    case MidpointRule => MidpointCycle(s, st, t0, t1, nc, k, c)
    case TrapezoidalRule => TrapezoidalCycle(s, st, t0, t1, nc, k, c)
  }

  /** After the first `k` of `nc` cycles. */
  ghost function Cycles(s: Setup, st: State, t0: real, t1: real, nc: nat, k: nat): (c: Cycle)
    requires ValidSetup(s) && ValidState(s, st)
    ensures ValidCycle(s, c)
  {
    if k == 0 then Initial(s, st, t0, t1, nc)
    else NextCycle(s, st, t0, t1, nc, k - 1, Cycles(s, st, t0, t1, nc, k - 1))
  }

  /** The structure's velocity is interpolated once more from the new fluid velocity. */
  ghost function Finish(s: Setup, st: State, t1: real, c: Cycle): (r: State)
    requires ValidSetup(s) && ValidState(s, st) && ValidCycle(s, c)
    ensures ValidState(s, r)
  {
    var u := s.env.velocity(c.history);
    State(c.x, InterpAt(s, u, NewCoupling(s, st, c.x), t1), u, c.history + [EndOfStep])
  }

  ghost function Step(s: Setup, st: State, t0: real, t1: real, nc: nat): (r: State)
    requires ValidSetup(s) && ValidState(s, st)
    ensures ValidState(s, r)
  {
    Finish(s, st, t1, Cycles(s, st, t0, t1, nc, nc))
  }

  // ------------------------------------------------------------ the rules

  /** However many cycles are run, a midpoint step ends with X + dt U, where U is interpolated from the
      mean of the fluid velocities at the midpoint of the previous prediction. */
  lemma MidpointStep(s: Setup, st: State, t0: real, t1: real, nc: nat)
    requires ValidSetup(s) && ValidState(s, st) && s.scheme == MidpointRule && nc >= 1
    ensures var c, last := Cycles(s, st, t0, t1, nc, nc - 1), Cycles(s, st, t0, t1, nc, nc);
            var r := Step(s, st, t0, t1, nc);
            && r.x == Waxpy(t1 - t0, last.v, st.x)
            && last.v == InterpAt(s, MeanField(st.fluid, r.fluid), HalfCoupling(s, st, c), HalfTime(t0, t1))
            && last.force == ForceOf(s, Mean(st.x, c.x), c.v, HalfTime(t0, t1))
  {
  }

  /** A trapezoidal step ends with X + dt/2 (U + U'), where U' is interpolated from the new fluid
      velocity at the previous prediction. */
  lemma TrapezoidalStep(s: Setup, st: State, t0: real, t1: real, nc: nat)
    requires ValidSetup(s) && ValidState(s, st) && s.scheme == TrapezoidalRule && nc >= 1
    ensures var c, last := Cycles(s, st, t0, t1, nc, nc - 1), Cycles(s, st, t0, t1, nc, nc);
            var r := Step(s, st, t0, t1, nc);
            && (forall i :: 0 <= i < s.nodes ==>
                r.x[i] == Add(st.x[i], Scale(0.5 * (t1 - t0), Add(st.u[i], last.v[i]))))
            && last.v == InterpAt(s, r.fluid, NewCoupling(s, st, c.x), t1)
            && last.force == ForceOf(s, c.x, c.v, t1)
  {
    var last := Cycles(s, st, t0, t1, nc, nc);
    var h := 0.5 * (t1 - t0);
    forall i | 0 <= i < s.nodes
      ensures TrapezoidalUpdate(st, t0, t1, last.v)[i] == Add(st.x[i], Scale(h, Add(st.u[i], last.v[i])))
    {
      Halves(h, st.u[i], last.v[i], st.x[i]);
    }
  }

  lemma Halves(h: real, u: Vec3, v: Vec3, x: Vec3)
    ensures Add(Scale(h, v), Add(Scale(h, u), x)) == Add(x, Scale(h, Add(u, v)))
  {
  }

  /** With moving coupling operators the velocity carried to the next step belongs to the new positions;
      with fixed ones, which nothing in the explicit driver updates, it still belongs to the old ones. */
  lemma FinalVelocity(s: Setup, st: State, t0: real, t1: real, nc: nat)
    requires ValidSetup(s) && ValidState(s, st) && nc >= 1
    ensures var r := Step(s, st, t0, t1, nc);
            && (!s.fixed ==> r.u == InterpAt(s, r.fluid, r.x, t1))
            && (s.fixed ==> r.u == InterpAt(s, r.fluid, st.x, t1))
  {
  }

  /** How a whole step moves the structure: the position formula of its scheme, the velocity in it, and the
      velocity carried to the next step. */
  ghost predicate MovedByRule(s: Setup, st: State, r: State, t0: real, t1: real, nc: nat)
    requires ValidSetup(s) && ValidState(s, st) && ValidState(s, r) && nc >= 1
  {
    var c, v := Cycles(s, st, t0, t1, nc, nc - 1), Cycles(s, st, t0, t1, nc, nc).v;
    && r.u == InterpAt(s, r.fluid, NewCoupling(s, st, r.x), t1)
    && match s.scheme
       case MidpointRule =>
         && v == InterpAt(s, MeanField(st.fluid, r.fluid), HalfCoupling(s, st, c), HalfTime(t0, t1))
         && forall i :: 0 <= i < s.nodes ==> r.x[i] == Add(Scale(t1 - t0, v[i]), st.x[i])
       case TrapezoidalRule =>
         && v == InterpAt(s, r.fluid, NewCoupling(s, st, c.x), t1)
         && forall i :: 0 <= i < s.nodes ==> r.x[i] == Add(st.x[i], Scale(0.5 * (t1 - t0), Add(st.u[i], v[i])))
  }

  lemma RuleOfStep(s: Setup, st: State, t0: real, t1: real, nc: nat)
    requires ValidSetup(s) && ValidState(s, st) && nc >= 1
    ensures MovedByRule(s, st, Step(s, st, t0, t1, nc), t0, t1, nc)
  {
    match s.scheme
    case MidpointRule => MidpointStep(s, st, t0, t1, nc);
    case TrapezoidalRule => TrapezoidalStep(s, st, t0, t1, nc);
  }

  /** A structure of one node in a one-cell fluid: the node feels the cell's velocity, the more the higher it is. */
  function ShearFlow(): Environment {
    Environment((x: Nodes, u: Nodes, t: real) => [ZERO],
                (u: Field, x: Nodes, t: real) =>
                  [if |u| == |x| == 1 then Vec3(0.0, u[0] * (1.0 + x[0].y), 0.0) else ZERO],
                (f: LData, x: LData) => [0.0],
                (x: Nodes, t: real) => [0.0],
                (h: seq<Input>) => [1.0])
  }

  /** With fixed operators the carried velocity can differ from the one at the new positions. */
  lemma FixedVelocityLags()
    ensures var s := Setup(ShearFlow(), 1, 1, [], true, MidpointRule, 1, false);
            var st := State([ZERO], [Vec3(0.0, 1.0, 0.0)], [1.0], []);
            && ValidSetup(s) && ValidState(s, st)
            && Step(s, st, 0.0, 1.0, 1).u != InterpAt(s, Step(s, st, 0.0, 1.0, 1).fluid, Step(s, st, 0.0, 1.0, 1).x,
                                                      1.0)
  {
    var s := Setup(ShearFlow(), 1, 1, [], true, MidpointRule, 1, false);
    var st := State([ZERO], [Vec3(0.0, 1.0, 0.0)], [1.0], []);
    var r := Step(s, st, 0.0, 1.0, 1);
    MidpointStep(s, st, 0.0, 1.0, 1);
    var last := Cycles(s, st, 0.0, 1.0, 1, 1);
    assert r.fluid == [1.0] && MeanField(st.fluid, r.fluid) == [1.0];
    assert last.v[0] == Vec3(0.0, 1.0, 0.0);
    assert r.x[0] == Vec3(0.0, 1.0, 0.0);
    assert r.u[0] == Vec3(0.0, 1.0, 0.0);
    assert InterpAt(s, r.fluid, r.x, 1.0)[0] == Vec3(0.0, 2.0, 0.0);
  }

  // ------------------------------------------------------ the skipped force

  /** In the first of several trapezoidal cycles the force used is what recomputing and averaging would give. */
  ghost predicate SkippingIsHarmless(s: Setup, st: State, t0: real, t1: real, nc: nat)
    requires ValidSetup(s) && ValidState(s, st)
  {
    var c := Cycles(s, st, t0, t1, nc, 0);
    var recomputed := SpreadAt(s, ForceOf(s, c.x, c.v, t1), NewCoupling(s, st, c.x));
    TrapezoidalField(s, st, t0, t1, nc, 0, c) == MeanField(CurrentField(s, st, t0), recomputed)
  }

  /** The forces at the current positions and velocities do not depend on which end of the step they are taken at. */
  ghost predicate SteadyForce(s: Setup, st: State, t0: real, t1: real)
    requires ValidSetup(s)
  {
    ForceOf(s, st.x, st.u, t0) == ForceOf(s, st.x, st.u, t1)
  }

  /** Different nodal forces are spread differently. */
  ghost predicate SpreadsApart(s: Setup, x: Nodes)
    requires ValidSetup(s)
  {
    forall f: Nodes, g: Nodes :: |f| == |g| == s.nodes && SpreadAt(s, f, x) == SpreadAt(s, g, x) ==> f == g
  }

  /** Skipping the force in the first of several trapezoidal cycles is harmless if the force at the start of the
      step does not depend on time, and only then wherever different forces are spread differently. */
  lemma SkippedForce(s: Setup, st: State, t0: real, t1: real, nc: nat)
    requires ValidSetup(s) && ValidState(s, st) && s.scheme == TrapezoidalRule && nc > 1
    ensures SteadyForce(s, st, t0, t1) ==> SkippingIsHarmless(s, st, t0, t1, nc)
    ensures SpreadsApart(s, st.x) ==> (SkippingIsHarmless(s, st, t0, t1, nc) <==> SteadyForce(s, st, t0, t1))
    ensures SkippingIsHarmless(s, st, t0, t1, nc) <==>
            SpreadAt(s, ForceOf(s, st.x, st.u, t1), st.x) == CurrentField(s, st, t0)
  {
    MeanFieldSelf(CurrentField(s, st, t0), SpreadAt(s, ForceOf(s, st.x, st.u, t1), st.x));
  }

  ghost predicate TimeFree(env: Environment) {
    forall x, u, t, t' :: env.force(x, u, t) == env.force(x, u, t')
  }

  /** A force law without explicit time is steady in every step. */
  lemma SkippedForceTimeFree(s: Setup, st: State, t0: real, t1: real, nc: nat)
    requires ValidSetup(s) && ValidState(s, st) && s.scheme == TrapezoidalRule && nc > 1 && TimeFree(s.env)
    ensures SkippingIsHarmless(s, st, t0, t1, nc)
  {
    SkippedForce(s, st, t0, t1, nc);
    assert s.env.force(st.x, st.u, t0) == s.env.force(st.x, st.u, t1);
  }

  /** A structure of one node whose force grows with time. */
  function RampedForce(): Environment {
    Environment((x: Nodes, u: Nodes, t: real) => [Vec3(t, 0.0, 0.0)],
                (u: Field, x: Nodes, t: real) => [ZERO],
                (f: LData, x: LData) => [if |f.owned| == 1 then f.owned[0].x else 0.0],
                (x: Nodes, t: real) => [0.0],
                (h: seq<Input>) => [0.0])
  }

  /** A step in which skipping the force is not harmless. */
  lemma SkippingCanMatter()
    ensures var s := Setup(RampedForce(), 1, 1, [], false, TrapezoidalRule, 2, false);
            var st := State([ZERO], [ZERO], [0.0], []);
            && ValidSetup(s) && ValidState(s, st)
            && !SkippingIsHarmless(s, st, 0.0, 1.0, 2)
  {
    var s := Setup(RampedForce(), 1, 1, [], false, TrapezoidalRule, 2, false);
    var st := State([ZERO], [ZERO], [0.0], []);
    SkippedForce(s, st, 0.0, 1.0, 2);
    assert ForceOf(s, st.x, st.u, 1.0)[0].x == 1.0 && ForceOf(s, st.x, st.u, 0.0)[0].x == 0.0;
    assert SpreadAt(s, ForceOf(s, st.x, st.u, 1.0), st.x)[0] == 1.0 && CurrentField(s, st, 0.0)[0] == 0.0;
  }

  // ---------------------------------------------------------- anchored nodes

  ghost predicate StillAt(v: Nodes, anchors: seq<nat>) {
    forall i :: 0 <= i < |v| && i in anchors ==> v[i] == ZERO
  }

  ghost predicate PinnedAt(x: Nodes, x0: Nodes, anchors: seq<nat>) {
    |x| == |x0| && forall i :: 0 <= i < |x| && i in anchors ==> x[i] == x0[i]
  }

  lemma StillMoves(dt: real, v: Nodes, x: Nodes, x0: Nodes, anchors: seq<nat>)
    requires |v| == |x| && StillAt(v, anchors) && PinnedAt(x, x0, anchors)
    ensures PinnedAt(Waxpy(dt, v, x), x0, anchors)
  {
    forall i | 0 <= i < |x| && i in anchors ensures Waxpy(dt, v, x)[i] == x0[i] {
      assert Scale(dt, ZERO) == ZERO;
      assert Add(ZERO, x[i]) == x[i];
    }
  }

  ghost predicate AtRest(s: Setup, st: State, c: Cycle) {
    PinnedAt(c.x, st.x, s.anchors) && StillAt(c.v, s.anchors) && StillAt(c.force, s.anchors)
  }

  lemma MidpointCycleRests(s: Setup, st: State, t0: real, t1: real, nc: nat, k: nat, c: Cycle)
    requires ValidSetup(s) && ValidState(s, st) && ValidCycle(s, c) && StillAt(st.u, s.anchors)
    ensures AtRest(s, st, MidpointCycle(s, st, t0, t1, nc, k, c))
  {
    var r := MidpointCycle(s, st, t0, t1, nc, k, c);
    assert StillAt(r.v, s.anchors);
    StillMoves(t1 - t0, if Predicts(nc, k) then st.u else r.v, st.x, st.x, s.anchors);
  }

  lemma TrapezoidalCycleRests(s: Setup, st: State, t0: real, t1: real, nc: nat, k: nat, c: Cycle)
    requires ValidSetup(s) && ValidState(s, st) && ValidCycle(s, c) && StillAt(st.u, s.anchors) && AtRest(s, st, c)
    ensures AtRest(s, st, TrapezoidalCycle(s, st, t0, t1, nc, k, c))
  {
    var r, h := TrapezoidalCycle(s, st, t0, t1, nc, k, c), 0.5 * (t1 - t0);
    assert StillAt(r.v, s.anchors);
    StillMoves(t1 - t0, st.u, st.x, st.x, s.anchors);
    StillMoves(h, st.u, st.x, st.x, s.anchors);
    StillMoves(h, r.v, Waxpy(h, st.u, st.x), st.x, s.anchors);
  }

  lemma NextCycleRests(s: Setup, st: State, t0: real, t1: real, nc: nat, k: nat, c: Cycle)
    requires ValidSetup(s) && ValidState(s, st) && ValidCycle(s, c) && StillAt(st.u, s.anchors) && AtRest(s, st, c)
    ensures AtRest(s, st, NextCycle(s, st, t0, t1, nc, k, c))
  {
    match s.scheme
    case MidpointRule => MidpointCycleRests(s, st, t0, t1, nc, k, c);
    case TrapezoidalRule => TrapezoidalCycleRests(s, st, t0, t1, nc, k, c);
  }

  /** In every cycle anchored nodes are at rest, unmoved, and spread no force. */
  lemma {:induction false} AnchoredCycles(s: Setup, st: State, t0: real, t1: real, nc: nat, k: nat, c: Cycle)
    requires ValidSetup(s) && ValidState(s, st) && StillAt(st.u, s.anchors) && c == Cycles(s, st, t0, t1, nc, k)
    ensures AtRest(s, st, c)
    decreases k
  {
    if k == 0 {
      StillMoves(t1 - t0, st.u, st.x, st.x, s.anchors);
    } else {
      var before := Cycles(s, st, t0, t1, nc, k - 1);
      AnchoredCycles(s, st, t0, t1, nc, k - 1, before);
      NextCycleRests(s, st, t0, t1, nc, k - 1, before);
    }
  }

  datatype Interval = Interval(t0: real, t1: real, cycles: nat)

  ghost function Run(s: Setup, st: State, steps: seq<Interval>): (r: State)
    requires ValidSetup(s) && ValidState(s, st)
    ensures ValidState(s, r)
  {
    if steps == [] then st
    else
      var last := steps[|steps| - 1];
      Step(s, Run(s, st, steps[..|steps| - 1]), last.t0, last.t1, last.cycles)
  }

  /** Over any run of steps, each of any number of cycles, anchored nodes that start at rest stay
      where they are and at rest. */
  lemma {:induction false} AnchoredRun(s: Setup, st: State, steps: seq<Interval>)
    requires ValidSetup(s) && ValidState(s, st) && StillAt(st.u, s.anchors)
    ensures var r := Run(s, st, steps); PinnedAt(r.x, st.x, s.anchors) && StillAt(r.u, s.anchors)
  {
    if steps != [] {
      var last := steps[|steps| - 1];
      AnchoredRun(s, st, steps[..|steps| - 1]);
      AnchoredCycles(s, Run(s, st, steps[..|steps| - 1]), last.t0, last.t1, last.cycles, last.cycles,
                     Cycles(s, Run(s, st, steps[..|steps| - 1]), last.t0, last.t1, last.cycles, last.cycles));
    }
  }
}
