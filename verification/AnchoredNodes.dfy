/** Anchored nodes inside a step: whatever the driver asks for at any of the three times, their positions are
    those of the start of the step and their velocities are zero. */
module AnchoredNodes {
  import opened LagrangianData
  import opened IBMethods
  import opened TimeStepping
  import opened EagerPositions
  import opened IBExplicitIntegrator

  /** Everything positions and velocities are read from has the anchored nodes at rest at `x0`. */
  ghost predicate Rests(s: Snapshot, x0: Nodes, anchors: seq<nat>) {
    && PinnedAt(s.x, x0, anchors) && PinnedAt(s.xNew, x0, anchors)
    && StillAt(s.u, anchors) && StillAt(s.uNew, anchors)
    && (s.uHalf.Some? ==> StillAt(s.uHalf.value, anchors))
  }

  lemma MeanStill(a: Nodes, b: Nodes, anchors: seq<nat>)
    requires |a| == |b| && StillAt(a, anchors) && StillAt(b, anchors)
    ensures StillAt(Mean(a, b), anchors)
  {
    forall i | 0 <= i < |a| && i in anchors
      ensures Mean(a, b)[i] == Mean(a, a)[i]
    {
    }
    MeanSelf(a);
  }

  lemma MeanPinned(a: Nodes, b: Nodes, x0: Nodes, anchors: seq<nat>)
    requires |a| == |b| && PinnedAt(a, x0, anchors) && PinnedAt(b, x0, anchors)
    ensures PinnedAt(Mean(a, b), x0, anchors)
  {
    forall i | 0 <= i < |a| && i in anchors
      ensures Mean(a, b)[i] == Mean(a, a)[i]
    {
    }
    MeanSelf(a);
  }

  /** What is read at any of the three times of a step. */
  lemma ReadsAtRest(s: Snapshot, n: nat, x0: Nodes, anchors: seq<nat>, t: real)
    requires WellFormed(s, n) && StepTime(s, t) && Rests(s, x0, anchors)
    ensures StillAt(Velocity(s, n, t), anchors) && PinnedAt(Position(s, n, t), x0, anchors)
  {
    MeanStill(s.u, s.uNew, anchors);
    MeanPinned(s.x, s.xNew, x0, anchors);
  }

  /** Only velocities that are zero at the anchors are ever stored: interpolation resets them there. */
  ghost predicate AnchoredMove(m: Move, anchors: seq<nat>) {
    match m
    case InterpolateHalf(v) => StillAt(v, anchors)
    case InterpolateNew(v) => StillAt(v, anchors)
    case _ => true
  }

  lemma EulerRests(s: Snapshot, n: nat, x0: Nodes, anchors: seq<nat>)
    requires WellFormed(s, n) && Rests(s, x0, anchors)
    ensures Rests(EulerStepped(s, n), x0, anchors)
  {
    StillMoves(s.t1 - s.t0, s.u, s.x, x0, anchors);
  }

  lemma MidpointRests(s: Snapshot, n: nat, x0: Nodes, anchors: seq<nat>)
    requires WellFormed(s, n) && Rests(s, x0, anchors)
    ensures Rests(MidpointStepped(s, n), x0, anchors)
  {
    ReadsAtRest(s, n, x0, anchors, HalfTime(s.t0, s.t1));
    StillMoves(s.t1 - s.t0, Velocity(s, n, HalfTime(s.t0, s.t1)), s.x, x0, anchors);
  }

  lemma TrapezoidalRests(s: Snapshot, n: nat, x0: Nodes, anchors: seq<nat>)
    requires WellFormed(s, n) && Rests(s, x0, anchors)
    ensures Rests(TrapezoidalStepped(s, n), x0, anchors)
  {
    var h := 0.5 * (s.t1 - s.t0);
    StillMoves(h, s.u, s.x, x0, anchors);
    StillMoves(h, s.uNew, Waxpy(h, s.u, s.x), x0, anchors);
  }

  lemma VelocityRests(s: Snapshot, n: nat, x0: Nodes, anchors: seq<nat>, t: real, v: Nodes)
    requires WellFormed(s, n) && Rests(s, x0, anchors) && StepTime(s, t) && |v| == n && StillAt(v, anchors)
    ensures Rests(WithVelocity(s, t, v), x0, anchors)
  {
  }

  lemma MoveRests(s: Snapshot, n: nat, x0: Nodes, anchors: seq<nat>, m: Move)
    requires WellFormed(s, n) && SizedMove(m, n) && Rests(s, x0, anchors) && AnchoredMove(m, anchors)
    ensures Rests(Lazy(s, n, m), x0, anchors)
  {
    match m
    case Euler => EulerRests(s, n, x0, anchors);
    case Midpoint => MidpointRests(s, n, x0, anchors);
    case Trapezoidal => TrapezoidalRests(s, n, x0, anchors);
    case InterpolateHalf(v) => VelocityRests(s, n, x0, anchors, HalfTime(s.t0, s.t1), v);
    case InterpolateNew(v) => VelocityRests(s, n, x0, anchors, s.t1, v);
    case UpdateFixed =>
  }

  lemma {:induction false} RunRests(s: Snapshot, n: nat, x0: Nodes, anchors: seq<nat>, moves: seq<Move>)
    requires WellFormed(s, n) && Sized(moves, n) && Rests(s, x0, anchors)
    requires forall k :: 0 <= k < |moves| ==> AnchoredMove(moves[k], anchors)
    ensures Rests(LazyRun(s, n, moves), x0, anchors)
  {
    if moves != [] {
      var rest := moves[..|moves| - 1];
      RunRests(s, n, x0, anchors, rest);
      MoveRests(LazyRun(s, n, rest), n, x0, anchors, moves[|moves| - 1]);
    }
  }

  /** In every state that any moves lead to from the start of a step, and at each of its three times, anchored
      nodes that start at rest are read at rest and where they were. */
  lemma AnchoredReads(s: Snapshot, n: nat, fixed: bool, t0: real, t1: real, x: Nodes, u: Nodes, f: Nodes,
                      anchors: seq<nat>, moves: seq<Move>, t: real)
    requires t0 < t1 && |x| == |u| == |f| == n && s == Started(fixed, t0, t1, x, u, f) && WellFormed(s, n)
    requires StillAt(u, anchors) && Sized(moves, n) && StepTime(s, t)
    requires forall k :: 0 <= k < |moves| ==> AnchoredMove(moves[k], anchors)
    ensures StillAt(Velocity(LazyRun(s, n, moves), n, t), anchors)
    ensures PinnedAt(Position(LazyRun(s, n, moves), n, t), x, anchors)
  {
    RunRests(s, n, x, anchors, moves);
    ReadsAtRest(LazyRun(s, n, moves), n, x, anchors, t);
  }

  // -------------------------------------------------------------- the driver

  /** Between two cycles of the driver. */
  lemma CycleRests(p: Setup, s: Snapshot, st: State, t0: real, t1: real, nc: nat, k: nat, c: Cycle)
    requires ValidSetup(p) && ValidState(p, st) && WellFormed(s, p.nodes) && c == Cycles(p, st, t0, t1, nc, k)
    requires Agrees(p, s, st, t0, t1, nc, k, c) && StillAt(st.u, p.anchors)
    ensures Rests(s, st.x, p.anchors)
  {
    AnchoredCycles(p, st, t0, t1, nc, k, c);
  }

  /** Inside a cycle: `forced` is the state after the force, `felt` the one after the interpolation at time `at`,
      before the structure moves. All of them are read at rest at each of the three times. */
  lemma DriverReads(p: Setup, s: Snapshot, st: State, t0: real, t1: real, nc: nat, k: nat, c: Cycle, forced: Snapshot,
                    felt: Snapshot, u: Field, at: real, t: real)
    requires ValidSetup(p) && ValidState(p, st) && WellFormed(s, p.nodes) && c == Cycles(p, st, t0, t1, nc, k)
    requires Agrees(p, s, st, t0, t1, nc, k, c) && StillAt(st.u, p.anchors) && StepTime(s, at) && StepTime(s, t)
    requires forced == Forced(p, s, st, t0, t1, nc, k, c) && WellFormed(forced, p.nodes)
    requires felt == WithVelocity(forced, at, Anchored(p.env.interp(u, Coupling(forced, p.nodes, at), at), p.anchors))
    requires WellFormed(felt, p.nodes)
    ensures StillAt(Velocity(s, p.nodes, t), p.anchors)
    ensures StillAt(Velocity(forced, p.nodes, t), p.anchors)
    ensures StillAt(Velocity(felt, p.nodes, t), p.anchors)
  {
    CycleRests(p, s, st, t0, t1, nc, k, c);
    ForcedRests(p, s, st, t0, t1, nc, k, c);
    VelocityRests(forced, p.nodes, st.x, p.anchors, at,
                  Anchored(p.env.interp(u, Coupling(forced, p.nodes, at), at), p.anchors));
    ReadsAtRest(s, p.nodes, st.x, p.anchors, t);
    ReadsAtRest(forced, p.nodes, st.x, p.anchors, t);
    ReadsAtRest(felt, p.nodes, st.x, p.anchors, t);
  }

  lemma ForcedRests(p: Setup, s: Snapshot, st: State, t0: real, t1: real, nc: nat, k: nat, c: Cycle)
    requires ValidSetup(p) && ValidState(p, st) && ValidCycle(p, c) && Rests(s, st.x, p.anchors)
    ensures Rests(Forced(p, s, st, t0, t1, nc, k, c), st.x, p.anchors)
    ensures Forced(p, s, st, t0, t1, nc, k, c).t0 == s.t0 && Forced(p, s, st, t0, t1, nc, k, c).t1 == s.t1
  {
  }
}
