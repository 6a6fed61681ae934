/** The finite-element method (IBFEMethod) updates its half-time positions after every step, where
    IBMethod averages them when asked. Both are compared over any sequence of moves of one step. */
module EagerPositions {
  import opened Options
  import opened Vectors
  import opened LagrangianData
  import opened IBMethods

  /** One part of the finite-element structure; a constrained part moves with its body velocity `uB`. */
  datatype Part = Part(x: Nodes, u: Nodes, xNew: Nodes, uNew: Nodes, xHalf: Nodes, uHalf: Nodes, constrained: bool,
                       uB: Nodes)

  ghost predicate ValidPart(p: Part) {
    && |p.x| == |p.u| == |p.xNew| == |p.uNew| == |p.uHalf| == |p.uB|
    && p.xHalf == Mean(p.x, p.xNew)
  }

  function EagerStep(p: Part, xNew: Nodes): Part
    requires |xNew| == |p.x|
  {
    p.(xNew := xNew, xHalf := Mean(p.x, xNew))
  }

  function EagerEuler(p: Part, dt: real): Part
    requires |p.u| == |p.x| == |p.uB|
  {
    EagerStep(p, Waxpy(dt, if p.constrained then p.uB else p.u, p.x))
  }

  function EagerMidpoint(p: Part, dt: real): Part
    requires |p.uHalf| == |p.x| == |p.uB|
  {
    EagerStep(p, Waxpy(dt, if p.constrained then p.uB else p.uHalf, p.x))
  }

  function EagerTrapezoidal(p: Part, dt: real): Part
    requires |p.u| == |p.uNew| == |p.x| == |p.uB|
  {
    EagerStep(p, Waxpy(0.5 * dt, if p.constrained then p.uB else p.uNew,
                       Waxpy(0.5 * dt, if p.constrained then p.uB else p.u, p.x)))
  }

  class IBFEMethod {
    var parts: seq<Part>

    ghost predicate Valid()
      reads this
    {
      forall k :: 0 <= k < |parts| ==> ValidPart(parts[k])
    }

    /** Half-time and new data start as copies of the current data. */
    constructor (x: seq<Nodes>, u: seq<Nodes>, constrained: seq<bool>, uB: seq<Nodes>)
      requires |x| == |u| == |constrained| == |uB| && forall k :: 0 <= k < |x| ==> |x[k]| == |u[k]| == |uB[k]|
      ensures Valid() && |parts| == |x|
      ensures forall k :: 0 <= k < |x| ==> parts[k] == Part(x[k], u[k], x[k], u[k], x[k], u[k], constrained[k], uB[k])
    {
      parts := seq(|x|, k requires 0 <= k < |x| => Part(x[k], u[k], x[k], u[k], x[k], u[k], constrained[k], uB[k]));
      new;
      forall k | 0 <= k < |x| ensures ValidPart(parts[k]) {
        MeanSelf(x[k]);
      }
    }

    method EulerStep(t0: real, t1: real)
      requires Valid()
      modifies this
      ensures Valid() && |parts| == |old(parts)|
      ensures forall k :: 0 <= k < |parts| ==> parts[k] == EagerEuler(old(parts)[k], t1 - t0)
    {
      var dt := t1 - t0;
      for k := 0 to |parts|
        invariant Valid() && |parts| == |old(parts)|
        invariant forall j :: 0 <= j < k ==> parts[j] == EagerEuler(old(parts)[j], dt)
        invariant forall j :: k <= j < |parts| ==> parts[j] == old(parts)[j]
      {
        var p := parts[k];
        p := p.(xNew := Waxpy(dt, if p.constrained then p.uB else p.u, p.x));
        p := p.(xHalf := Mean(p.x, p.xNew));
        parts := parts[k := p];
      }
    }

    method MidpointStep(t0: real, t1: real)
      requires Valid()
      modifies this
      ensures Valid() && |parts| == |old(parts)|
      ensures forall k :: 0 <= k < |parts| ==> parts[k] == EagerMidpoint(old(parts)[k], t1 - t0)
    {
      var dt := t1 - t0;
      for k := 0 to |parts|
        invariant Valid() && |parts| == |old(parts)|
        invariant forall j :: 0 <= j < k ==> parts[j] == EagerMidpoint(old(parts)[j], dt)
        invariant forall j :: k <= j < |parts| ==> parts[j] == old(parts)[j]
      {
        var p := parts[k];
        p := p.(xNew := Waxpy(dt, if p.constrained then p.uB else p.uHalf, p.x));
        p := p.(xHalf := Mean(p.x, p.xNew));
        parts := parts[k := p];
      }
    }

    method TrapezoidalStep(t0: real, t1: real)
      requires Valid()
      modifies this
      ensures Valid() && |parts| == |old(parts)|
      ensures forall k :: 0 <= k < |parts| ==> parts[k] == EagerTrapezoidal(old(parts)[k], t1 - t0)
    {
      var dt := t1 - t0;
      for k := 0 to |parts|
        invariant Valid() && |parts| == |old(parts)|
        invariant forall j :: 0 <= j < k ==> parts[j] == EagerTrapezoidal(old(parts)[j], dt)
        invariant forall j :: k <= j < |parts| ==> parts[j] == old(parts)[j]
      {
        var p := parts[k];
        p := p.(xNew := Waxpy(0.5 * dt, if p.constrained then p.uB else p.u, p.x));
        p := p.(xNew := Waxpy(0.5 * dt, if p.constrained then p.uB else p.uNew, p.xNew));
        p := p.(xHalf := Mean(p.x, p.xNew));
        parts := parts[k := p];
      }
    }
  }

  /** What may happen to positions and velocities between the start and the end of a step. */
  datatype Move = Euler | Midpoint | Trapezoidal | InterpolateHalf(v: Nodes) | InterpolateNew(v: Nodes) | UpdateFixed

  ghost predicate SizedMove(m: Move, n: nat) {
    match m
    case InterpolateHalf(v) => |v| == n
    case InterpolateNew(v) => |v| == n
    case _ => true
  }

  ghost predicate Sized(moves: seq<Move>, n: nat) {
    forall k :: 0 <= k < |moves| ==> SizedMove(moves[k], n)
  }

  ghost function Lazy(s: Snapshot, n: nat, m: Move): (r: Snapshot)
    requires WellFormed(s, n) && SizedMove(m, n)
    ensures WellFormed(r, n) && r.t0 == s.t0 && r.t1 == s.t1 && r.x == s.x && r.u == s.u && r.fixed == s.fixed
  {
    TimesDistinct(s.t0, s.t1);
    match m
    case Euler => EulerStepped(s, n)
    case Midpoint => MidpointStepped(s, n)
    case Trapezoidal => TrapezoidalStepped(s, n)
    case InterpolateHalf(v) => WithVelocity(s, HalfTime(s.t0, s.t1), v)
    case InterpolateNew(v) => WithVelocity(s, s.t1, v)
    case UpdateFixed => if s.fixed then s.(xLE := Some(s.xNew)) else s
  }

  ghost function LazyRun(s: Snapshot, n: nat, moves: seq<Move>): (r: Snapshot)
    requires WellFormed(s, n) && Sized(moves, n)
    ensures WellFormed(r, n) && r.t0 == s.t0 && r.t1 == s.t1 && r.x == s.x && r.u == s.u && r.fixed == s.fixed
  {
    if moves == [] then s else Lazy(LazyRun(s, n, moves[..|moves| - 1]), n, moves[|moves| - 1])
  }

  ghost function Eager(p: Part, dt: real, m: Move): (r: Part)
    requires ValidPart(p) && SizedMove(m, |p.x|)
    ensures ValidPart(r) && r.x == p.x && r.u == p.u && r.constrained == p.constrained
  {
    match m
    case Euler => EagerEuler(p, dt)
    case Midpoint => EagerMidpoint(p, dt)
    case Trapezoidal => EagerTrapezoidal(p, dt)
    case InterpolateHalf(v) => p.(uHalf := v)
    case InterpolateNew(v) => p.(uNew := v)
    case UpdateFixed => p
  }

  ghost function EagerRun(p: Part, dt: real, moves: seq<Move>): (r: Part)
    requires ValidPart(p) && Sized(moves, |p.x|)
    ensures ValidPart(r) && r.x == p.x && r.u == p.u && r.constrained == p.constrained
  {
    if moves == [] then p else Eager(EagerRun(p, dt, moves[..|moves| - 1]), dt, moves[|moves| - 1])
  }

  /** The two drivers' kinds of step: one never interpolates at the new time before its last move,
      the other never asks for the half-time velocity. */
  ghost predicate OneRule(moves: seq<Move>, midpointRule: bool) {
    forall k :: 0 <= k < |moves| ==> if midpointRule then !moves[k].InterpolateNew? else !moves[k].Midpoint?
  }

  function StartPart(x: Nodes, u: Nodes): Part {
    Part(x, u, x, u, x, u, false, u)
  }

  /** Both methods see the same data; under the midpoint rule their half-time velocities agree too. */
  ghost predicate Same(s: Snapshot, p: Part, n: nat, midpointRule: bool)
    requires WellFormed(s, n)
  {
    TimesDistinct(s.t0, s.t1);
    && ValidPart(p) && !p.constrained
    && s.x == p.x && s.u == p.u && s.xNew == p.xNew && s.uNew == p.uNew
    && (midpointRule ==> Velocity(s, n, HalfTime(s.t0, s.t1)) == p.uHalf)
  }

  lemma MoveAgrees(s: Snapshot, p: Part, n: nat, m: Move, midpointRule: bool)
    requires WellFormed(s, n) && SizedMove(m, n) && Same(s, p, n, midpointRule)
    requires if midpointRule then !m.InterpolateNew? else !m.Midpoint?
    ensures Same(Lazy(s, n, m), Eager(p, s.t1 - s.t0, m), n, midpointRule)
  {
    TimesDistinct(s.t0, s.t1);
  }

  lemma {:induction false} RunsAgree(s: Snapshot, p: Part, n: nat, moves: seq<Move>, midpointRule: bool)
    requires WellFormed(s, n) && Sized(moves, n) && Same(s, p, n, midpointRule)
    requires OneRule(moves, midpointRule)
    ensures Same(LazyRun(s, n, moves), EagerRun(p, s.t1 - s.t0, moves), n, midpointRule)
  {
    if moves != [] {
      var rest := moves[..|moves| - 1];
      RunsAgree(s, p, n, rest, midpointRule);
      MoveAgrees(LazyRun(s, n, rest), EagerRun(p, s.t1 - s.t0, rest), n, moves[|moves| - 1], midpointRule);
    }
  }

  lemma StartsSame(s: Snapshot, n: nat, fixed: bool, t0: real, t1: real, x: Nodes, u: Nodes, f: Nodes,
                   midpointRule: bool)
    requires t0 < t1 && |x| == |u| == |f| == n && s == Started(fixed, t0, t1, x, u, f)
    ensures WellFormed(s, n) && Same(s, StartPart(x, u), n, midpointRule)
  {
    MeanSelf(x);
    MeanSelf(u);
    TimesDistinct(t0, t1);
  }

  lemma ReadSame(s: Snapshot, p: Part, n: nat, midpointRule: bool)
    requires WellFormed(s, n) && Same(s, p, n, midpointRule)
    ensures StepTime(s, HalfTime(s.t0, s.t1)) && Position(s, n, HalfTime(s.t0, s.t1)) == p.xHalf
  {
    TimesDistinct(s.t0, s.t1);
  }

  /** After any moves of either rule, lazy and eager half-time positions agree, and so does all either rule reads. */
  lemma LazyIsEager(s: Snapshot, n: nat, fixed: bool, t0: real, t1: real, x: Nodes, u: Nodes, f: Nodes,
                    moves: seq<Move>, midpointRule: bool)
    requires t0 < t1 && |x| == |u| == |f| == n && s == Started(fixed, t0, t1, x, u, f) && WellFormed(s, n)
    requires ValidPart(StartPart(x, u))
    requires Sized(moves, n) && OneRule(moves, midpointRule)
    ensures var r, p := LazyRun(s, n, moves), EagerRun(StartPart(x, u), t1 - t0, moves);
            && Position(r, n, HalfTime(t0, t1)) == p.xHalf
            && r.xNew == p.xNew && r.uNew == p.uNew
            && (midpointRule ==> Velocity(r, n, HalfTime(t0, t1)) == p.uHalf)
  {
    StartsSame(s, n, fixed, t0, t1, x, u, f, midpointRule);
    RunsAgree(s, StartPart(x, u), n, moves, midpointRule);
    ReadSame(LazyRun(s, n, moves), EagerRun(StartPart(x, u), t1 - t0, moves), n, midpointRule);
  }

  /** Mixing the rules can separate the two methods. An interpolation at the new time puts IBMethod's half-time
      velocity back to the average, while IBFEMethod keeps the one interpolated last: a midpoint step then moves
      the structure alike exactly when the two are equal. */
  lemma MixedRules(s: Snapshot, p: Part, v: Nodes, n: nat, a: Nodes, b: Nodes)
    requires WellFormed(s, n) && |v| == n && Same(s, p, n, false)
    requires a == Lazy(Lazy(s, n, InterpolateNew(v)), n, Midpoint).xNew
    requires b == Eager(Eager(p, s.t1 - s.t0, InterpolateNew(v)), s.t1 - s.t0, Midpoint).xNew
    ensures a == b <==> Mean(s.u, v) == p.uHalf
  {
    LazyMixed(s, v, n);
    EagerMixed(p, s.t1 - s.t0, v);
    DisplacedAlike(s.t1 - s.t0, Mean(s.u, v), p.uHalf, s.x, a, b);
  }

  lemma LazyMixed(s: Snapshot, v: Nodes, n: nat)
    requires WellFormed(s, n) && |v| == n
    ensures Lazy(Lazy(s, n, InterpolateNew(v)), n, Midpoint).xNew == Waxpy(s.t1 - s.t0, Mean(s.u, v), s.x)
  {
    TimesDistinct(s.t0, s.t1);
  }

  lemma EagerMixed(p: Part, dt: real, v: Nodes)
    requires ValidPart(p) && |v| == |p.x| && !p.constrained
    ensures Eager(Eager(p, dt, InterpolateNew(v)), dt, Midpoint).xNew == Waxpy(dt, p.uHalf, p.x)
  {
  }

  lemma DisplacedAlike(dt: real, u: Nodes, v: Nodes, x: Nodes, a: Nodes, b: Nodes)
    requires dt > 0.0 && |u| == |v| == |x| && a == Waxpy(dt, u, x) && b == Waxpy(dt, v, x)
    ensures a == b <==> u == v
  {
    if a == b {
      forall i | 0 <= i < |u| ensures u[i] == v[i] {
        assert a[i] == Add(Scale(dt, u[i]), x[i]) && b[i] == Add(Scale(dt, v[i]), x[i]);
        SameFactor(dt, u[i].x, v[i].x, dt * u[i].x);
        SameFactor(dt, u[i].y, v[i].y, dt * u[i].y);
        SameFactor(dt, u[i].z, v[i].z, dt * u[i].z);
      }
    }
  }

  /** Two interpolations and a midpoint step, at the half time and then back to the old velocity at the new time. */
  function Detour(w: Nodes, u: Nodes): seq<Move> {
    [InterpolateHalf(w), InterpolateNew(u), Midpoint]
  }

  /** A step in which the methods part, although the velocity last interpolated is the old one: whenever the one
      interpolated at the half time was not. */
  lemma DetourSeparates(s: Snapshot, n: nat, fixed: bool, t0: real, t1: real, x: Nodes, u: Nodes, f: Nodes, w: Nodes)
    requires t0 < t1 && |x| == |u| == |f| == |w| == n && s == Started(fixed, t0, t1, x, u, f) && WellFormed(s, n)
    requires ValidPart(StartPart(x, u)) && Sized(Detour(w, u), n)
    ensures LazyRun(s, n, Detour(w, u)).xNew == EagerRun(StartPart(x, u), t1 - t0, Detour(w, u)).xNew <==> w == u
  {
    var p := StartPart(x, u);
    StartsSame(s, n, fixed, t0, t1, x, u, f, false);
    var a, b := DetourRuns(s, p, n, t1 - t0, u, w, Detour(w, u), InterpolateHalf(w), InterpolateNew(u), Midpoint);
  }

  lemma DetourRuns(s: Snapshot, p: Part, n: nat, dt: real, u: Nodes, w: Nodes, moves: seq<Move>, m0: Move, m1: Move,
                   m2: Move) returns (a: Nodes, b: Nodes)
    requires WellFormed(s, n) && Same(s, p, n, false) && s.u == u && |u| == |w| == |p.x| == n && dt == s.t1 - s.t0
    requires Sized(moves, n) && moves == [m0, m1, m2]
    requires m0 == InterpolateHalf(w) && m1 == InterpolateNew(u) && m2 == Midpoint
    ensures a == LazyRun(s, n, moves).xNew && b == EagerRun(p, dt, moves).xNew
    ensures a == b <==> w == u
  {
    RunOfThree(s, p, n, dt, moves, m0, m1, m2);
    var r, q := AfterHalf(s, p, n, dt, w);
    a, b := DetourFrom(r, q, n, u, w);
  }

  lemma AfterHalf(s: Snapshot, p: Part, n: nat, dt: real, w: Nodes) returns (r: Snapshot, q: Part)
    requires WellFormed(s, n) && Same(s, p, n, false) && |w| == |p.x| == n && dt == s.t1 - s.t0
    ensures r == Lazy(s, n, InterpolateHalf(w)) && q == Eager(p, dt, InterpolateHalf(w))
    ensures WellFormed(r, n) && Same(r, q, n, false)
    ensures r.u == s.u && r.t0 == s.t0 && r.t1 == s.t1 && q.uHalf == w
  {
    r, q := Lazy(s, n, InterpolateHalf(w)), Eager(p, dt, InterpolateHalf(w));
    MoveAgrees(s, p, n, InterpolateHalf(w), false);
  }

  lemma DetourFrom(s: Snapshot, p: Part, n: nat, u: Nodes, w: Nodes) returns (a: Nodes, b: Nodes)
    requires WellFormed(s, n) && Same(s, p, n, false) && s.u == u && p.uHalf == w && |u| == |w| == n
    ensures a == Lazy(Lazy(s, n, InterpolateNew(u)), n, Midpoint).xNew
    ensures b == Eager(Eager(p, s.t1 - s.t0, InterpolateNew(u)), s.t1 - s.t0, Midpoint).xNew
    ensures a == b <==> w == u
  {
    a := Lazy(Lazy(s, n, InterpolateNew(u)), n, Midpoint).xNew;
    b := Eager(Eager(p, s.t1 - s.t0, InterpolateNew(u)), s.t1 - s.t0, Midpoint).xNew;
    MeanSelf(u);
    MixedRules(s, p, u, n, a, b);
  }

  lemma RunOfThree(s: Snapshot, p: Part, n: nat, dt: real, moves: seq<Move>, m0: Move, m1: Move, m2: Move)
    requires WellFormed(s, n) && ValidPart(p) && |p.x| == n && Sized(moves, n) && moves == [m0, m1, m2]
    requires SizedMove(m0, n) && SizedMove(m1, n) && SizedMove(m2, n)
    ensures LazyRun(s, n, moves) == Lazy(Lazy(Lazy(s, n, m0), n, m1), n, m2)
    ensures EagerRun(p, dt, moves) == Eager(Eager(Eager(p, dt, m0), dt, m1), dt, m2)
  {
    assert moves[..2] == [m0, m1] && [m0, m1][..1] == [m0] && [m0][..0] == [];
    assert LazyRun(s, n, [m0]) == Lazy(s, n, m0);
    assert LazyRun(s, n, [m0, m1]) == Lazy(LazyRun(s, n, [m0]), n, m1);
    assert EagerRun(p, dt, [m0]) == Eager(p, dt, m0);
    assert EagerRun(p, dt, [m0, m1]) == Eager(EagerRun(p, dt, [m0]), dt, m1);
  }

  lemma SameFactor(dt: real, m: real, u: real, p: real)
    requires dt > 0.0 && p == dt * m && p == dt * u
    ensures m == u
  {
    if m < u {
      ProductPositive(dt, u - m, dt * (u - m));
    } else if u < m {
      ProductPositive(dt, m - u, dt * (m - u));
    }
  }

  lemma KeepsUpdate(s: Snapshot, n: nat, m: Move)
    requires WellFormed(s, n) && SizedMove(m, n) && !m.UpdateFixed?
    ensures Lazy(s, n, m).xLE == s.xLE
  {
  }

  lemma {:induction false} UpdateKept(s: Snapshot, n: nat, before: seq<Move>, after: seq<Move>)
    requires WellFormed(s, n) && s.fixed && Sized(before, n) && Sized(after, n)
    requires forall k :: 0 <= k < |after| ==> !after[k].UpdateFixed?
    ensures Sized(before + [UpdateFixed] + after, n)
    ensures LazyRun(s, n, before + [UpdateFixed] + after).xLE == Some(LazyRun(s, n, before).xNew)
  {
    var all := before + [UpdateFixed] + after;
    if after == [] {
      assert all[..|all| - 1] == before;
    } else {
      assert all[..|all| - 1] == before + [UpdateFixed] + after[..|after| - 1];
      UpdateKept(s, n, before, after[..|after| - 1]);
      KeepsUpdate(LazyRun(s, n, all[..|all| - 1]), n, after[|after| - 1]);
    }
  }

  /** The positions of fixed coupling operators are those of the last update, whatever moves followed. */
  lemma FixedCouplingLags(s: Snapshot, n: nat, before: seq<Move>, after: seq<Move>)
    requires WellFormed(s, n) && s.fixed && Sized(before, n) && Sized(after, n)
    requires forall k :: 0 <= k < |after| ==> !after[k].UpdateFixed?
    ensures Sized(before + [UpdateFixed] + after, n)
    ensures var r := LazyRun(s, n, before + [UpdateFixed] + after);
            var at := LazyRun(s, n, before);
            && Coupling(r, n, s.t1) == at.xNew
            && Coupling(r, n, HalfTime(s.t0, s.t1)) == Mean(s.x, at.xNew)
            && Coupling(r, n, s.t0) == s.x
  {
    UpdateKept(s, n, before, after);
    TimesDistinct(s.t0, s.t1);
  }
}
