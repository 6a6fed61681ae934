/** The explicit driver (IBExplicitHierarchyIntegrator inside HierarchyIntegrator's advanceHierarchy):
    a run of its preprocess, cycles and postprocess computes exactly the textbook step. */
module IBExplicitIntegrator {
  import opened Options
  import opened LagrangianData
  import opened IBMethods
  import opened TimeStepping
  import opened StepEquations

  /** Patch data the driver allocates on every level for the length of a step. */
  datatype PatchData = U | F | FCurrent | P | Q | Scratch | NewData

  /** The observable data of the structure in a step, against the textbook cycle `c` reached after `k` of `nc`
      cycles. */
  ghost predicate Agrees(p: Setup, s: Snapshot, st: State, t0: real, t1: real, nc: nat, k: nat, c: Cycle) {
    && s.fixed == p.fixed && s.t0 == t0 && s.t1 == t1
    && s.x == st.x && s.u == st.u && s.xNew == c.x
    && s.xLE == (if s.fixed then Some(st.x) else None)
    && s.uNew == (if p.scheme == MidpointRule then st.u else c.v)
    && s.uHalf == (if p.scheme == MidpointRule && k > 0 then Some(c.v) else None)
    && (p.scheme == MidpointRule ==> s.fNew == None && (k > 0 ==> s.fHalf == Some(c.force)))
    && (p.scheme == TrapezoidalRule && (if nc == 1 then k > 0 else k > 1) ==> s.fNew == Some(c.force))
  }

  /** The snapshot after the force of a cycle has been computed. */
  ghost function Forced(p: Setup, s: Snapshot, st: State, t0: real, t1: real, nc: nat, k: nat, c: Cycle): Snapshot
    requires ValidSetup(p) && ValidState(p, st) && ValidCycle(p, c)
  {
    match p.scheme
    case MidpointRule => s.(fHalf := Some(ForceOf(p, Mean(st.x, c.x), c.v, HalfTime(t0, t1))))
    case TrapezoidalRule => if Predicts(nc, k) then s else s.(fNew := Some(TrapezoidalForce(p, st, t1, nc, k, c)))
  }

  ghost function CycleField(p: Setup, st: State, t0: real, t1: real, nc: nat, k: nat, c: Cycle): Field
    requires ValidSetup(p) && ValidState(p, st) && ValidCycle(p, c)
  {
    match p.scheme
    case MidpointRule => SpreadAt(p, ForceOf(p, Mean(st.x, c.x), c.v, HalfTime(t0, t1)), HalfCoupling(p, st, c))
    case TrapezoidalRule => TrapezoidalField(p, st, t0, t1, nc, k, c)
  }

  /** The snapshot after the velocity has been interpolated from the fluid and the structure moved. */
  ghost function MovedBy(p: Setup, s: Snapshot, fluid: Field, history: seq<Input>, nc: nat, k: nat): Snapshot
    requires ValidSetup(p) && WellFormed(s, p.nodes) && |fluid| == p.cells
  {
    TimesDistinct(s.t0, s.t1);
    var half := HalfTime(s.t0, s.t1);
    match p.scheme
    case MidpointRule =>
      var v := Anchored(p.env.interp(MeanField(fluid, p.env.velocity(history)), Coupling(s, p.nodes, half), half),
                        p.anchors);
      var i := WithVelocity(s, half, v);
      if Predicts(nc, k) then EulerStepped(i, p.nodes) else MidpointStepped(i, p.nodes)
    case TrapezoidalRule =>
      var v := Anchored(p.env.interp(p.env.velocity(history), Coupling(s, p.nodes, s.t1), s.t1), p.anchors);
      var i := WithVelocity(s, s.t1, v);
      if Predicts(nc, k) then EulerStepped(i, p.nodes) else TrapezoidalStepped(i, p.nodes)
  }

  ghost predicate Fed(p: Setup, st: State, t0: real, t1: real, nc: nat, k: nat, c: Cycle, history: seq<Input>)
    requires ValidSetup(p) && ValidState(p, st) && ValidCycle(p, c)
  {
    history == c.history + Inputs(CycleField(p, st, t0, t1, nc, k, c),
                                  SourceField(p, HalfCoupling(p, st, c), HalfTime(t0, t1)), p.insCycles, nc, k)
  }

  /** One cycle of the driver takes the structure to the next textbook cycle. */
  lemma CycleAgrees(p: Setup, s: Snapshot, st: State, t0: real, t1: real, nc: nat, k: nat, c: Cycle,
                    history: seq<Input>)
    requires ValidSetup(p) && ValidState(p, st) && ValidCycle(p, c) && WellFormed(s, p.nodes) && k < nc
    requires Agrees(p, s, st, t0, t1, nc, k, c) && Fed(p, st, t0, t1, nc, k, c, history)
    ensures var s1 := Forced(p, s, st, t0, t1, nc, k, c);
            && WellFormed(s1, p.nodes)
            && Agrees(p, MovedBy(p, s1, st.fluid, history, nc, k), st, t0, t1, nc, k + 1,
                      NextCycle(p, st, t0, t1, nc, k, c))
            && history == NextCycle(p, st, t0, t1, nc, k, c).history
  {
    if p.scheme == MidpointRule {
      MidpointAgrees(p, s, st, t0, t1, nc, k, c, history);
    } else {
      TrapezoidalAgrees(p, s, st, t0, t1, nc, k, c, history);
    }
  }

  lemma MidpointAgrees(p: Setup, s: Snapshot, st: State, t0: real, t1: real, nc: nat, k: nat, c: Cycle,
                       history: seq<Input>)
    requires ValidSetup(p) && ValidState(p, st) && ValidCycle(p, c) && WellFormed(s, p.nodes)
    requires p.scheme == MidpointRule
    requires Agrees(p, s, st, t0, t1, nc, k, c) && Fed(p, st, t0, t1, nc, k, c, history)
    ensures var s1 := Forced(p, s, st, t0, t1, nc, k, c);
            && WellFormed(s1, p.nodes)
            && Agrees(p, MovedBy(p, s1, st.fluid, history, nc, k), st, t0, t1, nc, k + 1,
                      MidpointCycle(p, st, t0, t1, nc, k, c))
            && history == MidpointCycle(p, st, t0, t1, nc, k, c).history
  {
    SourceCoupling(p, s, st, t0, t1, nc, k, c);
    TimesDistinct(t0, t1);
    var s1, half, r := Forced(p, s, st, t0, t1, nc, k, c), HalfTime(t0, t1), MidpointCycle(p, st, t0, t1, nc, k, c);
    var i := WithVelocity(s1, half, r.v);
    assert Velocity(i, p.nodes, half) == r.v;
  }

  /** What the trapezoidal rule interpolates in a cycle is the textbook velocity. */
  lemma TrapezoidalVelocity(p: Setup, s: Snapshot, st: State, t0: real, t1: real, nc: nat, k: nat, c: Cycle,
                            history: seq<Input>)
    requires ValidSetup(p) && ValidState(p, st) && ValidCycle(p, c) && WellFormed(s, p.nodes)
    requires p.scheme == TrapezoidalRule
    requires Agrees(p, s, st, t0, t1, nc, k, c) && Fed(p, st, t0, t1, nc, k, c, history)
    ensures var s1, r := Forced(p, s, st, t0, t1, nc, k, c), TrapezoidalCycle(p, st, t0, t1, nc, k, c);
            && WellFormed(s1, p.nodes) && StepTime(s1, t1) && history == r.history
            && Anchored(p.env.interp(p.env.velocity(history), Coupling(s1, p.nodes, t1), t1), p.anchors) == r.v
  {
    TimesDistinct(t0, t1);
    assert Coupling(Forced(p, s, st, t0, t1, nc, k, c), p.nodes, t1) == NewCoupling(p, st, c.x);
  }

  lemma TrapezoidalAgrees(p: Setup, s: Snapshot, st: State, t0: real, t1: real, nc: nat, k: nat, c: Cycle,
                          history: seq<Input>)
    requires ValidSetup(p) && ValidState(p, st) && ValidCycle(p, c) && WellFormed(s, p.nodes)
    requires p.scheme == TrapezoidalRule
    requires Agrees(p, s, st, t0, t1, nc, k, c) && Fed(p, st, t0, t1, nc, k, c, history)
    ensures var s1 := Forced(p, s, st, t0, t1, nc, k, c);
            && WellFormed(s1, p.nodes)
            && Agrees(p, MovedBy(p, s1, st.fluid, history, nc, k), st, t0, t1, nc, k + 1,
                      TrapezoidalCycle(p, st, t0, t1, nc, k, c))
            && history == TrapezoidalCycle(p, st, t0, t1, nc, k, c).history
  {
    TrapezoidalVelocity(p, s, st, t0, t1, nc, k, c, history);
    TimesDistinct(t0, t1);
    TrapezoidalMoved(p, s, Forced(p, s, st, t0, t1, nc, k, c), st, t0, t1, nc, k, c,
                     TrapezoidalCycle(p, st, t0, t1, nc, k, c), history);
  }

  lemma TrapezoidalMoved(p: Setup, s: Snapshot, s1: Snapshot, st: State, t0: real, t1: real, nc: nat, k: nat, c: Cycle,
                         r: Cycle, history: seq<Input>)
    requires ValidSetup(p) && ValidState(p, st) && ValidCycle(p, c) && WellFormed(s, p.nodes)
    requires p.scheme == TrapezoidalRule
    requires Agrees(p, s, st, t0, t1, nc, k, c) && WellFormed(s1, p.nodes) && StepTime(s1, t1)
    requires s1 == (if Predicts(nc, k) then s else s.(fNew := Some(r.force)))
    requires r == TrapezoidalCycle(p, st, t0, t1, nc, k, c)
    requires Anchored(p.env.interp(p.env.velocity(history), Coupling(s1, p.nodes, t1), t1), p.anchors) == r.v
    ensures Agrees(p, MovedBy(p, s1, st.fluid, history, nc, k), st, t0, t1, nc, k + 1, r)
  {
    TimesDistinct(t0, t1);
  }

  lemma SourceCoupling(p: Setup, s: Snapshot, st: State, t0: real, t1: real, nc: nat, k: nat, c: Cycle)
    requires ValidSetup(p) && ValidState(p, st) && ValidCycle(p, c) && WellFormed(s, p.nodes)
    requires Agrees(p, s, st, t0, t1, nc, k, c)
    ensures var s1 := Forced(p, s, st, t0, t1, nc, k, c);
            WellFormed(s1, p.nodes) && Coupling(s1, p.nodes, HalfTime(t0, t1)) == HalfCoupling(p, st, c)
  {
    TimesDistinct(t0, t1);
    MeanSelf(st.x);
  }

  lemma StepObeys(p: Setup, st: State, r: State, t0: real, t1: real, nc: nat) returns (records: seq<Record>)
    requires ValidSetup(p) && ValidState(p, st) && ValidState(p, r) && nc >= 1 && r == Step(p, st, t0, t1, nc)
    ensures MovedByRule(p, st, r, t0, t1, nc) && EquationsHold(p, st, t0, t1, nc, records, r)
    ensures records[nc - 1].force == Cycles(p, st, t0, t1, nc, nc).force
  {
    RuleOfStep(p, st, t0, t1, nc);
    records := StepSolves(p, st, t0, t1, nc);
  }

  class ExplicitIntegrator {
    const ib: IBMethod
    const scheme: Scheme
    const insCycles: nat
    const hasSources: bool
    const finestLevel: nat

    // The fluid solver: its current velocity and everything it has been given.
    var fluid: Field
    var history: seq<Input>

    // Eulerian data behind the patch-data indices.
    var u: Field
    var f: Field
    var fCurrent: Field
    var q: Field
    var patchData: set<(nat, PatchData)>

    var currentNumCycles: int
    var currentCycleNum: int

    constructor (ib: IBMethod, scheme: Scheme, insCycles: nat, hasSources: bool, finestLevel: nat, fluid: Field)
      requires ib.Valid() && |fluid| == ib.cells
      ensures Valid() && this.ib == ib && this.scheme == scheme && this.insCycles == insCycles
      ensures this.hasSources == hasSources
      ensures this.finestLevel == finestLevel && this.fluid == fluid && history == [] && patchData == {}
    {
      this.ib, this.scheme, this.insCycles, this.hasSources, this.finestLevel := ib, scheme, insCycles, hasSources,
        finestLevel;
      this.fluid, history, patchData := fluid, [], {};
      u, f, fCurrent, q := [], [], [], [];
      currentNumCycles, currentCycleNum := -1, -1;
    }

    ghost predicate Valid()
      reads this, ib
    {
      ib.Valid() && |fluid| == ib.cells
    }

    ghost function TheSetup(): Setup
    {
      Setup(ib.env, ib.nodes, ib.cells, ib.anchors, ib.useFixedCouplingOps, scheme, insCycles, hasSources)
    }

    ghost function Between(): (st: State)
      requires Valid()
      reads this, ib
      ensures ValidSetup(TheSetup()) && ValidState(TheSetup(), st)
    {
      State(ib.xCurrent.data.value.owned, ib.uCurrent, fluid, history)
    }

    predicate Uses(d: PatchData) {
      match d
      case FCurrent => scheme == TrapezoidalRule
      case P => hasSources
      case Q => hasSources
      case _ => true
    }

    /** The (level, index) pairs a step allocates on levels below `levels`. */
    ghost predicate Owns(ln: nat, d: PatchData, levels: nat) {
      ln < levels && Uses(d)
    }

    ghost predicate AllocatedOver(before: set<(nat, PatchData)>, levels: nat)
      reads this
    {
      forall ln: nat, d: PatchData :: (ln, d) in patchData <==> (ln, d) in before || Owns(ln, d, levels)
    }

    /** The state of a step in which `k` of `nc` cycles have led to the textbook cycle `c`. */
    ghost predicate AtCycle(st: State, t0: real, t1: real, nc: nat, k: nat, c: Cycle)
      requires Valid() && ib.InStep()
      reads this, ib
    {
      && ValidState(TheSetup(), st) && fluid == st.fluid && history == c.history
      && currentNumCycles == nc
      && (scheme == TrapezoidalRule ==> fCurrent == CurrentField(TheSetup(), st, t0) && (k == 0 ==> f == fCurrent))
      && Agrees(TheSetup(), ib.Now(), st, t0, t1, nc, k, c)
    }

    /** The indices allocated on one level. */
    function LevelData(ln: nat): (r: set<(nat, PatchData)>)
      ensures forall n: nat, d: PatchData :: (n, d) in r <==> n == ln && Uses(d)
    {
      var always := {(ln, U), (ln, F), (ln, Scratch), (ln, NewData)};
      var current := if scheme == TrapezoidalRule then {(ln, FCurrent)} else {};
      var sources := if hasSources then {(ln, P), (ln, Q)} else {};
      assert forall n: nat, d: PatchData :: (n, d) in always <==>
             n == ln && (d == U || d == F || d == Scratch || d == NewData);
      assert forall n: nat, d: PatchData :: (n, d) in current <==>
             n == ln && d == FCurrent && scheme == TrapezoidalRule;
      assert forall n: nat, d: PatchData :: (n, d) in sources <==> n == ln && (d == P || d == Q) && hasSources;
      always + current + sources
    }

    method AllocatePatchData()
      modifies this`patchData
      ensures AllocatedOver(old(patchData), finestLevel + 1)
    {
      for ln := 0 to finestLevel + 1
        invariant AllocatedOver(old(patchData), ln)
      {
        patchData := patchData + LevelData(ln);
      }
    }

    method DeallocatePatchData()
      modifies this`patchData
      ensures forall ln: nat, d: PatchData :: (ln, d) in patchData <==>
              (ln, d) in old(patchData) && !Owns(ln, d, finestLevel + 1)
    {
      for ln := 0 to finestLevel + 1
        invariant forall n: nat, d: PatchData :: (n, d) in patchData <==> (n, d) in old(patchData) && !Owns(n, d, ln)
      {
        patchData := patchData - LevelData(ln);
      }
    }

    /** Computes the structure's force at time `t` and spreads it onto a zeroed field. */
    method ForceToGrid(t: real)
      requires Valid() && ib.InStep() && StepTime(ib.Now(), t)
      modifies this`f, ib
      ensures Valid() && ib.InStep()
      ensures var s := old(ib.Now());
              var g := Anchored(ib.env.force(Position(s, ib.nodes, t), Velocity(s, ib.nodes, t), t), ib.anchors);
              && ib.Now() == WithForce(s, t, g)
              && f == ib.env.spread(Fresh(g), Fresh(Coupling(s, ib.nodes, t)))
    {
      ib.ComputeLagrangianForce(t);
      f := ZeroField(ib.cells);
      f := ib.SpreadForce(f, t);
      AddZeroField(f);
      ghost var s, n := old(ib.Now()), ib.nodes;
      ghost var g := Anchored(ib.env.force(Position(s, n, t), Velocity(s, n, t), t), ib.anchors);
      AddZeroField(ib.env.spread(Fresh(g), Fresh(Coupling(s, n, t))));
    }

    method StartCycles(t0: real, t1: real, nc: nat)
      requires Valid() && !ib.InStep() && t0 < t1 && nc >= 1
      modifies this`f, this`fCurrent, ib
      ensures Valid() && ib.InStep()
      ensures Agrees(TheSetup(), ib.Now(), old(Between()), t0, t1, nc, 0,
                     Initial(TheSetup(), old(Between()), t0, t1, nc))
      ensures scheme == TrapezoidalRule ==> f == fCurrent == CurrentField(TheSetup(), old(Between()), t0)
    {
      ib.PreprocessIntegrateData(t0, t1);
      if scheme == TrapezoidalRule {
        ForceToGrid(t0);
        fCurrent := f;
      }
      if nc == 1 {
        ib.EulerStep();
      }
    }

    /** False if the solver and the coupling disagree about the number of cycles, which the driver reports as an
        error. */
    method PreprocessIntegrateHierarchy(t0: real, t1: real, nc: nat) returns (ok: bool)
      requires Valid() && !ib.InStep() && t0 < t1 && nc >= 1
      modifies this, ib
      ensures ok <==> insCycles == nc || nc == 1
      ensures ok ==> currentCycleNum == -1 && Valid() && ib.InStep()
                     && AtCycle(old(Between()), t0, t1, nc, 0, Initial(TheSetup(), old(Between()), t0, t1, nc))
      ensures ok ==> AllocatedOver(old(patchData), finestLevel + 1)
      ensures ok ==> forall ln: nat :: ln <= finestLevel ==>
                && (ln, U) in patchData && (ln, F) in patchData && (ln, Scratch) in patchData
                   && (ln, NewData) in patchData
                && (scheme == TrapezoidalRule ==> (ln, FCurrent) in patchData)
                && (hasSources ==> (ln, P) in patchData && (ln, Q) in patchData)
    {
      currentNumCycles, currentCycleNum := nc, -1;
      AllocatePatchData();
      ok := insCycles == currentNumCycles || currentNumCycles == 1;
      if ok {
        StartCycles(t0, t1, nc);
      }
    }

    /** The force handed to the fluid in one cycle. */
    method CycleForce(t0: real, t1: real, ghost st: State, ghost nc: nat, k: nat, ghost c: Cycle)
      requires Valid() && ib.InStep() && t0 < t1 && k < nc && ValidCycle(TheSetup(), c) && AtCycle(st, t0, t1, nc, k, c)
      requires k == 0 ==> c.v == st.u
      modifies this`f, ib
      ensures Valid() && ib.InStep()
      ensures ib.Now() == Forced(TheSetup(), old(ib.Now()), st, t0, t1, nc, k, c)
      ensures f == CycleField(TheSetup(), st, t0, t1, nc, k, c)
    {
      TimesDistinct(t0, t1);
      MeanSelf(st.x);
      MeanSelf(st.u);
      match scheme {
        case MidpointRule =>
          ForceToGrid(t0 + 0.5 * (t1 - t0));
        case TrapezoidalRule =>
          if currentNumCycles == 1 || k > 0 {
            ForceToGrid(t1);
            f := MeanField(fCurrent, f);
          }
      }
    }

    method SpreadSource(half: real)
      requires Valid() && ib.InStep() && half == ib.halfTime
      modifies this`q, ib
      ensures Valid() && ib.InStep() && ib.Now() == old(ib.Now())
      ensures q == SourceField(TheSetup(), Coupling(ib.Now(), ib.nodes, half), half)
    {
      q := [];
      if hasSources {
        q := ZeroField(ib.cells);
        var slot := ib.GetLECouplingPositionData(half);
        var source := ib.env.source(ib.PositionsAt(slot), half);
        q := AddFields(q, source);
        AddZeroField(source);
      }
    }

    method SolveFluid(ghost nc: nat, k: nat)
      requires currentNumCycles == nc && nc >= 1
      modifies this`history
      ensures history == old(history) + Inputs(f, q, insCycles, nc, k)
    {
      if currentNumCycles > 1 {
        history := history + [Solve(f, q, k)];
      } else {
        ghost var inputs := Inputs(f, q, insCycles, nc, k);
        for j := 0 to insCycles
          invariant history == old(history) + inputs[..j]
        {
          assert inputs[..j + 1] == inputs[..j] + [inputs[j]];
          history := history + [Solve(f, q, j)];
        }
        assert inputs[..insCycles] == inputs;
      }
    }

    /** Force, sources and fluid solve of one cycle. */
    method DriveFluid(t0: real, t1: real, ghost st: State, ghost nc: nat, k: nat, ghost c: Cycle)
      requires Valid() && ib.InStep() && t0 < t1 && k < nc && ValidCycle(TheSetup(), c) && AtCycle(st, t0, t1, nc, k, c)
      requires (k == 0 ==> c.v == st.u) && currentCycleNum == k - 1
      modifies this`f, this`q, this`history, this`currentCycleNum, ib
      ensures Valid() && ib.InStep() && currentCycleNum == k
      ensures ib.Now() == Forced(TheSetup(), old(ib.Now()), st, t0, t1, nc, k, c)
      ensures Fed(TheSetup(), st, t0, t1, nc, k, c, history)
    {
      currentCycleNum := currentCycleNum + 1;
      SourceCoupling(TheSetup(), ib.Now(), st, t0, t1, nc, k, c);
      CycleForce(t0, t1, st, nc, k, c);
      SpreadSource(t0 + 0.5 * (t1 - t0));
      SolveFluid(nc, k);
    }

    /** Interpolates the velocity the scheme asks for and moves the structure. */
    method MoveStructure(t0: real, t1: real, ghost nc: nat, k: nat)
      requires Valid() && ib.InStep() && currentNumCycles == nc && currentCycleNum == k
      requires ib.Now().t0 == t0 && ib.Now().t1 == t1
      modifies this`u, ib
      ensures Valid() && ib.InStep()
      ensures ib.Now() == MovedBy(TheSetup(), old(ib.Now()), fluid, history, nc, k)
    {
      match scheme {
        case MidpointRule =>
          u := MeanField(fluid, ib.env.velocity(history));
          ib.InterpolateVelocity(u, t0 + 0.5 * (t1 - t0));
        case TrapezoidalRule =>
          u := ib.env.velocity(history);
          ib.InterpolateVelocity(u, t1);
      }
      if currentNumCycles > 1 && currentCycleNum == 0 {
        ib.EulerStep();
      } else {
        match scheme {
          case MidpointRule => ib.MidpointStep();
          case TrapezoidalRule => ib.TrapezoidalStep();
        }
      }
    }

    /** Looks up where the source pressures are read; nothing observable changes. */
    method InterpolatePressure(half: real)
      requires Valid() && ib.InStep() && half == ib.halfTime
      modifies ib
      ensures Valid() && ib.InStep() && ib.Now() == old(ib.Now())
    {
      if hasSources {
        var _ := ib.GetLECouplingPositionData(half);
      }
    }

    method SolveCycle(t0: real, t1: real, ghost st: State, ghost nc: nat, k: nat, ghost c: Cycle)
      requires Valid() && ib.InStep() && t0 < t1 && k < nc && ValidCycle(TheSetup(), c) && AtCycle(st, t0, t1, nc, k, c)
      requires (k == 0 ==> c.v == st.u) && currentCycleNum == k - 1
      modifies this`u, this`f, this`q, this`history, this`currentCycleNum, ib
      ensures Valid() && ib.InStep() && currentCycleNum == k
      ensures AtCycle(st, t0, t1, nc, k + 1, NextCycle(TheSetup(), st, t0, t1, nc, k, c))
    {
      ghost var s := ib.Now();
      DriveFluid(t0, t1, st, nc, k, c);
      CycleAgrees(TheSetup(), s, st, t0, t1, nc, k, c, history);
      MoveStructure(t0, t1, nc, k);
    }

    /** `c` is the textbook cycle the driver has reached. */
    ghost predicate InCycle(st: State, t0: real, t1: real, nc: nat, k: nat, c: Cycle)
      reads this, ib
    {
      && Valid() && ib.InStep() && t0 < t1 && ValidState(TheSetup(), st) && ValidCycle(TheSetup(), c)
      && c == Cycles(TheSetup(), st, t0, t1, nc, k) && (k == 0 ==> c.v == st.u) && currentCycleNum == k - 1
      && AtCycle(st, t0, t1, nc, k, c)
    }

    /** One cycle: the fluid is given and the structure moved as the equations of the rule say. */
    method IntegrateHierarchy(t0: real, t1: real, ghost st: State, ghost nc: nat, k: nat, ghost c: Cycle)
      returns (ghost r: Cycle, ghost record: Record)
      requires InCycle(st, t0, t1, nc, k, c) && k < nc
      modifies this`u, this`f, this`q, this`history, this`currentCycleNum, ib
      ensures InCycle(st, t0, t1, nc, k + 1, r)
      ensures CycleEquations(TheSetup(), st, t0, t1, nc, k, c.v, old(history), record)
      ensures record.guess == c.x && record.x == r.x && record.v == r.v && history == record.history
    {
      SolveCycle(t0, t1, st, nc, k, c);
      InterpolatePressure(t0 + 0.5 * (t1 - t0));
      r := NextCycle(TheSetup(), st, t0, t1, nc, k, c);
      record := CycleSolves(TheSetup(), st, t0, t1, nc, k, c);
    }

    /** All cycles of a step. */
    method RunCycles(t0: real, t1: real, ghost st: State, nc: nat) returns (ghost c: Cycle)
      requires ValidSetup(TheSetup()) && ValidState(TheSetup(), st)
      requires InCycle(st, t0, t1, nc, 0, Initial(TheSetup(), st, t0, t1, nc))
      modifies this`u, this`f, this`q, this`history, this`currentCycleNum, ib
      ensures InCycle(st, t0, t1, nc, nc, c)
    {
      c := Initial(TheSetup(), st, t0, t1, nc);
      for k := 0 to nc
        invariant InCycle(st, t0, t1, nc, k, c)
      {
        ghost var record;
        c, record := IntegrateHierarchy(t0, t1, st, nc, k, c);
      }
    }

    method PostprocessIntegrateHierarchy(t0: real, t1: real, ghost st: State, ghost nc: nat, ghost c: Cycle)
      requires Valid() && ib.InStep() && t0 < t1 && nc >= 1 && ValidCycle(TheSetup(), c)
      requires AtCycle(st, t0, t1, nc, nc, c)
      modifies this, ib
      ensures Valid() && !ib.InStep() && Between() == Finish(TheSetup(), st, t1, c)
      ensures Values(ib.fCurrent) == Some(c.force)
      ensures forall ln: nat, d: PatchData :: (ln, d) in patchData <==>
              (ln, d) in old(patchData) && !Owns(ln, d, finestLevel + 1)
    {
      TimesDistinct(t0, t1);
      u := ib.env.velocity(history);
      ib.InterpolateVelocity(u, t1);
      fluid := ib.env.velocity(history);
      history := history + [EndOfStep];
      ib.PostprocessIntegrateData();
      DeallocatePatchData();
    }

    /** The cycles and the end of a step that has been prepared. */
    method CompleteStep(t0: real, t1: real, ghost st: State, nc: nat) returns (ghost records: seq<Record>)
      requires ValidSetup(TheSetup()) && ValidState(TheSetup(), st) && nc >= 1
      requires InCycle(st, t0, t1, nc, 0, Initial(TheSetup(), st, t0, t1, nc))
      modifies this, ib
      ensures Valid() && !ib.InStep() && Between() == Step(TheSetup(), st, t0, t1, nc)
      ensures MovedByRule(TheSetup(), st, Between(), t0, t1, nc)
      ensures EquationsHold(TheSetup(), st, t0, t1, nc, records, Between())
      ensures Values(ib.fCurrent) == Some(records[nc - 1].force)
      ensures forall ln: nat, d: PatchData :: (ln, d) in patchData <==>
              (ln, d) in old(patchData) && !Owns(ln, d, finestLevel + 1)
    {
      ghost var c := RunCycles(t0, t1, st, nc);
      PostprocessIntegrateHierarchy(t0, t1, st, nc, c);
      records := StepObeys(TheSetup(), st, Between(), t0, t1, nc);
    }

    /** One step: whatever the number of cycles, structure and fluid end as the textbook step says. Its cycles solve
        the equations of the rule, which say what forces and sources the fluid is given and how the structure moves;
        the force kept is the one of the last cycle, and no patch data stay allocated. */
    method AdvanceHierarchy(t0: real, t1: real, nc: nat) returns (ok: bool, ghost records: seq<Record>)
      requires Valid() && !ib.InStep() && t0 < t1 && nc >= 1
      requires forall ln: nat, d: PatchData :: Owns(ln, d, finestLevel + 1) ==> (ln, d) !in patchData
      modifies this, ib
      ensures ok <==> insCycles == nc || nc == 1
      ensures ok ==> Valid() && !ib.InStep() && Between() == Step(TheSetup(), old(Between()), t0, t1, nc)
      ensures ok ==> MovedByRule(TheSetup(), old(Between()), Between(), t0, t1, nc)
      ensures ok ==> EquationsHold(TheSetup(), old(Between()), t0, t1, nc, records, Between())
      ensures ok ==> Values(ib.fCurrent) == Some(records[nc - 1].force)
      ensures ok ==> patchData == old(patchData)
    {
      records := [];
      ghost var st := Between();
      ok := PreprocessIntegrateHierarchy(t0, t1, nc);
      if !ok {
        return;
      }
      records := CompleteStep(t0, t1, st, nc);
      Released(old(patchData), patchData);
      currentNumCycles, currentCycleNum := -1, -1;
    }

    lemma Released(before: set<(nat, PatchData)>, after: set<(nat, PatchData)>)
      requires forall ln: nat, d: PatchData :: (ln, d) in after <==> (ln, d) in before
      ensures before == after
    {
      forall key: (nat, PatchData) ensures key in after <==> key in before {
        assert key == (key.0, key.1);
      }
    }
  }
}
