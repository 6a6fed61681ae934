/** The time-stepping state of one immersed structure (IBMethod): half-time data are recomputed
    only when a dirty flag says so, ghost copies carry flags of their own, and callers see plain
    values. A snapshot says what those values are without mentioning flags or caches. */
module IBMethods {
  import opened Options
  import opened Vectors
  import opened LagrangianData

  /** The values a caller can observe during a time step. `uHalf` is the velocity most recently
      interpolated if that was at the half time; `xLE` the positions of the last fixed-operator update. */
  datatype Snapshot = Snapshot(fixed: bool, t0: real, t1: real, x: Nodes, u: Nodes, xNew: Nodes, uNew: Nodes,
                               xLE: Option<Nodes>, uHalf: Option<Nodes>, f: Nodes, fHalf: Option<Nodes>,
                               fNew: Option<Nodes>)

  ghost predicate WellFormed(s: Snapshot, nodes: nat) {
    && s.t0 < s.t1
    && |s.x| == |s.u| == |s.xNew| == |s.uNew| == |s.f| == nodes
    && (s.fixed <==> s.xLE.Some?) && (s.xLE.Some? ==> |s.xLE.value| == nodes)
    && (s.uHalf.Some? ==> |s.uHalf.value| == nodes)
    && (s.fHalf.Some? ==> |s.fHalf.value| == nodes)
    && (s.fNew.Some? ==> |s.fNew.value| == nodes)
  }

  /** One of the three times of a step at which data may be asked for. */
  predicate StepTime(s: Snapshot, t: real) {
    t == s.t0 || t == HalfTime(s.t0, s.t1) || t == s.t1
  }

  ghost function Position(s: Snapshot, nodes: nat, t: real): (r: Nodes)
    requires WellFormed(s, nodes) && StepTime(s, t)
    ensures |r| == nodes
  {
    if t == s.t0 then s.x else if t == s.t1 then s.xNew else Mean(s.x, s.xNew)
  }

  /** The positions of the coupling operators: fixed operators lag behind at the last update. */
  ghost function Coupling(s: Snapshot, nodes: nat, t: real): (r: Nodes)
    requires WellFormed(s, nodes) && StepTime(s, t)
    ensures |r| == nodes
  {
    if !s.fixed then Position(s, nodes, t)
    else if t == s.t0 then s.x else if t == s.t1 then s.xLE.value else Mean(s.x, s.xLE.value)
  }

  ghost function Velocity(s: Snapshot, nodes: nat, t: real): (r: Nodes)
    requires WellFormed(s, nodes) && StepTime(s, t)
    ensures |r| == nodes
  {
    if t == s.t0 then s.u
    else if t == s.t1 then s.uNew
    else if s.uHalf.Some? then s.uHalf.value
    else Mean(s.u, s.uNew)
  }

  /** The force stored for time `t`; a force vector not yet computed in this step is zero. */
  ghost function Force(s: Snapshot, nodes: nat, t: real): (r: Nodes)
    requires WellFormed(s, nodes) && StepTime(s, t)
    ensures |r| == nodes
  {
    if t == s.t0 then s.f
    else if t == s.t1 then (if s.fNew.Some? then s.fNew.value else Zeros(nodes))
    else (if s.fHalf.Some? then s.fHalf.value else Zeros(nodes))
  }

  ghost function WithForce(s: Snapshot, t: real, f: Nodes): Snapshot
    requires StepTime(s, t)
  {
    if t == s.t0 then s.(f := f) else if t == s.t1 then s.(fNew := Some(f)) else s.(fHalf := Some(f))
  }

  ghost function WithVelocity(s: Snapshot, t: real, v: Nodes): Snapshot
    requires StepTime(s, t)
  {
    if t == s.t0 then s.(u := v, uHalf := None)
    else if t == s.t1 then s.(uNew := v, uHalf := None)
    else s.(uHalf := Some(v))
  }

  /** At the start of a step the new positions and velocities are copies of the current ones. */
  function Started(fixed: bool, t0: real, t1: real, x: Nodes, u: Nodes, f: Nodes): Snapshot {
    Snapshot(fixed, t0, t1, x, u, x, u, if fixed then Some(x) else None, None, f, None, None)
  }

  /** The force kept for the next step. */
  function LastForce(s: Snapshot): Nodes {
    if s.fNew.Some? then s.fNew.value else if s.fHalf.Some? then s.fHalf.value else s.f
  }

  ghost function EulerStepped(s: Snapshot, nodes: nat): Snapshot
    requires WellFormed(s, nodes)
  {
    s.(xNew := Waxpy(s.t1 - s.t0, s.u, s.x))
  }

  ghost function MidpointStepped(s: Snapshot, nodes: nat): Snapshot
    requires WellFormed(s, nodes)
  {
    s.(xNew := Waxpy(s.t1 - s.t0, Velocity(s, nodes, HalfTime(s.t0, s.t1)), s.x))
  }

  ghost function TrapezoidalStepped(s: Snapshot, nodes: nat): Snapshot
    requires WellFormed(s, nodes)
  {
    s.(xNew := Waxpy(0.5 * (s.t1 - s.t0), s.uNew, Waxpy(0.5 * (s.t1 - s.t0), s.u, s.x)))
  }

  /** A nodal vector, if it exists, and whether its ghost values must be refilled before use. */
  datatype Stored = Stored(data: Option<LData>, needsFill: bool)

  ghost predicate StoredOk(v: Stored, nodes: nat) {
    v.data.Some? ==>
      && |v.data.value.owned| == |v.data.value.copy| == nodes
      && (!v.needsFill ==> v.data.value.copy == v.data.value.owned)
  }

  /** A force whose ghost values are fresh has been spread, so its anchored entries are zero. */
  ghost predicate ForceOk(v: Stored, nodes: nat, anchors: seq<nat>) {
    StoredOk(v, nodes) && (v.data.Some? && !v.needsFill ==> Anchored(v.data.value.owned, anchors) == v.data.value.owned)
  }

  function Values(v: Stored): Option<Nodes> {
    match v.data
    case None => None
    case Some(d) => Some(d.owned)
  }

  function Overwritten(v: Stored, values: Nodes): Stored
    requires v.data.Some?
  {
    Stored(Some(v.data.value.(owned := values)), true)
  }

  function Refilled(v: Stored): Stored
    requires v.data.Some?
  {
    Stored(if v.needsFill then Some(Fresh(v.data.value.owned)) else v.data, false)
  }

  /** Positions at the new time and the lazily averaged ones at the half time. */
  datatype Predicted = Predicted(next: Stored, half: Stored, halfNeedsReinit: bool)

  ghost predicate PredictedOk(p: Predicted, current: Nodes, nodes: nat) {
    && |current| == nodes && StoredOk(p.next, nodes) && StoredOk(p.half, nodes)
    && (p.half.data.Some? && !p.halfNeedsReinit ==>
        p.next.data.Some? && p.half.data.value.owned == Mean(current, p.next.data.value.owned))
  }

  /** Creates the half-time vector and averages into it, each only if that is needed. */
  function WithHalf(p: Predicted, current: Nodes, nodes: nat): (r: Predicted)
    requires |current| == nodes && p.next.data.Some? && |p.next.data.value.owned| == nodes
    ensures r.next == p.next && r.half.data.Some?
    ensures PredictedOk(p, current, nodes) ==>
              PredictedOk(r, current, nodes) && r.half.data.value.owned == Mean(current, p.next.data.value.owned)
  {
    var half := if p.half.data.Some? then p.half else Stored(Some(LData(Zeros(nodes), Zeros(nodes))), p.half.needsFill);
    var reinit := p.half.data.None? || p.halfNeedsReinit;
    if reinit then p.(half := Overwritten(half, Mean(current, p.next.data.value.owned)), halfNeedsReinit := false)
    else p.(half := half)
  }

  /** The new positions overwritten: the half-time positions are out of date. */
  function Moved(p: Predicted, next: Nodes): Predicted
    requires p.next.data.Some?
  {
    p.(next := Overwritten(p.next, next), halfNeedsReinit := true)
  }

  /** Which position vector a caller was handed a pointer to. */
  datatype Slot = Current | Half | New | CouplingHalf | CouplingNew

  class IBMethod {
    const env: Environment
    const nodes: nat
    const cells: nat
    const anchors: seq<nat>
    const useFixedCouplingOps: bool

    // Kept by the data manager from step to step.
    var xCurrent: Stored
    var uCurrent: Nodes
    var fCurrent: Stored

    // Present during a step only.
    var x: Predicted
    var xLE: Predicted
    var uNew: Option<Nodes>
    var uHalf: Option<Nodes>
    var uHalfNeedsReinit: bool
    var fHalf: Stored
    var fNew: Stored

    var currentTime: real
    var newTime: real
    var halfTime: real

    /** The velocity last interpolated in this step, if that was at the half time. */
    ghost var lastHalf: Option<Nodes>

    constructor (env: Environment, nodes: nat, cells: nat, anchors: seq<nat>, fixed: bool, x0: Nodes, u0: Nodes)
      requires ValidEnvironment(env, nodes, cells) && |x0| == |u0| == nodes
      ensures Valid() && !InStep()
      ensures this.env == env && this.nodes == nodes && this.cells == cells && this.anchors == anchors
      ensures useFixedCouplingOps == fixed
      ensures Values(xCurrent) == Some(x0) && uCurrent == u0 && Values(fCurrent) == Some(Zeros(nodes))
    {
      this.env, this.nodes, this.cells, this.anchors, useFixedCouplingOps := env, nodes, cells, anchors, fixed;
      xCurrent, uCurrent, fCurrent := Stored(Some(LData(x0, Zeros(nodes))), true), u0,
        Stored(Some(Fresh(Zeros(nodes))), true);
      x := Predicted(Stored(None, true), Stored(None, true), true);
      xLE := Predicted(Stored(None, true), Stored(None, true), true);
      uNew, uHalf, uHalfNeedsReinit, lastHalf := None, None, true, None;
      fHalf, fNew := Stored(None, true), Stored(None, true);
    }

    ghost predicate InStep()
      reads this
    {
      uNew.Some?
    }

    ghost predicate Valid()
      reads this
    {
      && ValidEnvironment(env, nodes, cells)
      && xCurrent.data.Some? && StoredOk(xCurrent, nodes) && |uCurrent| == nodes
      && fCurrent.data.Some? && ForceOk(fCurrent, nodes, anchors)
      && ForceOk(fHalf, nodes, anchors) && ForceOk(fNew, nodes, anchors)
      && (if InStep() then PositionsValid() && VelocitiesValid() && StepValid() else Cleared())
    }

    ghost predicate Cleared()
      reads this
    {
      && x.next.data == None && x.half.data == None && xLE.next.data == None && xLE.half.data == None
      && uHalf == None && fHalf.data == None && fNew.data == None
    }

    ghost predicate PositionsValid()
      requires xCurrent.data.Some?
      reads this
    {
      && PredictedOk(x, xCurrent.data.value.owned, nodes) && x.next.data.Some?
      && PredictedOk(xLE, xCurrent.data.value.owned, nodes) && (useFixedCouplingOps <==> xLE.next.data.Some?)
    }

    /** The half-time velocity is the last one interpolated there, or where it is clean the average. */
    ghost predicate VelocitiesValid()
      requires InStep() && |uCurrent| == nodes
      reads this
    {
      && |uNew.value| == nodes
      && (uHalf.Some? ==> |uHalf.value| == nodes)
      && (lastHalf.Some? ==> uHalf == lastHalf && !uHalfNeedsReinit)
      && (uHalf.Some? && !uHalfNeedsReinit && lastHalf.None? ==> uHalf.value == Mean(uCurrent, uNew.value))
    }

    ghost predicate StepValid()
      reads this
    {
      currentTime < newTime && halfTime == HalfTime(currentTime, newTime)
    }

    ghost function Now(): (s: Snapshot)
      requires Valid() && InStep()
      reads this
      ensures WellFormed(s, nodes)
    {
      Snapshot(useFixedCouplingOps, currentTime, newTime, xCurrent.data.value.owned, uCurrent, x.next.data.value.owned,
               uNew.value, Values(xLE.next), lastHalf, fCurrent.data.value.owned, Values(fHalf), Values(fNew))
    }

    method PreprocessIntegrateData(current: real, next: real)
      requires Valid() && !InStep() && current < next
      modifies this
      ensures Valid() && InStep()
      ensures Now() == Started(useFixedCouplingOps, current, next, old(xCurrent.data.value.owned), old(uCurrent),
                               old(fCurrent.data.value.owned))
    {
      currentTime, newTime := current, next;
      halfTime := current + 0.5 * (next - current);
      var copied := Stored(Some(LData(xCurrent.data.value.owned, Zeros(nodes))), true);
      x := Predicted(copied, x.half, true);
      xLE := Predicted(if useFixedCouplingOps then copied else xLE.next, xLE.half, true);
      uNew, uHalfNeedsReinit, lastHalf := Some(uCurrent), true, None;
    }

    method PostprocessIntegrateData()
      requires Valid() && InStep()
      modifies this
      ensures Valid() && !InStep()
      ensures Values(xCurrent) == Some(old(Now()).xNew) && uCurrent == old(Now()).uNew
      ensures Values(fCurrent) == Some(LastForce(old(Now())))
    {
      xCurrent, uCurrent := Stored(x.next.data, true), uNew.value;
      if fNew.data.Some? {
        fCurrent := fNew;
      } else if fHalf.data.Some? {
        fCurrent := fHalf;
      }
      fCurrent := Stored(fCurrent.data, true);
      ClearScratchData();
    }

    method ClearScratchData()
      modifies this`x, this`xLE, this`uNew, this`uHalf, this`fNew, this`fHalf
      ensures Cleared() && !InStep()
    {
      x := Predicted(Stored(None, x.next.needsFill), Stored(None, x.half.needsFill), x.halfNeedsReinit);
      xLE := Predicted(Stored(None, xLE.next.needsFill), Stored(None, xLE.half.needsFill), xLE.halfNeedsReinit);
      uNew, uHalf, fNew, fHalf := None, None, Stored(None, fNew.needsFill), Stored(None, fHalf.needsFill);
    }

    method UpdateFixedLEOperators()
      requires Valid() && InStep()
      modifies this
      ensures Valid() && InStep()
      ensures Now() == if useFixedCouplingOps then old(Now()).(xLE := Some(old(Now()).xNew)) else old(Now())
    {
      if useFixedCouplingOps {
        xLE := Moved(xLE, x.next.data.value.owned);
      }
    }

    method GetPositionData(t: real) returns (slot: Slot)
      requires Valid() && InStep() && StepTime(Now(), t)
      modifies this
      ensures Valid() && InStep() && Now() == old(Now())
      ensures Points(slot) && PositionsAt(slot) == Position(Now(), nodes, t)
    {
      TimesDistinct(currentTime, newTime);
      if t == currentTime {
        slot := Current;
      } else if t == halfTime {
        x := WithHalf(x, xCurrent.data.value.owned, nodes);
        slot := Half;
      } else {
        slot := New;
      }
    }

    method GetLECouplingPositionData(t: real) returns (slot: Slot)
      requires Valid() && InStep() && StepTime(Now(), t)
      modifies this
      ensures Valid() && InStep() && Now() == old(Now())
      ensures Points(slot) && PositionsAt(slot) == Coupling(Now(), nodes, t)
    {
      TimesDistinct(currentTime, newTime);
      if !useFixedCouplingOps {
        slot := GetPositionData(t);
      } else if t == currentTime {
        slot := Current;
      } else if t == halfTime {
        xLE := WithHalf(xLE, xCurrent.data.value.owned, nodes);
        slot := CouplingHalf;
      } else {
        slot := CouplingNew;
      }
    }

    function Behind(slot: Slot): Stored
      reads this
    {
      match slot
      case Current => xCurrent
      case Half => x.half
      case New => x.next
      case CouplingHalf => xLE.half
      case CouplingNew => xLE.next
    }

    predicate Points(slot: Slot)
      reads this
    {
      Behind(slot).data.Some?
    }

    function PositionsAt(slot: Slot): Nodes
      requires Points(slot)
      reads this
    {
      Behind(slot).data.value.owned
    }

    /** Refreshes the ghost values behind a slot unless its flag says they are fresh, and lowers the flag. */
    method FillPositionGhosts(slot: Slot) returns (v: LData)
      requires Valid() && InStep() && Points(slot)
      modifies this
      ensures Valid() && InStep() && Now() == old(Now())
      ensures v == Fresh(old(PositionsAt(slot)))
    {
      var filled := Refilled(Behind(slot));
      match slot {
        case Current => xCurrent := filled;
        case Half => x := x.(half := filled);
        case New => x := x.(next := filled);
        case CouplingHalf => xLE := xLE.(half := filled);
        case CouplingNew => xLE := xLE.(next := filled);
      }
      v := filled.data.value;
    }

    method GetVelocityData(t: real) returns (v: Nodes)
      requires Valid() && InStep() && StepTime(Now(), t)
      modifies this
      ensures Valid() && InStep() && Now() == old(Now())
      ensures v == Velocity(Now(), nodes, t)
    {
      TimesDistinct(currentTime, newTime);
      if t == currentTime {
        v := uCurrent;
      } else if t == halfTime {
        if uHalf.None? {
          uHalf := Some(Zeros(nodes));
          uHalfNeedsReinit := true;
        }
        if uHalfNeedsReinit {
          uHalf := Some(Mean(uCurrent, uNew.value));
          uHalfNeedsReinit := false;
        }
        v := uHalf.value;
      } else {
        v := uNew.value;
      }
    }

    method ResetAnchorPointValues(v: Nodes) returns (r: Nodes)
      ensures r == Anchored(v, anchors)
    {
      r := v;
      for k := 0 to |anchors|
        invariant |r| == |v|
        invariant forall i :: 0 <= i < |v| ==> r[i] == if i in anchors[..k] then ZERO else v[i]
      {
        var i := anchors[k];
        if i < |v| {
          r := r[i := ZERO];
        }
        assert anchors[..k + 1] == anchors[..k] + [i];
      }
      assert anchors[..|anchors|] == anchors;
    }

    method InterpolateVelocity(u: Field, t: real)
      requires Valid() && InStep() && StepTime(Now(), t)
      modifies this
      ensures Valid() && InStep()
      ensures Now() == WithVelocity(old(Now()), t, Anchored(env.interp(u, Coupling(old(Now()), nodes, t), t), anchors))
    {
      var _ := GetVelocityData(t);
      var slot := GetLECouplingPositionData(t);
      var v := env.interp(u, PositionsAt(slot), t);
      v := ResetAnchorPointValues(v);
      StoreVelocity(v, t);
    }

    /** Overwrites the velocity of time `t`; only an interpolation at the half time leaves the half-time velocity
        clean. */
    method StoreVelocity(v: Nodes, t: real)
      requires Valid() && InStep() && StepTime(Now(), t) && |v| == nodes
      modifies this
      ensures Valid() && InStep() && Now() == WithVelocity(old(Now()), t, v)
    {
      TimesDistinct(currentTime, newTime);
      if t == currentTime {
        uCurrent := v;
      } else if t == halfTime {
        uHalf := Some(v);
      } else {
        uNew := Some(v);
      }
      uHalfNeedsReinit := t != halfTime;
      lastHalf := if t == halfTime then Some(v) else None;
    }

    method EulerStep()
      requires Valid() && InStep()
      modifies this
      ensures Valid() && InStep() && Now() == EulerStepped(old(Now()), nodes)
    {
      var u := GetVelocityData(currentTime);
      x := Moved(x, Waxpy(newTime - currentTime, u, xCurrent.data.value.owned));
    }

    method MidpointStep()
      requires Valid() && InStep()
      modifies this
      ensures Valid() && InStep() && Now() == MidpointStepped(old(Now()), nodes)
    {
      var dt := newTime - currentTime;
      var u := GetVelocityData(currentTime + 0.5 * dt);
      x := Moved(x, Waxpy(dt, u, xCurrent.data.value.owned));
    }

    method TrapezoidalStep()
      requires Valid() && InStep()
      modifies this
      ensures Valid() && InStep() && Now() == TrapezoidalStepped(old(Now()), nodes)
    {
      var h := 0.5 * (newTime - currentTime);
      var u0 := GetVelocityData(currentTime);
      var u1 := GetVelocityData(newTime);
      x := Moved(x, Waxpy(h, u1, Waxpy(h, u0, xCurrent.data.value.owned)));
    }

    /** The force vector of time `t`, created if it does not exist yet. */
    method GetForceData(t: real) returns (f: Stored)
      requires Valid() && InStep() && StepTime(Now(), t)
      ensures f.data.Some? && ForceOk(f, nodes, anchors)
      ensures f.data.value.owned == Force(Now(), nodes, t)
    {
      TimesDistinct(currentTime, newTime);
      f := if t == currentTime then fCurrent else if t == halfTime then fHalf else fNew;
      if f.data.None? {
        f := f.(data := Some(Fresh(Zeros(nodes))));
        assert Anchored(Zeros(nodes), anchors) == Zeros(nodes);
      }
    }

    method StoreForce(f: Stored, t: real)
      requires Valid() && InStep() && StepTime(Now(), t) && f.data.Some? && ForceOk(f, nodes, anchors)
      modifies this
      ensures Valid() && InStep() && Now() == WithForce(old(Now()), t, f.data.value.owned)
    {
      TimesDistinct(currentTime, newTime);
      if t == currentTime {
        fCurrent := f;
      } else if t == halfTime {
        fHalf := f;
      } else {
        fNew := f;
      }
    }

    method ComputeLagrangianForce(t: real)
      requires Valid() && InStep() && StepTime(Now(), t)
      modifies this
      ensures Valid() && InStep()
      ensures var s := old(Now());
              Now() == WithForce(s, t, env.force(Position(s, nodes, t), Velocity(s, nodes, t), t))
    {
      var f := GetForceData(t);
      var slot := GetPositionData(t);
      var xs := PositionsAt(slot);
      var u := GetVelocityData(t);
      StoreForce(Overwritten(f, env.force(xs, u, t)), t);
    }

    /** Adds the spread force to the Eulerian field; whatever the flags say, force and positions reach
        the kernel with fresh ghost values and no force at the anchored nodes. */
    method SpreadForce(f: Field, t: real) returns (r: Field)
      requires Valid() && InStep() && StepTime(Now(), t) && |f| == cells
      modifies this
      ensures Valid() && InStep()
      ensures var s := old(Now()); var g := Anchored(Force(s, nodes, t), anchors);
              && r == AddFields(f, env.spread(Fresh(g), Fresh(Coupling(s, nodes, t))))
              && Now() == WithForce(s, t, g)
    {
      var stored := GetForceData(t);
      var slot := GetLECouplingPositionData(t);
      var g := ResetAnchorPointValues(stored.data.value.owned);
      AnchoredTwice(stored.data.value.owned, anchors);
      stored := Refilled(stored.(data := Some(stored.data.value.(owned := g))));
      var xs := FillPositionGhosts(slot);
      r := AddFields(f, env.spread(stored.data.value, xs));
      StoreForce(stored, t);
    }
  }
}
