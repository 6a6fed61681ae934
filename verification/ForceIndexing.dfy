/** IBStandardForceGen::initializeLevelData: every process gathers the springs, beams and
    target points of its local nodes, and rewrites their global node numbers into slots of
    its own ghosted vector: the local nodes first, then the ghost nodes in increasing order. */
module ForceIndexing {
  import opened Options
  import opened Vectors
  import opened Increments
  import opened ForceElements

  datatype SpringArrays = SpringArrays(lagMastr: seq<int>, lagSlave: seq<int>, petscMastr: seq<int>,
                                       petscSlave: seq<int>, forceFcns: seq<int>, parameters: seq<seq<real>>)

  datatype BeamArrays = BeamArrays(petscMastr: seq<int>, petscNext: seq<int>, petscPrev: seq<int>,
                                   rigidities: seq<real>, curvatures: seq<Vec3>)

  datatype TargetArrays = TargetArrays(petscNode: seq<int>, kappa: seq<real>, eta: seq<real>, x0: seq<Vec3>)

  // ---------------------------------------------------------------- slots

  predicate Local(g: int, offset: int, n: nat) {
    offset <= g < offset + n
  }

  predicate Increasing(v: seq<int>) {
    forall i, j :: 0 <= i < j < |v| ==> v[i] < v[j]
  }

  /** std::lower_bound: the first position whose entry is not less than `x`. */
  function LowerBound(v: seq<int>, x: int): (r: nat)
    ensures r <= |v|
    ensures forall k :: 0 <= k < r ==> v[k] < x
    ensures r < |v| ==> x <= v[r]
  {
    if v == [] || x <= v[0] then 0 else 1 + LowerBound(v[1..], x)
  }

  function Slot(offset: int, n: nat, nonlocal: seq<int>, g: int): int {
    if Local(g, offset, n) then g - offset else n + LowerBound(nonlocal, g)
  }

  function GlobalOf(offset: int, n: nat, nonlocal: seq<int>, slot: nat): int
    requires slot < n + |nonlocal|
  {
    if slot < n then offset + slot else nonlocal[slot - n]
  }

  ghost predicate GhostList(offset: int, n: nat, nonlocal: seq<int>) {
    Increasing(nonlocal) && forall k :: 0 <= k < |nonlocal| ==> !Local(nonlocal[k], offset, n)
  }

  /** Localisation and "slot to global index" are inverse bijections between the local
      and ghost nodes of a process and the slots of its ghosted vector. */
  lemma SlotBijection(offset: int, n: nat, nonlocal: seq<int>)
    requires GhostList(offset, n, nonlocal)
    ensures forall g :: Local(g, offset, n) || g in nonlocal ==>
              0 <= Slot(offset, n, nonlocal, g) < n + |nonlocal|
              && GlobalOf(offset, n, nonlocal, Slot(offset, n, nonlocal, g)) == g
    ensures forall s: nat :: s < n + |nonlocal| ==> Slot(offset, n, nonlocal, GlobalOf(offset, n, nonlocal, s)) == s
  {
    forall g | !Local(g, offset, n) && g in nonlocal
      ensures LowerBound(nonlocal, g) < |nonlocal| && nonlocal[LowerBound(nonlocal, g)] == g
    {
      var k :| 0 <= k < |nonlocal| && nonlocal[k] == g;
    }
    forall s: nat | n <= s < n + |nonlocal|
      ensures Slot(offset, n, nonlocal, GlobalOf(offset, n, nonlocal, s)) == s
    {
      var r := LowerBound(nonlocal, nonlocal[s - n]);
      assert r <= s - n && !(r < s - n);
    }
  }

  method ResetLocalPETScIndices(inds: seq<int>, offset: int) returns (r: seq<int>)
    ensures |r| == |inds| && forall k :: 0 <= k < |inds| ==> r[k] == inds[k] - offset
  {
    r := inds;
    for k := 0 to |inds|
      invariant |r| == |inds|
      invariant forall j :: 0 <= j < |inds| ==> r[j] == if j < k then inds[j] - offset else inds[j]
    {
      r := r[k := r[k] - offset];
    }
  }

  method ResetLocalOrNonlocalPETScIndices(inds: seq<int>, offset: int, n: nat, nonlocal: seq<int>) returns (r: seq<int>)
    ensures |r| == |inds| && forall k :: 0 <= k < |inds| ==> r[k] == Slot(offset, n, nonlocal, inds[k])
  {
    r := inds;
    for k := 0 to |inds|
      invariant |r| == |inds|
      invariant forall j :: 0 <= j < |inds| ==> r[j] == if j < k then Slot(offset, n, nonlocal, inds[j]) else inds[j]
    {
      var idx := r[k];
      if idx >= offset && idx < offset + n {
        r := r[k := idx - offset];
      } else {
        var posn := LowerBound(nonlocal, idx);
        r := r[k := n + posn];
      }
    }
  }

  /** The std::transform that makes cached indices address data of depth NDIM. */
  method ScaleByDepth(inds: seq<int>) returns (r: seq<int>)
    ensures |r| == |inds| && forall k :: 0 <= k < |inds| ==> r[k] == NDIM * inds[k]
  {
    r := inds;
    for k := 0 to |inds|
      invariant |r| == |inds|
      invariant forall j :: 0 <= j < |inds| ==> r[j] == if j < k then NDIM * inds[j] else inds[j]
    {
      r := r[k := NDIM * r[k]];
    }
  }

  method MapLagrangianToPETSc(inds: seq<int>, ao: int -> int) returns (r: seq<int>)
    ensures |r| == |inds| && forall k :: 0 <= k < |inds| ==> r[k] == ao(inds[k])
  {
    r := inds;
    for k := 0 to |inds|
      invariant |r| == |inds|
      invariant forall j :: 0 <= j < |inds| ==> r[j] == if j < k then ao(inds[j]) else inds[j]
    {
      r := r[k := ao(r[k])];
    }
  }

  // ------------------------------------------------------- nonlocal nodes

  /** Node `g` appears among `inds` and belongs to another process. */
  predicate Outside(inds: seq<int>, offset: int, n: nat, g: int) {
    g in inds && !Local(g, offset, n)
  }

  /** std::set<int>::insert, the set being kept as its elements in increasing order. */
  function Insert(v: seq<int>, x: int): (r: seq<int>)
    requires Increasing(v)
    ensures Increasing(r) && forall g :: g in r <==> g in v || g == x
  {
    var posn := LowerBound(v, x);
    if posn < |v| && v[posn] == x then v
    else
      InsertedAt(v, posn, x);
      v[..posn] + [x] + v[posn..]
  }

  lemma InsertedAt(v: seq<int>, posn: nat, x: int)
    requires Increasing(v) && posn <= |v|
    requires (forall k :: 0 <= k < posn ==> v[k] < x) && (posn < |v| ==> x < v[posn])
    ensures Increasing(v[..posn] + [x] + v[posn..])
    ensures forall g :: g in v[..posn] + [x] + v[posn..] <==> g in v || g == x
  {
    assert v == v[..posn] + v[posn..];
  }

  method InsertNonlocal(known: seq<int>, inds: seq<int>, offset: int, n: nat) returns (r: seq<int>)
    requires Increasing(known)
    ensures Increasing(r)
    ensures forall g :: g in r <==> g in known || Outside(inds, offset, n, g)
  {
    r := known;
    for k := 0 to |inds|
      invariant Increasing(r)
      invariant forall g :: g in r <==> g in known || Outside(inds[..k], offset, n, g)
    {
      assert inds[..k + 1] == inds[..k] + [inds[k]];
      if inds[k] < offset || inds[k] >= offset + n {
        r := Insert(r, inds[k]);
      }
    }
    assert inds[..|inds|] == inds;
  }

  // ---------------------------------------------------- gathering elements

  predicate Consistent(node: LNode) {
    && (node.spring.Some? ==>
          var s := node.spring.value; |s.slaveIdxs| == |s.forceFcnIdxs| == |s.parameters|)
    && (node.beam.Some? ==>
          var b := node.beam.value; |b.neighborIdxs| == |b.bendRigidities| == |b.curvatures|)
  }

  function NodeSprings(node: LNode, ao: int -> int): seq<Element>
    requires Consistent(node)
  {
    match node.spring
    case None => []
    case Some(s) =>
      seq(|s.slaveIdxs|, k requires 0 <= k < |s.slaveIdxs| =>
        Spring(node.lag, s.slaveIdxs[k], node.petsc, ao(s.slaveIdxs[k]), s.forceFcnIdxs[k], s.parameters[k]))
  }

  function NodeBeams(node: LNode, ao: int -> int): seq<Element>
    requires Consistent(node)
  {
    match node.beam
    case None => []
    case Some(b) =>
      seq(|b.neighborIdxs|, k requires 0 <= k < |b.neighborIdxs| =>
        Beam(node.petsc, ao(b.neighborIdxs[k].0), ao(b.neighborIdxs[k].1), b.bendRigidities[k], b.curvatures[k]))
  }

  function NodeTargets(node: LNode): seq<Element> {
    match node.target
    case None => []
    case Some(t) => [Target(node.petsc, t.stiffness, t.damping, t.position)]
  }

  function LevelSprings(nodes: seq<LNode>, ao: int -> int): seq<Element>
    requires forall k :: 0 <= k < |nodes| ==> Consistent(nodes[k])
  {
    if nodes == [] then [] else LevelSprings(nodes[..|nodes| - 1], ao) + NodeSprings(nodes[|nodes| - 1], ao)
  }

  function LevelBeams(nodes: seq<LNode>, ao: int -> int): seq<Element>
    requires forall k :: 0 <= k < |nodes| ==> Consistent(nodes[k])
  {
    if nodes == [] then [] else LevelBeams(nodes[..|nodes| - 1], ao) + NodeBeams(nodes[|nodes| - 1], ao)
  }

  function LevelTargets(nodes: seq<LNode>): seq<Element> {
    if nodes == [] then [] else LevelTargets(nodes[..|nodes| - 1]) + NodeTargets(nodes[|nodes| - 1])
  }

  /** The parallel arrays hold the elements `es`, their node numbers multiplied by `depth`. */
  ghost predicate CachesSprings(d: SpringArrays, es: seq<Element>, depth: nat) {
    && |d.lagMastr| == |d.lagSlave| == |d.petscMastr| == |d.petscSlave| == |d.forceFcns| == |d.parameters| == |es|
    && forall k :: 0 <= k < |es| ==> SpringEntry(d, es[k], depth, k)
  }

  ghost predicate SpringEntry(d: SpringArrays, e: Element, depth: nat, k: nat)
    requires k < |d.lagMastr| == |d.lagSlave| == |d.petscMastr| == |d.petscSlave| == |d.forceFcns| == |d.parameters|
  {
    && e.Spring? && d.lagMastr[k] == e.lagMaster && d.lagSlave[k] == e.lagSlave
    && d.petscMastr[k] == depth * e.master && d.petscSlave[k] == depth * e.slave
    && d.forceFcns[k] == e.fcn && d.parameters[k] == e.params
  }

  ghost predicate CachesBeams(d: BeamArrays, es: seq<Element>, depth: nat) {
    && |d.petscMastr| == |d.petscNext| == |d.petscPrev| == |d.rigidities| == |d.curvatures| == |es|
    && forall k :: 0 <= k < |es| ==> BeamEntry(d, es[k], depth, k)
  }

  ghost predicate BeamEntry(d: BeamArrays, e: Element, depth: nat, k: nat)
    requires k < |d.petscMastr| == |d.petscNext| == |d.petscPrev| == |d.rigidities| == |d.curvatures|
  {
    && e.Beam? && d.petscMastr[k] == depth * e.master && d.petscNext[k] == depth * e.next
       && d.petscPrev[k] == depth * e.prev
    && d.rigidities[k] == e.rigidity && d.curvatures[k] == e.curvature
  }

  ghost predicate CachesTargets(d: TargetArrays, es: seq<Element>, depth: nat) {
    && |d.petscNode| == |d.kappa| == |d.eta| == |d.x0| == |es|
    && forall k :: 0 <= k < |es| ==> TargetEntry(d, es[k], depth, k)
  }

  ghost predicate TargetEntry(d: TargetArrays, e: Element, depth: nat, k: nat)
    requires k < |d.petscNode| == |d.kappa| == |d.eta| == |d.x0|
  {
    && e.Target? && d.petscNode[k] == depth * e.master
    && d.kappa[k] == e.stiffness && d.eta[k] == e.damping && d.x0[k] == e.x0
  }

  /** Entry `k` is filled for spring `e`; the PETSc number of its slave is mapped later. */
  ghost predicate SpringFilled(d: SpringArrays, e: Element, ao: int -> int, k: nat)
    requires k < |d.lagMastr| == |d.lagSlave| == |d.petscMastr| == |d.forceFcns| == |d.parameters|
  {
    && e.Spring? && d.lagMastr[k] == e.lagMaster && d.lagSlave[k] == e.lagSlave && d.petscMastr[k] == e.master
    && e.slave == ao(e.lagSlave) && d.forceFcns[k] == e.fcn && d.parameters[k] == e.params
  }

  ghost predicate SpringsFilled(d: SpringArrays, es: seq<Element>, ao: int -> int, num: nat) {
    && |d.lagMastr| == |d.lagSlave| == |d.petscMastr| == |d.forceFcns| == |d.parameters| == num >= |es|
    && forall k :: 0 <= k < |es| ==> SpringFilled(d, es[k], ao, k)
  }

  method PutSpring(d: SpringArrays, k: nat, e: Element, ghost es: seq<Element>, ghost ao: int -> int)
    returns (r: SpringArrays)
    requires SpringsFilled(d, es, ao, |d.lagMastr|) && k == |es| < |d.lagMastr|
    requires e.Spring? && e.slave == ao(e.lagSlave)
    ensures SpringsFilled(r, es + [e], ao, |d.lagMastr|)
  {
    r := SpringArrays(d.lagMastr[k := e.lagMaster], d.lagSlave[k := e.lagSlave], d.petscMastr[k := e.master],
                      d.petscSlave, d.forceFcns[k := e.fcn], d.parameters[k := e.params]);
    forall j | 0 <= j < |es + [e]| ensures SpringFilled(r, (es + [e])[j], ao, j) {
      if j < k {
        assert SpringFilled(d, es[j], ao, j);
      }
    }
  }

  lemma {:induction false} LevelSpringsPrefix(nodes: seq<LNode>, ao: int -> int, i: nat)
    requires i <= |nodes| && forall k :: 0 <= k < |nodes| ==> Consistent(nodes[k])
    ensures LevelSprings(nodes[..i], ao) <= LevelSprings(nodes, ao)
    ensures i < |nodes| ==> LevelSprings(nodes[..i + 1], ao) == LevelSprings(nodes[..i], ao) + NodeSprings(nodes[i], ao)
    decreases |nodes|
  {
    if i == |nodes| {
      assert nodes[..i] == nodes;
    } else {
      assert nodes[..i + 1][..i] == nodes[..i] == nodes[..|nodes| - 1][..i];
      LevelSpringsPrefix(nodes[..|nodes| - 1], ao, i);
    }
  }

  method CountSprings(nodes: seq<LNode>, ao: int -> int) returns (num: nat)
    requires forall k :: 0 <= k < |nodes| ==> Consistent(nodes[k])
    ensures num == |LevelSprings(nodes, ao)|
  {
    num := 0;
    for i := 0 to |nodes|
      invariant num == |LevelSprings(nodes[..i], ao)|
    {
      LevelSpringsPrefix(nodes, ao, i);
      if nodes[i].spring.Some? {
        num := num + |nodes[i].spring.value.slaveIdxs|;
      }
    }
    assert nodes[..|nodes|] == nodes;
  }

  method PutNodeSprings(d0: SpringArrays, current: nat, node: LNode, ao: int -> int, ghost before: seq<Element>)
    returns (d: SpringArrays)
    requires Consistent(node) && SpringsFilled(d0, before, ao, |d0.petscMastr|) && current == |before|
    requires current + |NodeSprings(node, ao)| <= |d0.petscMastr|
    ensures SpringsFilled(d, before + NodeSprings(node, ao), ao, |d0.petscMastr|)
  {
    d := d0;
    ghost var mine := NodeSprings(node, ao);
    assert before + [] == before;
    if node.spring.Some? {
      var s := node.spring.value;
      for k := 0 to |s.slaveIdxs|
        invariant SpringsFilled(d, before + mine[..k], ao, |d0.petscMastr|)
      {
        d := PutSpring(d, current + k, Spring(node.lag, s.slaveIdxs[k], node.petsc, ao(s.slaveIdxs[k]),
                                              s.forceFcnIdxs[k], s.parameters[k]),
                       before + mine[..k], ao);
        assert before + mine[..k] + [mine[k]] == before + mine[..k + 1];
      }
      assert mine[..|s.slaveIdxs|] == mine;
    }
  }

  method InitializeSpringLevelData(nodes: seq<LNode>, ao: int -> int, offset: int, known: seq<int>)
    returns (d: SpringArrays, nonlocal: seq<int>)
    requires Increasing(known)
    requires forall k :: 0 <= k < |nodes| ==> Consistent(nodes[k])
    ensures CachesSprings(d, LevelSprings(nodes, ao), 1)
    ensures Increasing(nonlocal)
    ensures forall g :: g in nonlocal <==> g in known || Outside(d.petscSlave, offset, |nodes|, g)
  {
    // Count the springs of the local nodes and size the caches.
    var num := CountSprings(nodes, ao);
    var zeros := seq(num, _ => 0);
    d := SpringArrays(zeros, zeros, zeros, zeros, zeros, seq(num, _ => []));
    // Fill them node by node.
    var current := 0;
    for i := 0 to |nodes|
      invariant current == |LevelSprings(nodes[..i], ao)|
      invariant SpringsFilled(d, LevelSprings(nodes[..i], ao), ao, num)
    {
      LevelSpringsPrefix(nodes, ao, i);
      LevelSpringsPrefix(nodes, ao, i + 1);
      d := PutNodeSprings(d, current, nodes[i], ao, LevelSprings(nodes[..i], ao));
      current := current + if nodes[i].spring.Some? then |nodes[i].spring.value.slaveIdxs| else 0;
    }
    assert nodes[..|nodes|] == nodes;
    // Map the slave nodes to the present distribution and note those of other processes.
    ghost var unmapped := d;
    var slaves := MapLagrangianToPETSc(d.lagSlave, ao);
    d := d.(petscSlave := slaves);
    forall k | 0 <= k < num ensures SpringEntry(d, LevelSprings(nodes, ao)[k], 1, k) {
      assert SpringFilled(unmapped, LevelSprings(nodes, ao)[k], ao, k);
    }
    nonlocal := InsertNonlocal(known, slaves, offset, |nodes|);
  }

  /** Entry `k` is filled for beam `e`, with the Lagrangian numbers of its neighbours still unmapped. */
  ghost predicate BeamFilled(d: BeamArrays, e: Element, ao: int -> int, k: nat)
    requires k < |d.petscMastr| == |d.petscNext| == |d.petscPrev| == |d.rigidities| == |d.curvatures|
  {
    && e.Beam? && d.petscMastr[k] == e.master && e.next == ao(d.petscNext[k]) && e.prev == ao(d.petscPrev[k])
    && d.rigidities[k] == e.rigidity && d.curvatures[k] == e.curvature
  }

  ghost predicate BeamsFilled(d: BeamArrays, es: seq<Element>, ao: int -> int, num: nat) {
    && |d.petscMastr| == |d.petscNext| == |d.petscPrev| == |d.rigidities| == |d.curvatures| == num >= |es|
    && forall k :: 0 <= k < |es| ==> BeamFilled(d, es[k], ao, k)
  }

  method PutBeam(d: BeamArrays, k: nat, master: int, nghbrs: (int, int), bend: real, curv: Vec3, ghost es: seq<Element>,
                 ghost ao: int -> int)
    returns (r: BeamArrays)
    requires BeamsFilled(d, es, ao, |d.petscMastr|) && k == |es| < |d.petscMastr|
    ensures BeamsFilled(r, es + [Beam(master, ao(nghbrs.0), ao(nghbrs.1), bend, curv)], ao, |d.petscMastr|)
  {
    r := BeamArrays(d.petscMastr[k := master], d.petscNext[k := nghbrs.0], d.petscPrev[k := nghbrs.1],
                    d.rigidities[k := bend], d.curvatures[k := curv]);
    forall j | 0 <= j < k ensures BeamFilled(r, es[j], ao, j) {
      assert BeamFilled(d, es[j], ao, j);
    }
  }

  lemma {:induction false} LevelBeamsPrefix(nodes: seq<LNode>, ao: int -> int, i: nat)
    requires i <= |nodes| && forall k :: 0 <= k < |nodes| ==> Consistent(nodes[k])
    ensures LevelBeams(nodes[..i], ao) <= LevelBeams(nodes, ao)
    ensures i < |nodes| ==> LevelBeams(nodes[..i + 1], ao) == LevelBeams(nodes[..i], ao) + NodeBeams(nodes[i], ao)
    decreases |nodes|
  {
    if i == |nodes| {
      assert nodes[..i] == nodes;
    } else {
      assert nodes[..i + 1][..i] == nodes[..i] == nodes[..|nodes| - 1][..i];
      LevelBeamsPrefix(nodes[..|nodes| - 1], ao, i);
    }
  }

  method CountBeams(nodes: seq<LNode>, ao: int -> int) returns (num: nat)
    requires forall k :: 0 <= k < |nodes| ==> Consistent(nodes[k])
    ensures num == |LevelBeams(nodes, ao)|
  {
    num := 0;
    for i := 0 to |nodes|
      invariant num == |LevelBeams(nodes[..i], ao)|
    {
      LevelBeamsPrefix(nodes, ao, i);
      if nodes[i].beam.Some? {
        num := num + |nodes[i].beam.value.neighborIdxs|;
      }
    }
    assert nodes[..|nodes|] == nodes;
  }

  method PutNodeBeams(d0: BeamArrays, current: nat, node: LNode, ao: int -> int, ghost before: seq<Element>)
    returns (d: BeamArrays)
    requires Consistent(node) && BeamsFilled(d0, before, ao, |d0.petscMastr|) && current == |before|
    requires current + |NodeBeams(node, ao)| <= |d0.petscMastr|
    ensures BeamsFilled(d, before + NodeBeams(node, ao), ao, |d0.petscMastr|)
  {
    d := d0;
    ghost var mine := NodeBeams(node, ao);
    assert before + [] == before;
    if node.beam.Some? {
      var s := node.beam.value;
      for k := 0 to |s.neighborIdxs|
        invariant BeamsFilled(d, before + mine[..k], ao, |d0.petscMastr|)
      {
        d := PutBeam(d, current + k, node.petsc, s.neighborIdxs[k], s.bendRigidities[k], s.curvatures[k],
                     before + mine[..k], ao);
        assert before + mine[..k] + [mine[k]] == before + mine[..k + 1];
      }
      assert mine[..|s.neighborIdxs|] == mine;
    }
  }

  method InitializeBeamLevelData(nodes: seq<LNode>, ao: int -> int, offset: int, known: seq<int>)
    returns (d: BeamArrays, nonlocal: seq<int>)
    requires Increasing(known)
    requires forall k :: 0 <= k < |nodes| ==> Consistent(nodes[k])
    ensures CachesBeams(d, LevelBeams(nodes, ao), 1)
    ensures Increasing(nonlocal)
    ensures forall g :: g in nonlocal <==>
              g in known || Outside(d.petscNext, offset, |nodes|, g) || Outside(d.petscPrev, offset, |nodes|, g)
  {
    var num := CountBeams(nodes, ao);
    var zeros := seq(num, _ => 0);
    d := BeamArrays(zeros, zeros, zeros, seq(num, _ => 0.0), seq(num, _ => ZERO));
    var current := 0;
    for i := 0 to |nodes|
      invariant current == |LevelBeams(nodes[..i], ao)|
      invariant BeamsFilled(d, LevelBeams(nodes[..i], ao), ao, num)
    {
      LevelBeamsPrefix(nodes, ao, i);
      LevelBeamsPrefix(nodes, ao, i + 1);
      d := PutNodeBeams(d, current, nodes[i], ao, LevelBeams(nodes[..i], ao));
      current := current + if nodes[i].beam.Some? then |nodes[i].beam.value.neighborIdxs| else 0;
    }
    assert nodes[..|nodes|] == nodes;
    ghost var unmapped := d;
    var next := MapLagrangianToPETSc(d.petscNext, ao);
    var prev := MapLagrangianToPETSc(d.petscPrev, ao);
    d := d.(petscNext := next, petscPrev := prev);
    forall k | 0 <= k < num ensures BeamEntry(d, LevelBeams(nodes, ao)[k], 1, k) {
      assert BeamFilled(unmapped, LevelBeams(nodes, ao)[k], ao, k);
    }
    nonlocal := InsertNonlocal(known, next, offset, |nodes|);
    nonlocal := InsertNonlocal(nonlocal, prev, offset, |nodes|);
  }

  method InitializeTargetPointLevelData(nodes: seq<LNode>) returns (d: TargetArrays)
    ensures CachesTargets(d, LevelTargets(nodes), 1)
  {
    d := TargetArrays([], [], [], []);
    for i := 0 to |nodes|
      invariant CachesTargets(d, LevelTargets(nodes[..i]), 1)
    {
      assert nodes[..i + 1][..i] == nodes[..i];
      if nodes[i].target.Some? {
        var t := nodes[i].target.value;
        d := TargetArrays(d.petscNode + [nodes[i].petsc], d.kappa + [t.stiffness], d.eta + [t.damping],
                          d.x0 + [t.position]);
      }
    }
    assert nodes[..|nodes|] == nodes;
  }
}
