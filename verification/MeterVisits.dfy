/** The maps from cells to filed points, and the reading loops' visits: over all processes, levels,
    patches and cells, every filed point is met exactly once, on the level it is filed on. */
module MeterVisits {
  import opened Vectors
  import opened MeterInterpolation
  import opened MeterIndexing

  datatype Entry = Entry(key: Index, web: nat)

  /** A meeting of the reading loops with point `web` on level `ln`. */
  datatype Visit = Visit(ln: nat, web: nat)

  // ---------------------------------------------------------------- filing

  /** The entries of level `ln` for the first `n` points, in order of insertion. */
  ghost function Filed(g: Grid, ln: nat, points: seq<Vec3>, n: nat): seq<Entry>
    requires ValidGrid(g) && ln < |g.levels| && n <= |points|
  {
    if n == 0 then []
    else
      assert ValidLevel(g, g.levels[ln]);
      var rest := Filed(g, ln, points, n - 1);
      if FiledOn(g, ln, points[n - 1]) then rest + [Entry(CellIndex(g, ln, points[n - 1]), n - 1)] else rest
  }

  /** initializeHierarchyDependentData: files every point on the levels whose cell holds it and no finer one does. */
  method BuildMap(g: Grid, points: seq<Vec3>) returns (map_: seq<seq<Entry>>)
    requires ValidGrid(g)
    ensures |map_| == |g.levels| && forall ln :: 0 <= ln < |g.levels| ==> map_[ln] == Filed(g, ln, points, |points|)
  {
    map_ := [];
    for ln := 0 to |g.levels|
      invariant |map_| == ln && forall l :: 0 <= l < ln ==> map_[l] == Filed(g, l, points, |points|)
    {
      assert ValidLevel(g, g.levels[ln]) && (ln + 1 < |g.levels| ==> ValidLevel(g, g.levels[ln + 1]));
      var entries := [];
      for n := 0 to |points|
        invariant entries == Filed(g, ln, points, n)
      {
        if Holds(g, ln, points[n]) && (ln == |g.levels| - 1 || !Holds(g, ln + 1, points[n])) {
          entries := entries + [Entry(CellIndex(g, ln, points[n]), n)];
        }
      }
      map_ := map_ + [entries];
    }
  }

  // ---------------------------------------------------------------- visits

  /** The entries equal_range finds for a cell. */
  function CellVisits(es: seq<Entry>, c: Index): seq<nat> {
    if es == [] then []
    else
      var rest, last := CellVisits(es[..|es| - 1], c), es[|es| - 1];
      if last.key == c then rest + [last.web] else rest
  }

  /** The concatenation of `n` parts. */
  function Concat<T>(part: nat -> seq<T>, n: nat): seq<T> {
    if n == 0 then [] else Concat(part, n - 1) + part(n - 1)
  }

  /** Counting an element in a concatenation part by part. */
  lemma {:induction false} ConcatCount<T>(part: nat -> seq<T>, n: nat, x: T, total: nat -> nat)
    requires total(0) == 0 && forall k :: 0 <= k < n ==> total(k + 1) == total(k) + multiset(part(k))[x]
    ensures multiset(Concat(part, n))[x] == total(n)
  {
    if n > 0 {
      ConcatCount(part, n - 1, x, total);
      assert n - 1 < n && total(n - 1 + 1) == total(n - 1) + multiset(part(n - 1))[x];
    }
  }

  function CellsPart(es: seq<Entry>, cells: seq<Index>): nat -> seq<nat> {
    (k: nat) => if k < |cells| then CellVisits(es, cells[k]) else []
  }

  function CellsVisits(es: seq<Entry>, cells: seq<Index>): seq<nat> {
    Concat(CellsPart(es, cells), |cells|)
  }

  function Extent(lo: int, hi: int): nat {
    if hi < lo then 0 else hi - lo + 1
  }

  function RowCells(lo: int, n: nat, j: int, k: int): seq<Index> {
    if n == 0 then [] else RowCells(lo, n - 1, j, k) + [Index(lo + n - 1, j, k)]
  }

  function PlanePart(b: Box, k: int): nat -> seq<Index> {
    (t: nat) => RowCells(b.lower.i, Extent(b.lower.i, b.upper.i), b.lower.j + t, k)
  }

  function PlaneCells(b: Box, k: int): seq<Index> {
    Concat(PlanePart(b, k), Extent(b.lower.j, b.upper.j))
  }

  function BlockPart(b: Box): nat -> seq<Index> {
    (t: nat) => PlaneCells(b, b.lower.k + t)
  }

  /** The cells of a box in the order a box iterator takes them. */
  function BoxCells(b: Box): seq<Index> {
    Concat(BlockPart(b), Extent(b.lower.k, b.upper.k))
  }

  /** What is met in one box, and in a list of boxes. */
  function BoxVisits(es: seq<Entry>): Box -> seq<nat> {
    (b: Box) => CellsVisits(es, BoxCells(b))
  }

  function PatchPart(visits: Box -> seq<nat>, boxes: seq<Box>): nat -> seq<nat> {
    (k: nat) => if k < |boxes| then visits(boxes[k]) else []
  }

  function PatchVisits(visits: Box -> seq<nat>, boxes: seq<Box>): seq<nat> {
    Concat(PatchPart(visits, boxes), |boxes|)
  }

  lemma {:induction false} RowCount(lo: int, n: nat, j: int, k: int, c: Index)
    ensures multiset(RowCells(lo, n, j, k))[c] == if lo <= c.i < lo + n && c.j == j && c.k == k then 1 else 0
  {
    if n > 0 {
      RowCount(lo, n - 1, j, k, c);
    }
  }

  lemma PlaneCount(b: Box, k: int, c: Index)
    ensures multiset(PlaneCells(b, k))[c]
         == if b.lower.i <= c.i <= b.upper.i && b.lower.j <= c.j <= b.upper.j && c.k == k then 1 else 0
  {
    var total := (t: nat) => if b.lower.i <= c.i <= b.upper.i && b.lower.j <= c.j < b.lower.j + t && c.k == k then 1
      else 0;
    forall t | 0 <= t < Extent(b.lower.j, b.upper.j)
      ensures total(t + 1) == total(t) + multiset(PlanePart(b, k)(t))[c]
    {
      RowCount(b.lower.i, Extent(b.lower.i, b.upper.i), b.lower.j + t, k, c);
    }
    ConcatCount(PlanePart(b, k), Extent(b.lower.j, b.upper.j), c, total);
  }

  /** A box iterator takes every cell of its box once and no other cell. */
  lemma CellsCount(b: Box, c: Index)
    ensures multiset(BoxCells(b))[c] == if InBox(b, c) then 1 else 0
  {
    var total := (t: nat) => if b.lower.i <= c.i <= b.upper.i && b.lower.j <= c.j <= b.upper.j
      && b.lower.k <= c.k < b.lower.k + t then 1 else 0;
    forall t | 0 <= t < Extent(b.lower.k, b.upper.k) ensures total(t + 1) == total(t) + multiset(BlockPart(b)(t))[c] {
      PlaneCount(b, b.lower.k + t, c);
    }
    ConcatCount(BlockPart(b), Extent(b.lower.k, b.upper.k), c, total);
  }

  lemma {:induction false} CellCount(es: seq<Entry>, c: Index, w: nat, key: Index)
    requires forall k :: 0 <= k < |es| && es[k].web == w ==> es[k].key == key
    ensures multiset(CellVisits(es, c))[w] == if c == key then multiset(es)[Entry(key, w)] else 0
  {
    if es != [] {
      var rest := es[..|es| - 1];
      CellCount(rest, c, w, key);
      assert es == rest + [es[|es| - 1]];
    }
  }

  lemma CellsVisitCount(es: seq<Entry>, cells: seq<Index>, w: nat, key: Index)
    requires forall k :: 0 <= k < |es| && es[k].web == w ==> es[k].key == key
    ensures multiset(CellsVisits(es, cells))[w] == multiset(cells)[key] * multiset(es)[Entry(key, w)]
  {
    var f := multiset(es)[Entry(key, w)];
    var total := (t: nat) => if t <= |cells| then multiset(cells[..t])[key] * f else 0;
    forall t | 0 <= t < |cells| ensures total(t + 1) == total(t) + multiset(CellsPart(es, cells)(t))[w] {
      CellCount(es, cells[t], w, key);
      assert cells[..t + 1] == cells[..t] + [cells[t]];
      OneMore(multiset(cells[..t])[key], f, if cells[t] == key then 1 else 0);
    }
    assert cells[..0] == [] && cells[..|cells|] == cells;
    ConcatCount(CellsPart(es, cells), |cells|, w, total);
  }

  lemma OneMore(a: nat, b: nat, d: nat)
    requires d <= 1
    ensures (a + d) * b == a * b + (if d == 1 then b else 0)
  {
  }

  lemma BoxVisitCount(es: seq<Entry>, b: Box, w: nat, key: Index)
    requires forall k :: 0 <= k < |es| && es[k].web == w ==> es[k].key == key
    ensures multiset(BoxVisits(es)(b))[w] == if InBox(b, key) then multiset(es)[Entry(key, w)] else 0
  {
    CellsVisitCount(es, BoxCells(b), w, key);
    CellsCount(b, key);
  }

  lemma PatchVisitCount(visits: Box -> seq<nat>, boxes: seq<Box>, w: nat, key: Index, f: bool)
    requires forall b :: multiset(visits(b))[w] == if f && InBox(b, key) then 1 else 0
    ensures multiset(PatchVisits(visits, boxes))[w] == if f then CountIn(boxes, key) else 0
  {
    var total := (t: nat) => if f && t <= |boxes| then CountUpto(boxes, t, key) else 0;
    forall t | 0 <= t < |boxes| ensures total(t + 1) == total(t) + multiset(PatchPart(visits, boxes)(t))[w] {
      assert multiset(visits(boxes[t]))[w] == if f && InBox(boxes[t], key) then 1 else 0;
    }
    ConcatCount(PatchPart(visits, boxes), |boxes|, w, total);
  }

  lemma NotAmong(es: seq<Entry>, n: nat, e: Entry)
    requires e.web == n && forall k :: 0 <= k < |es| ==> es[k].web < n
    ensures multiset(es)[e] == 0
  {
    assert e !in es;
  }

  lemma {:induction false} FiledEntries(g: Grid, ln: nat, points: seq<Vec3>, n: nat, w: nat)
    requires ValidGrid(g) && ln < |g.levels| && n <= |points| && w < |points|
    ensures ValidLevel(g, g.levels[ln])
    ensures var es, key := Filed(g, ln, points, n), CellIndex(g, ln, points[w]);
            && (forall k :: 0 <= k < |es| ==> es[k].web < n)
            && (forall k :: 0 <= k < |es| && es[k].web == w ==> es[k].key == key)
            && multiset(es)[Entry(key, w)] == if w < n && FiledOn(g, ln, points[w]) then 1 else 0
  {
    assert ValidLevel(g, g.levels[ln]);
    if n > 0 {
      FiledEntries(g, ln, points, n - 1, w);
      var rest, key := Filed(g, ln, points, n - 1), CellIndex(g, ln, points[w]);
      NotAmong(rest, n - 1, Entry(key, n - 1));
    }
  }

  // ------------------------------------------------- processes and levels

  function Tagged(ln: nat, webs: seq<nat>): (r: seq<Visit>)
    ensures |r| == |webs|
  {
    seq(|webs|, k requires 0 <= k < |webs| => Visit(ln, webs[k]))
  }

  lemma {:induction false} TaggedCount(ln: nat, webs: seq<nat>, v: Visit)
    ensures multiset(Tagged(ln, webs))[v] == if v.ln == ln then multiset(webs)[v.web] else 0
  {
    if webs != [] {
      var rest, last := webs[..|webs| - 1], webs[|webs| - 1];
      TaggedCount(ln, rest, v);
      assert webs == rest + [last] && Tagged(ln, webs) == Tagged(ln, rest) + [Visit(ln, last)];
    }
  }

  ghost predicate MapFits(g: Grid, m: seq<seq<Entry>>) {
    |m| == |g.levels| && forall ln :: 0 <= ln < |g.levels| ==> |g.levels[ln].procs| == g.procs
  }

  /** What process `p` meets on level `ln`. */
  ghost function LevelVisits(g: Grid, m: seq<seq<Entry>>): (nat, nat) -> seq<nat>
    requires MapFits(g, m)
  {
    (ln: nat, p: nat) => if ln < |g.levels| && p < g.procs then PatchVisits(BoxVisits(m[ln]), g.levels[ln].procs[p])
      else []
  }

  ghost function ProcessPart(visits: (nat, nat) -> seq<nat>, p: nat): nat -> seq<Visit> {
    (ln: nat) => Tagged(ln, visits(ln, p))
  }

  /** What process `p` meets on `n` levels, and what all processes meet. */
  ghost function ProcessVisits(visits: (nat, nat) -> seq<nat>, p: nat, n: nat): seq<Visit> {
    Concat(ProcessPart(visits, p), n)
  }

  ghost function AllPart(visits: (nat, nat) -> seq<nat>, n: nat): nat -> seq<Visit> {
    (p: nat) => ProcessVisits(visits, p, n)
  }

  ghost function AllVisits(visits: (nat, nat) -> seq<nat>, n: nat, procs: nat): seq<Visit> {
    Concat(AllPart(visits, n), procs)
  }

  lemma ProcessCount(visits: (nat, nat) -> seq<nat>, p: nat, n: nat, v: Visit)
    ensures multiset(ProcessVisits(visits, p, n))[v] == if v.ln < n then multiset(visits(v.ln, p))[v.web] else 0
  {
    var total := (t: nat) => if v.ln < t then multiset(visits(v.ln, p))[v.web] else 0;
    forall t | 0 <= t < n ensures total(t + 1) == total(t) + multiset(ProcessPart(visits, p)(t))[v] {
      TaggedCount(t, visits(t, p), v);
    }
    ConcatCount(ProcessPart(visits, p), n, v, total);
  }

  /** How often process `p` meets the visit on `n` levels. */
  ghost function Met(visits: (nat, nat) -> seq<nat>, n: nat, v: Visit, p: nat): nat {
    if v.ln < n then multiset(visits(v.ln, p))[v.web] else 0
  }

  lemma AllCount(visits: (nat, nat) -> seq<nat>, n: nat, procs: nat, v: Visit, total: nat -> nat)
    requires total(0) == 0
    requires forall t :: 0 <= t < procs ==> total(t + 1) == total(t) + Met(visits, n, v, t)
    ensures multiset(AllVisits(visits, n, procs))[v] == total(procs)
  {
    forall t | 0 <= t < procs ensures total(t + 1) == total(t) + multiset(AllPart(visits, n)(t))[v] {
      ProcessCount(visits, t, n, v);
    }
    ConcatCount(AllPart(visits, n), procs, v, total);
  }

  /** Each holder of the point's cell meets the point once if it is filed on the level. */
  lemma HolderCount(g: Grid, m: seq<seq<Entry>>, v: Visit, key: Index, f: bool)
    requires MapFits(g, m) && v.ln < |g.levels| && multiset(m[v.ln])[Entry(key, v.web)] == if f then 1 else 0
    requires forall k :: 0 <= k < |m[v.ln]| && m[v.ln][k].web == v.web ==> m[v.ln][k].key == key
    ensures multiset(AllVisits(LevelVisits(g, m), |g.levels|, g.procs))[v] ==
            if f then Holders(g.levels[v.ln], g.procs, key) else 0
  {
    forall b ensures multiset(BoxVisits(m[v.ln])(b))[v.web] == if f && InBox(b, key) then 1 else 0 {
      BoxVisitCount(m[v.ln], b, v.web, key);
    }
    CountOverProcesses(LevelVisits(g, m), g.levels[v.ln], BoxVisits(m[v.ln]), |g.levels|, g.procs, v, key, f);
  }

  lemma CountOverProcesses(visits: (nat, nat) -> seq<nat>, l: Level, boxVisits: Box -> seq<nat>, n: nat, procs: nat,
                           v: Visit, key: Index, f: bool)
    requires v.ln < n && |l.procs| == procs && forall b ::
             multiset(boxVisits(b))[v.web] == if f && InBox(b, key) then 1 else 0
    requires forall t: nat :: t < procs ==> visits(v.ln, t) == PatchVisits(boxVisits, l.procs[t])
    ensures multiset(AllVisits(visits, n, procs))[v] == if f then Holders(l, procs, key) else 0
  {
    forall t: nat | t < procs ensures Met(visits, n, v, t) == HeldBy(l, t, key, f) {
      PatchVisitCount(boxVisits, l.procs[t], v.web, key, f);
    }
    SumOverProcesses(visits, l, n, procs, v, key, f);
  }

  function HeldBy(l: Level, t: nat, key: Index, f: bool): nat {
    if f && t < |l.procs| then CountIn(l.procs[t], key) else 0
  }

  lemma SumOverProcesses(visits: (nat, nat) -> seq<nat>, l: Level, n: nat, procs: nat, v: Visit, key: Index, f: bool)
    requires |l.procs| == procs && forall t: nat :: t < procs ==> Met(visits, n, v, t) == HeldBy(l, t, key, f)
    ensures multiset(AllVisits(visits, n, procs))[v] == if f then Holders(l, procs, key) else 0
  {
    var total := (t: nat) => HoldersSoFar(l, t, key, f);
    forall t | 0 <= t < procs ensures total(t + 1) == total(t) + Met(visits, n, v, t) {
      assert Met(visits, n, v, t) == HeldBy(l, t, key, f);
    }
    AllCount(visits, n, procs, v, total);
  }

  function HoldersSoFar(l: Level, t: nat, key: Index, f: bool): nat {
    if f && t <= |l.procs| then Holders(l, t, key) else 0
  }

  lemma NoStrangers(g: Grid, m: seq<seq<Entry>>, v: Visit)
    requires MapFits(g, m) && (v.ln >= |g.levels| || forall k :: 0 <= k < |m[v.ln]| ==> m[v.ln][k].web != v.web)
    ensures multiset(AllVisits(LevelVisits(g, m), |g.levels|, g.procs))[v] == 0
  {
    if v.ln >= |g.levels| {
      AllCount(LevelVisits(g, m), |g.levels|, g.procs, v, (t: nat) => 0);
    } else {
      var e := Entry(Index(0, 0, 0), v.web);
      assert e !in m[v.ln];
      HolderCount(g, m, v, e.key, false);
    }
  }

  ghost predicate IsMap(g: Grid, points: seq<Vec3>, m: seq<seq<Entry>>)
    requires ValidGrid(g)
  {
    |m| == |g.levels| && forall ln :: 0 <= ln < |g.levels| ==> m[ln] == Filed(g, ln, points, |points|)
  }

  lemma MapFitsGrid(g: Grid, points: seq<Vec3>, m: seq<seq<Entry>>)
    requires ValidGrid(g) && IsMap(g, points, m)
    ensures MapFits(g, m)
  {
    forall ln | 0 <= ln < |g.levels| ensures |g.levels[ln].procs| == g.procs {
      assert ValidLevel(g, g.levels[ln]);
    }
  }

  /** Over all processes, levels, patches and cells, the reading loops meet point `w` on level `ln` once if
      it is filed there and never otherwise. */
  lemma VisitedOnce(g: Grid, points: seq<Vec3>, m: seq<seq<Entry>>, v: Visit)
    requires ValidGrid(g) && IsMap(g, points, m)
    ensures MapFits(g, m)
    ensures multiset(AllVisits(LevelVisits(g, m), |g.levels|, g.procs))[v]
         == if v.web < |points| && v.ln < |g.levels| && FiledOn(g, v.ln, points[v.web]) then 1 else 0
  {
    MapFitsGrid(g, points, m);
    if v.ln >= |g.levels| {
      NoStrangers(g, m, v);
    } else if v.web >= |points| {
      StrangerFree(g, v.ln, points, |points|, v.web);
      NoStrangers(g, m, v);
    } else {
      assert ValidLevel(g, g.levels[v.ln]);
      var key := CellIndex(g, v.ln, points[v.web]);
      FiledEntries(g, v.ln, points, |points|, v.web);
      HolderCount(g, m, v, key, FiledOn(g, v.ln, points[v.web]));
      assert Holders(g.levels[v.ln], g.procs, key) <= 1;
    }
  }

  lemma {:induction false} StrangerFree(g: Grid, ln: nat, points: seq<Vec3>, n: nat, w: nat)
    requires ValidGrid(g) && ln < |g.levels| && n <= |points| && w >= |points|
    ensures forall k :: 0 <= k < |Filed(g, ln, points, n)| ==> Filed(g, ln, points, n)[k].web != w
  {
    if n > 0 {
      StrangerFree(g, ln, points, n - 1, w);
    }
  }

  /** Every point that level zero holds, once, on the level it is filed on. */
  ghost function Canonical(g: Grid, points: seq<Vec3>): (r: seq<Visit>)
    requires ValidGrid(g)
    ensures |r| == |points|
  {
    seq(|points|, w requires 0 <= w < |points| => Visit(LevelFrom(g, 0, points[w]), w))
  }

  lemma {:induction false} CanonicalCount(g: Grid, points: seq<Vec3>, n: nat, v: Visit)
    requires ValidGrid(g) && n <= |points|
    ensures multiset(Canonical(g, points)[..n])[v]
         == if v.web < n && v.ln == LevelFrom(g, 0, points[v.web]) then 1 else 0
  {
    if n > 0 {
      CanonicalCount(g, points, n - 1, v);
      assert Canonical(g, points)[..n] ==
             Canonical(g, points)[..n - 1] + [Visit(LevelFrom(g, 0, points[n - 1]), n - 1)];
    }
  }

  ghost predicate AllHeld(g: Grid, points: seq<Vec3>)
    requires ValidGrid(g)
  {
    forall w :: 0 <= w < |points| ==> HeldAtZero(g, points[w])
  }

  ghost predicate HeldAtZero(g: Grid, X: Vec3)
    requires ValidGrid(g)
  {
    assert ValidLevel(g, g.levels[0]);
    Holds(g, 0, X)
  }

  /** When level zero holds all points, the visits are the points, each once, in some order. */
  lemma VisitsAreCanonical(g: Grid, points: seq<Vec3>, m: seq<seq<Entry>>)
    requires ValidGrid(g) && IsMap(g, points, m) && AllHeld(g, points)
    ensures MapFits(g, m)
    ensures multiset(AllVisits(LevelVisits(g, m), |g.levels|, g.procs)) == multiset(Canonical(g, points))
  {
    MapFitsGrid(g, points, m);
    var a, b := multiset(AllVisits(LevelVisits(g, m), |g.levels|, g.procs)), multiset(Canonical(g, points));
    forall v: Visit ensures a[v] == b[v] {
      VisitedOnce(g, points, m, v);
      CanonicalCount(g, points, |points|, v);
      assert Canonical(g, points)[..|points|] == Canonical(g, points);
      if v.web < |points| {
        assert HeldAtZero(g, points[v.web]);
        FiledOnce(g, points[v.web]);
      }
    }
  }
}
