/** The tables of the standard source generator: how they are initialised, saved and loaded. */
module SourceRestart {
  import opened Options
  import opened RestartKeys

  datatype Value = Int(i: int) | IntArray(a: seq<nat>) | Str(s: string) | Dbl(d: real)

  /** The class's static tables, then an object's own. */
  datatype Tables = Tables(numSources: seq<nat>, staticNames: seq<seq<string>>, staticRadii: seq<seq<real>>,
                           nSrc: seq<nat>, names: seq<seq<string>>, radii: seq<seq<real>>, perimeter: seq<seq<nat>>,
                           strengths: seq<seq<real>>, pressures: seq<seq<real>>)

  class Database {
    var entries: map<string, Value>

    constructor ()
      ensures entries == map[]
    {
      entries := map[];
    }

    method Put(name: string, v: Value)
      modifies this
      ensures entries == old(entries)[name := v]
    {
      entries := entries[name := v];
    }
  }

  // ------------------------------------------------------- what is stored

  function Entry<T>(rows: seq<seq<T>>, ln: nat, n: nat): Option<T> {
    if ln < |rows| && n < |rows[ln]| then Some(rows[ln][n]) else None
  }

  function StrEntry(rows: seq<seq<string>>, ln: nat, n: nat): Option<Value> {
    if Entry(rows, ln, n).Some? then Some(Str(rows[ln][n])) else None
  }

  function DblEntry(rows: seq<seq<real>>, ln: nat, n: nat): Option<Value> {
    if Entry(rows, ln, n).Some? then Some(Dbl(rows[ln][n])) else None
  }

  function IntEntry(rows: seq<seq<nat>>, ln: nat, n: nat): Option<Value> {
    if Entry(rows, ln, n).Some? then Some(Int(rows[ln][n])) else None
  }

  /** The value that belongs under a key. */
  function Content(s: Tables, k: Key): Option<Value> {
    match k
    case NumLevels => Some(Int(|s.numSources|))
    case Counts => Some(IntArray(s.numSources))
    case FinestLevel => Some(Int(|s.nSrc| - 1))
    case MemberCounts => Some(IntArray(s.nSrc))
    case Cell(StaticNames, ln, n) => StrEntry(s.staticNames, ln, n)
    case Cell(StaticRadii, ln, n) => DblEntry(s.staticRadii, ln, n)
    case Cell(Names, ln, n) => StrEntry(s.names, ln, n)
    case Cell(Radii, ln, n) => DblEntry(s.radii, ln, n)
    case Cell(PerimeterNodes, ln, n) => IntEntry(s.perimeter, ln, n)
    case Cell(Strengths, ln, n) => DblEntry(s.strengths, ln, n)
    case Cell(Pressures, ln, n) => DblEntry(s.pressures, ln, n)
  }

  predicate Has(e: map<string, Value>, s: Tables, k: Key) {
    Name(k) in e && Content(s, k) == Some(e[Name(k)])
  }

  predicate StaticsAt(e: map<string, Value>, s: Tables, ln: nat, n: nat) {
    Has(e, s, Cell(StaticNames, ln, n)) && Has(e, s, Cell(StaticRadii, ln, n))
  }

  predicate MembersAt(e: map<string, Value>, s: Tables, ln: nat, n: nat) {
    && Has(e, s, Cell(Names, ln, n)) && Has(e, s, Cell(Radii, ln, n)) && Has(e, s, Cell(PerimeterNodes, ln, n))
    && Has(e, s, Cell(Strengths, ln, n)) && Has(e, s, Cell(Pressures, ln, n))
  }

  predicate StaticRowSaved(e: map<string, Value>, s: Tables, ln: nat, count: nat) {
    forall n :: 0 <= n < count ==> StaticsAt(e, s, ln, n)
  }

  predicate MemberRowSaved(e: map<string, Value>, s: Tables, ln: nat, count: nat) {
    forall n :: 0 <= n < count ==> MembersAt(e, s, ln, n)
  }

  ghost predicate StaticsSaved(e: map<string, Value>, s: Tables) {
    && Has(e, s, NumLevels) && Has(e, s, Counts)
    && forall ln :: 0 <= ln < |s.numSources| ==> StaticRowSaved(e, s, ln, s.numSources[ln])
  }

  ghost predicate MembersSaved(e: map<string, Value>, s: Tables) {
    && Has(e, s, FinestLevel) && Has(e, s, MemberCounts)
    && forall ln :: 0 <= ln < |s.nSrc| ==> MemberRowSaved(e, s, ln, s.nSrc[ln])
  }

  ghost predicate Saved(e: map<string, Value>, s: Tables) {
    StaticsSaved(e, s) && MembersSaved(e, s)
  }

  /** A table has at least the rows and entries that the counts promise. */
  predicate Reaches<T>(rows: seq<seq<T>>, counts: seq<nat>) {
    |counts| <= |rows| && forall ln :: 0 <= ln < |counts| ==> counts[ln] <= |rows[ln]|
  }

  predicate Storable(s: Tables) {
    && s.numSources != [] && Reaches(s.staticNames, s.numSources) && Reaches(s.staticRadii, s.numSources)
    && s.nSrc != [] && Reaches(s.names, s.nSrc) && Reaches(s.radii, s.nSrc) && Reaches(s.perimeter, s.nSrc)
    && Reaches(s.strengths, s.nSrc) && Reaches(s.pressures, s.nSrc)
  }

  // ------------------------------------------------------------------ saving

  /** Storing one value leaves every other in place. */
  method PutKey(db: Database, k: Key, v: Value, ghost s: Tables)
    requires Content(s, k) == Some(v)
    modifies db
    ensures Has(db.entries, s, k)
    ensures Extends(old(db.entries), db.entries, s)
  {
    db.Put(Name(k), v);
    forall j | Has(old(db.entries), s, j)
      ensures Has(db.entries, s, j)
    {
      if Name(j) == Name(k) {
        NamesInjective(j, k);
      }
    }
  }

  ghost predicate Extends(e: map<string, Value>, f: map<string, Value>, s: Tables) {
    forall j :: Has(e, s, j) ==> Has(f, s, j)
  }

  lemma StaticRowKept(e: map<string, Value>, f: map<string, Value>, s: Tables, ln: nat, count: nat)
    requires Extends(e, f, s) && StaticRowSaved(e, s, ln, count)
    ensures StaticRowSaved(f, s, ln, count)
  {
    forall n | 0 <= n < count
      ensures StaticsAt(f, s, ln, n)
    {
      assert StaticsAt(e, s, ln, n);
    }
  }

  lemma MemberRowKept(e: map<string, Value>, f: map<string, Value>, s: Tables, ln: nat, count: nat)
    requires Extends(e, f, s) && MemberRowSaved(e, s, ln, count)
    ensures MemberRowSaved(f, s, ln, count)
  {
    forall n | 0 <= n < count
      ensures MembersAt(f, s, ln, n)
    {
      assert MembersAt(e, s, ln, n);
    }
  }

  method PutStaticRow(db: Database, s: Tables, ln: nat)
    requires Storable(s) && ln < |s.numSources|
    modifies db
    ensures StaticRowSaved(db.entries, s, ln, s.numSources[ln]) && Extends(old(db.entries), db.entries, s)
  {
    for n := 0 to s.numSources[ln]
      invariant StaticRowSaved(db.entries, s, ln, n) && Extends(old(db.entries), db.entries, s)
    {
      ghost var before := db.entries;
      PutKey(db, Cell(StaticNames, ln, n), Str(s.staticNames[ln][n]), s);
      PutKey(db, Cell(StaticRadii, ln, n), Dbl(s.staticRadii[ln][n]), s);
      StaticRowKept(before, db.entries, s, ln, n);
    }
  }

  method PutStatics(db: Database, s: Tables)
    requires Storable(s)
    modifies db
    ensures StaticsSaved(db.entries, s) && Extends(old(db.entries), db.entries, s)
  {
    PutKey(db, NumLevels, Int(|s.numSources|), s);
    PutKey(db, Counts, IntArray(s.numSources), s);
    for ln := 0 to |s.numSources|
      invariant Has(db.entries, s, NumLevels) && Has(db.entries, s, Counts) && Extends(old(db.entries), db.entries, s)
      invariant forall a :: 0 <= a < ln ==> StaticRowSaved(db.entries, s, a, s.numSources[a])
    {
      ghost var before := db.entries;
      PutStaticRow(db, s, ln);
      forall a | 0 <= a < ln
        ensures StaticRowSaved(db.entries, s, a, s.numSources[a])
      {
        StaticRowKept(before, db.entries, s, a, s.numSources[a]);
      }
    }
  }

  method PutMemberRow(db: Database, s: Tables, ln: nat)
    requires Storable(s) && ln < |s.nSrc|
    modifies db
    ensures MemberRowSaved(db.entries, s, ln, s.nSrc[ln]) && Extends(old(db.entries), db.entries, s)
  {
    for n := 0 to s.nSrc[ln]
      invariant MemberRowSaved(db.entries, s, ln, n) && Extends(old(db.entries), db.entries, s)
    {
      ghost var before := db.entries;
      PutKey(db, Cell(Names, ln, n), Str(s.names[ln][n]), s);
      PutKey(db, Cell(Radii, ln, n), Dbl(s.radii[ln][n]), s);
      PutKey(db, Cell(PerimeterNodes, ln, n), Int(s.perimeter[ln][n]), s);
      PutKey(db, Cell(Strengths, ln, n), Dbl(s.strengths[ln][n]), s);
      PutKey(db, Cell(Pressures, ln, n), Dbl(s.pressures[ln][n]), s);
      MemberRowKept(before, db.entries, s, ln, n);
    }
  }

  method PutMembers(db: Database, s: Tables)
    requires Storable(s)
    modifies db
    ensures MembersSaved(db.entries, s) && Extends(old(db.entries), db.entries, s)
  {
    PutKey(db, FinestLevel, Int(|s.nSrc| - 1), s);
    PutKey(db, MemberCounts, IntArray(s.nSrc), s);
    for ln := 0 to |s.nSrc|
      invariant Has(db.entries, s, FinestLevel) && Has(db.entries, s, MemberCounts)
                && Extends(old(db.entries), db.entries, s)
      invariant forall a :: 0 <= a < ln ==> MemberRowSaved(db.entries, s, a, s.nSrc[a])
    {
      ghost var before := db.entries;
      PutMemberRow(db, s, ln);
      forall a | 0 <= a < ln
        ensures MemberRowSaved(db.entries, s, a, s.nSrc[a])
      {
        MemberRowKept(before, db.entries, s, a, s.nSrc[a]);
      }
    }
  }

  lemma StaticsKept(e: map<string, Value>, f: map<string, Value>, s: Tables)
    requires StaticsSaved(e, s) && Extends(e, f, s)
    ensures StaticsSaved(f, s)
  {
    forall a | 0 <= a < |s.numSources|
      ensures StaticRowSaved(f, s, a, s.numSources[a])
    {
      StaticRowKept(e, f, s, a, s.numSources[a]);
    }
  }

  /** The entry `v` is stored under a prefix, the level, an underscore and the number. */
  ghost predicate Under(e: map<string, Value>, prefix: string, ln: nat, n: nat, v: Value) {
    var name := prefix + (Numeral(ln) + "_" + Numeral(n));
    name in e && e[name] == v
  }

  /** Where the database holds what. */
  lemma StoredUnder(e: map<string, Value>, s: Tables)
    requires Storable(s) && Saved(e, s)
    ensures "s_num_sources.size()" in e && e["s_num_sources.size()"] == Int(|s.numSources|)
    ensures "s_num_sources" in e && e["s_num_sources"] == IntArray(s.numSources)
    ensures "finest_hier_level" in e && e["finest_hier_level"] == Int(|s.nSrc| - 1)
    ensures "d_n_src" in e && e["d_n_src"] == IntArray(s.nSrc)
    ensures forall ln, n :: 0 <= ln < |s.numSources| && 0 <= n < s.numSources[ln] ==>
              && Under(e, "s_source_names_", ln, n, Str(s.staticNames[ln][n]))
              && Under(e, "s_source_radii_", ln, n, Dbl(s.staticRadii[ln][n]))
    ensures forall ln, n :: 0 <= ln < |s.nSrc| && 0 <= n < s.nSrc[ln] ==>
              && Under(e, "d_source_names_", ln, n, Str(s.names[ln][n]))
              && Under(e, "d_r_src_", ln, n, Dbl(s.radii[ln][n]))
              && Under(e, "d_num_perimeter_nodes_", ln, n, Int(s.perimeter[ln][n]))
              && Under(e, "d_Q_src_", ln, n, Dbl(s.strengths[ln][n]))
              && Under(e, "d_P_src_", ln, n, Dbl(s.pressures[ln][n]))
  {
    assert Has(e, s, NumLevels) && Has(e, s, Counts) && Has(e, s, FinestLevel) && Has(e, s, MemberCounts);
    forall ln, n | 0 <= ln < |s.numSources| && 0 <= n < s.numSources[ln]
      ensures Under(e, "s_source_names_", ln, n, Str(s.staticNames[ln][n]))
      ensures Under(e, "s_source_radii_", ln, n, Dbl(s.staticRadii[ln][n]))
    {
      assert StaticRowSaved(e, s, ln, s.numSources[ln]) && StaticsAt(e, s, ln, n);
    }
    forall ln, n | 0 <= ln < |s.nSrc| && 0 <= n < s.nSrc[ln]
      ensures Under(e, "d_source_names_", ln, n, Str(s.names[ln][n]))
      ensures Under(e, "d_r_src_", ln, n, Dbl(s.radii[ln][n]))
      ensures Under(e, "d_num_perimeter_nodes_", ln, n, Int(s.perimeter[ln][n]))
      ensures Under(e, "d_Q_src_", ln, n, Dbl(s.strengths[ln][n]))
      ensures Under(e, "d_P_src_", ln, n, Dbl(s.pressures[ln][n]))
    {
      StoredMembers(e, s, ln, n);
    }
  }

  lemma StoredMembers(e: map<string, Value>, s: Tables, ln: nat, n: nat)
    requires Storable(s) && Saved(e, s) && ln < |s.nSrc| && n < s.nSrc[ln]
    ensures Under(e, "d_source_names_", ln, n, Str(s.names[ln][n]))
    ensures Under(e, "d_r_src_", ln, n, Dbl(s.radii[ln][n]))
    ensures Under(e, "d_num_perimeter_nodes_", ln, n, Int(s.perimeter[ln][n]))
    ensures Under(e, "d_Q_src_", ln, n, Dbl(s.strengths[ln][n]))
    ensures Under(e, "d_P_src_", ln, n, Dbl(s.pressures[ln][n]))
  {
    assert MemberRowSaved(e, s, ln, s.nSrc[ln]) && MembersAt(e, s, ln, n);
  }

  // ----------------------------------------------------------------- loading

  /** A table cut down to the rows and entries that the counts promise. */
  function Cut<T>(rows: seq<seq<T>>, counts: seq<nat>): (r: seq<seq<T>>)
    requires Reaches(rows, counts)
    ensures |r| == |counts| && forall ln :: 0 <= ln < |counts| ==> r[ln] == rows[ln][..counts[ln]]
  {
    seq(|counts|, ln requires 0 <= ln < |counts| => rows[ln][..counts[ln]])
  }

  function Restored(s: Tables): Tables
    requires Storable(s)
  {
    Tables(s.numSources, Cut(s.staticNames, s.numSources), Cut(s.staticRadii, s.numSources),
           s.nSrc, Cut(s.names, s.nSrc), Cut(s.radii, s.nSrc), Cut(s.perimeter, s.nSrc),
           Cut(s.strengths, s.nSrc), Cut(s.pressures, s.nSrc))
  }

  predicate Matches<T>(rows: seq<seq<T>>, counts: seq<nat>) {
    |rows| == |counts| && forall ln :: 0 <= ln < |counts| ==> |rows[ln]| == counts[ln]
  }

  predicate Matching(s: Tables) {
    && Matches(s.staticNames, s.numSources) && Matches(s.staticRadii, s.numSources)
    && MembersMatch(s)
  }

  predicate MembersMatch(s: Tables) {
    && Matches(s.names, s.nSrc) && Matches(s.radii, s.nSrc) && Matches(s.perimeter, s.nSrc)
    && Matches(s.strengths, s.nSrc) && Matches(s.pressures, s.nSrc)
  }

  lemma CutIff<T>(rows: seq<seq<T>>, counts: seq<nat>)
    requires Reaches(rows, counts)
    ensures Cut(rows, counts) == rows <==> Matches(rows, counts)
  {
    if Matches(rows, counts) {
      forall ln | 0 <= ln < |rows|
        ensures Cut(rows, counts)[ln] == rows[ln]
      {
        assert rows[ln][..counts[ln]] == rows[ln];
      }
    }
  }

  /** Loading what was saved restores every table exactly when every row is as long as its count says. */
  lemma RestoresIff(s: Tables)
    requires Storable(s)
    ensures Restored(s) == s <==> Matching(s)
  {
    CutIff(s.staticNames, s.numSources);
    CutIff(s.staticRadii, s.numSources);
    CutIff(s.names, s.nSrc);
    CutIff(s.radii, s.nSrc);
    CutIff(s.perimeter, s.nSrc);
    CutIff(s.strengths, s.nSrc);
    CutIff(s.pressures, s.nSrc);
  }

  method GetStaticRow(db: Database, ln: nat, count: nat, ghost s: Tables) returns (names: seq<string>, radii: seq<real>)
    requires StaticsSaved(db.entries, s) && Storable(s) && ln < |s.numSources| && count == s.numSources[ln]
    ensures names == s.staticNames[ln][..count] && radii == s.staticRadii[ln][..count]
  {
    names, radii := seq(count, _ => ""), seq(count, _ => 0.0);
    for n := 0 to count
      invariant |names| == |radii| == count
      invariant forall b :: 0 <= b < n ==> names[b] == s.staticNames[ln][b] && radii[b] == s.staticRadii[ln][b]
    {
      assert StaticsAt(db.entries, s, ln, n);
      names := names[n := db.entries[Name(Cell(StaticNames, ln, n))].s];
      radii := radii[n := db.entries[Name(Cell(StaticRadii, ln, n))].d];
    }
  }

  method GetStatics(db: Database, ghost s: Tables)
    returns (counts: seq<nat>, names: seq<seq<string>>, radii: seq<seq<real>>)
    requires StaticsSaved(db.entries, s) && Storable(s)
    ensures counts == s.numSources && names == Cut(s.staticNames, counts) && radii == Cut(s.staticRadii, counts)
  {
    var levels := db.entries[Name(NumLevels)].i;
    counts := db.entries[Name(Counts)].a;
    names, radii := seq(levels, _ => []), seq(levels, _ => []);
    for ln := 0 to levels
      invariant |names| == |radii| == levels
      invariant forall a :: 0 <= a < ln ==>
                names[a] == s.staticNames[a][..counts[a]] && radii[a] == s.staticRadii[a][..counts[a]]
    {
      var nameRow, radiusRow := GetStaticRow(db, ln, counts[ln], s);
      names, radii := names[ln := nameRow], radii[ln := radiusRow];
    }
  }

  /** One level's five rows. */
  datatype MemberRows = MemberRows(names: seq<string>, radii: seq<real>, perimeter: seq<nat>, strengths: seq<real>,
                                   pressures: seq<real>)

  function RowsAt(s: Tables, ln: nat): MemberRows
    requires Storable(s) && ln < |s.nSrc|
  {
    var c := s.nSrc[ln];
    MemberRows(s.names[ln][..c], s.radii[ln][..c], s.perimeter[ln][..c], s.strengths[ln][..c], s.pressures[ln][..c])
  }

  method GetMemberRows(db: Database, ln: nat, count: nat, ghost s: Tables) returns (r: MemberRows)
    requires MembersSaved(db.entries, s) && Storable(s) && ln < |s.nSrc| && count == s.nSrc[ln]
    ensures r == RowsAt(s, ln)
  {
    var names, radii, perimeter := seq(count, _ => ""), seq(count, _ => 0.0), seq(count, _ => 0);
    var strengths, pressures := seq(count, _ => 0.0), seq(count, _ => 0.0);
    for n := 0 to count
      invariant |names| == |radii| == |perimeter| == |strengths| == |pressures| == count
      invariant forall b :: 0 <= b < n ==> names[b] == s.names[ln][b] && radii[b] == s.radii[ln][b]
      invariant forall b :: 0 <= b < n ==> perimeter[b] == s.perimeter[ln][b]
      invariant forall b :: 0 <= b < n ==> strengths[b] == s.strengths[ln][b] && pressures[b] == s.pressures[ln][b]
    {
      assert MembersAt(db.entries, s, ln, n);
      names := names[n := db.entries[Name(Cell(Names, ln, n))].s];
      radii := radii[n := db.entries[Name(Cell(Radii, ln, n))].d];
      perimeter := perimeter[n := db.entries[Name(Cell(PerimeterNodes, ln, n))].i];
      strengths := strengths[n := db.entries[Name(Cell(Strengths, ln, n))].d];
      pressures := pressures[n := db.entries[Name(Cell(Pressures, ln, n))].d];
    }
    r := MemberRows(names, radii, perimeter, strengths, pressures);
  }

  method GetMembers(db: Database, ghost s: Tables) returns (counts: seq<nat>, rows: seq<MemberRows>)
    requires MembersSaved(db.entries, s) && Storable(s)
    ensures counts == s.nSrc && |rows| == |counts| && forall ln :: 0 <= ln < |counts| ==> rows[ln] == RowsAt(s, ln)
  {
    var levels := db.entries[Name(FinestLevel)].i + 1;
    counts := db.entries[Name(MemberCounts)].a;
    rows := [];
    for ln := 0 to levels
      invariant |rows| == ln && forall a :: 0 <= a < ln ==> rows[a] == RowsAt(s, a)
    {
      var r := GetMemberRows(db, ln, counts[ln], s);
      rows := rows + [r];
    }
  }

  // ------------------------------------------------------------ the generator

  /** How many of a process's nodes belong to source `k`, and how many of the first `p` processes' nodes. */
  function Count(idxs: seq<nat>, k: nat): nat {
    if idxs == [] then 0 else Count(idxs[..|idxs| - 1], k) + (if idxs[|idxs| - 1] == k then 1 else 0)
  }

  function CountAll(local: seq<seq<nat>>, k: nat, p: nat): nat
    requires p <= |local|
  {
    if p == 0 then 0 else CountAll(local, k, p - 1) + Count(local[p - 1], k)
  }

  /** The places, as process and position, at which source `k` occurs: on the first `p` processes, and at the first
      `m` positions of the next. */
  ghost function Places(local: seq<seq<nat>>, k: nat, p: nat, m: nat): set<(nat, nat)>
    requires p <= |local| && (if p < |local| then m <= |local[p]| else m == 0)
  {
    set i: nat, j: nat | i <= p && i < |local| && j < |local[i]| && (i < p || j < m) && local[i][j] == k :: (i, j)
  }

  lemma {:induction false} CountIsPlaces(local: seq<seq<nat>>, k: nat, p: nat, m: nat)
    requires p <= |local| && (if p < |local| then m <= |local[p]| else m == 0)
    ensures |Places(local, k, p, m)| == CountAll(local, k, p) + (if p < |local| then Count(local[p][..m], k) else 0)
    decreases p, m
  {
    if m > 0 {
      var last := local[p][m - 1];
      CountIsPlaces(local, k, p, m - 1);
      assert local[p][..m][..m - 1] == local[p][..m - 1];
      assert Places(local, k, p, m) == Places(local, k, p, m - 1) + if last == k then {(p, m - 1)} else {};
    } else if p > 0 {
      CountIsPlaces(local, k, p - 1, |local[p - 1]|);
      assert local[p - 1][..|local[p - 1]|] == local[p - 1];
      assert Places(local, k, p, 0) == Places(local, k, p - 1, |local[p - 1]|);
      assert p < |local| ==> local[p][..0] == [];
    } else {
      assert Places(local, k, 0, 0) == {};
      assert 0 < |local| ==> local[0][..0] == [];
    }
  }

  function Resized<T>(row: seq<T>, n: nat, d: T): (r: seq<T>)
    ensures |r| == n && forall k :: 0 <= k < n ==> r[k] == if k < |row| then row[k] else d
  {
    if n <= |row| then row[..n] else row + seq(n - |row|, _ => d)
  }

  function AtLeast<T>(rows: seq<T>, n: nat, d: T): (r: seq<T>)
    ensures |r| >= n && |r| >= |rows| && (|r| == n || |r| == |rows|)
    ensures forall k :: 0 <= k < |r| ==> r[k] == if k < |rows| then rows[k] else d
  {
    Resized(rows, if n > |rows| then n else |rows|, d)
  }

  function Grown(s: Tables, level: nat): Tables {
    Tables(s.numSources, s.staticNames, s.staticRadii,
           AtLeast(s.nSrc, level + 1, 0), AtLeast(s.names, level + 1, []), AtLeast(s.radii, level + 1, []),
           AtLeast(s.perimeter, level + 1, []), AtLeast(s.strengths, level + 1, []),
           AtLeast(s.pressures, level + 1, []))
  }

  /** The tables after a level is initialised, for the source indices of every process's nodes: a level without
      sources keeps its old rows. */
  function Initialized(s: Tables, level: nat, local: seq<seq<nat>>): Tables
    requires level < |s.numSources| && (s.numSources[level] > 0 ==> level < |s.staticNames| && level < |s.staticRadii|)
  {
    var g, n := Grown(s, level), s.numSources[level];
    if n == 0 then g.(nSrc := g.nSrc[level := 0])
    else g.(nSrc := g.nSrc[level := n], names := g.names[level := s.staticNames[level]],
            radii := g.radii[level := s.staticRadii[level]],
            perimeter := g.perimeter[level := seq(n, k requires 0 <= k < n => CountAll(local, k, |local|))],
            strengths := g.strengths[level := Resized(g.strengths[level], n, 0.0)],
            pressures := g.pressures[level := Resized(g.pressures[level], n, 0.0)])
  }

  /** A level with sources holds the registered names and radii, as many perimeter nodes of every source as there are
      places at which it occurs among the nodes of all processes, and the old strengths and pressures, zero where there
      were none. */
  ghost predicate LevelHolds(s: Tables, t: Tables, level: nat, local: seq<seq<nat>>) {
    && level < |s.numSources| && level < |s.staticNames| && level < |s.staticRadii|
    && level < |t.names| && level < |t.radii| && level < |t.perimeter| && level < |t.strengths| && level < |t.pressures|
    && t.names[level] == s.staticNames[level] && t.radii[level] == s.staticRadii[level]
    && |t.perimeter[level]| == |t.strengths[level]| == |t.pressures[level]| == s.numSources[level]
    && (forall k :: 0 <= k < s.numSources[level] ==>
          && t.perimeter[level][k]
             == |set i: nat, j: nat | i < |local| && j < |local[i]| && local[i][j] == k :: (i, j)|
          && t.strengths[level][k]
             == (if level < |s.strengths| && k < |s.strengths[level]| then s.strengths[level][k] else 0.0)
          && t.pressures[level][k]
             == (if level < |s.pressures| && k < |s.pressures[level]| then s.pressures[level][k] else 0.0))
  }

  lemma InitializedHolds(s: Tables, level: nat, local: seq<seq<nat>>)
    requires level < |s.numSources| && s.numSources[level] > 0 && level < |s.staticNames| && level < |s.staticRadii|
    ensures LevelHolds(s, Initialized(s, level, local), level, local)
  {
    forall k | 0 <= k < s.numSources[level]
      ensures CountAll(local, k, |local|)
           == |set i: nat, j: nat | i < |local| && j < |local[i]| && local[i][j] == k :: (i, j)|
    {
      CountIsPlaces(local, k, |local|, 0);
      assert Places(local, k, |local|, 0)
          == set i: nat, j: nat | i < |local| && j < |local[i]| && local[i][j] == k :: (i, j);
    }
  }

  class IBStandardSourceGen {
    var tables: Tables

    constructor ()
      ensures tables == Tables([], [], [], [], [], [], [], [], [])
    {
      tables := Tables([], [], [], [], [], [], [], [], []);
    }

    /** A generator made from a restart database that holds `saved`. */
    constructor FromRestart(db: Database, ghost saved: Tables)
      requires Storable(saved) && Saved(db.entries, saved)
      ensures tables == Restored(saved)
    {
      tables := Tables([], [], [], [], [], [], [], [], []);
      new;
      GetFromRestart(db, saved);
    }

    method GetFromRestart(db: Database, ghost saved: Tables)
      requires Storable(saved) && Saved(db.entries, saved)
      modifies this
      ensures tables == Restored(saved)
    {
      var counts, names, radii := GetStatics(db, saved);
      var nSrc, rows := GetMembers(db, saved);
      tables := Assemble(counts, names, radii, nSrc, rows, saved);
    }

    method PutToDatabase(db: Database)
      requires Storable(tables)
      modifies db
      ensures Saved(db.entries, tables)
    {
      PutStatics(db, tables);
      ghost var before := db.entries;
      PutMembers(db, tables);
      StaticsKept(before, db.entries, tables);
    }

    method SetNumSources(ln: nat, n: nat)
      modifies this
      ensures tables == old(tables).(numSources := AtLeast(old(tables).numSources, ln + 1, 0)[ln := n])
    {
      tables := tables.(numSources := AtLeast(tables.numSources, ln + 1, 0)[ln := n]);
    }

    /** The perimeter nodes are counted on every process and the counts added up. */
    method InitializeLevelData(level: nat, local: seq<seq<nat>>)
      requires level < |tables.numSources|
      requires tables.numSources[level] > 0 ==> level < |tables.staticNames| && level < |tables.staticRadii|
      requires forall p :: 0 <= p < |local| ==> IndicesBelow(local[p], tables.numSources[level])
      modifies this
      ensures tables == Initialized(old(tables), level, local)
      ensures tables.nSrc[level] == old(tables).numSources[level] && tables.numSources == old(tables).numSources
      ensures tables.nSrc[level] > 0 ==> LevelHolds(old(tables), tables, level, local)
      ensures forall ln :: 0 <= ln < |old(tables).nSrc| && ln != level ==> tables.nSrc[ln] == old(tables).nSrc[ln]
    {
      var n := tables.numSources[level];
      tables := Grown(tables, level);
      tables := tables.(nSrc := tables.nSrc[level := n]);
      if n == 0 {
        return;
      }
      tables := tables.(names := tables.names[level := tables.staticNames[level]],
                        radii := tables.radii[level := tables.staticRadii[level]],
                        strengths := tables.strengths[level := Resized(tables.strengths[level], n, 0.0)],
                        pressures := tables.pressures[level := Resized(tables.pressures[level], n, 0.0)]);
      var perimeter := SumCounts(local, n);
      tables := tables.(perimeter := tables.perimeter[level := perimeter]);
      InitializedHolds(old(tables), level, local);
    }
  }

  predicate IndicesBelow(idxs: seq<nat>, n: nat) {
    forall k :: 0 <= k < |idxs| ==> idxs[k] < n
  }

  /** The reduction over processes. */
  method SumCounts(local: seq<seq<nat>>, n: nat) returns (perimeter: seq<nat>)
    requires forall p :: 0 <= p < |local| ==> IndicesBelow(local[p], n)
    ensures perimeter == seq(n, k requires 0 <= k < n => CountAll(local, k, |local|))
  {
    perimeter := seq(n, _ => 0);
    for p := 0 to |local|
      invariant |perimeter| == n && forall k :: 0 <= k < n ==> perimeter[k] == CountAll(local, k, p)
    {
      var mine := CountNodes(local[p], n);
      perimeter := seq(n, k requires 0 <= k < n => perimeter[k] + mine[k]);
    }
  }

  method CountNodes(idxs: seq<nat>, n: nat) returns (perimeter: seq<nat>)
    requires IndicesBelow(idxs, n)
    ensures perimeter == seq(n, k requires 0 <= k < n => Count(idxs, k))
  {
    perimeter := seq(n, _ => 0);
    for m := 0 to |idxs|
      invariant |perimeter| == n && forall k :: 0 <= k < n ==> perimeter[k] == Count(idxs[..m], k)
    {
      assert idxs[..m + 1][..m] == idxs[..m];
      perimeter := perimeter[idxs[m] := perimeter[idxs[m]] + 1];
    }
    assert idxs[..|idxs|] == idxs;
  }

  method Assemble(counts: seq<nat>, names: seq<seq<string>>, radii: seq<seq<real>>, nSrc: seq<nat>,
                  rows: seq<MemberRows>, ghost s: Tables)
    returns (t: Tables)
    requires Storable(s) && counts == s.numSources && names == Cut(s.staticNames, counts)
    requires radii == Cut(s.staticRadii, counts)
    requires nSrc == s.nSrc && |rows| == |nSrc| && forall ln :: 0 <= ln < |nSrc| ==> rows[ln] == RowsAt(s, ln)
    ensures t == Restored(s)
  {
    var n := |rows|;
    t := Tables(counts, names, radii, nSrc, seq(n, k requires 0 <= k < n => rows[k].names),
                seq(n, k requires 0 <= k < n => rows[k].radii), seq(n, k requires 0 <= k < n => rows[k].perimeter),
                seq(n, k requires 0 <= k < n => rows[k].strengths), seq(n, k requires 0 <= k < n => rows[k].pressures));
    assert t.names == Cut(s.names, nSrc) && t.radii == Cut(s.radii, nSrc) && t.perimeter == Cut(s.perimeter, nSrc);
    assert t.strengths == Cut(s.strengths, nSrc) && t.pressures == Cut(s.pressures, nSrc);
  }

  /** Initialising a level keeps every row as long as its count, unless the level had sources and now has none:
      then its old rows outlive their count, and a restart does not restore them. */
  lemma InitializedMatches(s: Tables, level: nat, local: seq<seq<nat>>)
    requires MembersMatch(s) && level < |s.numSources|
    requires s.numSources[level] > 0 ==> level < |s.staticNames| && level < |s.staticRadii|
    requires s.numSources[level] > 0 ==> |s.staticNames[level]| == |s.staticRadii[level]| == s.numSources[level]
    ensures MembersMatch(Initialized(s, level, local)) <==>
            (s.numSources[level] > 0 || level >= |s.nSrc| || s.nSrc[level] == 0)
  {
    var t := Initialized(s, level, local);
    if s.numSources[level] == 0 && level < |s.nSrc| && s.nSrc[level] != 0 {
      assert t.nSrc[level] != |t.names[level]|;
    }
  }

  /** A level that loses its sources is not restored as it was. */
  lemma StaleRowsAreLost(s: Tables, level: nat)
    requires MembersMatch(s) && level < |s.numSources| && level < |s.nSrc|
    requires s.numSources[level] == 0 && s.nSrc[level] > 0
    requires Storable(Initialized(s, level, []))
    ensures Restored(Initialized(s, level, [])) != Initialized(s, level, [])
  {
    InitializedMatches(s, level, []);
    RestoresIff(Initialized(s, level, []));
  }

  lemma SameCut<T>(a: seq<seq<T>>, b: seq<seq<T>>, counts: seq<nat>)
    requires Reaches(a, counts) && Reaches(b, counts)
    requires forall ln :: 0 <= ln < |counts| ==> a[ln][..counts[ln]] == b[ln][..counts[ln]]
    ensures Cut(a, counts) == Cut(b, counts)
  {
  }

  lemma SameStaticRow(e: map<string, Value>, s: Tables, t: Tables, ln: nat, count: nat)
    requires StaticRowSaved(e, s, ln, count) && StaticRowSaved(e, t, ln, count)
    requires ln < |s.staticNames| && ln < |t.staticNames| && ln < |s.staticRadii| && ln < |t.staticRadii|
    requires count <= |s.staticNames[ln]| && count <= |t.staticNames[ln]| && count <= |s.staticRadii[ln]|
    requires count <= |t.staticRadii[ln]|
    ensures s.staticNames[ln][..count] == t.staticNames[ln][..count]
    ensures s.staticRadii[ln][..count] == t.staticRadii[ln][..count]
  {
    forall n | 0 <= n < count
      ensures s.staticNames[ln][n] == t.staticNames[ln][n] && s.staticRadii[ln][n] == t.staticRadii[ln][n]
    {
      assert StaticsAt(e, s, ln, n) && StaticsAt(e, t, ln, n);
    }
  }

  lemma SameMemberRows(e: map<string, Value>, s: Tables, t: Tables, ln: nat)
    requires Storable(s) && Storable(t) && s.nSrc == t.nSrc && ln < |s.nSrc|
    requires MemberRowSaved(e, s, ln, s.nSrc[ln]) && MemberRowSaved(e, t, ln, s.nSrc[ln])
    ensures RowsAt(s, ln) == RowsAt(t, ln)
  {
    forall n | 0 <= n < s.nSrc[ln]
      ensures s.names[ln][n] == t.names[ln][n] && s.radii[ln][n] == t.radii[ln][n]
      ensures s.perimeter[ln][n] == t.perimeter[ln][n]
      ensures s.strengths[ln][n] == t.strengths[ln][n] && s.pressures[ln][n] == t.pressures[ln][n]
    {
      assert MembersAt(e, s, ln, n) && MembersAt(e, t, ln, n);
    }
  }

  /** A database holds one generator: what is loaded does not depend on anything but its entries. */
  lemma SavedDetermines(e: map<string, Value>, s: Tables, t: Tables)
    requires Storable(s) && Storable(t) && Saved(e, s) && Saved(e, t)
    ensures Restored(s) == Restored(t)
  {
    assert Has(e, s, Counts) && Has(e, t, Counts) && Has(e, s, MemberCounts) && Has(e, t, MemberCounts);
    forall ln | 0 <= ln < |s.numSources|
      ensures s.staticNames[ln][..s.numSources[ln]] == t.staticNames[ln][..s.numSources[ln]]
      ensures s.staticRadii[ln][..s.numSources[ln]] == t.staticRadii[ln][..s.numSources[ln]]
    {
      SameStaticRow(e, s, t, ln, s.numSources[ln]);
    }
    forall ln | 0 <= ln < |s.nSrc|
      ensures RowsAt(s, ln) == RowsAt(t, ln)
    {
      SameMemberRows(e, s, t, ln);
    }
    SameRows(s, t);
  }

  lemma SameRows(s: Tables, t: Tables)
    requires Storable(s) && Storable(t) && s.numSources == t.numSources && s.nSrc == t.nSrc
    requires forall ln :: 0 <= ln < |s.numSources| ==>
             s.staticNames[ln][..s.numSources[ln]] == t.staticNames[ln][..s.numSources[ln]]
    requires forall ln :: 0 <= ln < |s.numSources| ==>
             s.staticRadii[ln][..s.numSources[ln]] == t.staticRadii[ln][..s.numSources[ln]]
    requires forall ln :: 0 <= ln < |s.nSrc| ==> RowsAt(s, ln) == RowsAt(t, ln)
    ensures Restored(s) == Restored(t)
  {
    SameCut(s.staticNames, t.staticNames, s.numSources);
    SameCut(s.staticRadii, t.staticRadii, s.numSources);
    forall ln | 0 <= ln < |s.nSrc|
      ensures s.names[ln][..s.nSrc[ln]] == t.names[ln][..s.nSrc[ln]]
      ensures s.radii[ln][..s.nSrc[ln]] == t.radii[ln][..s.nSrc[ln]]
      ensures s.perimeter[ln][..s.nSrc[ln]] == t.perimeter[ln][..s.nSrc[ln]]
      ensures s.strengths[ln][..s.nSrc[ln]] == t.strengths[ln][..s.nSrc[ln]]
      ensures s.pressures[ln][..s.nSrc[ln]] == t.pressures[ln][..s.nSrc[ln]]
    {
      assert RowsAt(s, ln) == RowsAt(t, ln);
    }
    SameCut(s.names, t.names, s.nSrc);
    SameCut(s.radii, t.radii, s.nSrc);
    SameCut(s.perimeter, t.perimeter, s.nSrc);
    SameCut(s.strengths, t.strengths, s.nSrc);
    SameCut(s.pressures, t.pressures, s.nSrc);
  }

  /** A generator saved into an empty database and loaded again. */
  method Restart(g: IBStandardSourceGen) returns (h: IBStandardSourceGen)
    requires Storable(g.tables)
    ensures h.tables == g.tables <==> Matching(g.tables)
  {
    var db := new Database();
    g.PutToDatabase(db);
    h := new IBStandardSourceGen.FromRestart(db, g.tables);
    RestoresIff(g.tables);
  }
}
