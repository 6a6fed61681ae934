/** How many cells are tagged around each level, so that finer levels nest inside coarser ones. */
module TagBuffer {

  import opened CDivision

  /** The ratio of a level to the next coarser one, axis by axis, and its greatest component. */
  datatype IntVector = IntVector(i: int, j: int, k: int) {
    predicate Positive() {
      i > 0 && j > 0 && k > 0
    }

    function Max(): (m: int)
      ensures m >= i && m >= j && m >= k && (m == i || m == j || m == k)
    {
      var ij := if i >= j then i else j;
      if ij >= k then ij else k
    }
  }

  datatype Axis = X | Y | Z

  function Along(v: IntVector, axis: Axis): int {
    match axis
    case X => v.i
    case Y => v.j
    case Z => v.k
  }

  ghost predicate Ratios(ratio: nat -> IntVector) {
    forall ln :: ratio(ln).Positive()
  }

  function Given(tags: seq<int>, i: nat): int {
    if i < |tags| then tags[i] else 0
  }

  /** No entry is below what was asked for. */
  predicate KeepsInput(b: seq<int>, tags: seq<int>) {
    forall i :: 0 <= i < |b| ==> b[i] >= Given(tags, i)
  }

  /** Every level that tags for one with Lagrangian data tags at least the ghost width. */
  predicate CoversData(b: seq<int>, gcw: int, hasData: (nat, bool) -> bool) {
    forall ln :: 0 <= ln < |b| && hasData(ln + 1, ln + 1 < |b|) ==> b[ln] >= gcw
  }

  /** What the level below asks for: its buffer in coarser cells, by the greatest ratio, and one more. */
  function Wanted(b: seq<int>, ratio: nat -> IntVector, ln: nat): int
    requires ln + 1 < |b| && ratio(ln + 1).Positive()
  {
    CDiv(b[ln + 1], ratio(ln + 1).Max()) + 1
  }

  predicate Cascades(b: seq<int>, ratio: nat -> IntVector)
    requires forall ln :: 0 < ln < |b| ==> ratio(ln).Positive()
  {
    forall ln :: 0 <= ln < |b| - 1 ==> b[ln] >= Wanted(b, ratio, ln)
  }

  predicate Below(b: seq<int>, c: seq<int>) {
    |b| == |c| && forall i :: 0 <= i < |b| ==> b[i] <= c[i]
  }

  method ResizeBuffer(tags: seq<int>, n: nat) returns (b: seq<int>)
    ensures |b| == n && forall i :: 0 <= i < n ==> b[i] == Given(tags, i)
  {
    b := if n <= |tags| then tags[..n] else tags;
    for i := |b| to n
      invariant |b| == i && forall j :: 0 <= j < i ==> b[j] == Given(tags, j)
    {
      b := b + [0];
    }
  }

  lemma CascadeStep(b: seq<int>, c: seq<int>, ln: nat, ratio: nat -> IntVector)
    requires Ratios(ratio) && Cascades(c, ratio) && ln + 1 < |b| == |c| && b[ln + 1] <= c[ln + 1]
    ensures Wanted(b, ratio, ln) <= c[ln]
  {
    CDivMonotone(b[ln + 1], c[ln + 1], ratio(ln + 1).Max());
  }

  /** The entry of a level is what it was, or what the level below asks for. */
  ghost predicate Tight(base: seq<int>, b: seq<int>, ratio: nat -> IntVector, ln: nat)
    requires Ratios(ratio) && ln + 1 < |b| == |base|
  {
    b[ln] == Max(base[ln], CDiv(b[ln + 1], ratio(ln + 1).Max()) + 1)
  }

  lemma TightCascades(base: seq<int>, b: seq<int>, ratio: nat -> IntVector)
    requires Ratios(ratio) && |b| == |base| && forall ln: nat :: ln < |b| - 1 ==> Tight(base, b, ratio, ln)
    ensures Cascades(b, ratio)
  {
    forall ln: nat | ln < |b| - 1 ensures b[ln] >= Wanted(b, ratio, ln) {
      assert Tight(base, b, ratio, ln);
    }
  }

  /** From the finest level down: the least cascading buffer above the given one. */
  method Cascade(base: seq<int>, ratio: nat -> IntVector) returns (b: seq<int>)
    requires Ratios(ratio)
    ensures |b| == |base| && Below(base, b) && Cascades(b, ratio)
    ensures forall ln: nat :: ln < |b| - 1 ==> Tight(base, b, ratio, ln)
    ensures b != [] ==> b[|b| - 1] == base[|b| - 1]
    ensures forall c :: Below(base, c) && Cascades(c, ratio) ==> Below(b, c)
  {
    b := base;
    var ln := |b| - 2;
    while ln >= 0
      invariant -1 <= ln <= |base| - 1 || base == []
      invariant |b| == |base| && Below(base, b)
      invariant forall i :: 0 <= i <= ln && i < |b| ==> b[i] == base[i]
      invariant forall i: nat :: ln < i < |b| - 1 ==> Tight(base, b, ratio, i)
      invariant b != [] ==> b[|b| - 1] == base[|b| - 1]
      invariant forall c :: Below(base, c) && Cascades(c, ratio) ==> Below(b, c)
    {
      ghost var before := b;
      b := b[ln := Max(b[ln], CDiv(b[ln + 1], ratio(ln + 1).Max()) + 1)];
      forall c | Below(base, c) && Cascades(c, ratio)
        ensures Below(b, c)
      {
        assert Below(before, c);
        CascadeStep(before, c, ln, ratio);
      }
      forall i: nat | ln - 1 < i < |b| - 1 ensures Tight(base, b, ratio, i) {
        assert i > ln ==> Tight(base, before, ratio, i);
      }
      ln := ln - 1;
    }
    TightCascades(base, b, ratio);
  }

  function Max(a: int, b: int): (m: int)
    ensures m >= a && m >= b && (m == a || m == b)
  {
    if a >= b then a else b
  }

  /** The greatest of what was asked for, of the ghost width where the next level has data, and of one more than the
      next level's buffer in this level's cells. */
  ghost function Required(tags: seq<int>, finest: nat, gcw: int, hasData: (nat, bool) -> bool, ratio: nat -> IntVector,
                          b: seq<int>, ln: nat): int
    requires Ratios(ratio) && ln < finest == |b|
  {
    var asked := if ln < |tags| then tags[ln] else 0;
    var wide := if hasData(ln + 1, ln + 1 < finest) then Max(asked, gcw) else asked;
    if ln + 1 < finest then Max(wide, CDiv(b[ln + 1], ratio(ln + 1).Max()) + 1) else wide
  }

  /** IBMethod: the least buffer that keeps the input, covers the data and cascades. */
  method SetupTagBuffer(tags: seq<int>, finest: nat, gcw: int, hasData: (nat, bool) -> bool, ratio: nat -> IntVector)
    returns (b: seq<int>)
    requires Ratios(ratio)
    ensures |b| == finest && KeepsInput(b, tags) && CoversData(b, gcw, hasData) && Cascades(b, ratio)
    ensures forall ln: nat :: ln < finest ==> b[ln] == Required(tags, finest, gcw, hasData, ratio, b, ln)
    ensures forall c :: |c| == finest && KeepsInput(c, tags) && CoversData(c, gcw, hasData) && Cascades(c, ratio) ==>
            Below(b, c)
  {
    b := ResizeBuffer(tags, finest);
    for ln := 0 to finest
      invariant |b| == finest
      invariant forall i :: 0 <= i < finest ==> b[i] >= Given(tags, i) && (i >= ln ==> b[i] == Given(tags, i))
      invariant forall i :: 0 <= i < ln ==>
                b[i] == if hasData(i + 1, i + 1 < finest) then Max(Given(tags, i), gcw) else Given(tags, i)
    {
      if hasData(ln + 1, ln + 1 < finest) {
        b := b[ln := Max(b[ln], gcw)];
      }
    }
    var base := b;
    b := Cascade(base, ratio);
    forall ln: nat | ln < finest ensures b[ln] == Required(tags, finest, gcw, hasData, ratio, b, ln) {
      assert ln + 1 < finest ==> Tight(base, b, ratio, ln);
    }
    forall c | |c| == finest && KeepsInput(c, tags) && CoversData(c, gcw, hasData) && Cascades(c, ratio)
      ensures Below(b, c)
    {
      assert Below(base, c);
    }
  }

  /** A finite-element part: its ghost width and the level that holds it. */
  datatype Part = Part(gcw: int, level: int)

  predicate CoversParts(b: seq<int>, parts: seq<Part>, n: nat)
    requires n <= |parts|
  {
    forall p :: 0 <= p < n && 0 <= parts[p].level - 1 < |b| ==> b[parts[p].level - 1] >= parts[p].gcw
  }

  /** The least buffer that keeps the input and covers the parts, before the cascade. */
  method CoverParts(tags: seq<int>, finest: nat, parts: seq<Part>) returns (b: seq<int>)
    ensures |b| == finest && KeepsInput(b, tags) && CoversParts(b, parts, |parts|)
    ensures forall c :: |c| == finest && KeepsInput(c, tags) && CoversParts(c, parts, |parts|) ==> Below(b, c)
  {
    b := ResizeBuffer(tags, finest);
    for p := 0 to |parts|
      invariant |b| == finest && KeepsInput(b, tags) && CoversParts(b, parts, p)
      invariant forall c :: |c| == finest && KeepsInput(c, tags) && CoversParts(c, parts, p) ==> Below(b, c)
    {
      var ln := parts[p].level - 1;
      ghost var before := b;
      if ln >= 0 && ln < finest {
        b := b[ln := Max(b[ln], parts[p].gcw)];
      }
      forall c | |c| == finest && KeepsInput(c, tags) && CoversParts(c, parts, p + 1)
        ensures Below(b, c)
      {
        assert CoversParts(c, parts, p);
        assert Below(before, c);
      }
    }
  }

  /** IBFEMethod: the same for the levels that hold its parts. */
  method SetupTagBufferForParts(tags: seq<int>, finest: nat, parts: seq<Part>, ratio: nat -> IntVector)
    returns (b: seq<int>)
    requires Ratios(ratio)
    ensures |b| == finest && KeepsInput(b, tags) && CoversParts(b, parts, |parts|) && Cascades(b, ratio)
    ensures forall ln :: 0 <= ln < finest ==> b[ln] >= if ln < |tags| then tags[ln] else 0
    ensures forall p :: 0 <= p < |parts| && 1 <= parts[p].level <= finest ==> b[parts[p].level - 1] >= parts[p].gcw
    ensures forall ln: nat :: ln + 1 < finest ==> b[ln] >= CDiv(b[ln + 1], ratio(ln + 1).Max()) + 1
    ensures forall c :: |c| == finest && KeepsInput(c, tags) && CoversParts(c, parts, |parts|) && Cascades(c, ratio) ==>
            Below(b, c)
  {
    var base := CoverParts(tags, finest, parts);
    b := Cascade(base, ratio);
    forall c | |c| == finest && KeepsInput(c, tags) && CoversParts(c, parts, |parts|) && Cascades(c, ratio)
      ensures Below(b, c)
    {
      assert Below(base, c);
    }
  }

  // ------------------------------------------------------------ nesting

  /** The number of cells of level `fine` in one cell of level `coarse` along an axis. */
  function Refinement(ratio: nat -> IntVector, axis: Axis, coarse: nat, fine: nat): int
    requires coarse <= fine
    decreases fine - coarse
  {
    if coarse == fine then 1 else Along(ratio(coarse + 1), axis) * Refinement(ratio, axis, coarse + 1, fine)
  }

  lemma {:induction false} RefinementPositive(ratio: nat -> IntVector, axis: Axis, coarse: nat, fine: nat)
    requires Ratios(ratio) && coarse <= fine
    ensures Refinement(ratio, axis, coarse, fine) >= 1
    decreases fine - coarse
  {
    if coarse < fine {
      RefinementPositive(ratio, axis, coarse + 1, fine);
      Product(Along(ratio(coarse + 1), axis), Refinement(ratio, axis, coarse + 1, fine));
    }
  }

  lemma Product(a: int, b: int)
    requires a >= 1 && b >= 1
    ensures a * b >= 1
  {
  }

  /** Along the axis no level is refined less than along any other. */
  ghost predicate Greatest(ratio: nat -> IntVector, axis: Axis, n: nat) {
    forall ln :: 0 < ln < n ==> Along(ratio(ln), axis) == ratio(ln).Max()
  }

  /** Measured along the axis in cells of any finer level, a buffer is strictly wider than that level's own. */
  ghost predicate NestsAlong(b: seq<int>, ratio: nat -> IntVector, axis: Axis) {
    forall coarse, fine :: 0 <= coarse < fine < |b| ==> b[coarse] * Refinement(ratio, axis, coarse, fine) > b[fine]
  }

  lemma {:induction false} BuffersNest(b: seq<int>, ratio: nat -> IntVector, axis: Axis, coarse: nat, fine: nat)
    requires Ratios(ratio) && Cascades(b, ratio) && Greatest(ratio, axis, |b|) && coarse < fine < |b|
    ensures b[coarse] * Refinement(ratio, axis, coarse, fine) > b[fine]
    decreases fine - coarse
  {
    var r := ratio(coarse + 1).Max();
    CDivBounds(b[coarse + 1], r);
    Scaled(b[coarse], CDiv(b[coarse + 1], r) + 1, r);
    var rest := Refinement(ratio, axis, coarse + 1, fine);
    RefinementPositive(ratio, axis, coarse + 1, fine);
    WiderStill(b[coarse], r, b[coarse + 1], rest);
    if coarse + 1 < fine {
      BuffersNest(b, ratio, axis, coarse + 1, fine);
    }
  }

  lemma WiderStill(a: int, r: int, b: int, rest: int)
    requires a * r >= b + 1 && rest >= 1
    ensures a * (r * rest) > b * rest
  {
    assert a * (r * rest) == (a * r) * rest;
    Scaled(a * r, b + 1, rest);
  }

  /** A cascading buffer for `n` levels that is `m` of the greatest ratio wide on level `ln`, and no wider than it
      must be on the next coarser one. */
  function Steep(n: nat, ln: nat, greatest: int, m: int): (b: seq<int>)
    ensures |b| == n
  {
    seq(n, i requires 0 <= i < n => if i > ln then n - i else if i == ln then greatest * m else m + ln - i)
  }

  lemma SteepCascades(n: nat, ln: nat, ratio: nat -> IntVector, m: int)
    requires Ratios(ratio) && 0 < ln < n && m >= n
    ensures Cascades(Steep(n, ln, ratio(ln).Max(), m), ratio)
  {
    var b, greatest := Steep(n, ln, ratio(ln).Max(), m), ratio(ln).Max();
    forall i | 0 <= i < n - 1
      ensures b[i] >= Wanted(b, ratio, i)
    {
      var r := ratio(i + 1).Max();
      if i == ln - 1 {
        ExactQuotient(greatest, m);
      } else {
        AtMost(b[i + 1], r);
        if i == ln {
          Scaled(greatest, 1, m);
        }
      }
    }
  }

  lemma ExactQuotient(r: int, m: int)
    requires r > 0 && m >= 0
    ensures CDiv(r * m, r) == m
  {
    ProductNonNegative(r, m);
    Remainder(r * m, r, r * m / r);
    NotBelow(m, r * m / r, r);
    NotBelow(r * m / r, m, r);
  }

  lemma ProductNonNegative(r: int, m: int)
    requires r > 0 && m >= 0
    ensures r * m >= 0 && m * r == r * m
  {
  }

  lemma AtMost(a: int, r: int)
    requires r > 0 && a >= 0
    ensures CDiv(a, r) <= a
  {
    Remainder(a, r, a / r);
    if a / r > a {
      Scaled(r, 1, a / r);
    }
  }

  /** Along an axis that some level refines less than another, some cascading buffer does not nest. */
  lemma NarrowAxis(n: nat, ln: nat, ratio: nat -> IntVector, axis: Axis)
    requires Ratios(ratio) && 0 < ln < n && Along(ratio(ln), axis) < ratio(ln).Max()
    ensures exists b :: |b| == n && Cascades(b, ratio) && !NestsAlong(b, ratio, axis)
  {
    var r, greatest := Along(ratio(ln), axis), ratio(ln).Max();
    var m := n + r;
    var b := Steep(n, ln, greatest, m);
    SteepCascades(n, ln, ratio, m);
    assert Refinement(ratio, axis, ln, ln) == 1;
    assert Refinement(ratio, axis, ln - 1, ln) == r;
    TooNarrow(m, r, greatest);
    assert b[ln - 1] * Refinement(ratio, axis, ln - 1, ln) <= b[ln];
  }

  lemma TooNarrow(m: int, r: int, greatest: int)
    requires 0 < r < greatest && m >= r
    ensures (m + 1) * r <= greatest * m
  {
    Scaled(greatest, r + 1, m);
    assert (m + 1) * r == m * r + r && (r + 1) * m == m * r + m;
  }

  /** All cascading buffers nest along an axis exactly if every level is refined along it as much as along any other:
      along every axis, if the ratios have equal components. */
  lemma NestingIff(n: nat, ratio: nat -> IntVector, axis: Axis)
    requires Ratios(ratio)
    ensures (forall b :: |b| == n && Cascades(b, ratio) ==> NestsAlong(b, ratio, axis)) <==> Greatest(ratio, axis, n)
  {
    if Greatest(ratio, axis, n) {
      forall b | |b| == n && Cascades(b, ratio)
        ensures NestsAlong(b, ratio, axis)
      {
        forall coarse, fine | 0 <= coarse < fine < |b|
          ensures b[coarse] * Refinement(ratio, axis, coarse, fine) > b[fine]
        {
          BuffersNest(b, ratio, axis, coarse, fine);
        }
      }
    } else {
      var ln :| 0 < ln < n && Along(ratio(ln), axis) != ratio(ln).Max();
      NarrowAxis(n, ln, ratio, axis);
    }
  }

  /** Two levels refined by 2, 4 and 4: a buffer of three cells around eight finer ones cascades and is too narrow
      along x. */
  lemma NarrowExample(ratio: nat -> IntVector)
    requires Ratios(ratio) && ratio(1) == IntVector(2, 4, 4)
    ensures Cascades([3, 8], ratio) && !NestsAlong([3, 8], ratio, X)
  {
    assert Refinement(ratio, X, 1, 1) == 1 && Refinement(ratio, X, 0, 1) == 2;
    assert [3, 8][0] * Refinement(ratio, X, 0, 1) <= [3, 8][1];
  }
}
