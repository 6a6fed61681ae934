/** Where the standard source generator places its sources: at the means of their perimeter nodes. */
module SourceLocations {
  import opened Options
  import opened Vectors

  /** A node's position and the source it belongs to, if any. */
  datatype SourceNode = SourceNode(X: Vec3, source: Option<nat>)

  predicate BelongsTo(node: SourceNode, k: nat) {
    node.source == Some(k)
  }

  /** The number of perimeter nodes of a source, as counted when the level is initialised. */
  function NodeCount(nodes: seq<SourceNode>, k: nat, n: nat): nat
    requires n <= |nodes|
  {
    if n == 0 then 0 else NodeCount(nodes, k, n - 1) + (if BelongsTo(nodes[n - 1], k) then 1 else 0)
  }

  /** The sum of the node positions of a source, each divided by `count`. */
  function Location(nodes: seq<SourceNode>, k: nat, count: real, n: nat): Vec3
    requires n <= |nodes| && count != 0.0
  {
    if n == 0 then ZERO
    else if BelongsTo(nodes[n - 1], k) then Add(Location(nodes, k, count, n - 1), Divide(nodes[n - 1].X, count))
    else Location(nodes, k, count, n - 1)
  }

  function Total(nodes: seq<SourceNode>, k: nat, n: nat): Vec3
    requires n <= |nodes|
  {
    if n == 0 then ZERO
    else if BelongsTo(nodes[n - 1], k) then Add(Total(nodes, k, n - 1), nodes[n - 1].X)
    else Total(nodes, k, n - 1)
  }

  /** Every node's source exists and has perimeter nodes. */
  predicate Counted(nodes: seq<SourceNode>, perimeter: seq<nat>) {
    forall m :: 0 <= m < |nodes| && nodes[m].source.Some? ==>
      nodes[m].source.value < |perimeter| && perimeter[nodes[m].source.value] > 0
  }

  /** One process's contribution; sources without nodes here stay at the origin. */
  method AccumulateLocations(nodes: seq<SourceNode>, perimeter: seq<nat>) returns (X: seq<Vec3>)
    requires Counted(nodes, perimeter)
    ensures |X| == |perimeter|
    ensures forall k :: 0 <= k < |X| ==>
            X[k] == if perimeter[k] > 0 then Location(nodes, k, perimeter[k] as real, |nodes|) else ZERO
  {
    X := seq(|perimeter|, _ => ZERO);
    for m := 0 to |nodes|
      invariant |X| == |perimeter|
      invariant forall k :: 0 <= k < |X| ==>
                X[k] == if perimeter[k] > 0 then Location(nodes, k, perimeter[k] as real, m) else ZERO
    {
      if nodes[m].source.Some? {
        var k := nodes[m].source.value;
        X := X[k := Add(X[k], Divide(nodes[m].X, perimeter[k] as real))];
      }
    }
  }

  function AllNodes(local: seq<seq<SourceNode>>, p: nat): seq<SourceNode>
    requires p <= |local|
  {
    if p == 0 then [] else AllNodes(local, p - 1) + local[p - 1]
  }

  /** All processes: their contributions are added up. */
  method GetSourceLocations(local: seq<seq<SourceNode>>, perimeter: seq<nat>) returns (X: seq<Vec3>)
    requires forall p :: 0 <= p < |local| ==> Counted(local[p], perimeter)
    ensures |X| == |perimeter|
    ensures var all := AllNodes(local, |local|);
            forall k :: 0 <= k < |X| ==>
              X[k] == if perimeter[k] > 0 then Location(all, k, perimeter[k] as real, |all|) else ZERO
  {
    X := seq(|perimeter|, _ => ZERO);
    for p := 0 to |local|
      invariant |X| == |perimeter|
      invariant Located(X, AllNodes(local, p), perimeter)
    {
      var mine := AccumulateLocations(local[p], perimeter);
      Reduced(X, AllNodes(local, p), mine, local[p], perimeter);
      X := AddVec(X, mine);
    }
  }

  predicate Located(X: seq<Vec3>, nodes: seq<SourceNode>, perimeter: seq<nat>)
    requires |X| == |perimeter|
  {
    forall k :: 0 <= k < |X| ==>
      X[k] == if perimeter[k] > 0 then Location(nodes, k, perimeter[k] as real, |nodes|) else ZERO
  }

  lemma Reduced(X: seq<Vec3>, seen: seq<SourceNode>, mine: seq<Vec3>, more: seq<SourceNode>, perimeter: seq<nat>)
    requires |X| == |mine| == |perimeter| && Located(X, seen, perimeter) && Located(mine, more, perimeter)
    ensures Located(AddVec(X, mine), seen + more, perimeter)
  {
    forall k | 0 <= k < |X|
      ensures AddVec(X, mine)[k] ==
              if perimeter[k] > 0 then Location(seen + more, k, perimeter[k] as real, |seen + more|) else ZERO
    {
      if perimeter[k] > 0 {
        LocationOfBoth(seen, more, k, perimeter[k] as real, |more|);
        assert (seen + more)[..|seen + more|] == seen + more;
      }
    }
  }

  lemma {:induction false} LocationOfPrefix(a: seq<SourceNode>, b: seq<SourceNode>, k: nat, count: real, n: nat)
    requires count != 0.0 && n <= |a|
    ensures Location(a + b, k, count, n) == Location(a, k, count, n)
  {
    if n > 0 {
      LocationOfPrefix(a, b, k, count, n - 1);
    }
  }

  lemma {:induction false} LocationOfBoth(a: seq<SourceNode>, b: seq<SourceNode>, k: nat, count: real, n: nat)
    requires count != 0.0 && n <= |b|
    ensures Location(a + b, k, count, |a| + n) == Add(Location(a, k, count, |a|), Location(b, k, count, n))
  {
    if n == 0 {
      LocationOfPrefix(a, b, k, count, |a|);
    } else {
      LocationOfBoth(a, b, k, count, n - 1);
      assert (a + b)[|a| + n - 1] == b[n - 1];
      AddAssociative(Location(a, k, count, |a|), Location(b, k, count, n - 1), Divide(b[n - 1].X, count));
    }
  }

  /** A source sits at the mean of its perimeter nodes. */
  lemma {:induction false} LocationIsMean(nodes: seq<SourceNode>, k: nat, count: real, n: nat)
    requires n <= |nodes| && count != 0.0
    ensures Location(nodes, k, count, n) == Divide(Total(nodes, k, n), count)
  {
    if n > 0 {
      LocationIsMean(nodes, k, count, n - 1);
      if BelongsTo(nodes[n - 1], k) {
        DivideSum(Total(nodes, k, n - 1), nodes[n - 1].X, count);
      }
    }
  }

  lemma DivideSum(a: Vec3, b: Vec3, c: real)
    requires c != 0.0
    ensures Divide(Add(a, b), c) == Add(Divide(a, c), Divide(b, c))
  {
  }

  predicate Inside(v: Vec3, lo: Vec3, hi: Vec3) {
    lo.x <= v.x <= hi.x && lo.y <= v.y <= hi.y && lo.z <= v.z <= hi.z
  }

  /** With the perimeter nodes counted, a source lies in every box that holds them. */
  lemma LocationInside(nodes: seq<SourceNode>, k: nat, lo: Vec3, hi: Vec3)
    requires NodeCount(nodes, k, |nodes|) > 0
    requires forall m :: 0 <= m < |nodes| && BelongsTo(nodes[m], k) ==> Inside(nodes[m].X, lo, hi)
    ensures Inside(Location(nodes, k, NodeCount(nodes, k, |nodes|) as real, |nodes|), lo, hi)
  {
    var n, c := |nodes|, NodeCount(nodes, k, |nodes|) as real;
    LocationIsMean(nodes, k, c, n);
    TotalInside(nodes, k, lo, hi, n);
    DivideInside(Total(nodes, k, n), lo, hi, c);
  }

  lemma DivideInside(t: Vec3, lo: Vec3, hi: Vec3, c: real)
    requires c > 0.0 && Inside(t, Scale(c, lo), Scale(c, hi))
    ensures Inside(Divide(t, c), lo, hi)
  {
    QuotientBetween(t.x, c, lo.x, hi.x);
    QuotientBetween(t.y, c, lo.y, hi.y);
    QuotientBetween(t.z, c, lo.z, hi.z);
  }

  lemma {:induction false} TotalInside(nodes: seq<SourceNode>, k: nat, lo: Vec3, hi: Vec3, n: nat)
    requires n <= |nodes|
    requires forall m :: 0 <= m < |nodes| && BelongsTo(nodes[m], k) ==> Inside(nodes[m].X, lo, hi)
    ensures Inside(Total(nodes, k, n), Scale(NodeCount(nodes, k, n) as real, lo),
                   Scale(NodeCount(nodes, k, n) as real, hi))
  {
    if n > 0 {
      TotalInside(nodes, k, lo, hi, n - 1);
      if BelongsTo(nodes[n - 1], k) {
        OneMore(NodeCount(nodes, k, n - 1) as real, lo, hi, Total(nodes, k, n - 1), nodes[n - 1].X);
      }
    }
  }

  lemma OneMore(c: real, lo: Vec3, hi: Vec3, t: Vec3, v: Vec3)
    requires Inside(t, Scale(c, lo), Scale(c, hi)) && Inside(v, lo, hi)
    ensures Inside(Add(t, v), Scale(c + 1.0, lo), Scale(c + 1.0, hi))
  {
  }
}
