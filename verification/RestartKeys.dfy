/** The names under which a source generator's tables are stored: a prefix, a level, an underscore and a number. */
module RestartKeys {

  // --------------------------------------------------------------- numerals

  function Digit(d: nat): char
    requires d < 10
  {
    match d
    case 0 => '0'
    case 1 => '1'
    case 2 => '2'
    case 3 => '3'
    case 4 => '4'
    case 5 => '5'
    case 6 => '6'
    case 7 => '7'
    case 8 => '8'
    case _ => '9'
  }

  function DigitValue(c: char): nat {
    match c
    case '1' => 1
    case '2' => 2
    case '3' => 3
    case '4' => 4
    case '5' => 5
    case '6' => 6
    case '7' => 7
    case '8' => 8
    case '9' => 9
    case _ => 0
  }

  function Numeral(n: nat): (s: string)
    ensures s != ""
  {
    if n < 10 then [Digit(n)] else Numeral(n / 10) + [Digit(n % 10)]
  }

  function Reading(s: string): nat {
    if s == "" then 0 else 10 * Reading(s[..|s| - 1]) + DigitValue(s[|s| - 1])
  }

  lemma {:induction false} NumeralReads(n: nat)
    ensures Reading(Numeral(n)) == n
  {
    if n < 10 {
      assert [Digit(n)][..0] == "";
    } else {
      NumeralReads(n / 10);
      assert Numeral(n)[..|Numeral(n)| - 1] == Numeral(n / 10);
    }
  }

  predicate NoUnderscore(s: string) {
    forall k :: 0 <= k < |s| ==> s[k] != '_'
  }

  lemma {:induction false} NumeralHasNoUnderscore(n: nat)
    ensures NoUnderscore(Numeral(n))
  {
    if n >= 10 {
      NumeralHasNoUnderscore(n / 10);
    }
  }

  function Id(ln: nat, n: nat): string {
    Numeral(ln) + "_" + Numeral(n)
  }

  lemma Split(a: string, b: string, c: string, d: string)
    requires NoUnderscore(a) && NoUnderscore(c) && a + "_" + b == c + "_" + d
    ensures a == c && b == d
  {
    var s := a + "_" + b;
    assert s[|a|] == '_' && s[|c|] == '_';
    assert forall k :: 0 <= k < |a| ==> s[k] == a[k];
    assert forall k :: 0 <= k < |c| ==> s[k] == c[k];
    assert |a| == |c|;
    assert s[..|a|] == a && s[..|c|] == c;
    assert s[|a| + 1..] == b && s[|c| + 1..] == d;
  }

  lemma IdInjective(ln: nat, n: nat, lm: nat, m: nat)
    requires Id(ln, n) == Id(lm, m)
    ensures ln == lm && n == m
  {
    NumeralHasNoUnderscore(ln);
    NumeralHasNoUnderscore(lm);
    Split(Numeral(ln), Numeral(n), Numeral(lm), Numeral(m));
    NumeralReads(ln);
    NumeralReads(lm);
    NumeralReads(n);
    NumeralReads(m);
  }

  // ------------------------------------------------------------------- keys

  datatype Table = StaticNames | StaticRadii | Names | Radii | PerimeterNodes | Strengths | Pressures

  datatype Key = NumLevels | Counts | FinestLevel | MemberCounts | Cell(table: Table, ln: nat, n: nat)

  function Prefix(t: Table): string {
    match t
    case StaticNames => "s_source_names_"
    case StaticRadii => "s_source_radii_"
    case Names => "d_source_names_"
    case Radii => "d_r_src_"
    case PerimeterNodes => "d_num_perimeter_nodes_"
    case Strengths => "d_Q_src_"
    case Pressures => "d_P_src_"
  }

  function Name(k: Key): string {
    match k
    case NumLevels => "s_num_sources.size()"
    case Counts => "s_num_sources"
    case FinestLevel => "finest_hier_level"
    case MemberCounts => "d_n_src"
    case Cell(t, ln, n) => Prefix(t) + Id(ln, n)
  }

  /** No prefix begins like another. */
  lemma PrefixesApart(t: Table, u: Table, x: string, y: string)
    requires t != u
    ensures Prefix(t) + x != Prefix(u) + y
  {
    var p, q := Prefix(t) + x, Prefix(u) + y;
    assert p[0] == Prefix(t)[0] && q[0] == Prefix(u)[0];
    assert p[2] == Prefix(t)[2] && q[2] == Prefix(u)[2];
    assert p[3] == Prefix(t)[3] && q[3] == Prefix(u)[3];
    if t.StaticNames? || t.StaticRadii? {
      assert p[9] == Prefix(t)[9];
      if u.StaticNames? || u.StaticRadii? {
        assert q[9] == Prefix(u)[9];
      }
    }
  }

  lemma CellsApart(t: Table, ln: nat, n: nat, u: Table, lm: nat, m: nat)
    requires Name(Cell(t, ln, n)) == Name(Cell(u, lm, m))
    ensures t == u && ln == lm && n == m
  {
    if t != u {
      PrefixesApart(t, u, Id(ln, n), Id(lm, m));
    } else {
      assert Name(Cell(t, ln, n))[|Prefix(t)|..] == Id(ln, n);
      assert Name(Cell(u, lm, m))[|Prefix(t)|..] == Id(lm, m);
      IdInjective(ln, n, lm, m);
    }
  }

  lemma CellApartFromScalar(t: Table, ln: nat, n: nat, k: Key)
    requires !k.Cell?
    ensures Name(Cell(t, ln, n)) != Name(k)
  {
    var p, s := Prefix(t), Name(k);
    var whole := Name(Cell(t, ln, n));
    assert forall i :: 0 <= i < |p| ==> whole[i] == p[i];
    if t.PerimeterNodes? {
      assert p[0] == 'd' && p[3] == 'u';
    } else {
      assert p[0] == 'd' ==> p[2] != 'n';
      assert p[0] == 's' ==> p[2] == 's';
    }
  }

  lemma ScalarsApart(j: Key, k: Key)
    requires !j.Cell? && !k.Cell? && Name(j) == Name(k)
    ensures j == k
  {
    assert |Name(NumLevels)| == 20 && |Name(Counts)| == 13 && |Name(FinestLevel)| == 17 && |Name(MemberCounts)| == 7;
  }

  /** No two values share a name. */
  lemma NamesInjective(j: Key, k: Key)
    requires Name(j) == Name(k)
    ensures j == k
  {
    match (j, k)
    case (Cell(t, ln, n), Cell(u, lm, m)) => CellsApart(t, ln, n, u, lm, m);
    case (Cell(t, ln, n), _) => CellApartFromScalar(t, ln, n, k);
    case (_, Cell(u, lm, m)) => CellApartFromScalar(u, lm, m, j);
    case (_, _) => ScalarsApart(j, k);
  }
}
