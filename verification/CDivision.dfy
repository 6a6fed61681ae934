/** Integer division as in C. */
module CDivision {

  /** The quotient is truncated towards zero. */
  function CDiv(a: int, r: int): int
    requires r > 0
  {
    if a >= 0 then a / r else -((-a) / r)
  }

  lemma CDivBounds(a: int, r: int)
    requires r > 0
    ensures (CDiv(a, r) + 1) * r > a
    ensures a >= 0 ==> CDiv(a, r) * r <= a
    ensures a < 0 ==> CDiv(a, r) * r < a + r && CDiv(a, r) <= 0
  {
    var m := if a >= 0 then a else -a;
    var q := m / r;
    assert q * r <= m < q * r + r;
  }

  lemma CDivMonotone(a: int, b: int, r: int)
    requires r > 0 && a <= b
    ensures CDiv(a, r) <= CDiv(b, r)
  {
    if a >= 0 {
      QuotientMonotone(a, b, r);
    } else if b < 0 {
      QuotientMonotone(-b, -a, r);
    } else {
      QuotientMonotone(0, -a, r);
      QuotientMonotone(0, b, r);
    }
  }

  lemma QuotientMonotone(a: int, b: int, r: int)
    requires r > 0 && 0 <= a <= b
    ensures a / r <= b / r
    ensures 0 / r == 0
  {
    Remainder(a, r, a / r);
    Remainder(b, r, b / r);
    NotBelow(a / r, b / r, r);
  }

  lemma Remainder(a: int, r: int, q: int)
    requires r > 0 && q == a / r
    ensures q * r <= a < q * r + r
  {
  }

  lemma NotBelow(p: int, q: int, r: int)
    requires r > 0 && p * r < q * r + r
    ensures p <= q
  {
    if p > q {
      Scaled(p, q + 1, r);
    }
  }

  lemma Scaled(a: int, b: int, r: int)
    requires a >= b && r > 0
    ensures a * r >= b * r
  {
  }
}
