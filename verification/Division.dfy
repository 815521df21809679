/** Quotients and remainders of whole numbers. */
module Division {
  lemma NestedMod(x: int, k: int, d: int)
    requires k > 0 && d > 0
    ensures k * d > 0 && x % (k * d) % d == x % d
  {
    var q, r := x / (k * d), x % (k * d);
    var m, s := r / d, r % d;
    assert x == (q * k + m) * d + s by {
      assert x == q * (k * d) + r;
      assert r == m * d + s;
      assert q * (k * d) == (q * k) * d;
      assert (q * k + m) * d == (q * k) * d + m * d;
    }
    QuotientUnique(x, d, q * k + m, s);
  }

  lemma AtLeastOnce(a: int, d: int)
    requires a >= 1 && d > 0
    ensures a * d >= d
  {
    assert (a - 1) * d >= 0;
  }

  lemma Negated(e: int, d: int)
    ensures (-e) * d == -(e * d)
  {
  }

  lemma QuotientUnique(x: int, d: int, q: int, r: int)
    requires d > 0 && 0 <= r < d && x == q * d + r
    ensures x % d == r && x / d == q
  {
    var p := x / d;
    var e := q - p;
    assert e * d == q * d - p * d;
    if e >= 1 {
      AtLeastOnce(e, d);
    } else if e <= -1 {
      Negated(e, d);
      AtLeastOnce(-e, d);
    }
  }

  /** A quotient by a product, from the quotient by one factor. */
  lemma NestedDiv(x: int, d: int, k: int)
    requires d > 0 && k > 0
    ensures d * k > 0 && x / d * d / (d * k) == x / (d * k)
  {
    AtLeastOnce(k, d);
    var big := d * k;
    var q, r := x / big, x % big;
    var m, s := r / d, r % d;
    assert x == q * big + r && r == m * d + s;
    assert q * big == (q * k) * d;
    assert (q * k + m) * d == (q * k) * d + m * d;
    QuotientUnique(x, d, q * k + m, s);
    QuotientUnique(x / d * d, big, q, m * d);
  }
}
