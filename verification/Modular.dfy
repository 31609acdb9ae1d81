/** Division with remainder, for the modules that count in cycles. */
module Modular {

  lemma AtLeastOnce(upper: nat, k: int)
    requires k >= 1
    ensures upper * k >= upper
  {
  }

  lemma UniqueQuotient(upper: nat, p: int, s: nat, q: int, r: nat)
    requires s < upper && r < upper && upper * p + s == upper * q + r
    ensures p == q && s == r
  {
    assert upper * (q - p) == upper * q - upper * p;
    if p < q {
      AtLeastOnce(upper, q - p);
    } else if q < p {
      AtLeastOnce(upper, p - q);
    }
  }

  lemma DivMod(x: nat, upper: nat)
    requires upper > 0
    ensures x == upper * (x / upper) + x % upper && 0 <= x % upper < upper
  {
  }

  lemma RemainderIs(x: nat, q: int, upper: nat, r: nat)
    requires r < upper && x == upper * q + r
    ensures x / upper == q && x % upper == r
  {
    DivMod(x, upper);
    UniqueQuotient(upper, x / upper, x % upper, q, r);
  }

  lemma SameRemainder(x: nat, a: nat, b: nat, upper: nat)
    requires a < upper && b < upper && (x + a) % upper == (x + b) % upper
    ensures a == b
  {
    var p, q := (x + a) / upper, (x + b) / upper;
    DivMod(x + a, upper);
    DivMod(x + b, upper);
    UniqueQuotient(upper, p, b, q, a);
  }

  lemma ProductGrows(a: nat, b: nat, c: nat)
    requires a <= b
    ensures a * c <= b * c
  {
  }
}
