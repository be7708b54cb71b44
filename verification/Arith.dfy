/** Multiplication and division facts, one small step each. */
module Arith {

  function Times(x: nat, y: nat): (r: nat)
    ensures r == x * y
  {
    assert x * y >= 0;
    x * y
  }

  function FloorDiv(x: nat, d: nat): (q: nat)
    requires d > 0
    ensures q * d <= x < q * d + d
  {
    x / d
  }

  // `u128::div_ceil`
  function CeilDiv(x: nat, d: nat): (q: nat)
    requires d > 0
    ensures x <= q * d < x + d
  {
    FloorDiv(x + (d - 1), d)
  }

  // `u128::is_multiple_of` for a positive divisor
  predicate Divides(d: nat, x: nat)
    requires d > 0
  {
    FloorDiv(x, d) * d == x
  }

  lemma MulMono(a: nat, b: nat, c: nat)
    requires a <= b
    ensures a * c <= b * c && c * a <= c * b
  {
    assert (b - a) * c >= 0;
  }

  lemma MulStrict(a: nat, b: nat, c: nat)
    requires a < b && c > 0
    ensures a * c + c <= b * c
  {
    MulMono(a + 1, b, c);
  }

  lemma MulCancel(a: nat, b: nat, c: nat)
    requires c > 0 && a * c == b * c
    ensures a == b
  {
    if a < b {
      MulStrict(a, b, c);
      assert false;
    }
    if b < a {
      MulStrict(b, a, c);
      assert false;
    }
  }

  // The quotient is the only number with its defining bounds.
  lemma QuotientUnique(x: nat, d: nat, q: nat)
    requires d > 0 && q * d <= x < q * d + d
    ensures FloorDiv(x, d) == q
  {
    var p := FloorDiv(x, d);
    if p < q {
      MulStrict(p, q, d);
      assert false;
    }
    if q < p {
      MulStrict(q, p, d);
      assert false;
    }
  }

  lemma DivExact(q: nat, d: nat)
    requires d > 0
    ensures q * d >= 0 && FloorDiv(q * d, d) == q && Divides(d, q * d)
  {
    assert q * d >= 0;
    QuotientUnique(q * d, d, q);
  }

  lemma DivMono(a: nat, b: nat, d: nat)
    requires d > 0 && a <= b
    ensures FloorDiv(a, d) <= FloorDiv(b, d)
  {
    var p, q := FloorDiv(a, d), FloorDiv(b, d);
    if q < p {
      MulStrict(q, p, d);
      assert false;
    }
  }

  lemma Swap3(a: nat, b: nat, c: nat)
    ensures a * b * c == a * c * b && a * b * c == a * (b * c) && a * b * c == c * a * b
  {
    assert a * b * c == a * (b * c);
    assert b * c == c * b;
    assert a * (c * b) == a * c * b;
    assert c * a * b == a * c * b;
  }
}
