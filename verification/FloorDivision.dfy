/** Floored division on natural numbers: the few nonlinear facts the other modules build on. */
module FloorDivision {

  /** Multiplying by a natural number keeps the order; by a positive one it can be undone. */
  lemma Scale(c: nat, x: int, y: int)
    ensures x <= y ==> c * x <= c * y
    ensures c * x < c * y ==> x < y
    ensures 0 < c && c * x <= c * y ==> x <= y
    ensures 0 < c && x < y ==> c * x + c <= c * y
  {
    ScaleUp(c, x, y);
    ScaleUp(c, y, x);
    ScaleUp(c, x + 1, y);
    ScaleUp(c, y + 1, x);
  }

  lemma {:induction false} ScaleUp(c: nat, x: int, y: int)
    ensures x <= y ==> c * x <= c * y
  {
    if c > 0 {
      ScaleUp(c - 1, x, y);
      assert c * x == (c - 1) * x + x;
      assert c * y == (c - 1) * y + y;
    }
  }

  lemma DivBounds(a: nat, b: nat)
    requires 0 < b
    ensures b * (a / b) <= a < b * (a / b) + b
  {
  }

  /** The quotient is the only number that satisfies DivBounds. */
  lemma DivUnique(a: nat, b: nat, q: int)
    requires 0 < b
    requires b * q <= a < b * q + b
    ensures a / b == q
  {
    Scale(b, a / b, q);
    Scale(b, q, a / b);
  }

  lemma DivMonotone(a: nat, a': nat, b: nat)
    requires 0 < b && a <= a'
    ensures a / b <= a' / b
  {
    Scale(b, a' / b, a / b);
  }

  /** Comparing a quotient with a bound is comparing the dividend with the bound's multiple. */
  lemma DivAtLeast(a: nat, b: nat, q: int)
    requires 0 < b
    ensures q <= a / b <==> b * q <= a
  {
    Scale(b, q, a / b);
    Scale(b, a / b, q);
  }

  lemma Rearrange(a: int, b: int, c: int)
    ensures a * (b * c) == b * (a * c) == (a * b) * c == c * (a * b)
  {
  }

  lemma Distribute(a: int, b: int, c: int)
    ensures a * (b + c) == a * b + a * c
    ensures a * (b - c) == a * b - a * c
  {
  }

  lemma ProductPositive(a: nat, b: nat)
    requires 0 < a && 0 < b
    ensures 0 < a * b
  {
    Scale(a, 0, b);
  }

  /** Two bounds by a fraction make one bound by the product of the fractions. */
  lemma Compose(n1: nat, d1: nat, n2: nat, d2: nat, x: nat, y: nat, z: nat)
    requires d1 * x <= n1 * y && d2 * y <= n2 * z
    ensures (d1 * d2) * x <= (n1 * n2) * z
  {
    Scale(d2, d1 * x, n1 * y);
    Scale(n1, d2 * y, n2 * z);
    Rearrange(d2, d1, x);
    Rearrange(d2, n1, y);
    Rearrange(n1, n2, z);
  }

  function MulDivFloor(a: nat, b: nat, c: nat): nat
    requires 0 < c
  {
    var product := a * b;
    product / c
  }

  lemma MulDivBounds(a: nat, b: nat, c: nat)
    requires 0 < c
    ensures c * MulDivFloor(a, b, c) <= a * b < c * MulDivFloor(a, b, c) + c
  {
    DivBounds(a * b, c);
  }

  /** Multiplying by `c` after a floored division: less than `d * c` lost in `d`ths. */
  lemma QuotientBoundsTimes(x: nat, d: nat, a: nat, c: nat)
    requires d * a <= x < d * a + d
    ensures d * (a * c) <= x * c <= d * (a * c) + d * c
    ensures 0 < c ==> x * c < d * (a * c) + d * c
  {
    Scale(c, d * a, x);
    Scale(c, x, d * a + d);
    Rearrange(d, a, c);
    Distribute(c, d * a, d);
  }

  /** Two floored divisions are one. */
  lemma NestedQuotient(x: nat, d: nat, k: nat)
    requires 0 < d && 0 < k
    ensures 0 < d * k && x / d / k == x / (d * k)
  {
    ProductPositive(d, k);
    NestedBounds(x, d, k, x / d, x / d / k);
    DivUnique(x, d * k, x / d / k);
  }

  lemma NestedBounds(x: nat, d: nat, k: nat, a: nat, q: nat)
    requires d * a <= x < d * a + d && k * q <= a < k * q + k
    ensures (d * k) * q <= x < (d * k) * q + d * k
  {
    Scale(d, k * q, a);
    Scale(d, a + 1, k * q + k);
    Distribute(d, a, 1);
    Distribute(d, k * q, k);
    Rearrange(d, k, q);
  }

  /** Multiplying a floored quotient loses less than the factor; flooring again loses less than one more. */
  lemma ScaledQuotient(x: nat, d: nat, k: nat, q: nat, e: nat, a: nat, floored: nat)
    requires 0 < d && q <= e
    requires d * a <= x < d * a + d && e * floored <= a * k * q < e * floored + e
    ensures floored * (d * e) <= x * k * q < (floored + k + 1) * (d * e)
  {
    Rearrange(a, k, q);
    Rearrange(x, k, q);
    QuotientBoundsTimes(x, d, a, k * q);
    QuotientBoundsTimes(a * (k * q), e, floored, d);
    Sandwich(x * (k * q), d, e, k, q, a * (k * q), floored);
  }

  lemma Sandwich(x: nat, d: nat, e: nat, k: nat, q: nat, y: nat, floored: nat)
    requires 0 < d && q <= e
    requires d * y <= x <= d * y + d * (k * q)
    requires e * (floored * d) <= y * d < e * (floored * d) + e * d
    ensures floored * (d * e) <= x < (floored + k + 1) * (d * e)
  {
    Rearrange(e, floored, d);
    Rearrange(k, d, q);
    Rearrange(k, d, e);
    Scale(k * d, q, e);
    Distribute(d * e, floored, k + 1);
    Distribute(d * e, k, 1);
  }

  lemma ProductMonotone(a: nat, a': nat, b: nat, b': nat)
    requires a <= a' && b <= b'
    ensures a * b <= a' * b'
  {
    Scale(a, b, b');
    Scale(b', a, a');
  }

  lemma QuotientMonotone(a: nat, a': nat, b: nat, b': nat, c: nat)
    requires a <= a' && b <= b' && 0 < c
    ensures a * b / c <= a' * b' / c
  {
    ProductMonotone(a, a', b, b');
    DivMonotone(a * b, a' * b', c);
  }
}
