/** The few facts about products and quotients of unknowns that the plan,
    the executor and the reservation arithmetic rest on. */
module Arith {

  lemma MulMonotone(a: int, b: int, c: int)
    requires a <= b && 0 <= c
    ensures a * c <= b * c
  {
    assert (b - a) * c >= 0;
  }

  lemma MulAtLeast(q: int, d: int)
    requires 0 <= q && 1 <= d
    ensures q <= q * d
  {
    MulMonotone(1, d, q);
  }

  lemma MulSucc(q: int, d: int)
    ensures (q + 1) * d == q * d + d
  {
  }

  /** Only zero has a multiple of `a` strictly between -a and a. */
  lemma SmallMultiple(k: int, a: int)
    requires 0 < a && -a < k * a < a
    ensures k == 0
  {
    if k >= 1 { MulMonotone(1, k, a); }
    if k <= -1 { MulMonotone(k, -1, a); }
  }

  lemma DivModUnique(n: int, a: int, q: int, r: int)
    requires 0 < a && 0 <= r < a && n == q * a + r
    ensures n / a == q && n % a == r
  {
    var q', r' := n / a, n % a;
    assert n == a * q' + r';
    assert (q' - q) * a == q' * a - q * a;
    SmallMultiple(q' - q, a);
  }

  lemma ModDiffers(i: nat, n: nat, d: nat)
    requires i < n < i + d
    ensures i % d != n % d
  {
    DivBounds(i, d);
    DivBounds(n, d);
    if i % d == n % d {
      assert (n / d - i / d) * d == (n / d) * d - (i / d) * d;
      SmallMultiple(n / d - i / d, d);
    }
  }

  lemma ModAgain(i: nat, d: nat)
    requires d > 0
    ensures (i + d) % d == i % d
  {
    DivBounds(i, d);
    MulSucc(i / d, d);
    DivModUnique(i + d, d, i / d + 1, i % d);
  }

  lemma DivBounds(n: nat, d: nat)
    requires d > 0
    ensures n == (n / d) * d + n % d && 0 <= n / d <= n
    ensures n > 0 && n % d == 0 ==> n / d > 0
    ensures n % d != 0 ==> n / d < n
  {
    assert n == d * (n / d) + n % d;
    MulAtLeast(n / d, d);
  }

  lemma Regroup(p: int, b: int, t: int, a: int)
    ensures (p * b + t) * a == p * (b * a) + t * a
  {
  }

  /** A remainder within a remainder. */
  lemma BelowProduct(t: nat, r: nat, a: nat, b: nat)
    requires t < b && r < a
    ensures 0 <= t * a && t * a + r < b * a
  {
    MulMonotone(0, t, a);
    MulSucc(t, a);
    MulMonotone(t + 1, b, a);
  }

  lemma DivDiv(n: nat, a: nat, b: nat)
    requires a > 0 && b > 0
    ensures b * a > 0 && n / (b * a) == n / a / b
  {
    var q, r := n / a, n % a;
    var p, t := q / b, q % b;
    DivBounds(n, a);
    DivBounds(q, b);
    Regroup(p, b, t, a);
    BelowProduct(t, r, a, b);
    DivModUnique(n, b * a, p, t * a + r);
  }
}
