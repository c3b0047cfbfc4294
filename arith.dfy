/**
 * Small facts about integer division and multiplication used by the fold
 * arithmetic. Dafny's `/` and `%` are Euclidean; for the positive divisors
 * used here they agree with Python's floor division and modulo.
 */
module Arith {

  lemma DivModUnique(x: int, d: int, q: int, r: int)
    requires d > 0 && 0 <= r < d && x == q * d + r
    ensures x / d == q && x % d == r
  {
    var q0, r0 := x / d, x % d;
    assert x == q0 * d + r0;
    if q0 < q {
      MulMono(q0 + 1, q, d);
    } else if q < q0 {
      MulMono(q + 1, q0, d);
    }
  }

  /** For k >= 1, the ceiling c of k / d is at least 1 and k lies in
      (c - 1) * d < k <= c * d. */
  lemma CeilingBlock(k: int, d: int)
    requires k >= 1 && d >= 1
    ensures (k + d - 1) / d >= 1
    ensures ((k + d - 1) / d - 1) * d < k <= ((k + d - 1) / d) * d
  {
    var q, r := (k - 1) / d, (k - 1) % d;
    assert k - 1 == q * d + r;
    assert q >= 0 by {
      if q < 0 {
        MulMono(q, -1, d);
      }
    }
    var c := q + 1;
    assert c * d == q * d + d;
    DivModUnique(k + d - 1, d, c, r);
  }

  lemma MulMono(a: int, b: int, c: int)
    requires a <= b && c >= 0
    ensures a * c <= b * c
  {
    assert b * c - a * c == (b - a) * c;
  }

  lemma MulStrictMono(a: int, b: int, c: int)
    requires a < b && c > 0
    ensures a * c < b * c
  {
    assert b * c - a * c == (b - a) * c;
  }

  /** Rounding `n` down to a multiple of `d` loses less than `d`. */
  lemma RoundDown(n: int, d: int)
    requires n >= 0 && d > 0
    ensures 0 <= (n / d) * d <= n < (n / d) * d + d
    ensures ((n / d) * d) % d == 0 && ((n / d) * d) / d == n / d
  {
    assert n == (n / d) * d + n % d;
    DivModUnique((n / d) * d, d, n / d, 0);
  }

  /** A multiple of `a * b` divided by `a` is a multiple of `b`. */
  lemma DivisibleByProduct(x: int, a: int, b: int)
    requires a > 0 && b > 0 && x % (a * b) == 0
    ensures x % a == 0 && (x / a) % b == 0 && (x / a) * a == x && ((x / a) / b) * b == x / a
  {
    var q := x / (a * b);
    assert x == q * (a * b) + 0;
    assert x == (q * b) * a + 0;
    DivModUnique(x, a, q * b, 0);
    DivModUnique(x / a, b, q, 0);
  }

  /** And conversely: a multiple of `a` whose quotient is a multiple of `b`. */
  lemma ProductDivides(x: int, a: int, b: int)
    requires a > 0 && b > 0 && x % a == 0 && (x / a) % b == 0
    ensures x % (a * b) == 0
  {
    var q := (x / a) / b;
    assert x / a == q * b;
    assert x == (x / a) * a;
    assert x == q * (a * b) + 0;
    DivModUnique(x, a * b, q, 0);
  }
}
