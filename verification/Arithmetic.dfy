/** The facts about products, quotients and remainders the other modules share. */
module Arithmetic {

  lemma Swap(a: int, b: int)
    ensures a * b == b * a
  {}

  lemma Spread(a: int, b: int, n: int)
    ensures (a + b) * n == a * n + b * n
    ensures n * (a + b) == n * a + n * b
  {}

  lemma Regroup(a: int, b: int, c: int)
    ensures (a * b) * c == a * (b * c)
  {}

  lemma TimesMono(x: int, y: int, n: int)
    requires x <= y && 0 <= n
    ensures x * n <= y * n && n * x <= n * y
  {
    Spread(x, y - x, n);
  }

  /** A multiple is zero or at least one period away from it. */
  lemma Multiple(k: int, n: int)
    requires 0 <= n
    ensures k >= 1 ==> k * n >= n && n * k >= n
    ensures k <= -1 ==> k * n <= -n && n * k <= -n
  {
    if k >= 1 { TimesMono(1, k, n); } else if k <= -1 { TimesMono(k, -1, n); }
  }

  lemma Euclid(x: int, n: int)
    requires 0 < n
    ensures x == (x / n) * n + x % n && 0 <= x % n < n
  {}

  /** Quotient and remainder are unique. */
  lemma DivMod(q: int, n: int, r: int)
    requires 0 <= r < n
    ensures (q * n + r) / n == q && (q * n + r) % n == r
  {
    var x := q * n + r;
    Euclid(x, n);
    Spread(q, x / n - q, n);
    Multiple(x / n - q, n);
  }

  lemma DivModOf(x: int, q: int, n: int, r: int)
    requires 0 <= r < n && x == q * n + r
    ensures x / n == q && x % n == r
  {
    DivMod(q, n, r);
  }
}
