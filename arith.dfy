/** Powers of two and the facts about Euclidean `/` and `%` that the grid arithmetic needs. */
module Arith {

  /** `Math.pow(2, n)` for a natural exponent. */
  function Pow2(n: nat): (r: nat)
    ensures r >= 1
  {
    if n == 0 then 1 else 2 * Pow2(n - 1)
  }

  /** `k` is one of 1, 2, 4, 8, ...: halving it stays exact until it reaches 1. */
  predicate IsPow2(k: nat)
    decreases k
  {
    k == 1 || (k >= 2 && k % 2 == 0 && IsPow2(k / 2))
  }

  lemma {:induction false} Pow2IsPow2(n: nat)
    ensures IsPow2(Pow2(n))
    ensures n > 0 ==> Pow2(n) >= 2 && Pow2(n) % 2 == 0 && Pow2(n) / 2 == Pow2(n - 1)
  {
    if n > 0 {
      Pow2IsPow2(n - 1);
    }
  }

  lemma MulAtLeast(k: int, m: int)
    requires k >= 1 && m > 0
    ensures k * m >= m
  {
  }

  /** Euclidean division has exactly one quotient and remainder. */
  lemma DivModUnique(x: int, m: int, q: int, r: int)
    requires m > 0 && 0 <= r < m && x == q * m + r
    ensures x / m == q && x % m == r
  {
    var d := q - x / m;
    assert d * m == x % m - r;
    if d >= 1 {
      MulAtLeast(d, m);
    } else if d <= -1 {
      MulAtLeast(-d, m);
    }
  }

  lemma SmallMod(a: int, b: int)
    requires 0 <= a < b
    ensures a % b == a
  {
    DivModUnique(a, b, 0, a);
  }

  /** Row-major cell numbering `y * side + x` stays inside a `side * side` buffer. */
  lemma CellIndex(side: nat, x: int, y: int)
    requires 0 <= x < side && 0 <= y < side
    ensures 0 <= y * side + x < side * side
  {
    assert y * side <= (side - 1) * side;
  }

  /** Row-major cell numbering is one-to-one. */
  lemma CellInjective(side: nat, x: int, y: int, x': int, y': int)
    requires 0 <= x < side && 0 <= y < side && 0 <= x' < side && 0 <= y' < side
    requires y * side + x == y' * side + x'
    ensures x == x' && y == y'
  {
    DivModUnique(y * side + x, side, y, x);
    DivModUnique(y' * side + x', side, y', x');
  }
}
