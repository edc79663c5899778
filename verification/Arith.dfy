/** Powers of two, minima and sums used by the backoff and prefix arithmetic. */
module Arith {

  function Min(a: int, b: int): int {
    if a <= b then a else b
  }

  function Max(a: int, b: int): int {
    if a >= b then a else b
  }

  function Pow2(n: nat): (p: nat)
    ensures p >= 1
  {
    if n == 0 then 1 else 2 * Pow2(n - 1)
  }

  lemma DoubleProduct(x: int, y: int)
    ensures 2 * (x * y) == (2 * x) * y == x * (2 * y)
  {
  }

  lemma {:induction false} Pow2Add(a: nat, b: nat)
    ensures Pow2(a + b) == Pow2(a) * Pow2(b)
  {
    if a > 0 {
      Pow2Add(a - 1, b);
      DoubleProduct(Pow2(a - 1), Pow2(b));
    }
  }

  lemma {:induction false} Pow2Monotonic(a: nat, b: nat)
    requires a <= b
    ensures Pow2(a) <= Pow2(b)
  {
    if a < b {
      Pow2Monotonic(a, b - 1);
    }
  }

  /** x * 2^n, by doubling n times. */
  function Doubled(x: int, n: nat): int {
    if n == 0 then x else 2 * Doubled(x, n - 1)
  }

  lemma {:induction false} DoubledIsPow2(x: int, n: nat)
    ensures Doubled(x, n) == x * Pow2(n)
  {
    if n > 0 {
      DoubledIsPow2(x, n - 1);
      DoubleProduct(x, Pow2(n - 1));
    }
  }

  lemma {:induction false} DoubledMonotonic(x: int, a: nat, b: nat)
    requires 0 <= x && a <= b
    ensures 0 <= Doubled(x, a) <= Doubled(x, b)
    decreases a + b
  {
    if a < b {
      DoubledMonotonic(x, a, b - 1);
    } else if a > 0 {
      DoubledMonotonic(x, a - 1, b - 1);
    }
  }

  /** n * x, by adding x n times. */
  function Repeated(x: int, n: nat): int {
    if n == 0 then 0 else x + Repeated(x, n - 1)
  }

  lemma {:induction false} RepeatedIsProduct(x: int, n: nat)
    ensures Repeated(x, n) == n * x
  {
    if n > 0 {
      RepeatedIsProduct(x, n - 1);
      assert n * x == (n - 1) * x + x;
    }
  }

  function Sum(s: seq<int>): int {
    if s == [] then 0 else Sum(s[..|s| - 1]) + s[|s| - 1]
  }
}
