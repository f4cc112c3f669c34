/** Exponential backoff as the three retry loops compute it: base * (1 << min(attempt, 10)) on a
    64-bit duration. */
module Backoff {

  const MAX64 := 0x7FFF_FFFF_FFFF_FFFF
  const MIN64 := -0x8000_0000_0000_0000

  predicate Is64(x: int) { MIN64 <= x <= MAX64 }

  /** Two's complement wrap-around of 64-bit arithmetic. */
  function Wrap64(x: int): int { (x - MIN64) % 0x1_0000_0000_0000_0000 + MIN64 }

  function Pow2(n: nat): nat { if n == 0 then 1 else 2 * Pow2(n - 1) }

  function Capped(attempt: nat): nat { if attempt < 10 then attempt else 10 }

  /** The intended sleep before the retry that follows `attempt`. */
  function Ideal(base: int, attempt: nat): int { base * Pow2(Capped(attempt)) }

  /** The sleep the program computes. */
  function Sleep(base: int, attempt: nat): int { Wrap64(Ideal(base, attempt)) }

  function Total(base: int, n: nat): int { if n == 0 then 0 else Total(base, n - 1) + Ideal(base, n - 1) }

  lemma WrapExact(x: int)
    ensures Is64(Wrap64(x)) && (Wrap64(x) == x <==> Is64(x))
    ensures (Wrap64(x) - x) % 0x1_0000_0000_0000_0000 == 0
  {
  }

  lemma Pow2Ten()
    ensures Pow2(10) == 1024 && Pow2(11) == 2048
  {
    assert Pow2(3) == 8;
    assert Pow2(6) == 64;
    assert Pow2(9) == 512;
  }

  lemma {:induction false} Pow2Grows(m: nat, n: nat)
    requires m <= n
    ensures Pow2(m) <= Pow2(n)
    decreases n
  {
    if m < n { Pow2Grows(m, n - 1); }
  }

  lemma Scale(base: int, p: nat, q: nat)
    requires p <= q
    ensures base >= 0 ==> 0 <= base * p <= base * q
    ensures base < 0 ==> base * q <= base * p <= 0
  {
  }

  /** No sleep overflows if and only if the longest one, 1024 times the base, fits. */
  lemma NoOverflowIffLongestFits(base: int)
    ensures (forall attempt: nat :: Sleep(base, attempt) == Ideal(base, attempt)) <==> Is64(base * 1024)
  {
    Pow2Ten();
    if Is64(base * 1024) {
      forall attempt: nat ensures Sleep(base, attempt) == Ideal(base, attempt) {
        Pow2Grows(Capped(attempt), 10);
        Scale(base, Pow2(Capped(attempt)), 1024);
        WrapExact(Ideal(base, attempt));
      }
    } else {
      assert Ideal(base, 10) == base * 1024;
      WrapExact(base * 1024);
      assert Sleep(base, 10) != Ideal(base, 10);
    }
  }

  /** Where nothing overflows the sleeps never get shorter. */
  lemma SleepGrows(base: int, i: nat, j: nat)
    requires base >= 0 && Is64(base * 1024) && i <= j
    ensures 0 <= Sleep(base, i) <= Sleep(base, j)
  {
    NoOverflowIffLongestFits(base);
    Pow2Grows(Capped(i), Capped(j));
    Scale(base, Pow2(Capped(i)), Pow2(Capped(j)));
    assert Sleep(base, i) == Ideal(base, i) && Sleep(base, j) == Ideal(base, j);
  }

  lemma Distribute(a: int, b: int, c: int)
    ensures a * (b + c) == a * b + a * c && a * (b - c) == a * b - a * c
  {
  }

  /** The total over n retries: geometric up to the cap, linear beyond it. */
  lemma {:induction false} TotalClosedForm(base: int, n: nat)
    ensures n <= 11 ==> Total(base, n) == base * (Pow2(n) - 1)
    ensures n > 11 ==> Total(base, n) == base * 2047 + 1024 * base * (n - 11)
  {
    Pow2Ten();
    if n > 0 {
      TotalClosedForm(base, n - 1);
      Distribute(base, Pow2(n) - 1, Pow2(n - 1));
      if n <= 11 {
        assert Capped(n - 1) == n - 1 && Pow2(n) == 2 * Pow2(n - 1);
        Distribute(base, Pow2(n - 1) - 1, Pow2(n - 1));
      } else {
        assert Ideal(base, n - 1) == base * 1024;
        Distribute(1024 * base, n - 12, 1);
      }
    }
  }
}
