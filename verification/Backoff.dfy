/** The exponential backoff of the queue in 64-bit nanoseconds. */
module Backoff {

  const TWO_63: int := 0x8000_0000_0000_0000
  const TWO_64: int := 0x1_0000_0000_0000_0000

  /** One minute, the default base. */
  const MINUTE: int := 60_000_000_000

  /** The signed 64-bit value of an integer computed modulo 2^64. */
  function Wrap(x: int): (r: int)
    ensures -TWO_63 <= r < TWO_63
    ensures exists k :: r == x + k * TWO_64
    ensures -TWO_63 <= x < TWO_63 ==> r == x
  {
    var r := (x + TWO_63) % TWO_64 - TWO_63;
    assert r == x + (-((x + TWO_63) / TWO_64)) * TWO_64;
    r
  }

  function Pow2(n: nat): (p: nat)
    ensures p > 0
  {
    if n == 0 then 1 else 2 * Pow2(n - 1)
  }

  /** `1 << uint(attempts-1)` in a 64-bit int: the bits shifted out are lost. */
  function Multiplier(attempts: int): int {
    Wrap(Pow2((if attempts <= 0 then 1 else attempts) - 1))
  }

  /** How long after now `CalculateNextRetryTime` schedules the retry. */
  function Delay(base: int, attempts: int): int { Wrap(Multiplier(attempts) * base) }

  /** The delay without the machine's limits. */
  function Exact(base: int, attempts: int): int { Pow2((if attempts <= 0 then 1 else attempts) - 1) * base }

  lemma {:induction false} Pow2Grows(a: nat, b: nat)
    requires a <= b
    ensures Pow2(a) <= Pow2(b)
    ensures a < b ==> 2 * Pow2(a) <= Pow2(b)
    decreases b - a
  {
    if a < b {
      Pow2Grows(a, b - 1);
    }
  }

  lemma {:induction false} Pow2Sum(a: nat, b: nat)
    ensures Pow2(a + b) == Pow2(a) * Pow2(b)
  {
    if b > 0 {
      Pow2Sum(a, b - 1);
    }
  }

  lemma Pow2Of63()
    ensures Pow2(63) == TWO_63 && Pow2(64) == TWO_64 && Pow2(27) == 134_217_728 && Pow2(28) == 268_435_456
  {
    assert Pow2(8) == 256;
    Pow2Sum(8, 8);
    Pow2Sum(16, 11);
    Pow2Sum(16, 16);
    Pow2Sum(32, 31);
    Pow2Sum(63, 1);
    assert Pow2(11) == 2048;
    assert Pow2(28) == 2 * Pow2(27);
    Pow2Sum(16, 15);
    assert Pow2(15) == 32768;
  }

  // ---- without the machine's limits ------------------------------------------------------------

  lemma ExactDoubles(base: int, attempts: int)
    requires attempts >= 1
    ensures Exact(base, attempts + 1) == 2 * Exact(base, attempts) && Exact(base, 1) == base
  {
    assert Pow2(attempts) * base == 2 * (Pow2(attempts - 1) * base);
  }

  lemma ExactGrows(base: int, a: int, b: int)
    requires base >= 0 && a <= b
    ensures Exact(base, a) <= Exact(base, b)
  {
    Pow2Grows((if a <= 0 then 1 else a) - 1, (if b <= 0 then 1 else b) - 1);
  }

  // ---- modulo 2^64 -----------------------------------------------------------------------------

  lemma WrapShifts(x: int, k: int)
    ensures Wrap(x + k * TWO_64) == Wrap(x)
  {
    var q, r := (x + TWO_63) / TWO_64, (x + TWO_63) % TWO_64;
    assert x + k * TWO_64 + TWO_63 == (q + k) * TWO_64 + r;
  }

  /** The two roundings are one. */
  lemma DelayIsWrapped(base: int, attempts: int)
    ensures Delay(base, attempts) == Wrap(Exact(base, attempts))
  {
    var p := Pow2((if attempts <= 0 then 1 else attempts) - 1);
    var k :| Wrap(p) == p + k * TWO_64;
    assert (p + k * TWO_64) * base == p * base + (k * base) * TWO_64;
    WrapShifts(p * base, k * base);
  }

  // ---- the delays the code computes ------------------------------------------------------------

  predicate Fits(x: int) { -TWO_63 <= x < TWO_63 }

  /** The delay is the intended one, base times a power of two, exactly while that fits into 64 bits, whatever the base. */
  lemma ExactWhileItFits(base: int, attempts: int)
    ensures Delay(base, attempts) == Exact(base, attempts) <==> Fits(Exact(base, attempts))
  {
    DelayIsWrapped(base, attempts);
  }

  /** The next delay is twice the last exactly while twice the last fits; the first is the base. */
  lemma DelayDoublesExactlyWhen(base: int, attempts: int)
    requires attempts >= 1
    ensures Delay(base, attempts + 1) == 2 * Delay(base, attempts) <==> Fits(2 * Delay(base, attempts))
    ensures Fits(base) ==> Delay(base, 1) == base && Delay(base, 0) == base
  {
    var x := Exact(base, attempts);
    DelayIsWrapped(base, attempts);
    DelayIsWrapped(base, attempts + 1);
    ExactDoubles(base, attempts);
    var k :| Wrap(x) == x + k * TWO_64;
    assert 2 * Wrap(x) == 2 * x + (2 * k) * TWO_64;
    WrapShifts(2 * x, 2 * k);
    assert Exact(base, 1) == base && Exact(base, 0) == base;
    ExactWhileItFits(base, 1);
    ExactWhileItFits(base, 0);
  }

  predicate Grows(base: int, n: int) {
    forall a, b :: 1 <= a <= b <= n ==> Delay(base, a) <= Delay(base, b)
  }

  /** The first delay that does not fit is negative. */
  lemma {:induction false} TurnsNegative(base: int, n: int) returns (a: int)
    requires 0 < base < TWO_63 && n >= 1 && Exact(base, n) >= TWO_63
    ensures 1 < a <= n && Delay(base, a) < 0
    decreases n
  {
    ExactDoubles(base, if n > 1 then n - 1 else 1);
    if Exact(base, n - 1) >= TWO_63 {
      a := TurnsNegative(base, n - 1);
    } else {
      a := n;
      ExactGrows(base, 1, n - 1);
      DelayIsWrapped(base, n);
      WrapShifts(Exact(base, n) - TWO_64, 1);
    }
  }

  /** With a positive base the delays up to attempt n never shrink exactly if the n-th intended delay fits. */
  lemma GrowsExactlyWhen(base: int, n: int)
    requires 0 < base < TWO_63 && n >= 1
    ensures Grows(base, n) <==> Exact(base, n) < TWO_63
  {
    if Exact(base, n) < TWO_63 {
      forall a, b | 1 <= a <= b <= n ensures Delay(base, a) <= Delay(base, b) {
        ExactGrows(base, 1, a);
        ExactGrows(base, a, b);
        ExactGrows(base, b, n);
        ExactWhileItFits(base, a);
        ExactWhileItFits(base, b);
      }
    } else {
      var a := TurnsNegative(base, n);
      ExactWhileItFits(base, 1);
      assert Delay(base, 1) == base;
    }
  }

  /** The waiting time before retries one to n. */
  function Total(base: int, n: nat): int { if n == 0 then 0 else Total(base, n - 1) + Delay(base, n) }

  /** It is never more than the sum of the intended delays. */
  lemma {:induction false} TotalAtMost(base: int, n: nat)
    requires base > 0
    ensures Total(base, n) <= (Pow2(n) - 1) * base
  {
    if n > 0 {
      TotalAtMost(base, n - 1);
      DelayAtMost(base, n);
      SumOfPowers(base, n);
    }
  }

  lemma SumOfPowers(base: int, n: nat)
    requires n > 0
    ensures (Pow2(n) - 1) * base == (Pow2(n - 1) - 1) * base + Exact(base, n)
  {
    assert (2 * Pow2(n - 1) - 1) * base == (Pow2(n - 1) - 1) * base + Pow2(n - 1) * base;
  }

  lemma DelayAtMost(base: int, n: int)
    requires base > 0
    ensures Delay(base, n) <= Exact(base, n)
  {
    DelayIsWrapped(base, n);
  }

  /** With a positive base it is 2^n - 1 times the base exactly if the n-th intended delay fits. */
  lemma {:induction false} TotalExactlyWhen(base: int, n: nat)
    requires base > 0 && n >= 1
    ensures Total(base, n) == (Pow2(n) - 1) * base <==> Exact(base, n) < TWO_63
  {
    SumOfPowers(base, n);
    DelayAtMost(base, n);
    ExactWhileItFits(base, n);
    if n > 1 {
      ExactGrows(base, n - 1, n);
      TotalExactlyWhen(base, n - 1);
      TotalAtMost(base, n - 1);
    }
  }

  /** With the default base of a minute the schedule is right up to the 28th attempt and wrong from the 29th on. */
  lemma MinuteUpTo28(attempts: int)
    ensures Delay(MINUTE, attempts) == Exact(MINUTE, attempts) <==> attempts <= 28
  {
    ExactWhileItFits(MINUTE, attempts);
    Pow2Of63();
    ExactGrows(MINUTE, 0, if attempts <= 0 then 0 else attempts);
    if attempts <= 28 {
      ExactGrows(MINUTE, attempts, 28);
    } else {
      ExactGrows(MINUTE, 29, attempts);
    }
  }

  /** From the 65th attempt on the delay is zero: the multiplier has been shifted out. */
  lemma NoDelayFrom65(base: int, attempts: int)
    requires attempts >= 65
    ensures Delay(base, attempts) == 0
  {
    var m := Pow2(attempts - 65);
    assert Pow2(attempts - 1) == m * TWO_64 by {
      Pow2Of63();
      Pow2Sum(attempts - 65, 64);
    }
    WrapShifts(0, m);
    assert Multiplier(attempts) == Wrap(0 + m * TWO_64) == 0;
  }
}
