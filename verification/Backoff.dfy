/** Delays: the exponential backoff of retries, and the sleeps of the consume loop. */
module Backoff {
  import opened Keys

  const TWO_63 := 0x8000_0000_0000_0000

  /** Go's 64-bit signed arithmetic keeps the low 64 bits. */
  function Wrap64(x: int): int
  {
    (x + TWO_63) % (2 * TWO_63) - TWO_63
  }

  function Pow2(n: nat): nat
  {
    if n == 0 then 1 else 2 * Pow2(n - 1)
  }

  /**
   `time.Duration(math.Pow(2, float64(attempt-1)))`. A fraction is cut to zero; what becomes of a value
   that does not fit into 64 bits depends on the machine and is the parameter `huge`.
   */
  function Factor(attempt: int, huge: int): int
  {
    if attempt < 1 then 0 else if attempt <= 63 then Pow2(attempt - 1) else huge
  }

  /** calculateBackoff, in nanoseconds. */
  function Delay(base: int, max: int, attempt: int, huge: int): int
  {
    var delay := Wrap64(base * Factor(attempt, huge));
    if delay > max then max else delay
  }

  function Min(a: int, b: int): int
  {
    if a < b then a else b
  }

  lemma {:induction false} Pow2Monotone(a: nat, b: nat)
    requires a <= b
    ensures Pow2(a) <= Pow2(b)
    decreases b
  {
    if a < b { Pow2Monotone(a, b - 1); }
  }

  lemma Wraps(x: int)
    requires 0 <= x
    ensures x < TWO_63 <==> Wrap64(x) == x
  {
  }

  lemma ProductMonotone(base: int, a: nat, b: nat)
    requires 0 <= base && a <= b
    ensures 0 <= base * Pow2(a) <= base * Pow2(b)
  {
    Pow2Monotone(a, b);
    MulMonotone(base, Pow2(a), Pow2(b));
  }

  lemma MulMonotone(base: int, x: nat, y: nat)
    requires 0 <= base && x <= y
    ensures 0 <= base * x <= base * y
  {
  }

  /**
   The theorem on backoff: the delay is the capped power of two if and only if the product fits into 64 bits, or
   else what the machine makes of it happens to be at least the cap.
   */
  lemma DelayIsCappedPower(base: int, max: int, attempt: int, huge: int)
    requires 0 <= base && 0 <= max < TWO_63 && 1 <= attempt
    ensures var product := base * Pow2(attempt - 1);
            Delay(base, max, attempt, huge) == Min(product, max)
            <==> product < TWO_63 || Wrap64(base * Factor(attempt, huge)) >= max
  {
    var product := base * Pow2(attempt - 1);
    MulMonotone(base, 0, Pow2(attempt - 1));
    Wraps(product);
    if product < TWO_63 { LateFactor(base, attempt, huge); }
  }

  /** From attempt 64 on, the product fits only if the base is zero, and then so is whatever replaces it. */
  lemma LateFactor(base: int, attempt: int, huge: int)
    requires 0 <= base && 1 <= attempt && base * Pow2(attempt - 1) < TWO_63
    ensures base * Factor(attempt, huge) == base * Pow2(attempt - 1)
  {
    if attempt > 63 {
      Pow2Facts();
      assert Pow2(43) == 0x800_0000_0000;
      assert Pow2(53) == 0x20_0000_0000_0000;
      assert Pow2(63) == TWO_63;
      ProductMonotone(base, 63, attempt - 1);
    }
  }

  /** As long as nothing wraps, later attempts do not wait for less. */
  lemma DelayMonotone(base: int, max: int, attempt: int, later: int, huge: int)
    requires 0 <= base && 0 <= max < TWO_63 && 1 <= attempt <= later && base * Pow2(later - 1) < TWO_63
    ensures 0 <= Delay(base, max, attempt, huge) <= Delay(base, max, later, huge) <= max
  {
    ProductMonotone(base, attempt - 1, later - 1);
    LateFactor(base, attempt, huge);
    LateFactor(base, later, huge);
    Wraps(base * Pow2(attempt - 1));
    Wraps(base * Pow2(later - 1));
  }

  const DEFAULT_BASE := SECOND

  const DEFAULT_MAX := 600 * SECOND

  function DefaultDelay(attempt: int): int
  {
    Delay(DEFAULT_BASE, DEFAULT_MAX, attempt, 0)
  }

  lemma Pow2Facts()
    ensures Pow2(9) == 512 && Pow2(10) == 1024 && Pow2(33) == 0x2_0000_0000 && Pow2(34) == 0x4_0000_0000
  {
    assert Pow2(9) == 512;
    assert Pow2(10) == 2 * Pow2(9);
    assert Pow2(18) == 0x4_0000;
    assert Pow2(26) == 0x400_0000;
    assert Pow2(33) == 0x2_0000_0000;
    assert Pow2(34) == 2 * Pow2(33);
  }

  /** With the default configuration the formula is exact up to attempt 34, which a retry limit of 35 never exceeds. */
  lemma DefaultsExact(attempt: int)
    requires 1 <= attempt <= 34
    ensures DefaultDelay(attempt) == if attempt <= 10 then SECOND * Pow2(attempt - 1) else DEFAULT_MAX
  {
    Pow2Facts();
    ProductMonotone(SECOND, attempt - 1, 33);
    Wraps(SECOND * Pow2(attempt - 1));
    if attempt <= 10 { ProductMonotone(SECOND, attempt - 1, 9); } else { ProductMonotone(SECOND, 10, attempt - 1); }
  }

  /** The next attempt wraps: the delay becomes negative, so the retry is due at once. */
  lemma DefaultsWrap()
    ensures DefaultDelay(35) == -1_266_874_889_709_551_616
  {
    Pow2Facts();
  }

  /** All the delays of a task that fails until it reaches its retry limit. */
  function TotalDelay(limit: nat): int
  {
    if limit <= 1 then 0 else TotalDelay(limit - 1) + DefaultDelay(limit - 1)
  }

  /** How long a task with default backoff waits in all before it is dead. */
  lemma {:induction false} TotalDelayBeforeDeath(limit: nat)
    requires 1 <= limit <= 35
    ensures TotalDelay(limit)
            == if limit <= 11 then SECOND * (Pow2(limit - 1) - 1) else SECOND * (1023 + 600 * (limit - 11))
  {
    if limit > 1 {
      DefaultsExact(limit - 1);
      TotalDelayBeforeDeath(limit - 1);
      Pow2Facts();
    }
  }
}
