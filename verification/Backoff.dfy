/** The per-key exponential backoff of core/reconcile/queue.go. */
module Backoff {

  const TWO_63 := 0x8000_0000_0000_0000
  const TWO_64 := 0x1_0000_0000_0000_0000

  // The configured bounds, in nanoseconds (core/reconcile/reconciler.go:30-31).
  const CONFIGURED_BASE := 5_000_000
  const CONFIGURED_MAX := 1_000_000_000_000

  function Pow2(n: nat): (r: nat)
    ensures r > 0
  {
    if n == 0 then 1 else 2 * Pow2(n - 1)
  }

  /** Two's-complement reading of the low 64 bits. */
  function Wrap64(x: int): int {
    var m := x % TWO_64;
    if m < TWO_63 then m else m - TWO_64
  }

  function Min(a: int, b: int): int {
    if a <= b then a else b
  }

  /** The delay after `exp` earlier failures: a 64-bit shift, capped. */
  function Delay(base: int, max: int, exp: nat): int {
    if exp > 20 then max
    else
      var backoff := Wrap64(base * Pow2(exp));
      if backoff <= 0 || backoff > max then max else backoff
  }

  /** Sum of the delays of the first `n` failures in a row. */
  function TotalDelay(base: int, max: int, n: nat): int {
    if n == 0 then 0 else TotalDelay(base, max, n - 1) + Delay(base, max, n - 1)
  }

  lemma {:induction false} Pow2Monotone(a: nat, b: nat)
    requires a <= b
    ensures Pow2(a) <= Pow2(b)
    decreases b
  {
    if a < b {
      Pow2Monotone(a, b - 1);
    }
  }

  lemma Pow2Values()
    ensures Pow2(17) == 0x2_0000 && Pow2(18) == 0x4_0000
    ensures Pow2(20) == 0x10_0000 && Pow2(21) == 0x20_0000
  {
    assert Pow2(4) == 16;
    assert Pow2(8) == 0x100;
    assert Pow2(12) == 0x1000;
    assert Pow2(16) == 0x1_0000;
    assert Pow2(20) == 0x10_0000;
  }

  lemma {:induction false} ScaleMonotone(base: nat, a: nat, b: nat)
    requires a <= b
    ensures base * a <= base * b
  {
  }

  /** "Cap the shift to avoid Duration overflow": the cap at 20 doublings does
      that exactly for a base below 2^43 ns. */
  lemma ShiftNeverOverflowsIff(base: int)
    requires 0 < base < TWO_63
    ensures (forall exp: nat :: exp <= 20 ==> Wrap64(base * Pow2(exp)) == base * Pow2(exp)) <==> base < 0x800_0000_0000
  {
    Pow2Values();
    if base < 0x800_0000_0000 {
      forall exp: nat | exp <= 20 ensures Wrap64(base * Pow2(exp)) == base * Pow2(exp) {
        Pow2Monotone(exp, 20);
        ScaleMonotone(base, Pow2(exp), Pow2(20));
        ScaleMonotone(base, 1, Pow2(exp));
      }
    } else {
      assert Wrap64(base * Pow2(20)) != base * Pow2(20);
    }
  }

  /** Without that bound a delay can fall below the base: 2^44 + 1 ns, twenty failures. */
  lemma OverflowShortensTheDelay()
    ensures
      var base := 0x1000_0000_0001;
      Delay(base, TWO_63 - 1, 20) < base
  {
    Pow2Values();
  }

  /** While no shift overflows, the delay is the ideal one up to exponent 20. */
  lemma DelayIsCappedShift(base: int, max: int, exp: nat)
    requires 0 < base <= max && base < 0x800_0000_0000
    ensures Delay(base, max, exp) == if exp > 20 then max else Min(base * Pow2(exp), max)
  {
    if exp <= 20 {
      ShiftNeverOverflowsIff(base);
      ScaleMonotone(base, 1, Pow2(exp));
    }
  }

  lemma DelayStaysInBounds(base: int, max: int, exp: nat)
    requires 0 < base <= max && base < 0x800_0000_0000
    ensures base <= Delay(base, max, exp) <= max
  {
    DelayIsCappedShift(base, max, exp);
    ScaleMonotone(base, 1, Pow2(exp));
  }

  lemma DelayNeverShrinks(base: int, max: int, a: nat, b: nat)
    requires 0 < base <= max && base < 0x800_0000_0000
    requires a <= b
    ensures Delay(base, max, a) <= Delay(base, max, b)
  {
    DelayIsCappedShift(base, max, a);
    DelayIsCappedShift(base, max, b);
    Pow2Monotone(a, b);
    ScaleMonotone(base, Pow2(a), Pow2(b));
  }

  /** "delay = base * 2^failures, capped at max" holds for every failure count
      exactly when 21 doublings reach the cap. */
  lemma DelayIsExponentialIff(base: int, max: int)
    requires 0 < base <= max && base < 0x800_0000_0000
    ensures (forall n: nat :: Delay(base, max, n) == Min(base * Pow2(n), max)) <==> base * Pow2(21) >= max
  {
    if base * Pow2(21) >= max {
      forall n: nat ensures Delay(base, max, n) == Min(base * Pow2(n), max) {
        DelayIsCappedShift(base, max, n);
        if n > 20 {
          Pow2Monotone(21, n);
          ScaleMonotone(base, Pow2(21), Pow2(n));
        }
      }
    } else {
      assert Delay(base, max, 21) != Min(base * Pow2(21), max);
    }
  }

  /** The configured limiter is exponential for every failure count. */
  lemma ConfiguredDelayIsExponential(n: nat)
    ensures Delay(CONFIGURED_BASE, CONFIGURED_MAX, n) == Min(5_000_000 * Pow2(n), 1_000_000_000_000)
  {
    Pow2Values();
    DelayIsExponentialIff(CONFIGURED_BASE, CONFIGURED_MAX);
  }

  /** `c` is the first exponent whose shift reaches the cap. */
  ghost predicate FirstCapped(base: int, max: int, c: nat) {
    c <= 21 && base * Pow2(c) >= max && (c > 0 ==> base * Pow2(c - 1) < max)
  }

  lemma DelayAroundFirstCapped(base: int, max: int, c: nat, exp: nat)
    requires 0 < base <= max && base < 0x800_0000_0000 && FirstCapped(base, max, c)
    ensures Delay(base, max, exp) == if exp < c then base * Pow2(exp) else max
  {
    DelayIsCappedShift(base, max, exp);
    if exp < c {
      Pow2Monotone(exp, c - 1);
      ScaleMonotone(base, Pow2(exp), Pow2(c - 1));
    } else {
      Pow2Monotone(c, exp);
      ScaleMonotone(base, Pow2(c), Pow2(exp));
    }
  }

  lemma NextGeometricSum(base: int, p: int)
    ensures base * (2 * p - 1) == base * (p - 1) + base * p
  {
  }

  lemma Distribute(k: int, max: int)
    ensures (k + 1) * max == k * max + max
  {
  }

  lemma {:induction false} TotalWhileDoubling(base: int, max: int, n: nat)
    requires forall exp: nat :: exp < n ==> Delay(base, max, exp) == base * Pow2(exp)
    ensures TotalDelay(base, max, n) == base * (Pow2(n) - 1)
  {
    if n > 0 {
      TotalWhileDoubling(base, max, n - 1);
      NextGeometricSum(base, Pow2(n - 1));
    }
  }

  lemma {:induction false} TotalOnceCapped(base: int, max: int, c: nat, n: nat)
    requires c <= n && forall exp: nat :: c <= exp ==> Delay(base, max, exp) == max
    ensures TotalDelay(base, max, n) == TotalDelay(base, max, c) + (n - c) * max
  {
    if c < n {
      TotalOnceCapped(base, max, c, n - 1);
      Distribute(n - 1 - c, max);
    }
  }

  /** Closed form of the total waiting time: geometric up to the first capped
      exponent `c`, then linear. */
  lemma TotalDelayClosedForm(base: int, max: int, c: nat, n: nat)
    requires 0 < base <= max && base < 0x800_0000_0000 && FirstCapped(base, max, c)
    ensures TotalDelay(base, max, n) ==
            if n <= c then base * (Pow2(n) - 1) else base * (Pow2(c) - 1) + (n - c) * max
  {
    forall exp: nat ensures Delay(base, max, exp) == if exp < c then base * Pow2(exp) else max {
      DelayAroundFirstCapped(base, max, c, exp);
    }
    if n <= c {
      TotalWhileDoubling(base, max, n);
    } else {
      TotalWhileDoubling(base, max, c);
      TotalOnceCapped(base, max, c, n);
    }
  }

  lemma ConfiguredTotalDelay(n: nat)
    ensures TotalDelay(CONFIGURED_BASE, CONFIGURED_MAX, n) ==
            if n <= 18 then 5_000_000 * (Pow2(n) - 1)
            else 5_000_000 * 0x3_FFFF + (n - 18) * 1_000_000_000_000
  {
    Pow2Values();
    TotalDelayClosedForm(CONFIGURED_BASE, CONFIGURED_MAX, 18, n);
  }

  /** Failure counts, a missing key standing for zero. */
  type Counts<!K> = map<K, nat>

  function Failures<K>(fails: Counts<K>, key: K): nat {
    if key in fails then fails[key] else 0
  }

  function Failed<K>(fails: Counts<K>, key: K): Counts<K> {
    fails[key := Failures(fails, key) + 1]
  }

  function Forgotten<K>(fails: Counts<K>, key: K): Counts<K> {
    fails - {key}
  }

  class RateLimiter<K(==)> {
    var fails: map<K, nat>
    const base: int
    const max: int

    constructor (base: int, max: int)
      ensures fails == map[] && this.base == base && this.max == max
    {
      fails := map[];
      this.base, this.max := base, max;
    }

    method When(key: K) returns (delay: int)
      modifies this`fails
      ensures delay == Delay(base, max, Failures(old(fails), key))
      ensures fails == Failed(old(fails), key)
      ensures fails == old(fails)[key := if key in old(fails) then old(fails)[key] + 1 else 1]
    {
      var exp: nat := if key in fails then fails[key] else 0;
      fails := fails[key := exp + 1];
      if exp > 20 {
        return max;
      }
      var backoff := Wrap64(base * Pow2(exp));
      if backoff <= 0 || backoff > max {
        return max;
      }
      return backoff;
    }

    method Forget(key: K)
      modifies this`fails
      ensures fails == Forgotten(old(fails), key)
    {
      fails := fails - {key};
    }
  }
}
