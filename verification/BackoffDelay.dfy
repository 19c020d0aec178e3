/** The delay before the next dial attempt (dial_policy.go), in 64-bit durations. */
module BackoffDelay {
  import opened Bytes

  const TWO_63: int := 0x8000_0000_0000_0000
  const TWO_64: int := 0x1_0000_0000_0000_0000
  const MAX_INT64: int := 0x7fff_ffff_ffff_ffff

  type I64 = x: int | -0x8000_0000_0000_0000 <= x <= 0x7fff_ffff_ffff_ffff

  /** What int64 arithmetic makes of an exact result. */
  function Wrap64(n: int): I64 {
    (n + TWO_63) % TWO_64 - TWO_63
  }

  function Min(a: int, b: int): int { if a < b then a else b }

  function Pow2(n: nat): (p: nat)
    ensures p >= 1
  {
    if n == 0 then 1 else 2 * Pow2(n - 1)
  }

  datatype Config = Config(baseDelay: I64, maxDelay: I64, minStable: I64, minInterval: I64, jitter: real)

  /** Neither delay is negative, as every real configuration has it. */
  predicate Sensible(c: Config) {
    c.baseDelay >= 0 && c.maxDelay >= 0
  }

  /** The backoff before jitter: the shift stops at 30 and the product is an int64. */
  function PlainDelay(c: Config, failures: U32): I64 {
    if failures == 0 then 0
    else Min(Wrap64(c.baseDelay * Pow2(Min(failures - 1, 30))), c.maxDelay)
  }

  /** With `draw` the random number of this attempt, 0 <= draw < 1. */
  function Delay(c: Config, failures: U32, draw: real): int {
    var delay: int := PlainDelay(c, failures);
    if c.jitter > 0.0 && delay > 0 then
      delay - Cut(draw, Most(c, delay)).Floor
    else
      delay
  }

  /** The most that jitter takes off `delay`, and what it does take off. */
  function Most(c: Config, delay: int): real {
    Fraction(c) * delay as real
  }

  function Cut(draw: real, most: real): real {
    draw * most
  }

  /** The jitter that is applied: none when not positive, never more than all of it. */
  function Fraction(c: Config): real {
    if c.jitter <= 0.0 then 0.0 else if c.jitter > 1.0 then 1.0 else c.jitter
  }

  /** The schedule the documentation promises, over unbounded integers. */
  function Ideal(c: Config, failures: U32): int
    requires failures >= 1
  {
    Min(c.baseDelay * Pow2(failures - 1), c.maxDelay)
  }

  // ---------- Powers of two ----------

  lemma {:induction false} Pow2Grows(a: nat, b: nat)
    requires a <= b
    ensures Pow2(a) <= Pow2(b)
    decreases b
  {
    if a < b { Pow2Grows(a, b - 1); }
  }

  lemma Pow2Of30()
    ensures Pow2(30) == 0x4000_0000
  {
    assert Pow2(10) == 1024;
    assert Pow2(20) == 1024 * 1024;
  }

  lemma Scale(x: nat, a: nat, b: nat)
    requires a <= b
    ensures x * a <= x * b
  {
  }

  lemma WrapFits(n: int)
    requires -TWO_63 <= n <= MAX_INT64
    ensures Wrap64(n) == n
  {
  }

  lemma WrapOnce(n: int)
    requires TWO_63 <= n < TWO_64
    ensures Wrap64(n) == n - TWO_64 && Wrap64(n) < 0
  {
    assert n + TWO_63 == TWO_64 + (n - TWO_63);
  }

  // ---------- Wrapping ----------

  predicate NeverWraps(c: Config) {
    forall k: nat :: k <= 30 ==> Wrap64(c.baseDelay * Pow2(k)) == c.baseDelay * Pow2(k)
  }

  lemma ShiftFits(base: I64, k: nat)
    requires 0 <= base <= MAX_INT64 / 0x4000_0000 && k <= 30
    ensures 0 <= base * Pow2(k) <= MAX_INT64
  {
    Pow2Grows(k, 30);
    Pow2Of30();
    Scale(base, Pow2(k), 0x4000_0000);
    assert base * 0x4000_0000 <= MAX_INT64;
  }

  lemma SmallBaseNeverWraps(c: Config)
    requires 0 <= c.baseDelay <= MAX_INT64 / 0x4000_0000
    ensures NeverWraps(c)
  {
    forall k: nat | k <= 30 ensures Wrap64(c.baseDelay * Pow2(k)) == c.baseDelay * Pow2(k) {
      ShiftFits(c.baseDelay, k);
      WrapFits(c.baseDelay * Pow2(k));
    }
  }

  /** Doubling from below 2^63 to at least 2^63 passes through a value that wraps to a negative one. */
  lemma {:induction false} FirstOverflow(x: I64, top: nat) returns (k: nat)
    requires x >= 0 && x * Pow2(top) >= TWO_63
    ensures 1 <= k <= top && TWO_63 <= x * Pow2(k) < TWO_64
    decreases top
  {
    if top == 0 {
      assert false;
    } else if x * Pow2(top - 1) < TWO_63 {
      assert x * Pow2(top) == 2 * (x * Pow2(top - 1));
      k := top;
    } else {
      k := FirstOverflow(x, top - 1);
    }
  }

  /** A base delay over the bound gives a negative delay for some number of failures. */
  lemma LargeBaseTurnsNegative(c: Config) returns (failures: U32)
    requires Sensible(c) && c.baseDelay > MAX_INT64 / 0x4000_0000
    ensures 2 <= failures <= 31 && PlainDelay(c, failures) < 0
    ensures !NeverWraps(c)
  {
    Pow2Of30();
    assert c.baseDelay * 0x4000_0000 >= TWO_63;
    var k := FirstOverflow(c.baseDelay, 30);
    WrapOnce(c.baseDelay * Pow2(k));
    failures := k + 1;
  }

  // ---------- The three laws, each with its exact condition ----------

  predicate NonDecreasing(c: Config) {
    forall a: U32, b: U32 :: a <= b ==> PlainDelay(c, a) <= PlainDelay(c, b)
  }

  predicate NeverNegative(c: Config) {
    forall a: U32 :: 0 <= PlainDelay(c, a)
  }

  predicate FollowsSchedule(c: Config) {
    forall a: U32 :: a >= 1 ==> PlainDelay(c, a) == Ideal(c, a)
  }

  lemma Unwrapped(c: Config, failures: U32)
    requires Sensible(c) && NeverWraps(c) && failures >= 1
    ensures PlainDelay(c, failures) == Min(c.baseDelay * Pow2(Min(failures - 1, 30)), c.maxDelay) >= 0
  {
    Scale(c.baseDelay, 0, Pow2(Min(failures - 1, 30)));
  }

  lemma DelayStep(c: Config, a: U32, b: U32)
    requires Sensible(c) && NeverWraps(c) && a <= b
    ensures 0 <= PlainDelay(c, a) <= PlainDelay(c, b)
  {
    if b > 0 { Unwrapped(c, b); }
    if a > 0 {
      Unwrapped(c, a);
      var i, j := Min(a - 1, 30), Min(b - 1, 30);
      Pow2Grows(i, j);
      Scale(c.baseDelay, Pow2(i), Pow2(j));
    }
  }

  /** The int64 product never wraps, the delay is never negative, and the delay never shrinks as failures
      accumulate: each of the three holds if and only if the base delay is at most MaxInt64 / 2^30. */
  lemma DelayIsSoundIff(c: Config)
    requires Sensible(c)
    ensures NeverWraps(c) <==> c.baseDelay <= MAX_INT64 / 0x4000_0000
    ensures NeverNegative(c) <==> c.baseDelay <= MAX_INT64 / 0x4000_0000
    ensures NonDecreasing(c) <==> c.baseDelay <= MAX_INT64 / 0x4000_0000
  {
    if c.baseDelay <= MAX_INT64 / 0x4000_0000 {
      SmallBaseNeverWraps(c);
      forall a: U32, b: U32 | a <= b ensures 0 <= PlainDelay(c, a) <= PlainDelay(c, b) {
        DelayStep(c, a, b);
      }
    } else {
      var bad := LargeBaseTurnsNegative(c);
      assert PlainDelay(c, 0) == 0;
    }
  }

  /** The delay is the promised min(base * 2^(f-1), max) for every number of failures f >= 1 if and only if
      the base is within the bound and the stop at 30 doublings is past the maximum (or the base is zero). */
  lemma DelayFollowsScheduleIff(c: Config)
    requires Sensible(c)
    ensures FollowsSchedule(c) <==>
              c.baseDelay <= MAX_INT64 / 0x4000_0000 && (c.baseDelay == 0 || c.maxDelay <= c.baseDelay * 0x4000_0000)
  {
    Pow2Of30();
    if c.baseDelay > MAX_INT64 / 0x4000_0000 {
      var bad := LargeBaseTurnsNegative(c);
      Scale(Pow2(bad - 1), 0, c.baseDelay);
      assert Ideal(c, bad) >= 0;
    } else {
      SmallBaseNeverWraps(c);
      if c.baseDelay == 0 || c.maxDelay <= c.baseDelay * 0x4000_0000 {
        forall a: U32 | a >= 1 ensures PlainDelay(c, a) == Ideal(c, a) { CappedAlike(c, a); }
      } else {
        assert Pow2(31) == 2 * Pow2(30);
        assert Ideal(c, 32) != PlainDelay(c, 32);
      }
    }
  }

  lemma CappedAlike(c: Config, a: U32)
    requires Sensible(c) && NeverWraps(c) && a >= 1
    requires c.baseDelay == 0 || c.maxDelay <= c.baseDelay * 0x4000_0000
    ensures PlainDelay(c, a) == Ideal(c, a)
  {
    if a > 31 {
      Pow2Of30();
      Pow2Grows(30, a - 1);
      Scale(c.baseDelay, Pow2(30), Pow2(a - 1));
    }
  }

  // ---------- Jitter ----------

  lemma Shrinks(x: real, y: real)
    requires 0.0 <= x <= 1.0 && y >= 0.0
    ensures 0.0 <= x * y <= y
  {
    assert x * y >= 0.0;
    assert (1.0 - x) * y >= 0.0;
  }

  lemma CutInRange(draw: real, most: real)
    requires 0.0 <= draw <= 1.0 && most >= 0.0
    ensures 0.0 <= Cut(draw, most) <= most
  {
    Shrinks(draw, most);
  }

  lemma MostInRange(c: Config, delay: nat)
    ensures 0.0 <= Most(c, delay) && (1.0 - Fraction(c)) * delay as real == delay as real - Most(c, delay)
  {
  }

  /** What is left of `delay` when at most `most` of it is cut off, in whole units. */
  lemma LeftOver(delay: int, most: real, cut: real)
    requires 0.0 <= cut <= most
    ensures delay as real - most <= (delay - cut.Floor) as real && delay - cut.Floor <= delay
  {
  }

  lemma JitteredInRange(delay: int, most: real, draw: real)
    requires 0.0 <= draw < 1.0 && 0.0 <= most
    ensures delay as real - most <= (delay - Cut(draw, most).Floor) as real && delay - Cut(draw, most).Floor <= delay
  {
    CutInRange(draw, most);
    LeftOver(delay, most, Cut(draw, most));
  }

  /** Whatever is drawn, jitter only shortens the delay, and by no more than the configured fraction of it. */
  lemma JitterStaysInRange(c: Config, failures: U32, draw: real)
    requires 0.0 <= draw < 1.0
    ensures Delay(c, failures, draw) <= PlainDelay(c, failures)
    ensures PlainDelay(c, failures) > 0 ==>
              (1.0 - Fraction(c)) * PlainDelay(c, failures) as real <= Delay(c, failures, draw) as real
    ensures PlainDelay(c, failures) <= 0 || c.jitter <= 0.0 ==> Delay(c, failures, draw) == PlainDelay(c, failures)
  {
    var delay: int := PlainDelay(c, failures);
    if c.jitter > 0.0 && delay > 0 {
      MostInRange(c, delay);
      JitteredInRange(delay, Most(c, delay), draw);
    }
  }

  /** A fraction of up to one is taken as configured, and a larger one leaves no less than nothing. */
  lemma JitterTakesTheFraction(c: Config, failures: U32, draw: real)
    requires 0.0 <= draw < 1.0 && c.jitter > 0.0 && PlainDelay(c, failures) > 0
    ensures c.jitter <= 1.0 ==>
              (1.0 - c.jitter) * PlainDelay(c, failures) as real <= Delay(c, failures, draw) as real
    ensures c.jitter > 1.0 ==> 0 <= Delay(c, failures, draw)
  {
    JitterStaysInRange(c, failures, draw);
  }

  lemma WholeCut(m: nat, most: real)
    requires 0.0 < most && m as real < most
    ensures 0.0 <= m as real / most < 1.0 && Cut(m as real / most, most).Floor == m
  {
    assert m as real / most * most == m as real;
  }

  /** Every whole delay above what the configured fraction leaves, up to the plain delay, is drawn by some number. */
  lemma JitterReachesEveryDelay(c: Config, failures: U32, delay: int) returns (draw: real)
    requires c.jitter > 0.0 && delay <= PlainDelay(c, failures) && PlainDelay(c, failures) > 0
    requires (PlainDelay(c, failures) - delay) as real
             < (if c.jitter > 1.0 then 1.0 else c.jitter) * PlainDelay(c, failures) as real
    ensures 0.0 <= draw < 1.0 && Delay(c, failures, draw) == delay
  {
    var plain: int := PlainDelay(c, failures);
    WholeCut(plain - delay, Most(c, plain));
    draw := (plain - delay) as real / Most(c, plain);
  }
}
