/** Exponential backoff, pkg/storage/plugin.go. Durations are integers (nanoseconds);
    float64 multiplication is taken as exact real multiplication, the conversion back to
    time.Duration truncates toward zero. */
module Retry {

  datatype RetryPolicy = RetryPolicy(maxRetries: int, initialBackoff: int, maxBackoff: int, multiplier: real)

  function Truncate(r: real): int {
    if r >= 0.0 then r.Floor else -((-r).Floor)
  }

  function Next(rp: RetryPolicy, backoff: int): int {
    Truncate(backoff as real * rp.multiplier)
  }

  /** The delay before retry `n` if nothing capped it. */
  function Uncapped(rp: RetryPolicy, n: nat): int {
    if n == 0 then rp.initialBackoff
    else Next(rp, Uncapped(rp, n - 1))
  }

  ghost predicate Exceeded(rp: RetryPolicy, n: nat) {
    exists i :: 1 <= i <= n && Uncapped(rp, i) > rp.maxBackoff
  }

  /** What NextBackoff returns: the first attempt past the cap pins every later one to it,
      and attempt 0 or less is never capped. */
  ghost function Backoff(rp: RetryPolicy, attempt: int): int {
    if attempt <= 0 then rp.initialBackoff
    else if Exceeded(rp, attempt) then rp.maxBackoff
    else Uncapped(rp, attempt)
  }

  /** One step multiplies and cuts off the fraction, toward zero: less than one unit is lost,
      and nothing when the product is whole. */
  lemma NextCutsOffTheFraction(rp: RetryPolicy, b: int)
    ensures
      var x := b as real * rp.multiplier;
      && (x >= 0.0 ==> Next(rp, b) as real <= x < Next(rp, b) as real + 1.0)
      && (x <= 0.0 ==> Next(rp, b) as real - 1.0 < x <= Next(rp, b) as real)
  {
    var x := b as real * rp.multiplier;
    FloorBounds(x);
    FloorBounds(-x);
  }

  lemma FloorBounds(x: real)
    ensures x.Floor as real <= x < x.Floor as real + 1.0
  {
  }

  method NextBackoff(rp: RetryPolicy, attempt: int) returns (backoff: int)
    ensures backoff == Backoff(rp, attempt)
  {
    hide Next;
    if attempt <= 0 {
      return rp.initialBackoff;
    }
    backoff := rp.initialBackoff;
    for i := 0 to attempt
      invariant backoff == Uncapped(rp, i)
      invariant !Exceeded(rp, i)
    {
      backoff := Next(rp, backoff);
      if backoff > rp.maxBackoff {
        assert Uncapped(rp, i + 1) > rp.maxBackoff;
        return rp.maxBackoff;
      }
    }
  }

  function Min(a: int, b: int): int { if a <= b then a else b }

  ghost predicate Growing(rp: RetryPolicy) {
    rp.initialBackoff >= 0 && rp.multiplier >= 1.0
  }

  lemma NextGrows(rp: RetryPolicy, b: int)
    requires b >= 0 && rp.multiplier >= 1.0
    ensures Next(rp, b) >= b
  {
    NextCutsOffTheFraction(rp, b);
    assert b as real * rp.multiplier >= b as real;
  }

  lemma NextShrinks(rp: RetryPolicy, b: int)
    requires b >= 0 && 0.0 <= rp.multiplier <= 1.0
    ensures 0 <= Next(rp, b) <= b
  {
    NextCutsOffTheFraction(rp, b);
    assert 0.0 <= b as real * rp.multiplier <= b as real;
  }

  lemma {:induction false} UncappedGrows(rp: RetryPolicy, i: nat, n: nat)
    requires Growing(rp) && i <= n
    ensures rp.initialBackoff <= Uncapped(rp, i) <= Uncapped(rp, n)
    decreases n
  {
    hide Next;
    if n > 0 {
      var k := if i < n then i else n - 1;
      UncappedGrows(rp, k, n - 1);
      NextGrows(rp, Uncapped(rp, n - 1));
    }
  }

  lemma {:induction false} UncappedShrinks(rp: RetryPolicy, i: nat, n: nat)
    requires rp.initialBackoff >= 0 && 0.0 <= rp.multiplier <= 1.0 && i <= n
    ensures 0 <= Uncapped(rp, n) <= Uncapped(rp, i)
    decreases n
  {
    hide Next;
    if n > 0 {
      var k := if i < n then i else n - 1;
      UncappedShrinks(rp, k, n - 1);
      NextShrinks(rp, Uncapped(rp, n - 1));
    }
  }

  /** With a multiplier of at least 1 the early exit computes exactly the smaller of the
      cap and the uncapped delay. */
  lemma GrowingBackoffIsCapped(rp: RetryPolicy, attempt: nat)
    requires Growing(rp) && attempt >= 1
    ensures Backoff(rp, attempt) == Min(rp.maxBackoff, Uncapped(rp, attempt))
  {
    if Exceeded(rp, attempt) {
      var i :| 1 <= i <= attempt && Uncapped(rp, i) > rp.maxBackoff;
      UncappedGrows(rp, i, attempt);
    }
  }

  /** With a multiplier below 1 it does so if and only if the first delay does not exceed
      the cap, or the last still reaches it. */
  lemma ShrinkingBackoffIsCappedIff(rp: RetryPolicy, attempt: nat)
    requires rp.initialBackoff >= 0 && 0.0 <= rp.multiplier <= 1.0 && attempt >= 1
    ensures Backoff(rp, attempt) == Min(rp.maxBackoff, Uncapped(rp, attempt))
      <==> Uncapped(rp, 1) <= rp.maxBackoff || Uncapped(rp, attempt) >= rp.maxBackoff
  {
    UncappedShrinks(rp, 1, attempt);
    if Uncapped(rp, 1) <= rp.maxBackoff {
      forall i | 1 <= i <= attempt
        ensures Uncapped(rp, i) <= rp.maxBackoff
      {
        UncappedShrinks(rp, 1, i);
      }
    } else {
      assert Exceeded(rp, attempt);
    }
  }

  /** Delays never decrease from one attempt to the next and stay between the initial and
      the maximal delay. */
  lemma BackoffIsMonotone(rp: RetryPolicy, a: int, b: int)
    requires Growing(rp) && rp.initialBackoff <= rp.maxBackoff && a <= b
    ensures rp.initialBackoff <= Backoff(rp, a) <= Backoff(rp, b) <= rp.maxBackoff
  {
    if a >= 1 {
      GrowingBackoffIsCapped(rp, a);
      UncappedGrows(rp, a, b);
    }
    if b >= 1 {
      GrowingBackoffIsCapped(rp, b);
      UncappedGrows(rp, 0, b);
    }
  }

  /** The maximum bounds every delay if and only if the policy does not start above it:
      attempt 0 returns the initial delay uncapped. */
  lemma MaximumHoldsIff(rp: RetryPolicy)
    requires Growing(rp)
    ensures (forall attempt :: Backoff(rp, attempt) <= rp.maxBackoff) <==> rp.initialBackoff <= rp.maxBackoff
  {
    assert Backoff(rp, 0) == rp.initialBackoff;
    if rp.initialBackoff <= rp.maxBackoff {
      forall attempt
        ensures Backoff(rp, attempt) <= rp.maxBackoff
      {
        BackoffIsMonotone(rp, attempt, attempt);
      }
    }
  }

  // ---- Whole multipliers ----

  function IntPow(k: int, n: nat): int {
    if n == 0 then 1 else k * IntPow(k, n - 1)
  }

  lemma NextOfWhole(rp: RetryPolicy, b: int, k: int)
    requires rp.multiplier == k as real
    ensures Next(rp, b) == b * k
  {
    NextCutsOffTheFraction(rp, b);
    assert b as real * k as real == (b * k) as real;
  }

  lemma RegroupProduct(a: int, k: int, power: int)
    ensures a * power * k == a * (k * power)
  {
  }

  /** With a whole multiplier nothing is ever cut off: the delays are the exact powers. */
  lemma {:induction false} WholeMultiplierIsExact(rp: RetryPolicy, k: int, n: nat)
    requires rp.multiplier == k as real
    ensures Uncapped(rp, n) == rp.initialBackoff * IntPow(k, n)
  {
    hide Next;
    if n > 0 {
      WholeMultiplierIsExact(rp, k, n - 1);
      NextOfWhole(rp, Uncapped(rp, n - 1), k);
      RegroupProduct(rp.initialBackoff, k, IntPow(k, n - 1));
    }
  }

  /** So NextBackoff then returns min(maxBackoff, initialBackoff * k^attempt). */
  lemma WholeMultiplierBackoff(rp: RetryPolicy, k: int, attempt: nat)
    requires rp.multiplier == k as real && k >= 1 && rp.initialBackoff >= 0 && attempt >= 1
    ensures Backoff(rp, attempt) == Min(rp.maxBackoff, rp.initialBackoff * IntPow(k, attempt))
  {
    GrowingBackoffIsCapped(rp, attempt);
    WholeMultiplierIsExact(rp, k, attempt);
  }

  const MILLISECOND := 1_000_000
  const DEFAULT_RETRY_POLICY := RetryPolicy(3, 100 * MILLISECOND, 10_000 * MILLISECOND, 2.0)

  /** The default policy waits 100, 200, 400, ... 6400 ms, and 10 s from attempt 7 on. */
  lemma DefaultDelays(attempt: nat)
    ensures
      Backoff(DEFAULT_RETRY_POLICY, attempt)
      == if attempt <= 6 then 100_000_000 * [1, 2, 4, 8, 16, 32, 64][attempt] else 10_000_000_000
  {
    if attempt >= 1 {
      WholeMultiplierBackoff(DEFAULT_RETRY_POLICY, 2, attempt);
      PowersOfTwo(attempt);
    }
  }

  lemma {:induction false} PowersOfTwo(n: nat)
    ensures n <= 6 ==> IntPow(2, n) == [1, 2, 4, 8, 16, 32, 64][n]
    ensures n > 6 ==> IntPow(2, n) > 100
  {
    if n > 0 {
      PowersOfTwo(n - 1);
    }
  }

  // ---- How close the truncated delays stay to initial * multiplier^n ----

  function Times(a: real, b: real): real { a * b }

  function Pow(m: real, n: nat): real {
    if n == 0 then 1.0 else Times(m, Pow(m, n - 1))
  }

  lemma TimesMono(a: real, x: real, y: real)
    requires a >= 0.0 && x <= y
    ensures Times(a, x) <= Times(a, y)
  {
  }

  lemma TimesExpand(m: real, x: real, y: real)
    ensures Times(m, x - y) == Times(m, x) - Times(m, y)
    ensures Times(m - 1.0, Times(m, x) + 1.0) == Times(m, Times(m - 1.0, x)) + (m - 1.0)
    ensures Times(m, x - 1.0) == Times(m, x) - m
  {
  }

  /** `c` is `b` times `m`, less than 1 having been cut off. */
  ghost predicate CutOff(m: real, b: real, c: real) {
    Times(m, b) - 1.0 <= c <= Times(m, b)
  }

  lemma TruncationCutsOff(rp: RetryPolicy, b: int)
    requires b >= 0 && rp.multiplier >= 1.0
    ensures CutOff(rp.multiplier, b as real, Next(rp, b) as real)
  {
    assert b as real * rp.multiplier == rp.multiplier * b as real >= 0.0;
  }

  /** `b` lies below the exact delay by at most (power - 1) / (m - 1). */
  ghost predicate Near(m: real, power: real, exact: real, b: real) {
    b <= exact && Times(m - 1.0, exact - b) <= power - 1.0
  }

  /** `c` is one truncated step after `b`. */
  lemma NearStep(m: real, power: real, exact: real, b: real, c: real)
    requires m >= 1.0 && CutOff(m, b, c) && Near(m, power, exact, b)
    ensures Near(m, Times(m, power), Times(m, exact), c)
  {
    hide Times;
    var gap := exact - b;
    TimesMono(m, b, exact);
    TimesExpand(m, exact, b);
    TimesMono(m - 1.0, Times(m, exact) - c, Times(m, gap) + 1.0);
    TimesExpand(m, gap, 0.0);
    TimesMono(m, Times(m - 1.0, gap), power - 1.0);
    TimesExpand(m, power, 0.0);
  }

  /** The delay without truncation. */
  function Exact(rp: RetryPolicy, n: nat): real {
    Times(rp.initialBackoff as real, Pow(rp.multiplier, n))
  }

  lemma TimesReorder(a: real, m: real, power: real)
    ensures Times(a, Times(m, power)) == Times(m, Times(a, power))
    ensures Times(a, 1.0) == a
  {
  }

  ghost predicate NearExact(rp: RetryPolicy, n: nat) {
    Near(rp.multiplier, Pow(rp.multiplier, n), Exact(rp, n), Uncapped(rp, n) as real)
  }

  lemma NearAtStart(rp: RetryPolicy)
    ensures NearExact(rp, 0)
  {
    var initial := rp.initialBackoff as real;
    TimesReorder(initial, 1.0, 1.0);
    assert Pow(rp.multiplier, 0) == 1.0 && Exact(rp, 0) == initial;
    assert Times(rp.multiplier - 1.0, initial - initial) == 0.0;
  }

  lemma NearAtNext(rp: RetryPolicy, n: nat)
    requires Growing(rp) && NearExact(rp, n)
    ensures NearExact(rp, n + 1)
  {
    hide Near, CutOff, Times, Next;
    UncappedGrows(rp, 0, n);
    TruncationCutsOff(rp, Uncapped(rp, n));
    TimesReorder(rp.initialBackoff as real, rp.multiplier, Pow(rp.multiplier, n));
    NearStep(rp.multiplier, Pow(rp.multiplier, n), Exact(rp, n), Uncapped(rp, n) as real, Uncapped(rp, n + 1) as real);
  }

  lemma {:induction false} UncappedIsNear(rp: RetryPolicy, n: nat)
    requires Growing(rp)
    ensures NearExact(rp, n)
  {
    hide NearExact;
    if n == 0 {
      NearAtStart(rp);
    } else {
      UncappedIsNear(rp, n - 1);
      NearAtNext(rp, n - 1);
    }
  }

  lemma NearBounds(m: real, power: real, exact: real, b: real)
    requires m > 1.0 && Near(m, power, exact, b)
    ensures exact - (power - 1.0) / (m - 1.0) <= b <= exact
  {
    assert (m - 1.0) * (exact - b) <= power - 1.0;
    DivideBoth(m - 1.0, exact - b, power - 1.0);
  }

  /** Truncation never pushes a delay above initial * m^n, and keeps it below that by at
      most (m^n - 1) / (m - 1). */
  lemma UncappedIsNearlyExponential(rp: RetryPolicy, n: nat)
    requires Growing(rp) && rp.multiplier > 1.0
    ensures Exact(rp, n) - (Pow(rp.multiplier, n) - 1.0) / (rp.multiplier - 1.0) <= Uncapped(rp, n) as real
    ensures Uncapped(rp, n) as real <= Exact(rp, n)
  {
    hide Near, Exact, Pow, Uncapped;
    UncappedIsNear(rp, n);
    NearBounds(rp.multiplier, Pow(rp.multiplier, n), Exact(rp, n), Uncapped(rp, n) as real);
  }

  lemma DivideBoth(d: real, x: real, y: real)
    requires d > 0.0 && d * x <= y
    ensures x <= y / d
  {
    assert x == (d * x) / d;
    assert y / d - x == (y - d * x) / d >= 0.0;
  }
}
