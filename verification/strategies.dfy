/**
 Retry strategies of the reconnecting runner.

 A strategy is a small decision object that the connect loop consults after
 every failed connection attempt: may it try again (`Retry`), how long should
 it wait first (`GetRetryInterval`), and how does the wait grow afterwards
 (`IncreaseRetryInterval`). `ResetRetryInterval` starts a fresh sequence.

 `autobahn_autoreconnect` offers two strategies: one that never retries and
 an exponential back-off. Both are pure values here; an operation that changes the interval
 returns the new strategy instead of mutating it.
 */
module Strategies {
  import opened Errors

  datatype Strategy =
      /** Gives up after the first failure. */
    | NoRetry
      /** Waits `current` seconds, multiplying the wait by `factor` after each
          failure, and gives up once the wait exceeds `max`. */
    | Backoff(initial: real, max: real, factor: real, current: real)

  /** Defaults of the back-off constructor, in seconds. */
  const DefaultInitialInterval: real := 0.5
  const DefaultMaxInterval: real := 512.0
  const DefaultFactor: real := 2.0

  /** The three configuration values of a strategy are equal (the current
      interval may differ). */
  predicate SameConfig(s: Strategy, t: Strategy) {
    match s
    case NoRetry => t.NoRetry?
    case Backoff(i, m, f, _) => t.Backoff? && t.initial == i && t.max == m && t.factor == f
  }

  /** A back-off strategy as its constructor builds it: the current interval
      starts at the initial one. */
  function NewBackoff(initial: real, max: real, factor: real): (s: Strategy)
    ensures s.Backoff?
    ensures s.initial == initial && s.max == max && s.factor == factor
    ensures GetRetryInterval(s) == Ok(initial)
    ensures s == ResetRetryInterval(s)
  {
    Backoff(initial, max, factor, initial)
  }

  /** The constructor with all its defaults. */
  function DefaultBackoff(): (s: Strategy)
    ensures s.Backoff? && s.initial == 0.5 && s.max == 512.0 && s.factor == 2.0
    ensures s.current == s.initial
  {
    NewBackoff(DefaultInitialInterval, DefaultMaxInterval, DefaultFactor)
  }

  /** The wait before the next attempt. The no-retry strategy does not
      override this operation, so asking it fails. */
  function GetRetryInterval(s: Strategy): (r: Result<real>)
    ensures r.Ok? <==> s.Backoff?
    ensures s.NoRetry? ==> r == Err(NotImplemented("get_retry_interval"))
    ensures s.Backoff? ==> r == Ok(s.current)
  {
    match s
    case NoRetry => Err(NotImplemented("get_retry_interval"))
    case Backoff(_, _, _, current) => Ok(current)
  }

  /** Starts a fresh wait sequence; a no-op for the no-retry strategy. */
  function ResetRetryInterval(s: Strategy): (r: Strategy)
    ensures SameConfig(s, r)
    ensures r.Backoff? ==> GetRetryInterval(r) == Ok(r.initial)
  {
    match s
    case NoRetry => NoRetry
    case Backoff(i, m, f, _) => Backoff(i, m, f, i)
  }

  /** Grows the wait by the factor. The no-retry strategy does not override
      this operation, so asking it fails. */
  function IncreaseRetryInterval(s: Strategy): (r: Result<Strategy>)
    ensures r.Ok? <==> s.Backoff?
    ensures r.Ok? ==> SameConfig(s, r.value)
    ensures s.NoRetry? ==> r == Err(NotImplemented("increase_retry_interval"))
    ensures r.Ok? ==> r.value.current == s.current * s.factor
  {
    match s
    case NoRetry => Err(NotImplemented("increase_retry_interval"))
    case Backoff(i, m, f, c) => Ok(Backoff(i, m, f, c * f))
  }

  /** Whether another attempt is permitted: never for the no-retry strategy,
      and for the back-off strategy while the interval is within the maximum. */
  function Retry(s: Strategy): (b: bool)
    ensures b ==> s.Backoff?
    ensures s.Backoff? ==> (b <==> s.current <= s.max)
  {
    match s
    case NoRetry => false
    case Backoff(_, max, _, current) => current <= max
  }

  /** `f` raised to the power `k`. */
  function Pow(f: real, k: nat): real {
    if k == 0 then 1.0 else f * Pow(f, k - 1)
  }

  /** `k` successive increases of a back-off strategy. */
  function IncreaseN(s: Strategy, k: nat): (r: Strategy)
    requires s.Backoff?
    ensures SameConfig(s, r)
    decreases k
  {
    if k == 0 then s else IncreaseN(IncreaseRetryInterval(s).value, k - 1)
  }

  // ---------------------------------------------------------------------
  // Properties of the operations

  /** After `k` increases the interval is the starting one times factor^k. */
  lemma {:induction false} IncreaseNInterval(s: Strategy, k: nat)
    requires s.Backoff?
    ensures IncreaseN(s, k).current == s.current * Pow(s.factor, k)
    decreases k
  {
    if k > 0 {
      var t := IncreaseRetryInterval(s).value;
      IncreaseNInterval(t, k - 1);
      calc {
        IncreaseN(s, k).current;
        IncreaseN(t, k - 1).current;
        t.current * Pow(s.factor, k - 1);
        (s.current * s.factor) * Pow(s.factor, k - 1);
        s.current * (s.factor * Pow(s.factor, k - 1));
      }
    }
  }

  /** One more increase is one more multiplication, taken at the end. */
  lemma {:induction false} IncreaseNSucc(s: Strategy, k: nat)
    requires s.Backoff?
    ensures IncreaseN(s, k + 1) == IncreaseRetryInterval(IncreaseN(s, k)).value
    decreases k
  {
    if k > 0 {
      IncreaseNSucc(IncreaseRetryInterval(s).value, k - 1);
    }
  }

  /** After a reset and `k` increases the wait is initial * factor^k. */
  lemma IntervalAfterIncreases(s: Strategy, k: nat)
    requires s.Backoff?
    ensures IncreaseN(ResetRetryInterval(s), k).current == s.initial * Pow(s.factor, k)
    ensures GetRetryInterval(IncreaseN(ResetRetryInterval(s), k)) == Ok(s.initial * Pow(s.factor, k))
  {
    var r := ResetRetryInterval(s);
    IncreaseNInterval(r, k);
    var t := IncreaseN(r, k);
    assert r.current == s.initial && r.factor == s.factor;
    assert t.current == s.initial * Pow(s.factor, k);
    assert GetRetryInterval(t) == Ok(t.current);
  }

  /** A reset after any number of increases restores exactly the state a
      reset gives without them: the wait is the initial interval again. */
  lemma ResetAfterIncreases(s: Strategy, k: nat)
    requires s.Backoff?
    ensures ResetRetryInterval(IncreaseN(s, k)) == ResetRetryInterval(s)
    ensures GetRetryInterval(ResetRetryInterval(IncreaseN(s, k))) == Ok(s.initial)
  {
  }

  /** Resetting twice is resetting once. */
  lemma ResetIdempotent(s: Strategy)
    ensures ResetRetryInterval(ResetRetryInterval(s)) == ResetRetryInterval(s)
  {
  }

  /** The no-retry strategy refuses every retry whatever was done to it, and
      a reset leaves it as it is. */
  lemma NoRetryNeverRetries(s: Strategy)
    requires s.NoRetry?
    ensures !Retry(s) && !Retry(ResetRetryInterval(s))
    ensures ResetRetryInterval(s) == s
  {
  }

  /** The back-off strategy retries exactly while the wait it would use is
      within the maximum. */
  lemma BackoffRetryIff(s: Strategy)
    requires s.Backoff?
    ensures Retry(s) <==> GetRetryInterval(s).value <= s.max
  {
  }

  // ---------------------------------------------------------------------
  // Facts about powers of the factor

  lemma {:induction false} PowAtLeastOne(f: real, k: nat)
    requires f >= 1.0
    ensures Pow(f, k) >= 1.0
  {
    if k > 0 {
      PowAtLeastOne(f, k - 1);
      assert f * Pow(f, k - 1) >= 1.0 * Pow(f, k - 1);
    }
  }

  lemma {:induction false} PowAtMostOne(f: real, k: nat)
    requires 0.0 <= f <= 1.0
    ensures 0.0 <= Pow(f, k) <= 1.0
  {
    if k > 0 {
      PowAtMostOne(f, k - 1);
      MulMonotone(f, Pow(f, k - 1), 1.0);
      MulMonotone(f, 0.0, Pow(f, k - 1));
      calc {
        Pow(f, k);
        f * Pow(f, k - 1);
      <= f * 1.0;
        f;
      <= 1.0;
      }
    }
  }

  /** Powers of a factor of at least one do not decrease. */
  lemma {:induction false} PowMonotone(f: real, j: nat, k: nat)
    requires f >= 1.0
    requires j <= k
    ensures Pow(f, j) <= Pow(f, k)
  {
    if j < k {
      PowMonotone(f, j, k - 1);
      PowAtLeastOne(f, k - 1);
      assert Pow(f, k - 1) <= f * Pow(f, k - 1);
    }
  }

  /** Bernoulli's inequality: factor^k >= 1 + k * (factor - 1). */
  lemma {:induction false} PowBernoulli(f: real, k: nat)
    requires f >= 1.0
    ensures Pow(f, k) >= 1.0 + (k as real) * (f - 1.0)
  {
    if k > 0 {
      var x := (k - 1) as real * (f - 1.0);
      PowBernoulli(f, k - 1);
      assert ((k - 1) as real) == (k as real) - 1.0;
      MulMonotone(f, 1.0 + x, Pow(f, k - 1));
      MulMonotone(f - 1.0, 0.0, x);
      calc {
        Pow(f, k);
        f * Pow(f, k - 1);
      >= f * (1.0 + x);
        f + f * x;
      >= f + x;
        1.0 + (k as real) * (f - 1.0);
      }
    }
  }

  // ---------------------------------------------------------------------
  // Monotonicity and termination of the wait sequence

  /** Between two resets the wait never shrinks when the factor is at least
      one and the initial interval is not negative. */
  lemma WaitsNonDecreasing(s: Strategy, j: nat, k: nat)
    requires s.Backoff? && s.factor >= 1.0 && s.initial >= 0.0
    requires j <= k
    ensures GetRetryInterval(IncreaseN(ResetRetryInterval(s), j)).value
         <= GetRetryInterval(IncreaseN(ResetRetryInterval(s), k)).value
  {
    IntervalAfterIncreases(s, j);
    IntervalAfterIncreases(s, k);
    PowMonotone(s.factor, j, k);
    MulMonotone(s.initial, Pow(s.factor, j), Pow(s.factor, k));
  }

  lemma MulMonotone(a: real, x: real, y: real)
    requires a >= 0.0 && x <= y
    ensures a * x <= a * y
  {
  }

  /** A number of increases after which a growing back-off has certainly
      exceeded its maximum. */
  function GiveUpBound(s: Strategy): (k: nat)
    requires s.Backoff? && s.initial > 0.0 && s.factor > 1.0
    ensures s.initial * Pow(s.factor, k) > s.max
  {
    var q := s.max / (s.initial * (s.factor - 1.0));
    if q < 0.0 then
      assert s.max < 0.0;
      0
    else
      var k := q.Floor + 1;
      BoundExceedsMax(s, q, k);
      k
  }

  lemma BoundExceedsMax(s: Strategy, q: real, k: nat)
    requires s.Backoff? && s.initial > 0.0 && s.factor > 1.0
    requires q == s.max / (s.initial * (s.factor - 1.0))
    requires (k as real) > q
    ensures s.initial * Pow(s.factor, k) > s.max
  {
    var d := s.initial * (s.factor - 1.0);
    PowBernoulli(s.factor, k);
    assert (k as real) * d > q * d;
    assert q * d == s.max;
    calc {
      s.initial * Pow(s.factor, k);
    >= s.initial * (1.0 + (k as real) * (s.factor - 1.0));
    == s.initial + (k as real) * d;
    >  s.max;
    }
  }

  /** With a factor above one and a positive initial interval, some number of
      increases after a reset makes the strategy refuse to retry. */
  lemma BackoffEventuallyGivesUp(s: Strategy)
    requires s.Backoff? && s.initial > 0.0 && s.factor > 1.0
    ensures exists k: nat :: !Retry(IncreaseN(ResetRetryInterval(s), k))
  {
    var k := GiveUpBound(s);
    IncreaseNInterval(ResetRetryInterval(s), k);
    assert !Retry(IncreaseN(ResetRetryInterval(s), k));
  }

  /** With a factor between zero and one and an initial interval within the
      maximum, the back-off strategy retries forever. */
  lemma BackoffRetriesForeverWhenNotGrowing(s: Strategy, k: nat)
    requires s.Backoff? && 0.0 <= s.factor <= 1.0 && 0.0 <= s.initial <= s.max
    ensures Retry(IncreaseN(ResetRetryInterval(s), k))
  {
    IncreaseNInterval(ResetRetryInterval(s), k);
    PowAtMostOne(s.factor, k);
    assert s.initial * Pow(s.factor, k) <= s.initial * 1.0;
  }
}
