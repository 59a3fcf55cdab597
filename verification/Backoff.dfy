/** The exponential backoff shared by the throttle gate, the circuit breaker and per-intent retries. */
module Backoff {
  import opened Basics

  /** A random number source delivers reals in [0, 1). */
  type Random = u: real | 0.0 <= u < 1.0 witness 0.0

  function Pow2(k: nat): (p: nat)
    ensures p >= 1
  {
    if k == 0 then 1 else 2 * Pow2(k - 1)
  }

  /** The interval after k draws, in closed form: initial * 2^k, capped. */
  function Capped(initial: Time, max: Time, k: nat): Time {
    Min(initial * Pow2(k), max)
  }

  /** `draw` lies within `percent` of the interval. */
  predicate Jittered(draw: Time, interval: Time, percent: nat) {
    (100 - percent) * interval <= 100 * draw <= (100 + percent) * interval
  }

  /** The external backoff object: each draw jitters the current interval, then doubles it up to the maximum. */
  datatype BackOff = BackOff(initial: Time, max: Time, percent: nat, current: Time) {

    predicate Valid() {
      0 < initial <= max && percent <= 100 && 0 < current <= max
    }

    function Draw(u: Random): (draw: Time)
      requires Valid()
      ensures Jittered(draw, current, percent)
      ensures percent < 100 ==> draw > 0
    {
      var delta := current * percent / 100;
      var spread := 2 * delta + 1;
      ScaledBelow(u, spread);
      current - delta + (u * spread as real).Floor
    }

    function Grown(): (b: BackOff)
      requires Valid()
      ensures b.Valid()
    {
      this.(current := Min(2 * current, max))
    }

    function Reset(): (b: BackOff)
      requires Valid()
      ensures b.Valid()
    {
      this.(current := initial)
    }

    /** How many draws since the last reset, read off the interval. */
    ghost predicate After(k: nat) {
      current == Capped(initial, max, k)
    }

    lemma {:induction false} GrownAfter(k: nat)
      requires Valid() && After(k)
      ensures Grown().After(k + 1)
    {
      var p := Pow2(k);
      assert initial * Pow2(k + 1) == 2 * (initial * p) by {
        assert Pow2(k + 1) == 2 * p;
      }
    }
  }

  function New(initial: Time, max: Time, percent: nat): BackOff {
    BackOff(initial, max, percent, initial)
  }

  lemma ScaledBelow(u: Random, n: nat)
    requires n > 0
    ensures 0 <= (u * n as real).Floor < n
  {
    assert 0.0 <= u * n as real < n as real;
  }

  const RETRY_BASE_DELAY: Time := 10 * SECOND
  const RETRY_MAX_DELAY: Time := 5 * MINUTE
  const RETRY_JITTER: nat := 25

  /** The number of draws the delay before retry `retryCount` takes; counts below 1 behave like 1. */
  function RetryDraws(retryCount: int): nat {
    if retryCount < 1 then 1 else retryCount
  }

  /** The delay before retry number `retryCount`; `us` is the randomness of each draw. */
  method RetryDelay(retryCount: int, us: seq<Random>) returns (delay: Time)
    requires |us| == RetryDraws(retryCount)
    ensures Jittered(delay, Capped(RETRY_BASE_DELAY, RETRY_MAX_DELAY, RetryDraws(retryCount) - 1), RETRY_JITTER)
    ensures 0 < delay
  {
    var b := New(RETRY_BASE_DELAY, RETRY_MAX_DELAY, RETRY_JITTER);
    delay := b.Draw(us[0]);
    b.GrownAfter(0);
    b := b.Grown();
    var i := 1;
    while i < retryCount
      invariant 1 <= i <= RetryDraws(retryCount)
      invariant b.Valid() && b.initial == RETRY_BASE_DELAY && b.max == RETRY_MAX_DELAY && b.percent == RETRY_JITTER
      invariant b.After(i)
      invariant Jittered(delay, Capped(RETRY_BASE_DELAY, RETRY_MAX_DELAY, i - 1), RETRY_JITTER) && 0 < delay
    {
      delay := b.Draw(us[i]);
      b.GrownAfter(i);
      b := b.Grown();
      i := i + 1;
    }
  }
}
