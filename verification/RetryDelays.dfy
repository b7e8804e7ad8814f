/**
 The delays between the runner's retries.
 */
module RetryDelays {
  /** `RetryPolicy`: bounded exponential delays, in seconds. */
  class RetryPolicy {
    const baseDelay: real
    const maximumDelay: real

    predicate Valid() {
      0.0 < baseDelay <= maximumDelay
    }

    constructor (baseDelay: real, maximumDelay: real)
      requires 0.0 < baseDelay <= maximumDelay
      ensures Valid() && this.baseDelay == baseDelay && this.maximumDelay == maximumDelay
    {
      this.baseDelay := baseDelay;
      this.maximumDelay := maximumDelay;
    }

    /** `delay_for` with the identity jitter. */
    method DelayFor(retryNumber: nat) returns (delay: real)
      requires Valid() && retryNumber >= 1
      ensures delay == Smaller(maximumDelay, Doubled(baseDelay, retryNumber - 1))
    {
      var base, remaining := baseDelay, retryNumber - 1;
      while remaining > 0 && base < maximumDelay
        invariant 0 <= remaining < retryNumber
        invariant base == Smaller(maximumDelay, Doubled(baseDelay, retryNumber - 1 - remaining))
      {
        base := Smaller(maximumDelay, base * 2.0);
        remaining := remaining - 1;
      }
      DoubledGrows(baseDelay, retryNumber - 1 - remaining, retryNumber - 1);
      delay := Smaller(maximumDelay, base);
    }
  }

  function Smaller(x: real, y: real): real {
    if x < y then x else y
  }

  /** `base` doubled `n` times. */
  function Doubled(base: real, n: nat): real {
    if n == 0 then base else 2.0 * Doubled(base, n - 1)
  }

  lemma {:induction false} DoubledGrows(base: real, m: nat, n: nat)
    requires 0.0 < base && m <= n
    ensures 0.0 < Doubled(base, m) <= Doubled(base, n)
    decreases n
  {
    if m < n {
      DoubledGrows(base, m, n - 1);
    } else if m > 0 {
      DoubledGrows(base, m - 1, m - 1);
    }
  }
}
