/** The two doubling loops that space out retries, in the machine integers the program counts nanoseconds
    with, against their closed forms. */
module Backoff {
  newtype int64 = x: int | -0x8000_0000_0000_0000 <= x < 0x8000_0000_0000_0000

  function Pow2(n: nat): nat {
    if n == 0 then 1 else 2 * Pow2(n - 1)
  }

  /** `initial` doubled `n` times. */
  function Doubled(initial: int, n: nat): int {
    if n == 0 then initial else 2 * Doubled(initial, n - 1)
  }

  lemma {:induction false} DoubledIsPower(initial: int, n: nat)
    ensures Doubled(initial, n) == initial * Pow2(n)
  {
    if n > 0 {
      DoubledIsPower(initial, n - 1);
      var p := Pow2(n - 1);
      assert initial * (2 * p) == 2 * (initial * p);
    }
  }

  lemma {:induction false} DoubledGrows(initial: int, m: nat, n: nat)
    requires 0 < initial && m <= n
    ensures initial <= Doubled(initial, m) <= Doubled(initial, n)
    ensures m < n ==> 2 * Doubled(initial, m) <= Doubled(initial, n)
    decreases m + n
  {
    if m < n {
      DoubledGrows(initial, m, n - 1);
    } else if m > 0 {
      DoubledGrows(initial, m - 1, n - 1);
    }
  }

  function Min(a: int, b: int): int {
    if a < b then a else b
  }

  // ----- end recovery

  /** The maximum as soon as some doubling would start from at least half of it, the doubling until then. */
  function EndRecoveryDelay(initial: int, maximum: int, n: nat): int {
    if n > 0 && Doubled(initial, n - 1) >= maximum / 2 then maximum else Min(Doubled(initial, n), maximum)
  }

  /** The loop never overflows: it doubles only what is below half of the maximum. */
  method EndRecoveryBackoff(initial: int64, maximum: int64, retryCount: int64) returns (delay: int64)
    requires 0 < initial <= maximum && 0 <= retryCount
    ensures delay as int == EndRecoveryDelay(initial as int, maximum as int, retryCount as int)
  {
    delay := initial;
    var i: int64 := 0;
    while i < retryCount
      invariant 0 <= i <= retryCount
      invariant 0 < delay <= maximum
      invariant delay as int == Doubled(initial as int, i as int)
      invariant i > 0 ==> Doubled(initial as int, i as int - 1) < maximum as int / 2
    {
      if delay >= maximum / 2 {
        DoubledGrows(initial as int, i as int, retryCount as int - 1);
        return maximum;
      }
      delay := delay * 2;
      i := i + 1;
    }
    if maximum < delay { delay := maximum; }
  }

  /** The delay is the capped power of two, except that it is one unit more when the power itself would stop
      one unit short of the maximum, which takes an odd maximum. It never exceeds the maximum. */
  lemma EndRecoveryClosedForm(initial: int, maximum: int, n: nat)
    requires 0 < initial <= maximum
    ensures
      var exact := Min(maximum, initial * Pow2(n));
      var delay := EndRecoveryDelay(initial, maximum, n);
      && (delay == exact <==> n == 0 || initial * Pow2(n) != maximum - 1)
      && exact <= delay <= exact + 1 && delay <= maximum
      && (maximum % 2 == 0 ==> delay == exact)
  {
    DoubledIsPower(initial, n);
    DoubledGrows(initial, if n == 0 then 0 else n - 1, n);
    hide Pow2;
  }

  /** More failures never shorten the wait. */
  lemma EndRecoveryMonotone(initial: int, maximum: int, m: nat, n: nat)
    requires 0 < initial <= maximum && m <= n
    ensures initial <= EndRecoveryDelay(initial, maximum, m) <= EndRecoveryDelay(initial, maximum, n) <= maximum
  {
    DoubledGrows(initial, m, n);
    if 0 < m {
      DoubledGrows(initial, m - 1, n - 1);
    }
  }

  // ----- attribution tasks

  const SECOND: int := 1_000_000_000

  const CAP: int := 120 * SECOND

  function RetryDelay(attempts: int): int {
    if attempts <= 1 then SECOND else Min(CAP, Doubled(SECOND, attempts - 1))
  }

  method RetryBackoff(attempts: int64) returns (delay: int64)
    ensures delay as int == RetryDelay(attempts as int)
  {
    var base: int64, cap: int64 := 1_000_000_000, 120_000_000_000;
    if attempts <= 1 { return base; }
    delay := base;
    var i: int64 := 0;
    while i < attempts - 1
      invariant 0 <= i <= attempts - 1
      invariant 0 < delay < cap
      invariant delay as int == Doubled(SECOND, i as int)
    {
      delay := delay * 2;
      i := i + 1;
      if delay >= cap {
        DoubledGrows(SECOND, i as int, attempts as int - 1);
        return cap;
      }
    }
  }

  /** The wait is a power of two in seconds, capped at two minutes, which it reaches at the eighth attempt. */
  lemma RetryClosedForm(n: nat)
    requires n >= 1
    ensures RetryDelay(n) == Min(120, Pow2(n - 1)) * SECOND
    ensures RetryDelay(n) == CAP <==> n >= 8
  {
    DoubledIsPower(SECOND, n - 1);
    PowersToSeven();
    if n >= 8 {
      DoubledGrows(1, 7, n - 1);
      DoubledIsPower(1, 7);
      DoubledIsPower(1, n - 1);
    } else {
      DoubledGrows(1, n - 1, 6);
      DoubledIsPower(1, 6);
      DoubledIsPower(1, n - 1);
    }
  }

  lemma PowersToSeven()
    ensures Pow2(6) == 64 && Pow2(7) == 128
  {
    assert Pow2(2) == 4 && Pow2(4) == 16;
  }

  lemma RetryMonotone(m: int, n: int)
    requires m <= n
    ensures SECOND <= RetryDelay(m) <= RetryDelay(n) <= CAP
  {
    if 1 < m {
      DoubledGrows(SECOND, m - 1, n - 1);
    } else if 1 < n {
      DoubledGrows(SECOND, 0, n - 1);
    }
  }
}
