/** Retry pacing of requeued jobs: pkg/work/retry.go. */
module RetryPacing {
  import opened Values

  const RETRY_BASE_DELAY: Duration := SECOND
  const RETRY_MAX_DELAY: Duration := 30 * SECOND
  const INT64_MAX: int := 0x7fff_ffff_ffff_ffff

  /** The backoff cap as the package comment words it: min(30s, 1s * 2^(attempt-1)), below 1 as 1. */
  function Cap(attempt: int): Duration {
    Min(RETRY_MAX_DELAY, RETRY_BASE_DELAY * Pow2(if attempt < 1 then 0 else attempt - 1))
  }

  /** A source standing in for rand.Int63n: some value of [0, n) for every positive n. */
  ghost predicate Int63n(source: int -> int) {
    forall n :: 0 < n <= INT64_MAX ==> 0 <= source(n) < n
  }

  /** Once 2^k seconds passes the maximum, every larger exponent is capped too. */
  lemma CapSaturates(i: nat, attempt: int)
    requires 1 <= i <= attempt
    requires RETRY_BASE_DELAY * Pow2(i - 1) >= RETRY_MAX_DELAY
    ensures Cap(attempt) == RETRY_MAX_DELAY
  {
    Pow2Monotone(i - 1, attempt - 1);
  }

  /** The doubling loop computes the closed form, keeps every product inside int64, and the jittered
      delay stays within [cap/2, cap]. */
  method RetryDelay(attempt: int, randInt63n: int -> int) returns (delay: Duration)
    requires Int63n(randInt63n)
    ensures delay == Cap(attempt) / 2 + randInt63n(Cap(attempt) - Cap(attempt) / 2 + 1)
    ensures Cap(attempt) / 2 <= delay <= Cap(attempt)
    ensures 0 < delay <= RETRY_MAX_DELAY
  {
    var capDelay := RETRY_BASE_DELAY;
    var i := 1;
    while i < attempt && capDelay < RETRY_MAX_DELAY
      invariant 1 <= i && (1 < attempt ==> i <= attempt)
      invariant attempt <= 1 ==> i == 1
      invariant capDelay == RETRY_BASE_DELAY * Pow2(i - 1)
      invariant RETRY_BASE_DELAY <= capDelay < 2 * RETRY_MAX_DELAY <= INT64_MAX
      decreases attempt - i
    {
      capDelay := capDelay * 2;
      i := i + 1;
    }
    if capDelay >= RETRY_MAX_DELAY && 1 <= attempt {
      CapSaturates(i, attempt);
    }
    if capDelay > RETRY_MAX_DELAY {
      capDelay := RETRY_MAX_DELAY;
    }
    assert capDelay == Cap(attempt);
    var half := capDelay / 2;
    assert 0 < capDelay - half + 1 <= INT64_MAX;
    delay := half + randInt63n(capDelay - half + 1);
  }

  /** The schedule in seconds: 1, 2, 4, 8, 16, and 30 from the sixth attempt on; below 1 as 1. */
  lemma RetrySchedule(attempt: int)
    ensures attempt <= 1 ==> Cap(attempt) == 1_000_000_000
    ensures attempt == 2 ==> Cap(attempt) == 2_000_000_000
    ensures attempt == 3 ==> Cap(attempt) == 4_000_000_000
    ensures attempt == 4 ==> Cap(attempt) == 8_000_000_000
    ensures attempt == 5 ==> Cap(attempt) == 16_000_000_000
    ensures attempt >= 6 ==> Cap(attempt) == 30_000_000_000
  {
    assert Pow2(0) == 1 && Pow2(1) == 2 && Pow2(2) == 4;
    assert Pow2(3) == 8;
    assert Pow2(4) == 2 * Pow2(3);
    assert Pow2(5) == 2 * Pow2(4);
    if attempt >= 6 {
      Pow2Monotone(5, attempt - 1);
    }
  }
}

/** Redelivery backoff: pkg/worker/delivery.go. */
module DeliveryBackoff {
  import opened Values
  import opened RetryPacing

  const DELIVERY_BASE_BACKOFF: Duration := 10 * SECOND
  const DELIVERY_MAX_BACKOFF: Duration := 300 * SECOND

  /** The unclamped schedule: min(5min, 10s * 2^(n-1)), with n below 1 read as 1. */
  function Base(attempts: int): Duration {
    Min(DELIVERY_MAX_BACKOFF, DELIVERY_BASE_BACKOFF * Pow2(if attempts < 1 then 0 else attempts - 1))
  }

  lemma Pow2Small()
    ensures Pow2(5) == 32 && Pow2(8) == 256
  {
    assert Pow2(3) == 8;
    assert Pow2(5) == 4 * Pow2(3);
    assert Pow2(7) == 4 * Pow2(5);
  }

  /** From the sixth attempt on the schedule is flat at the maximum. */
  lemma BaseSaturates(attempts: int)
    requires attempts >= 6
    ensures Base(attempts) == DELIVERY_MAX_BACKOFF
  {
    Pow2Small();
    Pow2Monotone(5, attempts - 1);
  }

  /** Clamping the shift at 8 changes no result: the clamped product is already past the maximum. */
  lemma ClampedShiftAgrees(shift: nat)
    ensures 0 < DELIVERY_BASE_BACKOFF * Pow2(if shift > 8 then 8 else shift) <= INT64_MAX
    ensures Min(DELIVERY_MAX_BACKOFF, DELIVERY_BASE_BACKOFF * Pow2(if shift > 8 then 8 else shift)) == Base(shift + 1)
  {
    Pow2Small();
    if shift > 8 {
      Pow2Monotone(8, shift);
    } else {
      Pow2Monotone(shift, 8);
    }
  }

  /** The shift-and-clamp code refines the unclamped schedule; the overflow guard `d <= 0` is dead; the
      jittered total never drops below the base, never exceeds 5 minutes, and is exactly 5 minutes from
      the sixth attempt on. */
  method BackoffDuration(attempts: int, randInt63n: int -> int) returns (total: Duration)
    requires Int63n(randInt63n)
    ensures total == Min(DELIVERY_MAX_BACKOFF, Base(attempts) + randInt63n(Base(attempts) / 4 + 1))
    ensures Base(attempts) <= total <= DELIVERY_MAX_BACKOFF
    ensures attempts >= 6 ==> total == DELIVERY_MAX_BACKOFF
  {
    var n := attempts;
    if n < 1 {
      n := 1;
    }
    var shift := n - 1;
    ghost var requested: nat := shift;
    if shift > 8 {
      shift := 8;
    }
    ClampedShiftAgrees(requested);
    var d := DELIVERY_BASE_BACKOFF * Pow2(shift);
    assert d > 0;
    if d > DELIVERY_MAX_BACKOFF || d <= 0 {
      d := DELIVERY_MAX_BACKOFF;
    }
    assert d == Base(attempts);
    assert d / 4 + 1 <= INT64_MAX;
    var jitter := randInt63n(d / 4 + 1);
    total := d + jitter;
    if total > DELIVERY_MAX_BACKOFF {
      total := DELIVERY_MAX_BACKOFF;
    }
    if attempts >= 6 {
      BaseSaturates(attempts);
    }
  }

  /** The schedule in seconds: 10, 20, 40, 80, 160, and 300 from the sixth attempt on; below 1 as 1. */
  lemma BackoffSchedule(attempts: int)
    ensures attempts <= 1 ==> Base(attempts) == 10_000_000_000
    ensures attempts == 2 ==> Base(attempts) == 20_000_000_000
    ensures attempts == 3 ==> Base(attempts) == 40_000_000_000
    ensures attempts == 4 ==> Base(attempts) == 80_000_000_000
    ensures attempts == 5 ==> Base(attempts) == 160_000_000_000
    ensures attempts >= 6 ==> Base(attempts) == 300_000_000_000
  {
    assert Pow2(0) == 1 && Pow2(1) == 2 && Pow2(2) == 4;
    assert Pow2(3) == 8;
    assert Pow2(4) == 2 * Pow2(3);
    if attempts >= 6 {
      BaseSaturates(attempts);
    }
  }
}
