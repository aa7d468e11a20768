/** Retry delays after failed fits, and when a recorded failure is honoured. */
module Backoff {
  import opened Basics
  import opened Slots

  const DEFAULT_MAXIMUM := 300 * SECOND
  const LONGEST_MAXIMUM := 86_400 * SECOND

  datatype RetryPolicy = RetryPolicy(initial: int, maximum: int)

  function Maximum(p: RetryPolicy): int {
    if p.maximum == 0 then DEFAULT_MAXIMUM else p.maximum
  }

  predicate Acceptable(p: RetryPolicy) {
    && (p.initial == 0 || p.initial >= SECOND)
    && SECOND <= Maximum(p) <= LONGEST_MAXIMUM && p.initial <= Maximum(p)
  }

  /** A malformed policy falls back to the default one. */
  function Checked(p: RetryPolicy): RetryPolicy {
    if Acceptable(p) then p else RetryPolicy(0, 0)
  }

  /** The first delay: the configured one or the sync period, within a second and the maximum. */
  function FirstDelay(p: RetryPolicy, syncPeriod: int): int {
    Min(Maximum(p), Max(SECOND, if p.initial == 0 then syncPeriod else p.initial))
  }

  /** One doubling per failure after the first. */
  function Doublings(failures: int): nat {
    if failures > 1 then failures - 1 else 0
  }

  function Doubled(first: int, n: nat): int {
    if n == 0 then first else 2 * Doubled(first, n - 1)
  }

  /** The first delay doubled once per further failure, capped. */
  function DelayFor(p: RetryPolicy, syncPeriod: int, failures: int): int {
    Min(Maximum(p), Doubled(FirstDelay(p, syncPeriod), Doublings(failures)))
  }

  function Pow2(n: nat): nat {
    if n == 0 then 1 else 2 * Pow2(n - 1)
  }

  /** The doubling in closed form. */
  lemma {:induction false} DoubledIs(first: int, n: nat)
    ensures Doubled(first, n) == first * Pow2(n)
  {
    if n > 0 {
      DoubledIs(first, n - 1);
      assert first * (2 * Pow2(n - 1)) == 2 * (first * Pow2(n - 1));
    }
  }

  /** More doublings of a larger first delay never give less. */
  lemma {:induction false} DoubledGrows(low: int, high: int, n: nat, m: nat)
    requires 0 < low <= high && n <= m
    ensures 0 < Doubled(low, n) <= Doubled(high, m)
  {
    if n < m {
      DoubledGrows(low, high, n, m - 1);
    } else if n > 0 {
      DoubledGrows(low, high, n - 1, n - 1);
    }
  }

  /** Doubling stops as soon as the next step would pass the maximum. */
  method Double(first: int, maximum: int, failures: int) returns (delay: int)
    requires 0 < first <= maximum
    ensures delay == Min(maximum, Doubled(first, Doublings(failures)))
  {
    delay := first;
    ghost var n := Doublings(failures);
    var i := 1;
    while i < failures && delay < maximum
      invariant 1 <= i && i - 1 <= n && 0 < delay <= maximum && delay == Doubled(first, i - 1)
    {
      if delay > maximum / 2 {
        DoubledGrows(first, first, i, n);
        return maximum;
      }
      delay := delay * 2;
      i := i + 1;
    }
    DoubledGrows(first, first, i - 1, n);
  }

  method Delay(policy: RetryPolicy, syncPeriod: int, failures: int) returns (delay: int)
    ensures delay == DelayFor(Checked(policy), syncPeriod, failures)
    ensures var p := Checked(policy);
            delay == Min(Maximum(p), FirstDelay(p, syncPeriod) * Pow2(Doublings(failures)))
  {
    var p := Checked(policy);
    var maximum := Maximum(p);
    delay := p.initial;
    if delay == 0 {
      delay := syncPeriod;
    }
    if delay < SECOND {
      delay := SECOND;
    }
    if delay > maximum {
      delay := maximum;
    }
    DoubledIs(delay, Doublings(failures));
    delay := Double(delay, maximum, failures);
  }

  /** More failures never shorten the delay, which stays between a second and the maximum. */
  lemma DelayIsMonotone(policy: RetryPolicy, syncPeriod: int, f: int, g: int)
    requires f <= g
    ensures var p := Checked(policy);
            SECOND <= DelayFor(p, syncPeriod, f) <= DelayFor(p, syncPeriod, g) <= Maximum(p)
  {
    var first := FirstDelay(Checked(policy), syncPeriod);
    DoubledGrows(first, first, Doublings(f), Doublings(g));
    DoubledGrows(first, first, 0, Doublings(f));
  }

  lemma SeventeenDoublings()
    ensures Doubled(SECOND, 17) >= LONGEST_MAXIMUM
  {
    assert Doubled(SECOND, 6) == 64 * SECOND;
    assert Doubled(SECOND, 12) == 4096 * SECOND;
  }

  /** Seventeen doublings of a second pass the longest maximum, so eighteen failures always reach it. */
  lemma DelayReachesMaximum(policy: RetryPolicy, syncPeriod: int, failures: int)
    requires failures >= 18
    ensures DelayFor(Checked(policy), syncPeriod, failures) == Maximum(Checked(policy))
  {
    SeventeenDoublings();
    DoubledGrows(SECOND, FirstDelay(Checked(policy), syncPeriod), 17, Doublings(failures));
  }

  // ----- The persisted failure -----

  datatype Failure = Failure(fingerprint: string, failures: int, failedAt: int, retryAfter: int)

  predicate ValidFailure(p: RetryPolicy, f: Option<Failure>, fingerprint: string, now: int) {
    && f.Some? && fingerprint != "" && f.value.fingerprint == fingerprint && f.value.failures > 0
    && f.value.failedAt != 0 && f.value.failedAt <= now && f.value.retryAfter > f.value.failedAt
    && f.value.retryAfter <= f.value.failedAt + Maximum(p) + SECOND
  }

  predicate InBackoff(p: RetryPolicy, f: Option<Failure>, fingerprint: string, now: int) {
    ValidFailure(p, f, fingerprint, now) && now < f.value.retryAfter
  }

  /** Rounded up, so that persisting whole seconds never shortens the delay. */
  function WholeSecondUp(t: int): int {
    if t % SECOND != 0 then Truncate(t, SECOND) + SECOND else t
  }

  function NextCount(p: RetryPolicy, f: Option<Failure>, fingerprint: string, now: int): int {
    if !ValidFailure(p, f, fingerprint, now) then 1
    else if f.value.failures < MAX_INT32 then f.value.failures + 1
    else f.value.failures
  }

  /** The failure as it is persisted, with the retry rounded up. */
  function Stamped(fingerprint: string, count: int, now: int, delay: int): Failure {
    Failure(fingerprint, count, Truncate(now, SECOND), WholeSecondUp(now + delay))
  }

  function Recorded(p: RetryPolicy, syncPeriod: int, f: Option<Failure>, fingerprint: string, now: int): Failure {
    var count := NextCount(p, f, fingerprint, now);
    Stamped(fingerprint, count, now, DelayFor(Checked(p), syncPeriod, count))
  }

  /** A recorded failure is honoured exactly when the rounded retry stays within the maximum plus a second. */
  predicate RoundsWithin(p: RetryPolicy, now: int, delay: int) {
    WholeSecondUp(now + delay) <= Truncate(now, SECOND) + Maximum(p) + SECOND
  }

  /** The stamps of a failure recorded with at least a second of delay are in order. */
  lemma StampsInOrder(now: int, delay: int)
    requires SECOND <= now && SECOND <= delay
    ensures 0 < Truncate(now, SECOND) <= now < WholeSecondUp(now + delay)
  {
  }

  /** Rounding up adds less than a second. */
  lemma RoundsUp(t: int)
    ensures t <= WholeSecondUp(t) < t + SECOND && WholeSecondUp(t) % SECOND == 0
  {
  }

  lemma StampedIsValidExactly(p: RetryPolicy, fingerprint: string, count: int, now: int, delay: int, later: int)
    requires fingerprint != "" && count > 0 && SECOND <= now <= later && SECOND <= delay
    ensures ValidFailure(p, Some(Stamped(fingerprint, count, now, delay)), fingerprint, later)
       <==> RoundsWithin(p, now, delay)
  {
    StampsInOrder(now, delay);
  }

  lemma StampedHoldsExactly(p: RetryPolicy, fingerprint: string, count: int, now: int, delay: int, later: int)
    requires fingerprint != "" && count > 0 && SECOND <= now <= later && SECOND <= delay
    ensures InBackoff(p, Some(Stamped(fingerprint, count, now, delay)), fingerprint, later)
       <==> RoundsWithin(p, now, delay) && later < WholeSecondUp(now + delay)
  {
    StampedIsValidExactly(p, fingerprint, count, now, delay, later);
  }

  lemma StampedMustRound(p: RetryPolicy, fingerprint: string, count: int, now: int, delay: int, later: int)
    requires ValidFailure(p, Some(Stamped(fingerprint, count, now, delay)), fingerprint, later)
    ensures RoundsWithin(p, now, delay)
  {
  }

  lemma DelayAtLeastSecond(policy: RetryPolicy, syncPeriod: int, failures: int)
    ensures SECOND <= DelayFor(Checked(policy), syncPeriod, failures) <= Maximum(Checked(policy))
  {
    DelayIsMonotone(policy, syncPeriod, failures, failures);
  }

  lemma RecordedIsValidExactly(p: RetryPolicy, syncPeriod: int, f: Option<Failure>, fingerprint: string, now: int,
                               later: int)
    requires fingerprint != "" && SECOND <= now <= later
    ensures ValidFailure(p, Some(Recorded(p, syncPeriod, f, fingerprint, now)), fingerprint, later)
       <==> RoundsWithin(p, now, DelayFor(Checked(p), syncPeriod, NextCount(p, f, fingerprint, now)))
  {
    var count := NextCount(p, f, fingerprint, now);
    DelayAtLeastSecond(p, syncPeriod, count);
    StampedIsValidExactly(p, fingerprint, count, now, DelayFor(Checked(p), syncPeriod, count), later);
  }

  /** The check of a recorded failure leaves room for every delay the policy can produce. */
  predicate Honours(p: RetryPolicy) {
    if Acceptable(p) then Maximum(p) % SECOND <= 1 else Maximum(p) >= DEFAULT_MAXIMUM
  }

  lemma HonouredRounds(p: RetryPolicy, now: int, delay: int)
    requires Honours(p) && delay <= Maximum(Checked(p))
    ensures RoundsWithin(p, now, delay)
  {
  }

  lemma DishonouredRounds(p: RetryPolicy)
    requires !Honours(p)
    ensures !RoundsWithin(p, 2 * SECOND - 1, Maximum(Checked(p)))
  {
  }

  /** An honoured policy leaves room for the failure whatever came before. */
  lemma HonouredIsValid(p: RetryPolicy, syncPeriod: int, f: Option<Failure>, fingerprint: string, now: int)
    requires Honours(p)
    ensures RoundsWithin(p, now, DelayFor(Checked(p), syncPeriod, NextCount(p, f, fingerprint, now)))
  {
    var count := NextCount(p, f, fingerprint, now);
    DelayAtLeastSecond(p, syncPeriod, count);
    HonouredRounds(p, now, DelayFor(Checked(p), syncPeriod, count));
  }

  lemma HeldBackExactly(p: RetryPolicy, syncPeriod: int, f: Option<Failure>, fingerprint: string, now: int, later: int)
    requires fingerprint != "" && SECOND <= now <= later
    ensures var delay := DelayFor(Checked(p), syncPeriod, NextCount(p, f, fingerprint, now));
            InBackoff(p, Some(Recorded(p, syncPeriod, f, fingerprint, now)), fingerprint, later)
            <==> RoundsWithin(p, now, delay) && later < WholeSecondUp(now + delay)
  {
    var count := NextCount(p, f, fingerprint, now);
    DelayAtLeastSecond(p, syncPeriod, count);
    StampedHoldsExactly(p, fingerprint, count, now, DelayFor(Checked(p), syncPeriod, count), later);
  }

  /**
    A recorded failure holds back fits until its rounded retry, less than a second after
    the delay, if it is honoured.
   */
  lemma BackoffLastsExactly(p: RetryPolicy, syncPeriod: int, f: Option<Failure>, fingerprint: string, now: int,
                            later: int)
    requires fingerprint != "" && SECOND <= now <= later
    ensures var delay := DelayFor(Checked(p), syncPeriod, NextCount(p, f, fingerprint, now));
            && (InBackoff(p, Some(Recorded(p, syncPeriod, f, fingerprint, now)), fingerprint, later)
                <==> RoundsWithin(p, now, delay) && later < WholeSecondUp(now + delay))
            && (Honours(p) ==> RoundsWithin(p, now, delay))
            && now + delay <= WholeSecondUp(now + delay) < now + delay + SECOND
  {
    HeldBackExactly(p, syncPeriod, f, fingerprint, now, later);
    RoundsUp(now + DelayFor(Checked(p), syncPeriod, NextCount(p, f, fingerprint, now)));
    if Honours(p) {
      HonouredIsValid(p, syncPeriod, f, fingerprint, now);
    }
  }

  /**
    Every failure, after any number of earlier ones and at every instant, is honoured
    if and only if the maximum is whole seconds (or a single nanosecond more). The delay
    of a malformed policy falls back to the default while the check does not, so its
    maximum must be at least the default one.
   */
  lemma AlwaysHonouredExactly(p: RetryPolicy, syncPeriod: int, fingerprint: string)
    requires fingerprint != ""
    ensures Honours(p)
       <==> forall f, now, later :: SECOND <= now <= later ==>
              ValidFailure(p, Some(Recorded(p, syncPeriod, f, fingerprint, now)), fingerprint, later)
  {
    forall f, now, later | SECOND <= now <= later && Honours(p)
      ensures ValidFailure(p, Some(Recorded(p, syncPeriod, f, fingerprint, now)), fingerprint, later)
    {
      HonouredIsValid(p, syncPeriod, f, fingerprint, now);
      RecordedIsValidExactly(p, syncPeriod, f, fingerprint, now, later);
    }
    if !Honours(p) {
      var f := DishonouredAfter(p, syncPeriod, fingerprint);
      assert !ValidFailure(p, Some(Recorded(p, syncPeriod, f, fingerprint, 2 * SECOND - 1)), fingerprint,
                           2 * SECOND - 1);
    }
  }

  /** Late in a second, at the maximal delay, the retry is recorded but ignored. */
  lemma DishonouredAfter(p: RetryPolicy, syncPeriod: int, fingerprint: string) returns (f: Option<Failure>)
    requires fingerprint != "" && !Honours(p)
    ensures !ValidFailure(p, Some(Recorded(p, syncPeriod, f, fingerprint, 2 * SECOND - 1)), fingerprint, 2 * SECOND - 1)
  {
    var now := 2 * SECOND - 1;
    f := Some(Failure(fingerprint, 17, SECOND, 2 * SECOND));
    RecordedIsValidExactly(p, syncPeriod, f, fingerprint, now, now);
    if ValidFailure(p, f, fingerprint, now) {
      DelayReachesMaximum(p, syncPeriod, NextCount(p, f, fingerprint, now));
      DishonouredRounds(p);
    } else {
      DelayIsMonotone(p, syncPeriod, 1, 1);
    }
  }

  lemma LongDelayPasses(p: RetryPolicy, now: int, first: int, delay: int)
    requires first <= delay && Maximum(p) + SECOND < WholeSecondUp(first)
    ensures !RoundsWithin(p, now, delay)
  {
  }

  lemma ShortDelayFits(p: RetryPolicy, now: int, delay: int)
    requires Maximum(p) + SECOND >= WholeSecondUp(delay) && now % SECOND == 0
    ensures RoundsWithin(p, now, delay)
  {
  }

  lemma DelayAtLeastFirst(policy: RetryPolicy, syncPeriod: int, failures: int)
    ensures FirstDelay(Checked(policy), syncPeriod) == DelayFor(Checked(policy), syncPeriod, 1)
    ensures FirstDelay(Checked(policy), syncPeriod) <= DelayFor(Checked(policy), syncPeriod, failures)
  {
    var first := FirstDelay(Checked(policy), syncPeriod);
    DoubledGrows(first, first, 0, Doublings(failures));
  }

  lemma FirstDelayTooLong(p: RetryPolicy, syncPeriod: int, f: Option<Failure>, fingerprint: string, now: int,
                          later: int)
    requires Maximum(p) + SECOND < WholeSecondUp(FirstDelay(Checked(p), syncPeriod))
    ensures !ValidFailure(p, Some(Recorded(p, syncPeriod, f, fingerprint, now)), fingerprint, later)
  {
    var count := NextCount(p, f, fingerprint, now);
    var delay := DelayFor(Checked(p), syncPeriod, count);
    DelayAtLeastFirst(p, syncPeriod, count);
    LongDelayPasses(p, now, FirstDelay(Checked(p), syncPeriod), delay);
    if ValidFailure(p, Some(Stamped(fingerprint, count, now, delay)), fingerprint, later) {
      StampedMustRound(p, fingerprint, count, now, delay, later);
    }
  }

  lemma FirstDelayHonoured(p: RetryPolicy, syncPeriod: int, fingerprint: string, now: int)
    requires Maximum(p) + SECOND >= WholeSecondUp(FirstDelay(Checked(p), syncPeriod))
    requires fingerprint != "" && SECOND <= now && now % SECOND == 0
    ensures ValidFailure(p, Some(Recorded(p, syncPeriod, None, fingerprint, now)), fingerprint, now)
  {
    DelayAtLeastFirst(p, syncPeriod, 1);
    ShortDelayFits(p, now, FirstDelay(Checked(p), syncPeriod));
    RecordedIsValidExactly(p, syncPeriod, None, fingerprint, now, now);
  }

  lemma AcceptableFits(p: RetryPolicy, syncPeriod: int)
    requires Acceptable(p)
    ensures Maximum(p) + SECOND >= WholeSecondUp(FirstDelay(p, syncPeriod))
  {
  }

  /**
    No failure is honoured at any instant if and only if even the first delay, rounded
    up, passes the maximum and a second, which takes a malformed policy.
   */
  lemma NeverHonouredExactly(p: RetryPolicy, syncPeriod: int, fingerprint: string)
    requires fingerprint != ""
    ensures var first := WholeSecondUp(FirstDelay(Checked(p), syncPeriod));
            && (Maximum(p) + SECOND < first
                <==> forall f, now, later ::
                       !ValidFailure(p, Some(Recorded(p, syncPeriod, f, fingerprint, now)), fingerprint, later))
            && (Maximum(p) + SECOND < first ==> !Acceptable(p))
  {
    forall f, now, later | Maximum(p) + SECOND < WholeSecondUp(FirstDelay(Checked(p), syncPeriod))
      ensures !ValidFailure(p, Some(Recorded(p, syncPeriod, f, fingerprint, now)), fingerprint, later)
    {
      FirstDelayTooLong(p, syncPeriod, f, fingerprint, now, later);
    }
    if Maximum(p) + SECOND >= WholeSecondUp(FirstDelay(Checked(p), syncPeriod)) {
      var now := SECOND;
      FirstDelayHonoured(p, syncPeriod, fingerprint, now);
    }
    if Acceptable(p) {
      AcceptableFits(p, syncPeriod);
    }
  }
}
