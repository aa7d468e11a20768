/** Sampling slots at whole-second persistence, and the delay to the next distinct one. */
module Slots {
  import opened Basics

  function Truncate(t: int, d: int): int
    requires d > 0
  {
    t - t % d
  }

  function SamplingSlot(now: int, period: int): int
    requires period > 0
  {
    Truncate(Truncate(now, period), SECOND)
  }

  method NextSamplingDelay(now: int, period: int) returns (delay: int)
    requires period > 0
    ensures delay == Next(now, period) - now
  {
    var next := Truncate(now, period) + period;
    var earliest := SamplingSlot(now, period) + SECOND;
    if next < earliest {
      next := Truncate(earliest, period);
      if next < earliest {
        next := next + period;
      }
    }
    return next - now;
  }

  /** The least multiple of the period that is at or after t. */
  function RoundUp(t: int, period: int): int
    requires period > 0
  {
    if Truncate(t, period) < t then Truncate(t, period) + period else Truncate(t, period)
  }

  function Next(now: int, period: int): int
    requires period > 0
  {
    var next, earliest := Truncate(now, period) + period, SamplingSlot(now, period) + SECOND;
    if next < earliest then RoundUp(earliest, period) else next
  }

  lemma TruncateBounds(t: int, d: int)
    requires d > 0
    ensures Truncate(t, d) == d * (t / d) && Truncate(t, d) <= t < Truncate(t, d) + d
  {
  }

  lemma TruncateMonotone(t: int, u: int, d: int)
    requires d > 0 && t <= u
    ensures Truncate(t, d) <= Truncate(u, d)
  {
    TruncateBounds(t, d);
    TruncateBounds(u, d);
    if t / d > u / d {
      MulLess(d, u / d, t / d);
    }
  }

  lemma MulLess(d: int, a: int, b: int)
    requires d > 0 && a < b
    ensures d * a + d <= d * b
  {
    var k := b - a - 1;
    assert d * k >= 0;
    assert d * k == d * b - d * a - d;
  }

  /** Truncation lands on multiples and leaves multiples alone. */
  lemma TruncateMultiple(k: int, d: int)
    requires d > 0
    ensures Truncate(d * k, d) == d * k
  {
    TruncateBounds(d * k, d);
    var q := d * k / d;
    if q < k {
      MulLess(d, q, k);
    } else if q > k {
      MulLess(d, k, q);
    }
  }

  lemma SameTruncation(t: int, u: int, d: int)
    requires d > 0 && Truncate(t, d) <= u < Truncate(t, d) + d
    ensures Truncate(u, d) == Truncate(t, d)
  {
    TruncateBounds(t, d);
    TruncateBounds(u, d);
    if t / d < u / d {
      MulLess(d, t / d, u / d);
    } else if t / d > u / d {
      MulLess(d, u / d, t / d);
    }
  }

  lemma RoundUpIsMultiple(t: int, period: int)
    requires period > 0
    ensures RoundUp(t, period) >= t && Truncate(RoundUp(t, period), period) == RoundUp(t, period)
  {
    TruncateBounds(t, period);
    var q := t / period;
    TruncateMultiple(q, period);
    TruncateMultiple(q + 1, period);
    assert period * (q + 1) == period * q + period;
  }

  /** Every earlier instant truncates to before t. */
  lemma RoundUpIsLeast(t: int, period: int, u: int)
    requires period > 0 && u < RoundUp(t, period)
    ensures Truncate(u, period) < t
  {
    TruncateBounds(t, period);
    TruncateBounds(u, period);
    if Truncate(t, period) < t && Truncate(u, period) > Truncate(t, period) {
      TruncatesApart(t, u, period);
    }
  }

  lemma TruncatesApart(t: int, u: int, d: int)
    requires d > 0 && Truncate(t, d) < Truncate(u, d)
    ensures Truncate(t, d) + d <= Truncate(u, d)
  {
    TruncateBounds(t, d);
    TruncateBounds(u, d);
    if t / d < u / d {
      MulLess(d, t / d, u / d);
    } else if u / d < t / d {
      MulLess(d, u / d, t / d);
    }
  }

  /** Every instant before the next one is in the current slot. */
  lemma SlotUnchangedBefore(now: int, period: int, t: int)
    requires period > 0 && now <= t < Next(now, period)
    ensures SamplingSlot(t, period) == SamplingSlot(now, period)
  {
    TruncateBounds(now, period);
    TruncateBounds(Truncate(now, period), SECOND);
    TruncateMonotone(now, t, period);
    var earliest := SamplingSlot(now, period) + SECOND;
    if Truncate(now, period) + period < earliest {
      RoundUpIsLeast(earliest, period, t);
      SameTruncation(Truncate(now, period), Truncate(t, period), SECOND);
    } else {
      SameTruncation(now, t, period);
    }
  }

  /** The scheduled instant is later and in another slot. */
  lemma SlotChangesAtNext(now: int, period: int)
    requires period > 0
    ensures Next(now, period) > now && SamplingSlot(Next(now, period), period) > SamplingSlot(now, period)
  {
    TruncateBounds(now, period);
    TruncateBounds(Truncate(now, period), SECOND);
    var next, earliest := Next(now, period), SamplingSlot(now, period) + SECOND;
    if Truncate(now, period) + period < earliest {
      RoundUpIsMultiple(earliest, period);
    } else {
      TruncateMultiple(now / period + 1, period);
      assert next == period * (now / period + 1);
    }
    TruncateBounds(Truncate(now, period), SECOND);
    TruncateMultiple(Truncate(now, period) / SECOND + 1, SECOND);
    TruncateMonotone(earliest, next, SECOND);
  }

  /** The next sampling instant is exactly the first later one whose persisted slot differs. */
  lemma NextIsFirstOtherSlot(now: int, period: int, t: int)
    requires period > 0
    ensures t == Next(now, period)
       <==> && t > now && SamplingSlot(t, period) != SamplingSlot(now, period)
            && forall u :: now < u < t ==> SamplingSlot(u, period) == SamplingSlot(now, period)
  {
    SlotChangesAtNext(now, period);
    forall u | now <= u < Next(now, period) ensures SamplingSlot(u, period) == SamplingSlot(now, period) {
      SlotUnchangedBefore(now, period, u);
    }
  }
}
