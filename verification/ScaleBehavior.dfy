/**
  Scaling behavior: stabilization windows, sliding-window rate limits and
  replica bounds applied to one target, after Kubernetes' configurable scaling
  velocity (KEP-853). Times are nanoseconds; counts are int32 values held in
  unbounded integers with the source's saturation written out.
 */
module ScaleBehavior {
  import opened Basics

  const MIN_INT32 := -0x8000_0000

  datatype Sample = Sample(time: Option<int>, replicas: int)

  datatype PolicyType = Pods | Percent
  datatype Policy = Policy(kind: PolicyType, value: int, periodSeconds: int)
  datatype Selection = Disabled | MinChange | MaxChange
  datatype Rules = Rules(select: Selection, policies: seq<Policy>, stabilizationSeconds: int)
  datatype Behavior = Behavior(scaleUp: Rules, scaleDown: Rules)

  datatype BehaviorResult = BehaviorResult(stabilized: int, rateLimited: int, desired: int)

  // ----- Windows over timestamped samples -----

  predicate Recent(sample: Sample, windowSeconds: int, now: int) {
    sample.time.Some? && sample.time.value > now - windowSeconds * SECOND
  }

  /** The samples inside the window, in order. */
  function Prune(samples: seq<Sample>, windowSeconds: int, now: int): (kept: seq<Sample>) {
    if |samples| == 0 then []
    else
      var last := samples[|samples| - 1];
      Prune(samples[..|samples| - 1], windowSeconds, now) + if Recent(last, windowSeconds, now) then [last] else []
  }

  /** Persisting keeps whole seconds only. */
  function Persist(events: seq<Sample>): (r: seq<Sample>)
    ensures |r| == |events|
  {
    if |events| == 0 then []
    else
      var last := events[|events| - 1];
      Persist(events[..|events| - 1])
      + [last.(time := if last.time.Some? then Some(WholeSecond(last.time.value)) else None)]
  }

  /** Exactly the recent samples survive. */
  lemma {:induction false} PruneSelects(samples: seq<Sample>, windowSeconds: int, now: int)
    ensures forall e :: e in Prune(samples, windowSeconds, now) <==> e in samples && Recent(e, windowSeconds, now)
  {
    if |samples| > 0 {
      var front, last := samples[..|samples| - 1], samples[|samples| - 1];
      assert samples == front + [last];
      PruneSelects(front, windowSeconds, now);
    }
  }

  method PruneTimestampedReplicasToWindow(samples: seq<Sample>, window: int, now: int) returns (kept: seq<Sample>)
    ensures kept == Prune(samples, window, now)
  {
    kept := [];
    var cutoff := now + (-window) * SECOND;
    for i := 0 to |samples|
      invariant kept == Prune(samples[..i], window, now)
    {
      if samples[i].time.Some? && samples[i].time.value > cutoff {
        kept := kept + [samples[i]];
      }
      assert samples[..i + 1][..i] == samples[..i];
    }
    assert samples[..|samples|] == samples;
  }

  /** Replicas changed by the events of the last period. */
  function Changes(events: seq<Sample>, periodSeconds: int, now: int): (total: int) {
    if |events| == 0 then 0
    else
      var last := events[|events| - 1];
      Changes(events[..|events| - 1], periodSeconds, now)
      + if Recent(last, periodSeconds, now) then last.replicas else 0
  }

  method GetReplicaChanges(events: seq<Sample>, periodSeconds: int, now: int) returns (total: int)
    ensures total == Changes(events, periodSeconds, now)
  {
    var cutoff := now - SECOND * periodSeconds;
    total := 0;
    for i := 0 to |events|
      invariant total == Changes(events[..i], periodSeconds, now)
    {
      if events[i].time.Some? && events[i].time.value > cutoff {
        total := total + events[i].replicas;
      }
      assert events[..i + 1][..i] == events[..i];
    }
    assert events[..|events|] == events;
  }

  /** Pruning to a window at least as long never hides a change of the shorter period. */
  lemma {:induction false} PruneKeepsChanges(events: seq<Sample>, windowSeconds: int, periodSeconds: int, earlier: int,
                                             now: int)
    requires periodSeconds <= windowSeconds && earlier <= now
    ensures Changes(Prune(events, windowSeconds, earlier), periodSeconds, now) == Changes(events, periodSeconds, now)
  {
    if |events| > 0 {
      var front, last := events[..|events| - 1], events[|events| - 1];
      PruneKeepsChanges(front, windowSeconds, periodSeconds, earlier, now);
      var kept := Prune(front, windowSeconds, earlier);
      if Recent(last, windowSeconds, earlier) {
        assert (kept + [last])[..|kept|] == kept;
      } else {
        assert kept + [] == kept;
      }
    }
  }

  method GetLongestPolicyPeriod(rules: Rules) returns (longest: int)
    ensures longest == LongestPeriod(rules.policies)
  {
    longest := 0;
    for i := 0 to |rules.policies|
      invariant longest == LongestPeriod(rules.policies[..i])
    {
      if rules.policies[i].periodSeconds > longest {
        longest := rules.policies[i].periodSeconds;
      }
      assert rules.policies[..i + 1][..i] == rules.policies[..i];
    }
    assert rules.policies[..|rules.policies|] == rules.policies;
  }

  function LongestPeriod(policies: seq<Policy>): (longest: int)
    ensures longest >= 0
    ensures forall p :: p in policies ==> p.periodSeconds <= longest
    ensures longest > 0 ==> exists p :: p in policies && p.periodSeconds == longest
  {
    if |policies| == 0 then 0
    else
      var front, last := policies[..|policies| - 1], policies[|policies| - 1];
      assert policies == front + [last];
      var rest := LongestPeriod(front);
      if last.periodSeconds > rest then assert last in policies; last.periodSeconds else rest
  }

  // ----- Rate limits -----

  function BoundedReplicas(value: int): (r: int)
    ensures 0 <= r <= MAX_INT32
    ensures 0 <= value <= MAX_INT32 ==> r == value
  {
    if value <= 0 then 0 else if value >= MAX_INT32 then MAX_INT32 else value
  }

  /** Replicas one period ago, as far as the event histories know. */
  function PeriodStart(current: int, up: seq<Sample>, down: seq<Sample>, periodSeconds: int, now: int): (start: int)
    ensures start >= 0
  {
    Max(0, current - Changes(up, periodSeconds, now) + Changes(down, periodSeconds, now))
  }

  /** The count one policy allows scaling up to; a percentage rounds up. */
  function UpProposal(policy: Policy, start: int): (r: int)
    ensures 0 <= r <= MAX_INT32
  {
    match policy.kind
    case Pods => BoundedReplicas(start + policy.value)
    case Percent => BoundedReplicas((start * (100 + policy.value) + 99) / 100)
  }

  /** The count one policy allows scaling down to; a percentage rounds down. */
  function DownProposal(policy: Policy, start: int): (r: int)
    ensures 0 <= r <= MAX_INT32
  {
    match policy.kind
    case Pods => BoundedReplicas(start - policy.value)
    case Percent => BoundedReplicas(start * (100 - policy.value) / 100)
  }

  function UpProposals(policies: seq<Policy>, current: int, up: seq<Sample>, down: seq<Sample>, now: int): (r: seq<int>)
    ensures |r| == |policies|
  {
    seq(|policies|, i requires 0 <= i < |policies| =>
      UpProposal(policies[i], PeriodStart(current, up, down, policies[i].periodSeconds, now)))
  }

  function DownProposals(policies: seq<Policy>, current: int, up: seq<Sample>, down: seq<Sample>,
                         now: int): (r: seq<int>)
    ensures |r| == |policies|
  {
    seq(|policies|, i requires 0 <= i < |policies| =>
      DownProposal(policies[i], PeriodStart(current, up, down, policies[i].periodSeconds, now)))
  }

  ghost predicate IsMaximum(r: int, values: seq<int>, whenEmpty: int) {
    && (forall i :: 0 <= i < |values| ==> values[i] <= r)
    && (if |values| == 0 then r == whenEmpty else r in values)
  }

  ghost predicate IsMinimum(r: int, values: seq<int>, whenEmpty: int) {
    && (forall i :: 0 <= i < |values| ==> r <= values[i])
    && (if |values| == 0 then r == whenEmpty else r in values)
  }

  function Highest(values: seq<int>, whenEmpty: int): (r: int)
    ensures (forall i :: 0 <= i < |values| ==> whenEmpty <= values[i]) ==> IsMaximum(r, values, whenEmpty)
  {
    if |values| == 0 then whenEmpty
    else
      var front, last := values[..|values| - 1], values[|values| - 1];
      assert values == front + [last];
      Max(Highest(front, whenEmpty), last)
  }

  function Lowest(values: seq<int>, whenEmpty: int): (r: int)
    ensures (forall i :: 0 <= i < |values| ==> values[i] <= whenEmpty) ==> IsMinimum(r, values, whenEmpty)
  {
    if |values| == 0 then whenEmpty
    else
      var front, last := values[..|values| - 1], values[|values| - 1];
      assert values == front + [last];
      Min(Lowest(front, whenEmpty), last)
  }

  /** The selected scale-up limit: the largest change allowed, or the smallest under MinChange. */
  function UpLimit(rules: Rules, current: int, up: seq<Sample>, down: seq<Sample>, now: int): (limit: int) {
    var proposals := UpProposals(rules.policies, current, up, down, now);
    match rules.select
    case Disabled => current
    case MinChange => Lowest(proposals, MAX_INT32)
    case MaxChange => Highest(proposals, MIN_INT32)
  }

  function DownLimit(rules: Rules, current: int, up: seq<Sample>, down: seq<Sample>, now: int): (limit: int) {
    var proposals := DownProposals(rules.policies, current, up, down, now);
    match rules.select
    case Disabled => current
    case MinChange => Highest(proposals, MIN_INT32)
    case MaxChange => Lowest(proposals, MAX_INT32)
  }

  lemma LowestNext(values: seq<int>, i: nat, whenEmpty: int)
    requires i < |values|
    ensures Lowest(values[..i + 1], whenEmpty) == Min(Lowest(values[..i], whenEmpty), values[i])
  {
    assert values[..i + 1][..i] == values[..i];
  }

  lemma HighestNext(values: seq<int>, i: nat, whenEmpty: int)
    requires i < |values|
    ensures Highest(values[..i + 1], whenEmpty) == Max(Highest(values[..i], whenEmpty), values[i])
  {
    assert values[..i + 1][..i] == values[..i];
  }

  method ComputePeriodStart(current: int, up: seq<Sample>, down: seq<Sample>, period: int, now: int)
    returns (start: int)
    ensures start == PeriodStart(current, up, down, period, now)
  {
    var added := GetReplicaChanges(up, period, now);
    var deleted := GetReplicaChanges(down, period, now);
    return Max(0, current - added + deleted);
  }

  method CalculateScaleUpLimit(current: int, up: seq<Sample>, down: seq<Sample>, rules: Rules, now: int)
    returns (result: int)
    ensures result == UpLimit(rules, current, up, down, now)
  {
    if rules.select.Disabled? {
      return current;
    }
    result := if rules.select.MinChange? then MAX_INT32 else MIN_INT32;
    ghost var all := UpProposals(rules.policies, current, up, down, now);
    for i := 0 to |rules.policies|
      invariant result == if rules.select.MinChange? then Lowest(all[..i], MAX_INT32) else Highest(all[..i], MIN_INT32)
    {
      var policy := rules.policies[i];
      var periodStart := ComputePeriodStart(current, up, down, policy.periodSeconds, now);
      var proposed := UpProposal(policy, periodStart);
      assert all[i] == proposed;
      LowestNext(all, i, MAX_INT32);
      HighestNext(all, i, MIN_INT32);
      result := if rules.select.MinChange? then Min(result, proposed) else Max(result, proposed);
    }
    assert all[..|all|] == all;
  }

  method CalculateScaleDownLimit(current: int, up: seq<Sample>, down: seq<Sample>, rules: Rules, now: int)
    returns (result: int)
    ensures result == DownLimit(rules, current, up, down, now)
  {
    if rules.select.Disabled? {
      return current;
    }
    result := if rules.select.MinChange? then MIN_INT32 else MAX_INT32;
    ghost var all := DownProposals(rules.policies, current, up, down, now);
    for i := 0 to |rules.policies|
      invariant result == if rules.select.MinChange? then Highest(all[..i], MIN_INT32) else Lowest(all[..i], MAX_INT32)
    {
      var policy := rules.policies[i];
      var periodStart := ComputePeriodStart(current, up, down, policy.periodSeconds, now);
      var proposed := DownProposal(policy, periodStart);
      assert all[i] == proposed;
      LowestNext(all, i, MAX_INT32);
      HighestNext(all, i, MIN_INT32);
      result := if rules.select.MinChange? then Max(result, proposed) else Min(result, proposed);
    }
    assert all[..|all|] == all;
  }

  /** The rate limit moves a target toward the current count, never across it. */
  function RateLimited(behavior: Behavior, current: int, target: int, up: seq<Sample>, down: seq<Sample>,
                       now: int): (r: int)
    ensures current <= target ==> current <= r <= target
    ensures target <= current ==> target <= r <= current
    ensures current < target ==> r == Min(target, Max(current, UpLimit(behavior.scaleUp, current, up, down, now)))
    ensures target < current ==> r == Max(target, Min(current, DownLimit(behavior.scaleDown, current, up, down, now)))
  {
    if target > current then
      var limit := UpLimit(behavior.scaleUp, current, up, down, now);
      var limit := if limit < current then current else limit;
      if target > limit then limit else target
    else if target < current then
      var limit := DownLimit(behavior.scaleDown, current, up, down, now);
      var limit := if limit > current then current else limit;
      if target < limit then limit else target
    else target
  }

  method DecideByRate(behavior: Behavior, current: int, target: int, up: seq<Sample>, down: seq<Sample>, now: int)
    returns (r: int)
    ensures r == RateLimited(behavior, current, target, up, down, now)
  {
    if target > current {
      var limit := CalculateScaleUpLimit(current, up, down, behavior.scaleUp, now);
      if limit < current {
        limit := current;
      }
      if target > limit {
        return limit;
      }
    } else if target < current {
      var limit := CalculateScaleDownLimit(current, up, down, behavior.scaleDown, now);
      if limit > current {
        limit := current;
      }
      if target < limit {
        return limit;
      }
    }
    return target;
  }

  // ----- Stabilization -----

  function LowestRecommendation(target: int, samples: seq<Sample>): (r: int)
    ensures r <= target
    ensures forall i :: 0 <= i < |samples| ==> r <= samples[i].replicas
    ensures r == target || exists i :: 0 <= i < |samples| && samples[i].replicas == r
  {
    if |samples| == 0 then target
    else
      Min(LowestRecommendation(target, samples[..|samples| - 1]), samples[|samples| - 1].replicas)
  }

  function HighestRecommendation(target: int, samples: seq<Sample>): (r: int)
    ensures r >= target
    ensures forall i :: 0 <= i < |samples| ==> r >= samples[i].replicas
    ensures r == target || exists i :: 0 <= i < |samples| && samples[i].replicas == r
  {
    if |samples| == 0 then target
    else
      Max(HighestRecommendation(target, samples[..|samples| - 1]), samples[|samples| - 1].replicas)
  }

  /** The current count, moved only as far as both recommendation windows agree. */
  function Stabilized(current: int, target: int, ups: seq<Sample>, downs: seq<Sample>): (r: int) {
    Min(Max(current, LowestRecommendation(target, ups)), HighestRecommendation(target, downs))
  }

  function Clamped(value: int, minReplicas: int, maxReplicas: int): (r: int) {
    Min(Max(value, minReplicas), maxReplicas)
  }

  function Decide(behavior: Behavior, current: int, target: int, minReplicas: int, maxReplicas: int,
                  ups: seq<Sample>, downs: seq<Sample>, upEvents: seq<Sample>, downEvents: seq<Sample>,
                  now: int): BehaviorResult
  {
    var stabilized := Stabilized(current, target, ups, downs);
    var rateLimited := RateLimited(behavior, current, stabilized, upEvents, downEvents, now);
    BehaviorResult(stabilized, rateLimited, Clamped(rateLimited, minReplicas, maxReplicas))
  }

  method DecideTargetReplicasByBehaviorDetails(behavior: Behavior, current: int, target: int, minReplicas: int,
      maxReplicas: int, ups: seq<Sample>, downs: seq<Sample>, upEvents: seq<Sample>, downEvents: seq<Sample>, now: int)
    returns (r: BehaviorResult)
    ensures r == Decide(behavior, current, target, minReplicas, maxReplicas, ups, downs, upEvents, downEvents, now)
  {
    var upscaleMin := target;
    for i := 0 to |ups|
      invariant upscaleMin == LowestRecommendation(target, ups[..i])
    {
      if ups[i].replicas < upscaleMin {
        upscaleMin := ups[i].replicas;
      }
      assert ups[..i + 1][..i] == ups[..i];
    }
    assert ups[..|ups|] == ups;

    var downscaleMax := target;
    for i := 0 to |downs|
      invariant downscaleMax == HighestRecommendation(target, downs[..i])
    {
      if downs[i].replicas > downscaleMax {
        downscaleMax := downs[i].replicas;
      }
      assert downs[..i + 1][..i] == downs[..i];
    }
    assert downs[..|downs|] == downs;

    var stabilized := current;
    if stabilized < upscaleMin {
      stabilized := upscaleMin;
    }
    if stabilized > downscaleMax {
      stabilized := downscaleMax;
    }
    var limited := DecideByRate(behavior, current, stabilized, upEvents, downEvents, now);
    var desired := limited;
    if desired < minReplicas {
      desired := minReplicas;
    }
    if desired > maxReplicas {
      desired := maxReplicas;
    }
    r := BehaviorResult(stabilized, limited, desired);
  }

  // ----- What the whole chain keeps -----

  lemma {:induction false} RecommendationsMonotone(low: int, high: int, samples: seq<Sample>, samples': seq<Sample>)
    requires low <= high && |samples| == |samples'|
    requires forall i :: 0 <= i < |samples| ==> samples[i].replicas <= samples'[i].replicas
    ensures LowestRecommendation(low, samples) <= LowestRecommendation(high, samples')
    ensures HighestRecommendation(low, samples) <= HighestRecommendation(high, samples')
  {
    if |samples| > 0 {
      RecommendationsMonotone(low, high, samples[..|samples| - 1], samples'[..|samples'| - 1]);
    }
  }

  lemma RateLimitMonotone(behavior: Behavior, current: int, low: int, high: int, up: seq<Sample>, down: seq<Sample>,
                          now: int)
    requires low <= high
    ensures RateLimited(behavior, current, low, up, down, now) <= RateLimited(behavior, current, high, up, down, now)
  {
  }

  /** A larger target, recorded in both windows, never leads to fewer replicas. */
  lemma DecideMonotone(behavior: Behavior, current: int, low: int, high: int, minReplicas: int, maxReplicas: int,
                       ups: seq<Sample>, downs: seq<Sample>, upEvents: seq<Sample>, downEvents: seq<Sample>, now: int)
    requires low <= high
    ensures Decide(behavior, current, low, minReplicas, maxReplicas, ups + [Sample(Some(now), low)],
                   downs + [Sample(Some(now), low)], upEvents, downEvents, now).desired
         <= Decide(behavior, current, high, minReplicas, maxReplicas, ups + [Sample(Some(now), high)],
                   downs + [Sample(Some(now), high)], upEvents, downEvents, now).desired
  {
    var a, b := Sample(Some(now), low), Sample(Some(now), high);
    RecommendationsMonotone(low, high, ups + [a], ups + [b]);
    RecommendationsMonotone(low, high, downs + [a], downs + [b]);
    RateLimitMonotone(behavior, current,
      Stabilized(current, low, ups + [a], downs + [a]), Stabilized(current, high, ups + [b], downs + [b]),
      upEvents, downEvents, now);
  }

  /** A target at or above the current count is never turned into a scale-down, except by the maximum. */
  lemma NoScaleDownAgainstTarget(behavior: Behavior, current: int, target: int, minReplicas: int, maxReplicas: int,
      ups: seq<Sample>, downs: seq<Sample>, upEvents: seq<Sample>, downEvents: seq<Sample>, now: int)
    requires target >= current
    ensures Decide(behavior, current, target, minReplicas, maxReplicas, ups, downs, upEvents, downEvents, now).desired
         >= Min(current, maxReplicas)
  {
  }
}
