/**
  Planning one replica decision: candidate selection, the incomplete-metrics
  guard, stabilization, rate limits and bounds, and the control, baseline and
  assist counterfactuals computed from one history.
 */
module Decision {
  import opened Basics
  import opened Sorting
  import opened ScaleBehavior

  // ----- Strategy -----

  datatype Strategy = Maximum | Minimum | Mean | Median | Unknown

  function Total(values: seq<int>): (total: int) {
    if |values| == 0 then 0 else Total(values[..|values| - 1]) + values[|values| - 1]
  }

  /** Round half away from zero of a nonnegative quotient. */
  function RoundedMean(total: int, count: nat): (r: int)
    requires count > 0 && total >= 0
    ensures count * (2 * r - 1) <= 2 * total < count * (2 * r + 1)
  {
    (2 * total + count) / (2 * count)
  }

  predicate AllNonnegative(values: seq<int>) {
    forall i :: 0 <= i < |values| ==> values[i] >= 0
  }

  lemma {:induction false} TotalNonnegative(values: seq<int>)
    requires AllNonnegative(values)
    ensures Total(values) >= 0
  {
    if |values| > 0 {
      TotalNonnegative(values[..|values| - 1]);
    }
  }

  /** The count a strategy selects from nonnegative candidates. */
  function Select(strategy: Strategy, candidates: seq<int>): (r: int)
    requires |candidates| > 0 && AllNonnegative(candidates) && !strategy.Unknown?
  {
    match strategy
    case Maximum => Highest(candidates, 0)
    case Minimum => Sorted(candidates)[0]
    case Mean =>
      TotalNonnegative(candidates);
      RoundedMean(Total(candidates), |candidates|)
    case Median => MiddleOf(Sorted(candidates))
  }

  /** The middle of a sorted list, or the truncated mean of its two middle values. */
  function MiddleOf(sorted: seq<int>): int
    requires |sorted| > 0
  {
    var half := |sorted| / 2;
    if |sorted| % 2 == 0 then (sorted[half - 1] + sorted[half]) / 2 else sorted[half]
  }

  method MaximumOf(values: seq<int>) returns (max: int)
    requires |values| > 0
    ensures max in values && forall k :: 0 <= k < |values| ==> values[k] <= max
  {
    max := 0;
    for i := 0 to |values|
      invariant i > 0 ==> max in values && forall k :: 0 <= k < i ==> values[k] <= max
    {
      if i == 0 || values[i] > max {
        max := values[i];
      }
    }
  }

  method MinimumOf(values: seq<int>) returns (min: int)
    requires |values| > 0
    ensures min in values && forall k :: 0 <= k < |values| ==> min <= values[k]
  {
    min := 0;
    for i := 0 to |values|
      invariant i > 0 ==> min in values && forall k :: 0 <= k < i ==> min <= values[k]
    {
      if i == 0 || values[i] < min {
        min := values[i];
      }
    }
  }

  method TotalOf(values: seq<int>) returns (total: int)
    ensures total == Total(values)
  {
    total := 0;
    for i := 0 to |values|
      invariant total == Total(values[..i])
    {
      total := total + values[i];
      assert values[..i + 1][..i] == values[..i];
    }
    assert values[..|values|] == values;
  }

  method HasNegative(values: seq<int>) returns (found: bool)
    ensures found <==> !AllNonnegative(values)
  {
    for i := 0 to |values|
      invariant forall k :: 0 <= k < i ==> values[k] >= 0
    {
      if values[i] < 0 {
        return true;
      }
    }
    return false;
  }

  /** The source's loops over the sorted copy; the error cases are explicit. */
  method DecideTargetReplicasByScalingStrategy(strategy: Strategy, predicted: seq<int>) returns (r: Result<int>)
    ensures r.Ok? <==> |predicted| > 0 && AllNonnegative(predicted) && !strategy.Unknown?
    ensures r.Ok? ==> r.value == Select(strategy, predicted)
  {
    if |predicted| == 0 {
      return Err;
    }
    var negative := HasNegative(predicted);
    if negative {
      return Err;
    }
    var values := Sorted(predicted);
    match strategy {
      case Unknown =>
        return Err;
      case Maximum =>
        var max := MaximumOf(values);
        SelectsMaximum(predicted, max);
        return Ok(max);
      case Minimum =>
        var min := MinimumOf(values);
        SelectsMinimum(predicted, min);
        return Ok(min);
      case Mean =>
        var mean := MeanOf(predicted, values);
        return Ok(mean);
      case Median =>
        var median := MedianOf(values);
        return Ok(median);
    }
  }

  method MeanOf(predicted: seq<int>, values: seq<int>) returns (mean: int)
    requires |predicted| > 0 && AllNonnegative(predicted) && values == Sorted(predicted)
    ensures mean == Select(Mean, predicted)
  {
    var total := TotalOf(values);
    SortedElements(predicted);
    TotalOfPermutation(values, predicted);
    TotalNonnegative(predicted);
    if total <= 0 {
      ZeroMean(|values|);
      return 0;
    }
    return RoundedMean(total, |values|);
  }

  lemma ZeroMean(count: nat)
    requires count > 0
    ensures RoundedMean(0, count) == 0
  {
  }

  method MedianOf(values: seq<int>) returns (median: int)
    requires |values| > 0
    ensures median == MiddleOf(values)
  {
    var half := |values| / 2;
    if |values| % 2 == 0 {
      return (values[half - 1] + values[half]) / 2;
    }
    return values[half];
  }

  lemma SelectsMaximum(predicted: seq<int>, max: int)
    requires |predicted| > 0 && AllNonnegative(predicted)
    requires max in Sorted(predicted) && forall k :: 0 <= k < |predicted| ==> Sorted(predicted)[k] <= max
    ensures max == Highest(predicted, 0)
  {
    SortedMembers(predicted);
    var top := Highest(predicted, 0);
    assert top in predicted && max in predicted;
  }

  lemma SelectsMinimum(predicted: seq<int>, min: int)
    requires |predicted| > 0 && AllNonnegative(predicted)
    requires min in Sorted(predicted) && forall k :: 0 <= k < |predicted| ==> min <= Sorted(predicted)[k]
    ensures min == Sorted(predicted)[0]
  {
    SortedIsSorted(predicted);
  }

  lemma {:induction false} TotalWithout(values: seq<int>, i: nat)
    requires i < |values|
    ensures Total(values) == Total(values[..i] + values[i + 1..]) + values[i]
    decreases |values|
  {
    var n := |values| - 1;
    if i == n {
      assert values[..i] + values[i + 1..] == values[..n];
    } else {
      var front := values[..n];
      TotalWithout(front, i);
      var rest := values[..i] + values[i + 1..];
      assert rest[..|rest| - 1] == front[..i] + front[i + 1..];
    }
  }

  lemma WithoutLast(a: seq<int>)
    requires |a| > 0
    ensures multiset(a[..|a| - 1]) == multiset(a) - multiset{a[|a| - 1]}
  {
    assert a == a[..|a| - 1] + [a[|a| - 1]];
  }

  lemma WithoutAt(b: seq<int>, i: nat)
    requires i < |b|
    ensures multiset(b[..i] + b[i + 1..]) == multiset(b) - multiset{b[i]}
  {
    assert b == b[..i] + [b[i]] + b[i + 1..];
  }

  /** An element of one permutation stands somewhere in the other. */
  lemma PlaceOf(a: seq<int>, b: seq<int>) returns (i: nat)
    requires multiset(a) == multiset(b) && |a| > 0
    ensures i < |b| && b[i] == a[|a| - 1]
  {
    assert a[|a| - 1] in multiset(b);
    i :| i < |b| && b[i] == a[|a| - 1];
  }

  lemma {:induction false} TotalOfPermutation(a: seq<int>, b: seq<int>)
    requires multiset(a) == multiset(b)
    ensures Total(a) == Total(b) && |a| == |b|
    decreases |a|
  {
    if |a| == 0 {
      assert b == [] by {
        assert |b| == |multiset(b)| == |multiset(a)|;
      }
    } else {
      var i := PlaceOf(a, b);
      TotalWithout(b, i);
      WithoutLast(a);
      WithoutAt(b, i);
      TotalOfPermutation(a[..|a| - 1], b[..i] + b[i + 1..]);
    }
  }

  /** Every strategy selects within the range of its candidates. */
  lemma SelectWithinRange(strategy: Strategy, candidates: seq<int>, low: int, high: int)
    requires |candidates| > 0 && AllNonnegative(candidates) && !strategy.Unknown?
    requires forall i :: 0 <= i < |candidates| ==> low <= candidates[i] <= high
    ensures low <= Select(strategy, candidates) <= high
  {
    var sorted := Sorted(candidates);
    forall i | 0 <= i < |sorted| ensures low <= sorted[i] <= high {
      SortedMember(candidates, i);
    }
    if strategy.Mean? {
      TotalNonnegative(candidates);
      TotalBounds(candidates, low, high);
      MeanBounds(Total(candidates), |candidates|, low, high);
    }
  }

  lemma {:induction false} TotalBounds(values: seq<int>, low: int, high: int)
    requires forall i :: 0 <= i < |values| ==> low <= values[i] <= high
    ensures |values| * low <= Total(values) <= |values| * high
  {
    if |values| > 0 {
      var n := |values| - 1;
      TotalBounds(values[..n], low, high);
      assert (n + 1) * low == n * low + low && (n + 1) * high == n * high + high;
    }
  }

  lemma FactorOrder(count: nat, a: int, b: int)
    requires count * a < count * b
    ensures a < b
  {
    if a >= b {
      MulMonotone(count, b, a);
    }
  }

  lemma OddMultiple(count: nat, x: int)
    ensures count * (2 * x + 1) == 2 * (count * x) + count && count * (2 * x - 1) == 2 * (count * x) - count
  {
  }

  lemma MeanBounds(total: int, count: nat, low: int, high: int)
    requires count > 0 && total >= 0 && count * low <= total <= count * high
    ensures low <= RoundedMean(total, count) <= high
  {
    var r := RoundedMean(total, count);
    OddMultiple(count, low);
    OddMultiple(count, high);
    FactorOrder(count, 2 * low - 1, 2 * r + 1);
    FactorOrder(count, 2 * r - 1, 2 * high + 1);
  }

  lemma {:induction false} TotalMonotone(a: seq<int>, b: seq<int>)
    requires Below(a, b)
    ensures Total(a) <= Total(b)
  {
    if |a| > 0 {
      TotalMonotone(a[..|a| - 1], b[..|b| - 1]);
    }
  }

  lemma MeanMonotone(low: int, high: int, count: nat)
    requires count > 0 && 0 <= low <= high
    ensures RoundedMean(low, count) <= RoundedMean(high, count)
  {
    FactorOrder(count, 2 * RoundedMean(low, count) - 1, 2 * RoundedMean(high, count) + 1);
  }

  lemma HighestMonotone(a: seq<int>, b: seq<int>)
    requires |a| > 0 && Below(a, b) && AllNonnegative(a)
    ensures Highest(a, 0) <= Highest(b, 0)
  {
    assert AllNonnegative(b);
    var top := Highest(a, 0);
    var i :| 0 <= i < |a| && a[i] == top;
    assert b[i] <= Highest(b, 0);
  }

  /** Raising candidates never lowers the selection. */
  lemma SelectMonotone(strategy: Strategy, a: seq<int>, b: seq<int>)
    requires |a| > 0 && Below(a, b) && AllNonnegative(a) && AllNonnegative(b) && !strategy.Unknown?
    ensures Select(strategy, a) <= Select(strategy, b)
  {
    match strategy {
      case Mean =>
        TotalMonotone(a, b);
        TotalNonnegative(a);
        MeanMonotone(Total(a), Total(b), |a|);
      case Maximum => HighestMonotone(a, b);
      case Minimum => SortedMonotone(a, b);
      case Median => SortedMonotone(a, b);
    }
  }

  // ----- Inputs and results -----

  datatype Mode = Observe | Assist | Control | Invalid

  /** Behavior defaults are already filled in; holdFailure folds the failure policy and request demand. */
  datatype Input = Input(
    mode: Mode,
    strategy: Strategy,
    behavior: Behavior,
    minReplicas: int,
    maxReplicas: int,
    includeBaseline: bool,
    holdFailure: bool,
    now: int,
    requested: int,
    baseline: int,
    predictions: seq<int>,
    metricsIncomplete: bool,
    upRecommendations: seq<Sample>,
    downRecommendations: seq<Sample>,
    upEvents: seq<Sample>,
    downEvents: seq<Sample>)

  datatype Plan = Plan(
    mode: string,
    baselineIncluded: bool,
    metricsHeld: bool,
    constraints: seq<string>,
    selected: int,
    guarded: int,
    desired: int,
    upRecommendations: seq<Sample>,
    downRecommendations: seq<Sample>)

  datatype Rollout = Rollout(plan: Plan, baselineDesired: int, controlDesired: int)

  // ----- Meaning of one plan -----

  predicate ValidInput(input: Input) {
    && input.now != 0 && input.requested >= 0 && input.baseline >= 0
    && 0 <= input.minReplicas <= input.maxReplicas
  }

  predicate IncludesBaseline(input: Input) {
    if |input.predictions| == 0 then !input.holdFailure else input.includeBaseline
  }

  function Candidates(input: Input): (c: seq<int>)
    ensures |c| > 0
  {
    input.predictions
    + (if |input.predictions| == 0 && input.holdFailure then [input.requested] else [])
    + (if IncludesBaseline(input) then [input.baseline] else [])
  }

  predicate Plannable(input: Input) {
    ValidInput(input) && AllNonnegative(Candidates(input)) && !input.strategy.Unknown?
  }

  function Selected(input: Input, assist: bool): int
    requires Plannable(input)
  {
    var selected := Select(input.strategy, Candidates(input));
    if assist then Max(selected, input.baseline) else selected
  }

  /** What the plan was made from: predictions, with or without the baseline, a held count or the baseline alone. */
  function Basis(input: Input, assist: bool): string {
    if |input.predictions| > 0 then if assist || input.includeBaseline then "mixed" else "predictive"
    else if input.holdFailure then "hold" else "baseline"
  }

  /** Reasons the selection itself gives. */
  function SelectionReasons(input: Input, assist: bool): seq<string>
    requires Plannable(input)
  {
    (if |input.predictions| == 0 && input.holdFailure then ["prediction_unavailable_hold"] else [])
    + (if assist && Select(input.strategy, Candidates(input)) < input.baseline then ["assist_baseline"] else [])
  }

  function Guarded(input: Input, selected: int): int {
    if input.metricsIncomplete then Max(selected, input.requested) else selected
  }

  /** Stabilization, rate limit and bounds of one guarded count. */
  function Behave(input: Input, guarded: int): BehaviorResult {
    var row := Sample(Some(input.now), guarded);
    Decide(input.behavior, input.requested, guarded, input.minReplicas, input.maxReplicas,
           Prune(input.upRecommendations, input.behavior.scaleUp.stabilizationSeconds, input.now) + [row],
           Prune(input.downRecommendations, input.behavior.scaleDown.stabilizationSeconds, input.now) + [row],
           Prune(input.upEvents, LongestPeriod(input.behavior.scaleUp.policies), input.now),
           Prune(input.downEvents, LongestPeriod(input.behavior.scaleDown.policies), input.now), input.now)
  }

  function Desired(input: Input, assist: bool): int
    requires Plannable(input)
  {
    Behave(input, Guarded(input, Selected(input, assist))).desired
  }

  // ----- Planning, as the source does it -----

  /** Candidate selection and the incomplete-metrics guard. */
  method Choose(input: Input, assist: bool) returns (r: Result<Plan>)
    requires ValidInput(input)
    ensures r.Ok? <==> Plannable(input)
    ensures r.Ok? ==>
      && r.value.selected == Selected(input, assist)
      && r.value.guarded == Guarded(input, r.value.selected)
      && (r.value.metricsHeld <==> input.metricsIncomplete && r.value.selected < input.requested)
      && (r.value.baselineIncluded <==> assist || IncludesBaseline(input))
      && r.value.mode == Basis(input, assist) && r.value.constraints == SelectionReasons(input, assist)
  {
    var plan, candidates := Gather(input);
    var choice := DecideTargetReplicasByScalingStrategy(input.strategy, candidates);
    if choice.Err? {
      return Err;
    }
    var selected := choice.value;
    if assist {
      plan := plan.(baselineIncluded := true, mode := if |input.predictions| > 0 then "mixed" else plan.mode);
      if selected < input.baseline {
        selected := input.baseline;
        plan := plan.(constraints := plan.constraints + ["assist_baseline"]);
      }
    }
    plan := plan.(selected := selected, guarded := selected);
    if input.metricsIncomplete && selected < input.requested {
      plan := plan.(metricsHeld := true, guarded := input.requested);
    }
    return Ok(plan);
  }

  /** The candidates, and the plan before one is selected. */
  method Gather(input: Input) returns (plan: Plan, candidates: seq<int>)
    ensures candidates == Candidates(input)
    ensures plan == Plan(Basis(input, false), IncludesBaseline(input), false,
                         if Basis(input, false) == "hold" then ["prediction_unavailable_hold"] else [],
                         0, 0, 0, [], [])
  {
    plan := Plan("baseline",
      (|input.predictions| == 0 && !input.holdFailure) || (|input.predictions| > 0 && input.includeBaseline),
      false, [], 0, 0, 0, [], []);
    candidates := input.predictions;
    if |candidates| == 0 && input.holdFailure {
      candidates := candidates + [input.requested];
      plan := plan.(mode := "hold", constraints := plan.constraints + ["prediction_unavailable_hold"]);
    }
    if |input.predictions| > 0 {
      plan := plan.(mode := if plan.baselineIncluded then "mixed" else "predictive");
    }
    if plan.baselineIncluded {
      candidates := candidates + [input.baseline];
    }
  }

  /** Stabilization, rate limits, bounds and the reasons for them. */
  method Apply(input: Input, chosen: Plan) returns (plan: Plan)
    ensures plan.desired == Behave(input, chosen.guarded).desired
    ensures plan.upRecommendations
         == Prune(input.upRecommendations, input.behavior.scaleUp.stabilizationSeconds, input.now)
                                      + [Sample(Some(input.now), chosen.guarded)]
    ensures plan.downRecommendations
         == Prune(input.downRecommendations, input.behavior.scaleDown.stabilizationSeconds, input.now)
                                        + [Sample(Some(input.now), chosen.guarded)]
    ensures plan.constraints == chosen.constraints + Reasons(input, chosen, Behave(input, chosen.guarded))
    ensures plan == chosen.(desired := plan.desired, upRecommendations := plan.upRecommendations,
                            downRecommendations := plan.downRecommendations, constraints := plan.constraints)
  {
    var longestUp := GetLongestPolicyPeriod(input.behavior.scaleUp);
    var longestDown := GetLongestPolicyPeriod(input.behavior.scaleDown);
    var upEvents := PruneTimestampedReplicasToWindow(input.upEvents, longestUp, input.now);
    var downEvents := PruneTimestampedReplicasToWindow(input.downEvents, longestDown, input.now);
    var row := Sample(Some(input.now), chosen.guarded);
    var ups := PruneTimestampedReplicasToWindow(input.upRecommendations, input.behavior.scaleUp.stabilizationSeconds,
                                                input.now);
    var downs := PruneTimestampedReplicasToWindow(input.downRecommendations,
                                                  input.behavior.scaleDown.stabilizationSeconds, input.now);
    plan := chosen.(upRecommendations := ups + [row], downRecommendations := downs + [row]);
    var details := DecideTargetReplicasByBehaviorDetails(
      input.behavior, input.requested, chosen.guarded, input.minReplicas, input.maxReplicas,
      plan.upRecommendations, plan.downRecommendations, upEvents, downEvents, input.now);
    plan := plan.(desired := details.desired, constraints := plan.constraints + Reasons(input, chosen, details));
  }

  method PlanOnce(input: Input, assist: bool) returns (r: Result<Plan>)
    ensures r.Ok? <==> Plannable(input)
    ensures r.Ok? ==>
      && r.value.selected == Selected(input, assist)
      && r.value.guarded == Guarded(input, r.value.selected)
      && r.value.desired == Desired(input, assist)
      && r.value.mode == Basis(input, assist) && (r.value.baselineIncluded <==> assist || IncludesBaseline(input))
      && (r.value.metricsHeld <==> input.metricsIncomplete && r.value.selected < input.requested)
      && r.value.constraints
        == SelectionReasons(input, assist) + Reasons(input, r.value, Behave(input, r.value.guarded))
      && (r.value.desired != r.value.selected ==> r.value.constraints != [])
      && r.value.upRecommendations
        == Prune(input.upRecommendations, input.behavior.scaleUp.stabilizationSeconds, input.now)
                                      + [Sample(Some(input.now), r.value.guarded)]
      && r.value.downRecommendations
        == Prune(input.downRecommendations, input.behavior.scaleDown.stabilizationSeconds, input.now)
                                        + [Sample(Some(input.now), r.value.guarded)]
  {
    if input.now == 0 || input.requested < 0 || input.baseline < 0 || input.minReplicas < 0
       || input.maxReplicas < input.minReplicas {
      return Err;
    }
    var chosen := Choose(input, assist);
    if chosen.Err? {
      return Err;
    }
    var plan := Apply(input, chosen.value);
    ReasonsExplain(input, chosen.value);
    return Ok(plan);
  }

  /** A desired count that differs from the selected one always comes with a reason. */
  lemma ReasonsExplain(input: Input, plan: Plan)
    requires plan.guarded == Guarded(input, plan.selected)
    requires plan.metricsHeld <==> input.metricsIncomplete && plan.selected < input.requested
    ensures Behave(input, plan.guarded).desired != plan.selected ==>
              Reasons(input, plan, Behave(input, plan.guarded)) != []
  {
    var details := Behave(input, plan.guarded);
    var reasons := Reasons(input, plan, details);
    if details.desired != plan.selected && plan.guarded == plan.selected && details.stabilized == plan.guarded
       && details.rateLimited == details.stabilized {
      assert details.rateLimited < input.minReplicas || details.rateLimited > input.maxReplicas;
    }
    if reasons == [] {
      assert !plan.metricsHeld;
    }
  }

  /** Why the desired count differs from the selected one, in order. */
  function Reasons(input: Input, plan: Plan, details: BehaviorResult): (reasons: seq<string>) {
    var disabled := (details.stabilized > input.requested && input.behavior.scaleUp.select.Disabled?)
                    || (details.stabilized < input.requested && input.behavior.scaleDown.select.Disabled?);
    (if plan.metricsHeld then ["partial_metrics"] else [])
    + (if details.stabilized != plan.guarded then ["stabilization"] else [])
    + (if details.rateLimited != details.stabilized then [if disabled then "disabled" else "rate_limit"] else [])
    + (if details.rateLimited < input.minReplicas then ["minimum"] else [])
    + (if details.rateLimited > input.maxReplicas then ["maximum"] else [])
  }

  /** The baseline counterfactual: no predictions, models or failure hold. */
  function BaselineInput(input: Input): Input {
    input.(predictions := [], holdFailure := false)
  }

  method PlanRollout(input: Input) returns (r: Result<Rollout>)
    ensures r.Ok? <==> !input.mode.Invalid? && Plannable(input)
    ensures r.Ok? ==>
      && Plannable(BaselineInput(input))
      && r.value.controlDesired == Desired(input, false)
      && r.value.baselineDesired == Desired(BaselineInput(input), false)
      && r.value.plan.desired == (if input.mode.Observe? then input.requested else Desired(input, input.mode.Assist?))
      && (input.mode.Observe? ==> r.value.plan.upRecommendations == [] && r.value.plan.downRecommendations == [])
  {
    if input.mode.Invalid? {
      return Err;
    }
    var control := PlanOnce(input, false);
    if control.Err? {
      return Err;
    }
    var baseline := PlanOnce(BaselineInput(input), false);
    assert Candidates(BaselineInput(input)) == [input.baseline];
    var plan := control.value;
    if input.mode.Assist? {
      var assisted := PlanOnce(input, true);
      plan := assisted.value;
    }
    if input.mode.Observe? {
      plan := plan.(desired := input.requested, upRecommendations := [], downRecommendations := []);
    }
    return Ok(Rollout(plan, baseline.value.desired, control.value.desired));
  }

  // ----- Theorems -----

  /** The plan is monotone in the count it starts from. */
  lemma BehaveMonotone(input: Input, low: int, high: int)
    requires low <= high
    ensures Behave(input, low).desired <= Behave(input, high).desired
  {
    DecideMonotone(input.behavior, input.requested, low, high, input.minReplicas, input.maxReplicas,
      Prune(input.upRecommendations, input.behavior.scaleUp.stabilizationSeconds, input.now),
      Prune(input.downRecommendations, input.behavior.scaleDown.stabilizationSeconds, input.now),
      Prune(input.upEvents, LongestPeriod(input.behavior.scaleUp.policies), input.now),
      Prune(input.downEvents, LongestPeriod(input.behavior.scaleDown.policies), input.now), input.now);
  }

  /** Raising predictions never lowers the desired count, in either mode. */
  lemma PlanMonotoneInPredictions(input: Input, predictions: seq<int>, assist: bool)
    requires Plannable(input) && Below(input.predictions, predictions)
    ensures Plannable(input.(predictions := predictions))
    ensures Desired(input, assist) <= Desired(input.(predictions := predictions), assist)
  {
    var raised := input.(predictions := predictions);
    var a, b := Candidates(input), Candidates(raised);
    assert |a| == |b|;
    assert Below(a, b);
    assert AllNonnegative(b) by {
      forall i | 0 <= i < |b| ensures b[i] >= 0 {
        assert a[i] >= 0;
      }
    }
    SelectMonotone(input.strategy, a, b);
    BehaveMonotone(input, Guarded(input, Selected(input, assist)), Guarded(raised, Selected(raised, assist)));
  }

  lemma BaselineSelectsBaseline(input: Input)
    requires Plannable(input)
    ensures Plannable(BaselineInput(input))
    ensures Selected(BaselineInput(input), false) == input.baseline
  {
    var reactive := BaselineInput(input);
    assert Candidates(reactive) == [input.baseline];
    SelectWithinRange(input.strategy, [input.baseline], input.baseline, input.baseline);
  }

  /** Assist mode never asks for fewer replicas than the reactive baseline would. */
  lemma AssistNeverBelowBaseline(input: Input)
    requires Plannable(input)
    ensures Plannable(BaselineInput(input))
    ensures Desired(input, true) >= Desired(BaselineInput(input), false)
  {
    BaselineSelectsBaseline(input);
    var reactive := BaselineInput(input);
    BehaveMonotone(input, Guarded(reactive, input.baseline), Guarded(input, Selected(input, true)));
    assert Behave(reactive, Guarded(reactive, input.baseline)) == Behave(input, Guarded(reactive, input.baseline));
  }

  /** With incomplete metrics nothing but the maximum removes requested capacity. */
  lemma IncompleteMetricsHold(input: Input, assist: bool)
    requires Plannable(input) && input.metricsIncomplete
    ensures Desired(input, assist) >= Min(input.requested, input.maxReplicas)
  {
    var guarded := Guarded(input, Selected(input, assist));
    var row := Sample(Some(input.now), guarded);
    NoScaleDownAgainstTarget(input.behavior, input.requested, guarded, input.minReplicas, input.maxReplicas,
      Prune(input.upRecommendations, input.behavior.scaleUp.stabilizationSeconds, input.now) + [row],
      Prune(input.downRecommendations, input.behavior.scaleDown.stabilizationSeconds, input.now) + [row],
      Prune(input.upEvents, LongestPeriod(input.behavior.scaleUp.policies), input.now),
      Prune(input.downEvents, LongestPeriod(input.behavior.scaleDown.policies), input.now), input.now);
  }

  /** Every plan stays within the configured bounds. */
  lemma DesiredWithinBounds(input: Input, assist: bool)
    requires Plannable(input)
    ensures input.minReplicas <= Desired(input, assist) <= input.maxReplicas
  {
  }
}
