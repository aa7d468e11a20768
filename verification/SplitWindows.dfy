/**
  Forecast windows of reconstructed demand: moving a trajectory back by one
  sampling step, and splitting a window at the estimated instant of a rise.
  Shares and pod counts are exact rationals.
 */
module SplitWindows {
  import opened Basics
  import opened Timed

  // ----- Shifting -----

  function Shift(points: seq<Point>, delta: int): (r: seq<Point>)
    ensures |r| == |points|
  {
    seq(|points|, i requires 0 <= i < |points| =>
      Point(points[i].at - delta, points[i].until - delta, points[i].cpu))
  }

  /** The step is the last point's length: an earlier one may have been shortened. */
  method ForecastWindows(points: seq<Point>) returns (out: seq<Point>)
    ensures out == if |points| == 0 then [] else Shift(points, points[|points| - 1].until - points[|points| - 1].at)
  {
    if |points| == 0 {
      return [];
    }
    var last := points[|points| - 1];
    var step := last.until - last.at;
    out := [];
    for i := 0 to |points|
      invariant out == Shift(points[..i], step)
    {
      var p := points[i];
      out := out + [Point(p.at - step, p.until - step, p.cpu)];
    }
    assert points[..|points|] == points;
  }

  lemma {:induction false} ShiftMovesDemand(points: seq<Point>, delta: int, lead: int, now: int)
    ensures Demand(Shift(points, delta), lead, now) == Demand(points, lead, now + delta)
  {
    if |points| > 0 {
      var n := |points| - 1;
      ShiftMovesDemand(points[..n], delta, lead, now);
      assert Shift(points, delta)[..n] == Shift(points[..n], delta);
    }
  }

  /** A shifted trajectory recommends now what the original recommends one shift later. */
  lemma ShiftMovesRecommendation(points: seq<Point>, delta: int, lead: int, tolerance: real, capacity: Capacity,
                                 requested: int, now: int)
    ensures Recommendation(Shift(points, delta), lead, tolerance, capacity, requested, now)
         == Recommendation(points, lead, tolerance, capacity, requested, now + delta)
  {
    ShiftMovesDemand(points, delta, lead, now);
    var shifted := Shift(points, delta);
    if Covered(points, now + delta) {
      var i :| 0 <= i < |points| && Active(points[i], now + delta);
      assert Active(shifted[i], now);
    }
    if Covered(shifted, now) {
      var i :| 0 <= i < |shifted| && Active(shifted[i], now);
      assert Active(points[i], now + delta);
    }
  }

  // ----- Splitting -----

  const MINIMUM_RISE := 0.25

  /** Cores one pod provides at its target utilization. */
  function PerPod(capacity: Capacity): real {
    capacity.requestPerPod as real * capacity.targetPercentage as real / 100.0 / 1000.0
  }

  /** Demand grows by a quarter of a pod and by more than the tolerance. */
  predicate DemandRising(newer: real, older: real, capacity: Capacity, tolerance: real) {
    var perPod := PerPod(capacity);
    perPod > 0.0 && newer / perPod - older / perPod >= MINIMUM_RISE
      && newer / perPod > older / perPod * (1.0 + tolerance)
  }

  function Cores(cpu: int): real {
    cpu as real / 1000.0
  }

  /** The share of window k after the step, when the forecast rises into window k + 1. */
  function Share(points: seq<Point>, k: nat, capacity: Capacity, tolerance: real): (share: real)
    requires 0 < k < |points| - 1
    ensures 0.0 <= share <= 1.0
    ensures share > 0.0 ==> points[k].cpu < points[k + 1].cpu
  {
    var before, value, after := Cores(points[k - 1].cpu), Cores(points[k].cpu), Cores(points[k + 1].cpu);
    if after > before && DemandRising(after, value, capacity, tolerance) then
      RisingIsGrowth(after, value, capacity, tolerance);
      var share := (value - before) / (after - before);
      if share < 0.0 then 0.0 else if share > 1.0 then 1.0 else share
    else 0.0
  }

  lemma RisingIsGrowth(newer: real, older: real, capacity: Capacity, tolerance: real)
    requires DemandRising(newer, older, capacity, tolerance)
    ensures newer > older
  {
    var perPod := PerPod(capacity);
    if newer <= older {
      QuotientMonotone(newer, older, perPod);
    }
  }

  lemma QuotientMonotone(a: real, b: real, d: real)
    requires a <= b && d > 0.0
    ensures a / d <= b / d
  {
    assert (b - a) / d >= 0.0;
    assert b / d - a / d == (b - a) / d;
  }

  /** Nanoseconds of window k after its step, truncated toward zero. */
  function Tail(points: seq<Point>, k: nat, capacity: Capacity, tolerance: real): (tail: int)
    requires 0 < k < |points| - 1
    ensures var length := points[k].until - points[k].at;
            if length >= 0 then 0 <= tail <= length else length <= tail <= 0
  {
    var length := points[k].until - points[k].at;
    var share := Share(points, k, capacity, tolerance);
    if length >= 0 then
      ShareOfLength(share, length);
      (share * length as real).Floor
    else
      ShareOfLength(share, -length);
      -(share * (-length) as real).Floor
  }

  lemma ShareOfLength(share: real, length: int)
    requires 0.0 <= share <= 1.0 && length >= 0
    ensures 0 <= (share * length as real).Floor <= length
  {
    var l := length as real;
    assert share * l <= 1.0 * l;
    assert share * l >= 0.0;
  }

  predicate Splits(points: seq<Point>, k: nat, capacity: Capacity, tolerance: real) {
    0 < k < |points| - 1 && Share(points, k, capacity, tolerance) > 0.0
  }

  /** What window k becomes. */
  function Pieces(points: seq<Point>, k: nat, capacity: Capacity, tolerance: real): (pieces: seq<Point>)
    requires k < |points|
    ensures 1 <= |pieces| <= 2
  {
    var p := points[k];
    if !Splits(points, k, capacity, tolerance) then [p]
    else
      var step := p.until - Tail(points, k, capacity, tolerance);
      (if step != p.at then [Point(p.at, step, p.cpu)] else []) + [Point(step, p.until, points[k + 1].cpu)]
  }

  function Upto(points: seq<Point>, k: nat, capacity: Capacity, tolerance: real): (out: seq<Point>)
    requires k <= |points|
    ensures k <= |out| <= 2 * k
  {
    if k == 0 then [] else Upto(points, k - 1, capacity, tolerance) + Pieces(points, k - 1, capacity, tolerance)
  }

  /** The split trajectory, unless it would be too long. */
  function Split(points: seq<Point>, capacity: Capacity, tolerance: real): seq<Point>
  {
    var out := Upto(points, |points|, capacity, tolerance);
    if |out| > MAX_POINTS + 1 then points else out
  }

  method SplitRisingWindows(points: seq<Point>, capacity: Capacity, tolerance: real) returns (out: seq<Point>)
    ensures out == Split(points, capacity, tolerance)
  {
    out := [];
    for k := 0 to |points|
      invariant out == Upto(points, k, capacity, tolerance)
    {
      var pieces := SplitWindow(points, k, capacity, tolerance);
      out := out + pieces;
    }
    if |out| > MAX_POINTS + 1 {
      out := points;
    }
  }

  method SplitWindow(points: seq<Point>, k: nat, capacity: Capacity, tolerance: real) returns (pieces: seq<Point>)
    requires k < |points|
    ensures pieces == Pieces(points, k, capacity, tolerance)
  {
    var p := points[k];
    if k == 0 || k == |points| - 1 {
      return [p];
    }
    var share := Share(points, k, capacity, tolerance);
    if share == 0.0 {
      return [p];
    }
    pieces := [];
    var step := p.until - Tail(points, k, capacity, tolerance);
    if step != p.at {
      pieces := pieces + [Point(p.at, step, p.cpu)];
    }
    pieces := pieces + [Point(step, p.until, points[k + 1].cpu)];
  }

  // ----- Order and validity -----

  /** The split of window k leaves at least one nanosecond after its step, which is not the zero time. */
  predicate Resolves(points: seq<Point>, k: nat, capacity: Capacity, tolerance: real)
    requires k < |points|
  {
    Splits(points, k, capacity, tolerance) ==>
      Tail(points, k, capacity, tolerance) >= 1 && points[k].until != Tail(points, k, capacity, tolerance)
  }

  predicate Resolvable(points: seq<Point>, capacity: Capacity, tolerance: real) {
    forall k :: 0 <= k < |points| ==> Resolves(points, k, capacity, tolerance)
  }

  ghost predicate Well(points: seq<Point>) {
    (forall i :: 0 <= i < |points| ==> ValidPoint(points[i])) && Ordered(points)
  }

  lemma WellAppend(a: seq<Point>, b: seq<Point>)
    requires Well(a) && Well(b)
    requires |a| > 0 && |b| > 0 ==> a[|a| - 1].until <= b[0].at
    ensures Well(a + b)
  {
    var s := a + b;
    forall i | 0 <= i < |s| ensures ValidPoint(s[i]) {
      assert s[i] == if i < |a| then a[i] else b[i - |a|];
    }
    forall i | 1 <= i < |s| ensures s[i - 1].until <= s[i].at {
      assert s[i] == if i < |a| then a[i] else b[i - |a|];
      assert s[i - 1] == if i - 1 < |a| then a[i - 1] else b[i - 1 - |a|];
    }
  }

  lemma PiecesAreWell(points: seq<Point>, k: nat, capacity: Capacity, tolerance: real)
    requires Well(points) && k < |points|
    ensures var pieces := Pieces(points, k, capacity, tolerance);
            && pieces[0].at == points[k].at && pieces[|pieces| - 1].until == points[k].until
            && (Well(pieces) <==> Resolves(points, k, capacity, tolerance))
  {
    assert ValidPoint(points[k]);
    if Splits(points, k, capacity, tolerance) {
      assert ValidPoint(points[k + 1]);
      var pieces := Pieces(points, k, capacity, tolerance);
      if !Resolves(points, k, capacity, tolerance) {
        assert !ValidPoint(pieces[|pieces| - 1]);
      }
    }
  }

  lemma {:induction false} UptoIsWell(points: seq<Point>, k: nat, capacity: Capacity, tolerance: real)
    requires Well(points) && k <= |points| && Resolvable(points, capacity, tolerance)
    ensures Well(Upto(points, k, capacity, tolerance))
    ensures k > 0 ==> var out := Upto(points, k, capacity, tolerance); out[|out| - 1].until == points[k - 1].until
    decreases k
  {
    if k > 0 {
      UptoIsWell(points, k - 1, capacity, tolerance);
      PiecesAreWell(points, k - 1, capacity, tolerance);
      WellAppend(Upto(points, k - 1, capacity, tolerance), Pieces(points, k - 1, capacity, tolerance));
    }
  }

  lemma {:induction false} PiecesSurvive(points: seq<Point>, i: nat, k: nat, capacity: Capacity, tolerance: real,
                                         q: Point)
    requires i < k <= |points| && q in Pieces(points, i, capacity, tolerance)
    ensures q in Upto(points, k, capacity, tolerance)
    decreases k
  {
    if i < k - 1 {
      PiecesSurvive(points, i, k - 1, capacity, tolerance, q);
    }
  }

  lemma {:induction false} PiecesComeFromWindows(points: seq<Point>, k: nat, capacity: Capacity, tolerance: real,
                                                 q: Point)
    returns (i: nat)
    requires k <= |points| && q in Upto(points, k, capacity, tolerance)
    ensures i < k && q in Pieces(points, i, capacity, tolerance)
    decreases k
  {
    if q in Pieces(points, k - 1, capacity, tolerance) {
      i := k - 1;
    } else {
      i := PiecesComeFromWindows(points, k - 1, capacity, tolerance, q);
    }
  }

  /** The result is a valid trajectory exactly when every split resolves, or none is made. */
  lemma SplitIsValidExactly(points: seq<Point>, capacity: Capacity, tolerance: real)
    requires ValidTrajectory(points)
    ensures ValidTrajectory(Split(points, capacity, tolerance))
       <==> Resolvable(points, capacity, tolerance) || |Upto(points, |points|, capacity, tolerance)| > MAX_POINTS + 1
  {
    var out := Upto(points, |points|, capacity, tolerance);
    if Resolvable(points, capacity, tolerance) {
      UptoIsWell(points, |points|, capacity, tolerance);
    } else {
      var k :| 0 <= k < |points| && !Resolves(points, k, capacity, tolerance);
      var pieces := Pieces(points, k, capacity, tolerance);
      var empty := pieces[|pieces| - 1];
      assert !ValidPoint(empty);
      PiecesSurvive(points, k, |points|, capacity, tolerance, empty);
    }
  }

  /** Two million cores of forecast growth make a share of half a nanosecond: the split is then invalid. */
  lemma UnresolvableSplitExists() returns (points: seq<Point>, capacity: Capacity)
    ensures ValidTrajectory(points)
    ensures !ValidTrajectory(Split(points, capacity, 0.0))
  {
    points := [Point(1 * SECOND, 2 * SECOND, 0), Point(2 * SECOND, 3 * SECOND, 1),
               Point(3 * SECOND, 4 * SECOND, 2_000_000_000)];
    capacity := Capacity(1000, 100);
    assert PerPod(capacity) == 1.0;
    var before, value, after := Cores(points[0].cpu), Cores(points[1].cpu), Cores(points[2].cpu);
    assert before == 0.0 && value == 0.001 && after == 2_000_000.0;
    assert DemandRising(after, value, capacity, 0.0);
    assert Share(points, 1, capacity, 0.0) == 0.001 / 2_000_000.0 > 0.0;
    assert Share(points, 1, capacity, 0.0) * SECOND as real == 0.5;
    assert Tail(points, 1, capacity, 0.0) == 0;
    assert Splits(points, 1, capacity, 0.0) && !Resolves(points, 1, capacity, 0.0);
    SplitIsValidExactly(points, capacity, 0.0);
  }

  // ----- Coverage and demand -----

  lemma PiecesCover(points: seq<Point>, k: nat, capacity: Capacity, tolerance: real, now: int)
    requires k < |points|
    ensures Active(points[k], now) <==> exists q :: q in Pieces(points, k, capacity, tolerance) && Active(q, now)
  {
    var pieces := Pieces(points, k, capacity, tolerance);
    if Active(points[k], now) {
      if |pieces| == 1 {
        assert pieces[0] in pieces && Active(pieces[0], now);
      } else {
        assert pieces[0] in pieces && pieces[1] in pieces;
        assert Active(pieces[0], now) || Active(pieces[1], now);
      }
    }
  }

  /** The split trajectory covers exactly the same instants. */
  lemma SplitCoversSameInstants(points: seq<Point>, capacity: Capacity, tolerance: real, now: int)
    ensures Covered(Split(points, capacity, tolerance), now) <==> Covered(points, now)
  {
    var out := Upto(points, |points|, capacity, tolerance);
    if Covered(points, now) {
      var k :| 0 <= k < |points| && Active(points[k], now);
      PiecesCover(points, k, capacity, tolerance, now);
      var q :| q in Pieces(points, k, capacity, tolerance) && Active(q, now);
      PiecesSurvive(points, k, |points|, capacity, tolerance, q);
      var i :| 0 <= i < |out| && out[i] == q;
      assert Active(out[i], now);
    }
    if Covered(out, now) {
      var i :| 0 <= i < |out| && Active(out[i], now);
      var k := PiecesComeFromWindows(points, |points|, capacity, tolerance, out[i]);
      PiecesCover(points, k, capacity, tolerance, now);
    }
  }

  predicate Relevant(p: Point, lead: int, now: int) {
    Active(p, now) || Impending(p, lead, now)
  }

  lemma {:induction false} DemandIsReached(points: seq<Point>, lead: int, now: int)
    ensures Demand(points, lead, now) == 0
         || exists i :: 0 <= i < |points| && Relevant(points[i], lead, now)
                        && points[i].cpu == Demand(points, lead, now)
  {
    if |points| > 0 {
      var n := |points| - 1;
      DemandIsReached(points[..n], lead, now);
      if Demand(points, lead, now) != 0 && Demand(points, lead, now) == Demand(points[..n], lead, now) {
        var i :| 0 <= i < n && Relevant(points[..n][i], lead, now) && points[..n][i].cpu == Demand(points, lead, now);
        assert Relevant(points[i], lead, now);
      }
    }
  }

  lemma {:induction false} DemandCoversMembers(points: seq<Point>, lead: int, now: int, q: Point)
    requires q in points && Relevant(q, lead, now)
    ensures Demand(points, lead, now) >= q.cpu
  {
    var n := |points| - 1;
    if q != points[n] {
      assert q in points[..n];
      DemandCoversMembers(points[..n], lead, now, q);
    }
  }

  /** Some piece of a relevant window is relevant and asks for at least as much. */
  lemma PiecesKeepDemand(points: seq<Point>, k: nat, capacity: Capacity, tolerance: real, lead: int, now: int)
    returns (q: Point)
    requires k < |points| && Relevant(points[k], lead, now)
    ensures q in Pieces(points, k, capacity, tolerance) && Relevant(q, lead, now) && q.cpu >= points[k].cpu
  {
    var pieces := Pieces(points, k, capacity, tolerance);
    q := if Relevant(pieces[0], lead, now) then pieces[0] else pieces[|pieces| - 1];
  }

  /** Pointwise, and with any lead, demand never falls. */
  lemma SplitRaisesDemand(points: seq<Point>, capacity: Capacity, tolerance: real, lead: int, now: int)
    ensures Demand(points, lead, now) <= Demand(Split(points, capacity, tolerance), lead, now)
  {
    DemandIsReached(points, lead, now);
    if Demand(points, lead, now) > 0 {
      var k :| 0 <= k < |points| && Relevant(points[k], lead, now) && points[k].cpu == Demand(points, lead, now);
      var q := PiecesKeepDemand(points, k, capacity, tolerance, lead, now);
      PiecesSurvive(points, k, |points|, capacity, tolerance, q);
      DemandCoversMembers(Upto(points, |points|, capacity, tolerance), lead, now, q);
    }
  }

  /** Splitting never lowers the replicas computed from a trajectory. */
  lemma SplitNeverLowersReplicas(points: seq<Point>, capacity: Capacity, tolerance: real, lead: int, requested: int,
                                 now: int)
    requires Recommendation(Split(points, capacity, tolerance), lead, tolerance, capacity, requested, now).Ok?
    ensures Recommendation(points, lead, tolerance, capacity, requested, now).Ok?
    ensures Recommendation(points, lead, tolerance, capacity, requested, now).value
         <= Recommendation(Split(points, capacity, tolerance), lead, tolerance, capacity, requested, now).value
  {
    SplitCoversSameInstants(points, capacity, tolerance, now);
    SplitRaisesDemand(points, capacity, tolerance, lead, now);
    AdjustedMonotone(Demand(points, lead, now), Demand(Split(points, capacity, tolerance), lead, now),
                     Covered(points, now), capacity, requested, tolerance);
  }

  // ----- The demand a forecast sets now -----

  method WindowDemand(points: seq<Point>, lead: int, now: int) returns (demand: real, covered: bool)
    ensures demand == Cores(Demand(points, lead, now))
    ensures covered <==> Covered(points, now)
  {
    demand, covered := 0.0, false;
    for i := 0 to |points|
      invariant demand == Cores(Demand(points[..i], lead, now))
      invariant covered <==> Covered(points[..i], now)
    {
      var p := points[i];
      var inProgress := p.at <= now && now < p.until;
      covered := covered || inProgress;
      CoveredByMore(points[..i], p, now);
      assert points[..i] + [p] == points[..i + 1];
      assert points[..i + 1][..i] == points[..i];
      if (inProgress || (p.at > now && p.at <= now + lead)) && Cores(p.cpu) > demand {
        demand := Cores(p.cpu);
      }
    }
    assert points[..|points|] == points;
  }
}
