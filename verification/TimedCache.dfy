/**
  Fresh and cached forecast trajectories: the uniform grid a model must return,
  the merge with the interval already issued for now, and the structural check
  of what the cache holds.
 */
module TimedCache {
  import opened Basics
  import opened Timed

  // ----- Fresh grids -----

  /** The configured look-ahead, or one observed step when it is left out. */
  datatype Horizon = Milliseconds(value: int) | OneStep

  const MILLISECOND := 1_000_000

  function Step(points: seq<Point>, consumed: int): int
    requires |points| > 0
  {
    points[0].at - consumed
  }

  /** A uniform grid from one step after the consumed instant that covers the horizon. */
  ghost predicate FreshGrid(points: seq<Point>, consumed: int, horizon: int) {
    && ValidTrajectory(points) && |points| <= MAX_POINTS && consumed != 0 && horizon > 0
    && 0 < Step(points, consumed) <= DAY
    && |points| == (horizon - 1) / Step(points, consumed) + 1
    && forall i :: 0 <= i < |points| ==> OnGrid(points[i], i, consumed, Step(points, consumed))
  }

  predicate OnGrid(p: Point, i: nat, consumed: int, step: int) {
    p.at == consumed + (i + 1) * step && p.until == p.at + step
  }

  method TrajectoryExpiry(points: seq<Point>, consumed: int, horizon: int) returns (r: Result<int>)
    ensures r.Ok? <==> FreshGrid(points, consumed, horizon)
    ensures r.Ok? ==> r.value == points[|points| - 1].until
  {
    var valid := ValidateForecastTrajectory(points);
    if !valid {
      return Err;
    }
    if |points| > MAX_POINTS || consumed == 0 || horizon <= 0 {
      return Err;
    }
    var step := points[0].at - consumed;
    if step <= 0 || step > DAY {
      return Err;
    }
    var count := (horizon - 1) / step + 1;
    if count != |points| {
      return Err;
    }
    var end := 0;
    for i := 0 to |points|
      invariant forall k :: 0 <= k < i ==> OnGrid(points[k], k, consumed, step)
      invariant i > 0 ==> end == points[i - 1].until
    {
      if points[i].at != consumed + (i + 1) * step || points[i].until != points[i].at + step {
        return Err;
      }
      end := points[i].until;
    }
    return Ok(end);
  }

  /** The duration a model's horizon stands for on a trajectory, if it is usable. */
  function HorizonOf(horizon: Horizon, points: seq<Point>, consumed: int): Option<int> {
    match horizon
    case OneStep => if ValidTrajectory(points) then Some(points[0].at - consumed) else None
    case Milliseconds(value) =>
      if value <= 0 || value > MAX_INT64 / MILLISECOND then None else Some(value * MILLISECOND)
  }

  ghost predicate Accepts(horizon: Horizon, points: seq<Point>, consumed: int) {
    HorizonOf(horizon, points, consumed).Some?
      && FreshGrid(points, consumed, HorizonOf(horizon, points, consumed).value)
  }

  method ModelTrajectoryExpiry(horizon: Horizon, points: seq<Point>, consumed: int) returns (r: Result<int>)
    ensures r.Ok? <==> Accepts(horizon, points, consumed)
    ensures r.Ok? ==> r.value == points[|points| - 1].until
  {
    match horizon {
      case OneStep =>
        var valid := ValidateForecastTrajectory(points);
        if !valid {
          return Err;
        }
        r := TrajectoryExpiry(points, consumed, points[0].at - consumed);
      case Milliseconds(value) =>
        if value <= 0 || value > MAX_INT64 / MILLISECOND {
          return Err;
        }
        r := TrajectoryExpiry(points, consumed, value * MILLISECOND);
    }
  }

  // ----- Merging the current interval -----

  datatype Cached = Cached(trajectory: seq<Point>, fingerprint: string, expiresAt: int)

  /** How long an already-issued point may still stand in for now. */
  function Bridge(p: Point, first: int, expiresAt: int): Point {
    p.(until := Min(Min(p.until, first), expiresAt))
  }

  predicate Bridges(p: Point, first: int, expiresAt: int, now: int) {
    p.at <= now < Bridge(p, first, expiresAt).until
  }

  /** The interval of the old trajectory that covers now, cut short, or nothing. */
  function Prefix(newer: seq<Point>, issued: Option<Cached>, fingerprint: string, now: int): (prefix: seq<Point>)
    ensures |prefix| <= 1
  {
    if |newer| == 0 || issued.None? || issued.value.fingerprint != fingerprint || now >= issued.value.expiresAt
       || !ValidTrajectory(issued.value.trajectory) then []
    else FirstBridge(issued.value.trajectory, newer[0].at, issued.value.expiresAt, now)
  }

  function FirstBridge(trajectory: seq<Point>, first: int, expiresAt: int, now: int): (prefix: seq<Point>)
    ensures |prefix| <= 1
  {
    if |trajectory| == 0 then []
    else if Bridges(trajectory[0], first, expiresAt, now) then [Bridge(trajectory[0], first, expiresAt)]
    else FirstBridge(trajectory[1..], first, expiresAt, now)
  }

  /** There is a prefix exactly when some point covers now, and it is that point, cut short. */
  lemma {:induction false} FirstBridgeFinds(trajectory: seq<Point>, first: int, expiresAt: int, now: int)
    ensures var prefix := FirstBridge(trajectory, first, expiresAt, now);
            && (prefix == [] <==> forall i :: 0 <= i < |trajectory| ==> !Bridges(trajectory[i], first, expiresAt, now))
            && (prefix != [] ==>
                  exists i :: 0 <= i < |trajectory| && Bridges(trajectory[i], first, expiresAt, now)
                              && prefix == [Bridge(trajectory[i], first, expiresAt)])
  {
    if |trajectory| > 0 && !Bridges(trajectory[0], first, expiresAt, now) {
      var rest := trajectory[1..];
      FirstBridgeFinds(rest, first, expiresAt, now);
      assert forall i :: 0 <= i < |rest| ==> rest[i] == trajectory[i + 1];
      if FirstBridge(rest, first, expiresAt, now) != [] {
        var i :| 0 <= i < |rest| && Bridges(rest[i], first, expiresAt, now)
                 && FirstBridge(rest, first, expiresAt, now) == [Bridge(rest[i], first, expiresAt)];
        assert Bridges(trajectory[i + 1], first, expiresAt, now);
      } else {
        forall i | 0 <= i < |trajectory| ensures !Bridges(trajectory[i], first, expiresAt, now) {
          assert i > 0 ==> !Bridges(rest[i - 1], first, expiresAt, now);
        }
      }
    }
  }

  /** The loop over the old trajectory. */
  method FindBridge(trajectory: seq<Point>, first: int, expiresAt: int, now: int) returns (prefix: seq<Point>)
    ensures prefix == FirstBridge(trajectory, first, expiresAt, now)
  {
    for i := 0 to |trajectory|
      invariant FirstBridge(trajectory, first, expiresAt, now) == FirstBridge(trajectory[i..], first, expiresAt, now)
    {
      var p := trajectory[i];
      var until := p.until;
      if until > first {
        until := first;
      }
      if until > expiresAt {
        until := expiresAt;
      }
      assert until == Bridge(p, first, expiresAt).until;
      assert trajectory[i..][0] == p && trajectory[i..][1..] == trajectory[i + 1..];
      if p.at <= now && now < until {
        return [p.(until := until)];
      }
    }
    return [];
  }

  method MergeCurrentInterval(newer: seq<Point>, issued: Option<Cached>, fingerprint: string, now: int)
    returns (merged: seq<Point>)
    ensures merged == Prefix(newer, issued, fingerprint, now) + newer
  {
    if |newer| == 0 || issued.None? || issued.value.fingerprint != fingerprint || now >= issued.value.expiresAt {
      return newer;
    }
    var valid := ValidateForecastTrajectory(issued.value.trajectory);
    if !valid {
      return newer;
    }
    var prefix := FindBridge(issued.value.trajectory, newer[0].at, issued.value.expiresAt, now);
    return prefix + newer;
  }

  // ----- What the cache accepts -----

  /** The first point can be an interval preserved at completion, before the fresh grid. */
  predicate PreservedPrefix(points: seq<Point>, completedAt: int) {
    |points| >= 2 && points[0].at < completedAt + SECOND && points[0].until > completedAt
      && points[0].until <= points[1].at
  }

  /** A grid, or a preserved interval followed by one. */
  ghost predicate CacheAccepts(horizon: Horizon, points: seq<Point>, consumed: int, completedAt: int) {
    && ValidTrajectory(points)
    && (Accepts(horizon, points, consumed)
        || (PreservedPrefix(points, completedAt) && Accepts(horizon, points[1..], consumed)))
  }

  method CachedTrajectoryDeadline(horizon: Horizon, points: seq<Point>, consumed: int, completedAt: int)
    returns (r: Result<int>)
    ensures r.Ok? <==> CacheAccepts(horizon, points, consumed, completedAt)
    ensures r.Ok? ==> r.value == points[|points| - 1].until
  {
    var valid := ValidateForecastTrajectory(points);
    if !valid {
      return Err;
    }
    r := ModelTrajectoryExpiry(horizon, points, consumed);
    if r.Ok? || |points| < 2 {
      return r;
    }
    if points[0].at >= completedAt + SECOND || points[0].until <= completedAt || points[0].until > points[1].at {
      return Err;
    }
    r := ModelTrajectoryExpiry(horizon, points[1..], consumed);
  }

  // ----- Producer and validator agree -----

  lemma PrefixFacts(newer: seq<Point>, issued: Option<Cached>, fingerprint: string, now: int)
    requires |newer| > 0 && Prefix(newer, issued, fingerprint, now) != []
    ensures var p := Prefix(newer, issued, fingerprint, now)[0];
            && ValidPoint(p) && p.at <= now < p.until <= newer[0].at
            && issued.Some? && p.until <= issued.value.expiresAt
            && exists i :: 0 <= i < |issued.value.trajectory| && issued.value.trajectory[i].at == p.at
                           && issued.value.trajectory[i].cpu == p.cpu && p.until <= issued.value.trajectory[i].until
  {
    var trajectory := issued.value.trajectory;
    FirstBridgeFinds(trajectory, newer[0].at, issued.value.expiresAt, now);
    var i :| 0 <= i < |trajectory| && Bridges(trajectory[i], newer[0].at, issued.value.expiresAt, now)
             && Prefix(newer, issued, fingerprint, now) == [Bridge(trajectory[i], newer[0].at, issued.value.expiresAt)];
    assert ValidPoint(trajectory[i]);
  }

  lemma MergedIsValid(newer: seq<Point>, issued: Option<Cached>, fingerprint: string, now: int)
    requires ValidTrajectory(newer) && |newer| <= MAX_POINTS
    ensures ValidTrajectory(Prefix(newer, issued, fingerprint, now) + newer)
  {
    var prefix := Prefix(newer, issued, fingerprint, now);
    var merged := prefix + newer;
    if prefix == [] {
      assert merged == newer;
    } else {
      PrefixFacts(newer, issued, fingerprint, now);
      forall i | 0 <= i < |merged| ensures ValidPoint(merged[i]) {
        assert i > 0 ==> merged[i] == newer[i - 1];
      }
      forall i | 1 <= i < |merged| ensures merged[i - 1].until <= merged[i].at {
        assert i > 1 ==> merged[i] == newer[i - 1] && merged[i - 1] == newer[i - 2];
        assert i == 1 ==> merged[1] == newer[0];
      }
    }
  }

  /** A grid with an extra first point is not itself a grid, so the prefix is recognised. */
  lemma PrefixedGridIsNoGrid(p: Point, newer: seq<Point>, consumed: int, horizon: Horizon)
    requires Accepts(horizon, newer, consumed)
    ensures !Accepts(horizon, [p] + newer, consumed)
  {
    assert ([p] + newer)[1] == newer[0];
    assert OnGrid(newer[0], 0, consumed, Step(newer, consumed));
  }

  lemma PrefixDecides(horizon: Horizon, p: Point, newer: seq<Point>, consumed: int, completedAt: int)
    requires Accepts(horizon, newer, consumed) && ValidTrajectory([p] + newer) && p.until > completedAt
    ensures CacheAccepts(horizon, [p] + newer, consumed, completedAt) <==> p.at < completedAt + SECOND
  {
    PrefixedGridIsNoGrid(p, newer, consumed, horizon);
    var points := [p] + newer;
    assert points[1..] == newer && points[1] == newer[0];
    assert points[0].until <= points[1].at;
  }

  lemma GridIsAccepted(horizon: Horizon, newer: seq<Point>, consumed: int, completedAt: int)
    requires Accepts(horizon, newer, consumed)
    ensures CacheAccepts(horizon, newer, consumed, completedAt) && |newer| <= MAX_POINTS && ValidTrajectory(newer)
  {
  }

  /** The persisted stamp of the completion lies before the end of any interval that covers the merge. */
  lemma StampPrecedesPrefix(newer: seq<Point>, issued: Option<Cached>, fingerprint: string, completed: int,
                            merging: int)
    requires |newer| > 0 && completed <= merging && Prefix(newer, issued, fingerprint, merging) != []
    ensures Prefix(newer, issued, fingerprint, merging)[0].until > WholeSecond(completed)
  {
    PrefixFacts(newer, issued, fingerprint, merging);
  }

  /** Merging keeps the fresh grid's own deadline. */
  lemma MergedKeepsDeadline(newer: seq<Point>, issued: Option<Cached>, fingerprint: string, merging: int)
    requires ValidTrajectory(newer) && |newer| <= MAX_POINTS
    ensures var points := Prefix(newer, issued, fingerprint, merging) + newer;
            ValidTrajectory(points) && points[|points| - 1].until == newer[|newer| - 1].until
  {
    MergedIsValid(newer, issued, fingerprint, merging);
  }

  /**
    What the producer merges at one instant and stamps as completed at another is
    accepted exactly when the preserved interval, if there is one, starts before
    the end of the persisted completion second.
   */
  lemma ProducerAndValidatorAgree(horizon: Horizon, newer: seq<Point>, consumed: int, issued: Option<Cached>,
                                  fingerprint: string, completed: int, merging: int)
    requires Accepts(horizon, newer, consumed) && completed <= merging
    ensures var prefix := Prefix(newer, issued, fingerprint, merging);
            CacheAccepts(horizon, prefix + newer, consumed, WholeSecond(completed))
            <==> (prefix == [] || prefix[0].at < WholeSecond(completed) + SECOND)
  {
    var prefix := Prefix(newer, issued, fingerprint, merging);
    var stamp := WholeSecond(completed);
    GridIsAccepted(horizon, newer, consumed, stamp);
    if prefix == [] {
      assert prefix + newer == newer;
    } else {
      MergedIsValid(newer, issued, fingerprint, merging);
      StampPrecedesPrefix(newer, issued, fingerprint, completed, merging);
      assert prefix == [prefix[0]];
      PrefixDecides(horizon, prefix[0], newer, consumed, stamp);
    }
  }

  /** Merged at the completion instant itself, the cache always accepts. */
  lemma SameInstantAlwaysAgrees(horizon: Horizon, newer: seq<Point>, consumed: int, issued: Option<Cached>,
                                fingerprint: string, completed: int)
    requires Accepts(horizon, newer, consumed)
    ensures CacheAccepts(horizon, Prefix(newer, issued, fingerprint, completed) + newer, consumed,
                         WholeSecond(completed))
  {
    ProducerAndValidatorAgree(horizon, newer, consumed, issued, fingerprint, completed, completed);
    if Prefix(newer, issued, fingerprint, completed) != [] {
      PrefixFacts(newer, issued, fingerprint, completed);
    }
  }

  /** Reading the clock again before merging can cross a second in which an old interval starts. */
  lemma LaterMergeCanBeRejected() returns (newer: seq<Point>, issued: Cached, completed: int, merging: int)
    ensures Accepts(Milliseconds(30_000), newer, SECOND)
    ensures 0 < completed < merging == completed + 2
    ensures !CacheAccepts(Milliseconds(30_000), Prefix(newer, Some(issued), "f", merging) + newer, SECOND,
                          WholeSecond(completed))
  {
    newer := [Point(31 * SECOND, 61 * SECOND, 5)];
    issued := Cached([Point(10 * SECOND, 40 * SECOND, 7)], "f", 100 * SECOND);
    completed := 10 * SECOND - 1;
    merging := 10 * SECOND + 1;
    assert OnGrid(newer[0], 0, SECOND, 30 * SECOND);
    assert Accepts(Milliseconds(30_000), newer, SECOND);
    assert Bridges(issued.trajectory[0], newer[0].at, issued.expiresAt, merging);
    assert Prefix(newer, Some(issued), "f", merging)[0].at == 10 * SECOND;
    assert WholeSecond(completed) == 9 * SECOND;
    ProducerAndValidatorAgree(Milliseconds(30_000), newer, SECOND, Some(issued), "f", completed, merging);
  }

  lemma {:induction false} FinishedPointAddsNothing(p: Point, points: seq<Point>, lead: int, now: int)
    requires p.at < p.until <= now
    ensures Demand([p] + points, lead, now) == Demand(points, lead, now)
    ensures Covered([p] + points, now) == Covered(points, now)
  {
    var more := [p] + points;
    if |points| == 0 {
      assert more[..0] == [] && points == [];
      assert Demand(more[..|more| - 1], lead, now) == 0;
    } else {
      assert more[..|more| - 1] == [p] + points[..|points| - 1];
      FinishedPointAddsNothing(p, points[..|points| - 1], lead, now);
    }
    if Covered(points, now) {
      var i :| 0 <= i < |points| && Active(points[i], now);
      assert Active(more[i + 1], now);
    }
    if Covered(more, now) {
      var i :| 0 <= i < |more| && Active(more[i], now);
      assert i > 0 && Active(points[i - 1], now);
    }
  }

  /** The merge never extends the old expiry, and from the fresh start on only the fresh points decide. */
  lemma FreshPointsTakeOver(newer: seq<Point>, issued: Option<Cached>, fingerprint: string, merging: int,
                            lead: int, tolerance: real, capacity: Capacity, requested: int, now: int)
    requires ValidTrajectory(newer) && now >= newer[0].at
    ensures var prefix := Prefix(newer, issued, fingerprint, merging);
            && (prefix != [] ==> issued.Some? && prefix[0].until <= issued.value.expiresAt)
            && Recommendation(prefix + newer, lead, tolerance, capacity, requested, now)
               == Recommendation(newer, lead, tolerance, capacity, requested, now)
  {
    var prefix := Prefix(newer, issued, fingerprint, merging);
    if prefix == [] {
      assert prefix + newer == newer;
    } else {
      PrefixFacts(newer, issued, fingerprint, merging);
      assert prefix == [prefix[0]];
      FinishedPointAddsNothing(prefix[0], newer, lead, now);
    }
  }
}
