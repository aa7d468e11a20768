/**
  Timed CPU forecasts: trajectories of half-open intervals with constant
  demand, the replica recommendation at an instant, its deadline, the merge of
  one already-issued interval and the validation of fresh and cached grids.
  Instants are nanoseconds since the zero time, which itself is instant 0.
 */
module Timed {
  import opened Basics

  const MAX_POINTS := 32

  datatype Point = Point(at: int, until: int, cpu: int)

  // ----- Trajectories -----

  predicate ValidPoint(p: Point) {
    p.at != 0 && p.at < p.until <= p.at + DAY && p.cpu >= 0
  }

  predicate Ordered(points: seq<Point>) {
    forall i :: 1 <= i < |points| ==> points[i - 1].until <= points[i].at
  }

  /** Nonempty, bounded, chronological and nonoverlapping. */
  predicate ValidTrajectory(points: seq<Point>) {
    && 1 <= |points| <= MAX_POINTS + 1
    && (forall i :: 0 <= i < |points| ==> ValidPoint(points[i]))
    && Ordered(points)
  }

  method ValidateForecastTrajectory(points: seq<Point>) returns (ok: bool)
    ensures ok <==> ValidTrajectory(points)
  {
    if |points| < 1 || |points| > MAX_POINTS + 1 {
      return false;
    }
    var previous := 0;
    for i := 0 to |points|
      invariant forall k :: 0 <= k < i ==> ValidPoint(points[k])
      invariant forall k :: 1 <= k < i ==> points[k - 1].until <= points[k].at
      invariant i > 0 ==> previous == points[i - 1].until
    {
      var p := points[i];
      if p.at == 0 || p.until <= p.at || p.until - p.at > DAY || p.cpu < 0 || (i > 0 && p.at < previous) {
        return false;
      }
      previous := p.until;
    }
    return true;
  }

  // ----- Demand to replicas -----

  datatype Capacity = Capacity(requestPerPod: int, targetPercentage: int)

  /** The least replica count whose target capacity covers the demand, when it fits an int32. */
  ghost predicate Covers(capacity: Capacity, demand: int, replicas: int) {
    demand * 100 <= replicas * (capacity.requestPerPod * capacity.targetPercentage)
  }

  function ResolveDemand(demand: int, capacity: Capacity): (r: Result<int>)
    ensures r.Ok? ==> capacity.requestPerPod > 0 && capacity.targetPercentage > 0 && 0 <= r.value <= MAX_INT32
    ensures r.Ok? ==> Covers(capacity, demand, r.value)
    ensures r.Ok? && r.value > 0 ==> !Covers(capacity, demand, r.value - 1)
  {
    if capacity.requestPerPod <= 0 || capacity.targetPercentage <= 0 then Err
    else
      var perPod := capacity.requestPerPod * capacity.targetPercentage;
      PositiveProduct(capacity.requestPerPod, capacity.targetPercentage);
      if demand <= 0 then Ok(0)
      else
        CeilingDivides(demand * 100, perPod);
        if CeilDiv(demand * 100, perPod) > MAX_INT32 then Err else Ok(CeilDiv(demand * 100, perPod))
  }

  lemma PositiveProduct(a: int, b: int)
    requires a > 0 && b > 0
    ensures a * b > 0
  {
  }

  function CeilDiv(n: int, d: int): int
    requires d > 0
  {
    n / d + if n % d != 0 then 1 else 0
  }

  lemma CeilingDivides(n: int, d: int)
    requires n > 0 && d > 0
    ensures CeilDiv(n, d) >= 1
    ensures (CeilDiv(n, d) - 1) * d < n <= CeilDiv(n, d) * d
  {
    var q, m := n / d, n % d;
    assert n == d * q + m && 0 <= m < d;
    assert (q + 1) * d == d * q + d;
    assert (q - 1) * d == d * q - d;
    if q == 0 {
      assert d * q == 0;
    }
  }

  lemma CoversMonotone(capacity: Capacity, low: int, high: int, demand: int)
    requires capacity.requestPerPod * capacity.targetPercentage > 0
    requires low <= high && Covers(capacity, demand, low)
    ensures Covers(capacity, demand, high)
  {
    var perPod := capacity.requestPerPod * capacity.targetPercentage;
    assert high * perPod == low * perPod + (high - low) * perPod;
    assert (high - low) * perPod >= 0;
  }

  /** More demand needs at least as many replicas, and fits only if less demand does. */
  lemma ResolveMonotone(low: int, high: int, capacity: Capacity)
    requires low <= high && ResolveDemand(high, capacity).Ok?
    ensures ResolveDemand(low, capacity).Ok?
    ensures ResolveDemand(low, capacity).value <= ResolveDemand(high, capacity).value
  {
    var perPod := capacity.requestPerPod * capacity.targetPercentage;
    PositiveProduct(capacity.requestPerPod, capacity.targetPercentage);
    if low > 0 {
      CeilingDivides(low * 100, perPod);
      var a, b := CeilDiv(low * 100, perPod), CeilDiv(high * 100, perPod);
      CeilingDivides(high * 100, perPod);
      if a > b {
        assert Covers(capacity, low, b);
        CoversMonotone(capacity, b, a - 1, low);
        assert false;
      }
    }
  }

  // ----- The recommendation at one instant -----

  predicate Active(p: Point, now: int) {
    p.at <= now < p.until
  }

  predicate Impending(p: Point, lead: int, now: int) {
    now < p.at <= now + lead
  }

  /** The largest demand of the window in progress and of windows starting within the lead. */
  function Demand(points: seq<Point>, lead: int, now: int): (demand: int)
    ensures demand >= 0
  {
    if |points| == 0 then 0
    else
      var last := points[|points| - 1];
      var rest := Demand(points[..|points| - 1], lead, now);
      if (Active(last, now) || Impending(last, lead, now)) && last.cpu > rest then last.cpu else rest
  }

  predicate Covered(points: seq<Point>, now: int) {
    exists i :: 0 <= i < |points| && Active(points[i], now)
  }

  /** The demand stays within the tolerated surplus over the requested capacity. */
  predicate Tolerated(demand: int, capacity: Capacity, requested: int, tolerance: real) {
    (demand * 100) as real
      <= (1.0 + tolerance) * (capacity.requestPerPod * capacity.targetPercentage * requested) as real
  }

  /** The replicas for a demand, given whether a window covers now. */
  function Adjusted(demand: int, covered: bool, capacity: Capacity, requested: int, tolerance: real): (r: Result<int>)
    ensures r.Ok? && !covered ==> r.value >= requested
  {
    var needed := ResolveDemand(demand, capacity);
    if needed.Err? then Err
    else
      var replicas := if !covered && needed.value < requested then requested else needed.value;
      if replicas > requested && requested > 0 && tolerance > 0.0 && Tolerated(demand, capacity, requested, tolerance)
      then Ok(requested) else Ok(replicas)
  }

  function Recommendation(points: seq<Point>, lead: int, tolerance: real, capacity: Capacity, requested: int,
                          now: int): Result<int>
  {
    Adjusted(Demand(points, lead, now), Covered(points, now), capacity, requested, tolerance)
  }

  predicate ValidPolicy(leadSeconds: int, tolerance: real, requested: int) {
    requested >= 0 && 0 <= leadSeconds <= 3600 && 0.0 <= tolerance <= 0.2
  }

  /** An instant after now at which some window starts, ends or comes within the lead. */
  predicate Boundary(points: seq<Point>, lead: int, now: int, t: int) {
    t > now && exists i :: 0 <= i < |points| && (t == points[i].at || t == points[i].until || t == points[i].at - lead)
  }

  /** The first boundary, or none at all. */
  ghost predicate FirstBoundary(points: seq<Point>, lead: int, now: int, boundary: Option<int>) {
    match boundary
    case None => forall t :: !Boundary(points, lead, now, t)
    case Some(b) => Boundary(points, lead, now, b) && forall t :: Boundary(points, lead, now, t) ==> b <= t
  }

  /** Keeps the earlier of a boundary and another instant after now. */
  function Considered(boundary: Option<int>, t: int, now: int): Option<int> {
    if t > now && (boundary.None? || t < boundary.value) then Some(t) else boundary
  }

  /** The largest demand within the lead, whether a window covers now, and the first boundary. */
  method ScanPoints(points: seq<Point>, lead: int, now: int)
    returns (demand: int, currentKnown: bool, boundary: Option<int>)
    ensures demand == Demand(points, lead, now) && (currentKnown <==> Covered(points, now))
    ensures FirstBoundary(points, lead, now, boundary)
  {
    boundary, currentKnown, demand := None, false, 0;
    for i := 0 to |points|
      invariant demand == Demand(points[..i], lead, now)
      invariant currentKnown <==> Covered(points[..i], now)
      invariant FirstBoundary(points[..i], lead, now, boundary)
    {
      var p := points[i];
      var before := boundary;
      boundary := Considered(boundary, p.at, now);
      boundary := Considered(boundary, p.until, now);
      boundary := Considered(boundary, p.at - lead, now);
      if p.at <= now && now < p.until {
        currentKnown := true;
        if p.cpu > demand {
          demand := p.cpu;
        }
      }
      if p.at > now && p.at <= now + lead && p.cpu > demand {
        demand := p.cpu;
      }
      NextPoint(points, i, lead, now, before);
    }
    assert points[..|points|] == points;
  }

  lemma NextPoint(points: seq<Point>, i: nat, lead: int, now: int, before: Option<int>)
    requires i < |points| && FirstBoundary(points[..i], lead, now, before)
    ensures var p := points[i];
            && (Covered(points[..i + 1], now) <==> Covered(points[..i], now) || Active(p, now))
            && Demand(points[..i + 1], lead, now)
               == (var rest := Demand(points[..i], lead, now);
                   if (Active(p, now) || Impending(p, lead, now)) && p.cpu > rest then p.cpu else rest)
            && FirstBoundary(points[..i + 1], lead, now,
                             Considered(Considered(Considered(before, p.at, now), p.until, now), p.at - lead, now))
  {
    ConsiderPoint(points[..i], points[i], lead, now, before);
    CoveredByMore(points[..i], points[i], now);
    assert points[..i] + [points[i]] == points[..i + 1];
    assert points[..i + 1][..i] == points[..i];
  }

  method TimedWindowReplicas(points: seq<Point>, leadSeconds: int, tolerance: real, capacity: Capacity, requested: int,
                             now: int)
    returns (r: Result<int>, boundary: Option<int>)
    ensures r.Ok? ==> ValidTrajectory(points) && ValidPolicy(leadSeconds, tolerance, requested)
    ensures ValidTrajectory(points) && ValidPolicy(leadSeconds, tolerance, requested) ==>
      r == Recommendation(points, leadSeconds * SECOND, tolerance, capacity, requested, now)
    ensures r.Ok? ==> FirstBoundary(points, leadSeconds * SECOND, now, boundary)
  {
    var valid := ValidateForecastTrajectory(points);
    if !valid {
      return Err, None;
    }
    if requested < 0 || leadSeconds < 0 || leadSeconds > 3600 || tolerance < 0.0 || tolerance > 0.2 {
      return Err, None;
    }
    var lead := leadSeconds * SECOND;
    var demand, currentKnown;
    demand, currentKnown, boundary := ScanPoints(points, lead, now);
    var needed := ResolveDemand(demand, capacity);
    if needed.Err? {
      return Err, None;
    }
    var replicas := needed.value;
    if !currentKnown && replicas < requested {
      replicas := requested;
    }
    if replicas > requested && requested > 0 && tolerance > 0.0 && Tolerated(demand, capacity, requested, tolerance) {
      replicas := requested;
    }
    r := Ok(replicas);
  }

  lemma CoveredByMore(points: seq<Point>, p: Point, now: int)
    ensures Covered(points + [p], now) <==> Covered(points, now) || Active(p, now)
  {
    var more := points + [p];
    if Covered(points, now) {
      var i :| 0 <= i < |points| && Active(points[i], now);
      assert Active(more[i], now);
    }
    if Active(p, now) {
      assert Active(more[|points|], now);
    }
  }

  lemma BoundaryOfMore(points: seq<Point>, p: Point, lead: int, now: int, t: int)
    ensures Boundary(points + [p], lead, now, t)
       <==> Boundary(points, lead, now, t) || (t > now && (t == p.at || t == p.until || t == p.at - lead))
  {
    var more := points + [p];
    if Boundary(points, lead, now, t) {
      var i :| 0 <= i < |points| && (t == points[i].at || t == points[i].until || t == points[i].at - lead);
      assert more[i] == points[i];
    }
    assert more[|points|] == p;
  }

  lemma ConsiderPoint(points: seq<Point>, p: Point, lead: int, now: int, boundary: Option<int>)
    requires FirstBoundary(points, lead, now, boundary)
    ensures FirstBoundary(points + [p], lead, now,
              Considered(Considered(Considered(boundary, p.at, now), p.until, now), p.at - lead, now))
  {
    forall t ensures Boundary(points + [p], lead, now, t)
       <==> Boundary(points, lead, now, t) || (t > now && (t == p.at || t == p.until || t == p.at - lead))
    {
      BoundaryOfMore(points, p, lead, now, t);
    }
  }

  // ----- Soundness of the deadline -----

  lemma SameStatusBeforeBoundary(points: seq<Point>, lead: int, now: int, boundary: Option<int>, t: int, i: nat)
    requires lead >= 0 && FirstBoundary(points, lead, now, boundary)
    requires now <= t && (boundary.Some? ==> t < boundary.value) && i < |points|
    ensures Active(points[i], t) == Active(points[i], now)
    ensures Impending(points[i], lead, t) == Impending(points[i], lead, now)
  {
    var p := points[i];
    assert p.at > now ==> Boundary(points, lead, now, p.at);
    assert p.until > now ==> Boundary(points, lead, now, p.until);
    assert p.at - lead > now ==> Boundary(points, lead, now, p.at - lead);
  }

  lemma {:induction false} SameDemand(points: seq<Point>, lead: int, now: int, t: int)
    requires forall i :: 0 <= i < |points| ==>
               Active(points[i], t) == Active(points[i], now)
               && Impending(points[i], lead, t) == Impending(points[i], lead, now)
    ensures Demand(points, lead, t) == Demand(points, lead, now)
  {
    if |points| > 0 {
      SameDemand(points[..|points| - 1], lead, now, t);
    }
  }

  /** Until the returned deadline the recommendation cannot change. */
  lemma DeadlineIsSound(points: seq<Point>, lead: int, tolerance: real, capacity: Capacity, requested: int,
                        now: int, boundary: Option<int>, t: int)
    requires lead >= 0 && FirstBoundary(points, lead, now, boundary)
    requires now <= t && (boundary.Some? ==> t < boundary.value)
    ensures Recommendation(points, lead, tolerance, capacity, requested, t)
         == Recommendation(points, lead, tolerance, capacity, requested, now)
  {
    forall i | 0 <= i < |points|
      ensures Active(points[i], t) == Active(points[i], now)
           && Impending(points[i], lead, t) == Impending(points[i], lead, now)
    {
      SameStatusBeforeBoundary(points, lead, now, boundary, t, i);
    }
    SameDemand(points, lead, now, t);
  }

  // ----- Monotonicity in demand -----

  lemma ToleratedMonotone(low: int, high: int, capacity: Capacity, requested: int, tolerance: real)
    requires low <= high && Tolerated(high, capacity, requested, tolerance)
    ensures Tolerated(low, capacity, requested, tolerance)
  {
    assert (low * 100) as real <= (high * 100) as real;
  }

  /** More demand never lowers the recommendation. */
  lemma AdjustedMonotone(low: int, high: int, covered: bool, capacity: Capacity, requested: int, tolerance: real)
    requires low <= high && Adjusted(high, covered, capacity, requested, tolerance).Ok?
    ensures Adjusted(low, covered, capacity, requested, tolerance).Ok?
    ensures Adjusted(low, covered, capacity, requested, tolerance).value
         <= Adjusted(high, covered, capacity, requested, tolerance).value
  {
    ResolveMonotone(low, high, capacity);
    if Tolerated(high, capacity, requested, tolerance) {
      ToleratedMonotone(low, high, capacity, requested, tolerance);
    }
  }
}
