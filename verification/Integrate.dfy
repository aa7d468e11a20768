/**
  CPU accounting over cgroup counter windows: what an interval integrates,
  which instants the windows cover, and how long pods ran. Instants are
  nanoseconds since the zero time; rates are exact.
 */
module Integrate {
  import opened Basics

  datatype Window = Window(from: nat, to: nat, cpuSeconds: real)

  datatype Container = Container(
    id: string,
    startedAt: nat,
    finishedAt: Option<nat>,
    endUpperBound: Option<nat>,
    windows: seq<Window>)

  /** `matches`: in the requested namespace and selected by label. */
  datatype Pod = Pod(matches: bool, uid: string, createdAt: nat, containers: seq<Container>)

  /** `wellFormed`: the protocol version and node are right and no reason for absence is given. */
  datatype Snapshot = Snapshot(wellFormed: bool, collectedAt: nat, pods: seq<Pod>)

  datatype Observation = Observation(
    cpuSeconds: real,
    runningPodNanos: int,
    expectedNanos: int,
    coveredNanos: int,
    podCount: nat,
    inventory: seq<Pod>,
    inventoryComplete: bool,
    complete: bool)

  // ----- Sets of instants -----

  predicate Within(t: int, a: int, b: int) {
    a <= t < b
  }

  function Span(a: int, b: int): (s: set<int>)
    ensures forall t :: t in s <==> a <= t < b
  {
    set t: int | a <= t < b && Within(t, a, b)
  }

  lemma {:induction false} SpanSize(a: int, b: int)
    ensures |Span(a, b)| == if a < b then b - a else 0
    decreases b - a
  {
    if a < b {
      SpanSize(a, b - 1);
      assert Span(a, b) == Span(a, b - 1) + {b - 1};
    } else {
      assert Span(a, b) == {};
    }
  }

  lemma DisjointUnionSize(a: set<int>, b: set<int>)
    requires a !! b
    ensures |a + b| == |a| + |b|
  {
  }

  lemma {:induction false} SubsetSize(a: set<int>, b: set<int>)
    requires a <= b
    ensures |a| <= |b|
    ensures |a| == |b| ==> a == b
  {
    assert b == a + (b - a);
    DisjointUnionSize(a, b - a);
    if |b - a| == 0 {
      assert b - a == {};
    }
  }

  // ----- Interval union -----

  datatype Life = Life(from: int, to: int)

  function Union(lives: seq<Life>): (s: set<int>) {
    if |lives| == 0 then {} else Union(lives[..|lives| - 1]) + Span(lives[|lives| - 1].from, lives[|lives| - 1].to)
  }

  lemma {:induction false} UnionMembers(lives: seq<Life>, t: int)
    ensures t in Union(lives) <==> exists i :: 0 <= i < |lives| && lives[i].from <= t < lives[i].to
  {
    if |lives| > 0 {
      var n := |lives| - 1;
      UnionMembers(lives[..n], t);
      if t in Union(lives[..n]) {
        var i :| 0 <= i < n && lives[..n][i].from <= t < lives[..n][i].to;
        assert lives[i].from <= t < lives[i].to;
      } else {
        forall i | 0 <= i < n ensures !(lives[i].from <= t < lives[i].to) {
          assert lives[..n][i] == lives[i];
        }
      }
    }
  }

  predicate SortedByStart(lives: seq<Life>) {
    forall i, j :: 0 <= i < j < |lives| ==> lives[i].from <= lives[j].from
  }

  function InsertByStart(lives: seq<Life>, x: Life): (r: seq<Life>)
    ensures |r| == |lives| + 1
    ensures forall l :: l in r <==> l == x || l in lives
  {
    if |lives| == 0 || x.from >= lives[|lives| - 1].from then lives + [x]
    else
      assert lives == lives[..|lives| - 1] + [lives[|lives| - 1]];
      InsertByStart(lives[..|lives| - 1], x) + [lives[|lives| - 1]]
  }

  /** The library sort by start. */
  function SortByStart(lives: seq<Life>): (r: seq<Life>)
    ensures |r| == |lives|
    ensures forall l :: l in r <==> l in lives
  {
    if |lives| == 0 then []
    else
      assert lives == lives[..|lives| - 1] + [lives[|lives| - 1]];
      InsertByStart(SortByStart(lives[..|lives| - 1]), lives[|lives| - 1])
  }

  lemma {:induction false} InsertKeepsOrder(lives: seq<Life>, x: Life)
    requires SortedByStart(lives)
    ensures SortedByStart(InsertByStart(lives, x))
  {
    if |lives| > 0 && x.from < lives[|lives| - 1].from {
      var front, last := lives[..|lives| - 1], lives[|lives| - 1];
      InsertKeepsOrder(front, x);
      var r := InsertByStart(front, x);
      forall i | 0 <= i < |r| ensures r[i].from <= last.from {
        assert r[i] in r;
        if r[i] != x {
          var k :| 0 <= k < |front| && front[k] == r[i];
        }
      }
    }
  }

  lemma {:induction false} SortOrders(lives: seq<Life>)
    ensures SortedByStart(SortByStart(lives))
  {
    if |lives| > 0 {
      SortOrders(lives[..|lives| - 1]);
      InsertKeepsOrder(SortByStart(lives[..|lives| - 1]), lives[|lives| - 1]);
    }
  }

  lemma SameMembersSameUnion(a: seq<Life>, b: seq<Life>)
    requires forall l :: l in a <==> l in b
    ensures Union(a) == Union(b)
  {
    forall t ensures t in Union(a) <==> t in Union(b) {
      UnionMembers(a, t);
      UnionMembers(b, t);
      if t in Union(a) {
        var i :| 0 <= i < |a| && a[i].from <= t < a[i].to;
        assert a[i] in b;
        var j :| 0 <= j < |b| && b[j] == a[i];
        assert b[j].from <= t < b[j].to;
      }
      if t in Union(b) {
        var i :| 0 <= i < |b| && b[i].from <= t < b[i].to;
        assert b[i] in a;
        var j :| 0 <= j < |a| && a[j] == b[i];
        assert a[j].from <= t < a[j].to;
      }
    }
  }

  /** The sweep's state after some lifetimes: the last block is open, everything before it is counted. */
  ghost predicate Swept(done: set<int>, total: int, left: int, right: int) {
    && left < right && Span(left, right) <= done
    && (forall t :: t in done && t >= left ==> t < right)
    && |done| == total + (right - left)
  }

  lemma SweepGap(done: set<int>, total: int, left: int, right: int, life: Life)
    requires Swept(done, total, left, right) && right < life.from < life.to
    ensures Swept(done + Span(life.from, life.to), total + (right - left), life.from, life.to)
  {
    SpanSize(life.from, life.to);
    assert done !! Span(life.from, life.to);
  }

  lemma SweepJoin(done: set<int>, total: int, left: int, right: int, life: Life)
    requires Swept(done, total, left, right) && left <= life.from <= right && life.from < life.to
    ensures Swept(done + Span(life.from, life.to), total, left, Max(right, life.to))
  {
    var top := Max(right, life.to);
    SpanSize(right, top);
    assert done + Span(life.from, life.to) == done + Span(right, top);
    assert done !! Span(right, top);
  }

  ghost predicate Lifetimes(lives: seq<Life>) {
    |lives| > 0 && forall i :: 0 <= i < |lives| ==> lives[i].from < lives[i].to
  }

  /** The sweep over lifetimes in order of start. */
  method Sweep(sorted: seq<Life>) returns (total: int)
    requires Lifetimes(sorted) && SortedByStart(sorted)
    ensures total == |Union(sorted)|
  {
    var left, right := sorted[0].from, sorted[0].to;
    total := 0;
    assert sorted[..1][..0] == [] && Union(sorted[..1]) == Span(left, right);
    SpanSize(left, right);
    for i := 1 to |sorted|
      invariant Swept(Union(sorted[..i]), total, left, right)
      invariant left <= sorted[i - 1].from
    {
      var life := sorted[i];
      assert sorted[..i + 1][..i] == sorted[..i];
      assert Union(sorted[..i + 1]) == Union(sorted[..i]) + Span(life.from, life.to);
      if life.from > right {
        SweepGap(Union(sorted[..i]), total, left, right, life);
        total := total + (right - left);
        left, right := life.from, life.to;
      } else {
        SweepJoin(Union(sorted[..i]), total, left, right, life);
        if life.to > right {
          right := life.to;
        }
      }
    }
    assert sorted[..|sorted|] == sorted;
    total := total + (right - left);
  }

  /** The time some lifetime runs is the measure of the union of their instants. */
  method RunningTime(lives: seq<Life>) returns (total: int)
    requires Lifetimes(lives)
    ensures total == |Union(lives)|
  {
    var sorted := SortByStart(lives);
    SortOrders(lives);
    SameMembersSameUnion(sorted, lives);
    forall i | 0 <= i < |sorted| ensures sorted[i].from < sorted[i].to {
      assert sorted[i] in lives;
    }
    total := Sweep(sorted);
  }

  // ----- One container -----

  function Start(c: Container, from: int): int {
    Max(from, c.startedAt)
  }

  function End(c: Container, to: int): int {
    if c.finishedAt.Some? then Min(to, c.finishedAt.value)
    else if c.endUpperBound.Some? then Min(to, c.endUpperBound.value)
    else to
  }

  predicate Lives(c: Container, from: int, to: int) {
    Start(c, from) < End(c, to)
  }

  /** The epoch has an identity and a start. */
  predicate Known(c: Container) {
    c.id != "" && c.startedAt != 0
  }

  predicate WindowOk(windows: seq<Window>, i: nat, startedAt: nat)
    requires i < |windows|
  {
    var w := windows[i];
    && w.from < w.to <= w.from + 10 * SECOND && w.from >= startedAt && w.cpuSeconds >= 0.0
    && (i > 0 && windows[i - 1].to != 0 ==> w.from >= windows[i - 1].to)
  }

  predicate WindowsOk(windows: seq<Window>, startedAt: nat) {
    forall i :: 0 <= i < |windows| ==> WindowOk(windows, i, startedAt)
  }

  function Overlap(w: Window, a: int, b: int): (n: nat) {
    Max(0, Min(b, w.to) - Max(a, w.from))
  }

  /** The measured average rate applied to the overlap only. */
  function CpuOf(w: Window, a: int, b: int): real {
    if w.from < w.to then w.cpuSeconds * (Overlap(w, a, b) as real / (w.to - w.from) as real) else 0.0
  }

  function Cpu(windows: seq<Window>, a: int, b: int): real {
    if |windows| == 0 then 0.0 else Cpu(windows[..|windows| - 1], a, b) + CpuOf(windows[|windows| - 1], a, b)
  }

  function CoveredTime(windows: seq<Window>, a: int, b: int): int {
    if |windows| == 0 then 0 else CoveredTime(windows[..|windows| - 1], a, b) + Overlap(windows[|windows| - 1], a, b)
  }

  lemma NoOverlapNoCpu(w: Window, a: int, b: int)
    requires Overlap(w, a, b) == 0
    ensures CpuOf(w, a, b) == 0.0
  {
    if w.from < w.to {
      var d := (w.to - w.from) as real;
      assert Overlap(w, a, b) as real / d == 0.0;
    }
  }

  method IntegrateWindow(w: Window, start: int, end: int) returns (cpu: real, covered: int)
    requires w.from < w.to
    ensures cpu == CpuOf(w, start, end) && covered == Overlap(w, start, end)
  {
    var left, right := Max(start, w.from), Min(end, w.to);
    if right > left {
      cpu := w.cpuSeconds * ((right - left) as real / (w.to - w.from) as real);
      covered := right - left;
    } else {
      NoOverlapNoCpu(w, start, end);
      cpu, covered := 0.0, 0;
    }
  }

  method IntegrateContainer(c: Container, start: int, end: int) returns (r: Result<(real, int)>)
    ensures r.Ok? <==> WindowsOk(c.windows, c.startedAt)
    ensures r.Ok? ==> r.value == (Cpu(c.windows, start, end), CoveredTime(c.windows, start, end))
  {
    var cpu, covered := 0.0, 0;
    var previousTo := 0;
    for i := 0 to |c.windows|
      invariant forall k :: 0 <= k < i ==> WindowOk(c.windows, k, c.startedAt)
      invariant previousTo == if i == 0 then 0 else c.windows[i - 1].to
      invariant cpu == Cpu(c.windows[..i], start, end) && covered == CoveredTime(c.windows[..i], start, end)
    {
      var w := c.windows[i];
      if w.to <= w.from || w.to - w.from > 10 * SECOND || w.from < c.startedAt
         || (previousTo != 0 && w.from < previousTo) || w.cpuSeconds < 0.0 {
        assert !WindowOk(c.windows, i, c.startedAt);
        return Err;
      }
      previousTo := w.to;
      assert c.windows[..i + 1][..i] == c.windows[..i];
      var share, overlap := IntegrateWindow(w, start, end);
      cpu, covered := cpu + share, covered + overlap;
    }
    assert c.windows[..|c.windows|] == c.windows;
    return Ok((cpu, covered));
  }

  // ----- Coverage as a set of instants -----

  function CoverSet(windows: seq<Window>, a: int, b: int): set<int> {
    if |windows| == 0 then {}
    else CoverSet(windows[..|windows| - 1], a, b)
         + Span(Max(a, windows[|windows| - 1].from), Min(b, windows[|windows| - 1].to))
  }

  lemma {:induction false} CoverSetFacts(windows: seq<Window>, startedAt: nat, a: int, b: int)
    requires WindowsOk(windows, startedAt)
    ensures |CoverSet(windows, a, b)| == CoveredTime(windows, a, b)
  {
    if |windows| > 0 {
      var n := |windows| - 1;
      var front, w := windows[..n], windows[n];
      FrontWindowsOk(windows, startedAt);
      CoverSetFacts(front, startedAt, a, b);
      SpanSize(Max(a, w.from), Min(b, w.to));
      forall t | t in CoverSet(front, a, b) ensures t < w.from {
        CoverSetEnds(front, startedAt, a, b, t);
        assert WindowOk(windows, n, startedAt) && WindowOk(windows, n - 1, startedAt);
      }
      DisjointUnionSize(CoverSet(front, a, b), Span(Max(a, w.from), Min(b, w.to)));
    }
  }

  lemma FrontWindowsOk(windows: seq<Window>, startedAt: nat)
    requires WindowsOk(windows, startedAt) && |windows| > 0
    ensures WindowsOk(windows[..|windows| - 1], startedAt)
  {
    var front := windows[..|windows| - 1];
    forall i | 0 <= i < |front| ensures WindowOk(front, i, startedAt) {
      assert WindowOk(windows, i, startedAt);
    }
  }

  /** Nothing is covered outside the interval or after the last window. */
  lemma {:induction false} CoverSetEnds(windows: seq<Window>, startedAt: nat, a: int, b: int, t: int)
    requires WindowsOk(windows, startedAt) && t in CoverSet(windows, a, b)
    ensures a <= t < b && |windows| > 0 && t < windows[|windows| - 1].to
  {
    var n := |windows| - 1;
    if t in CoverSet(windows[..n], a, b) {
      FrontWindowsOk(windows, startedAt);
      CoverSetEnds(windows[..n], startedAt, a, b, t);
      assert WindowOk(windows, n, startedAt) && WindowOk(windows, n - 1, startedAt);
    }
  }

  lemma {:induction false} CoverSetMember(windows: seq<Window>, a: int, b: int, t: int)
    requires t in CoverSet(windows, a, b)
    ensures exists i :: 0 <= i < |windows| && windows[i].from <= t < windows[i].to
  {
    var n := |windows| - 1;
    if t in CoverSet(windows[..n], a, b) {
      CoverSetMember(windows[..n], a, b, t);
      var i :| 0 <= i < n && windows[..n][i].from <= t < windows[..n][i].to;
      assert windows[i].from <= t < windows[i].to;
    } else {
      assert windows[n].from <= t < windows[n].to;
    }
  }

  lemma {:induction false} CoverSetContains(windows: seq<Window>, a: int, b: int, t: int, i: nat)
    requires i < |windows| && windows[i].from <= t < windows[i].to && a <= t < b
    ensures t in CoverSet(windows, a, b)
  {
    var n := |windows| - 1;
    if i < n {
      CoverSetContains(windows[..n], a, b, t, i);
    }
  }

  /** Every instant of the interval lies in some counter window. */
  ghost predicate FullyCovered(windows: seq<Window>, a: int, b: int) {
    forall t :: a <= t < b ==> CoveredAt(windows, t)
  }

  ghost predicate CoveredAt(windows: seq<Window>, t: int) {
    exists i :: 0 <= i < |windows| && windows[i].from <= t < windows[i].to
  }

  /** The duration test is exact: it passes if and only if no instant is missing. */
  lemma CoverageIsExact(windows: seq<Window>, startedAt: nat, a: int, b: int)
    requires WindowsOk(windows, startedAt) && a < b
    ensures CoveredTime(windows, a, b) >= b - a <==> FullyCovered(windows, a, b)
  {
    CoverSetFacts(windows, startedAt, a, b);
    SpanSize(a, b);
    forall t | t in CoverSet(windows, a, b) ensures t in Span(a, b) {
      CoverSetEnds(windows, startedAt, a, b, t);
    }
    SubsetSize(CoverSet(windows, a, b), Span(a, b));
    if CoveredTime(windows, a, b) >= b - a {
      forall t | a <= t < b ensures CoveredAt(windows, t) {
        CoverSetMember(windows, a, b, t);
      }
    }
    if FullyCovered(windows, a, b) {
      forall t | t in Span(a, b) ensures t in CoverSet(windows, a, b) {
        assert CoveredAt(windows, t);
        var i :| 0 <= i < |windows| && windows[i].from <= t < windows[i].to;
        CoverSetContains(windows, a, b, t, i);
      }
      assert CoverSet(windows, a, b) == Span(a, b);
    }
  }

  // ----- One pod -----

  predicate Counted(c: Container, from: int, to: int) {
    Lives(c, from, to) && Known(c)
  }

  datatype PodTotals = PodTotals(
    cpuSeconds: real,
    lives: seq<Life>,
    expected: int,
    covered: int,
    complete: bool,
    inventoryComplete: bool)

  function AddContainer(acc: PodTotals, c: Container, from: int, to: int): PodTotals {
    if !Lives(c, from, to) then acc
    else if !Known(c) then acc.(complete := false, inventoryComplete := false)
    else
      var a, b := Start(c, from), End(c, to);
      acc.(cpuSeconds := acc.cpuSeconds + Cpu(c.windows, a, b),
           lives := acc.lives + [Life(a, b)],
           expected := acc.expected + (b - a),
           covered := acc.covered + CoveredTime(c.windows, a, b),
           complete := acc.complete && CoveredTime(c.windows, a, b) >= b - a)
  }

  function PodSum(containers: seq<Container>, from: int, to: int): PodTotals {
    if |containers| == 0 then PodTotals(0.0, [], 0, 0, true, true)
    else AddContainer(PodSum(containers[..|containers| - 1], from, to), containers[|containers| - 1], from, to)
  }

  predicate ContainersOk(containers: seq<Container>, from: int, to: int) {
    forall i :: 0 <= i < |containers| && Counted(containers[i], from, to) ==>
      WindowsOk(containers[i].windows, containers[i].startedAt)
  }

  /** One container's share of the pod loop. */
  method VisitContainer(acc: PodTotals, c: Container, from: int, to: int) returns (r: Result<PodTotals>)
    ensures r.Ok? <==> (Counted(c, from, to) ==> WindowsOk(c.windows, c.startedAt))
    ensures r.Ok? ==> r.value == AddContainer(acc, c, from, to)
  {
    var start, end := Max(from, c.startedAt), to;
    if c.finishedAt.Some? {
      end := Min(end, c.finishedAt.value);
    } else if c.endUpperBound.Some? {
      end := Min(end, c.endUpperBound.value);
    }
    if end <= start {
      return Ok(acc);
    }
    if c.id == "" || c.startedAt == 0 {
      return Ok(acc.(inventoryComplete := false, complete := false));
    }
    var part := IntegrateContainer(c, start, end);
    if part.Err? {
      return Err;
    }
    var next := acc.(expected := acc.expected + (end - start), lives := acc.lives + [Life(start, end)],
                     cpuSeconds := acc.cpuSeconds + part.value.0, covered := acc.covered + part.value.1);
    if part.value.1 < end - start {
      next := next.(complete := false);
    }
    return Ok(next);
  }

  method IntegratePod(containers: seq<Container>, from: int, to: int) returns (r: Result<PodTotals>)
    ensures r.Ok? <==> ContainersOk(containers, from, to)
    ensures r.Ok? ==> r.value == PodSum(containers, from, to)
  {
    var acc := PodTotals(0.0, [], 0, 0, true, true);
    for i := 0 to |containers|
      invariant forall k :: 0 <= k < i && Counted(containers[k], from, to) ==>
        WindowsOk(containers[k].windows, containers[k].startedAt)
      invariant acc == PodSum(containers[..i], from, to)
    {
      var next := VisitContainer(acc, containers[i], from, to);
      if next.Err? {
        return Err;
      }
      assert containers[..i + 1][..i] == containers[..i];
      acc := next.value;
    }
    assert containers[..|containers|] == containers;
    return Ok(acc);
  }

  // ----- The workload -----

  /** A pod created at or after the end of the interval only adds to the inventory. */
  predicate Considered(pod: Pod, to: int) {
    pod.createdAt == 0 || pod.createdAt < to
  }

  function AddPod(obs: Observation, pod: Pod, from: int, to: int): Observation {
    if !pod.matches then obs
    else
      var seen := obs.(inventory := obs.inventory + [pod]);
      if !Considered(pod, to) then seen
      else if |pod.containers| == 0 then seen.(inventoryComplete := false, complete := false)
      else
        AddTotals(seen, PodSum(pod.containers, from, to))
  }

  const NOTHING := Observation(0.0, 0, 0, 0, 0, [], true, true)

  function Accumulate(pods: seq<Pod>, from: int, to: int): Observation {
    if |pods| == 0 then NOTHING
    else AddPod(Accumulate(pods[..|pods| - 1], from, to), pods[|pods| - 1], from, to)
  }

  function AllPods(snapshots: seq<Snapshot>): seq<Pod> {
    if |snapshots| == 0 then [] else AllPods(snapshots[..|snapshots| - 1]) + snapshots[|snapshots| - 1].pods
  }

  predicate IntervalOk(from: int, to: int, received: int) {
    from != 0 && from < to <= from + 60 * SECOND && to <= received + SECOND
  }

  predicate SnapshotOk(s: Snapshot, received: int) {
    s.wellFormed && s.collectedAt != 0 && s.collectedAt <= received + SECOND && received - s.collectedAt <= 10 * SECOND
  }

  predicate PodOk(pods: seq<Pod>, i: nat, from: int, to: int)
    requires i < |pods|
  {
    pods[i].matches ==>
      && pods[i].uid != ""
      && (forall j :: 0 <= j < i && pods[j].matches ==> pods[j].uid != pods[i].uid)
      && (Considered(pods[i], to) ==> ContainersOk(pods[i].containers, from, to))
  }

  predicate PodsOk(pods: seq<Pod>, from: int, to: int) {
    forall i :: 0 <= i < |pods| ==> PodOk(pods, i, from, to)
  }

  /** An observation is complete only when something ran. */
  function Finish(obs: Observation): Observation {
    obs.(complete := obs.complete && obs.expectedNanos > 0)
  }

  function AddMeasures(obs: Observation, sum: PodTotals): Observation {
    obs.(
      cpuSeconds := obs.cpuSeconds + sum.cpuSeconds,
      expectedNanos := obs.expectedNanos + sum.expected,
      coveredNanos := obs.coveredNanos + sum.covered,
      complete := obs.complete && sum.complete,
      inventoryComplete := obs.inventoryComplete && sum.inventoryComplete)
  }

  /** A pod that ran counts once, for the instants at which any of its containers ran. */
  function AddTotals(obs: Observation, sum: PodTotals): Observation {
    var counted := AddMeasures(obs, sum);
    if |sum.lives| == 0 then counted
    else counted.(podCount := counted.podCount + 1,
                  runningPodNanos := counted.runningPodNanos + |Union(sum.lives)|)
  }

  predicate Nonempty(lives: seq<Life>) {
    forall i :: 0 <= i < |lives| ==> lives[i].from < lives[i].to
  }

  lemma {:induction false} LivesAreNonempty(containers: seq<Container>, from: int, to: int)
    ensures Nonempty(PodSum(containers, from, to).lives)
  {
    if |containers| > 0 {
      var front, last := containers[..|containers| - 1], containers[|containers| - 1];
      LivesAreNonempty(front, from, to);
      assert PodSum(containers, from, to) == AddContainer(PodSum(front, from, to), last, from, to);
    }
  }

  method CountPod(obs: Observation, sum: PodTotals) returns (next: Observation)
    requires Nonempty(sum.lives)
    ensures next == AddTotals(obs, sum)
  {
    next := AddMeasures(obs, sum);
    if |sum.lives| > 0 {
      var running := RunningTime(sum.lives);
      next := next.(podCount := next.podCount + 1, runningPodNanos := next.runningPodNanos + running);
    }
  }

  /** What a matching pod must satisfy after the pods with the seen identifiers. */
  predicate Acceptable(pod: Pod, seen: set<string>, from: int, to: int) {
    && pod.uid != "" && pod.uid !in seen
    && (Considered(pod, to) ==> ContainersOk(pod.containers, from, to))
  }

  /** One pod's share of the workload loop. */
  method VisitPod(obs: Observation, seen: set<string>, pod: Pod, from: int, to: int)
    returns (r: Result<Observation>, seen': set<string>)
    ensures r.Ok? <==> (pod.matches ==> Acceptable(pod, seen, from, to))
    ensures r.Ok? ==> r.value == AddPod(obs, pod, from, to)
    ensures r.Ok? ==> seen' == if pod.matches then seen + {pod.uid} else seen
  {
    seen' := seen;
    if !pod.matches {
      return Ok(obs), seen;
    }
    if pod.uid == "" || pod.uid in seen {
      return Err, seen;
    }
    seen' := seen + {pod.uid};
    var next := obs.(inventory := obs.inventory + [pod]);
    if pod.createdAt != 0 && pod.createdAt >= to {
      return Ok(next), seen';
    }
    if |pod.containers| == 0 {
      return Ok(next.(inventoryComplete := false, complete := false)), seen';
    }
    var part := IntegratePod(pod.containers, from, to);
    if part.Err? {
      return Err, seen';
    }
    LivesAreNonempty(pod.containers, from, to);
    next := CountPod(next, part.value);
    return Ok(next), seen';
  }

  ghost predicate SeenIs(seen: set<string>, pods: seq<Pod>) {
    forall uid :: uid in seen <==> HasUid(pods, uid)
  }

  /** Some matching pod has the identifier. */
  ghost predicate HasUid(pods: seq<Pod>, uid: string) {
    exists j :: 0 <= j < |pods| && pods[j].matches && pods[j].uid == uid
  }

  lemma HasUidGrows(pods: seq<Pod>, pod: Pod, uid: string)
    ensures HasUid(pods + [pod], uid) <==> HasUid(pods, uid) || (pod.matches && pod.uid == uid)
  {
    var more := pods + [pod];
    if HasUid(pods, uid) {
      var j :| 0 <= j < |pods| && pods[j].matches && pods[j].uid == uid;
      assert more[j] == pods[j];
    }
    assert more[|pods|] == pod;
  }

  lemma SeenGrows(seen: set<string>, pods: seq<Pod>, pod: Pod)
    requires SeenIs(seen, pods)
    ensures SeenIs(if pod.matches then seen + {pod.uid} else seen, pods + [pod])
  {
    forall uid ensures uid in (if pod.matches then seen + {pod.uid} else seen) <==> HasUid(pods + [pod], uid) {
      HasUidGrows(pods, pod, uid);
    }
  }

  lemma OneMorePodOk(pods: seq<Pod>, pod: Pod, seen: set<string>, from: int, to: int)
    requires PodsOk(pods, from, to) && SeenIs(seen, pods)
    ensures PodsOk(pods + [pod], from, to)
       <==> (pod.matches ==> Acceptable(pod, seen, from, to))
  {
    var more := pods + [pod];
    var n := |pods|;
    assert more[n] == pod;
    forall i | 0 <= i < n ensures PodOk(more, i, from, to) {
      assert PodOk(pods, i, from, to);
    }
    if pod.matches && pod.uid in seen {
      assert HasUid(pods, pod.uid);
      var j :| 0 <= j < n && pods[j].matches && pods[j].uid == pod.uid;
      assert more[j] == pods[j];
      assert !PodOk(more, n, from, to);
    }
    if pod.matches && pod.uid !in seen {
      forall j | 0 <= j < n && more[j].matches ensures more[j].uid != pod.uid {
        assert more[j] == pods[j];
        assert !HasUid(pods, pod.uid);
      }
    }
    assert PodsOk(more, from, to) <==> PodOk(more, n, from, to);
  }

  lemma PrefixPodsOk(pods: seq<Pod>, more: seq<Pod>, from: int, to: int)
    requires PodsOk(pods + more, from, to)
    ensures PodsOk(pods, from, to)
  {
    forall i | 0 <= i < |pods| ensures PodOk(pods, i, from, to) {
      assert PodOk(pods + more, i, from, to);
      assert forall j :: 0 <= j <= i ==> (pods + more)[j] == pods[j];
    }
  }

  /** The totals and identifiers of the pods visited so far, all of them acceptable. */
  ghost predicate Visited(obs: Observation, seen: set<string>, pods: seq<Pod>, from: int, to: int) {
    PodsOk(pods, from, to) && SeenIs(seen, pods) && obs == Accumulate(pods, from, to)
  }

  lemma VisitedOneMore(obs: Observation, seen: set<string>, pods: seq<Pod>, pod: Pod, from: int, to: int)
    requires Visited(obs, seen, pods, from, to) && (pod.matches ==> Acceptable(pod, seen, from, to))
    ensures Visited(AddPod(obs, pod, from, to), if pod.matches then seen + {pod.uid} else seen, pods + [pod], from, to)
  {
    OneMorePodOk(pods, pod, seen, from, to);
    SeenGrows(seen, pods, pod);
    assert (pods + [pod])[..|pods|] == pods;
  }

  lemma RejectedPod(obs: Observation, seen: set<string>, pods: seq<Pod>, pod: Pod, rest: seq<Pod>, from: int, to: int)
    requires Visited(obs, seen, pods, from, to) && pod.matches && !Acceptable(pod, seen, from, to)
    ensures !PodsOk(pods + [pod] + rest, from, to)
  {
    OneMorePodOk(pods, pod, seen, from, to);
    if PodsOk(pods + [pod] + rest, from, to) {
      PrefixPodsOk(pods + [pod], rest, from, to);
    }
  }

  method VisitPods(obs: Observation, seen: set<string>, ghost before: seq<Pod>, pods: seq<Pod>, from: int, to: int)
    returns (r: Result<Observation>, seen': set<string>)
    requires Visited(obs, seen, before, from, to)
    ensures r.Ok? <==> PodsOk(before + pods, from, to)
    ensures r.Ok? ==> Visited(r.value, seen', before + pods, from, to)
  {
    var acc := obs;
    seen' := seen;
    assert before + pods[..0] == before;
    for j := 0 to |pods|
      invariant Visited(acc, seen', before + pods[..j], from, to)
    {
      ghost var done := before + pods[..j];
      var next, visited := VisitPod(acc, seen', pods[j], from, to);
      if next.Err? {
        RejectedPod(acc, seen', done, pods[j], pods[j + 1..], from, to);
        assert done + [pods[j]] + pods[j + 1..] == before + pods;
        return Err, visited;
      }
      VisitedOneMore(acc, seen', done, pods[j], from, to);
      assert before + pods[..j + 1] == done + [pods[j]];
      acc, seen' := next.value, visited;
    }
    assert pods[..|pods|] == pods;
    return Ok(acc), seen';
  }

  method IntegrateWorkload(snapshots: seq<Snapshot>, from: int, to: int, received: int) returns (r: Result<Observation>)
    ensures r.Ok? <==> IntervalOk(from, to, received)
                       && (forall i :: 0 <= i < |snapshots| ==> SnapshotOk(snapshots[i], received))
                       && PodsOk(AllPods(snapshots), from, to)
    ensures r.Ok? ==> r.value == Finish(Accumulate(AllPods(snapshots), from, to))
  {
    if from == 0 || to <= from || to - from > 60 * SECOND || to > received + SECOND {
      return Err;
    }
    var obs := NOTHING;
    var seen: set<string> := {};
    for i := 0 to |snapshots|
      invariant forall k :: 0 <= k < i ==> SnapshotOk(snapshots[k], received)
      invariant Visited(obs, seen, AllPods(snapshots[..i]), from, to)
    {
      var s := snapshots[i];
      if !s.wellFormed || s.collectedAt == 0 || s.collectedAt > received + SECOND
         || received - s.collectedAt > 10 * SECOND {
        return Err;
      }
      ghost var before := AllPods(snapshots[..i]);
      assert snapshots[..i + 1][..i] == snapshots[..i];
      var next, visited := VisitPods(obs, seen, before, s.pods, from, to);
      if next.Err? {
        AllPodsPrefix(snapshots, i + 1);
        if PodsOk(AllPods(snapshots), from, to) {
          var rest :| AllPods(snapshots) == AllPods(snapshots[..i + 1]) + rest;
          PrefixPodsOk(AllPods(snapshots[..i + 1]), rest, from, to);
        }
        return Err;
      }
      obs, seen := next.value, visited;
    }
    assert snapshots[..|snapshots|] == snapshots;
    return Ok(Finish(obs));
  }

  lemma {:induction false} AllPodsPrefix(snapshots: seq<Snapshot>, k: nat)
    requires k <= |snapshots|
    ensures exists rest :: AllPods(snapshots) == AllPods(snapshots[..k]) + rest
    decreases |snapshots|
  {
    if k == |snapshots| {
      assert snapshots[..k] == snapshots;
      assert AllPods(snapshots) == AllPods(snapshots[..k]) + [];
    } else {
      var front := snapshots[..|snapshots| - 1];
      AllPodsPrefix(front, k);
      assert front[..k] == snapshots[..k];
      var rest :| AllPods(front) == AllPods(snapshots[..k]) + rest;
      assert AllPods(snapshots) == AllPods(snapshots[..k]) + (rest + snapshots[|snapshots| - 1].pods);
    }
  }
}
