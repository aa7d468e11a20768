/**
  What the accounting promises: completeness is exact, running time is counted
  in instants, and CPU is additive over adjacent intervals.
 */
module IntegrateTheorems {
  import opened Basics
  import opened Integrate

  // ----- Completeness -----

  /** The container's whole life within the interval was measured. */
  ghost predicate Measured(c: Container, from: int, to: int) {
    Lives(c, from, to) ==> Known(c) && FullyCovered(c.windows, Start(c, from), End(c, to))
  }

  ghost predicate AllMeasured(containers: seq<Container>, from: int, to: int) {
    forall i :: 0 <= i < |containers| ==> Measured(containers[i], from, to)
  }

  ghost predicate AnyCounted(containers: seq<Container>, from: int, to: int) {
    exists i :: 0 <= i < |containers| && Counted(containers[i], from, to)
  }

  lemma {:induction false} PodIsComplete(containers: seq<Container>, from: int, to: int)
    requires ContainersOk(containers, from, to)
    ensures PodSum(containers, from, to).complete <==> AllMeasured(containers, from, to)
    ensures PodSum(containers, from, to).expected >= 0
    ensures PodSum(containers, from, to).expected > 0 <==> AnyCounted(containers, from, to)
  {
    if |containers| > 0 {
      var n := |containers| - 1;
      var front, last := containers[..n], containers[n];
      assert forall i :: 0 <= i < n ==> front[i] == containers[i];
      PodIsComplete(front, from, to);
      if AnyCounted(front, from, to) {
        var i :| 0 <= i < n && Counted(front[i], from, to);
        assert Counted(containers[i], from, to);
      }
      if Counted(last, from, to) {
        CoverageIsExact(last.windows, last.startedAt, Start(last, from), End(last, to));
      }
      assert AllMeasured(containers, from, to) <==> AllMeasured(front, from, to) && Measured(last, from, to);
    }
  }

  predicate Relevant(pod: Pod, to: int) {
    pod.matches && Considered(pod, to)
  }

  /** Every pod that could have run in the interval is inventoried and wholly measured. */
  ghost predicate WorkloadMeasured(pods: seq<Pod>, from: int, to: int) {
    forall i :: 0 <= i < |pods| && Relevant(pods[i], to) ==>
      |pods[i].containers| > 0 && AllMeasured(pods[i].containers, from, to)
  }

  ghost predicate SomethingRan(pods: seq<Pod>, from: int, to: int) {
    exists i :: 0 <= i < |pods| && Relevant(pods[i], to) && AnyCounted(pods[i].containers, from, to)
  }

  lemma PodStepIsComplete(obs: Observation, pod: Pod, from: int, to: int)
    requires Relevant(pod, to) ==> ContainersOk(pod.containers, from, to)
    requires obs.expectedNanos >= 0
    ensures var next := AddPod(obs, pod, from, to);
            && (next.complete <==>
                  obs.complete && (Relevant(pod, to) ==> |pod.containers| > 0 && AllMeasured(pod.containers, from, to)))
            && next.expectedNanos >= 0
            && (next.expectedNanos > 0 <==>
                  obs.expectedNanos > 0 || (Relevant(pod, to) && AnyCounted(pod.containers, from, to)))
  {
    if Relevant(pod, to) {
      PodIsComplete(pod.containers, from, to);
    }
  }

  lemma {:induction false} AccumulationIsComplete(pods: seq<Pod>, from: int, to: int)
    requires PodsOk(pods, from, to)
    ensures Accumulate(pods, from, to).complete <==> WorkloadMeasured(pods, from, to)
    ensures Accumulate(pods, from, to).expectedNanos >= 0
    ensures Accumulate(pods, from, to).expectedNanos > 0 <==> SomethingRan(pods, from, to)
  {
    if |pods| > 0 {
      var n := |pods| - 1;
      var front, last := pods[..n], pods[n];
      assert pods == front + [last];
      PrefixPodsOk(front, [last], from, to);
      AccumulationIsComplete(front, from, to);
      assert PodOk(pods, n, from, to);
      PodStepIsComplete(Accumulate(front, from, to), last, from, to);
      assert forall i :: 0 <= i < n ==> front[i] == pods[i];
      if SomethingRan(front, from, to) {
        var i :| 0 <= i < n && Relevant(front[i], to) && AnyCounted(front[i].containers, from, to);
        assert Relevant(pods[i], to);
      }
    }
  }

  /** An observation is complete if and only if something ran and no running instant went unmeasured. */
  lemma CompleteIsExact(pods: seq<Pod>, from: int, to: int)
    requires PodsOk(pods, from, to)
    ensures Finish(Accumulate(pods, from, to)).complete
       <==> SomethingRan(pods, from, to) && WorkloadMeasured(pods, from, to)
  {
    AccumulationIsComplete(pods, from, to);
  }

  // ----- Running time -----

  ghost predicate RunsAt(containers: seq<Container>, from: int, to: int, t: int) {
    exists i :: 0 <= i < |containers| && Known(containers[i])
      && Start(containers[i], from) <= t < End(containers[i], to)
  }

  /** The instants of the interval at which some known container of the pod was alive. */
  ghost function RunningInstants(containers: seq<Container>, from: int, to: int): set<int> {
    set t | t in Span(from, to) && RunsAt(containers, from, to, t)
  }

  lemma {:induction false} LivesAreRunningInstants(containers: seq<Container>, from: int, to: int, t: int)
    ensures t in Union(PodSum(containers, from, to).lives) <==> RunsAt(containers, from, to, t)
  {
    if |containers| > 0 {
      var n := |containers| - 1;
      var front, last := containers[..n], containers[n];
      LivesAreRunningInstants(front, from, to, t);
      RunsAtLast(containers, from, to, t);
      if Counted(last, from, to) {
        UnionAppend(PodSum(front, from, to).lives, Life(Start(last, from), End(last, to)), t);
      }
    }
  }

  lemma UnionAppend(lives: seq<Life>, life: Life, t: int)
    ensures t in Union(lives + [life]) <==> t in Union(lives) || life.from <= t < life.to
  {
    assert (lives + [life])[..|lives|] == lives;
  }

  lemma RunsAtLast(containers: seq<Container>, from: int, to: int, t: int)
    requires |containers| > 0
    ensures var last := containers[|containers| - 1];
            RunsAt(containers, from, to, t)
            <==> RunsAt(containers[..|containers| - 1], from, to, t)
                 || (Known(last) && Start(last, from) <= t < End(last, to))
  {
    var n := |containers| - 1;
    var front := containers[..n];
    assert forall i :: 0 <= i < n ==> front[i] == containers[i];
    if RunsAt(front, from, to, t) {
      var i :| 0 <= i < n && Known(front[i]) && Start(front[i], from) <= t < End(front[i], to);
      assert Known(containers[i]) && Start(containers[i], from) <= t < End(containers[i], to);
    }
  }

  lemma RunningInstantsCounted(containers: seq<Container>, from: int, to: int)
    ensures Union(PodSum(containers, from, to).lives) == RunningInstants(containers, from, to)
  {
    forall t ensures t in Union(PodSum(containers, from, to).lives) <==> t in RunningInstants(containers, from, to) {
      LivesAreRunningInstants(containers, from, to, t);
    }
  }

  ghost function TotalRunning(pods: seq<Pod>, from: int, to: int): nat {
    if |pods| == 0 then 0
    else TotalRunning(pods[..|pods| - 1], from, to)
         + (if Relevant(pods[|pods| - 1], to) then |RunningInstants(pods[|pods| - 1].containers, from, to)| else 0)
  }

  /** Overlapping containers are not counted twice and restart gaps are not counted at all. */
  lemma {:induction false} RunningTimeCountsInstants(pods: seq<Pod>, from: int, to: int)
    ensures Accumulate(pods, from, to).runningPodNanos == TotalRunning(pods, from, to)
  {
    if |pods| > 0 {
      var front, last := pods[..|pods| - 1], pods[|pods| - 1];
      RunningTimeCountsInstants(front, from, to);
      RunningInstantsCounted(last.containers, from, to);
    }
  }

  // ----- Additivity -----

  function ContainerCpu(c: Container, from: int, to: int): real {
    if Counted(c, from, to) then Cpu(c.windows, Start(c, from), End(c, to)) else 0.0
  }

  function ContainersCpu(containers: seq<Container>, from: int, to: int): real {
    if |containers| == 0 then 0.0
    else ContainersCpu(containers[..|containers| - 1], from, to) + ContainerCpu(containers[|containers| - 1], from, to)
  }

  lemma {:induction false} PodCpu(containers: seq<Container>, from: int, to: int)
    ensures PodSum(containers, from, to).cpuSeconds == ContainersCpu(containers, from, to)
  {
    if |containers| > 0 {
      PodCpu(containers[..|containers| - 1], from, to);
    }
  }

  lemma SharesAdd(total: real, x: int, y: int, d: int)
    requires d > 0
    ensures total * (x as real / d as real) + total * (y as real / d as real) == total * ((x + y) as real / d as real)
  {
    var dd := d as real;
    assert x as real / dd + y as real / dd == (x + y) as real / dd;
  }

  lemma WindowAdds(w: Window, a: int, b: int, c: int)
    requires a <= b <= c
    ensures CpuOf(w, a, b) + CpuOf(w, b, c) == CpuOf(w, a, c)
  {
    if w.from < w.to {
      assert Overlap(w, a, b) + Overlap(w, b, c) == Overlap(w, a, c);
      SharesAdd(w.cpuSeconds, Overlap(w, a, b), Overlap(w, b, c), w.to - w.from);
    }
  }

  lemma {:induction false} WindowsAdd(windows: seq<Window>, a: int, b: int, c: int)
    requires a <= b <= c
    ensures Cpu(windows, a, b) + Cpu(windows, b, c) == Cpu(windows, a, c)
  {
    if |windows| > 0 {
      WindowsAdd(windows[..|windows| - 1], a, b, c);
      WindowAdds(windows[|windows| - 1], a, b, c);
    }
  }

  lemma ContainerAdds(k: Container, a: int, b: int, c: int)
    requires a <= b <= c
    ensures ContainerCpu(k, a, b) + ContainerCpu(k, b, c) == ContainerCpu(k, a, c)
  {
    if Counted(k, a, b) && Counted(k, b, c) {
      WindowsAdd(k.windows, Start(k, a), b, End(k, c));
    }
  }

  lemma {:induction false} ContainersAdd(containers: seq<Container>, a: int, b: int, c: int)
    requires a <= b <= c
    ensures ContainersCpu(containers, a, b) + ContainersCpu(containers, b, c) == ContainersCpu(containers, a, c)
  {
    if |containers| > 0 {
      ContainersAdd(containers[..|containers| - 1], a, b, c);
      ContainerAdds(containers[|containers| - 1], a, b, c);
    }
  }

  /** CPU measured before b for pods whose creation time is in [b, c). */
  function Premature(pods: seq<Pod>, a: int, b: int, c: int): real {
    if |pods| == 0 then 0.0
    else
      var pod := pods[|pods| - 1];
      Premature(pods[..|pods| - 1], a, b, c)
      + (if Relevant(pod, c) && !Relevant(pod, b) then ContainersCpu(pod.containers, a, b) else 0.0)
  }

  lemma PodStepCpu(obs: Observation, pod: Pod, from: int, to: int)
    ensures AddPod(obs, pod, from, to).cpuSeconds
         == obs.cpuSeconds + (if Relevant(pod, to) then ContainersCpu(pod.containers, from, to) else 0.0)
  {
    PodCpu(pod.containers, from, to);
  }

  /** The exact law: cutting an interval in two loses the premature share and nothing else. */
  lemma {:induction false} CpuSplits(pods: seq<Pod>, a: int, b: int, c: int)
    requires a <= b <= c
    ensures Accumulate(pods, a, c).cpuSeconds
         == Accumulate(pods, a, b).cpuSeconds + Accumulate(pods, b, c).cpuSeconds + Premature(pods, a, b, c)
  {
    if |pods| > 0 {
      var front, last := pods[..|pods| - 1], pods[|pods| - 1];
      CpuSplits(front, a, b, c);
      PodStepCpu(Accumulate(front, a, c), last, a, c);
      PodStepCpu(Accumulate(front, a, b), last, a, b);
      PodStepCpu(Accumulate(front, b, c), last, b, c);
      ContainersAdd(last.containers, a, b, c);
    }
  }

  /** No container starts before its pod was created. */
  predicate StartsAfterCreation(pod: Pod) {
    forall i :: 0 <= i < |pod.containers| ==> pod.containers[i].startedAt >= pod.createdAt
  }

  lemma {:induction false} NothingBeforeStart(containers: seq<Container>, a: int, b: int)
    requires forall i :: 0 <= i < |containers| ==> containers[i].startedAt >= b
    ensures ContainersCpu(containers, a, b) == 0.0
  {
    if |containers| > 0 {
      NothingBeforeStart(containers[..|containers| - 1], a, b);
    }
  }

  lemma {:induction false} NothingPremature(pods: seq<Pod>, a: int, b: int, c: int)
    requires forall i :: 0 <= i < |pods| ==> StartsAfterCreation(pods[i])
    ensures Premature(pods, a, b, c) == 0.0
  {
    if |pods| > 0 {
      var front, last := pods[..|pods| - 1], pods[|pods| - 1];
      NothingPremature(front, a, b, c);
      if Relevant(last, c) && !Relevant(last, b) {
        assert StartsAfterCreation(pods[|pods| - 1]);
        NothingBeforeStart(last.containers, a, b);
      }
    }
  }

  /** Adjacent intervals add up whenever containers start no earlier than their pod. */
  lemma CpuIsAdditive(pods: seq<Pod>, a: int, b: int, c: int)
    requires a <= b <= c
    requires forall i :: 0 <= i < |pods| ==> StartsAfterCreation(pods[i])
    ensures Accumulate(pods, a, c).cpuSeconds == Accumulate(pods, a, b).cpuSeconds + Accumulate(pods, b, c).cpuSeconds
  {
    CpuSplits(pods, a, b, c);
    NothingPremature(pods, a, b, c);
  }

  lemma {:induction false} CpuNonnegative(windows: seq<Window>, startedAt: nat, a: int, b: int)
    requires WindowsOk(windows, startedAt)
    ensures Cpu(windows, a, b) >= 0.0
  {
    if |windows| > 0 {
      var n := |windows| - 1;
      FrontWindowsOk(windows, startedAt);
      CpuNonnegative(windows[..n], startedAt, a, b);
      assert WindowOk(windows, n, startedAt);
      var w := windows[n];
      var d := (w.to - w.from) as real;
      assert Overlap(w, a, b) as real / d >= 0.0;
    }
  }

  lemma {:induction false} ContainersCpuNonnegative(containers: seq<Container>, a: int, b: int, c: int)
    requires a <= b <= c && ContainersOk(containers, a, c)
    ensures ContainersCpu(containers, a, b) >= 0.0
  {
    if |containers| > 0 {
      var front, last := containers[..|containers| - 1], containers[|containers| - 1];
      ContainersCpuNonnegative(front, a, b, c);
      if Counted(last, a, b) {
        assert Counted(last, a, c);
        CpuNonnegative(last.windows, last.startedAt, Start(last, a), End(last, b));
      }
    }
  }

  /** Pod i was created in [b, c) although its containers report CPU from before b. */
  predicate Early(pod: Pod, a: int, b: int, c: int) {
    Relevant(pod, c) && !Relevant(pod, b) && ContainersCpu(pod.containers, a, b) > 0.0
  }

  lemma {:induction false} PrematureExactly(pods: seq<Pod>, a: int, b: int, c: int)
    requires a <= b <= c && PodsOk(pods, a, c)
    ensures Premature(pods, a, b, c) >= 0.0
    ensures Premature(pods, a, b, c) > 0.0 <==> exists i :: 0 <= i < |pods| && Early(pods[i], a, b, c)
  {
    if |pods| > 0 {
      var n := |pods| - 1;
      var front, last := pods[..n], pods[n];
      assert pods == front + [last];
      PrefixPodsOk(front, [last], a, c);
      PrematureExactly(front, a, b, c);
      assert PodOk(pods, n, a, c);
      if Relevant(last, c) {
        ContainersCpuNonnegative(last.containers, a, b, c);
      }
      if Premature(front, a, b, c) > 0.0 {
        var i :| 0 <= i < n && Early(front[i], a, b, c);
        assert Early(pods[i], a, b, c);
      } else {
        forall i | 0 <= i < n ensures !Early(pods[i], a, b, c) {
          assert pods[i] == front[i];
        }
      }
    }
  }

  /** Adjacent intervals add up exactly when no pod has CPU measured before its own creation. */
  lemma CpuIsAdditiveExactly(pods: seq<Pod>, a: int, b: int, c: int)
    requires a <= b <= c && PodsOk(pods, a, c)
    ensures Accumulate(pods, a, c).cpuSeconds == Accumulate(pods, a, b).cpuSeconds + Accumulate(pods, b, c).cpuSeconds
       <==> !exists i :: 0 <= i < |pods| && Early(pods[i], a, b, c)
  {
    CpuSplits(pods, a, b, c);
    PrematureExactly(pods, a, b, c);
  }

  const EARLY_WINDOW := Window(10, 20, 1.0)
  const EARLY_CONTAINER := Container("c", 10, None, None, [EARLY_WINDOW])
  const EARLY_POD := Pod(true, "u", 20, [EARLY_CONTAINER])

  lemma EarlyCpu()
    ensures ContainersCpu([EARLY_CONTAINER], 10, 20) == 1.0
  {
    assert [EARLY_WINDOW][..0] == [] && [EARLY_CONTAINER][..0] == [];
    assert CpuOf(EARLY_WINDOW, 10, 20) == 1.0;
    assert Cpu([EARLY_WINDOW], 10, 20) == Cpu([EARLY_WINDOW][..0], 10, 20) + CpuOf(EARLY_WINDOW, 10, 20) == 1.0;
    assert ContainerCpu(EARLY_CONTAINER, 10, 20) == 1.0;
  }

  lemma EarlyPodOk(a: int, b: int)
    ensures PodsOk([EARLY_POD], a, b)
  {
    assert WindowOk(EARLY_CONTAINER.windows, 0, EARLY_CONTAINER.startedAt);
  }

  /** A container that claims to predate its pod has measured CPU that only the longer interval counts. */
  lemma EarlyContainerBreaksAdditivity()
    ensures exists pods: seq<Pod>, a: int, b: int, c: int ::
              && a < b < c && PodsOk(pods, a, c) && PodsOk(pods, a, b) && PodsOk(pods, b, c)
              && Accumulate(pods, a, c).cpuSeconds
                != Accumulate(pods, a, b).cpuSeconds + Accumulate(pods, b, c).cpuSeconds
  {
    var pods := [EARLY_POD];
    EarlyPodOk(10, 30);
    EarlyPodOk(10, 20);
    EarlyPodOk(20, 30);
    EarlyCpu();
    assert Early(pods[0], 10, 20, 30);
    CpuIsAdditiveExactly(pods, 10, 20, 30);
  }
}
