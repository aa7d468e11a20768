/** What one recording, observation or adaptation keeps of a reliability state. */
module QualityFacts {
  import opened Basics
  import opened Quantile
  import opened Quality

  // ----- One scored error -----

  lemma QuotientInUnit(n: real, d: real)
    requires d > 0.0 && -d <= n <= d
    ensures -1.0 <= n / d <= 1.0
  {
    var r := n / d;
    assert (1.0 - r) * d >= 0.0 && (1.0 + r) * d >= 0.0;
  }

  lemma ErrorInUnit(cpu: int, predicted: int)
    requires cpu >= 0 && predicted >= 0
    ensures -1.0 <= RelativeError(cpu, predicted) <= 1.0
  {
    QuotientInUnit((cpu - predicted) as real, MaxReal(1.0, Max(cpu, predicted) as real));
  }

  lemma {:induction false} CountsPartition(s: seq<real>, limit: real)
    ensures CountAbove(s, limit) + CountBelow(s, limit) + CountInside(s, limit) == |s|
  {
    if |s| > 0 {
      CountsPartition(s[..|s| - 1], limit);
    }
  }

  /** Breaches are a majority of the window, so a window has at most one verdict. */
  lemma VerdictIsUnambiguous(s: seq<real>, limit: real, p: Policy)
    requires Admitted(p) && |s| <= p.window
    ensures !(CountAbove(s, limit) >= p.breaches && CountBelow(s, limit) >= p.breaches)
    ensures !(CountInside(s, limit) >= p.breaches && CountAbove(s, limit) >= p.breaches)
    ensures !(CountInside(s, limit) >= p.breaches && CountBelow(s, limit) >= p.breaches)
  {
    CountsPartition(s, limit);
  }

  // ----- Pending points -----

  predicate Chronological(points: seq<Forecast>) {
    forall i, j :: 0 <= i < j < |points| ==> points[i].at < points[j].at
  }

  lemma {:induction false} InsertKeeps(points: seq<Forecast>, p: Forecast, x: Forecast)
    ensures x in InsertByStart(points, p) <==> x == p || x in points
  {
    if |points| > 0 && p.at < points[|points| - 1].at {
      var front, last := points[..|points| - 1], points[|points| - 1];
      InsertKeeps(front, p, x);
      assert points == front + [last];
    }
  }

  lemma {:induction false} InsertChronological(points: seq<Forecast>, p: Forecast)
    requires Chronological(points) && !Targets(points, p.at)
    ensures Chronological(InsertByStart(points, p))
  {
    if |points| > 0 && p.at < points[|points| - 1].at {
      var front, last := points[..|points| - 1], points[|points| - 1];
      assert forall i :: 0 <= i < |front| ==> front[i] == points[i];
      InsertChronological(front, p);
      var r := InsertByStart(front, p);
      forall i | 0 <= i < |r| ensures r[i].at < last.at {
        InsertKeeps(front, p, r[i]);
      }
    } else {
      assert forall i :: 0 <= i < |points| ==> points[i].at != p.at;
    }
  }

  lemma {:induction false} SortedAlready(points: seq<Forecast>)
    requires Chronological(points)
    ensures SortByStart(points) == points
  {
    if |points| > 0 {
      SortedAlready(points[..|points| - 1]);
    }
  }

  /** Recording into an ordered list is ordered insertion, whatever the sort does with ties. */
  lemma SortInserts(points: seq<Forecast>, p: Forecast)
    requires Chronological(points)
    ensures SortByStart(points + [p]) == InsertByStart(points, p)
  {
    SortedAlready(points);
    assert (points + [p])[..|points|] == points;
  }

  lemma {:induction false} AheadIsOrdered(points: seq<Forecast>, at: int)
    requires Chronological(points)
    ensures Chronological(Ahead(points, at))
    ensures forall x :: x in Ahead(points, at) <==> x in points && at < x.at && at < x.until
  {
    if |points| > 0 {
      var front, last := points[..|points| - 1], points[|points| - 1];
      AheadIsOrdered(front, at);
      assert points == front + [last];
      var kept := Ahead(front, at);
      forall i | 0 <= i < |kept| ensures kept[i].at < last.at {
        assert kept[i] in front;
      }
    }
  }

  ghost predicate PendingOk(s: State) {
    && |s.pending| <= MAX_PENDING && Chronological(s.pending)
    && (forall x :: x in s.pending ==> ValidPoint(x) && x.lead == s.lead)
  }

  // ----- The invariant of one state -----

  /** Calibration and window sizes agree with the policy, and degradation needs a full calibration. */
  predicate Sized(s: State, p: Policy) {
    && |s.baseline| <= p.calibration && |s.recent| <= p.window
    && (s.degraded ==> |s.baseline| == p.calibration)
    && (|s.recent| > 0 ==> |s.baseline| == p.calibration)
  }

  predicate Measures(s: State) {
    Unit(s.baseline) && Unit(s.recent) && 0.0 <= s.errorBound <= 1.0
  }

  ghost predicate Healthy(s: State, p: Policy) {
    PendingOk(s) && Sized(s, p) && Measures(s) && s.lead >= 0
  }

  lemma HealthyIsValid(s: State, p: Policy)
    requires Healthy(s, p) && Admitted(p)
    ensures Valid(s)
  {
    forall i | 0 <= i < |s.pending| ensures ValidPoint(s.pending[i]) {
      assert s.pending[i] in s.pending;
    }
  }

  lemma ForLeadKeeps(s: State, p: Policy, lead: int)
    requires Healthy(s, p) && Admitted(p) && lead > 0
    ensures Healthy(ForLead(s, lead), p)
  {
    assert |s.pending| > 0 ==> s.pending[0] in s.pending;
  }

  lemma InsertionKeeps(s: State, f: Forecast)
    requires PendingOk(s) && ValidPoint(f) && f.lead == s.lead && !Targets(s.pending, f.at)
    ensures PendingOk(s.(pending := LastOf(SortByStart(s.pending + [f]), MAX_PENDING)))
  {
    InsertChronological(s.pending, f);
    SortInserts(s.pending, f);
    var r := InsertByStart(s.pending, f);
    forall x | x in r ensures ValidPoint(x) && x.lead == s.lead {
      InsertKeeps(s.pending, f, x);
    }
    LastOfKeeps(r, MAX_PENDING);
  }

  lemma LastOfKeeps(points: seq<Forecast>, n: nat)
    requires Chronological(points)
    ensures Chronological(LastOf(points, n)) && |LastOf(points, n)| <= n
    ensures forall x :: x in LastOf(points, n) ==> x in points
  {
    var kept := LastOf(points, n);
    if |points| > n {
      var k := |points| - n;
      assert forall i :: 0 <= i < |kept| ==> kept[i] == points[k + i];
    }
  }

  lemma RecordKeeps(s: State, p: Policy, f: Option<Forecast>)
    requires Healthy(s, p) && Admitted(p)
    ensures Healthy(Recorded(s, f), p)
  {
    if f.Some? && ValidPoint(f.value) {
      ForLeadKeeps(s, p, f.value.lead);
      var t := ForLead(s, f.value.lead);
      if !Targets(t.pending, f.value.at) {
        InsertionKeeps(t, f.value);
      }
    }
  }

  lemma CalibrationKeeps(s: State, p: Policy, err: real)
    requires Sized(s, p) && Measures(s) && Admitted(p) && |s.baseline| < p.calibration && -1.0 <= err <= 1.0
    ensures Sized(Calibrated(s, p, err), p) && Measures(Calibrated(s, p, err))
  {
    var baseline := s.baseline + [Abs(err)];
    BoundStaysBelow(baseline, p.floor, 1.0);
  }

  lemma ShiftKeeps(s: State, p: Policy)
    requires Sized(s, p) && Measures(s) && Admitted(p) && |s.baseline| == p.calibration
    ensures Sized(Shifted(s, p), p) && Measures(Shifted(s, p)) && |Shifted(s, p).recent| < p.window
  {
    if |s.recent| == p.window && !s.degraded {
      var baseline := s.baseline[1..] + [Abs(s.recent[0])];
      assert forall i :: 0 <= i < |baseline| - 1 ==> baseline[i] == s.baseline[i + 1];
      BoundStaysBelow(baseline, p.floor, 1.0);
    }
  }

  lemma ScoreKeeps(s: State, p: Policy, f: Forecast, at: int, cpu: int)
    requires Sized(s, p) && Measures(s) && Admitted(p) && cpu >= 0 && f.cpu >= 0
    ensures Sized(Scored(s, p, f, at, cpu), p) && Measures(Scored(s, p, f, at, cpu))
  {
    ErrorInUnit(cpu, f.cpu);
    var t := Scheduled(s, p, f, at);
    var err := RelativeError(cpu, f.cpu);
    if |t.baseline| < p.calibration {
      CalibrationKeeps(t, p, err);
    } else {
      ShiftKeeps(t, p);
      var shifted := Shifted(t, p);
      var u := shifted.(recent := shifted.recent + [err]);
      assert Sized(u, p) && Measures(u);
    }
  }

  lemma ScoreTouchesOnlyEvidence(s: State, p: Policy, f: Forecast, at: int, cpu: int)
    requires p.window > 0 && p.calibration > 0
    ensures var r := Scored(s, p, f, at, cpu);
            r.pending == s.pending && r.lead == s.lead && r.fingerprint == s.fingerprint
            && r.lastObservation == s.lastObservation && r.lastIntervalEnd == f.until && r.lastEvaluation == at
  {
  }

  lemma ObserveKeeps(s: State, policy: Policy, at: int, cpu: int, now: int)
    requires Admitted(Effective(policy)) && Healthy(s, Effective(policy))
    ensures Healthy(Observed(s, policy, at, cpu, now), Effective(policy))
  {
    if Accepts(s, at, cpu, now) {
      AheadIsOrdered(s.pending, at);
      var t := Consumed(s, at);
      var m := Match(s.pending, at, s.lastIntervalEnd);
      if m.Some? {
        ScoreKeeps(t, Effective(policy), m.value, at, cpu);
        ScoreTouchesOnlyEvidence(t, Effective(policy), m.value, at, cpu);
      }
    }
  }

  // ----- Loadable states -----

  /**
    The recent errors fill the storage limit while the policy's window is smaller, and
    this score does not clear them.
   */
  predicate WindowOverflows(s: State, p: Policy, f: Forecast, at: int, cpu: int) {
    var recent := Scheduled(s, p, f, at).recent;
    && |s.baseline| >= p.calibration && |recent| == 20 > p.window
    && !(s.degraded && !s.adaptationPending
         && CountInside(recent + [RelativeError(cpu, f.cpu)], s.errorBound) >= p.breaches)
  }

  lemma UnitAppend(s: seq<real>, x: real)
    requires Unit(s) && -1.0 <= x <= 1.0
    ensures Unit(s + [x])
  {
  }

  lemma ShiftKeepsMeasures(s: State, p: Policy)
    requires Measures(s) && Admitted(p) && |s.baseline| > 0
    ensures Measures(Shifted(s, p)) && |Shifted(s, p).baseline| == |s.baseline|
  {
    if |s.recent| == p.window && !s.degraded {
      var baseline := s.baseline[1..] + [Abs(s.recent[0])];
      assert forall i :: 0 <= i < |baseline| - 1 ==> baseline[i] == s.baseline[i + 1];
      BoundStaysBelow(baseline, p.floor, 1.0);
    }
  }

  lemma CalibrationKeepsMeasures(s: State, p: Policy, err: real)
    requires Measures(s) && Admitted(p) && -1.0 <= err <= 1.0
    ensures Measures(Calibrated(s, p, err))
  {
    BoundStaysBelow(s.baseline + [Abs(err)], p.floor, 1.0);
  }

  /** The state a score judges, once calibrated. */
  function Judgeable(s: State, p: Policy, f: Forecast, at: int, cpu: int): State
    requires Admitted(p) && |s.baseline| > 0
  {
    var shifted := Shifted(Scheduled(s, p, f, at), p);
    shifted.(recent := shifted.recent + [RelativeError(cpu, f.cpu)])
  }

  lemma JudgeableKeepsMeasures(s: State, p: Policy, f: Forecast, at: int, cpu: int)
    requires Measures(s) && Admitted(p) && cpu >= 0 && f.cpu >= 0 && |s.baseline| > 0
    ensures var u := Judgeable(s, p, f, at, cpu); Measures(u) && |u.baseline| == |s.baseline|
  {
    ErrorInUnit(cpu, f.cpu);
    var t := Scheduled(s, p, f, at);
    ShiftKeepsMeasures(t, p);
    UnitAppend(Shifted(t, p).recent, RelativeError(cpu, f.cpu));
  }

  lemma ScoreKeepsMeasures(s: State, p: Policy, f: Forecast, at: int, cpu: int)
    requires Measures(s) && Admitted(p) && cpu >= 0 && f.cpu >= 0 && |s.baseline| <= 100
    ensures Measures(Scored(s, p, f, at, cpu)) && |Scored(s, p, f, at, cpu).baseline| <= 100
  {
    ErrorInUnit(cpu, f.cpu);
    if |s.baseline| < p.calibration {
      CalibrationKeepsMeasures(Scheduled(s, p, f, at), p, RelativeError(cpu, f.cpu));
    } else {
      JudgeableKeepsMeasures(s, p, f, at, cpu);
      var u := Judgeable(s, p, f, at, cpu);
      assert Scored(s, p, f, at, cpu) == if |u.recent| < p.window then u else Judged(u, p);
    }
  }

  lemma ScoreOverflowsExactly(s: State, p: Policy, f: Forecast, at: int, cpu: int)
    requires Admitted(p) && |s.recent| <= 20
    ensures |Scored(s, p, f, at, cpu).recent| > 20 <==> WindowOverflows(s, p, f, at, cpu)
  {
    if |s.baseline| >= p.calibration {
      var t, u := Scheduled(s, p, f, at), Judgeable(s, p, f, at, cpu);
      assert Scored(s, p, f, at, cpu) == if |u.recent| < p.window then u else Judged(u, p);
      if |t.recent| == 20 > p.window {
        assert Shifted(t, p) == t;
        assert u.errorBound == s.errorBound && u.recent == t.recent + [RelativeError(cpu, f.cpu)];
      } else {
        assert |u.recent| <= 20;
      }
    }
  }

  lemma AheadIsValid(points: seq<Forecast>, at: int)
    requires AllValid(points)
    ensures AllValid(Ahead(points, at))
  {
    if |points| > 0 {
      AheadIsValid(points[..|points| - 1], at);
    }
  }

  /** From any loadable state, under any policy: the result is loadable exactly when the window does not overflow. */
  lemma ObserveKeepsValidExactly(s: State, policy: Policy, at: int, cpu: int, now: int)
    requires Valid(s) && Admitted(Effective(policy))
    ensures var m := MatchFor(s, at, cpu, now);
            Valid(Observed(s, policy, at, cpu, now))
            <==> !(m.Some? && WindowOverflows(Consumed(s, at), Effective(policy), m.value, at, cpu))
  {
    if Accepts(s, at, cpu, now) {
      AheadIsValid(s.pending, at);
      var t, m := Consumed(s, at), MatchFor(s, at, cpu, now);
      if m.Some? {
        ScoreKeepsMeasures(t, Effective(policy), m.value, at, cpu);
        ScoreOverflowsExactly(t, Effective(policy), m.value, at, cpu);
        ScoreTouchesOnlyEvidence(t, Effective(policy), m.value, at, cpu);
      }
    }
  }

  // ----- The frozen reference -----

  lemma ScoreFreezes(s: State, p: Policy, f: Forecast, at: int, cpu: int)
    requires Admitted(p) && s.degraded && |s.baseline| == p.calibration
    ensures Scored(s, p, f, at, cpu).baseline == s.baseline && Scored(s, p, f, at, cpu).errorBound == s.errorBound
  {
  }
}
