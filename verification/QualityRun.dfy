/**
  Whole runs of the reliability monitor: evaluations and finished fits under a clock
  that never goes back, while the resource, and with it the policy, may change.
 */
module QualityRun {
  import opened Basics
  import opened Quality
  import opened QualityFacts

  // ----- Runs -----

  /** An evaluation ensures the state for its fingerprint and may observe; a finished fit adapts and records. */
  datatype Step =
    | Evaluate(fingerprint: string, observation: Option<Observation>, now: int)
    | Finish(action: string, verification: Option<Forecast>, now: int)
    | Discard(now: int)

  datatype Observation = Observation(at: int, cpu: int)

  /** A scored forecast, the observation that scored it, and how often the state had started over before. */
  datatype Score = Score(forecast: Forecast, observedAt: int, era: nat)

  datatype Trace = Trace(state: Option<State>, scores: seq<Score>, era: nat, clock: int)

  /** The fingerprint covers the whole spec, so it determines the policy. */
  type Policies = string -> Policy

  ghost predicate AllAdmitted(policyOf: Policies) {
    forall fingerprint :: Admitted(Effective(policyOf(fingerprint)))
  }

  predicate ChangesLead(s: State, f: Forecast) {
    ValidPoint(f) && s.lead != 0 && s.lead != f.lead
  }

  ghost function Evaluated(t: Trace, policyOf: Policies, fingerprint: string, observation: Option<Observation>,
                           now: int): Trace
    requires AllAdmitted(policyOf)
  {
    var u := Prepared(t, fingerprint, now);
    if observation.None? then u else Scored(u, policyOf, observation.value)
  }

  /** The state for a fingerprint: the stored one, or an empty one in a new era. */
  function Prepared(t: Trace, fingerprint: string, now: int): Trace {
    var s := Ensure(t.state, fingerprint);
    Trace(Some(s), t.scores, if t.state == Some(s) then t.era else t.era + 1, now)
  }

  /** One observation under the policy of the stored fingerprint, and the score it makes, if any. */
  ghost function Scored(t: Trace, policyOf: Policies, o: Observation): Trace
    requires AllAdmitted(policyOf) && t.state.Some?
  {
    var s := t.state.value;
    var m := MatchFor(s, o.at, o.cpu, t.clock);
    t.(state := Some(Observed(s, policyOf(s.fingerprint), o.at, o.cpu, t.clock)),
       scores := if m.Some? then t.scores + [Score(m.value, o.at, t.era)] else t.scores)
  }

  function Adapted(s: State, action: string): State {
    if action != "" then AdaptedBy(s, action) else s
  }

  /** The forecast is stamped with the clock of its recording. */
  function Finished(t: Trace, action: string, verification: Option<Forecast>, now: int): Trace {
    if t.state == None then t.(clock := now)
    else
      var s := Adapted(t.state.value, action);
      match verification
      case None => t.(state := Some(s.(adaptation := "Unsupported", adaptationPending := false)), clock := now)
      case Some(v) => Issued(t, s, v.(issuedAt := now))
  }

  /** A forecast issued now is recorded; one for another lead starts a new era. */
  function Issued(t: Trace, s: State, f: Forecast): Trace {
    t.(state := Some(Recorded(s, Some(f))), clock := f.issuedAt,
       era := if ChangesLead(s, f) then t.era + 1 else t.era)
  }

  ghost function Exec(t: Trace, policyOf: Policies, step: Step): Trace
    requires AllAdmitted(policyOf)
  {
    if step.now < t.clock then t
    else
      match step
      case Evaluate(fingerprint, observation, now) => Evaluated(t, policyOf, fingerprint, observation, now)
      case Finish(action, verification, now) => Finished(t, action, verification, now)
      case Discard(now) => t.(state := None, era := t.era + 1, clock := now)
  }

  ghost function Run(t: Trace, policyOf: Policies, steps: seq<Step>): Trace
    requires AllAdmitted(policyOf)
  {
    if |steps| == 0 then t else Exec(Run(t, policyOf, steps[..|steps| - 1]), policyOf, steps[|steps| - 1])
  }

  function Init(clock: int): Trace {
    Trace(None, [], 0, clock)
  }

  // ----- The invariant -----

  /** The score was foreseen before its interval and observed within it. */
  predicate Foreseen(x: Score) {
    x.forecast.issuedAt < x.forecast.at <= x.observedAt < x.forecast.until
  }

  ghost predicate StateOk(t: Trace, policyOf: Policies) {
    t.state.Some? ==> Healthy(t.state.value, Effective(policyOf(t.state.value.fingerprint)))
  }

  function PendingOf(t: Trace): seq<Forecast> {
    if t.state.Some? then t.state.value.pending else []
  }

  /** Scores are in the past, and whatever is pending starts after every scored start. */
  ghost predicate Timely(t: Trace) {
    && (forall i :: 0 <= i < |t.scores| ==> Foreseen(t.scores[i]) && t.scores[i].observedAt <= t.clock)
    && (forall i, j :: 0 <= i < j < |t.scores| ==> t.scores[i].forecast.at < t.scores[j].forecast.at)
    && (forall i, p :: 0 <= i < |t.scores| && p in PendingOf(t) ==> t.scores[i].forecast.at < p.at)
  }

  /** Within one era each score starts at or after the end of the one before. */
  ghost predicate Ordered(t: Trace) {
    && (forall i :: 0 <= i < |t.scores| ==> t.scores[i].era <= t.era)
    && (forall i :: 0 <= i < |t.scores| && t.scores[i].era == t.era ==>
          t.state.Some? && t.scores[i].forecast.until <= t.state.value.lastIntervalEnd)
    && (forall i, j :: 0 <= i < j < |t.scores| && t.scores[i].era == t.scores[j].era ==>
          t.scores[i].forecast.until <= t.scores[j].forecast.at)
  }

  ghost predicate Inv(t: Trace, policyOf: Policies) {
    StateOk(t, policyOf) && Timely(t) && Ordered(t)
  }

  // ----- What one step does to the pending forecasts -----

  /** Recording keeps pending forecasts and adds at most the one just issued. */
  lemma RecordedMembers(s: State, f: Forecast, x: Forecast)
    requires x in Recorded(s, Some(f)).pending && Chronological(s.pending)
    ensures (x == f && ValidPoint(f)) || x in s.pending
  {
    if ValidPoint(f) {
      var t := ForLead(s, f.lead);
      if !Targets(t.pending, f.at) {
        SortInserts(t.pending, f);
        InsertKeeps(t.pending, f, x);
      }
    }
  }

  lemma ObservedMembers(s: State, policy: Policy, o: Observation, now: int, x: Forecast)
    requires Admitted(Effective(policy)) && Chronological(s.pending)
          && x in Observed(s, policy, o.at, o.cpu, now).pending
    ensures x in s.pending && (MatchFor(s, o.at, o.cpu, now).Some? ==> x.at > o.at)
  {
    if Accepts(s, o.at, o.cpu, now) {
      AheadIsOrdered(s.pending, o.at);
      var m := Match(s.pending, o.at, s.lastIntervalEnd);
      if m.Some? {
        ScoreTouchesOnlyEvidence(Consumed(s, o.at), Effective(policy), m.value, o.at, o.cpu);
      }
    }
  }

  lemma ObservedEnd(s: State, policy: Policy, o: Observation, now: int)
    requires Admitted(Effective(policy))
    ensures var m := MatchFor(s, o.at, o.cpu, now);
            var r := Observed(s, policy, o.at, o.cpu, now);
            && r.lastIntervalEnd == (if m.Some? then m.value.until else s.lastIntervalEnd)
            && r.fingerprint == s.fingerprint
            && (m.Some? ==> m.value in s.pending && m.value.at >= s.lastIntervalEnd && Covers(m.value, o.at)
                            && o.at <= now)
  {
    var m := MatchFor(s, o.at, o.cpu, now);
    if m.Some? {
      ScoreTouchesOnlyEvidence(Consumed(s, o.at), Effective(policy), m.value, o.at, o.cpu);
    }
  }

  // ----- Each step keeps the invariant -----

  lemma EnsureKeeps(t: Trace, policyOf: Policies, fingerprint: string, now: int)
    requires AllAdmitted(policyOf) && Inv(t, policyOf) && t.clock <= now
    ensures Inv(Prepared(t, fingerprint, now), policyOf)
         && Prepared(t, fingerprint, now).state.value.fingerprint == fingerprint
  {
  }

  lemma AppendTimely(t: Trace, s': State, x: Score)
    requires Timely(t) && t.state.Some? && Foreseen(x) && x.observedAt <= t.clock
    requires x.forecast in t.state.value.pending
    requires forall p :: p in s'.pending ==> p in t.state.value.pending && p.at > x.observedAt
    ensures Timely(t.(state := Some(s'), scores := t.scores + [x]))
  {
    var u := t.(state := Some(s'), scores := t.scores + [x]);
    assert forall i :: 0 <= i < |t.scores| ==> u.scores[i] == t.scores[i] && t.scores[i].forecast.at < x.forecast.at;
    assert u.scores[|t.scores|] == x;
  }

  lemma AppendOrdered(t: Trace, s': State, x: Score)
    requires Ordered(t) && t.state.Some? && x.era == t.era && x.forecast.at >= t.state.value.lastIntervalEnd
    requires s'.lastIntervalEnd == x.forecast.until > x.forecast.at
    ensures Ordered(t.(state := Some(s'), scores := t.scores + [x]))
  {
    var u := t.(state := Some(s'), scores := t.scores + [x]);
    assert forall i :: 0 <= i < |t.scores| ==> u.scores[i] == t.scores[i];
    assert u.scores[|t.scores|] == x;
  }

  lemma AppendKeeps(t: Trace, policyOf: Policies, s': State, x: Score)
    requires Inv(t, policyOf) && t.state.Some? && Healthy(s', Effective(policyOf(s'.fingerprint)))
    requires Foreseen(x) && x.observedAt <= t.clock && x.era == t.era
    requires x.forecast in t.state.value.pending && x.forecast.at >= t.state.value.lastIntervalEnd
    requires s'.lastIntervalEnd == x.forecast.until
    requires forall p :: p in s'.pending ==> p in t.state.value.pending && p.at > x.observedAt
    ensures Inv(t.(state := Some(s'), scores := t.scores + [x]), policyOf)
  {
    AppendTimely(t, s', x);
    AppendOrdered(t, s', x);
  }

  lemma ReplaceKeeps(t: Trace, policyOf: Policies, s': State, now: int)
    requires Inv(t, policyOf) && t.state.Some? && t.clock <= now && Healthy(s', Effective(policyOf(s'.fingerprint)))
    requires s'.lastIntervalEnd == t.state.value.lastIntervalEnd
    requires forall p :: p in s'.pending ==> p in t.state.value.pending || p.at > t.clock
    ensures Inv(t.(state := Some(s'), clock := now), policyOf)
  {
    assert forall i :: 0 <= i < |t.scores| ==> Foreseen(t.scores[i]);
  }

  lemma ObserveKeepsInv(t: Trace, policyOf: Policies, o: Observation)
    requires AllAdmitted(policyOf) && Inv(t, policyOf) && t.state.Some?
    ensures Inv(Scored(t, policyOf, o), policyOf)
  {
    var s := t.state.value;
    var policy := policyOf(s.fingerprint);
    var s' := Observed(s, policy, o.at, o.cpu, t.clock);
    var m := MatchFor(s, o.at, o.cpu, t.clock);
    ObserveKeeps(s, policy, o.at, o.cpu, t.clock);
    ObservedEnd(s, policy, o, t.clock);
    forall x | x in s'.pending ensures x in s.pending && (m.Some? ==> x.at > o.at) {
      ObservedMembers(s, policy, o, t.clock, x);
    }
    if m.Some? {
      assert ValidPoint(m.value);
      AppendKeeps(t, policyOf, s', Score(m.value, o.at, t.era));
    } else {
      ReplaceKeeps(t, policyOf, s', t.clock);
    }
  }

  lemma EvaluateKeeps(t: Trace, policyOf: Policies, fingerprint: string, observation: Option<Observation>, now: int)
    requires AllAdmitted(policyOf) && Inv(t, policyOf) && t.clock <= now
    ensures Inv(Evaluated(t, policyOf, fingerprint, observation, now), policyOf)
  {
    EnsureKeeps(t, policyOf, fingerprint, now);
    if observation.Some? {
      ObserveKeepsInv(Prepared(t, fingerprint, now), policyOf, observation.value);
    }
  }

  lemma AdaptedIsHealthy(s: State, p: Policy, action: string)
    requires Healthy(s, p)
    ensures Healthy(Adapted(s, action), p)
    ensures Adapted(s, action).lastIntervalEnd == s.lastIntervalEnd && Adapted(s, action).lead == s.lead
    ensures Adapted(s, action).fingerprint == s.fingerprint
    ensures forall p :: p in Adapted(s, action).pending ==> p in s.pending
  {
  }

  /** Recording keeps a state healthy, under its fingerprint and, for the same lead, its last scored end. */
  lemma RecordedFacts(s: State, p: Policy, f: Forecast, known: seq<Forecast>, clock: int)
    requires Healthy(s, p) && Admitted(p) && clock <= f.issuedAt && forall x :: x in s.pending ==> x in known
    ensures var r := Recorded(s, Some(f));
            && Healthy(r, p) && r.fingerprint == s.fingerprint
            && (!ChangesLead(s, f) ==> r.lastIntervalEnd == s.lastIntervalEnd)
            && forall x :: x in r.pending ==> x in known || x.at > clock
  {
    RecordKeeps(s, p, Some(f));
    forall x | x in Recorded(s, Some(f)).pending ensures x in known || x.at > clock {
      RecordedMembers(s, f, x);
    }
  }

  lemma FinishKeeps(t: Trace, policyOf: Policies, action: string, verification: Option<Forecast>, now: int)
    requires AllAdmitted(policyOf) && Inv(t, policyOf) && t.clock <= now
    ensures Inv(Finished(t, action, verification, now), policyOf)
  {
    if t.state.Some? {
      if verification.Some? {
        VerifiedKeeps(t, policyOf, action, verification.value, now);
      } else {
        UnverifiedKeeps(t, policyOf, action, now);
      }
    }
  }

  lemma VerifiedKeeps(t: Trace, policyOf: Policies, action: string, f: Forecast, now: int)
    requires AllAdmitted(policyOf) && Inv(t, policyOf) && t.clock <= now && t.state.Some?
    ensures Inv(Finished(t, action, Some(f), now), policyOf)
  {
    var s := Adapted(t.state.value, action);
    AdaptedIsHealthy(t.state.value, Effective(policyOf(s.fingerprint)), action);
    IssueKeeps(t, policyOf, s, f.(issuedAt := now));
  }

  lemma UnverifiedKeeps(t: Trace, policyOf: Policies, action: string, now: int)
    requires AllAdmitted(policyOf) && Inv(t, policyOf) && t.clock <= now && t.state.Some?
    ensures Inv(Finished(t, action, None, now), policyOf)
  {
    var s := Adapted(t.state.value, action);
    AdaptedIsHealthy(t.state.value, Effective(policyOf(s.fingerprint)), action);
    ReplaceKeeps(t, policyOf, s.(adaptation := "Unsupported", adaptationPending := false), now);
  }

  /** A forecast issued now, under the current lead or a new one. */
  lemma IssueKeeps(t: Trace, policyOf: Policies, s: State, f: Forecast)
    requires AllAdmitted(policyOf) && Inv(t, policyOf) && t.state.Some? && t.clock <= f.issuedAt
    requires Healthy(s, Effective(policyOf(s.fingerprint))) && s.lastIntervalEnd == t.state.value.lastIntervalEnd
    requires forall x :: x in s.pending ==> x in t.state.value.pending
    ensures Inv(Issued(t, s, f), policyOf)
  {
    var s' := Recorded(s, Some(f));
    RecordedFacts(s, Effective(policyOf(s.fingerprint)), f, t.state.value.pending, t.clock);
    if ChangesLead(s, f) {
      assert Issued(t, s, f) == Trace(Some(s'), t.scores, t.era + 1, f.issuedAt);
      RestartKeeps(t, policyOf, Some(s'), f.issuedAt);
    } else {
      assert Issued(t, s, f) == t.(state := Some(s'), clock := f.issuedAt);
      ReplaceKeeps(t, policyOf, s', f.issuedAt);
    }
  }

  /** Starting over in a new era with forecasts issued now. */
  lemma RestartKeeps(t: Trace, policyOf: Policies, state: Option<State>, now: int)
    requires Inv(t, policyOf) && t.clock <= now
    requires state.Some? ==> Healthy(state.value, Effective(policyOf(state.value.fingerprint)))
    requires state.Some? ==> forall p :: p in state.value.pending ==> p in PendingOf(t) || p.at > t.clock
    ensures Inv(Trace(state, t.scores, t.era + 1, now), policyOf)
  {
    assert forall i :: 0 <= i < |t.scores| ==> Foreseen(t.scores[i]);
  }

  lemma StepKeeps(t: Trace, policyOf: Policies, step: Step)
    requires AllAdmitted(policyOf) && Inv(t, policyOf)
    ensures Inv(Exec(t, policyOf, step), policyOf)
  {
    if step.now >= t.clock {
      match step
      case Evaluate(fingerprint, observation, now) => EvaluateKeeps(t, policyOf, fingerprint, observation, now);
      case Finish(action, verification, now) => FinishKeeps(t, policyOf, action, verification, now);
      case Discard(now) => RestartKeeps(t, policyOf, None, now);
    }
  }

  lemma {:induction false} RunKeeps(t: Trace, policyOf: Policies, steps: seq<Step>)
    requires AllAdmitted(policyOf) && Inv(t, policyOf)
    ensures Inv(Run(t, policyOf, steps), policyOf)
  {
    if |steps| > 0 {
      RunKeeps(t, policyOf, steps[..|steps| - 1]);
      StepKeeps(Run(t, policyOf, steps[..|steps| - 1]), policyOf, steps[|steps| - 1]);
    }
  }

  // ----- Theorems -----

  /** Whatever the policies were along the way, reloading under its own fingerprint never discards a stored state. */
  lemma NeverDiscarded(clock: int, policyOf: Policies, steps: seq<Step>)
    requires AllAdmitted(policyOf) && Run(Init(clock), policyOf, steps).state.Some?
    ensures var s := Run(Init(clock), policyOf, steps).state.value;
            Valid(s) && Ensure(Some(s), s.fingerprint) == s
  {
    RunKeeps(Init(clock), policyOf, steps);
    var s := Run(Init(clock), policyOf, steps).state.value;
    HealthyIsValid(s, Effective(policyOf(s.fingerprint)));
  }

  /** Over all leads, policies and restarts, scored starts strictly increase: no forecast is scored twice. */
  lemma ScoredAtMostOnce(clock: int, policyOf: Policies, steps: seq<Step>, i: nat, j: nat)
    requires AllAdmitted(policyOf) && i < j < |Run(Init(clock), policyOf, steps).scores|
    ensures var scores := Run(Init(clock), policyOf, steps).scores;
            scores[i].forecast.at < scores[j].forecast.at && scores[i].forecast != scores[j].forecast
  {
    RunKeeps(Init(clock), policyOf, steps);
  }

  /** Between restarts, scored intervals are disjoint. */
  lemma ScoredIntervalsAreDisjoint(clock: int, policyOf: Policies, steps: seq<Step>, i: nat, j: nat)
    requires AllAdmitted(policyOf) && i < j < |Run(Init(clock), policyOf, steps).scores|
    requires var scores := Run(Init(clock), policyOf, steps).scores; scores[i].era == scores[j].era
    ensures var scores := Run(Init(clock), policyOf, steps).scores;
            scores[i].forecast.until <= scores[j].forecast.at && scores[i].observedAt < scores[j].observedAt
  {
    RunKeeps(Init(clock), policyOf, steps);
    var scores := Run(Init(clock), policyOf, steps).scores;
    assert Foreseen(scores[i]) && Foreseen(scores[j]);
  }

  /** Each score joins a forecast made before its interval with an observation inside it. */
  lemma ScoresAreForeseen(clock: int, policyOf: Policies, steps: seq<Step>, i: nat)
    requires AllAdmitted(policyOf) && i < |Run(Init(clock), policyOf, steps).scores|
    ensures Foreseen(Run(Init(clock), policyOf, steps).scores[i])
  {
    RunKeeps(Init(clock), policyOf, steps);
  }

  predicate SameReference(s: State, s': State) {
    s'.baseline == s.baseline && s'.errorBound == s.errorBound
  }

  lemma ObserveFreezes(s: State, policy: Policy, o: Observation, now: int)
    requires Admitted(Effective(policy)) && s.degraded && |s.baseline| == Effective(policy).calibration
    ensures SameReference(s, Observed(s, policy, o.at, o.cpu, now))
  {
    var m := MatchFor(s, o.at, o.cpu, now);
    if m.Some? {
      ScoreFreezes(Consumed(s, o.at), Effective(policy), m.value, o.at, o.cpu);
    }
  }

  lemma FinishFreezes(t: Trace, action: string, verification: Option<Forecast>, now: int)
    requires t.state.Some? && Finished(t, action, verification, now).era == t.era
    ensures var t' := Finished(t, action, verification, now);
            t'.state.Some? && SameReference(t.state.value, t'.state.value)
  {
  }

  /** While degraded the reference changes only by starting over. */
  lemma DegradedReferenceIsFrozen(clock: int, policyOf: Policies, steps: seq<Step>, step: Step)
    requires AllAdmitted(policyOf)
    requires var t := Run(Init(clock), policyOf, steps);
             t.state.Some? && t.state.value.degraded && Exec(t, policyOf, step).era == t.era
    ensures var t := Run(Init(clock), policyOf, steps);
            var t' := Exec(t, policyOf, step);
            t'.state.Some? && SameReference(t.state.value, t'.state.value)
  {
    RunKeeps(Init(clock), policyOf, steps);
    DegradedStepFreezes(Run(Init(clock), policyOf, steps), policyOf, step);
  }

  lemma DegradedStepFreezes(t: Trace, policyOf: Policies, step: Step)
    requires AllAdmitted(policyOf) && StateOk(t, policyOf) && t.state.Some? && t.state.value.degraded
    requires Exec(t, policyOf, step).era == t.era
    ensures var t' := Exec(t, policyOf, step); t'.state.Some? && SameReference(t.state.value, t'.state.value)
  {
    if step.now >= t.clock {
      match step
      case Evaluate(fingerprint, observation, now) =>
        if observation.Some? {
          ObserveFreezes(t.state.value, policyOf(fingerprint), observation.value, now);
        }
      case Finish(action, verification, now) => FinishFreezes(t, action, verification, now);
      case Discard(now) =>
    }
  }

  // ----- What an adaptation is for -----

  /** The forecasts that may still be scored were issued at or after the given instant. */
  ghost predicate IssuedSince(t: Trace, since: int) {
    since <= t.clock && forall p :: p in PendingOf(t) ==> p.issuedAt >= since
  }

  lemma StepKeepsIssuedSince(t: Trace, policyOf: Policies, step: Step, since: int)
    requires AllAdmitted(policyOf) && Inv(t, policyOf) && IssuedSince(t, since)
    ensures var t' := Exec(t, policyOf, step);
            && IssuedSince(t', since) && |t'.scores| <= |t.scores| + 1 && t.scores <= t'.scores
            && (|t'.scores| > |t.scores| ==> t'.scores[|t.scores|].forecast.issuedAt >= since)
  {
    if step.now >= t.clock {
      match step
      case Evaluate(fingerprint, observation, now) =>
        EnsureKeeps(t, policyOf, fingerprint, now);
        var s := Ensure(t.state, fingerprint);
        if observation.Some? {
          var o := observation.value;
          ObservedEnd(s, policyOf(fingerprint), o, now);
          forall x | x in Observed(s, policyOf(fingerprint), o.at, o.cpu, now).pending ensures x in s.pending {
            ObservedMembers(s, policyOf(fingerprint), o, now, x);
          }
        }
      case Finish(action, verification, now) =>
        if t.state.Some? && verification.Some? {
          AdaptedIsHealthy(t.state.value, Effective(policyOf(t.state.value.fingerprint)), action);
          var s, f := Adapted(t.state.value, action), verification.value.(issuedAt := now);
          forall x | x in Recorded(s, Some(f)).pending ensures x.issuedAt >= since {
            RecordedMembers(s, f, x);
          }
        }
      case Discard(now) =>
    }
  }

  /** One more score at most, issued since, keeps every score since a point so. */
  lemma OneMoreSince(before: seq<Score>, middle: seq<Score>, after: seq<Score>, since: int, i: nat)
    requires before <= middle <= after && |after| <= |middle| + 1
    requires |after| > |middle| ==> after[|middle|].forecast.issuedAt >= since
    requires |before| <= i < |middle| ==> middle[i].forecast.issuedAt >= since
    ensures before <= after && (|before| <= i < |after| ==> after[i].forecast.issuedAt >= since)
  {
  }

  lemma {:induction false} RunKeepsIssuedSince(t: Trace, policyOf: Policies, steps: seq<Step>, since: int, i: nat)
    requires AllAdmitted(policyOf) && Inv(t, policyOf) && IssuedSince(t, since)
    ensures IssuedSince(Run(t, policyOf, steps), since) && t.scores <= Run(t, policyOf, steps).scores
    ensures |t.scores| <= i < |Run(t, policyOf, steps).scores| ==>
              Run(t, policyOf, steps).scores[i].forecast.issuedAt >= since
  {
    if |steps| > 0 {
      var front, last := steps[..|steps| - 1], steps[|steps| - 1];
      RunKeepsIssuedSince(t, policyOf, front, since, i);
      RunKeeps(t, policyOf, front);
      var u := Run(t, policyOf, front);
      StepKeepsIssuedSince(u, policyOf, last, since);
      OneMoreSince(t.scores, u.scores, Exec(u, policyOf, last).scores, since, i);
    }
  }

  /** After an adaptation only forecasts issued since are ever scored: the old model's cannot judge the new one. */
  lemma AdaptationIsJudgedAfresh(clock: int, policyOf: Policies, before: seq<Step>, action: string,
                                 verification: Option<Forecast>, now: int, after: seq<Step>, i: nat)
    requires AllAdmitted(policyOf) && action != "" && Run(Init(clock), policyOf, before).clock <= now
    requires var t := Exec(Run(Init(clock), policyOf, before), policyOf, Finish(action, verification, now));
             |t.scores| <= i < |Run(t, policyOf, after).scores|
    ensures var t := Exec(Run(Init(clock), policyOf, before), policyOf, Finish(action, verification, now));
            Run(t, policyOf, after).scores[i].forecast.issuedAt >= now
  {
    RunKeeps(Init(clock), policyOf, before);
    var s := Run(Init(clock), policyOf, before);
    StepKeeps(s, policyOf, Finish(action, verification, now));
    var t := Exec(s, policyOf, Finish(action, verification, now));
    if s.state.Some? && verification.Some? {
      var f := verification.value.(issuedAt := now);
      forall x | x in PendingOf(t) ensures x.issuedAt >= now {
        RecordedMembers(Adapted(s.state.value, action), f, x);
      }
    }
    RunKeepsIssuedSince(t, policyOf, after, now, i);
  }

  // ----- Disjointness across restarts -----

  /** The latest end of any scored interval, or the given floor. */
  function EndOf(scores: seq<Score>, floor: int): (end: int)
    ensures end >= floor
  {
    if |scores| == 0 then floor
    else Max(EndOf(scores[..|scores| - 1], floor), scores[|scores| - 1].forecast.until)
  }

  lemma {:induction false} EndOfIsUpper(scores: seq<Score>, floor: int, i: nat)
    requires i < |scores|
    ensures scores[i].forecast.until <= EndOf(scores, floor)
  {
    if i < |scores| - 1 {
      EndOfIsUpper(scores[..|scores| - 1], floor, i);
    }
  }

  /** Every score from an index on starts at or after an instant. */
  ghost predicate StartFrom(scores: seq<Score>, from: nat, e: int) {
    forall i :: from <= i < |scores| ==> scores[i].forecast.at >= e
  }

  ghost predicate PendingFrom(t: Trace, e: int) {
    e <= t.clock + 1 && forall p :: p in PendingOf(t) ==> p.at >= e
  }

  lemma StepKeepsPendingFrom(t: Trace, policyOf: Policies, step: Step, e: int, from: nat)
    requires AllAdmitted(policyOf) && Inv(t, policyOf) && PendingFrom(t, e) && StartFrom(t.scores, from, e)
    ensures PendingFrom(Exec(t, policyOf, step), e) && StartFrom(Exec(t, policyOf, step).scores, from, e)
  {
    if step.now >= t.clock {
      match step
      case Evaluate(fingerprint, observation, now) =>
        EnsureKeeps(t, policyOf, fingerprint, now);
        var s := Ensure(t.state, fingerprint);
        if observation.Some? {
          var o := observation.value;
          ObservedEnd(s, policyOf(fingerprint), o, now);
          forall x | x in Observed(s, policyOf(fingerprint), o.at, o.cpu, now).pending ensures x in s.pending {
            ObservedMembers(s, policyOf(fingerprint), o, now, x);
          }
        }
      case Finish(action, verification, now) =>
        if t.state.Some? && verification.Some? {
          AdaptedIsHealthy(t.state.value, Effective(policyOf(t.state.value.fingerprint)), action);
          var s, f := Adapted(t.state.value, action), verification.value.(issuedAt := now);
          forall x | x in Recorded(s, Some(f)).pending ensures x.at >= e {
            RecordedMembers(s, f, x);
          }
        }
      case Discard(now) =>
    }
  }

  lemma {:induction false} RunKeepsPendingFrom(t: Trace, policyOf: Policies, steps: seq<Step>, e: int)
    requires AllAdmitted(policyOf) && Inv(t, policyOf) && PendingFrom(t, e)
    ensures PendingFrom(Run(t, policyOf, steps), e) && StartFrom(Run(t, policyOf, steps).scores, |t.scores|, e)
  {
    if |steps| > 0 {
      var front, last := steps[..|steps| - 1], steps[|steps| - 1];
      RunKeepsPendingFrom(t, policyOf, front, e);
      RunKeeps(t, policyOf, front);
      StepKeepsPendingFrom(Run(t, policyOf, front), policyOf, last, e, |t.scores|);
    }
  }
}
