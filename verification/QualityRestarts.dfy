/** Scored intervals across restarts of the reliability state: exactly when they stay disjoint. */
module QualityRestarts {
  import opened Basics
  import opened Quality
  import opened QualityFacts
  import opened QualityRun

  // ----- Recording and observing one forecast -----

  lemma RecordFirst(s: State, f: Forecast)
    requires ValidPoint(f) && ForLead(s, f.lead).pending == []
    ensures Recorded(s, Some(f)) == ForLead(s, f.lead).(pending := [f])
  {
    SortInserts([], f);
    assert [] + [f] == [f];
  }

  lemma MatchOnly(f: Forecast, at: int, lastEnd: int)
    requires Covers(f, at) && f.at >= lastEnd
    ensures Match([f], at, lastEnd) == Some(f) && Ahead([f], at) == []
  {
    assert [f][..0] == [];
    assert Match([f][..0], at, lastEnd) == None && Ahead([f][..0], at) == [];
  }

  /** The two steps that record a forecast at one instant and score it at another. */
  ghost function Scoring(t: Trace, policyOf: Policies, fingerprint: string, f: Forecast, now: int, at: int): Trace
    requires AllAdmitted(policyOf)
  {
    Exec(Exec(t, policyOf, Finish("", Some(f), now)), policyOf, Evaluate(fingerprint, Some(Observation(at, 0)), at))
  }

  predicate Scorable(f: Forecast, now: int, at: int) {
    0 <= now < f.at <= at < f.until <= f.at + DAY && f.cpu >= 0 && f.lead > 0
  }

  lemma ScoringScores(t: Trace, policyOf: Policies, fingerprint: string, f: Forecast, now: int, at: int)
    requires AllAdmitted(policyOf) && Inv(t, policyOf) && t.clock <= now && Scorable(f, now, at)
    requires t.state.Some? && ForLead(t.state.value, f.lead) == Empty(fingerprint).(lead := f.lead)
    ensures var u := Scoring(t, policyOf, fingerprint, f, now, at);
            && u.era == t.era + (if ChangesLead(t.state.value, f.(issuedAt := now)) then 1 else 0)
            && u.scores == t.scores + [Score(f.(issuedAt := now), at, u.era)]
            && u.clock == at && u.state.Some? && u.state.value.fingerprint == fingerprint
            && u.state.value.lead == f.lead
  {
    var g := f.(issuedAt := now);
    RecordFirst(t.state.value, g);
    StepKeeps(t, policyOf, Finish("", Some(f), now));
    var r := Exec(t, policyOf, Finish("", Some(f), now));
    var s := Empty(fingerprint).(lead := f.lead, pending := [g]);
    assert r.state == Some(s);
    HealthyIsValid(s, Effective(policyOf(fingerprint)));
    assert Ensure(r.state, fingerprint) == s;
    MatchOnly(g, at, 0);
    assert MatchFor(s, at, 0, at) == Some(g);
    ScoreTouchesOnlyEvidence(Consumed(s, at), Effective(policyOf(fingerprint)), g, at, 0);
  }

  // ----- After a restart -----

  /** Right after a restart only forecasts issued by the restarting step are pending. */
  lemma RestartEmpties(t: Trace, policyOf: Policies, step: Step)
    requires AllAdmitted(policyOf) && Inv(t, policyOf) && Exec(t, policyOf, step).era != t.era
    ensures var u := Exec(t, policyOf, step); u.scores == t.scores && forall p :: p in PendingOf(u) ==> p.at > u.clock
  {
    match step
    case Evaluate(fingerprint, observation, now) =>
      if observation.Some? {
        var s, o := Empty(fingerprint), observation.value;
        ObservedEnd(s, policyOf(fingerprint), o, now);
        forall x | x in Observed(s, policyOf(fingerprint), o.at, o.cpu, now).pending ensures x in s.pending {
          ObservedMembers(s, policyOf(fingerprint), o, now, x);
        }
      }
    case Finish(action, verification, now) =>
      RecordFirst(Adapted(t.state.value, action), verification.value.(issuedAt := now));
    case Discard(now) =>
  }

  lemma RunStep(t: Trace, policyOf: Policies, steps: seq<Step>, step: Step)
    requires AllAdmitted(policyOf)
    ensures Run(t, policyOf, steps + [step]) == Exec(Run(t, policyOf, steps), policyOf, step)
  {
    assert (steps + [step])[..|steps|] == steps;
  }

  /** While a scored interval is still open, starting over lets another one begin inside it. */
  lemma OverlapIsReachable(u: Trace, policyOf: Policies, e: int) returns (more: seq<Step>)
    requires AllAdmitted(policyOf) && Inv(u, policyOf) && 0 <= u.clock && e > u.clock + 1
    ensures !StartFrom(Run(u, policyOf, more).scores, |u.scores|, e)
  {
    var c := u.clock;
    var f := Forecast(c + 1, c + 2, 0, 0, 1);
    more := [] + [Discard(c)];
    RunStep(u, policyOf, [], Discard(c));
    StepKeeps(u, policyOf, Discard(c));
    var a := Exec(u, policyOf, Discard(c));
    RunStep(u, policyOf, more, Evaluate("", None, c));
    more := more + [Evaluate("", None, c)];
    StepKeeps(a, policyOf, Evaluate("", None, c));
    var b := Exec(a, policyOf, Evaluate("", None, c));
    RunStep(u, policyOf, more, Finish("", Some(f), c));
    more := more + [Finish("", Some(f), c)];
    RunStep(u, policyOf, more, Evaluate("", Some(Observation(c + 1, 0)), c + 1));
    more := more + [Evaluate("", Some(Observation(c + 1, 0)), c + 1)];
    ScoringScores(b, policyOf, "", f, c, c + 1);
    assert Run(u, policyOf, more).scores[|u.scores|].forecast.at == c + 1;
  }

  /**
    After a restart every later score, in every continuation, starts at or after all
    earlier scored ends, if and only if the restart came no earlier than a nanosecond
    before the last of them. The "only if" half starts over once more: from any state
    that early, discarding it again lets a score begin inside a scored interval.
   */
  lemma RestartKeepsDisjointExactly(clock: int, policyOf: Policies, steps: seq<Step>, step: Step)
    requires AllAdmitted(policyOf)
    requires var t := Run(Init(clock), policyOf, steps);
             Exec(t, policyOf, step).era != t.era && Exec(t, policyOf, step).clock >= 0
    ensures var u := Exec(Run(Init(clock), policyOf, steps), policyOf, step);
            var e := EndOf(u.scores, 0);
            (forall more :: StartFrom(Run(u, policyOf, more).scores, |u.scores|, e)) <==> e <= u.clock + 1
  {
    RunKeeps(Init(clock), policyOf, steps);
    var t := Run(Init(clock), policyOf, steps);
    StepKeeps(t, policyOf, step);
    var u := Exec(t, policyOf, step);
    var e := EndOf(u.scores, 0);
    if e <= u.clock + 1 {
      RestartEmpties(t, policyOf, step);
      forall more ensures StartFrom(Run(u, policyOf, more).scores, |u.scores|, e) {
        RunKeepsPendingFrom(u, policyOf, more, e);
      }
    } else {
      var more := OverlapIsReachable(u, policyOf, e);
    }
  }

  // ----- Whole runs -----

  /** Every restart of the run comes at or after the last scored end, less a nanosecond. */
  ghost predicate RestartsLate(t: Trace, policyOf: Policies, steps: seq<Step>)
    requires AllAdmitted(policyOf)
  {
    |steps| > 0 ==>
      var before := Run(t, policyOf, steps[..|steps| - 1]);
      var after := Exec(before, policyOf, steps[|steps| - 1]);
      && RestartsLate(t, policyOf, steps[..|steps| - 1])
      && (after.era != before.era ==> EndOf(before.scores, 0) <= after.clock + 1)
  }

  ghost predicate Disjoint(scores: seq<Score>) {
    forall i, j :: 0 <= i < j < |scores| ==> scores[i].forecast.until <= scores[j].forecast.at
  }

  /** Scores of earlier eras ended before anything that is or will be pending starts. */
  ghost predicate Settled(t: Trace) {
    && Disjoint(t.scores)
    && (forall i :: 0 <= i < |t.scores| && t.scores[i].era < t.era ==> t.scores[i].forecast.until <= t.clock + 1)
    && (forall i, p :: 0 <= i < |t.scores| && t.scores[i].era < t.era && p in PendingOf(t) ==>
          t.scores[i].forecast.until <= p.at)
  }

  lemma RestartSettles(t: Trace, policyOf: Policies, step: Step)
    requires AllAdmitted(policyOf) && Inv(t, policyOf) && Settled(t)
    requires Exec(t, policyOf, step).era != t.era && EndOf(t.scores, 0) <= Exec(t, policyOf, step).clock + 1
    ensures Settled(Exec(t, policyOf, step))
  {
    RestartEmpties(t, policyOf, step);
    forall i | 0 <= i < |t.scores| ensures t.scores[i].forecast.until <= EndOf(t.scores, 0) {
      EndOfIsUpper(t.scores, 0, i);
    }
  }

  lemma EvaluateSettles(t: Trace, policyOf: Policies, fingerprint: string, observation: Option<Observation>, now: int)
    requires AllAdmitted(policyOf) && Inv(t, policyOf) && Settled(t) && t.clock <= now
    requires Evaluated(t, policyOf, fingerprint, observation, now).era == t.era
    ensures Settled(Evaluated(t, policyOf, fingerprint, observation, now))
  {
    var u := Evaluated(t, policyOf, fingerprint, observation, now);
    if observation.Some? {
      var s, o := t.state.value, observation.value;
      forall x | x in PendingOf(u) ensures x in PendingOf(t) {
        ObservedMembers(s, policyOf(fingerprint), o, now, x);
      }
      var m := MatchFor(s, o.at, o.cpu, now);
      if m.Some? {
        MatchStartsAfter(t, policyOf, o, now);
      }
      SettledGrows(t, u);
    }
  }

  /** What an observation scores next starts after everything scored. */
  lemma MatchStartsAfter(t: Trace, policyOf: Policies, o: Observation, now: int)
    requires AllAdmitted(policyOf) && Inv(t, policyOf) && Settled(t) && t.state.Some?
    requires MatchFor(t.state.value, o.at, o.cpu, now).Some?
    ensures var m := MatchFor(t.state.value, o.at, o.cpu, now).value;
            forall i :: 0 <= i < |t.scores| ==> t.scores[i].forecast.until <= m.at
  {
    var s := t.state.value;
    ObservedEnd(s, policyOf(s.fingerprint), o, now);
    var m := MatchFor(s, o.at, o.cpu, now).value;
    forall i | 0 <= i < |t.scores| ensures t.scores[i].forecast.until <= m.at {
      assert t.scores[i].era <= t.era;
    }
  }

  lemma SettledGrows(t: Trace, u: Trace)
    requires Settled(t) && u.era == t.era && t.clock <= u.clock
    requires forall x :: x in PendingOf(u) ==> x in PendingOf(t)
    requires u.scores == t.scores
          || (|u.scores| == |t.scores| + 1 && u.scores[..|t.scores|] == t.scores && u.scores[|t.scores|].era == t.era
              && forall i :: 0 <= i < |t.scores| ==> t.scores[i].forecast.until <= u.scores[|t.scores|].forecast.at)
    ensures Settled(u)
  {
    assert forall i :: 0 <= i < |t.scores| ==> u.scores[i] == u.scores[..|t.scores|][i];
  }

  lemma FinishSettles(t: Trace, policyOf: Policies, action: string, verification: Option<Forecast>, now: int)
    requires AllAdmitted(policyOf) && Inv(t, policyOf) && Settled(t) && t.clock <= now
    requires Finished(t, action, verification, now).era == t.era
    ensures Settled(Finished(t, action, verification, now))
  {
    var u := Finished(t, action, verification, now);
    if t.state.Some? && verification.Some? {
      AdaptedIsHealthy(t.state.value, Effective(policyOf(t.state.value.fingerprint)), action);
      var s, f := Adapted(t.state.value, action), verification.value.(issuedAt := now);
      forall x | x in PendingOf(u) ensures x in PendingOf(t) || x.at > t.clock {
        RecordedMembers(s, f, x);
      }
    }
  }

  lemma {:induction false} RunSettles(clock: int, policyOf: Policies, steps: seq<Step>)
    requires AllAdmitted(policyOf) && RestartsLate(Init(clock), policyOf, steps)
    ensures Settled(Run(Init(clock), policyOf, steps))
  {
    if |steps| > 0 {
      var front, last := steps[..|steps| - 1], steps[|steps| - 1];
      RunSettles(clock, policyOf, front);
      RunKeeps(Init(clock), policyOf, front);
      var t := Run(Init(clock), policyOf, front);
      var u := Exec(t, policyOf, last);
      assert Run(Init(clock), policyOf, steps) == u;
      if u.era != t.era {
        RestartSettles(t, policyOf, last);
      } else if last.now >= t.clock {
        match last
        case Evaluate(fingerprint, observation, now) => EvaluateSettles(t, policyOf, fingerprint, observation, now);
        case Finish(action, verification, now) => FinishSettles(t, policyOf, action, verification, now);
        case Discard(now) =>
      }
    }
  }

  /** In every run whose restarts come late enough, all scored intervals are disjoint and increasing. */
  lemma LateRestartsKeepDisjoint(clock: int, policyOf: Policies, steps: seq<Step>)
    requires AllAdmitted(policyOf) && RestartsLate(Init(clock), policyOf, steps)
    ensures Disjoint(Run(Init(clock), policyOf, steps).scores)
  {
    RunSettles(clock, policyOf, steps);
  }

  /** A changed lead inside a scored interval: [10, 20) is scored at 15, and [17, 27) under the new lead at 17. */
  lemma LeadChangeOverlaps(policyOf: Policies, fingerprint: string) returns (steps: seq<Step>)
    requires AllAdmitted(policyOf)
    ensures var scores := Run(Init(0), policyOf, steps).scores;
            |scores| == 2 && scores[1].forecast.at < scores[0].forecast.until
  {
    var t: Trace;
    steps, t := FirstScore(policyOf, fingerprint);
    steps := ScoringRun(policyOf, steps, fingerprint, Forecast(17, 27, 0, 0, 2), 16, 17);
    ScoringScores(t, policyOf, fingerprint, Forecast(17, 27, 0, 0, 2), 16, 17);
  }

  /** Both steps at the end of a run. */
  lemma ScoringRun(policyOf: Policies, steps: seq<Step>, fingerprint: string, f: Forecast, now: int, at: int)
    returns (more: seq<Step>)
    requires AllAdmitted(policyOf)
    ensures Run(Init(0), policyOf, more) == Scoring(Run(Init(0), policyOf, steps), policyOf, fingerprint, f, now, at)
  {
    var first, second := Finish("", Some(f), now), Evaluate(fingerprint, Some(Observation(at, 0)), at);
    RunStep(Init(0), policyOf, steps, first);
    RunStep(Init(0), policyOf, steps + [first], second);
    more := steps + [first] + [second];
  }

  /** An evaluation at 0 has stored an empty state. */
  lemma FirstState(policyOf: Policies, fingerprint: string) returns (steps: seq<Step>, t: Trace)
    requires AllAdmitted(policyOf)
    ensures t == Run(Init(0), policyOf, steps) && t == Trace(Some(Empty(fingerprint)), [], 1, 0)
  {
    var first := Evaluate(fingerprint, None, 0);
    steps := [first];
    t := Exec(Init(0), policyOf, first);
    assert steps[..0] == [];
  }

  /** The interval [10, 20) has been scored at 15, under lead 1. */
  lemma FirstScore(policyOf: Policies, fingerprint: string) returns (steps: seq<Step>, t: Trace)
    requires AllAdmitted(policyOf)
    ensures t == Run(Init(0), policyOf, steps) && Inv(t, policyOf) && t.clock == 15
    ensures t.scores == [Score(Forecast(10, 20, 5, 0, 1), 15, t.era)]
    ensures t.state.Some? && t.state.value.fingerprint == fingerprint && t.state.value.lead == 1
  {
    steps, t := FirstState(policyOf, fingerprint);
    RunKeeps(Init(0), policyOf, steps);
    ScoringScores(t, policyOf, fingerprint, Forecast(10, 20, 0, 0, 1), 5, 15);
    steps := ScoringRun(policyOf, steps, fingerprint, Forecast(10, 20, 0, 0, 1), 5, 15);
    RunKeeps(Init(0), policyOf, steps);
    t := Run(Init(0), policyOf, steps);
  }
}
