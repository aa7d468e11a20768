/**
  The journal and the rate limit together. While nobody else changes the target and
  no recovery overtakes a request in flight, the charges are the accepted writes in
  order, and the durable event histories are those of the real replica trajectory,
  through crashes, lost responses, retries and recoveries.
 */
module JournalRate {
  import opened Basics
  import opened ScaleBehavior
  import opened RateRun
  import opened ScaleJournal
  import opened ScaleJournalProofs
  import opened ScaleJournalTheorems

  datatype Setting = Setting(target: nat, uid: nat, initial: nat, periods: Periods)

  /** Nobody else changes the target, its Scale or the policy periods. */
  predicate Quiet(x: Setting, step: Step) {
    match step
    case EditSpec(target) => target == x.target
    case ChangeScale(target, _) => target != x.target
    case DeleteScale(target) => target != x.target
    case Record(periods, _, _) => periods == x.periods
    case _ => true
  }

  predicate AllQuiet(x: Setting, steps: seq<Step>) {
    forall i :: 0 <= i < |steps| ==> Quiet(x, steps[i])
  }

  // ----- What quiet runs keep -----

  /** One target and one workload, to which the accounting belongs, and one pair of windows. */
  predicate Stable(x: Setting, s: System) {
    && (forall g :: 0 <= g < |s.specs| ==> s.specs[g] == x.target)
    && x.target in s.scales && s.scales[x.target].uid == x.uid
    && (forall i :: 0 <= i < |s.statuses| ==> s.statuses[i].identity == Some(Identity(x.target, x.uid)))
  }

  /** The count that writes leave behind. */
  function Left(x: Setting, writes: seq<Accepted>): int {
    if |writes| == 0 then x.initial else writes[|writes| - 1].d.desired
  }

  /** Each accepted write was planned on the count the one before it left, and Scale holds the last. */
  ghost predicate Chained(x: Setting, s: System) {
    && (forall i :: 0 <= i < |s.accepted| ==> s.accepted[i].d.target == x.target && s.accepted[i].d.targetUid == x.uid)
    && (|s.accepted| > 0 ==> s.accepted[0].d.previous == x.initial)
    && (forall i, j :: 0 <= i < j < |s.accepted| && j == i + 1 ==> s.accepted[j].d.previous == s.accepted[i].d.desired)
    && (forall i, j :: 0 <= i < j < |s.accepted| ==> s.accepted[i].d.id != s.accepted[j].d.id)
    && x.target in s.scales && s.scales[x.target].replicas == Left(x, s.accepted)
  }

  /** Charges follow the accepted writes one by one; at most the pending one is missing. */
  predicate Followed(s: System) {
    && |s.charged| <= |s.accepted| <= |s.charged| + 1
    && (forall i :: 0 <= i < |s.charged| ==> s.charged[i].d == s.accepted[i].d)
    && (|s.accepted| == |s.charged| + 1 ==> s.journal == Some(s.accepted[|s.charged|].d))
  }

  predicate OnTop(x: Setting, s: System, d: Decision) {
    && d.target == x.target && d.targetUid == x.uid
    && x.target in s.scales && d.version == s.scales[x.target].version && d.previous == s.scales[x.target].replicas
  }

  predicate JustWritten(s: System, d: Decision) {
    |s.accepted| > 0 && s.accepted[|s.accepted| - 1].d == d
  }

  /** The working decision stands on the current Scale, or is the write that made it. */
  predicate Fits(x: Setting, s: System) {
    && (s.journal.Some? ==> OnTop(x, s, s.journal.value) || JustWritten(s, s.journal.value))
    && match s.pc
       case Bound(_, scale) => x.target in s.scales && scale == s.scales[x.target]
       case Planned(_, d) => OnTop(x, s, d)
       case Journaled(_, d) => OnTop(x, s, d)
       case Recording(_, d, _) => JustWritten(s, d)
       case Clearing(_, _, _, late) => !late
       case _ => true
  }

  /** Only the pending decision can be in flight, and nothing is while the controller works. */
  ghost predicate Grounded(s: System) {
    && (forall w :: w in s.flight ==> s.journal == Some(w.d))
    && (!s.pc.Idle? && !s.pc.Recovering? ==> s.flight == {})
  }

  function RecordedAt(ledger: seq<Entry>, c: Charge): int {
    if 0 < c.index <= |ledger| && ledger[c.index - 1].Charging? then ledger[c.index - 1].now else 0
  }

  /** The charged writes, with the instants at which they were planned and written. */
  predicate MatchesCharges(charges: seq<Charge>, ledger: seq<Entry>, run: seq<Write>) {
    && |run| == |charges|
    && forall i :: 0 <= i < |run| ==>
         && run[i].time == charges[i].d.time && run[i].recorded == RecordedAt(ledger, charges[i])
         && run[i].replicas == charges[i].d.desired
  }

  predicate Matches(s: System, run: seq<Write>) {
    MatchesCharges(s.charged, s.ledger, run)
  }

  function LogOf(status: Status): Log {
    Log(status.upEvents, status.downEvents)
  }

  /** The status holds the event histories of the charged writes. */
  ghost predicate Traced(x: Setting, status: Status, charges: seq<Charge>, ledger: seq<Entry>) {
    forall run :: MatchesCharges(charges, ledger, run) ==>
      LogOf(status) == Events(x.initial, run, x.periods.up, x.periods.down)
  }

  ghost predicate Traces(x: Setting, s: System)
    requires Well(s)
  {
    Traced(x, Last(s), s.charged, s.ledger)
  }

  ghost predicate Keeps(x: Setting, s: System) {
    Well(s) && Stable(x, s) && Chained(x, s) && Followed(s) && Fits(x, s) && Grounded(s)
  }

  ghost predicate Starts(x: Setting, s: System) {
    && Init(s) && Stable(x, s) && s.scales[x.target].replicas == x.initial
    && s.statuses[0].upEvents == [] && s.statuses[0].downEvents == []
  }

  lemma StartsKeeps(x: Setting, s: System)
    requires Starts(x, s)
    ensures Keeps(x, s) && Traces(x, s)
  {
  }

  // ----- Steps that leave the records alone -----

  ghost predicate SameTrail(x: Setting, s: System, t: System) {
    && t.statuses == s.statuses && t.ledger == s.ledger && t.charged == s.charged && t.accepted == s.accepted
    && x.target in s.scales && x.target in t.scales && t.scales[x.target] == s.scales[x.target]
  }

  lemma SameTrailKeeps(x: Setting, s: System, t: System)
    requires Keeps(x, s) && SameTrail(x, s, t) && |t.specs| > 0 && Fits(x, t) && Grounded(t)
    requires forall g :: 0 <= g < |t.specs| ==> t.specs[g] == x.target
    requires |t.accepted| == |t.charged| || t.journal == s.journal
    ensures Keeps(x, t)
  {
  }

  lemma NothingInFlight(s: System)
    requires Grounded(s) && s.journal.None?
    ensures s.flight == {}
  {
    assert forall w :: w !in s.flight;
  }

  lemma StartIsQuiet(x: Setting, s: System, view: View)
    requires Keeps(x, s)
    ensures Keeps(x, Exec(s, Start(view)))
  {
    if s.journal.None? {
      NothingInFlight(s);
    }
    SameTrailKeeps(x, s, Exec(s, Start(view)));
  }

  lemma RecoverIsQuiet(x: Setting, s: System, now: int)
    requires Keeps(x, s) && PendingOk(s) && s.flight == {}
    ensures Keeps(x, Exec(s, Recover(now)))
  {
    if s.pc.Recovering? && ViewWell(s, s.pc.view) {
      assert s.specs[s.pc.view.generation] == x.target;
      assert !InFlight(s, s.pc.d);
    }
    SameTrailKeeps(x, s, Exec(s, Recover(now)));
  }

  lemma BindIsQuiet(x: Setting, s: System, outcome: Outcome)
    requires Keeps(x, s)
    ensures Keeps(x, Exec(s, Bind(outcome)))
  {
    if s.pc.Ready? && ViewWell(s, s.pc.view) {
      assert s.specs[s.pc.view.generation] == x.target;
      assert s.statuses[s.pc.view.status].identity == Some(Identity(x.target, x.uid));
    }
    SameTrailKeeps(x, s, Exec(s, Bind(outcome)));
  }

  lemma PlanIsQuiet(x: Setting, s: System, step: Step)
    requires Keeps(x, s) && step.Plan?
    ensures Keeps(x, Exec(s, step))
  {
    if s.pc.Bound? && ViewWell(s, s.pc.view) {
      assert s.specs[s.pc.view.generation] == x.target;
    }
    SameTrailKeeps(x, s, Exec(s, step));
  }

  lemma PauseIsQuiet(x: Setting, s: System, step: Step)
    requires Keeps(x, s) && (step.WriteJournal? || step.GiveUp? || step.CheckOwner? || step.Crash?)
    ensures Keeps(x, Exec(s, step))
  {
    if step.WriteJournal? {
      SameTrailKeeps(x, s, Exec(s, step));
    } else if Exec(s, step) != s {
      PositionIsQuiet(x, s, Exec(s, step).pc);
    }
  }

  /** A new position that claims nothing new. */
  lemma PositionIsQuiet(x: Setting, s: System, pc: Pc)
    requires Keeps(x, s) && (pc.Idle? || (pc.Clearing? && !pc.late && s.flight == {}))
    ensures Keeps(x, s.(pc := pc))
  {
    SameTrailKeeps(x, s, s.(pc := pc));
  }

  lemma AroundIsQuiet(x: Setting, s: System, step: Step)
    requires Keeps(x, s) && Quiet(x, step)
    requires step.EditSpec? || step.ChangeScale? || step.DeleteScale? || step.CreateScale?
    ensures Keeps(x, Exec(s, step))
  {
    SameTrailKeeps(x, s, Exec(s, step));
  }

  // ----- The Scale write -----

  /** One more accepted write on top of the current count. */
  lemma AcceptedIsQuiet(x: Setting, s: System, t: System, w: Accepted)
    requires Keeps(x, s) && s.journal == Some(w.d) && OnTop(x, s, w.d)
    requires forall i :: 0 <= i < |s.accepted| ==> s.accepted[i].d.id != w.d.id
    requires t == ScaleWritten(s, w).(pc := t.pc, flight := t.flight) && Grounded(t)
    requires (t.pc == s.pc && (s.pc.Idle? || s.pc.Recovering?)) || (t.pc.Recording? && t.pc.d == w.d)
    ensures Keeps(x, t)
  {
    assert t.accepted[|s.accepted|] == w;
  }

  lemma WriteIsQuiet(x: Setting, s: System, answered: bool)
    requires Keeps(x, s) && PendingOk(s)
    ensures Keeps(x, Exec(s, WriteScale(answered)))
  {
    var t := Exec(s, WriteScale(answered));
    if s.pc.Journaled? && answered {
      forall i | 0 <= i < |s.accepted| ensures s.accepted[i].d.id != s.pc.d.id {
        assert Sent(s, s.accepted[i]);
      }
      AcceptedIsQuiet(x, s, t, Accepted(s.pc.d, s.pc.generation));
    } else {
      SameTrailKeeps(x, s, t);
    }
  }

  lemma DeliverIsQuiet(x: Setting, s: System, w: Accepted)
    requires Keeps(x, s) && DecisionsOk(s)
    ensures Keeps(x, Exec(s, Deliver(w)))
  {
    var t := Exec(s, Deliver(w));
    if w in s.flight && Applies(s, w.d) {
      forall i | 0 <= i < |s.accepted| ensures s.accepted[i].d.id != w.d.id {
        assert Sent(s, s.accepted[i]) && Sent(s, w);
      }
      AcceptedIsQuiet(x, s, t, w);
    } else {
      SameTrailKeeps(x, s, t);
    }
  }

  // ----- The charge -----

  /** A first charge records one more write in the event histories, in the way the rate limit counts on. */
  lemma ChargeIsRecord(status: Status, d: Decision, desired: int, periods: Periods, now: int, write: Write)
    requires status.lastId != Some(d.id)
    requires write.time == d.time && write.recorded == now && write.replicas == d.desired
    ensures LogOf(Applied(status, Charging(d, desired, periods, now)))
         == RateRun.Record(LogOf(status), d.previous, write, periods.up, periods.down)
  {
    ProjectedLog(status, d, desired, periods, now);
    if d.desired > d.previous {
      assert EventOf(d) == UpEvent(d.previous, write);
    } else {
      assert EventOf(d) == DownEvent(d.previous, write);
    }
  }

  lemma ProjectedLog(status: Status, d: Decision, desired: int, periods: Periods, now: int)
    requires status.lastId != Some(d.id)
    ensures var up := if d.desired > d.previous then status.upEvents + [EventOf(d)] else status.upEvents;
            var down := if d.desired > d.previous then status.downEvents else status.downEvents + [EventOf(d)];
            LogOf(Applied(status, Charging(d, desired, periods, now)))
            == Persisted(Log(Prune(up, periods.up, now), Prune(down, periods.down, now)))
  {
  }

  /** Every charge has its entry in the ledger. */
  predicate Entered(s: System) {
    forall i :: 0 <= i < |s.charged| ==> 0 < s.charged[i].index <= |s.ledger|
  }

  lemma ChargesAreEntered(s: System)
    requires Inv(s)
    ensures Entered(s) && |s.statuses| == |s.ledger| + 1
  {
    forall i | 0 <= i < |s.charged| ensures 0 < s.charged[i].index <= |s.ledger| {
      assert ChargeOk(s, s.charged[i]);
    }
  }

  lemma MatchesBefore(s: System, t: System, run: seq<Write>, n: nat)
    requires Entered(s) && n == |s.charged| && s.charged <= t.charged && s.ledger <= t.ledger
    requires Matches(t, run)
    ensures n <= |run| && Matches(s, run[..n])
  {
    forall i | 0 <= i < n ensures RecordedAt(t.ledger, t.charged[i]) == RecordedAt(s.ledger, s.charged[i]) {
      assert s.charged[i] == t.charged[i];
    }
  }

  /** The count that the charged writes leave behind. */
  function LeftBy(x: Setting, charges: seq<Charge>): int {
    if |charges| == 0 then x.initial else charges[|charges| - 1].d.desired
  }

  /** A first charge is of the last accepted write, and that was planned on what the charges before it left. */
  lemma ChargeContinues(x: Setting, s: System, d: Decision)
    requires Keeps(x, s) && s.pc.Recording? && s.pc.d == d && !IsCharged(s, d.id)
    ensures |s.accepted| == |s.charged| + 1 && s.accepted[|s.charged|].d == d
    ensures d.previous == LeftBy(x, s.charged)
  {
    assert forall i :: 0 <= i < |s.charged| ==> s.charged[i].d.id != d.id;
  }

  lemma NewWriteMatches(x: Setting, s: System, t: System, d: Decision, desired: int, now: int, run: seq<Write>)
    requires Well(s) && Entered(s) && |s.statuses| == |s.ledger| + 1
    requires t == Charged(s, d, desired, x.periods, now).(pc := t.pc) && Matches(t, run)
    ensures |run| == |s.charged| + 1 && Matches(s, run[..|s.charged|])
    ensures Current(x.initial, run[..|s.charged|]) == LeftBy(x, s.charged)
    ensures var write := run[|s.charged|]; write.time == d.time && write.recorded == now && write.replicas == d.desired
  {
    MatchesBefore(s, t, run, |s.charged|);
    assert t.charged[|s.charged|] == Charge(d, |s.statuses|);
    assert t.ledger[|s.ledger|] == Charging(d, desired, x.periods, now);
  }

  lemma EventsEndWith(x: Setting, run: seq<Write>, n: nat, log: Log)
    requires |run| == n + 1 && log == Events(x.initial, run[..n], x.periods.up, x.periods.down)
    ensures RateRun.Record(log, Current(x.initial, run[..n]), run[n], x.periods.up, x.periods.down)
         == Events(x.initial, run, x.periods.up, x.periods.down)
  {
  }

  lemma ChargeTracesOne(x: Setting, status: Status, d: Decision, desired: int, now: int, run: seq<Write>, n: nat)
    requires status.lastId != Some(d.id) && |run| == n + 1 && d.previous == Current(x.initial, run[..n])
    requires run[n].time == d.time && run[n].recorded == now && run[n].replicas == d.desired
    requires LogOf(status) == Events(x.initial, run[..n], x.periods.up, x.periods.down)
    ensures LogOf(Applied(status, Charging(d, desired, x.periods, now)))
         == Events(x.initial, run, x.periods.up, x.periods.down)
  {
    EventsEndWith(x, run, n, LogOf(status));
    ChargeIsRecord(status, d, desired, x.periods, now, run[n]);
  }

  lemma ChargeTraces(x: Setting, s: System, t: System, d: Decision, desired: int, now: int)
    requires Well(s) && Entered(s) && |s.statuses| == |s.ledger| + 1 && Traces(x, s) && Last(s).lastId != Some(d.id)
    requires d.previous == LeftBy(x, s.charged) && t == Charged(s, d, desired, x.periods, now).(pc := t.pc)
    ensures Traces(x, t)
  {
    forall run | MatchesCharges(t.charged, t.ledger, run)
      ensures LogOf(Last(t)) == Events(x.initial, run, x.periods.up, x.periods.down)
    {
      NewWriteMatches(x, s, t, d, desired, now, run);
      ChargeTracesOne(x, Last(s), d, desired, now, run, |s.charged|);
    }
  }

  lemma AgainSaves(status: Status, d: Decision, desired: int, periods: Periods, now: int)
    requires status.lastId == Some(d.id)
    ensures LogOf(Applied(status, Charging(d, desired, periods, now))) == Persisted(LogOf(status))
  {
  }

  lemma AgainTraces(x: Setting, s: System, t: System, d: Decision, desired: int, now: int)
    requires Well(s) && Entered(s) && Traces(x, s) && Last(s).lastId == Some(d.id)
    requires t == AddStatus(s, Charging(d, desired, x.periods, now)).(pc := t.pc)
    ensures Traces(x, t)
  {
    forall run | MatchesCharges(t.charged, t.ledger, run)
      ensures LogOf(Last(t)) == Events(x.initial, run, x.periods.up, x.periods.down)
    {
      MatchesBefore(s, t, run, |s.charged|);
      assert run[..|s.charged|] == run;
      EventsArePersisted(x.initial, run, x.periods.up, x.periods.down);
      AgainSaves(Last(s), d, desired, x.periods, now);
    }
  }

  lemma RecordedKeeps(x: Setting, s: System, t: System, entry: Entry)
    requires Keeps(x, s) && s.pc.Recording? && entry.Charging?
    requires t == AddStatus(s, entry).(pc := t.pc, charged := t.charged)
    requires t.charged == s.charged
          || (t.charged == s.charged + [Charge(s.pc.d, |s.statuses|)]
              && |s.accepted| == |s.charged| + 1 && s.accepted[|s.charged|].d == s.pc.d)
    requires t.pc.Idle? || (t.pc.Clearing? && !t.pc.late)
    ensures Keeps(x, t)
  {
  }

  predicate Records(s: System, step: Step)
    requires |s.specs| > 0
  {
    step.Record? && s.pc.Recording? && s.pc.generation == Generation(s) && TakesEffect(step.outcome)
  }

  /** What a first charge would charge is the one accepted write that is not charged yet. */
  predicate Continues(s: System)
    requires |s.statuses| > 0
  {
    s.pc.Recording? && Last(s).lastId != Some(s.pc.d.id) ==>
      |s.accepted| == |s.charged| + 1 && s.accepted[|s.charged|].d == s.pc.d
  }

  lemma ContinuesHolds(x: Setting, s: System)
    requires Keeps(x, s) && Inv(s)
    ensures Continues(s)
  {
    if s.pc.Recording? && Last(s).lastId != Some(s.pc.d.id) {
      NotNamedYet(s, s.pc.d);
      ChargeContinues(x, s, s.pc.d);
    }
  }

  lemma RecordIsQuiet(x: Setting, s: System, step: Step)
    requires Keeps(x, s) && Continues(s) && step.Record?
    ensures Keeps(x, Exec(s, step))
  {
    if Records(s, step) {
      RecordedKeeps(x, s, Exec(s, step), Charging(s.pc.d, s.pc.desired, step.periods, step.now));
    } else {
      SameTrailKeeps(x, s, Exec(s, step));
    }
  }

  lemma RecordTraces(x: Setting, s: System, step: Step)
    requires Keeps(x, s) && Inv(s) && Traces(x, s) && Records(s, step) && Quiet(x, step)
    ensures Traces(x, Exec(s, step))
  {
    var t := Exec(s, step);
    var Recording(_, d, desired) := s.pc;
    ChargesAreEntered(s);
    if Last(s).lastId == Some(d.id) {
      AgainTraces(x, s, t, d, desired, step.now);
    } else {
      NotNamedYet(s, d);
      ChargeContinues(x, s, d);
      ChargeTraces(x, s, t, d, desired, step.now);
    }
  }

  /** Only a durable status patch of a charge changes the histories. */
  lemma OthersAddNothing(x: Setting, s: System, step: Step)
    requires Keeps(x, s) && !Records(s, step)
    ensures var t := Exec(s, step); t.statuses == s.statuses && t.ledger == s.ledger && t.charged == s.charged
  {
    if step.Bind? {
      if s.pc.Ready? && ViewWell(s, s.pc.view) {
        assert s.specs[s.pc.view.generation] == x.target;
        assert s.statuses[s.pc.view.status].identity == Some(Identity(x.target, x.uid));
      }
    } else {
      OnlyBindAndRecordAdd(s, step);
    }
  }

  lemma OnlyBindAndRecordAdd(s: System, step: Step)
    requires Well(s) && !step.Bind? && !Records(s, step)
    ensures var t := Exec(s, step); t.statuses == s.statuses && t.ledger == s.ledger && t.charged == s.charged
  {
  }

  lemma StepTraces(x: Setting, s: System, step: Step)
    requires Keeps(x, s) && Inv(s) && Traces(x, s) && Quiet(x, step)
    ensures Well(Exec(s, step)) && Traces(x, Exec(s, step))
  {
    if Records(s, step) {
      RecordTraces(x, s, step);
    } else {
      OthersAddNothing(x, s, step);
    }
  }

  // ----- Clearing -----

  lemma LastIsUncharged(x: Setting, s: System)
    requires Chained(x, s) && Followed(s) && |s.accepted| == |s.charged| + 1
    ensures !IsCharged(s, s.accepted[|s.charged|].d.id)
  {
    forall k | 0 <= k < |s.charged| ensures s.charged[k].d.id != s.accepted[|s.charged|].d.id {
      assert s.charged[k].d == s.accepted[k].d;
    }
  }

  /** What a checked clearing would drop has been charged. */
  lemma CheckedIsCharged(x: Setting, s: System, w: Accepted)
    requires Keeps(x, s) && DecisionsOk(s) && SentOk(s) && s.pc.Clearing? && s.pc.checked && w.d == s.pc.d
          && w in s.accepted
    ensures IsCharged(s, w.d.id)
  {
    assert Sent(s, w) && Clears(s, w);
  }

  /** Nothing accepted is cleared before it is charged. */
  lemma ClearIsQuiet(x: Setting, s: System, outcome: Outcome)
    requires Keeps(x, s) && DecisionsOk(s) && SentOk(s) && PendingOk(s)
    ensures Keeps(x, Exec(s, Clear(outcome)))
  {
    if s.pc.Clearing? && s.pc.checked && |s.accepted| == |s.charged| + 1 {
      LastIsUncharged(x, s);
      CheckedIsCharged(x, s, s.accepted[|s.charged|]);
    }
    SameTrailKeeps(x, s, Exec(s, Clear(outcome)));
  }

  // ----- Every quiet run -----

  lemma StepIsQuiet(x: Setting, s: System, step: Step)
    requires Keeps(x, s) && Inv(s) && Quiet(x, step) && (step.Recover? ==> s.flight == {})
    ensures Keeps(x, Exec(s, step))
  {
    if Prepares(step) {
      PreparationIsQuiet(x, s, step);
    } else if step.WriteScale? || step.Deliver? || step.Vanish? {
      ScaleStepIsQuiet(x, s, step);
    } else if step.Record? || step.CheckOwner? || step.Clear? || step.Crash? {
      SettlementIsQuiet(x, s, step);
    } else {
      AroundIsQuiet(x, s, step);
    }
  }

  lemma PreparationIsQuiet(x: Setting, s: System, step: Step)
    requires Keeps(x, s) && PendingOk(s) && Prepares(step) && (step.Recover? ==> s.flight == {})
    ensures Keeps(x, Exec(s, step))
  {
    match step
    case Start(view) => StartIsQuiet(x, s, view);
    case Recover(now) => RecoverIsQuiet(x, s, now);
    case Bind(outcome) => BindIsQuiet(x, s, outcome);
    case Plan(_, _, _, _) => PlanIsQuiet(x, s, step);
    case _ => PauseIsQuiet(x, s, step);
  }

  lemma ScaleStepIsQuiet(x: Setting, s: System, step: Step)
    requires Keeps(x, s) && PendingOk(s) && DecisionsOk(s) && (step.WriteScale? || step.Deliver? || step.Vanish?)
    ensures Keeps(x, Exec(s, step))
  {
    match step
    case WriteScale(answered) => WriteIsQuiet(x, s, answered);
    case Deliver(w) => DeliverIsQuiet(x, s, w);
    case Vanish(w) => SameTrailKeeps(x, s, Exec(s, step));
  }

  lemma SettlementIsQuiet(x: Setting, s: System, step: Step)
    requires Keeps(x, s) && Inv(s) && (step.Record? || step.CheckOwner? || step.Clear? || step.Crash?)
    ensures Keeps(x, Exec(s, step))
  {
    match step
    case Record(_, _, _) =>
      ContinuesHolds(x, s);
      RecordIsQuiet(x, s, step);
    case Clear(outcome) => ClearIsQuiet(x, s, outcome);
    case _ => PauseIsQuiet(x, s, step);
  }

  ghost predicate Holds(x: Setting, s: System) {
    Inv(s) && Keeps(x, s) && Traces(x, s)
  }

  lemma StepHolds(x: Setting, s: System, step: Step)
    requires Holds(x, s) && Quiet(x, step) && (step.Recover? ==> s.flight == {})
    ensures Holds(x, Exec(s, step))
  {
    StepKeeps(s, step);
    StepIsQuiet(x, s, step);
    StepTraces(x, s, step);
  }

  lemma {:induction false} RunHolds(x: Setting, s: System, steps: seq<Step>)
    requires Well(s) && Holds(x, s) && AllQuiet(x, steps) && Prompt(s, steps)
    ensures Holds(x, Run(s, steps))
    decreases |steps|
  {
    if |steps| > 0 {
      var front, last := steps[..|steps| - 1], steps[|steps| - 1];
      assert AllQuiet(x, front) && Quiet(x, last);
      RunHolds(x, s, front);
      StepHolds(x, Run(s, front), last);
    }
  }

  // ----- What a plan counts on -----

  /**
    In every run in which nobody else changes the target and no recovery overtakes a
    request in flight: when a plan is made, the charges are the accepted writes in
    order, the plan sees the count they left, and the newest status holds exactly the
    event histories of these writes.
   */
  lemma QuietRunsTraceTheTrajectory(x: Setting, s: System, steps: seq<Step>, run: seq<Write>)
    requires Starts(x, s) && AllQuiet(x, steps) && Prompt(s, steps)
    ensures var t := Run(s, steps);
            t.pc.Bound? ==>
              && |t.charged| == |t.accepted| && (forall i :: 0 <= i < |t.charged| ==> t.charged[i].d == t.accepted[i].d)
              && (Matches(t, run) ==>
                    && t.pc.scale.replicas == Current(x.initial, run)
                    && LogOf(Last(t)) == Events(x.initial, run, x.periods.up, x.periods.down))
  {
    StartsKeeps(x, s);
    InitHolds(s);
    RunHolds(x, s, steps);
    if Run(s, steps).pc.Bound? {
      BoundIsSettled(x, Run(s, steps), run);
    }
  }

  /** Once a pass is bound, every accepted write is charged and the trail is complete. */
  lemma BoundIsSettled(x: Setting, t: System, run: seq<Write>)
    requires Well(t) && Holds(x, t) && t.pc.Bound?
    ensures |t.charged| == |t.accepted| && (forall i :: 0 <= i < |t.charged| ==> t.charged[i].d == t.accepted[i].d)
    ensures Matches(t, run) ==>
              && t.pc.scale.replicas == Current(x.initial, run)
              && LogOf(Last(t)) == Events(x.initial, run, x.periods.up, x.periods.down)
  {
  }

  /**
    So the journal delivers what the rate limit promises: a plan on the newest status
    never scales up past what the policies allow on the real replica trajectory.
   */
  lemma QuietUpscaleWithinRealLimit(x: Setting, s: System, steps: seq<Step>, run: seq<Write>, behavior: Behavior,
                                    target: int, minReplicas: int, maxReplicas: int,
                                    ups: seq<Sample>, downs: seq<Sample>, now: int)
    requires Starts(x, s) && AllQuiet(x, steps) && Prompt(s, steps) && x.periods == PeriodsOf(behavior)
    requires Run(s, steps).pc.Bound? && Matches(Run(s, steps), run)
    requires Chronological(x.initial, run) && After(run, now) && Covered(behavior)
    requires Settled(behavior.scaleUp.policies, x.initial, run, now)
    ensures var t := Run(s, steps);
            var plan := Decide(behavior, t.pc.scale.replicas, target, minReplicas, maxReplicas, ups, downs,
                               Prune(Last(t).upEvents, x.periods.up, now),
                               Prune(Last(t).downEvents, x.periods.down, now), now);
            plan.desired > t.pc.scale.replicas ==>
              plan.desired <= Max(minReplicas, RealUpLimit(behavior.scaleUp, x.initial, run, now))
  {
    QuietRunsTraceTheTrajectory(x, s, steps, run);
    UpscaleWithinRealLimit(behavior, x.initial, run, target, minReplicas, maxReplicas, ups, downs, now);
  }

  /** Nor down past what they allow on it. */
  lemma QuietDownscaleWithinRealLimit(x: Setting, s: System, steps: seq<Step>, run: seq<Write>, behavior: Behavior,
                                      target: int, minReplicas: int, maxReplicas: int,
                                      ups: seq<Sample>, downs: seq<Sample>, now: int)
    requires Starts(x, s) && AllQuiet(x, steps) && Prompt(s, steps) && x.periods == PeriodsOf(behavior)
    requires Run(s, steps).pc.Bound? && Matches(Run(s, steps), run)
    requires Chronological(x.initial, run) && After(run, now) && CoveredDown(behavior)
    requires Settled(behavior.scaleDown.policies, x.initial, run, now)
    ensures var t := Run(s, steps);
            var plan := Decide(behavior, t.pc.scale.replicas, target, minReplicas, maxReplicas, ups, downs,
                               Prune(Last(t).upEvents, x.periods.up, now),
                               Prune(Last(t).downEvents, x.periods.down, now), now);
            plan.desired < t.pc.scale.replicas ==>
              plan.desired >= Min(maxReplicas, RealDownLimit(behavior.scaleDown, x.initial, run, now))
  {
    QuietRunsTraceTheTrajectory(x, s, steps, run);
    DownscaleWithinRealLimit(behavior, x.initial, run, target, minReplicas, maxReplicas, ups, downs, now);
  }
}
