/** Runs in which a plan misses a charge, a charge has no write, and a write is never charged. */
module ScaleJournalExamples {
  import opened Basics
  import opened ScaleJournal
  import opened ScaleJournalTheorems

  lemma RunStep(s: System, steps: seq<Step>, step: Step)
    requires Well(s)
    ensures Run(s, steps + [step]) == Exec(Run(s, steps), step)
  {
    assert (steps + [step])[..|steps|] == steps;
  }

  /** Two more steps from a state already reached. */
  lemma RunTwo(s: System, steps: seq<Step>, t: System, first: Step, second: Step) returns (more: seq<Step>)
    requires Well(s) && Run(s, steps) == t
    ensures Run(s, more) == Exec(Exec(t, first), second)
  {
    RunStep(s, steps, first);
    RunStep(s, steps + [first], second);
    more := steps + [first] + [second];
  }

  /** One target with one workload, to whose accounting the status belongs. */
  function Fresh(replicas: nat, status: Status): System {
    System([0], map[0 := Scale(0, 0, replicas)], 1, 1, None, [status], [], Idle, 0, {}, [], map[], [], {})
  }

  predicate Unused(status: Status) {
    status.identity == Some(Identity(0, 0)) && status.lastId.None?
  }

  function Chosen(replicas: nat, desired: nat, time: int): Decision {
    Decision(0, 0, 0, 0, replicas, desired, time, [], [])
  }

  /** The first decision has just been journaled. */
  function Pending(replicas: nat, status: Status, d: Decision): System {
    Fresh(replicas, status).(journal := Some(d), pc := Journaled(0, d), nextId := 1)
  }

  lemma PendingIsReached(replicas: nat, status: Status, desired: nat, time: int) returns (steps: seq<Step>)
    requires Unused(status) && desired != replicas
    ensures Init(Fresh(replicas, status))
    ensures Run(Fresh(replicas, status), steps) == Pending(replicas, status, Chosen(replicas, desired, time))
  {
    var s, view := Fresh(replicas, status), View(0, 0);
    steps := RunTwo(s, [], s, Start(view), Bind(Done));
    var bound := s.(pc := Bound(view, Scale(0, 0, replicas)));
    assert Exec(Exec(s, Start(view)), Bind(Done)) == bound;
    steps := RunTwo(s, steps, bound, Plan(desired, time, [], []), WriteJournal(Done));
  }

  /** The first decision's write has been accepted and charged. */
  function Recorded(replicas: nat, status: Status, d: Decision, periods: Periods): System {
    var entry := Charging(d, d.desired, periods, d.time);
    Fresh(replicas, status).(
      scales := map[0 := Scale(0, 1, d.desired)], nextVersion := 2, journal := Some(d), nextId := 1,
      movers := map[0 := Some(0)], accepted := [Accepted(d, 0)], ledger := [entry],
      statuses := [status, Applied(status, entry)], charged := [Charge(d, 1)], pc := Clearing(0, d, false, false))
  }

  lemma RecordedIsReached(replicas: nat, status: Status, desired: nat, time: int, periods: Periods)
    returns (steps: seq<Step>)
    requires Unused(status) && desired != replicas
    ensures Run(Fresh(replicas, status), steps) == Recorded(replicas, status, Chosen(replicas, desired, time), periods)
  {
    var s, d := Fresh(replicas, status), Chosen(replicas, desired, time);
    steps := PendingIsReached(replicas, status, desired, time);
    steps := RunTwo(s, steps, Pending(replicas, status, d), WriteScale(true), Record(periods, time, Done));
    WritesAndRecords(replicas, status, d, periods);
  }

  /** A first charge, answered. */
  lemma RecordsOnce(s: System, d: Decision, desired: int, periods: Periods, now: int)
    requires Well(s) && s.pc == Recording(Generation(s), d, desired) && Last(s).lastId != Some(d.id)
    ensures Exec(s, Record(periods, now, Done))
         == AddStatus(s, Charging(d, desired, periods, now)).(
              charged := s.charged + [Charge(d, |s.statuses|)], pc := Clearing(Generation(s), d, false, false))
  {
  }

  function Written(replicas: nat, status: Status, d: Decision): System {
    Fresh(replicas, status).(
      scales := map[0 := Scale(0, 1, d.desired)], nextVersion := 2, journal := Some(d), nextId := 1,
      movers := map[0 := Some(0)], accepted := [Accepted(d, 0)], pc := Recording(0, d, d.desired))
  }

  lemma WritesFirst(replicas: nat, status: Status, d: Decision)
    requires d.id == 0 && d.target == 0 && d.targetUid == 0 && d.version == 0
    ensures Exec(Pending(replicas, status, d), WriteScale(true)) == Written(replicas, status, d)
  {
    var t := Exec(Pending(replicas, status, d), WriteScale(true));
    assert t.accepted == [Accepted(d, 0)] && t.scales == map[0 := Scale(0, 1, d.desired)];
  }

  lemma WritesAndRecords(replicas: nat, status: Status, d: Decision, periods: Periods)
    requires Unused(status) && d.id == 0 && d.target == 0 && d.targetUid == 0 && d.version == 0
    ensures Exec(Exec(Pending(replicas, status, d), WriteScale(true)), Record(periods, d.time, Done))
         == Recorded(replicas, status, d, periods)
  {
    WritesFirst(replicas, status, d);
    RecordsOnce(Written(replicas, status, d), d, d.desired, periods, d.time);
    AddsFirst(Written(replicas, status, d), status, Charging(d, d.desired, periods, d.time));
  }

  lemma AddsFirst(s: System, status: Status, entry: Entry)
    requires s.statuses == [status] && s.ledger == []
    ensures AddStatus(s, entry) == s.(statuses := [status, Applied(status, entry)], ledger := [entry])
  {
  }

  /** A plan that starts from an older cached status misses a durable charge. */
  lemma CachedStatusMayMissTheCharge(replicas: nat, status: Status, desired: nat, time: int, periods: Periods)
    returns (steps: seq<Step>)
    requires Unused(status) && desired != replicas
    ensures Init(Fresh(replicas, status))
    ensures var t := Run(Fresh(replicas, status), steps);
            var a := Accepted(Chosen(replicas, desired, time), 0);
            && t.pc.Bound? && a in t.accepted && Unchanged(t, a) && IsCharged(t, a.d.id)
            && t.pc.view.status <= |t.ledger| < |t.statuses| && !ChargedBy(t, t.pc.view.status, a.d.id)
  {
    var s, d := Fresh(replicas, status), Chosen(replicas, desired, time);
    steps := RecordedIsReached(replicas, status, desired, time, periods);
    var recorded := Recorded(replicas, status, d, periods);
    steps := RunTwo(s, steps, recorded, CheckOwner, Clear(Done));
    var cleared := recorded.(journal := None, pc := Idle);
    assert Exec(Exec(recorded, CheckOwner), Clear(Done)) == cleared;
    steps := RunTwo(s, steps, cleared, Start(View(0, 0)), Bind(Done));
    assert cleared.statuses[0] == status;
    assert cleared.charged[0].d.id == 0 && cleared.accepted[0] == Accepted(d, 0);
  }

  /** The process has died before its write, and someone else has scaled. */
  function Outpaced(replicas: nat, status: Status, d: Decision, other: nat): System {
    Pending(replicas, status, d).(
      pc := Idle, scales := map[0 := Scale(0, 1, other)], movers := map[0 := None], nextVersion := 2)
  }

  lemma OutpacedIsReached(replicas: nat, status: Status, desired: nat, time: int, other: nat)
    returns (steps: seq<Step>)
    requires Unused(status) && desired != replicas
    ensures Run(Fresh(replicas, status), steps) == Outpaced(replicas, status, Chosen(replicas, desired, time), other)
  {
    var d := Chosen(replicas, desired, time);
    steps := PendingIsReached(replicas, status, desired, time);
    steps := RunTwo(Fresh(replicas, status), steps, Pending(replicas, status, d), Crash, ChangeScale(0, other));
    var t := Exec(Exec(Pending(replicas, status, d), Crash), ChangeScale(0, other));
    assert t == Outpaced(replicas, status, d, other);
  }

  lemma RecoveryFindsOther(replicas: nat, status: Status, d: Decision, other: nat)
    requires Unused(status) && d.id == 0 && d.target == 0 && d.targetUid == 0 && d.version == 0
    ensures Exec(Exec(Outpaced(replicas, status, d, other), Start(View(0, 0))), Recover(d.time))
         == Outpaced(replicas, status, d, other).(pc := Recording(0, d, other))
  {
    var t := Exec(Outpaced(replicas, status, d, other), Start(View(0, 0)));
    assert t.statuses[0] == status && t.specs[0] == 0;
  }

  /** Recovery takes any other change of Scale for its own write, and charges a write that was never sent. */
  lemma RecoveryMayOvercharge(replicas: nat, status: Status, desired: nat, time: int, other: nat, periods: Periods)
    returns (steps: seq<Step>)
    requires Unused(status) && desired != replicas
    ensures Init(Fresh(replicas, status))
    ensures var t := Run(Fresh(replicas, status), steps);
            IsCharged(t, 0) && !IsAccepted(t, 0) && t.flight == {}
  {
    var s, d := Fresh(replicas, status), Chosen(replicas, desired, time);
    var outpaced := Outpaced(replicas, status, d, other);
    steps := OutpacedIsReached(replicas, status, desired, time, other);
    steps := RunTwo(s, steps, outpaced, Start(View(0, 0)), Recover(time));
    RecoveryFindsOther(replicas, status, d, other);
    RunStep(s, steps, Record(periods, time, Done));
    steps := steps + [Record(periods, time, Done)];
    var t := Exec(outpaced.(pc := Recording(0, d, other)), Record(periods, time, Done));
    assert t.charged == [Charge(d, 1)] && t.charged[0].d.id == 0 && t.accepted == [];
  }

  /** The write is in flight, and recovery has read the unchanged Scale. */
  function Overlooking(replicas: nat, status: Status, d: Decision): System {
    Pending(replicas, status, d).(flight := {Accepted(d, 0)}, pc := Clearing(0, d, true, true))
  }

  lemma RecoveryOverlooks(replicas: nat, status: Status, d: Decision)
    requires Unused(status) && d.id == 0 && d.target == 0 && d.targetUid == 0 && d.version == 0
    ensures var t := Pending(replicas, status, d).(flight := {Accepted(d, 0)}, pc := Recovering(View(0, 0), d));
            && Exec(Exec(Pending(replicas, status, d), WriteScale(false)), Start(View(0, 0))) == t
            && Exec(Exec(t, Recover(d.time)), CheckOwner) == Overlooking(replicas, status, d)
  {
    var t := Pending(replicas, status, d).(flight := {Accepted(d, 0)}, pc := Recovering(View(0, 0), d));
    assert t.statuses[0] == status && t.specs[0] == 0;
    assert Accepted(d, 0) in t.flight;
    assert InFlight(t, d);
  }

  lemma OverlookingIsReached(replicas: nat, status: Status, desired: nat, time: int) returns (steps: seq<Step>)
    requires Unused(status) && desired != replicas
    ensures Run(Fresh(replicas, status), steps) == Overlooking(replicas, status, Chosen(replicas, desired, time))
  {
    var s, d := Fresh(replicas, status), Chosen(replicas, desired, time);
    var t := Pending(replicas, status, d).(flight := {Accepted(d, 0)}, pc := Recovering(View(0, 0), d));
    RecoveryOverlooks(replicas, status, d);
    steps := PendingIsReached(replicas, status, desired, time);
    steps := RunTwo(s, steps, Pending(replicas, status, d), WriteScale(false), Start(View(0, 0)));
    steps := RunTwo(s, steps, t, Recover(time), CheckOwner);
  }

  /** The journal has been cleared and the write has landed. */
  function Landed(replicas: nat, status: Status, d: Decision): System {
    Fresh(replicas, status).(
      scales := map[0 := Scale(0, 1, d.desired)], nextVersion := 2, nextId := 1,
      movers := map[0 := Some(0)], accepted := [Accepted(d, 0)], released := {0})
  }

  lemma ClearedThenLands(replicas: nat, status: Status, d: Decision)
    requires d.id == 0 && d.target == 0 && d.targetUid == 0 && d.version == 0
    ensures Exec(Exec(Overlooking(replicas, status, d), Clear(Done)), Deliver(Accepted(d, 0)))
         == Landed(replicas, status, d)
  {
    var cleared := Exec(Overlooking(replicas, status, d), Clear(Done));
    assert cleared.flight - {Accepted(d, 0)} == {};
    assert cleared.released == {0};
    var t := Exec(cleared, Deliver(Accepted(d, 0)));
    assert t.accepted == [Accepted(d, 0)] && t.scales == map[0 := Scale(0, 1, d.desired)];
  }

  /** A request that lands after recovery has read Scale and cleared the journal is never charged. */
  lemma LateWriteIsNeverCharged(replicas: nat, status: Status, desired: nat, time: int) returns (steps: seq<Step>)
    requires Unused(status) && desired != replicas
    ensures Init(Fresh(replicas, status))
    ensures var t := Run(Fresh(replicas, status), steps);
            var a := Accepted(Chosen(replicas, desired, time), 0);
            && t.pc.Bound? && t.journal.None? && t.pc.view.status == |t.statuses| - 1
            && a in t.accepted && Unchanged(t, a) && !IsCharged(t, a.d.id)
  {
    var s, d := Fresh(replicas, status), Chosen(replicas, desired, time);
    var a, landed := Accepted(d, 0), Landed(replicas, status, d);
    steps := OverlookingIsReached(replicas, status, desired, time);
    steps := RunTwo(s, steps, Overlooking(replicas, status, d), Clear(Done), Deliver(a));
    ClearedThenLands(replicas, status, d);
    steps := RunTwo(s, steps, landed, Start(View(0, 0)), Bind(Done));
    assert landed.statuses[0] == status && landed.accepted[0] == a;
  }
}
