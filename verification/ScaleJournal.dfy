/**
  The write-ahead scale journal: one controller coordinates the journal, the
  Scale object and the status accounting, none of which commit together, and
  recovers after a crash or an unknown outcome at any point. A Scale write whose
  response is lost stays in flight and takes effect at any later time, or never.
 */
module ScaleJournal {
  import opened Basics
  import opened ScaleBehavior

  // ----- Objects -----

  datatype Scale = Scale(uid: nat, version: nat, replicas: nat)

  datatype Decision = Decision(
    id: nat,
    target: nat,
    targetUid: nat,
    version: nat,
    previous: nat,
    desired: nat,
    time: int,
    ups: seq<Sample>,
    downs: seq<Sample>)

  /** The workload incarnation that accounting belongs to. */
  datatype Identity = Identity(target: nat, uid: nat)

  datatype Status = Status(
    identity: Option<Identity>,
    lastId: Option<nat>,
    lastTime: Option<int>,
    desired: int,
    ups: seq<Sample>,
    downs: seq<Sample>,
    upEvents: seq<Sample>,
    downEvents: seq<Sample>)

  /** Longest policy period of each direction, in seconds. */
  datatype Periods = Periods(up: int, down: int)

  // ----- Accounting -----

  /** The change a decision asks for, stamped with its decision time. */
  function EventOf(d: Decision): Sample {
    Sample(Some(d.time), if d.desired > d.previous then d.desired - d.previous else d.previous - d.desired)
  }

  /** Charges one decision to the status, at most once in a row. */
  function Project(status: Status, d: Decision, desired: int, periods: Periods, now: int): Status {
    if status.lastId == Some(d.id) then status
    else
      var up := d.desired > d.previous;
      var event := EventOf(d);
      status.(
        lastId := Some(d.id), lastTime := Some(d.time), desired := desired, ups := d.ups, downs := d.downs,
        upEvents := Prune(if up then status.upEvents + [event] else status.upEvents, periods.up, now),
        downEvents := Prune(if up then status.downEvents else status.downEvents + [event], periods.down, now))
  }

  /** Recording the same decision again changes nothing. */
  lemma ProjectIdempotent(status: Status, d: Decision, desired: int, periods: Periods, now: int,
                          desired': int, periods': Periods, now': int)
    ensures var once := Project(status, d, desired, periods, now);
            Project(once, d, desired', periods', now') == once
  {
  }

  /** A first charge adds exactly the decision's own change to every period both histories cover. */
  lemma ProjectChargesTheChange(status: Status, d: Decision, desired: int, periods: Periods, now: int, period: int)
    requires status.lastId != Some(d.id) && period <= periods.up && period <= periods.down
    ensures var after := Project(status, d, desired, periods, now);
            var charge := if d.time > now - period * SECOND then d.desired - d.previous else 0;
            && Changes(after.upEvents, period, now) - Changes(after.downEvents, period, now)
               == Changes(status.upEvents, period, now) - Changes(status.downEvents, period, now) + charge
            && after.lastId == Some(d.id)
  {
    var up := d.desired > d.previous;
    var event := EventOf(d);
    var ups := if up then status.upEvents + [event] else status.upEvents;
    var downs := if up then status.downEvents else status.downEvents + [event];
    assert (status.upEvents + [event])[..|status.upEvents|] == status.upEvents;
    assert (status.downEvents + [event])[..|status.downEvents|] == status.downEvents;
    PruneKeepsChanges(ups, periods.up, period, now, now);
    PruneKeepsChanges(downs, periods.down, period, now, now);
  }

  /** The status object whose fields the accounting updates in place. */
  class StatusObject {
    var identity: Option<Identity>
    var lastId: Option<nat>
    var lastTime: Option<int>
    var desired: int
    var ups: seq<Sample>
    var downs: seq<Sample>
    var upEvents: seq<Sample>
    var downEvents: seq<Sample>

    function Value(): Status
      reads this
    {
      Status(identity, lastId, lastTime, desired, ups, downs, upEvents, downEvents)
    }

    method ProjectScaleDecision(behavior: Behavior, d: Decision, desiredNow: int, now: int)
      modifies this
      ensures Value() == Project(old(Value()), d, desiredNow, PeriodsOf(behavior), now)
    {
      if lastId == Some(d.id) {
        return;
      }
      var increased, decreased := ChargedEvents(upEvents, downEvents, behavior, d, now);
      lastId := Some(d.id);
      lastTime := Some(d.time);
      desired := desiredNow;
      ups, downs := d.ups, d.downs;
      upEvents, downEvents := increased, decreased;
    }
  }

  function PeriodsOf(behavior: Behavior): Periods {
    Periods(LongestPeriod(behavior.scaleUp.policies), LongestPeriod(behavior.scaleDown.policies))
  }

  method ChargedEvents(up: seq<Sample>, down: seq<Sample>, behavior: Behavior, d: Decision, now: int)
    returns (increased: seq<Sample>, decreased: seq<Sample>)
    ensures increased == Prune(if d.desired > d.previous then up + [EventOf(d)] else up, PeriodsOf(behavior).up, now)
    ensures decreased
         == Prune(if d.desired > d.previous then down else down + [EventOf(d)], PeriodsOf(behavior).down, now)
  {
    var longestUp := GetLongestPolicyPeriod(behavior.scaleUp);
    var longestDown := GetLongestPolicyPeriod(behavior.scaleDown);
    increased, decreased := up, down;
    if d.desired > d.previous {
      increased := increased + [Sample(Some(d.time), d.desired - d.previous)];
    } else {
      decreased := decreased + [Sample(Some(d.time), d.previous - d.desired)];
    }
    increased := PruneTimestampedReplicasToWindow(increased, longestUp, now);
    decreased := PruneTimestampedReplicasToWindow(decreased, longestDown, now);
  }

  /** Binding to another incarnation discards the accounting of the previous one. */
  function Rebind(status: Status, identity: Identity, replicas: int): Status {
    var kept := if status.identity.Some? && status.identity != Some(identity)
                then Status(None, None, None, 0, [], [], [], []) else status;
    kept.(identity := Some(identity), desired := replicas)
  }

  /** What a written status reads back as: timestamps are kept in whole seconds. */
  function Saved(status: Status): Status {
    status.(
      lastTime := if status.lastTime.Some? then Some(WholeSecond(status.lastTime.value)) else None,
      ups := Persist(status.ups), downs := Persist(status.downs),
      upEvents := Persist(status.upEvents), downEvents := Persist(status.downEvents))
  }

  // ----- The system -----

  /** What a reconciliation read at its start: possibly stale positions in the spec and status histories. */
  datatype View = View(generation: nat, status: nat)

  datatype Pc =
    | Idle
    | Ready(view: View)                                   // no journal found
    | Bound(view: View, scale: Scale)                     // accounting bound, about to plan
    | Planned(generation: nat, d: Decision)
    | Journaled(generation: nat, d: Decision)
    | Recovering(view: View, d: Decision)
    | Recording(generation: nat, d: Decision, desired: int)
    | Clearing(generation: nat, d: Decision, checked: bool, late: bool)

  /** A journal or status write is answered, or its response is lost with or without effect. */
  datatype Outcome = Done | Lost(applied: bool)

  /** A Scale write, by the reconciliation of one generation. */
  datatype Accepted = Accepted(d: Decision, generation: nat)

  /** How one durable status follows from the one before it. */
  datatype Entry =
    | Charging(d: Decision, desired: int, periods: Periods, now: int)
    | Binding(identity: Identity, replicas: int)

  /** A charge, and the position of the status that made it. */
  datatype Charge = Charge(d: Decision, index: nat)

  /**
    `specs` lists the target reference of every spec generation, `statuses` every
    durable status, `ledger` what led from each to the next; their last elements are
    current. `flight` holds the Scale writes of unknown outcome. The rest records what
    happened: the Scale writes that took effect, what moved each Scale version, the
    charges, and the decisions cleared while their write was in flight.
   */
  datatype System = System(
    specs: seq<nat>,
    scales: map<nat, Scale>,
    nextVersion: nat,
    nextUid: nat,
    journal: Option<Decision>,
    statuses: seq<Status>,
    ledger: seq<Entry>,
    pc: Pc,
    nextId: nat,
    flight: set<Accepted>,
    accepted: seq<Accepted>,
    movers: map<nat, Option<nat>>,
    charged: seq<Charge>,
    released: set<nat>)

  datatype Step =
    | Start(view: View)
    | Recover(now: int)
    | Bind(outcome: Outcome)
    | Plan(desired: nat, time: int, ups: seq<Sample>, downs: seq<Sample>)
    | WriteJournal(outcome: Outcome)
    | GiveUp(clear: bool, reread: bool)
    | WriteScale(answered: bool)
    | Deliver(write: Accepted)
    | Vanish(write: Accepted)
    | Record(periods: Periods, now: int, outcome: Outcome)
    | CheckOwner
    | Clear(outcome: Outcome)
    | Crash
    | EditSpec(target: nat)
    | ChangeScale(target: nat, replicas: nat)
    | DeleteScale(target: nat)
    | CreateScale(target: nat, replicas: nat)

  predicate TakesEffect(outcome: Outcome) {
    outcome.Done? || outcome.applied
  }

  function Generation(s: System): nat
    requires |s.specs| > 0
  {
    |s.specs| - 1
  }

  function Applied(status: Status, entry: Entry): Status {
    match entry
    case Charging(d, desired, periods, now) => Saved(Project(status, d, desired, periods, now))
    case Binding(identity, replicas) => Saved(Rebind(status, identity, replicas))
  }

  function Last(s: System): Status
    requires |s.statuses| > 0
  {
    s.statuses[|s.statuses| - 1]
  }

  function AddStatus(s: System, entry: Entry): System
    requires |s.statuses| > 0
  {
    s.(statuses := s.statuses + [Applied(Last(s), entry)], ledger := s.ledger + [entry])
  }

  /** The request is still unanswered. */
  predicate InFlight(s: System, d: Decision) {
    exists w :: w in s.flight && w.d == d
  }

  function ExecRecover(s: System, now: int): System
    requires s.pc.Recovering? && s.pc.view.generation < |s.specs| && s.pc.view.status < |s.statuses|
  {
    var Recovering(view, d) := s.pc;
    var target := s.specs[view.generation];
    if d.time > now then s.(pc := Idle)   // kept for repair or until the clock catches up
    else if target != d.target || s.statuses[view.status].lastId == Some(d.id) || target !in s.scales
            || s.scales[target].uid != d.targetUid
    then s.(pc := Clearing(view.generation, d, false, false))
    else if s.scales[target].version == d.version   // no write took effect, so far
    then s.(pc := Clearing(view.generation, d, false, InFlight(s, d)))
    else s.(pc := Recording(view.generation, d, s.scales[target].replicas))
  }

  function ExecBind(s: System, outcome: Outcome): System
    requires s.pc.Ready? && |s.statuses| > 0
    requires s.pc.view.generation < |s.specs| && s.pc.view.status < |s.statuses|
  {
    var view := s.pc.view;
    var target := s.specs[view.generation];
    if target !in s.scales then s.(pc := Idle)
    else
      var scale := s.scales[target];
      var identity := Identity(target, scale.uid);
      if s.statuses[view.status].identity == Some(identity) then s.(pc := Bound(view, scale))
      else if view.generation != Generation(s) then s.(pc := Idle)
      else
        var t := if TakesEffect(outcome) then AddStatus(s, Binding(identity, scale.replicas)) else s;
        t.(pc := if outcome.Done? then Bound(View(view.generation, |t.statuses| - 1), scale) else Idle)
  }

  /** A decision that changes nothing is not journaled. */
  function ExecPlan(s: System, desired: nat, time: int, ups: seq<Sample>, downs: seq<Sample>): System
    requires s.pc.Bound? && s.pc.view.generation < |s.specs|
  {
    var Bound(view, scale) := s.pc;
    if desired == scale.replicas then s.(pc := Idle)
    else
      var d := Decision(s.nextId, s.specs[view.generation], scale.uid, scale.version, scale.replicas, desired, time,
                        ups, downs);
      s.(pc := Planned(view.generation, d), nextId := s.nextId + 1)
  }

  function ExecWriteJournal(s: System, outcome: Outcome): System
    requires s.pc.Planned?
  {
    var Planned(generation, d) := s.pc;
    if s.journal.Some? then s.(pc := Idle)
    else s.(journal := if TakesEffect(outcome) then Some(d) else s.journal,
            pc := if outcome.Done? then Journaled(generation, d) else Idle)
  }

  /** Inputs expired, the owner changed or a budget check failed after journaling; a changed owner is read again. */
  function ExecGiveUp(s: System, clear: bool, reread: bool): System
    requires s.pc.Journaled? && |s.specs| > 0
  {
    var Journaled(generation, d) := s.pc;
    s.(pc := if clear then Clearing(if reread then Generation(s) else generation, d, false, false) else Idle)
  }

  /** The conditional write finds the version it was planned on. */
  predicate Applies(s: System, d: Decision) {
    d.target in s.scales && s.scales[d.target].uid == d.targetUid && s.scales[d.target].version == d.version
  }

  function ScaleWritten(s: System, w: Accepted): System {
    s.(scales := s.scales[w.d.target := Scale(w.d.targetUid, s.nextVersion, w.d.desired)],
       nextVersion := s.nextVersion + 1,
       movers := s.movers[w.d.version := Some(w.d.id)],
       accepted := s.accepted + [w])
  }

  /** The conditional Scale write: accepted, rejected, or of unknown outcome and then in flight. */
  function ExecWriteScale(s: System, answered: bool): System
    requires s.pc.Journaled?
  {
    var Journaled(generation, d) := s.pc;
    var w := Accepted(d, generation);
    if !answered then s.(flight := s.flight + {w}, pc := Idle)
    else if !Applies(s, d) then s.(pc := Clearing(generation, d, false, false))
    else ScaleWritten(s, w).(pc := Recording(generation, d, d.desired))
  }

  /** The API server executes a Scale write in flight, at most once. */
  function ExecDeliver(s: System, w: Accepted): System {
    var t := s.(flight := s.flight - {w});
    if Applies(s, w.d) then ScaleWritten(t, w) else t
  }

  /** The status patch is conditional on the whole resource, so a newer spec rejects it. */
  function ExecRecord(s: System, periods: Periods, now: int, outcome: Outcome): System
    requires s.pc.Recording? && |s.specs| > 0 && |s.statuses| > 0
  {
    var Recording(generation, d, desired) := s.pc;
    if generation != Generation(s) || !TakesEffect(outcome) then s.(pc := Idle)
    else
      AddStatus(s, Charging(d, desired, periods, now)).(
        charged := if Last(s).lastId == Some(d.id) then s.charged else s.charged + [Charge(d, |s.statuses|)],
        pc := if outcome.Done? then Clearing(generation, d, false, false) else Idle)
  }

  /** Before a journal mutation the owner is read and must still be at the same generation. */
  function ExecCheckOwner(s: System): System
    requires s.pc.Clearing? && |s.specs| > 0
  {
    if s.pc.generation == Generation(s) then s.(pc := s.pc.(checked := true)) else s.(pc := Idle)
  }

  function ExecClear(s: System, outcome: Outcome): System
    requires s.pc.Clearing?
  {
    var d := s.pc.d;
    var clears := TakesEffect(outcome) && s.journal.Some? && s.journal.value.id == d.id;
    s.(journal := if clears then None else s.journal,
       released := if clears && s.pc.late then s.released + {d.id} else s.released,
       pc := Idle)
  }

  function ExecChangeScale(s: System, target: nat, replicas: nat): System
    requires target in s.scales
  {
    s.(scales := s.scales[target := Scale(s.scales[target].uid, s.nextVersion, replicas)],
       movers := s.movers[s.scales[target].version := None],
       nextVersion := s.nextVersion + 1)
  }

  predicate Well(s: System) {
    |s.specs| > 0 && |s.statuses| > 0
  }

  predicate ViewWell(s: System, view: View) {
    view.generation < |s.specs| && view.status < |s.statuses|
  }

  /** One atomic step; a step that is not enabled changes nothing. */
  function Exec(s: System, step: Step): (t: System)
    requires Well(s)
    ensures Well(t)
  {
    match step
    case Start(view) =>
      if s.pc.Idle? && ViewWell(s, view)
      then s.(pc := if s.journal.Some? then Recovering(view, s.journal.value) else Ready(view)) else s
    case Recover(now) =>
      if s.pc.Recovering? && ViewWell(s, s.pc.view) then ExecRecover(s, now) else s
    case Bind(outcome) =>
      if s.pc.Ready? && ViewWell(s, s.pc.view) then ExecBind(s, outcome) else s
    case Plan(desired, time, ups, downs) =>
      if s.pc.Bound? && ViewWell(s, s.pc.view) then ExecPlan(s, desired, time, ups, downs) else s
    case WriteJournal(outcome) =>
      if s.pc.Planned? then ExecWriteJournal(s, outcome) else s
    case GiveUp(clear, reread) =>
      if s.pc.Journaled? then ExecGiveUp(s, clear, reread) else s
    case WriteScale(answered) =>
      if s.pc.Journaled? then ExecWriteScale(s, answered) else s
    case Deliver(w) =>
      if w in s.flight then ExecDeliver(s, w) else s
    case Vanish(w) => s.(flight := s.flight - {w})   // never reaches the API server
    case Record(periods, now, outcome) =>
      if s.pc.Recording? then ExecRecord(s, periods, now, outcome) else s
    case CheckOwner =>
      if s.pc.Clearing? then ExecCheckOwner(s) else s
    case Clear(outcome) =>
      if s.pc.Clearing? && s.pc.checked then ExecClear(s, outcome) else s
    case Crash => s.(pc := Idle)
    case EditSpec(target) => s.(specs := s.specs + [target])
    case ChangeScale(target, replicas) =>
      if target in s.scales then ExecChangeScale(s, target, replicas) else s
    case DeleteScale(target) => s.(scales := s.scales - {target})
    case CreateScale(target, replicas) =>
      if target in s.scales then s
      else s.(scales := s.scales[target := Scale(s.nextUid, s.nextVersion, replicas)],
              nextVersion := s.nextVersion + 1, nextUid := s.nextUid + 1)
  }

  function Run(s: System, steps: seq<Step>): (t: System)
    requires Well(s)
    ensures Well(t)
    decreases |steps|
  {
    if |steps| == 0 then s
    else Exec(Run(s, steps[..|steps| - 1]), steps[|steps| - 1])
  }

  /** Different targets are different workloads, and versions are handed out once. */
  predicate Distinct(scales: map<nat, Scale>) {
    forall t, t' :: t in scales && t' in scales && t != t' ==>
      scales[t].uid != scales[t'].uid && scales[t].version != scales[t'].version
  }

  predicate Init(s: System) {
    && Well(s) && |s.statuses| == 1 && s.ledger == []
    && s.journal.None? && s.pc.Idle? && s.flight == {} && s.accepted == [] && s.charged == []
    && s.movers == map[] && s.released == {}
    && (forall t :: t in s.scales ==> s.scales[t].uid < s.nextUid && s.scales[t].version < s.nextVersion)
    && Distinct(s.scales) && s.statuses[0].lastId.None?
  }

  // ----- Invariant -----

  /** The target reference and the workload are what they were when the decision was made. */
  ghost predicate Unchanged(s: System, a: Accepted) {
    StillThere(s.specs, s.scales, a)
  }

  ghost predicate StillThere(specs: seq<nat>, scales: map<nat, Scale>, a: Accepted) {
    && a.generation < |specs|
    && (forall g :: a.generation <= g < |specs| ==> specs[g] == a.d.target)
    && a.d.target in scales && scales[a.d.target].uid == a.d.targetUid
  }

  predicate IsCharged(s: System, id: nat) {
    InCharges(s.charged, id)
  }

  predicate InCharges(charges: seq<Charge>, id: nat) {
    exists i :: 0 <= i < |charges| && charges[i].d.id == id
  }

  predicate IsAccepted(s: System, id: nat) {
    exists i :: 0 <= i < |s.accepted| && s.accepted[i].d.id == id
  }

  /** The decision's Scale write has been sent: it took effect or is in flight. */
  ghost predicate Sent(s: System, w: Accepted) {
    w in s.accepted || w in s.flight
  }

  function PendingOf(pc: Pc): Option<Decision> {
    match pc
    case Planned(_, d) => Some(d)
    case Journaled(_, d) => Some(d)
    case Recovering(_, d) => Some(d)
    case Recording(_, d, _) => Some(d)
    case Clearing(_, d, _, _) => Some(d)
    case _ => None
  }

  /** Every version in the model was handed out, belongs to one workload, and is current or has a mover. */
  ghost predicate VersionsOk(s: System) {
    && (forall t :: t in s.scales ==> CurrentScale(s.scales[t], s.nextUid, s.nextVersion, s.movers))
    && (forall v :: v in s.movers ==> v < s.nextVersion)
    && Distinct(s.scales)
  }

  predicate CurrentScale(scale: Scale, nextUid: nat, nextVersion: nat, movers: map<nat, Option<nat>>) {
    scale.uid < nextUid && scale.version < nextVersion && scale.version !in movers
  }

  /** A version seen on a workload is still current there, or has a mover. */
  predicate Seen(s: System, uid: nat, version: nat) {
    uid < s.nextUid && version < s.nextVersion && (version in s.movers || CurrentOn(s.scales, uid, version))
  }

  predicate CurrentOn(scales: map<nat, Scale>, uid: nat, version: nat) {
    forall t :: t in scales && scales[t].uid == uid ==> scales[t].version == version
  }

  ghost predicate DecisionOk(s: System, d: Decision) {
    d.id < s.nextId && Seen(s, d.targetUid, d.version)
  }

  ghost predicate DecisionsOk(s: System) {
    && (s.journal.Some? ==> DecisionOk(s, s.journal.value))
    && (PendingOf(s.pc).Some? ==> DecisionOk(s, PendingOf(s.pc).value))
    && (s.pc.Bound? ==> Seen(s, s.pc.scale.uid, s.pc.scale.version))
    && (forall w :: Sent(s, w) ==> DecisionOk(s, w.d) && w.generation < |s.specs|)
    && (forall w, w' :: Sent(s, w) && Sent(s, w') && w.d.id == w'.d.id ==> w == w')
    && (forall w :: Sent(s, w) && s.journal.Some? && w.d.id == s.journal.value.id ==> w.d == s.journal.value)
    && (forall w :: w in s.flight ==> w !in s.accepted)
  }

  /** A Scale write took effect exactly when it is what moved the version it was planned on. */
  ghost predicate MoversOk(s: System) {
    && (forall a :: a in s.accepted ==> a.d.version in s.movers && s.movers[a.d.version] == Some(a.d.id))
    && (forall v :: v in s.movers && s.movers[v].Some? ==> MovedBy(s.accepted, v, s.movers[v].value))
  }

  /** The accepted write of this decision moved the version. */
  ghost predicate MovedBy(accepted: seq<Accepted>, version: nat, id: nat) {
    exists i :: 0 <= i < |accepted| && accepted[i].d.id == id && accepted[i].d.version == version
  }

  /** Between journaling and clearing exactly the working decision is pending; a plan never has one. */
  ghost predicate PendingOk(s: System) {
    match s.pc
    case Idle => true
    case Ready(view) => s.journal.None?
    case Bound(view, _) => s.journal.None? && ViewWell(s, view)
    case Planned(generation, d) => s.journal.None? && generation < |s.specs| && Untouched(s, d)
    case Journaled(generation, d) => s.journal == Some(d) && generation < |s.specs| && Untouched(s, d)
    case Recovering(_, d) => s.journal == Some(d)
    case Recording(_, d, _) => s.journal == Some(d) && d.version in s.movers
    case Clearing(_, d, _, _) => s.journal == Some(d)
  }

  /** Neither sent to Scale, charged nor released. */
  ghost predicate Untouched(s: System, d: Decision) {
    !IsCharged(s, d.id) && d.id !in s.released && forall w :: Sent(s, w) ==> w.d.id != d.id
  }

  /** Each status follows from the one before by its ledger entry, and charges stand where the ledger made them. */
  ghost predicate LedgerOk(s: System)
    requires Well(s)
  {
    && Connected(s.statuses, s.ledger)
    && Placed(s.statuses, s.ledger, s.charged)
    && Named(s.statuses, s.charged)
    && Known(s.charged, s.nextId, s.released, s.movers)
  }

  predicate Connected(statuses: seq<Status>, ledger: seq<Entry>) {
    |statuses| == |ledger| + 1 && forall i :: 0 <= i < |ledger| ==> Follows(statuses, ledger, i)
  }

  /** The status after entry i is that entry applied to the one before. */
  predicate Follows(statuses: seq<Status>, ledger: seq<Entry>, i: nat)
    requires i < |ledger| < |statuses|
  {
    statuses[i + 1] == Applied(statuses[i], ledger[i])
  }

  predicate Placed(statuses: seq<Status>, ledger: seq<Entry>, charges: seq<Charge>) {
    forall i :: 0 <= i < |charges| ==> PlacedAt(statuses, ledger, charges[i])
  }

  /** The charge is the first projection of its decision. */
  predicate PlacedAt(statuses: seq<Status>, ledger: seq<Entry>, c: Charge) {
    && 0 < c.index < |statuses| && c.index <= |ledger|
    && ledger[c.index - 1].Charging? && ledger[c.index - 1].d == c.d
    && statuses[c.index].lastId == Some(c.d.id)
    && Unnamed(statuses, c.index, c.d.id)
  }

  /** None of the first statuses names the decision. */
  predicate Unnamed(statuses: seq<Status>, n: nat, id: nat)
    requires n <= |statuses|
  {
    forall j :: 0 <= j < n ==> statuses[j].lastId != Some(id)
  }

  ghost predicate Named(statuses: seq<Status>, charges: seq<Charge>) {
    forall i :: 0 <= i < |statuses| ==> NamedAt(statuses, charges, i)
  }

  ghost predicate NamedAt(statuses: seq<Status>, charges: seq<Charge>, i: nat)
    requires i < |statuses|
  {
    statuses[i].lastId.Some? ==> FirstBy(charges, i, statuses[i].lastId.value)
  }

  /** A status that names a decision comes at or after that decision's charge. */
  ghost predicate FirstBy(charges: seq<Charge>, i: nat, id: nat) {
    exists k :: 0 <= k < |charges| && charges[k].d.id == id && charges[k].index <= i
  }

  predicate Known(charges: seq<Charge>, nextId: nat, released: set<nat>, movers: map<nat, Option<nat>>) {
    forall i :: 0 <= i < |charges| ==>
      charges[i].d.id < nextId && charges[i].d.id !in released && charges[i].d.version in movers
  }

  predicate ChargeOk(s: System, c: Charge) {
    && PlacedAt(s.statuses, s.ledger, c)
    && c.d.id < s.nextId && c.d.id !in s.released && c.d.version in s.movers
  }

  ghost predicate ChargesOk(s: System)
    requires Well(s)
  {
    && (forall i, j :: 0 <= i < j < |s.charged| ==> s.charged[i].d.id != s.charged[j].d.id)
    && (s.journal.Some? && IsCharged(s, s.journal.value.id) ==> Last(s).lastId == Some(s.journal.value.id))
    && (s.journal.Some? ==> s.journal.value.id !in s.released)
    && (forall i :: 0 <= i < |s.charged| && s.journal.Some? && s.charged[i].d.id == s.journal.value.id ==>
          s.charged[i].d == s.journal.value)
    && (forall id :: id in s.released ==> id < s.nextId)
  }

  /** A sent write that is not charged is pending, released, or can no longer matter. */
  ghost predicate Settles(s: System, w: Accepted) {
    || IsCharged(s, w.d.id) || s.journal == Some(w.d) || w.d.id in s.released
    || !Unchanged(s, w) || (w in s.flight && w.d.version in s.movers)
  }

  /** Clearing does not drop a sent write that still needs its charge, unless it was in flight when Scale was read. */
  ghost predicate Clears(s: System, w: Accepted)
    requires s.pc.Clearing?
  {
    || IsCharged(s, w.d.id) || s.pc.late || !Unchanged(s, w) || (w in s.flight && w.d.version in s.movers)
    || (!s.pc.checked && s.pc.generation < |s.specs| && s.specs[s.pc.generation] != w.d.target)
  }

  ghost predicate SentOk(s: System) {
    && (forall w :: Sent(s, w) ==> Settles(s, w))
    && (s.pc.Clearing? ==> forall w :: Sent(s, w) && w.d == s.pc.d ==> Clears(s, w))
    && (s.pc.Clearing? && s.pc.late ==> !IsCharged(s, s.pc.d.id))
  }

  ghost predicate Inv(s: System) {
    && Well(s) && VersionsOk(s) && DecisionsOk(s) && MoversOk(s) && PendingOk(s)
    && LedgerOk(s) && ChargesOk(s) && SentOk(s)
  }
}
