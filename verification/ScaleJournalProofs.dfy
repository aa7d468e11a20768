/** What every step of the scale journal keeps. */
module ScaleJournalProofs {
  import opened Basics
  import opened ScaleBehavior
  import opened ScaleJournal

  // ----- Things that never come back -----

  /** Specs only grow, workload UIDs are never reused and versions only move forward. */
  ghost predicate Moves(s: System, t: System) {
    && |s.specs| <= |t.specs| && s.specs == t.specs[..|s.specs|]
    && s.nextUid <= t.nextUid && s.nextVersion <= t.nextVersion
    && (forall v :: v in s.movers ==> v in t.movers && t.movers[v] == s.movers[v])
    && (forall target :: target in t.scales ==>
          || t.scales[target].uid >= s.nextUid
          || (target in s.scales && s.scales[target].uid == t.scales[target].uid
              && (t.scales[target].version == s.scales[target].version || s.scales[target].version in t.movers)))
  }

  lemma ChangedStaysChanged(s: System, t: System, a: Accepted)
    requires Moves(s, t) && a.generation < |s.specs| && a.d.targetUid < s.nextUid
    requires Unchanged(t, a)
    ensures Unchanged(s, a)
  {
    forall g | a.generation <= g < |s.specs| ensures s.specs[g] == a.d.target {
      assert s.specs[g] == t.specs[g];
    }
  }

  lemma SeenStaysSeen(s: System, t: System, uid: nat, version: nat)
    requires Moves(s, t) && Seen(s, uid, version)
    ensures Seen(t, uid, version)
  {
  }

  // ----- Changes around the controller -----

  /** Only specs and Scale objects change; no Scale write of ours takes effect. */
  ghost predicate Around(s: System, t: System) {
    && t == s.(specs := t.specs, scales := t.scales, nextVersion := t.nextVersion, nextUid := t.nextUid,
               movers := t.movers)
    && (forall v :: v in t.movers ==> v in s.movers || t.movers[v] == None)
  }

  lemma AroundKeepsDecisions(s: System, t: System)
    requires Inv(s) && Moves(s, t) && Around(s, t) && VersionsOk(t)
    ensures DecisionsOk(t) && MoversOk(t) && PendingOk(t)
  {
    forall w | Sent(t, w) ensures DecisionOk(t, w.d) && w.generation < |t.specs| {
      assert Sent(s, w);
      SeenStaysSeen(s, t, w.d.targetUid, w.d.version);
    }
    if s.journal.Some? {
      SeenStaysSeen(s, t, s.journal.value.targetUid, s.journal.value.version);
    }
    if PendingOf(s.pc).Some? {
      SeenStaysSeen(s, t, PendingOf(s.pc).value.targetUid, PendingOf(s.pc).value.version);
    }
    if s.pc.Bound? {
      SeenStaysSeen(s, t, s.pc.scale.uid, s.pc.scale.version);
    }
    assert forall w, w' :: Sent(t, w) && Sent(t, w') ==> Sent(s, w) && Sent(s, w');
    assert forall w :: Sent(t, w) ==> Sent(s, w);
  }

  lemma AroundKeepsSent(s: System, t: System)
    requires Inv(s) && Moves(s, t) && Around(s, t)
    ensures SentOk(t)
  {
    forall w | Sent(t, w) ensures Settles(t, w) && (t.pc.Clearing? && w.d == t.pc.d ==> Clears(t, w)) {
      assert Sent(s, w) && Settles(s, w);
      if Unchanged(t, w) {
        ChangedStaysChanged(s, t, w);
      }
    }
  }

  lemma AroundKeepsLedger(s: System, t: System)
    requires Inv(s) && Moves(s, t) && Around(s, t)
    ensures LedgerOk(t) && ChargesOk(t)
  {
  }

  lemma AroundKeeps(s: System, t: System)
    requires Inv(s) && Moves(s, t) && Around(s, t) && VersionsOk(t)
    ensures Inv(t)
  {
    AroundKeepsDecisions(s, t);
    AroundKeepsSent(s, t);
    AroundKeepsLedger(s, t);
  }

  lemma EditSpecKeeps(s: System, target: nat)
    requires Inv(s)
    ensures Inv(Exec(s, EditSpec(target)))
  {
    AroundKeeps(s, Exec(s, EditSpec(target)));
  }

  lemma ChangeScaleKeeps(s: System, target: nat, replicas: nat)
    requires Inv(s) && target in s.scales
    ensures Inv(ExecChangeScale(s, target, replicas))
  {
    var t := ExecChangeScale(s, target, replicas);
    assert t.specs[..|s.specs|] == s.specs;
    assert s.scales[target].version !in s.movers;
    AroundKeeps(s, t);
  }

  lemma DeleteScaleKeeps(s: System, target: nat)
    requires Inv(s)
    ensures Inv(Exec(s, DeleteScale(target)))
  {
    var t := Exec(s, DeleteScale(target));
    assert t.specs[..|s.specs|] == s.specs;
    AroundKeeps(s, t);
  }

  lemma CreateScaleKeeps(s: System, target: nat, replicas: nat)
    requires Inv(s)
    ensures Inv(Exec(s, CreateScale(target, replicas)))
  {
    if target !in s.scales {
      var t := Exec(s, CreateScale(target, replicas));
      assert t.specs[..|s.specs|] == s.specs;
      assert s.nextVersion !in s.movers;
      AroundKeeps(s, t);
    }
  }

  // ----- Steps that change only where the controller is -----

  /** Only the position, the journal and the next identifier may differ. */
  ghost predicate SameRecords(s: System, t: System) {
    t == s.(pc := t.pc, journal := t.journal, nextId := t.nextId) && t.nextId >= s.nextId
  }

  lemma Carry(s: System, t: System)
    requires Inv(s) && SameRecords(s, t)
    ensures VersionsOk(t) && MoversOk(t) && LedgerOk(t)
    ensures forall w :: Sent(t, w) ==> DecisionOk(t, w.d) && w.generation < |t.specs|
    ensures forall w, w' :: Sent(t, w) && Sent(t, w') && w.d.id == w'.d.id ==> w == w'
  {
    assert forall w :: Sent(t, w) ==> Sent(s, w);
  }

  lemma CarrySettles(s: System, t: System)
    requires Inv(s) && SameRecords(s, t) && t.journal == s.journal
    ensures forall w :: Sent(t, w) ==> Settles(t, w)
    ensures forall w :: Sent(t, w) && t.journal.Some? && w.d.id == t.journal.value.id ==> w.d == t.journal.value
    ensures ChargesOk(t)
  {
    forall w | Sent(t, w) ensures Settles(t, w) {
      assert Sent(s, w) && Settles(s, w);
      assert Unchanged(t, w) <==> Unchanged(s, w);
    }
    assert forall w :: Sent(t, w) ==> Sent(s, w);
  }

  /** A new position, with nothing else changed. */
  lemma PositionKeeps(s: System, pc: Pc)
    requires Inv(s) && PendingOk(s.(pc := pc))
    requires PendingOf(pc).Some? ==> s.journal == PendingOf(pc) || PendingOf(pc) == PendingOf(s.pc)
    requires pc.Bound? ==> Seen(s, pc.scale.uid, pc.scale.version)
    requires pc.Clearing? ==>
               && (forall w :: Sent(s, w) && w.d == pc.d ==> Clears(s.(pc := pc), w))
               && (pc.late ==> !IsCharged(s, pc.d.id))
    ensures Inv(s.(pc := pc))
  {
    var t := s.(pc := pc);
    Carry(s, t);
    CarrySettles(s, t);
    assert forall w :: Sent(t, w) ==> Sent(s, w);
  }

  lemma IdleKeeps(s: System)
    requires Inv(s)
    ensures Inv(s.(pc := Idle))
  {
    PositionKeeps(s, Idle);
  }

  lemma StartKeeps(s: System, view: View)
    requires Inv(s) && s.pc.Idle?
    ensures Inv(s.(pc := if s.journal.Some? then Recovering(view, s.journal.value) else Ready(view)))
  {
    PositionKeeps(s, if s.journal.Some? then Recovering(view, s.journal.value) else Ready(view));
  }

  /** The pending decision's version has been moved when it is charged. */
  lemma ChargedHasMoved(s: System, d: Decision)
    requires Inv(s) && s.journal == Some(d) && IsCharged(s, d.id)
    ensures d.version in s.movers
  {
    var i :| 0 <= i < |s.charged| && s.charged[i].d.id == d.id;
    assert ChargeOk(s, s.charged[i]) && s.charged[i].d == d;
  }

  /** A status that names the pending decision proves it charged. */
  lemma NamedIsCharged(s: System, i: nat, id: nat)
    requires Inv(s) && i < |s.statuses| && s.statuses[i].lastId == Some(id)
    ensures IsCharged(s, id)
  {
    assert NamedAt(s.statuses, s.charged, i);
  }

  lemma RecoverClears(s: System, d: Decision, late: bool, w: Accepted)
    requires Inv(s) && s.pc.Recovering? && ViewWell(s, s.pc.view) && s.pc.d == d && Sent(s, w) && w.d == d
    requires var target := s.specs[s.pc.view.generation];
             || target != d.target || s.statuses[s.pc.view.status].lastId == Some(d.id) || target !in s.scales
             || s.scales[target].uid != d.targetUid || (s.scales[target].version == d.version && late == InFlight(s, d))
    ensures Clears(s.(pc := Clearing(s.pc.view.generation, d, false, late)), w)
  {
    var target := s.specs[s.pc.view.generation];
    var t := s.(pc := Clearing(s.pc.view.generation, d, false, late));
    if s.statuses[s.pc.view.status].lastId == Some(d.id) {
      NamedIsCharged(s, s.pc.view.status, d.id);
      assert IsCharged(t, d.id);
    }
    if w in s.accepted {
      assert d.version in s.movers;
    }
  }

  lemma RecoverKeeps(s: System, now: int)
    requires Inv(s) && s.pc.Recovering? && ViewWell(s, s.pc.view)
    ensures Inv(ExecRecover(s, now))
  {
    var Recovering(view, d) := s.pc;
    var pc := ExecRecover(s, now).pc;
    if pc.Clearing? {
      forall w | Sent(s, w) && w.d == d ensures Clears(s.(pc := pc), w) {
        RecoverClears(s, d, pc.late, w);
      }
      if pc.late && IsCharged(s, d.id) {
        ChargedHasMoved(s, d);
      }
    }
    PositionKeeps(s, pc);
  }

  lemma PlanKeeps(s: System, desired: nat, time: int, ups: seq<Sample>, downs: seq<Sample>)
    requires Inv(s) && s.pc.Bound? && ViewWell(s, s.pc.view)
    ensures Inv(ExecPlan(s, desired, time, ups, downs))
  {
    if desired == s.pc.scale.replicas {
      IdleKeeps(s);
    } else {
      var t := ExecPlan(s, desired, time, ups, downs);
      Carry(s, t);
      CarrySettles(s, t);
      FreshIsUntouched(s, t.pc.d);
      assert forall w :: Sent(t, w) ==> Sent(s, w);
    }
  }

  lemma FreshIsUntouched(s: System, d: Decision)
    requires Inv(s) && d.id == s.nextId
    ensures Untouched(s, d)
  {
    forall i | 0 <= i < |s.charged| ensures s.charged[i].d.id != d.id {
      assert ChargeOk(s, s.charged[i]);
    }
    forall w | Sent(s, w) ensures w.d.id != d.id {
      assert DecisionOk(s, w.d);
    }
  }

  lemma WriteJournalKeeps(s: System, outcome: Outcome)
    requires Inv(s) && s.pc.Planned?
    ensures Inv(ExecWriteJournal(s, outcome))
  {
    var t := ExecWriteJournal(s, outcome);
    Carry(s, t);
    forall w | Sent(t, w) ensures Settles(t, w) && w.d.id != s.pc.d.id {
      assert Sent(s, w) && Settles(s, w);
      assert Unchanged(t, w) <==> Unchanged(s, w);
    }
    forall i | 0 <= i < |t.charged| ensures t.charged[i].d.id != s.pc.d.id {
      assert s.charged[i].d.id != s.pc.d.id;
    }
  }

  lemma GiveUpKeeps(s: System, clear: bool, reread: bool)
    requires Inv(s) && s.pc.Journaled?
    ensures Inv(ExecGiveUp(s, clear, reread))
  {
    PositionKeeps(s, ExecGiveUp(s, clear, reread).pc);
  }

  // ----- Scale writes -----

  /** Sending leaves one more write to account for: the pending one. */
  lemma SendKeeps(s: System)
    requires Inv(s) && s.pc.Journaled?
    ensures Inv(s.(flight := s.flight + {Accepted(s.pc.d, s.pc.generation)}, pc := Idle))
  {
    var w0 := Accepted(s.pc.d, s.pc.generation);
    var t := s.(flight := s.flight + {w0}, pc := Idle);
    forall w | Sent(t, w)
      ensures Settles(t, w) && DecisionOk(t, w.d) && w.generation < |t.specs| && (w == w0 || Sent(s, w))
    {
      if w != w0 {
        assert Sent(s, w) && Settles(s, w);
        assert Unchanged(t, w) <==> Unchanged(s, w);
      }
    }
    assert forall w :: Sent(s, w) ==> w.d.id != w0.d.id;
    SameLedger(s, t);
  }

  lemma SameLedger(s: System, t: System)
    requires Inv(s) && Well(t) && t.statuses == s.statuses && t.ledger == s.ledger && t.charged == s.charged
    requires t.released == s.released && t.nextId == s.nextId && (forall v :: v in s.movers ==> v in t.movers)
    ensures LedgerOk(t)
    ensures t.journal == s.journal ==> ChargesOk(t)
  {
  }

  /** A write that finds its version moves it, and nothing else it could have moved. */
  lemma WrittenMoves(s: System, w: Accepted)
    requires VersionsOk(s) && Applies(s, w.d)
    ensures Moves(s, ScaleWritten(s, w)) && VersionsOk(ScaleWritten(s, w))
  {
    var t := ScaleWritten(s, w);
    assert t.specs[..|s.specs|] == s.specs;
  }

  /** The written state, apart from what is sent and where the controller is. */
  lemma WrittenKeepsMovers(s: System, w: Accepted)
    requires VersionsOk(s) && MoversOk(s) && Applies(s, w.d)
    ensures MoversOk(ScaleWritten(s, w))
  {
    var t := ScaleWritten(s, w);
    assert w.d.version !in s.movers;
    forall v | v in t.movers && t.movers[v].Some?
      ensures exists i ::
                0 <= i < |t.accepted| && t.accepted[i].d.id == t.movers[v].value && t.accepted[i].d.version == v
    {
      if v == w.d.version {
        assert t.accepted[|s.accepted|] == w;
      } else {
        var i :| 0 <= i < |s.accepted| && s.accepted[i].d.id == s.movers[v].value && s.accepted[i].d.version == v;
        assert t.accepted[i] == s.accepted[i];
      }
    }
  }

  /** A delivery accounts for the same sent writes; the delivered one was pending, released or already harmless. */
  lemma DeliverKeeps(s: System, w: Accepted)
    requires Inv(s) && w in s.flight
    ensures Inv(ExecDeliver(s, w))
  {
    if Applies(s, w.d) {
      AppliedDeliverKeeps(s, w);
    } else {
      VanishKeeps(s, w);
    }
  }

  lemma VanishKeeps(s: System, w: Accepted)
    requires Inv(s)
    ensures Inv(s.(flight := s.flight - {w}))
  {
    var t := s.(flight := s.flight - {w});
    forall x | Sent(t, x) ensures Settles(t, x) && (t.pc.Clearing? && x.d == t.pc.d ==> Clears(t, x)) {
      assert Sent(s, x) && Settles(s, x);
      assert Unchanged(t, x) <==> Unchanged(s, x);
    }
    assert forall x :: Sent(t, x) ==> Sent(s, x);
    SameLedger(s, t);
  }

  lemma AppliedDeliverKeeps(s: System, w: Accepted)
    requires Inv(s) && w in s.flight && Applies(s, w.d)
    ensures Inv(ScaleWritten(s.(flight := s.flight - {w}), w))
  {
    var t := ScaleWritten(s.(flight := s.flight - {w}), w);
    WrittenMoves(s, w);
    WrittenKeepsMovers(s, w);
    assert Moves(s, t) && VersionsOk(t) && MoversOk(t);
    SameLedger(s, t);
    DeliveredDecisions(s, t, w);
    DeliveredSent(s, t, w);
  }

  lemma DeliveredDecisions(s: System, t: System, w: Accepted)
    requires Inv(s) && w in s.flight && Moves(s, t) && t == ScaleWritten(s.(flight := s.flight - {w}), w)
    ensures DecisionsOk(t) && PendingOk(t)
  {
    assert forall x :: Sent(t, x) <==> Sent(s, x);
    forall x | Sent(t, x) ensures DecisionOk(t, x.d) && x.generation < |t.specs| {
      SeenStaysSeen(s, t, x.d.targetUid, x.d.version);
    }
    if s.journal.Some? {
      SeenStaysSeen(s, t, s.journal.value.targetUid, s.journal.value.version);
    }
    if PendingOf(s.pc).Some? {
      SeenStaysSeen(s, t, PendingOf(s.pc).value.targetUid, PendingOf(s.pc).value.version);
    }
    if s.pc.Bound? {
      SeenStaysSeen(s, t, s.pc.scale.uid, s.pc.scale.version);
    }
  }

  lemma DeliveredSent(s: System, t: System, w: Accepted)
    requires Inv(s) && w in s.flight && Applies(s, w.d) && Moves(s, t)
          && t == ScaleWritten(s.(flight := s.flight - {w}), w)
    ensures SentOk(t)
  {
    forall x | Sent(t, x) ensures Settles(t, x) && (t.pc.Clearing? && x.d == t.pc.d ==> Clears(t, x)) {
      assert Sent(s, x) && Settles(s, x) && DecisionOk(s, x.d);
      assert w.d.version !in s.movers;
      if Unchanged(t, x) {
        ChangedStaysChanged(s, t, x);
      }
    }
  }

  lemma SentThenWritten(s: System, w: Accepted)
    requires w !in s.flight
    ensures var u := s.(flight := s.flight + {w}, pc := Idle);
            ScaleWritten(u.(flight := u.flight - {w}), w) == ScaleWritten(s, w).(pc := Idle)
  {
    assert s.flight + {w} - {w} == s.flight;
  }

  /** An answered write that took effect is pending until it is recorded. */
  lemma AcceptKeeps(s: System)
    requires Inv(s) && s.pc.Journaled? && Applies(s, s.pc.d)
    ensures Inv(ScaleWritten(s, Accepted(s.pc.d, s.pc.generation)).(pc := Idle))
  {
    var w := Accepted(s.pc.d, s.pc.generation);
    SendKeeps(s);
    assert forall x :: Sent(s, x) ==> x.d.id != w.d.id;
    AppliedDeliverKeeps(s.(flight := s.flight + {w}, pc := Idle), w);
    SentThenWritten(s, w);
  }

  lemma WriteScaleKeeps(s: System, answered: bool)
    requires Inv(s) && s.pc.Journaled?
    ensures Inv(ExecWriteScale(s, answered))
  {
    if !answered {
      SendKeeps(s);
    } else if Applies(s, s.pc.d) {
      AcceptKeeps(s);
      PositionKeeps(ScaleWritten(s, Accepted(s.pc.d, s.pc.generation)).(pc := Idle), ExecWriteScale(s, answered).pc);
    } else {
      PositionKeeps(s, Clearing(s.pc.generation, s.pc.d, false, false));
    }
  }

  // ----- Statuses -----

  lemma FirstByAgain(before: seq<Charge>, after: seq<Charge>, i: nat, j: nat, id: nat)
    requires FirstBy(before, i, id) && i <= j && before <= after
    ensures FirstBy(after, j, id)
  {
    var k :| 0 <= k < |before| && before[k].d.id == id && before[k].index <= i;
    assert after[k] == before[k];
  }

  lemma AddKeepsConnected(statuses: seq<Status>, ledger: seq<Entry>, status: Status, entry: Entry)
    requires Connected(statuses, ledger) && status == Applied(statuses[|ledger|], entry)
    ensures Connected(statuses + [status], ledger + [entry])
  {
    forall i | 0 <= i < |ledger + [entry]| ensures Follows(statuses + [status], ledger + [entry], i) {
      assert i < |ledger| ==> Follows(statuses, ledger, i);
    }
  }

  lemma AddKeepsPlaced(statuses: seq<Status>, ledger: seq<Entry>, status: Status, entry: Entry, charges: seq<Charge>)
    requires |statuses| == |ledger| + 1 && Placed(statuses, ledger, charges)
    ensures Placed(statuses + [status], ledger + [entry], charges)
  {
    forall i | 0 <= i < |charges| ensures PlacedAt(statuses + [status], ledger + [entry], charges[i]) {
      assert PlacedAt(statuses, ledger, charges[i]);
      assert Unnamed(statuses, charges[i].index, charges[i].d.id);
    }
  }

  lemma AddKeepsNamed(statuses: seq<Status>, status: Status, before: seq<Charge>, after: seq<Charge>)
    requires Named(statuses, before) && before <= after
    requires status.lastId.Some? ==> FirstBy(after, |statuses|, status.lastId.value)
    ensures Named(statuses + [status], after)
  {
    var all := statuses + [status];
    forall i | 0 <= i < |all| ensures NamedAt(all, after, i) {
      if i < |statuses| && statuses[i].lastId.Some? {
        assert NamedAt(statuses, before, i);
        FirstByAgain(before, after, i, i, all[i].lastId.value);
      }
    }
  }

  /** A new status by a ledger entry that names no new decision. */
  lemma AddKeepsLedger(s: System, entry: Entry)
    requires Inv(s)
    requires Applied(Last(s), entry).lastId.Some? ==> Applied(Last(s), entry).lastId == Last(s).lastId
    ensures LedgerOk(AddStatus(s, entry))
  {
    var status := Applied(Last(s), entry);
    AddKeepsConnected(s.statuses, s.ledger, status, entry);
    AddKeepsPlaced(s.statuses, s.ledger, status, entry, s.charged);
    if status.lastId.Some? {
      assert NamedAt(s.statuses, s.charged, |s.statuses| - 1);
      FirstByAgain(s.charged, s.charged, |s.statuses| - 1, |s.statuses|, status.lastId.value);
    }
    AddKeepsNamed(s.statuses, status, s.charged, s.charged);
  }

  lemma UnnamedUntilCharged(statuses: seq<Status>, charges: seq<Charge>, id: nat)
    requires Named(statuses, charges) && !InCharges(charges, id)
    ensures Unnamed(statuses, |statuses|, id)
  {
    forall j | 0 <= j < |statuses| ensures statuses[j].lastId != Some(id) {
      assert NamedAt(statuses, charges, j);
    }
  }

  lemma NotNamedYet(s: System, d: Decision)
    requires Well(s) && LedgerOk(s) && ChargesOk(s) && s.journal == Some(d) && Last(s).lastId != Some(d.id)
    ensures !IsCharged(s, d.id) && Unnamed(s.statuses, |s.statuses|, d.id)
  {
    UnnamedUntilCharged(s.statuses, s.charged, d.id);
  }

  function Charged(s: System, d: Decision, desired: int, periods: Periods, now: int): System
    requires |s.statuses| > 0
  {
    AddStatus(s, Charging(d, desired, periods, now)).(charged := s.charged + [Charge(d, |s.statuses|)], pc := Idle)
  }

  lemma NewChargePlaced(statuses: seq<Status>, ledger: seq<Entry>, status: Status, entry: Entry)
    requires |statuses| == |ledger| + 1 && entry.Charging? && status.lastId == Some(entry.d.id)
    requires Unnamed(statuses, |statuses|, entry.d.id)
    ensures PlacedAt(statuses + [status], ledger + [entry], Charge(entry.d, |statuses|))
  {
  }

  lemma OneMorePlaced(statuses: seq<Status>, ledger: seq<Entry>, charges: seq<Charge>, c: Charge)
    requires Placed(statuses, ledger, charges) && PlacedAt(statuses, ledger, c)
    ensures Placed(statuses, ledger, charges + [c])
  {
  }

  lemma NewCharge(charges: seq<Charge>, d: Decision, index: nat)
    ensures FirstBy(charges + [Charge(d, index)], index, d.id)
  {
    assert (charges + [Charge(d, index)])[|charges|] == Charge(d, index);
  }

  /** A new status that charges the pending decision for the first time. */
  lemma ChargeKeepsLedger(s: System, d: Decision, desired: int, periods: Periods, now: int)
    requires Well(s) && LedgerOk(s) && Last(s).lastId != Some(d.id) && Unnamed(s.statuses, |s.statuses|, d.id)
    requires d.id < s.nextId && d.id !in s.released && d.version in s.movers
    ensures LedgerOk(Charged(s, d, desired, periods, now))
  {
    var entry := Charging(d, desired, periods, now);
    var status, c := Applied(Last(s), entry), Charge(d, |s.statuses|);
    AddKeepsConnected(s.statuses, s.ledger, status, entry);
    AddKeepsPlaced(s.statuses, s.ledger, status, entry, s.charged);
    NewChargePlaced(s.statuses, s.ledger, status, entry);
    OneMorePlaced(s.statuses + [status], s.ledger + [entry], s.charged, c);
    NewCharge(s.charged, d, |s.statuses|);
    AddKeepsNamed(s.statuses, status, s.charged, s.charged + [c]);
  }

  lemma ChargeKeepsCharges(s: System, t: System, d: Decision)
    requires Well(s) && Well(t) && ChargesOk(s) && s.journal == t.journal == Some(d) && !IsCharged(s, d.id)
    requires t.charged == s.charged + [Charge(d, |s.statuses|)] && Last(t).lastId == Some(d.id)
    requires t.released == s.released && t.nextId == s.nextId
    ensures ChargesOk(t)
  {
    assert forall i :: 0 <= i < |s.charged| ==> t.charged[i] == s.charged[i] && s.charged[i].d.id != d.id;
    assert t.charged[|s.charged|].d == d;
  }

  lemma IsChargedGrows(s: System, t: System, id: nat)
    requires IsCharged(s, id) && s.charged <= t.charged
    ensures IsCharged(t, id)
  {
    var i :| 0 <= i < |s.charged| && s.charged[i].d.id == id;
    assert t.charged[i].d.id == id;
  }

  /** More statuses and charges leave everything about Scale as it was. */
  lemma StatusesKeepRest(s: System, t: System)
    requires Inv(s) && t == s.(statuses := t.statuses, ledger := t.ledger, charged := t.charged, pc := Idle)
    requires |s.statuses| <= |t.statuses| && s.charged <= t.charged
    ensures VersionsOk(t) && DecisionsOk(t) && MoversOk(t) && PendingOk(t) && SentOk(t)
  {
    forall w | Sent(t, w) ensures Settles(t, w) && DecisionOk(t, w.d) && w.generation < |t.specs| {
      assert Sent(s, w) && Settles(s, w);
      assert Unchanged(t, w) <==> Unchanged(s, w);
      if IsCharged(s, w.d.id) {
        IsChargedGrows(s, t, w.d.id);
      }
    }
    assert forall w :: Sent(t, w) ==> Sent(s, w);
  }

  lemma AddedKeeps(s: System, entry: Entry)
    requires Inv(s)
    requires Applied(Last(s), entry).lastId.Some? ==> Applied(Last(s), entry).lastId == Last(s).lastId
    requires s.journal.None? || Applied(Last(s), entry).lastId == Last(s).lastId
    ensures Inv(AddStatus(s, entry).(pc := Idle))
  {
    var t := AddStatus(s, entry).(pc := Idle);
    AddKeepsLedger(s, entry);
    SameLedgerOnly(AddStatus(s, entry), t);
    StatusesKeepRest(s, t);
  }

  /** Bound to the workload, on the status just written. */
  lemma RebindingKeeps(s: System, identity: Identity, scale: Scale, pc: Pc)
    requires Inv(s) && s.journal.None? && Seen(s, scale.uid, scale.version)
    requires pc.Idle? || (pc.Bound? && pc.scale == scale && pc.view.generation < |s.specs|
                          && pc.view.status == |s.statuses|)
    ensures Inv(AddStatus(s, Binding(identity, scale.replicas)).(pc := pc))
  {
    var t := AddStatus(s, Binding(identity, scale.replicas)).(pc := Idle);
    AddedKeeps(s, Binding(identity, scale.replicas));
    PositionKeeps(t, pc);
  }

  lemma BindKeeps(s: System, outcome: Outcome)
    requires Inv(s) && s.pc.Ready? && ViewWell(s, s.pc.view)
    ensures Inv(ExecBind(s, outcome))
  {
    var view := s.pc.view;
    var target := s.specs[view.generation];
    if target !in s.scales {
      IdleKeeps(s);
    } else {
      var scale := s.scales[target];
      var identity := Identity(target, scale.uid);
      if s.statuses[view.status].identity == Some(identity) || view.generation != Generation(s)
         || !TakesEffect(outcome) {
        PositionKeeps(s, ExecBind(s, outcome).pc);
      } else {
        RebindingKeeps(s, identity, scale, ExecBind(s, outcome).pc);
      }
    }
  }

  lemma SameLedgerOnly(s: System, t: System)
    requires Well(s) && LedgerOk(s) && t == s.(pc := t.pc)
    ensures LedgerOk(t)
  {
  }

  lemma RecordKeeps(s: System, periods: Periods, now: int, outcome: Outcome)
    requires Inv(s) && s.pc.Recording?
    ensures Inv(ExecRecord(s, periods, now, outcome))
  {
    var Recording(generation, d, desired) := s.pc;
    if generation != Generation(s) || !TakesEffect(outcome) {
      IdleKeeps(s);
    } else {
      var t := ExecRecord(s, periods, now, outcome);
      if Last(s).lastId == Some(d.id) {
        AddedKeeps(s, Charging(d, desired, periods, now));
      } else {
        ChargedOnceKeeps(s, d, desired, periods, now);
      }
      if outcome.Done? {
        ChargedThenClearing(t.(pc := Idle), generation, d);
      }
    }
  }

  lemma ChargedThenClearing(s: System, generation: nat, d: Decision)
    requires Inv(s) && s.journal == Some(d) && Last(s).lastId == Some(d.id)
    ensures Inv(s.(pc := Clearing(generation, d, false, false)))
  {
    NamedIsCharged(s, |s.statuses| - 1, d.id);
    PositionKeeps(s, Clearing(generation, d, false, false));
  }

  lemma ChargedOnceKeeps(s: System, d: Decision, desired: int, periods: Periods, now: int)
    requires Inv(s) && s.pc.Recording? && s.pc.d == d && Last(s).lastId != Some(d.id)
    ensures Inv(Charged(s, d, desired, periods, now))
  {
    var t := Charged(s, d, desired, periods, now);
    NotNamedYet(s, d);
    ChargeKeepsLedger(s, d, desired, periods, now);
    ChargeKeepsCharges(s, t, d);
    StatusesKeepRest(s, t);
  }

  // ----- Clearing -----

  lemma CheckOwnerKeeps(s: System)
    requires Inv(s) && s.pc.Clearing?
    ensures Inv(ExecCheckOwner(s))
  {
    var t := ExecCheckOwner(s);
    if t.pc.Clearing? {
      forall w | Sent(s, w) && w.d == t.pc.d ensures Clears(t, w) {
        assert Clears(s, w) && w.generation <= s.pc.generation;
        assert Unchanged(t, w) <==> Unchanged(s, w);
        assert IsCharged(t, w.d.id) <==> IsCharged(s, w.d.id);
      }
    }
    PositionKeeps(s, t.pc);
  }

  lemma ClearKeeps(s: System, outcome: Outcome)
    requires Inv(s) && s.pc.Clearing? && s.pc.checked
    ensures Inv(ExecClear(s, outcome))
  {
    var t := ExecClear(s, outcome);
    if t.journal == s.journal {
      IdleKeeps(s);
    } else {
      var d := s.pc.d;
      forall w | Sent(t, w) ensures Settles(t, w) && DecisionOk(t, w.d) && w.generation < |t.specs| {
        assert Sent(s, w) && Settles(s, w);
        assert w.d == d ==> Clears(s, w);
        assert Unchanged(t, w) <==> Unchanged(s, w);
        assert IsCharged(t, w.d.id) <==> IsCharged(s, w.d.id);
      }
      assert forall w :: Sent(t, w) ==> Sent(s, w);
      ClearKeepsLedger(s, t);
    }
  }

  lemma ClearKeepsLedger(s: System, t: System)
    requires Inv(s) && s.pc.Clearing? && t == s.(journal := None, pc := Idle, released := t.released)
    requires t.released == if s.pc.late then s.released + {s.pc.d.id} else s.released
    ensures LedgerOk(t) && ChargesOk(t)
  {
    assert s.pc.late ==> forall i :: 0 <= i < |s.charged| ==> s.charged[i].d.id != s.pc.d.id;
  }

  // ----- Every step and every run -----

  /** Up to and including the journal write. */
  predicate Prepares(step: Step) {
    step.Start? || step.Recover? || step.Bind? || step.Plan? || step.WriteJournal? || step.GiveUp?
  }

  lemma PreparationKeeps(s: System, step: Step)
    requires Inv(s) && Prepares(step)
    ensures Inv(Exec(s, step))
  {
    match step {
      case Start(view) => if s.pc.Idle? && ViewWell(s, view) { StartKeeps(s, view); }
      case Recover(now) => if s.pc.Recovering? && ViewWell(s, s.pc.view) { RecoverKeeps(s, now); }
      case Bind(outcome) => if s.pc.Ready? && ViewWell(s, s.pc.view) { BindKeeps(s, outcome); }
      case Plan(desired, time, ups, downs) =>
        if s.pc.Bound? && ViewWell(s, s.pc.view) { PlanKeeps(s, desired, time, ups, downs); }
      case WriteJournal(outcome) => if s.pc.Planned? { WriteJournalKeeps(s, outcome); }
      case GiveUp(clear, reread) => if s.pc.Journaled? { GiveUpKeeps(s, clear, reread); }
    }
  }

  lemma ScaleStepKeeps(s: System, step: Step)
    requires Inv(s) && (step.WriteScale? || step.Deliver? || step.Vanish?)
    ensures Inv(Exec(s, step))
  {
    match step {
      case WriteScale(answered) => if s.pc.Journaled? { WriteScaleKeeps(s, answered); }
      case Deliver(w) => if w in s.flight { DeliverKeeps(s, w); }
      case Vanish(w) => VanishKeeps(s, w);
    }
  }

  lemma SettlementKeeps(s: System, step: Step)
    requires Inv(s) && (step.Record? || step.CheckOwner? || step.Clear? || step.Crash?)
    ensures Inv(Exec(s, step))
  {
    match step {
      case Record(periods, now, outcome) => if s.pc.Recording? { RecordKeeps(s, periods, now, outcome); }
      case CheckOwner => if s.pc.Clearing? { CheckOwnerKeeps(s); }
      case Clear(outcome) => if s.pc.Clearing? && s.pc.checked { ClearKeeps(s, outcome); }
      case Crash => IdleKeeps(s);
    }
  }

  lemma AroundStepKeeps(s: System, step: Step)
    requires Inv(s) && (step.EditSpec? || step.ChangeScale? || step.DeleteScale? || step.CreateScale?)
    ensures Inv(Exec(s, step))
  {
    match step {
      case EditSpec(target) => EditSpecKeeps(s, target);
      case ChangeScale(target, replicas) => if target in s.scales { ChangeScaleKeeps(s, target, replicas); }
      case DeleteScale(target) => DeleteScaleKeeps(s, target);
      case CreateScale(target, replicas) => CreateScaleKeeps(s, target, replicas);
    }
  }

  lemma StepKeeps(s: System, step: Step)
    requires Inv(s)
    ensures Inv(Exec(s, step))
  {
    if Prepares(step) {
      PreparationKeeps(s, step);
    } else if step.WriteScale? || step.Deliver? || step.Vanish? {
      ScaleStepKeeps(s, step);
    } else if step.Record? || step.CheckOwner? || step.Clear? || step.Crash? {
      SettlementKeeps(s, step);
    } else {
      AroundStepKeeps(s, step);
    }
  }

  lemma InitHolds(s: System)
    requires Init(s)
    ensures Inv(s)
  {
  }

  lemma {:induction false} RunKeeps(s: System, steps: seq<Step>)
    requires Inv(s)
    ensures Inv(Run(s, steps))
    decreases |steps|
  {
    if |steps| > 0 {
      RunKeeps(s, steps[..|steps| - 1]);
      StepKeeps(Run(s, steps[..|steps| - 1]), steps[|steps| - 1]);
    }
  }
}
