/** What a plan may rely on, over every run of the scale journal. */
module ScaleJournalTheorems {
  import opened Basics
  import opened ScaleJournal
  import opened ScaleJournalProofs

  // ----- Charges and the ledger -----

  /** The ledger entry changed the accounting: its decision was not yet the last one charged. */
  predicate Effective(s: System, i: nat)
    requires i < |s.ledger| && i < |s.statuses|
  {
    s.ledger[i].Charging? && s.statuses[i].lastId != Some(s.ledger[i].d.id)
  }

  predicate HasCharge(s: System, index: nat) {
    exists k :: 0 <= k < |s.charged| && s.charged[k].index == index
  }

  /** Every entry that changed the accounting is a charge, and one identifier is one decision. */
  ghost predicate Accounted(s: System) {
    && |s.ledger| < |s.statuses|
    && (forall i :: 0 <= i < |s.ledger| && Effective(s, i) ==> HasCharge(s, i + 1))
    && (forall k, w :: 0 <= k < |s.charged| && Sent(s, w) && s.charged[k].d.id == w.d.id ==> s.charged[k].d == w.d)
  }

  lemma HasChargeGrows(s: System, t: System, index: nat)
    requires HasCharge(s, index) && s.charged <= t.charged
    ensures HasCharge(t, index)
  {
    var k :| 0 <= k < |s.charged| && s.charged[k].index == index;
    assert t.charged[k] == s.charged[k];
  }

  lemma SameAccounted(s: System, t: System)
    requires Accounted(s) && t.statuses == s.statuses && t.ledger == s.ledger && t.charged == s.charged
    requires forall w :: Sent(t, w) ==> Sent(s, w)
    ensures Accounted(t)
  {
    forall i | 0 <= i < |t.ledger| && Effective(t, i) ensures HasCharge(t, i + 1) {
      assert Effective(s, i);
    }
  }

  /** A new status whose entry, if it changes the accounting, is charged in the same step. */
  lemma GrownAccounted(s: System, t: System, entry: Entry, status: Status)
    requires Accounted(s) && |s.statuses| == |s.ledger| + 1
    requires t.statuses == s.statuses + [status] && t.ledger == s.ledger + [entry]
    requires s.charged <= t.charged
    requires entry.Charging? && Last(s).lastId != Some(entry.d.id) ==> HasCharge(t, |t.ledger|)
    requires forall k, w :: 0 <= k < |t.charged| && Sent(t, w) && t.charged[k].d.id == w.d.id ==> t.charged[k].d == w.d
    ensures Accounted(t)
  {
    forall i | 0 <= i < |t.ledger| && Effective(t, i) ensures HasCharge(t, i + 1) {
      if i < |s.ledger| {
        assert Effective(s, i);
        HasChargeGrows(s, t, i + 1);
      }
    }
  }

  lemma BindAccounted(s: System, outcome: Outcome)
    requires Inv(s) && Accounted(s) && s.pc.Ready? && ViewWell(s, s.pc.view)
    ensures Accounted(ExecBind(s, outcome))
  {
    var t := ExecBind(s, outcome);
    assert forall w :: Sent(t, w) ==> Sent(s, w);
    if t.ledger == s.ledger {
      SameAccounted(s, t);
    } else {
      GrownAccounted(s, t, t.ledger[|s.ledger|], Last(t));
    }
  }

  lemma RecordAccounted(s: System, periods: Periods, now: int, outcome: Outcome)
    requires Inv(s) && Accounted(s) && s.pc.Recording?
    ensures Accounted(ExecRecord(s, periods, now, outcome))
  {
    var t := ExecRecord(s, periods, now, outcome);
    assert forall w :: Sent(t, w) ==> Sent(s, w);
    if t.ledger == s.ledger {
      SameAccounted(s, t);
    } else {
      var d := s.pc.d;
      if Last(s).lastId != Some(d.id) {
        assert t.charged[|s.charged|].index == |t.ledger|;
      }
      GrownAccounted(s, t, Charging(d, s.pc.desired, periods, now), Last(t));
    }
  }

  lemma WriteAccounted(s: System, answered: bool)
    requires Inv(s) && Accounted(s) && s.pc.Journaled?
    ensures Accounted(ExecWriteScale(s, answered))
  {
    var t := ExecWriteScale(s, answered);
    assert forall w :: Sent(t, w) ==> Sent(s, w) || w.d == s.pc.d;
    assert forall k :: 0 <= k < |s.charged| ==> s.charged[k].d.id != s.pc.d.id;
    forall i | 0 <= i < |t.ledger| && Effective(t, i) ensures HasCharge(t, i + 1) {
      assert Effective(s, i);
    }
  }

  /** Every other step leaves ledger and charges alone and sends nothing new. */
  lemma OthersRecordNothing(s: System, step: Step)
    requires Well(s) && (step.Bind? ==> !s.pc.Ready?) && (step.Record? ==> !s.pc.Recording?)
    requires step.WriteScale? ==> !s.pc.Journaled?
    ensures var t := Exec(s, step); t.statuses == s.statuses && t.ledger == s.ledger && t.charged == s.charged
    ensures forall w :: Sent(Exec(s, step), w) ==> Sent(s, w)
  {
  }

  lemma StepAccounted(s: System, step: Step)
    requires Inv(s) && Accounted(s)
    ensures Accounted(Exec(s, step))
  {
    if step.Bind? && s.pc.Ready? {
      if ViewWell(s, s.pc.view) {
        BindAccounted(s, step.outcome);
      }
    } else if step.Record? && s.pc.Recording? {
      RecordAccounted(s, step.periods, step.now, step.outcome);
    } else if step.WriteScale? && s.pc.Journaled? {
      WriteAccounted(s, step.answered);
    } else {
      OthersRecordNothing(s, step);
      SameAccounted(s, Exec(s, step));
    }
  }

  lemma {:induction false} RunAccounted(s: System, steps: seq<Step>)
    requires Inv(s) && Accounted(s)
    ensures Inv(Run(s, steps)) && Accounted(Run(s, steps))
    decreases |steps|
  {
    if |steps| > 0 {
      var front, last := steps[..|steps| - 1], steps[|steps| - 1];
      RunAccounted(s, front);
      StepKeeps(Run(s, front), last);
      StepAccounted(Run(s, front), last);
    }
  }

  lemma EffectiveOnce(s: System, i: nat, j: nat)
    requires Inv(s) && Accounted(s) && i < j < |s.ledger| && Effective(s, i) && Effective(s, j)
    ensures s.ledger[i].d.id != s.ledger[j].d.id
  {
    var k :| 0 <= k < |s.charged| && s.charged[k].index == i + 1;
    var l :| 0 <= l < |s.charged| && s.charged[l].index == j + 1;
    assert ChargeOk(s, s.charged[k]) && ChargeOk(s, s.charged[l]);
  }

  /** No two statuses charge the same decision, whatever is retried, lost or recovered. */
  lemma ChargedAtMostOnce(s: System, steps: seq<Step>, i: nat, j: nat)
    requires Init(s)
    ensures var t := Run(s, steps);
            && |t.statuses| == |t.ledger| + 1
            && (i < j < |t.ledger| && Effective(t, i) && Effective(t, j) ==> t.ledger[i].d.id != t.ledger[j].d.id)
  {
    InitHolds(s);
    RunAccounted(s, steps);
    var t := Run(s, steps);
    if i < j < |t.ledger| && Effective(t, i) && Effective(t, j) {
      EffectiveOnce(t, i, j);
    }
  }

  // ----- Accepted writes -----

  /**
    When a plan is made, an accepted write to the same workload is charged if and only if
    no recovery overlooked it.
   */
  lemma AcceptedIsChargedExactly(s: System, steps: seq<Step>, a: Accepted)
    requires Init(s)
    ensures var t := Run(s, steps);
            t.pc.Bound? ==>
              && t.journal.None?
              && (a in t.accepted && Unchanged(t, a) ==> (IsCharged(t, a.d.id) <==> a.d.id !in t.released))
  {
    InitHolds(s);
    RunKeeps(s, steps);
    var t := Run(s, steps);
    if t.pc.Bound? && a in t.accepted && Unchanged(t, a) {
      assert Sent(t, a) && Settles(t, a);
      if IsCharged(t, a.d.id) {
        var k :| 0 <= k < |t.charged| && t.charged[k].d.id == a.d.id;
        assert ChargeOk(t, t.charged[k]);
      }
    }
  }

  /** No recovery finds a request in flight: each has landed or vanished before. */
  predicate Prompt(s: System, steps: seq<Step>)
    requires Well(s)
    decreases |steps|
  {
    |steps| > 0 ==>
      && Prompt(s, steps[..|steps| - 1])
      && (steps[|steps| - 1].Recover? ==> Run(s, steps[..|steps| - 1]).flight == {})
  }

  /** No decision was or is about to be overlooked. */
  predicate NothingLate(s: System) {
    s.released == {} && (s.pc.Clearing? ==> !s.pc.late)
  }

  lemma PromptStep(s: System, step: Step)
    requires Well(s) && NothingLate(s) && (step.Recover? ==> s.flight == {})
    ensures NothingLate(Exec(s, step))
  {
    if step.Recover? && s.pc.Recovering? {
      assert !InFlight(s, s.pc.d);
    }
  }

  /** Nothing is overlooked when every request has landed or vanished before recovery reads Scale. */
  lemma {:induction false} PromptReleasesNothing(s: System, steps: seq<Step>)
    requires Well(s) && NothingLate(s) && Prompt(s, steps)
    ensures NothingLate(Run(s, steps))
    decreases |steps|
  {
    if |steps| > 0 {
      PromptReleasesNothing(s, steps[..|steps| - 1]);
      PromptStep(Run(s, steps[..|steps| - 1]), steps[|steps| - 1]);
    }
  }

  /** The write that a step adds to the accepted ones. */
  lemma AddedWrite(s: System, step: Step) returns (w: Accepted)
    requires Well(s) && Exec(s, step).accepted != s.accepted
    ensures Exec(s, step).accepted == s.accepted + [w] && Applies(s, w.d)
    ensures w in s.flight || (s.pc.Journaled? && w.d == s.pc.d)
  {
    w := if step.Deliver? then step.write else Accepted(s.pc.d, s.pc.generation);
  }

  /** A version that is still current has no charge on it. */
  lemma CurrentIsUncharged(s: System, d: Decision)
    requires Well(s) && VersionsOk(s) && LedgerOk(s) && Applies(s, d)
    requires forall k :: 0 <= k < |s.charged| && s.charged[k].d.id == d.id ==> s.charged[k].d == d
    ensures !IsCharged(s, d.id)
  {
    forall k | 0 <= k < |s.charged| ensures s.charged[k].d.id != d.id {
      assert ChargeOk(s, s.charged[k]);
    }
  }

  lemma AddedWriteIsPending(s: System, w: Accepted)
    requires Inv(s) && Accounted(s) && Applies(s, w.d) && (w in s.flight || (s.pc.Journaled? && w.d == s.pc.d))
    ensures w !in s.accepted && !IsCharged(s, w.d.id)
    ensures Unchanged(s, w) ==> (s.journal == Some(w.d) <==> w.d.id !in s.released)
  {
    assert w.d.version !in s.movers;
    if w in s.flight {
      assert Sent(s, w) && Settles(s, w);
      CurrentIsUncharged(s, w.d);
    }
  }

  /**
    A write takes effect once and uncharged; on an unchanged target it does so while it
    is pending if and only if no recovery overlooked it.
   */
  lemma WriteOnlyWhilePending(s: System, steps: seq<Step>, step: Step)
    requires Init(s)
    ensures var t := Run(s, steps);
            var u := Exec(t, step);
            u.accepted != t.accepted ==>
              && |u.accepted| == |t.accepted| + 1 && u.accepted[..|t.accepted|] == t.accepted
              && var w := u.accepted[|t.accepted|];
                 && w !in t.accepted && !IsCharged(t, w.d.id)
                 && (Unchanged(t, w) ==> (t.journal == Some(w.d) <==> w.d.id !in t.released))
  {
    InitHolds(s);
    RunAccounted(s, steps);
    var t := Run(s, steps);
    if Exec(t, step).accepted != t.accepted {
      var w := AddedWrite(t, step);
      AddedWriteIsPending(t, w);
    }
  }

  /** A charged decision's own write took effect if and only if nothing else moved the version it was planned on. */
  lemma ChargedWasAcceptedExactly(s: System, steps: seq<Step>, c: Charge)
    requires Init(s)
    ensures var t := Run(s, steps);
            c in t.charged ==>
              c.d.version in t.movers && (IsAccepted(t, c.d.id) <==> t.movers[c.d.version] == Some(c.d.id))
  {
    InitHolds(s);
    RunAccounted(s, steps);
    var t := Run(s, steps);
    if c in t.charged {
      assert ChargeOk(t, c);
      if IsAccepted(t, c.d.id) {
        var i :| 0 <= i < |t.accepted| && t.accepted[i].d.id == c.d.id;
        assert Sent(t, t.accepted[i]);
      }
    }
  }

  // ----- The status a plan starts from -----

  function Replay(status: Status, entries: seq<Entry>): Status {
    if |entries| == 0 then status else Applied(Replay(status, entries[..|entries| - 1]), entries[|entries| - 1])
  }

  lemma {:induction false} StatusReplays(s: System, k: nat)
    requires Well(s) && LedgerOk(s) && k < |s.statuses|
    ensures s.statuses[k] == Replay(s.statuses[0], s.ledger[..k])
  {
    if k > 0 {
      StatusReplays(s, k - 1);
      assert Follows(s.statuses, s.ledger, k - 1);
      assert s.ledger[..k][..k - 1] == s.ledger[..k - 1];
    }
  }

  /** The decision was charged among the first `k` entries. */
  predicate ChargedBy(s: System, k: nat, id: nat)
    requires k <= |s.ledger| < |s.statuses|
  {
    exists i :: 0 <= i < k && Effective(s, i) && s.ledger[i].d.id == id
  }

  lemma ChargedByIsCharged(s: System, k: nat, id: nat)
    requires Inv(s) && Accounted(s) && k <= |s.ledger|
    ensures ChargedBy(s, k, id) ==> IsCharged(s, id)
  {
    if ChargedBy(s, k, id) {
      var i :| 0 <= i < k && Effective(s, i) && s.ledger[i].d.id == id;
      var l :| 0 <= l < |s.charged| && s.charged[l].index == i + 1;
      assert ChargeOk(s, s.charged[l]);
    }
  }

  lemma ChargedByExactly(s: System, k: nat, c: Charge)
    requires Inv(s) && Accounted(s) && c in s.charged && k <= |s.ledger|
    ensures ChargedBy(s, k, c.d.id) <==> c.index <= k
  {
    assert ChargeOk(s, c);
    if c.index <= k {
      assert Effective(s, c.index - 1);
    }
    if ChargedBy(s, k, c.d.id) {
      var i :| 0 <= i < k && Effective(s, i) && s.ledger[i].d.id == c.d.id;
      var l :| 0 <= l < |s.charged| && s.charged[l].index == i + 1;
      assert ChargeOk(s, s.charged[l]);
    }
  }

  /**
    A plan starts from the replay of the entries up to the status it read, and so
    with a charge in it if and only if it read no older status than the charge's.
   */
  lemma PlanCountsChargeExactly(s: System, steps: seq<Step>, c: Charge)
    requires Init(s)
    ensures var t := Run(s, steps);
            t.pc.Bound? && c in t.charged ==>
              && |t.ledger| + 1 == |t.statuses| && t.pc.view.status <= |t.ledger|
              && t.statuses[t.pc.view.status] == Replay(t.statuses[0], t.ledger[..t.pc.view.status])
              && (ChargedBy(t, t.pc.view.status, c.d.id) <==> c.index <= t.pc.view.status)
  {
    InitHolds(s);
    RunAccounted(s, steps);
    var t := Run(s, steps);
    if t.pc.Bound? && c in t.charged {
      StatusReplays(t, t.pc.view.status);
      ChargedByExactly(t, t.pc.view.status, c);
    }
  }

  /** A plan on the newest status counts an accepted write to the same workload if and only if it was not overlooked. */
  lemma CurrentPlanCountsAcceptedExactly(s: System, steps: seq<Step>, a: Accepted)
    requires Init(s)
    ensures var t := Run(s, steps);
            t.pc.Bound? && a in t.accepted && Unchanged(t, a) && t.pc.view.status == |t.statuses| - 1 ==>
              && |t.ledger| + 1 == |t.statuses|
              && (ChargedBy(t, t.pc.view.status, a.d.id) <==> a.d.id !in t.released)
  {
    InitHolds(s);
    RunAccounted(s, steps);
    AcceptedIsChargedExactly(s, steps, a);
    var t := Run(s, steps);
    if t.pc.Bound? && a in t.accepted && Unchanged(t, a) && t.pc.view.status == |t.statuses| - 1 {
      if IsCharged(t, a.d.id) {
        var k :| 0 <= k < |t.charged| && t.charged[k].d.id == a.d.id;
        assert ChargeOk(t, t.charged[k]);
        ChargedByExactly(t, |t.ledger|, t.charged[k]);
      }
      ChargedByIsCharged(t, |t.ledger|, a.d.id);
    }
  }
}
