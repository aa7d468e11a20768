/**
  Whole runs of the sampler over one model's stored window, interleaved with model
  fits, retention and retargeting, under a clock that never goes back.
 */
module SamplerRun {
  import opened Basics
  import opened History
  import opened HistoryFacts
  import opened Sampler

  /** An admitted row: when, for which slot, from which measurement, and after how many restarts of the window. */
  datatype Admission = Admission(era: nat, slot: int, source: Option<int>, row: Sample)

  datatype Trace = Trace(history: Option<ModelHistory>, clock: int, era: nat, log: seq<Admission>)

  datatype Step =
    | Prepare(m: Model, now: int, slot: int)
    | Apply(m: Model, now: int, slot: int, x: Snapshot, retry: bool)
    | Retain(maxAge: Option<int>, now: int)
    | Fit(after: ModelHistory)
    | Discard

  /** A completed fit changes only what forecasts own, and consumes only retained rows. */
  predicate FitOnly(h: ModelHistory, after: ModelHistory) {
    && after == h.(progress := after.progress, lastModelRun := after.lastModelRun, reliability := after.reliability,
                   cached := after.cached, failure := after.failure)
    && after.progress >= 0 && ConsumedOk(after)
  }

  predicate Enabled(t: Trace, step: Step) {
    match step
    case Prepare(m, now, slot) => ModelOk(m) && t.clock <= now && 0 != slot <= now
    case Apply(m, now, slot, x, _) => ModelOk(m) && t.clock <= now && 0 != slot <= now && SnapshotOk(x, now)
    case Retain(_, now) => t.clock <= now && t.history.Some?
    case Fit(after) => t.history.Some? && FitOnly(t.history.value, after)
    case Discard => true
  }

  function After(t: Trace, now: int, o: Outcome): Trace {
    t.(history := Some(o.history), clock := now, era := if o.restarted then t.era + 1 else t.era)
  }

  function Source(x: Snapshot): Option<int> {
    if x.sourceId != "" then Some(x.sourceTime) else None
  }

  function Exec(t: Trace, step: Step): Trace {
    if !Enabled(t, step) then t
    else
      match step
      case Prepare(m, now, slot) =>
        var r := Prepared(m, t.history, now, slot);
        if r.Ok? then After(t, now, r.value) else t.(clock := now)
      case Apply(m, now, slot, x, retry) =>
        var r := Applied(m, t.history, now, slot, x, retry);
        if r.Err? then t.(clock := now)
        else
          var u := After(t, now, r.value);
          if r.value.appended
          then u.(log := u.log + [Admission(u.era, slot, Source(x), RowFor(x, MeasuredAt(x, slot)))]) else u
      case Retain(maxAge, now) =>
        var r := PruneAged(maxAge, t.history.value, now);
        if r.Ok? then t.(history := Some(r.value), clock := now) else t.(clock := now)
      case Fit(after) => t.(history := Some(after))
      case Discard => t.(history := None, era := t.era + 1)
  }

  function Run(t: Trace, steps: seq<Step>): Trace {
    if |steps| == 0 then t else Exec(Run(t, steps[..|steps| - 1]), steps[|steps| - 1])
  }

  function Init(clock: int): Trace {
    Trace(None, clock, 0, [])
  }

  // ----- The invariant -----

  ghost predicate WindowSound(t: Trace) {
    t.history.Some? ==> UsesCpu(t.history.value.kind) && Assess(t.history.value, t.clock) == Sound
  }

  /** The window remembers the newest slot and measurement of its own admissions. */
  predicate Remembers(h: Option<ModelHistory>, a: Admission) {
    && h.Some? && h.value.lastSample.Some? && a.slot <= h.value.lastSample.value
    && (a.source.Some? ==> h.value.observationTime.Some? && a.source.value <= h.value.observationTime.value)
  }

  /** Later admissions are for later slots and later measurements. */
  predicate Precedes(a: Admission, b: Admission) {
    a.era == b.era ==> a.slot < b.slot && (a.source.Some? && b.source.Some? ==> a.source.value < b.source.value)
  }

  ghost predicate LogOk(t: Trace) {
    && (forall i :: 0 <= i < |t.log| ==> t.log[i].era <= t.era)
    && (forall i :: 0 <= i < |t.log| && t.log[i].era == t.era ==> Remembers(t.history, t.log[i]))
    && (forall i, j :: 0 <= i < j < |t.log| ==> Precedes(t.log[i], t.log[j]))
  }

  ghost predicate Logged(t: Trace, row: Sample) {
    exists i :: 0 <= i < |t.log| && t.log[i].era == t.era && t.log[i].row == row
  }

  ghost predicate RowsLogged(t: Trace) {
    t.history.Some? ==> forall row :: row in t.history.value.rows ==> Logged(t, row)
  }

  ghost predicate Inv(t: Trace) {
    WindowSound(t) && LogOk(t) && RowsLogged(t)
  }

  // ----- What a pass without a restart leaves alone -----

  predicate SameMarks(h: ModelHistory, h': ModelHistory) {
    h'.lastSample == h.lastSample && h'.observationId == h.observationId && h'.observationTime == h.observationTime
  }

  ghost predicate SomeRows(h: ModelHistory, h': ModelHistory) {
    forall row :: row in h'.rows ==> row in h.rows
  }

  lemma {:induction false} NewestMembers(rows: seq<Sample>, limit: nat, x: Sample)
    requires x in Newest(rows, limit)
    ensures x in rows
  {
    if |rows| > 0 && CountCpu(rows[1..]) >= limit {
      NewestMembers(rows[1..], limit, x);
    }
  }

  lemma {:induction false} InsertMembers(rows: seq<Sample>, row: Sample, x: Sample)
    requires x in Insert(rows, row)
    ensures x == row || x in rows
  {
    if |rows| > 0 && !NotAfter(rows[|rows| - 1], row) {
      var front, last := rows[..|rows| - 1], rows[|rows| - 1];
      if x in Insert(front, row) {
        InsertMembers(front, row, x);
      }
      assert rows == front + [last];
    }
  }

  lemma {:induction false} SortMembers(rows: seq<Sample>, x: Sample)
    requires x in SortByTime(rows)
    ensures x in rows
  {
    if |rows| > 0 {
      var front, last := rows[..|rows| - 1], rows[|rows| - 1];
      InsertMembers(SortByTime(front), last, x);
      if x in SortByTime(front) {
        SortMembers(front, x);
      }
      assert rows == front + [last];
    }
  }

  lemma PruneMembers(rows: seq<Sample>, limit: int, x: Sample)
    requires x in PruneCpu(rows, limit)
    ensures x in rows
  {
    if limit > 0 && CountCpu(rows) > limit {
      NewestMembers(SortByTime(rows), limit, x);
      SortMembers(rows, x);
    }
  }

  lemma RetainedMembers(retention: Retention, rows: seq<Sample>, x: Sample)
    requires x in Retained(retention, rows)
    ensures x in rows
  {
    match retention
    case ByCount(size) => PruneMembers(rows, size, x);
    case BySeasons(length, stored) =>
      var sorted := SortByTime(rows);
      if CountCpu(rows) > 0 && CountCpu(rows) / length > stored {
        PruneMembers(sorted, stored * length, x);
      }
      SortMembers(rows, x);
  }

  lemma AgedKeepsMarks(maxAge: Option<int>, h: ModelHistory, now: int)
    requires PruneAged(maxAge, h, now).Ok?
    ensures SameMarks(h, PruneAged(maxAge, h, now).value) && SomeRows(h, PruneAged(maxAge, h, now).value)
  {
    if maxAge.Some? {
      forall row | row in Younger(h.rows, now - maxAge.value) ensures row in h.rows {
        YoungerMember(h.rows, now - maxAge.value, row);
      }
    }
  }

  lemma LifecycleKeepsMarks(m: Model, h: ModelHistory, now: int)
    requires ModelOk(m) && Lifecycle(m, h, now).Ok?
    ensures var s := Lifecycle(m, h, now).value;
            SomeRows(h, s.history) && (!s.restarted ==> SameMarks(h, s.history))
            && (s.restarted ==> s.history.rows == [])
  {
    AgedKeepsMarks(m.maxAge, h, now);
  }

  lemma TrimKeepsMarks(m: Model, h: ModelHistory)
    ensures SameMarks(h, Trimmed(m, h)) && SomeRows(h, Trimmed(m, h))
  {
    forall row | row in Trimmed(m, h).rows ensures row in h.rows {
      if UsesCpu(m.kind) {
        if row !in CpuRows(h.rows) {
          RetainedMembers(m.retention, CpuRows(h.rows), row);
        }
        CpuRowsMember(h.rows, row);
      }
    }
  }

  lemma RepairFacts(m: Model, existing: Option<ModelHistory>, now: int)
    requires Repaired(m, existing, now).Ok?
    ensures var r := Repaired(m, existing, now).value;
            (!r.restarted ==> existing == Some(r.history)) && (r.restarted ==> r.history.rows == [])
  {
  }

  /** Without a restart, preparing changes neither the marks nor adds rows; with one it leaves no rows. */
  ghost predicate Continues(existing: Option<ModelHistory>, h': ModelHistory, restarted: bool) {
    if restarted then h'.rows == []
    else existing.Some? && SameMarks(existing.value, h') && SomeRows(existing.value, h')
  }

  lemma PrepareContinues(m: Model, existing: Option<ModelHistory>, now: int, slot: int)
    requires ModelOk(m) && Prepared(m, existing, now, slot).Ok?
    ensures var o := Prepared(m, existing, now, slot).value; Continues(existing, o.history, o.restarted)
  {
    RepairFacts(m, existing, now);
    var h := Repaired(m, existing, now).value.history;
    TrimKeepsMarks(m, h);
    LifecycleKeepsMarks(m, Trimmed(m, h), now);
    var s := Lifecycle(m, Trimmed(m, h), now).value;
    assert SomeRows(h, s.history);
  }

  lemma StageContinues(m: Model, existing: Option<ModelHistory>, now: int)
    requires ModelOk(m) && Repaired(m, existing, now).Ok?
          && Lifecycle(m, Repaired(m, existing, now).value.history, now).Ok?
    ensures var repair := Repaired(m, existing, now).value;
            var s := Lifecycle(m, repair.history, now).value;
            Continues(existing, s.history, repair.restarted || s.restarted)
  {
    RepairFacts(m, existing, now);
    LifecycleKeepsMarks(m, Repaired(m, existing, now).value.history, now);
  }

  // ----- Each step keeps the invariant -----

  lemma LogAfter(t: Trace, now: int, o: Outcome)
    requires LogOk(t) && RowsLogged(t) && Continues(t.history, o.history, o.restarted)
    ensures LogOk(After(t, now, o)) && RowsLogged(After(t, now, o))
  {
    var u := After(t, now, o);
    if !o.restarted {
      forall row | row in o.history.rows ensures Logged(u, row) {
        assert Logged(t, row);
        var i :| 0 <= i < |t.log| && t.log[i].era == t.era && t.log[i].row == row;
        assert u.log[i].row == row;
      }
    }
  }

  lemma PrepareKeeps(t: Trace, m: Model, now: int, slot: int)
    requires Inv(t) && Enabled(t, Prepare(m, now, slot))
    ensures Inv(Exec(t, Prepare(m, now, slot)))
  {
    var r := Prepared(m, t.history, now, slot);
    if r.Ok? {
      PreparedIsSound(m, t.history, now, slot);
      PrepareContinues(m, t.history, now, slot);
      LogAfter(t, now, r.value);
    } else {
      ClockKeeps(t, now);
    }
  }

  lemma ClockKeeps(t: Trace, now: int)
    requires Inv(t) && t.clock <= now
    ensures Inv(t.(clock := now))
  {
    if t.history.Some? {
      SoundLater(t.history.value, t.clock, now);
    }
    var u := t.(clock := now);
    forall row | u.history.Some? && row in u.history.value.rows ensures Logged(u, row) {
      assert Logged(t, row);
      var i :| 0 <= i < |t.log| && t.log[i].era == t.era && t.log[i].row == row;
      assert u.log[i].row == row;
    }
  }

  /** Consuming a slot later than the remembered one still remembers every admission. */
  lemma SkipKeeps(t: Trace, slot: int)
    requires LogOk(t) && RowsLogged(t) && t.history.Some? && SlotOpen(t.history.value, slot)
    ensures LogOk(t.(history := Some(t.history.value.(lastSample := Some(slot)))))
    ensures RowsLogged(t.(history := Some(t.history.value.(lastSample := Some(slot)))))
  {
    var u := t.(history := Some(t.history.value.(lastSample := Some(slot))));
    forall i | 0 <= i < |u.log| && u.log[i].era == u.era ensures Remembers(u.history, u.log[i]) {
      assert Remembers(t.history, t.log[i]);
    }
    forall row | row in u.history.value.rows ensures Logged(u, row) {
      assert Logged(t, row);
      var i :| 0 <= i < |t.log| && t.log[i].era == t.era && t.log[i].row == row;
      assert u.log[i].row == row;
    }
  }

  function AdmitTrace(t: Trace, m: Model, x: Snapshot, slot: int): Trace
    requires t.history.Some?
  {
    t.(history := Some(Admitted(m, t.history.value, x, slot)),
       log := t.log + [Admission(t.era, slot, Source(x), RowFor(x, MeasuredAt(x, slot)))])
  }

  lemma AdmitKeepsLog(t: Trace, m: Model, x: Snapshot, slot: int)
    requires LogOk(t) && t.history.Some? && SlotOpen(t.history.value, slot) && MarkerOk(t.history.value)
    requires x.sourceId != "" ==> !Repeats(t.history.value, x)
    ensures LogOk(AdmitTrace(t, m, x, slot))
  {
    var u := AdmitTrace(t, m, x, slot);
    forall i | 0 <= i < |t.log| ensures Precedes(t.log[i], u.log[|t.log|]) {
      assert t.log[i].era == t.era ==> Remembers(t.history, t.log[i]);
    }
    forall i | 0 <= i < |u.log| && u.log[i].era == u.era ensures Remembers(u.history, u.log[i]) {
      assert i < |t.log| ==> Remembers(t.history, t.log[i]);
    }
  }

  lemma AdmitKeepsRows(t: Trace, m: Model, x: Snapshot, slot: int)
    requires RowsLogged(t) && t.history.Some?
    ensures RowsLogged(AdmitTrace(t, m, x, slot))
  {
    var u := AdmitTrace(t, m, x, slot);
    var added := RowFor(x, MeasuredAt(x, slot));
    forall row | row in u.history.value.rows ensures Logged(u, row) {
      RetainedMembers(m.retention, t.history.value.rows + [added], row);
      if row == added {
        assert u.log[|t.log|].row == row;
      } else {
        assert Logged(t, row);
        var i :| 0 <= i < |t.log| && t.log[i].era == t.era && t.log[i].row == row;
        assert u.log[i].row == row && u.log[i].era == u.era;
      }
    }
  }

  /** The pass up to the slot: repaired and through its lifecycle. */
  lemma StagedKeeps(t: Trace, m: Model, now: int, repair: Repair, s: Stage)
    requires Inv(t) && ModelOk(m) && t.clock <= now
    requires Repaired(m, t.history, now) == Ok(repair) && Lifecycle(m, repair.history, now) == Ok(s)
    ensures var staged := After(t, now, Outcome(s.history, false, repair.restarted || s.restarted, false));
            LogOk(staged) && RowsLogged(staged) && Assess(s.history, now) == Sound
  {
    StageContinues(m, t.history, now);
    LogAfter(t, now, Outcome(s.history, false, repair.restarted || s.restarted, false));
    RepairedIsSound(m, t.history, now);
    LifecycleIsSound(m, repair.history, now);
  }

  lemma ApplyKeeps(t: Trace, m: Model, now: int, slot: int, x: Snapshot, retry: bool)
    requires Inv(t) && Enabled(t, Apply(m, now, slot, x, retry))
    ensures Inv(Exec(t, Apply(m, now, slot, x, retry)))
  {
    var r := Applied(m, t.history, now, slot, x, retry);
    if r.Err? {
      ClockKeeps(t, now);
    } else {
      AppliedIsSound(m, t.history, now, slot, x, retry);
      var repair := Repaired(m, t.history, now).value;
      var s := Lifecycle(m, repair.history, now).value;
      StagedKeeps(t, m, now, repair, s);
      if s.Ready? && SlotOpen(s.history, slot) {
        SlotTaken(t, m, now, slot, x, retry, repair, s);
      }
    }
  }

  /** An open slot is consumed without a row, or left for a retry. */
  lemma SkippedKeeps(staged: Trace, slot: int, retry: bool)
    requires LogOk(staged) && RowsLogged(staged) && staged.history.Some? && SlotOpen(staged.history.value, slot)
    ensures var u := staged.(history := Some(Skipped(staged.history.value, slot, retry))); LogOk(u) && RowsLogged(u)
  {
    SkipKeeps(staged, slot);
  }

  /** Or it is filled. */
  lemma AdmittedKeeps(staged: Trace, m: Model, prior: Option<int>, x: Snapshot, now: int, slot: int)
    requires LogOk(staged) && RowsLogged(staged) && staged.history.Some? && SlotOpen(staged.history.value, slot)
    requires Assess(staged.history.value, now) == Sound && !Rejects(m, staged.history.value, prior, x, now)
    ensures LogOk(AdmitTrace(staged, m, x, slot)) && RowsLogged(AdmitTrace(staged, m, x, slot))
  {
    AdmitKeepsLog(staged, m, x, slot);
    AdmitKeepsRows(staged, m, x, slot);
  }

  /** What an open slot adds to the pass up to it. */
  lemma SlotTrace(t: Trace, m: Model, now: int, slot: int, x: Snapshot, retry: bool, repair: Repair, s: Stage)
    requires Enabled(t, Apply(m, now, slot, x, retry)) && Applied(m, t.history, now, slot, x, retry).Ok?
    requires Repaired(m, t.history, now) == Ok(repair) && Lifecycle(m, repair.history, now) == Ok(s)
    requires s.Ready? && SlotOpen(s.history, slot)
    ensures var staged := After(t, now, Outcome(s.history, false, repair.restarted || s.restarted, false));
            Exec(t, Apply(m, now, slot, x, retry))
            == (if Rejects(m, s.history, s.prior, x, now)
                then staged.(history := Some(Skipped(s.history, slot, retry))) else AdmitTrace(staged, m, x, slot))
  {
  }

  lemma SlotTaken(t: Trace, m: Model, now: int, slot: int, x: Snapshot, retry: bool, repair: Repair, s: Stage)
    requires Enabled(t, Apply(m, now, slot, x, retry)) && Applied(m, t.history, now, slot, x, retry).Ok?
    requires Repaired(m, t.history, now) == Ok(repair) && Lifecycle(m, repair.history, now) == Ok(s)
    requires s.Ready? && SlotOpen(s.history, slot) && Assess(s.history, now) == Sound
    requires var staged := After(t, now, Outcome(s.history, false, repair.restarted || s.restarted, false));
             LogOk(staged) && RowsLogged(staged)
    ensures var u := Exec(t, Apply(m, now, slot, x, retry)); LogOk(u) && RowsLogged(u)
  {
    var staged := After(t, now, Outcome(s.history, false, repair.restarted || s.restarted, false));
    SlotTrace(t, m, now, slot, x, retry, repair, s);
    if Rejects(m, s.history, s.prior, x, now) {
      SkippedKeeps(staged, slot, retry);
    } else {
      AdmittedKeeps(staged, m, s.prior, x, now, slot);
    }
  }

  lemma RetainKeeps(t: Trace, maxAge: Option<int>, now: int)
    requires Inv(t) && Enabled(t, Retain(maxAge, now))
    ensures Inv(Exec(t, Retain(maxAge, now)))
  {
    ClockKeeps(t, now);
    var r := PruneAged(maxAge, t.history.value, now);
    if r.Ok? {
      PruneAgedKeeps(maxAge, t.history.value, now);
      AgedKeepsMarks(maxAge, t.history.value, now);
      LogAfter(t, now, Outcome(r.value, false, false, false));
      assert Exec(t, Retain(maxAge, now)) == After(t, now, Outcome(r.value, false, false, false));
    }
  }

  lemma FitKeeps(t: Trace, after: ModelHistory)
    requires Inv(t) && Enabled(t, Fit(after))
    ensures Inv(Exec(t, Fit(after)))
  {
    LogAfter(t, t.clock, Outcome(after, false, false, false));
    assert Exec(t, Fit(after)) == After(t, t.clock, Outcome(after, false, false, false));
  }

  lemma StepKeeps(t: Trace, step: Step)
    requires Inv(t)
    ensures Inv(Exec(t, step))
  {
    if Enabled(t, step) {
      match step
      case Prepare(m, now, slot) => PrepareKeeps(t, m, now, slot);
      case Apply(m, now, slot, x, retry) => ApplyKeeps(t, m, now, slot, x, retry);
      case Retain(maxAge, now) => RetainKeeps(t, maxAge, now);
      case Fit(after) => FitKeeps(t, after);
      case Discard =>
    }
  }

  lemma {:induction false} RunKeeps(clock: int, steps: seq<Step>)
    ensures Inv(Run(Init(clock), steps))
  {
    if |steps| > 0 {
      RunKeeps(clock, steps[..|steps| - 1]);
      StepKeeps(Run(Init(clock), steps[..|steps| - 1]), steps[|steps| - 1]);
    }
  }

  // ----- Theorems -----

  /** Every stored window validates at every later instant: the sampler never has to reset its own work. */
  lemma StoredWindowsValidate(clock: int, steps: seq<Step>, later: int)
    requires Run(Init(clock), steps).history.Some? && Run(Init(clock), steps).clock <= later
    ensures Assess(Run(Init(clock), steps).history.value, later) == Sound
  {
    RunKeeps(clock, steps);
    SoundLater(Run(Init(clock), steps).history.value, Run(Init(clock), steps).clock, later);
  }

  /** Between restarts each slot admits at most one row and no measurement is admitted twice. */
  lemma AdmissionsAdvance(clock: int, steps: seq<Step>, i: nat, j: nat)
    requires i < j < |Run(Init(clock), steps).log|
    ensures Precedes(Run(Init(clock), steps).log[i], Run(Init(clock), steps).log[j])
  {
    RunKeeps(clock, steps);
  }

  /** Every stored row was admitted since the last restart, and the measured rows are strictly chronological. */
  lemma RowsAreAdmitted(clock: int, steps: seq<Step>)
    requires Run(Init(clock), steps).history.Some?
    ensures var t := Run(Init(clock), steps);
            Chronicle(CpuRows(t.history.value.rows)) && forall row :: row in t.history.value.rows ==> Logged(t, row)
  {
    RunKeeps(clock, steps);
  }
}
