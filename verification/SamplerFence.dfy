/**
  The sampler and the completion fences fit together: everything the sampler writes
  over a window is a sample of it or a restart that the epoch fence tells apart, and
  everything a fit writes is what the sampler's runs allow a fit to write.
 */
module SamplerFence {
  import opened Basics
  import opened History
  import opened HistoryFacts
  import opened Sampler
  import Runs = SamplerRun
  import opened Completion

  predicate WriteOf(h: ModelHistory, after: ModelHistory) {
    SampleOnly(h, after) || RestartOnly(h, after)
  }

  lemma WriteTransitive(a: ModelHistory, b: ModelHistory, c: ModelHistory)
    requires WriteOf(a, b) && WriteOf(b, c)
    ensures WriteOf(a, c)
  {
  }

  lemma RepairIsWrite(m: Model, h: ModelHistory, now: int)
    requires h.kind == m.kind && Repaired(m, Some(h), now).Ok?
    ensures WriteOf(h, Repaired(m, Some(h), now).value.history)
  {
  }

  lemma TrimIsSample(m: Model, h: ModelHistory, now: int)
    requires ModelOk(m) && h.kind == m.kind && Assess(h, now) == Sound
    ensures SampleOnly(h, Trimmed(m, h))
  {
    var usable := CpuRows(h.rows);
    CpuRowsHaveCpu(h.rows);
    CpuRowsIdempotent(usable);
    if |usable| > 0 {
      RetainedKeeps(m.retention, usable);
    }
  }

  lemma LifecycleIsWrite(m: Model, h: ModelHistory, now: int)
    requires ModelOk(m) && Lifecycle(m, h, now).Ok?
    ensures WriteOf(h, Lifecycle(m, h, now).value.history)
  {
    var aged := PruneAged(m.maxAge, h, now).value;
    assert WriteOf(h, aged);
    WriteTransitive(h, aged, Lifecycle(m, h, now).value.history);
  }

  lemma AdmissionIsSample(m: Model, h: ModelHistory, x: Snapshot, now: int, slot: int)
    requires ModelOk(m) && Assess(h, now) == Sound && h.kind == m.kind && SnapshotOk(x, now) && x.cpu.Some?
    requires 0 != slot <= now && MeasuredAt(x, slot) != 0 && MeasuredAt(x, slot) <= now
          && Follows(h, MeasuredAt(x, slot))
    ensures SampleOnly(h, Admitted(m, h, x, slot))
  {
    var row := RowFor(x, MeasuredAt(x, slot));
    AppendIsSound(h, row, now);
    CpuRowsAppend(h.rows, [row]);
    CpuRowsSingle(row);
    CountAppend(h.rows, row);
    RetainedKeeps(m.retention, h.rows + [row]);
    FollowingRow(CpuRows(h.rows), row);
  }

  /** A preparation of an existing window samples it or restarts it. */
  lemma PreparationIsWrite(m: Model, h: ModelHistory, now: int, slot: int)
    requires ModelOk(m) && h.kind == m.kind && Prepared(m, Some(h), now, slot).Ok?
    ensures WriteOf(h, Prepared(m, Some(h), now, slot).value.history)
  {
    RepairIsWrite(m, h, now);
    RepairedIsSound(m, Some(h), now);
    var repaired := Repaired(m, Some(h), now).value.history;
    TrimIsSample(m, repaired, now);
    LifecycleIsWrite(m, Trimmed(m, repaired), now);
    WriteTransitive(h, repaired, Trimmed(m, repaired));
    WriteTransitive(h, Trimmed(m, repaired), Lifecycle(m, Trimmed(m, repaired), now).value.history);
  }

  /** So does an application, whether it admits a row or not. */
  lemma ApplicationIsWrite(m: Model, h: ModelHistory, now: int, slot: int, x: Snapshot, retry: bool)
    requires ModelOk(m) && h.kind == m.kind && SnapshotOk(x, now) && 0 != slot <= now
    requires Applied(m, Some(h), now, slot, x, retry).Ok?
    ensures WriteOf(h, Applied(m, Some(h), now, slot, x, retry).value.history)
  {
    RepairIsWrite(m, h, now);
    RepairedIsSound(m, Some(h), now);
    var repaired := Repaired(m, Some(h), now).value.history;
    LifecycleIsWrite(m, repaired, now);
    LifecycleIsSound(m, repaired, now);
    var s := Lifecycle(m, repaired, now).value;
    WriteTransitive(h, repaired, s.history);
    if s.Ready? && SlotOpen(s.history, slot) {
      if Rejects(m, s.history, s.prior, x, now) {
        WriteTransitive(h, s.history, Skipped(s.history, slot, retry));
      } else {
        MeasurementFollows(m, repaired, x, now, slot);
        AdmissionIsSample(m, s.history, x, now, slot);
        WriteTransitive(h, s.history, Admitted(m, s.history, x, slot));
      }
    }
  }

  /** A missing window, or one of another type, is started anew from epoch zero with nothing consumed. */
  lemma CreationIsNew(m: Model, existing: Option<ModelHistory>, now: int, slot: int, x: Snapshot, retry: bool)
    requires ModelOk(m) && (existing == None || existing.value.kind != m.kind)
    ensures Prepared(m, existing, now, slot).Ok? ==> NewOnly(m.kind, Prepared(m, existing, now, slot).value.history)
    ensures Applied(m, existing, now, slot, x, retry).Ok? ==>
              NewOnly(m.kind, Applied(m, existing, now, slot, x, retry).value.history)
  {
    var h := Fresh(m.kind);
    assert Repaired(m, existing, now) == Ok(Repair(h, true));
    assert Trimmed(m, h) == h;
    EmptyLifecycle(m, h, now);
  }

  lemma EmptyLifecycle(m: Model, h: ModelHistory, now: int)
    requires ModelOk(m) && h.rows == []
    ensures Lifecycle(m, h, now).Ok?
         && Lifecycle(m, h, now).value.history == h.(startTime := Lifecycle(m, h, now).value.history.startTime)
  {
  }

  /** A completion that consumes a retained measurement is a fit the sampler's runs allow. */
  lemma CompletionIsFit(d: Data, token: Token, ending: Ending, now: int)
    requires Completed(d, token, ending, now).Some? && UsesCpu(d.history.value.kind)
    requires ConsumesRetained(d.history.value, ending)
    ensures Runs.FitOnly(d.history.value, Completed(d, token, ending, now).value.history.value)
    ensures Assess(Completed(d, token, ending, now).value.history.value, now) == Sound
  {
  }
}
