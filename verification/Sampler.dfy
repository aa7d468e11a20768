/**
  The history sampler: preparing each model's stored window and adding at most one
  row per slot. Every write it makes leaves a sound window behind.
 */
module Sampler {
  import opened Basics
  import opened History
  import opened HistoryFacts
  import opened Slots

  datatype Model = Model(
    name: string,
    kind: string,
    retention: Retention,
    maxAge: Option<int>,
    startInterval: Option<int>,
    resetDuration: Option<int>)

  /** What validation of the resource demands of a model. */
  predicate ModelOk(m: Model) {
    && UsesCpu(m.kind) && RetentionOk(m.retention)
    && (m.maxAge.Some? ==> m.maxAge.value > 0) && (m.startInterval.Some? ==> m.startInterval.value > 0)
  }

  /** One collected measurement; an empty source identifier is legacy slot sampling. */
  datatype Snapshot = Snapshot(
    cpu: Option<int>,
    sourceId: string,
    sourceTime: int,
    replicas: int,
    metric: Option<real>,
    request: Option<int>,
    targetPercent: Option<int>)

  /** What collection guarantees by the instant the snapshot is applied. */
  predicate SnapshotOk(x: Snapshot, now: int) {
    && (x.cpu.Some? ==> x.cpu.value >= 0) && x.replicas >= 0 && (x.metric.Some? ==> x.metric.value >= 0.0)
    && Positive(x.request) && Positive(x.targetPercent)
    && (x.sourceId != "" ==> Digest(x.sourceId) && x.sourceTime != 0 && x.sourceTime <= now)
  }

  // ----- Small computations -----

  /** The nearest multiple of the interval, or the one after it when that has passed. */
  function NextInterval(t: int, d: int): int
    requires d > 0
  {
    var r := t % d;
    var nearest := if r + r < d then t - r else t + d - r;
    if nearest < t then nearest + d else nearest
  }

  /** It is the first multiple not before the instant. */
  lemma NextIntervalRoundsUp(t: int, d: int)
    requires d > 0
    ensures NextInterval(t, d) == RoundUp(t, d)
  {
  }

  function LaterOf(a: Option<int>, b: Option<int>): Option<int> {
    if b.Some? && (a == None || b.value > a.value) then b else a
  }

  // ----- The shared lifecycle -----

  datatype Repair = Repair(history: ModelHistory, restarted: bool)

  function Base(m: Model, existing: Option<ModelHistory>): Repair {
    if existing == None || existing.value.kind != m.kind then Repair(Fresh(m.kind), true)
    else Repair(existing.value, false)
  }

  /** A damaged window is reset; one ahead of the clock is left for the clock to catch up. */
  function Repaired(m: Model, existing: Option<ModelHistory>, now: int): Result<Repair> {
    var base := Base(m, existing);
    match Assess(base.history, now)
    case Ahead => Err
    case Damaged => (match ResetWindow(base.history) case Err => Err case Ok(h) => Ok(Repair(h, true)))
    case Sound => Ok(base)
  }

  datatype Stage =
    | Waiting(history: ModelHistory, restarted: bool)
    | Ready(history: ModelHistory, prior: Option<int>, restarted: bool)

  predicate ResetDue(m: Model, prior: Option<int>, now: int) {
    m.resetDuration.Some? && prior.Some? && now - prior.value > m.resetDuration.value
  }

  function Started(m: Model, h: ModelHistory, now: int): ModelHistory
    requires m.startInterval.Some? && m.startInterval.value > 0
  {
    h.(startTime := Some(NextInterval(now, m.startInterval.value)))
  }

  /** Age, start gate and reset duration, in the order both sampler passes apply them. */
  function Lifecycle(m: Model, h: ModelHistory, now: int): Result<Stage>
    requires ModelOk(m)
  {
    var prior := Latest(h.rows);
    match PruneAged(m.maxAge, h, now)
    case Err => Err
    case Ok(aged) =>
      if m.startInterval.Some? && aged.startTime == None then Ok(Waiting(Started(m, aged, now), false))
      else if m.startInterval.Some? && now < aged.startTime.value then Ok(Waiting(aged, false))
      else if !ResetDue(m, prior, now) then Ok(Ready(aged, prior, false))
      else
        match ResetWindow(aged)
        case Err => Err
        case Ok(reset) =>
          if m.startInterval.Some? then Ok(Waiting(Started(m, reset, now), true)) else Ok(Ready(reset, prior, true))
  }

  // ----- Preparation -----

  /** Rows without a measurement go, and a window past its requirement is cut where that makes it shorter. */
  function Trimmed(m: Model, h: ModelHistory): ModelHistory {
    if !UsesCpu(m.kind) then h
    else
      var usable := CpuRows(h.rows);
      var kept := Retained(m.retention, usable);
      h.(rows := if |usable| > Required(m.retention) > 0 && |kept| < |usable| then kept else usable)
  }

  datatype Outcome = Outcome(history: ModelHistory, due: bool, restarted: bool, appended: bool)

  predicate SlotOpen(h: ModelHistory, slot: int) {
    var latest := LaterOf(Latest(h.rows), h.lastSample);
    latest.Some? ==> slot > latest.value
  }

  function Prepared(m: Model, existing: Option<ModelHistory>, now: int, slot: int): Result<Outcome>
    requires ModelOk(m)
  {
    match Repaired(m, existing, now)
    case Err => Err
    case Ok(repair) =>
      match Lifecycle(m, Trimmed(m, repair.history), now)
      case Err => Err
      case Ok(Waiting(h, again)) => Ok(Outcome(h, false, repair.restarted || again, false))
      case Ok(Ready(h, _, again)) => Ok(Outcome(h, SlotOpen(h, slot), repair.restarted || again, false))
  }

  // ----- Application -----

  /** The slot is consumed without a row, unless an early retry may still fill it. */
  function Skipped(h: ModelHistory, slot: int, retry: bool): ModelHistory {
    if retry then h else h.(lastSample := Some(slot))
  }

  predicate Missing(m: Model, h: ModelHistory, x: Snapshot) {
    UsesCpu(m.kind) && (x.cpu == None || (h.observationId != "" && x.sourceId == ""))
  }

  /** The same or an older measurement than the last admitted one. */
  predicate Repeats(h: ModelHistory, x: Snapshot) {
    x.sourceId == h.observationId || (Present(h.observationTime) && x.sourceTime <= h.observationTime.value)
  }

  function MeasuredAt(x: Snapshot, slot: int): int {
    if x.sourceId != "" then Truncate(x.sourceTime, SECOND) else slot
  }

  predicate Misplaced(x: Snapshot, prior: Option<int>, now: int) {
    var at := Truncate(x.sourceTime, SECOND);
    at == 0 || at > now || (prior.Some? && at <= prior.value)
  }

  function RowFor(x: Snapshot, at: int): Sample {
    Sample(Some(at), x.replicas, x.metric, x.cpu, x.request, x.targetPercent)
  }

  /** The admitted row, its source marker and the consumed slot, in one write. */
  function Admitted(m: Model, h: ModelHistory, x: Snapshot, slot: int): ModelHistory {
    var marked := if x.sourceId != "" then h.(observationId := x.sourceId, observationTime := Some(x.sourceTime))
                  else h;
    marked.(lastSample := Some(slot), rows := Retained(m.retention, h.rows + [RowFor(x, MeasuredAt(x, slot))]))
  }

  predicate Rejects(m: Model, h: ModelHistory, prior: Option<int>, x: Snapshot, now: int) {
    Missing(m, h, x) || (x.sourceId != "" && (Repeats(h, x) || Misplaced(x, prior, now)))
  }

  function Applied(m: Model, existing: Option<ModelHistory>, now: int, slot: int, x: Snapshot,
                   retry: bool): Result<Outcome>
    requires ModelOk(m)
  {
    match Repaired(m, existing, now)
    case Err => Err
    case Ok(repair) =>
      match Lifecycle(m, repair.history, now)
      case Err => Err
      case Ok(Waiting(h, again)) => Ok(Outcome(h, false, repair.restarted || again, false))
      case Ok(Ready(h, prior, again)) =>
        var restarted := repair.restarted || again;
        if !SlotOpen(h, slot) then Ok(Outcome(h, false, restarted, false))
        else if Rejects(m, h, prior, x, now) then Ok(Outcome(Skipped(h, slot, retry), false, restarted, false))
        else if m.maxAge.Some? && now >= slot + m.maxAge.value then Err
        else Ok(Outcome(Admitted(m, h, x, slot), false, restarted, true))
  }

  // ----- Soundness -----

  lemma RepairedIsSound(m: Model, existing: Option<ModelHistory>, now: int)
    requires ModelOk(m) && Repaired(m, existing, now).Ok?
    ensures var r := Repaired(m, existing, now).value; Assess(r.history, now) == Sound && r.history.kind == m.kind
  {
  }

  lemma TrimmedIsSound(m: Model, h: ModelHistory, now: int)
    requires ModelOk(m) && Assess(h, now) == Sound && h.kind == m.kind
    ensures Assess(Trimmed(m, h), now) == Sound && Trimmed(m, h).kind == m.kind
  {
    FilterKeeps(h, now);
    CpuRowsHaveCpu(h.rows);
    if |CpuRows(h.rows)| > 0 {
      PruneKeeps(h.(rows := CpuRows(h.rows)), m.retention, now);
    }
  }

  lemma StartIsSound(h: ModelHistory, start: Option<int>, now: int)
    requires Assess(h, now) == Sound
    ensures Assess(h.(startTime := start), now) == Sound
  {
  }

  lemma LifecycleIsSound(m: Model, h: ModelHistory, now: int)
    requires ModelOk(m) && Assess(h, now) == Sound && h.kind == m.kind && Lifecycle(m, h, now).Ok?
    ensures var s := Lifecycle(m, h, now).value;
            Assess(s.history, now) == Sound && s.history.kind == m.kind
  {
    PruneAgedKeeps(m.maxAge, h, now);
    var aged := PruneAged(m.maxAge, h, now).value;
    if m.startInterval.Some? {
      StartIsSound(aged, Some(NextInterval(now, m.startInterval.value)), now);
      if ResetWindow(aged).Ok? {
        StartIsSound(ResetWindow(aged).value, Some(NextInterval(now, m.startInterval.value)), now);
      }
    }
  }

  /** Whatever was stored before, a successful preparation writes a sound window. */
  lemma PreparedIsSound(m: Model, existing: Option<ModelHistory>, now: int, slot: int)
    requires ModelOk(m) && Prepared(m, existing, now, slot).Ok?
    ensures var o := Prepared(m, existing, now, slot).value; Assess(o.history, now) == Sound && o.history.kind == m.kind
  {
    RepairedIsSound(m, existing, now);
    var h := Repaired(m, existing, now).value.history;
    TrimmedIsSound(m, h, now);
    LifecycleIsSound(m, Trimmed(m, h), now);
  }

  /** Rows kept by the lifecycle are rows it was given, so their times are bounded by the earlier latest. */
  lemma LifecyclePrior(m: Model, h: ModelHistory, now: int, row: Sample)
    requires ModelOk(m) && Assess(h, now) == Sound && h.kind == m.kind && Lifecycle(m, h, now).Ok?
          && Lifecycle(m, h, now).value.Ready?
    requires row in Lifecycle(m, h, now).value.history.rows && row.time.Some?
    ensures var prior := Lifecycle(m, h, now).value.prior; prior.Some? && row.time.value <= prior.value
  {
    PruneAgedKeeps(m.maxAge, h, now);
    assert row in h.rows;
    var i :| 0 <= i < |h.rows| && h.rows[i] == row;
    LatestIsUpper(h.rows, i);
  }

  lemma SlotIsLater(h: ModelHistory, slot: int, row: Sample)
    requires SlotOpen(h, slot) && row in h.rows && row.time.Some?
    ensures row.time.value < slot
  {
    var i :| 0 <= i < |h.rows| && h.rows[i] == row;
    LatestIsUpper(h.rows, i);
  }

  /** The new row is later than every row with a measurement. */
  ghost predicate Follows(h: ModelHistory, at: int) {
    forall row :: row in CpuRows(h.rows) && row.time.Some? ==> row.time.value < at
  }

  lemma AppendIsSound(h: ModelHistory, row: Sample, now: int)
    requires Assess(h, now) == Sound && UsesCpu(h.kind) && RowOk(row) && row.time.value <= now
          && Follows(h, row.time.value)
    ensures Assess(h.(rows := h.rows + [row]), now) == Sound
  {
    var before := CpuRows(h.rows);
    CpuRowsAppend(h.rows, [row]);
    CpuRowsSingle(row);
    FollowingRow(before, row);
    AnyLaterAppend(before, row, now);
    var after := h.(rows := h.rows + [row]);
    assert CpuRows(after.rows) == before + [row];
    assert LastTime(before + [row]) == row.time;
    assert Intact(after);
  }

  lemma FollowingRow(rows: seq<Sample>, row: Sample)
    requires Chronicle(rows) && RowOk(row)
    requires forall x :: x in rows && x.time.Some? ==> x.time.value < row.time.value
    ensures Chronicle(rows + [row])
    ensures rows != [] ==> LastTime(rows).Some? && LastTime(rows).value < row.time.value
  {
    assert |rows| > 0 ==> rows[|rows| - 1] in rows && RowOk(rows[|rows| - 1]);
    ChronicleAppend(rows, row);
  }

  lemma MarkIsSound(h: ModelHistory, id: string, at: int, slot: int, now: int)
    requires Assess(h, now) == Sound && slot != 0 && slot <= now
    ensures Assess(h.(lastSample := Some(slot)), now) == Sound
    ensures Digest(id) && at != 0 && at <= now ==>
              Assess(h.(observationId := id, observationTime := Some(at), lastSample := Some(slot)), now) == Sound
  {
  }

  lemma AdmittedIsSound(m: Model, h: ModelHistory, x: Snapshot, now: int, slot: int)
    requires ModelOk(m) && Assess(h, now) == Sound && h.kind == m.kind && SnapshotOk(x, now) && x.cpu.Some?
    requires 0 != slot <= now && MeasuredAt(x, slot) != 0 && MeasuredAt(x, slot) <= now
          && Follows(h, MeasuredAt(x, slot))
    ensures Assess(Admitted(m, h, x, slot), now) == Sound
  {
    var row := RowFor(x, MeasuredAt(x, slot));
    AppendIsSound(h, row, now);
    var appended := h.(rows := h.rows + [row]);
    CountAppend(h.rows, row);
    PruneKeeps(appended, m.retention, now);
    MarkIsSound(appended.(rows := Retained(m.retention, appended.rows)), x.sourceId, x.sourceTime, slot, now);
  }

  lemma MeasurementFollows(m: Model, h0: ModelHistory, x: Snapshot, now: int, slot: int)
    requires ModelOk(m) && Assess(h0, now) == Sound && h0.kind == m.kind
    requires Lifecycle(m, h0, now).Ok? && Lifecycle(m, h0, now).value.Ready?
    requires var s := Lifecycle(m, h0, now).value; SlotOpen(s.history, slot) && !Rejects(m, s.history, s.prior, x, now)
    ensures Follows(Lifecycle(m, h0, now).value.history, MeasuredAt(x, slot))
  {
    var s := Lifecycle(m, h0, now).value;
    forall row | row in CpuRows(s.history.rows) && row.time.Some? ensures row.time.value < MeasuredAt(x, slot) {
      CpuRowsMember(s.history.rows, row);
      if x.sourceId != "" {
        LifecyclePrior(m, h0, now, row);
      } else {
        SlotIsLater(s.history, slot, row);
      }
    }
  }

  /** Whatever was stored before, a successful application writes a sound window. */
  lemma AppliedIsSound(m: Model, existing: Option<ModelHistory>, now: int, slot: int, x: Snapshot, retry: bool)
    requires ModelOk(m) && SnapshotOk(x, now) && 0 != slot <= now && Applied(m, existing, now, slot, x, retry).Ok?
    ensures var o := Applied(m, existing, now, slot, x, retry).value;
            Assess(o.history, now) == Sound && o.history.kind == m.kind
  {
    RepairedIsSound(m, existing, now);
    var h0 := Repaired(m, existing, now).value.history;
    LifecycleIsSound(m, h0, now);
    var s := Lifecycle(m, h0, now).value;
    if s.Ready? && SlotOpen(s.history, slot) {
      MarkIsSound(s.history, "", 0, slot, now);
      if !Rejects(m, s.history, s.prior, x, now) {
        MeasurementFollows(m, h0, x, now, slot);
        AdmittedIsSound(m, s.history, x, now, slot);
      }
    }
  }
}
