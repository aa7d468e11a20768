/**
  Stored training windows: what makes one sound, resetting it, and dropping rows by
  age or count. Instants are nanoseconds since the zero time; a zero stamp is never valid.
 */
module History {
  import opened Basics


  datatype Sample = Sample(
    time: Option<int>,
    replicas: int,
    metric: Option<real>,
    cpu: Option<int>,
    request: Option<int>,
    targetPercent: Option<int>)

  /** The forecast-owned parts are only ever compared and replaced whole. */
  datatype ModelHistory = ModelHistory(
    kind: string,
    epoch: int,
    progress: int,
    rows: seq<Sample>,
    startTime: Option<int>,
    lastSample: Option<int>,
    lastModelRun: Option<int>,
    observationId: string,
    observationTime: Option<int>,
    reliability: Option<int>,
    cached: Option<int>,
    failure: Option<int>)

  function Fresh(kind: string): ModelHistory {
    ModelHistory(kind, 0, 0, [], None, None, None, "", None, None, None, None)
  }

  predicate UsesCpu(kind: string) {
    kind == "Linear" || kind == "HoltWinters" || kind == "ARIMA" || kind == "XGBoost" || kind == "LightGBM"
  }

  // ----- Rows with a CPU measurement -----

  function CpuRows(rows: seq<Sample>): (r: seq<Sample>) {
    if |rows| == 0 then []
    else CpuRows(rows[..|rows| - 1]) + (if rows[|rows| - 1].cpu.Some? then [rows[|rows| - 1]] else [])
  }

  predicate Present(t: Option<int>) {
    t.Some? && t.value != 0
  }

  predicate Positive(x: Option<int>) {
    x.Some? ==> x.value > 0
  }

  predicate RowOk(row: Sample) {
    && Present(row.time) && row.cpu.Some? && row.cpu.value >= 0 && row.replicas >= 0
    && Positive(row.request) && Positive(row.targetPercent) && (row.metric.Some? ==> row.metric.value >= 0.0)
  }

  /** Sound rows in strictly chronological order. */
  predicate Chronicle(rows: seq<Sample>) {
    && (forall i :: 0 <= i < |rows| ==> RowOk(rows[i]))
    && (forall i, j :: 0 <= i < j < |rows| ==> rows[i].time.value < rows[j].time.value)
  }

  function LastTime(rows: seq<Sample>): Option<int> {
    if |rows| == 0 then None else rows[|rows| - 1].time
  }

  lemma ChronicleAppend(rows: seq<Sample>, row: Sample)
    ensures Chronicle(rows + [row])
       <==> Chronicle(rows) && RowOk(row)
            && (|rows| > 0 ==> rows[|rows| - 1].time.Some? && rows[|rows| - 1].time.value < row.time.value)
  {
    var all := rows + [row];
    assert all[|rows|] == row && forall i :: 0 <= i < |rows| ==> all[i] == rows[i];
    if Chronicle(all) && |rows| > 0 {
      assert RowOk(all[|rows| - 1]) && all[|rows| - 1].time.value < all[|rows|].time.value;
    }
    if Chronicle(rows) && |rows| > 0 {
      assert RowOk(rows[|rows| - 1]);
      assert forall i :: 0 <= i < |rows| ==> rows[i].time.value <= rows[|rows| - 1].time.value;
    }
  }

  // ----- The latest timestamp, measured or not -----

  function Latest(rows: seq<Sample>): (r: Option<int>) {
    if |rows| == 0 then None
    else
      var before, t := Latest(rows[..|rows| - 1]), rows[|rows| - 1].time;
      if t.Some? && (before == None || t.value > before.value) then t else before
  }

  method LatestTimestamp(rows: seq<Sample>) returns (latest: Option<int>)
    ensures latest == Latest(rows)
  {
    latest := None;
    for i := 0 to |rows|
      invariant latest == Latest(rows[..i])
    {
      assert rows[..i + 1][..i] == rows[..i];
      if rows[i].time.Some? && (latest == None || rows[i].time.value > latest.value) {
        latest := rows[i].time;
      }
    }
    assert rows[..|rows|] == rows;
  }

  lemma {:induction false} LatestIsUpper(rows: seq<Sample>, i: nat)
    requires i < |rows| && rows[i].time.Some?
    ensures Latest(rows).Some? && Latest(rows).value >= rows[i].time.value
  {
    var n := |rows| - 1;
    if i < n {
      LatestIsUpper(rows[..n], i);
    }
  }

  // ----- Validation -----

  datatype Verdict = Sound | Ahead | Damaged

  /** The encoding of a 32-byte digest. */
  predicate Digest(id: string) {
    |id| == 64 && forall i :: 0 <= i < |id| ==> IsHex(id[i])
  }

  predicate MarkerOk(h: ModelHistory) {
    h.observationId != "" || h.observationTime.Some? ==> Digest(h.observationId) && Present(h.observationTime)
  }

  /** The consumed timestamp lies within the retained rows. */
  predicate ConsumedOk(h: ModelHistory) {
    h.lastModelRun.Some? ==>
      var last := LastTime(CpuRows(h.rows));
      h.lastModelRun.value != 0 && last.Some? && h.lastModelRun.value <= last.value
  }

  predicate Intact(h: ModelHistory) {
    && MarkerOk(h) && h.epoch >= 0 && h.progress >= 0
    && (UsesCpu(h.kind) ==> Chronicle(CpuRows(h.rows)) && h.lastSample != Some(0) && ConsumedOk(h))
  }

  predicate Later(t: Option<int>, now: int) {
    t.Some? && t.value > now
  }

  predicate AnyLater(rows: seq<Sample>, now: int) {
    exists i :: 0 <= i < |rows| && Later(rows[i].time, now)
  }

  predicate FromFuture(h: ModelHistory, now: int) {
    || Later(h.observationTime, now)
    || (UsesCpu(h.kind) && (AnyLater(CpuRows(h.rows), now) || Later(h.lastSample, now)))
  }

  /** Damage outranks a clock that is merely behind. */
  function Assess(h: ModelHistory, now: int): Verdict {
    if !Intact(h) then Damaged else if FromFuture(h, now) then Ahead else Sound
  }

  lemma AnyLaterAppend(rows: seq<Sample>, row: Sample, now: int)
    ensures AnyLater(rows + [row], now) <==> AnyLater(rows, now) || Later(row.time, now)
  {
    var all := rows + [row];
    if AnyLater(rows, now) {
      var i :| 0 <= i < |rows| && Later(rows[i].time, now);
      assert Later(all[i].time, now);
    }
    assert all[|rows|] == row;
  }

  /** The checks on one measured row after the previous one. */
  predicate Unfit(row: Sample, previous: Option<int>)
    requires row.cpu.Some?
  {
    || row.time == None || row.time.value == 0
    || (previous.Some? && row.time.value <= previous.value) || row.cpu.value < 0 || row.replicas < 0
    || (row.request.Some? && row.request.value <= 0) || (row.targetPercent.Some? && row.targetPercent.value <= 0)
    || (row.metric.Some? && row.metric.value < 0.0)
  }

  lemma UnfitBreaks(rows: seq<Sample>, row: Sample)
    requires Chronicle(rows) && row.cpu.Some?
    ensures Unfit(row, LastTime(rows)) <==> !Chronicle(rows + [row])
  {
    ChronicleAppend(rows, row);
    assert |rows| > 0 ==> RowOk(rows[|rows| - 1]);
  }

  /** The scan over the rows: the last CPU row and whether any is ahead of the clock. */
  method ScanRows(rows: seq<Sample>, now: int) returns (ok: bool, previous: Option<int>, future: bool)
    ensures ok <==> Chronicle(CpuRows(rows))
    ensures ok ==> previous == LastTime(CpuRows(rows)) && (future <==> AnyLater(CpuRows(rows), now))
  {
    previous, future := None, false;
    for i := 0 to |rows|
      invariant Chronicle(CpuRows(rows[..i])) && previous == LastTime(CpuRows(rows[..i]))
      invariant future <==> AnyLater(CpuRows(rows[..i]), now)
    {
      var row := rows[i];
      assert rows[..i + 1][..i] == rows[..i];
      if row.cpu.Some? {
        ghost var before := CpuRows(rows[..i]);
        assert CpuRows(rows[..i + 1]) == before + [row];
        AnyLaterAppend(before, row, now);
        UnfitBreaks(before, row);
        if Unfit(row, previous) {
          BrokenPrefix(rows, i + 1);
          return false, previous, future;
        }
        future := future || row.time.value > now;
        previous := row.time;
      } else {
        assert CpuRows(rows[..i + 1]) == CpuRows(rows[..i]);
      }
    }
    assert rows[..|rows|] == rows;
    return true, previous, future;
  }

  lemma {:induction false} BrokenPrefix(rows: seq<Sample>, i: nat)
    requires i <= |rows| && !Chronicle(CpuRows(rows[..i]))
    ensures !Chronicle(CpuRows(rows))
    decreases |rows|
  {
    if i == |rows| {
      assert rows[..i] == rows;
    } else {
      var front := rows[..|rows| - 1];
      assert front[..i] == rows[..i];
      BrokenPrefix(front, i);
      if rows[|rows| - 1].cpu.Some? {
        ChronicleAppend(CpuRows(front), rows[|rows| - 1]);
      } else {
        assert CpuRows(rows) == CpuRows(front);
      }
    }
  }

  method ValidateWindow(h: ModelHistory, now: int) returns (verdict: Verdict)
    ensures verdict == Assess(h, now)
  {
    var future := false;
    if h.observationId != "" || h.observationTime.Some? {
      if !Digest(h.observationId) || h.observationTime == None || h.observationTime.value == 0 {
        return Damaged;
      }
      future := h.observationTime.value > now;
    }
    if h.epoch < 0 || h.progress < 0 {
      return Damaged;
    }
    if !UsesCpu(h.kind) {
      return if future then Ahead else Sound;
    }
    var ok, previous, rowsAhead := ScanRows(h.rows, now);
    if !ok {
      return Damaged;
    }
    future := future || rowsAhead;
    if h.lastSample.Some? {
      if h.lastSample.value == 0 {
        return Damaged;
      }
      future := future || h.lastSample.value > now;
    }
    if h.lastModelRun.Some?
       && (h.lastModelRun.value == 0 || previous == None || h.lastModelRun.value > previous.value) {
      return Damaged;
    }
    return if future then Ahead else Sound;
  }

  /** A window that is sound now is sound at every later instant. */
  lemma SoundLater(h: ModelHistory, now: int, later: int)
    requires Assess(h, now) == Sound && now <= later
    ensures Assess(h, later) == Sound
  {
    var rows := CpuRows(h.rows);
    if AnyLater(rows, later) {
      var i :| 0 <= i < |rows| && Later(rows[i].time, later);
      assert Later(rows[i].time, now);
    }
  }

  // ----- Reset -----

  function ResetWindow(h: ModelHistory): (r: Result<ModelHistory>)
    ensures r.Ok? <==> 0 <= h.epoch && h.epoch != MAX_INT64
    ensures r.Ok? ==> forall now :: Assess(r.value, now) == Sound
    ensures r.Ok? ==> r.value.epoch > h.epoch && r.value.kind == h.kind && r.value.rows == []
  {
    if h.epoch < 0 || h.epoch == MAX_INT64 then Err
    else Ok(Fresh(h.kind).(epoch := h.epoch + 1, startTime := h.startTime))
  }

  // ----- Age -----

  function Younger(rows: seq<Sample>, cutoff: int): (r: seq<Sample>)
    ensures |r| <= |rows|
  {
    if |rows| == 0 then []
    else
      Younger(rows[..|rows| - 1], cutoff)
      + (if Later(rows[|rows| - 1].time, cutoff) then [rows[|rows| - 1]] else [])
  }

  method FilterByAge(rows: seq<Sample>, cutoff: int) returns (kept: seq<Sample>)
    ensures kept == Younger(rows, cutoff)
  {
    kept := [];
    for i := 0 to |rows|
      invariant kept == Younger(rows[..i], cutoff)
    {
      assert rows[..i + 1][..i] == rows[..i];
      if rows[i].time.Some? && rows[i].time.value > cutoff {
        kept := kept + [rows[i]];
      }
    }
    assert rows[..|rows|] == rows;
  }

  /** Expired rows start a new epoch and drop what was derived from them; the sampled slot is kept. */
  function PruneAged(maxAge: Option<int>, h: ModelHistory, now: int): Result<ModelHistory> {
    if maxAge == None then Ok(h)
    else
      var kept := Younger(h.rows, now - maxAge.value);
      if |kept| == |h.rows| then Ok(h)
      else if h.epoch == MAX_INT64 then Err
      else Ok(h.(rows := kept, epoch := h.epoch + 1, cached := None, failure := None, reliability := None,
                 lastModelRun := None, progress := 0))
  }

  method PruneAgedHistory(maxAge: Option<int>, h: ModelHistory, now: int) returns (r: Result<ModelHistory>)
    ensures r == PruneAged(maxAge, h, now)
  {
    if maxAge == None {
      return Ok(h);
    }
    var kept := FilterByAge(h.rows, now - maxAge.value);
    if |kept| == |h.rows| {
      return Ok(h);
    }
    if h.epoch == MAX_INT64 {
      return Err;
    }
    return Ok(h.(rows := kept, epoch := h.epoch + 1, cached := None, failure := None, reliability := None,
                 lastModelRun := None, progress := 0));
  }

  // ----- Count -----

  method FilterCpuHistory(rows: seq<Sample>) returns (r: seq<Sample>)
    ensures r == CpuRows(rows)
  {
    r := [];
    for i := 0 to |rows|
      invariant r == CpuRows(rows[..i])
    {
      assert rows[..i + 1][..i] == rows[..i];
      if rows[i].cpu.Some? {
        r := r + [rows[i]];
      }
    }
    assert rows[..|rows|] == rows;
  }

  /** Undated rows sort before dated ones; ties keep their order. */
  predicate NotAfter(a: Sample, b: Sample) {
    a.time == None || (b.time.Some? && a.time.value <= b.time.value)
  }

  function Insert(rows: seq<Sample>, row: Sample): (r: seq<Sample>)
    ensures |r| == |rows| + 1
  {
    if |rows| == 0 || NotAfter(rows[|rows| - 1], row) then rows + [row]
    else Insert(rows[..|rows| - 1], row) + [rows[|rows| - 1]]
  }

  /** The library's stable sort by time. */
  function SortByTime(rows: seq<Sample>): (r: seq<Sample>)
    ensures |r| == |rows|
  {
    if |rows| == 0 then [] else Insert(SortByTime(rows[..|rows| - 1]), rows[|rows| - 1])
  }

  function CountCpu(rows: seq<Sample>): (n: nat)
    ensures n <= |rows|
  {
    if |rows| == 0 then 0 else (if rows[0].cpu.Some? then 1 else 0) + CountCpu(rows[1..])
  }

  /** The shortest tail that still holds the given number of CPU rows. */
  function Newest(rows: seq<Sample>, limit: nat): (r: seq<Sample>) {
    if |rows| > 0 && CountCpu(rows[1..]) >= limit then Newest(rows[1..], limit) else rows
  }

  function PruneCpu(rows: seq<Sample>, limit: int): seq<Sample> {
    if limit <= 0 then []
    else if CountCpu(rows) <= limit then rows
    else Newest(SortByTime(rows), limit)
  }

  lemma {:induction false} NewestIs(rows: seq<Sample>, limit: nat, i: nat)
    requires i < |rows| && rows[i].cpu.Some? && CountCpu(rows[i..]) == limit
    ensures Newest(rows, limit) == rows[i..]
  {
    if i > 0 {
      CountTail(rows[1..], i - 1);
      assert rows[1..][i - 1..] == rows[i..];
      NewestIs(rows[1..], limit, i - 1);
    } else {
      assert rows[0..] == rows;
    }
  }

  lemma {:induction false} CountTail(rows: seq<Sample>, i: nat)
    requires i <= |rows|
    ensures CountCpu(rows) >= CountCpu(rows[i..])
  {
    if i > 0 {
      CountTail(rows[1..], i - 1);
      assert rows[1..][i - 1..] == rows[i..];
    } else {
      assert rows[0..] == rows;
    }
  }

  method PruneCpuHistory(rows: seq<Sample>, limit: int) returns (r: seq<Sample>)
    ensures r == PruneCpu(rows, limit)
  {
    if limit <= 0 {
      return [];
    }
    if CountCpu(rows) <= limit {
      return rows;
    }
    var sorted := SortByTime(rows);
    SortCounts(rows);
    var count, i := 0, |sorted|;
    assert sorted[i..] == [];
    while i > 0
      invariant 0 <= i <= |sorted| && count == CountCpu(sorted[i..]) && count < limit
    {
      i := i - 1;
      assert sorted[i..][1..] == sorted[i + 1..];
      if sorted[i].cpu.Some? {
        count := count + 1;
      }
      if count == limit {
        NewestIs(sorted, limit, i);
        return sorted[i..];
      }
    }
    assert false;
  }

  // ----- What each kind of model keeps -----

  type SeasonLength = n: int | n >= 1 witness 1

  /** A number of measurements, or whole seasons. */
  datatype Retention = ByCount(size: int) | BySeasons(length: SeasonLength, stored: int)

  /** The measurements a model needs before it can be fitted. */
  function Required(retention: Retention): int {
    match retention
    case ByCount(size) => size
    case BySeasons(length, stored) => Max(Max(length * stored, 2 * length), 10 + 2 * (length / 2))
  }

  /** Seasons are dropped whole and oldest first; without measurements the rows themselves are counted. */
  function Retained(retention: Retention, rows: seq<Sample>): seq<Sample> {
    match retention
    case ByCount(size) => PruneCpu(rows, size)
    case BySeasons(length, stored) =>
      var sorted, cpu := SortByTime(rows), CountCpu(rows);
      if cpu > 0 then if cpu / length <= stored then sorted else PruneCpu(sorted, stored * length)
      else
        var drop := (|sorted| / length - stored) * length;
        if drop <= 0 then sorted else if drop >= |sorted| then [] else sorted[drop..]
  }

  method PruneSeasons(rows: seq<Sample>, length: SeasonLength, stored: int) returns (r: seq<Sample>)
    ensures r == Retained(BySeasons(length, stored), rows)
  {
    var sorted, cpu := SortByTime(rows), CountCpu(rows);
    if cpu == 0 {
      var seasons := |sorted| / length - stored;
      if seasons <= 0 {
        MulMonotone(length, seasons, 0);
        return sorted;
      }
      MulMonotone(length, 1, seasons);
      if seasons * length >= |sorted| {
        return [];
      }
      return sorted[seasons * length..];
    }
    var seasons := cpu / length - stored;
    if seasons <= 0 {
      return sorted;
    }
    r := PruneCpuHistory(sorted, stored * length);
  }

  method PruneModelHistory(retention: Retention, rows: seq<Sample>) returns (r: seq<Sample>)
    ensures r == Retained(retention, rows)
  {
    match retention
    case ByCount(size) => r := PruneCpuHistory(rows, size);
    case BySeasons(length, stored) => r := PruneSeasons(rows, length, stored);
  }

  lemma {:induction false} CountAppend(rows: seq<Sample>, row: Sample)
    ensures CountCpu(rows + [row]) == CountCpu(rows) + (if row.cpu.Some? then 1 else 0)
  {
    if |rows| > 0 {
      CountAppend(rows[1..], row);
      assert (rows + [row])[1..] == rows[1..] + [row];
    } else {
      assert [row][1..] == [];
      assert rows + [row] == [row];
    }
  }

  lemma {:induction false} InsertCounts(rows: seq<Sample>, row: Sample)
    ensures CountCpu(Insert(rows, row)) == CountCpu(rows) + (if row.cpu.Some? then 1 else 0)
  {
    if |rows| == 0 || NotAfter(rows[|rows| - 1], row) {
      CountAppend(rows, row);
    } else {
      var front, last := rows[..|rows| - 1], rows[|rows| - 1];
      InsertCounts(front, row);
      CountAppend(Insert(front, row), last);
      CountAppend(front, last);
      assert rows == front + [last];
    }
  }

  lemma InsertedCounts(front: seq<Sample>, last: Sample, sorted: seq<Sample>)
    requires CountCpu(sorted) == CountCpu(front)
    ensures CountCpu(Insert(sorted, last)) == CountCpu(front + [last])
  {
    InsertCounts(sorted, last);
    CountAppend(front, last);
  }

  lemma {:induction false} SortCounts(rows: seq<Sample>)
    ensures CountCpu(SortByTime(rows)) == CountCpu(rows)
  {
    if |rows| > 0 {
      var front, last := rows[..|rows| - 1], rows[|rows| - 1];
      SortCounts(front);
      InsertedCounts(front, last, SortByTime(front));
      assert rows == front + [last];
    }
  }
}
