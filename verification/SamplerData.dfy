/** The sampler's two passes over the stored histories, as it runs them on the loaded data. */
module SamplerData {
  import opened Basics
  import opened History
  import opened Slots
  import opened Sampler

  // ----- Facts behind the change flags -----

  lemma {:induction false} FilterLength(rows: seq<Sample>)
    ensures |CpuRows(rows)| <= |rows|
    ensures |CpuRows(rows)| == |rows| ==> CpuRows(rows) == rows
  {
    if |rows| > 0 {
      FilterLength(rows[..|rows| - 1]);
    }
  }

  // ----- One model -----

  method RepairModel(m: Model, existing: Option<ModelHistory>, now: int) returns (r: Result<Repair>, changed: bool)
    ensures r == Repaired(m, existing, now)
    ensures r.Ok? && !changed ==> existing == Some(r.value.history)
  {
    var h, restarted := Fresh(m.kind), true;
    if existing.Some? && existing.value.kind == m.kind {
      h, restarted := existing.value, false;
    }
    changed := restarted;
    var verdict := ValidateWindow(h, now);
    if verdict == Ahead {
      return Err, changed;
    }
    if verdict == Damaged {
      var reset := ResetWindow(h);
      if reset.Err? {
        return Err, changed;
      }
      h, restarted, changed := reset.value, true, true;
    }
    return Ok(Repair(h, restarted)), changed;
  }

  method TrimModel(m: Model, h: ModelHistory) returns (r: ModelHistory, changed: bool)
    requires ModelOk(m)
    ensures r == Trimmed(m, h) && (!changed ==> r == h)
  {
    r, changed := h, false;
    var usable := FilterCpuHistory(h.rows);
    FilterLength(h.rows);
    if |usable| != |h.rows| {
      r, changed := r.(rows := usable), true;
    }
    if |r.rows| > Required(m.retention) {
      var pruned := PruneModelHistory(m.retention, r.rows);
      if |pruned| < |r.rows| {
        r, changed := r.(rows := pruned), true;
      }
    }
  }

  method RunLifecycle(m: Model, h: ModelHistory, now: int) returns (r: Result<Stage>, changed: bool)
    requires ModelOk(m)
    ensures r == Lifecycle(m, h, now)
    ensures r.Ok? && !changed ==> r.value.history == h
  {
    var prior := LatestTimestamp(h.rows);
    var aged := PruneAgedHistory(m.maxAge, h, now);
    if aged.Err? {
      return Err, false;
    }
    var current := aged.value;
    changed := current != h;
    if m.startInterval.Some? {
      if current.startTime == None {
        return Ok(Waiting(Started(m, current, now), false)), true;
      }
      if now < current.startTime.value {
        return Ok(Waiting(current, false)), changed;
      }
    }
    var restarted := false;
    if m.resetDuration.Some? && prior.Some? && now - prior.value > m.resetDuration.value {
      var reset := ResetWindow(current);
      if reset.Err? {
        return Err, changed;
      }
      current, changed, restarted := reset.value, true, true;
      if m.startInterval.Some? {
        return Ok(Waiting(Started(m, current, now), true)), true;
      }
    }
    return Ok(Ready(current, prior, restarted)), changed;
  }

  method IsSlotOpen(h: ModelHistory, slot: int) returns (open: bool)
    ensures open == SlotOpen(h, slot)
  {
    var latest := LatestTimestamp(h.rows);
    if h.lastSample.Some? && (latest == None || h.lastSample.value > latest.value) {
      latest := h.lastSample;
    }
    return latest == None || slot > latest.value;
  }

  method PrepareModel(m: Model, existing: Option<ModelHistory>, now: int, slot: int)
    returns (r: Result<Outcome>, changed: bool)
    requires ModelOk(m)
    ensures r == Prepared(m, existing, now, slot)
    ensures r.Ok? && !changed ==> existing == Some(r.value.history)
  {
    var repair, repairChanged := RepairModel(m, existing, now);
    if repair.Err? {
      return Err, repairChanged;
    }
    var trimmed, trimChanged := TrimModel(m, repair.value.history);
    var stage, stageChanged := RunLifecycle(m, trimmed, now);
    changed := repairChanged || trimChanged || stageChanged;
    if stage.Err? {
      return Err, changed;
    }
    var restarted := repair.value.restarted || stage.value.restarted;
    if stage.value.Waiting? {
      return Ok(Outcome(stage.value.history, false, restarted, false)), changed;
    }
    var due := IsSlotOpen(stage.value.history, slot);
    return Ok(Outcome(stage.value.history, due, restarted, false)), changed;
  }

  method AdmitSample(m: Model, h: ModelHistory, x: Snapshot, slot: int) returns (r: ModelHistory)
    requires ModelOk(m)
    ensures r == Admitted(m, h, x, slot)
  {
    r := h;
    var at := slot;
    if x.sourceId != "" {
      at := Truncate(x.sourceTime, SECOND);
      r := r.(observationId := x.sourceId, observationTime := Some(x.sourceTime));
    }
    r := r.(lastSample := Some(slot));
    var rows := PruneModelHistory(m.retention, h.rows + [RowFor(x, at)]);
    r := r.(rows := rows);
  }

  method ApplyModel(m: Model, existing: Option<ModelHistory>, now: int, slot: int, x: Snapshot, retry: bool)
    returns (r: Result<Outcome>, changed: bool)
    requires ModelOk(m)
    ensures r == Applied(m, existing, now, slot, x, retry)
    ensures r.Ok? && !changed ==> existing == Some(r.value.history)
  {
    var repair, repairChanged := RepairModel(m, existing, now);
    if repair.Err? {
      return Err, repairChanged;
    }
    var stage, stageChanged := RunLifecycle(m, repair.value.history, now);
    changed := repairChanged || stageChanged;
    if stage.Err? {
      return Err, changed;
    }
    var h, restarted := stage.value.history, repair.value.restarted || stage.value.restarted;
    if stage.value.Waiting? {
      return Ok(Outcome(h, false, restarted, false)), changed;
    }
    var open := IsSlotOpen(h, slot);
    if !open {
      return Ok(Outcome(h, false, restarted, false)), changed;
    }
    if Missing(m, h, x) || (x.sourceId != "" && (Repeats(h, x) || Misplaced(x, stage.value.prior, now))) {
      return Ok(Outcome(Skipped(h, slot, retry), false, restarted, false)), changed || !retry;
    }
    if m.maxAge.Some? && now >= slot + m.maxAge.value {
      return Err, changed;
    }
    var admitted := AdmitSample(m, h, x, slot);
    return Ok(Outcome(admitted, false, restarted, true)), true;
  }

  // ----- All models -----

  function Lookup(data: map<string, ModelHistory>, name: string): Option<ModelHistory> {
    if name in data then Some(data[name]) else None
  }

  predicate Named(models: seq<Model>, name: string) {
    exists i :: 0 <= i < |models| && models[i].name == name
  }

  /** What stays stored: the histories of configured models. */
  function Configured(data: map<string, ModelHistory>, models: seq<Model>): map<string, ModelHistory> {
    map name | name in data && Named(models, name) :: data[name]
  }

  predicate ModelsOk(models: seq<Model>) {
    forall i :: 0 <= i < |models| ==> ModelOk(models[i])
  }

  function PrepareEach(models: seq<Model>, data: map<string, ModelHistory>, now: int, slot: int)
    : Result<map<string, ModelHistory>>
    requires ModelsOk(models)
  {
    if |models| == 0 then Ok(data)
    else
      var m := models[|models| - 1];
      match PrepareEach(models[..|models| - 1], data, now, slot)
      case Err => Err
      case Ok(done) =>
        match Prepared(m, Lookup(done, m.name), now, slot)
        case Err => Err
        case Ok(o) => Ok(done[m.name := o.history])
  }

  /** Some model is waiting for a row in this slot. */
  predicate AnyDue(models: seq<Model>, data: map<string, ModelHistory>, now: int, slot: int)
    requires ModelsOk(models)
  {
    |models| > 0 &&
    var m, front := models[|models| - 1], models[..|models| - 1];
    || AnyDue(front, data, now, slot)
    || (var done := PrepareEach(front, data, now, slot);
        done.Ok? && var o := Prepared(m, Lookup(done.value, m.name), now, slot); o.Ok? && o.value.due)
  }

  lemma PrepareExtends(models: seq<Model>, i: nat, data: map<string, ModelHistory>, done: map<string, ModelHistory>,
                       now: int, slot: int)
    requires i < |models| && ModelsOk(models) && PrepareEach(models[..i], data, now, slot) == Ok(done)
    ensures var o := Prepared(models[i], Lookup(done, models[i].name), now, slot);
            && PrepareEach(models[..i + 1], data, now, slot)
              == (if o.Ok? then Ok(done[models[i].name := o.value.history]) else Err)
            && (AnyDue(models[..i + 1], data, now, slot) <==>
                  AnyDue(models[..i], data, now, slot) || (o.Ok? && o.value.due))
  {
    assert models[..i + 1][..i] == models[..i];
  }

  function ApplyEach(models: seq<Model>, data: map<string, ModelHistory>, now: int, slot: int, x: Snapshot,
                     retry: bool)
    : Result<map<string, ModelHistory>>
    requires ModelsOk(models)
  {
    if |models| == 0 then Ok(data)
    else
      var m := models[|models| - 1];
      match ApplyEach(models[..|models| - 1], data, now, slot, x, retry)
      case Err => Err
      case Ok(done) =>
        match Applied(m, Lookup(done, m.name), now, slot, x, retry)
        case Err => Err
        case Ok(o) => Ok(done[m.name := o.history])
  }

  lemma ApplyExtends(models: seq<Model>, i: nat, data: map<string, ModelHistory>, done: map<string, ModelHistory>,
                     now: int, slot: int, x: Snapshot, retry: bool)
    requires i < |models| && ModelsOk(models) && ApplyEach(models[..i], data, now, slot, x, retry) == Ok(done)
    ensures var o := Applied(models[i], Lookup(done, models[i].name), now, slot, x, retry);
            ApplyEach(models[..i + 1], data, now, slot, x, retry)
            == (if o.Ok? then Ok(done[models[i].name := o.value.history]) else Err)
  {
    assert models[..i + 1][..i] == models[..i];
  }

  class HistoryData {
    var histories: map<string, ModelHistory>

    method DropUnconfigured(models: seq<Model>) returns (changed: bool)
      modifies this
      ensures histories == Configured(old(histories), models)
      ensures !changed ==> histories == old(histories)
    {
      changed := false;
      var todo := histories.Keys;
      while todo != {}
        invariant todo <= histories.Keys <= old(histories).Keys
        invariant forall k :: k in histories ==> histories[k] == old(histories)[k]
        invariant forall k :: k in old(histories) && k !in todo ==> (k in histories <==> Named(models, k))
        invariant !changed ==> histories == old(histories)
        decreases |todo|
      {
        var name :| name in todo;
        todo := todo - {name};
        if !Named(models, name) {
          histories := histories - {name};
          changed := true;
        }
      }
    }

    method PrepareOne(m: Model, now: int, slot: int) returns (ok: bool, changed: bool, due: bool)
      requires ModelOk(m)
      modifies this
      ensures var o := Prepared(m, Lookup(old(histories), m.name), now, slot);
              && ok == o.Ok?
              && (ok ==> histories == old(histories)[m.name := o.value.history] && due == o.value.due)
              && (ok && !changed ==> histories == old(histories))
    {
      var outcome;
      outcome, changed := PrepareModel(m, Lookup(histories, m.name), now, slot);
      if outcome.Err? {
        return false, changed, false;
      }
      histories := histories[m.name := outcome.value.history];
      return true, changed, outcome.value.due;
    }

    method PrepareModels(models: seq<Model>, now: int, slot: int) returns (ok: bool, changed: bool, due: bool)
      requires ModelsOk(models)
      modifies this
      ensures ok <==> PrepareEach(models, old(histories), now, slot).Ok?
      ensures ok ==> PrepareEach(models, old(histories), now, slot).value == histories
      ensures ok ==> due == AnyDue(models, old(histories), now, slot)
      ensures ok && !changed ==> histories == old(histories)
    {
      changed, due := false, false;
      for i := 0 to |models|
        invariant PrepareEach(models[..i], old(histories), now, slot) == Ok(histories)
        invariant due == AnyDue(models[..i], old(histories), now, slot)
        invariant !changed ==> histories == old(histories)
      {
        PrepareExtends(models, i, old(histories), histories, now, slot);
        var prepared, modelChanged, modelDue := PrepareOne(models[i], now, slot);
        if !prepared {
          PrepareFails(models, i + 1, old(histories), now, slot);
          return false, changed, due;
        }
        changed := changed || modelChanged;
        due := due || modelDue;
      }
      assert models[..|models|] == models;
      ok := true;
    }

    /** On an error the caller discards the data, so only a success says what it holds. */
    method PrepareSamplingState(models: seq<Model>, now: int, slot: int) returns (ok: bool, changed: bool, due: bool)
      requires ModelsOk(models)
      modifies this
      ensures ok <==> PrepareEach(models, old(histories), now, slot).Ok?
      ensures ok ==> histories == Configured(PrepareEach(models, old(histories), now, slot).value, models)
      ensures ok ==> due == AnyDue(models, old(histories), now, slot)
      ensures ok && !changed ==> histories == old(histories)
    {
      ok, changed, due := PrepareModels(models, now, slot);
      if ok {
        var dropped := DropUnconfigured(models);
        changed := changed || dropped;
      }
    }

    method ApplyOne(m: Model, now: int, slot: int, x: Snapshot, retry: bool) returns (ok: bool, changed: bool)
      requires ModelOk(m)
      modifies this
      ensures var o := Applied(m, Lookup(old(histories), m.name), now, slot, x, retry);
              && ok == o.Ok?
              && (ok ==> histories == old(histories)[m.name := o.value.history])
              && (ok && !changed ==> histories == old(histories))
    {
      var outcome;
      outcome, changed := ApplyModel(m, Lookup(histories, m.name), now, slot, x, retry);
      if outcome.Err? {
        return false, changed;
      }
      histories := histories[m.name := outcome.value.history];
      return true, changed;
    }

    method ApplyModels(models: seq<Model>, now: int, slot: int, x: Snapshot, retry: bool)
      returns (ok: bool, changed: bool)
      requires ModelsOk(models)
      modifies this
      ensures ok <==> ApplyEach(models, old(histories), now, slot, x, retry).Ok?
      ensures ok ==> ApplyEach(models, old(histories), now, slot, x, retry).value == histories
      ensures ok && !changed ==> histories == old(histories)
    {
      changed := false;
      for i := 0 to |models|
        invariant ApplyEach(models[..i], old(histories), now, slot, x, retry) == Ok(histories)
        invariant !changed ==> histories == old(histories)
      {
        ApplyExtends(models, i, old(histories), histories, now, slot, x, retry);
        var applied, modelChanged := ApplyOne(models[i], now, slot, x, retry);
        if !applied {
          ApplyFails(models, i + 1, old(histories), now, slot, x, retry);
          return false, changed;
        }
        changed := changed || modelChanged;
      }
      assert models[..|models|] == models;
      ok := true;
    }

    method ApplySample(models: seq<Model>, now: int, slot: int, x: Snapshot, retry: bool)
      returns (ok: bool, changed: bool)
      requires ModelsOk(models)
      modifies this
      ensures ok <==> ApplyEach(models, old(histories), now, slot, x, retry).Ok?
      ensures ok ==> histories == Configured(ApplyEach(models, old(histories), now, slot, x, retry).value, models)
      ensures ok && !changed ==> histories == old(histories)
    {
      ok, changed := ApplyModels(models, now, slot, x, retry);
      if ok {
        var dropped := DropUnconfigured(models);
        changed := changed || dropped;
      }
    }
  }

  lemma {:induction false} PrepareFails(models: seq<Model>, i: nat, data: map<string, ModelHistory>, now: int,
                                        slot: int)
    requires i <= |models| && ModelsOk(models) && PrepareEach(models[..i], data, now, slot).Err?
    ensures PrepareEach(models, data, now, slot).Err?
    decreases |models|
  {
    if i == |models| {
      assert models[..i] == models;
    } else {
      assert models[..|models| - 1][..i] == models[..i];
      PrepareFails(models[..|models| - 1], i, data, now, slot);
    }
  }

  lemma {:induction false} ApplyFails(models: seq<Model>, i: nat, data: map<string, ModelHistory>, now: int, slot: int,
                                      x: Snapshot, retry: bool)
    requires i <= |models| && ModelsOk(models) && ApplyEach(models[..i], data, now, slot, x, retry).Err?
    ensures ApplyEach(models, data, now, slot, x, retry).Err?
    decreases |models|
  {
    if i == |models| {
      assert models[..i] == models;
    } else {
      assert models[..|models| - 1][..i] == models[..i];
      ApplyFails(models[..|models| - 1], i, data, now, slot, x, retry);
    }
  }

  // ----- Everything a pass stores is sound -----

  ghost predicate SoundFor(data: map<string, ModelHistory>, models: seq<Model>, now: int) {
    forall name :: Named(models, name) ==> name in data && Assess(data[name], now) == Sound
  }

  lemma NamedFront(models: seq<Model>, name: string)
    requires |models| > 0
    ensures Named(models, name) <==> Named(models[..|models| - 1], name) || models[|models| - 1].name == name
  {
    var n := |models| - 1;
    if Named(models[..n], name) {
      var i :| 0 <= i < n && models[..n][i].name == name;
      assert models[i].name == name;
    }
    if Named(models, name) && models[n].name != name {
      var i :| 0 <= i < |models| && models[i].name == name;
      assert models[..n][i].name == name;
    }
  }

  lemma {:induction false} PrepareEachIsSound(models: seq<Model>, data: map<string, ModelHistory>, now: int, slot: int)
    requires ModelsOk(models) && PrepareEach(models, data, now, slot).Ok?
    ensures SoundFor(PrepareEach(models, data, now, slot).value, models, now)
  {
    if |models| > 0 {
      var front, m := models[..|models| - 1], models[|models| - 1];
      PrepareEachIsSound(front, data, now, slot);
      var done := PrepareEach(front, data, now, slot).value;
      PreparedIsSound(m, Lookup(done, m.name), now, slot);
      var after := PrepareEach(models, data, now, slot).value;
      forall name | Named(models, name) ensures name in after && Assess(after[name], now) == Sound {
        NamedFront(models, name);
      }
    }
  }

  lemma {:induction false} ApplyEachIsSound(models: seq<Model>, data: map<string, ModelHistory>, now: int, slot: int,
                                            x: Snapshot, retry: bool)
    requires ModelsOk(models) && SnapshotOk(x, now) && 0 != slot <= now
          && ApplyEach(models, data, now, slot, x, retry).Ok?
    ensures SoundFor(ApplyEach(models, data, now, slot, x, retry).value, models, now)
  {
    if |models| > 0 {
      var front, m := models[..|models| - 1], models[|models| - 1];
      ApplyEachIsSound(front, data, now, slot, x, retry);
      var done := ApplyEach(front, data, now, slot, x, retry).value;
      AppliedIsSound(m, Lookup(done, m.name), now, slot, x, retry);
      var after := ApplyEach(models, data, now, slot, x, retry).value;
      forall name | Named(models, name) ensures name in after && Assess(after[name], now) == Sound {
        NamedFront(models, name);
      }
    }
  }
}
