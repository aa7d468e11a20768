/**
  Runs of scale writes by one controller: the event histories it keeps, prunes and
  persists in whole seconds, the real replica trajectory, and how far the two agree.
 */
module RateRun {
  import opened Basics
  import opened ScaleBehavior

  /**
    One accepted write: planned, stamped with a decision time, written to Scale and
    recorded in the status, in that order.
   */
  datatype Write = Write(planned: int, time: int, written: int, recorded: int, replicas: int)

  datatype Log = Log(up: seq<Sample>, down: seq<Sample>)

  /** The decision time as the status keeps it. */
  function Stamp(write: Write): int {
    WholeSecond(write.time)
  }

  /** Replicas requested after all writes of the run. */
  function Current(initial: int, run: seq<Write>): int {
    if |run| == 0 then initial else run[|run| - 1].replicas
  }

  /** The real count at an instant: what the last write to Scale up to then asked for. */
  function ReplicasAt(initial: int, run: seq<Write>, at: int): int {
    if |run| == 0 then initial
    else if run[|run| - 1].written <= at then run[|run| - 1].replicas
    else ReplicasAt(initial, run[..|run| - 1], at)
  }

  /** The count at an instant as the persisted stamps tell it. */
  function StampedAt(initial: int, run: seq<Write>, at: int): int {
    if |run| == 0 then initial
    else if Stamp(run[|run| - 1]) <= at then run[|run| - 1].replicas
    else StampedAt(initial, run[..|run| - 1], at)
  }

  /** A monotone clock, and every write changes a nonnegative count. */
  ghost predicate Chronological(initial: int, run: seq<Write>) {
    && initial >= 0
    && (forall i :: 0 <= i < |run| ==>
          run[i].planned <= run[i].time <= run[i].written <= run[i].recorded && run[i].replicas >= 0)
    && (forall i, j :: 0 <= i < j < |run| ==> run[i].recorded <= run[j].planned)
    && (forall i :: 0 <= i < |run| ==> Moves(initial, run, i))
  }

  /** A write asks for another count than the one before it. */
  predicate Moves(initial: int, run: seq<Write>, i: nat)
    requires i < |run|
  {
    run[i].replicas != Current(initial, run[..i])
  }

  function Persisted(log: Log): Log {
    Log(Persist(log.up), Persist(log.down))
  }

  function UpEvent(previous: int, write: Write): Sample {
    Sample(Some(write.time), write.replicas - previous)
  }

  function DownEvent(previous: int, write: Write): Sample {
    Sample(Some(write.time), previous - write.replicas)
  }

  /** One write's event: the up or the down history grows, both are pruned, then persisted. */
  function Record(log: Log, previous: int, write: Write, upSeconds: int, downSeconds: int): Log {
    var up := if write.replicas > previous then log.up + [UpEvent(previous, write)] else log.up;
    var down := if write.replicas > previous then log.down else log.down + [DownEvent(previous, write)];
    Persisted(Log(Prune(up, upSeconds, write.recorded), Prune(down, downSeconds, write.recorded)))
  }

  /** The persisted event histories after a run. */
  function Events(initial: int, run: seq<Write>, upSeconds: int, downSeconds: int): Log {
    if |run| == 0 then Log([], [])
    else
      var front := run[..|run| - 1];
      Record(Events(initial, front, upSeconds, downSeconds), Current(initial, front), run[|run| - 1], upSeconds,
             downSeconds)
  }

  /** A plan made now prunes the histories it reads once more. */
  function PlanEvents(initial: int, run: seq<Write>, upSeconds: int, downSeconds: int, now: int): Log {
    var log := Events(initial, run, upSeconds, downSeconds);
    Log(Prune(log.up, upSeconds, now), Prune(log.down, downSeconds, now))
  }

  ghost predicate After(run: seq<Write>, now: int) {
    forall i :: 0 <= i < |run| ==> run[i].recorded <= now
  }

  // ----- What the histories know -----

  /** Replicas added minus deleted by writes stamped after the cutoff, without any pruning. */
  function Net(initial: int, run: seq<Write>, cutoff: int): int {
    if |run| == 0 then 0
    else
      var front := run[..|run| - 1];
      Net(initial, front, cutoff)
      + if Stamp(run[|run| - 1]) > cutoff then run[|run| - 1].replicas - Current(initial, front) else 0
  }

  lemma ChronologicalPrefix(initial: int, run: seq<Write>)
    requires Chronological(initial, run) && |run| > 0
    ensures Chronological(initial, run[..|run| - 1])
  {
    var front := run[..|run| - 1];
    forall i | 0 <= i < |front| ensures Moves(initial, front, i) {
      assert Moves(initial, run, i);
      assert front[..i] == run[..i];
    }
  }

  /** What the histories say was added minus deleted in the last period. */
  function Known(log: Log, period: int, now: int): int {
    Changes(log.up, period, now) - Changes(log.down, period, now)
  }

  lemma ChangesOfAppend(events: seq<Sample>, event: Sample, period: int, now: int)
    ensures Changes(events + [event], period, now)
         == Changes(events, period, now) + if Recent(event, period, now) then event.replicas else 0
  {
    assert (events + [event])[..|events|] == events;
  }

  lemma PersistAppend(events: seq<Sample>, event: Sample)
    ensures Persist(events + [event]) == Persist(events) + Persist([event])
  {
    assert (events + [event])[..|events|] == events && [event][..0] == [];
    assert Persist([event][..0]) == [];
  }

  lemma {:induction false} PersistIdempotent(events: seq<Sample>)
    ensures Persist(Persist(events)) == Persist(events)
  {
    if |events| > 0 {
      PersistIdempotent(events[..|events| - 1]);
      var r := Persist(events);
      assert r[..|r| - 1] == Persist(events[..|events| - 1]);
    }
  }

  /** Pruning persisted events leaves persisted events. */
  lemma {:induction false} PrunePersisted(events: seq<Sample>, windowSeconds: int, now: int)
    requires Persist(events) == events
    ensures Persist(Prune(events, windowSeconds, now)) == Prune(events, windowSeconds, now)
  {
    if |events| > 0 {
      var front, last := events[..|events| - 1], events[|events| - 1];
      assert events[..|events| - 1] == Persist(front) && Persist(events)[|events| - 1] == last;
      PrunePersisted(front, windowSeconds, now);
      if Recent(last, windowSeconds, now) {
        PersistAppend(Prune(front, windowSeconds, now), last);
        assert [last][..0] == [];
        assert Persist([last]) == Persist([last][..0]) + [last];
      } else {
        assert Prune(events, windowSeconds, now) == Prune(front, windowSeconds, now);
      }
    }
  }

  lemma PersistOne(event: Sample)
    requires event.time.Some?
    ensures Persist([event]) == [event.(time := Some(WholeSecond(event.time.value)))]
  {
    assert [event][..0] == [];
    assert Persist([event][..0]) == [];
  }

  /** One more event counts by its persisted stamp, whatever pruning at its recording drops. */
  lemma GrowsByStamp(events: seq<Sample>, event: Sample, windowSeconds: int, recorded: int, period: int, now: int)
    requires Persist(events) == events && event.time.Some? && period <= windowSeconds && recorded <= now
    ensures Changes(Persist(Prune(events + [event], windowSeconds, recorded)), period, now)
         == Changes(events, period, now)
            + if WholeSecond(event.time.value) > now - period * SECOND then event.replicas else 0
  {
    PrunePersisted(events, windowSeconds, recorded);
    PruneKeepsChanges(events, windowSeconds, period, recorded, now);
    var kept := Prune(events, windowSeconds, recorded);
    assert (events + [event])[..|events|] == events;
    if Recent(event, windowSeconds, recorded) {
      PersistAppend(kept, event);
      PersistOne(event);
      ChangesOfAppend(kept, event.(time := Some(WholeSecond(event.time.value))), period, now);
    } else {
      assert Prune(events + [event], windowSeconds, recorded) == kept;
      assert event.time.value <= recorded - windowSeconds * SECOND <= now - period * SECOND;
    }
  }

  lemma StaysByStamp(events: seq<Sample>, windowSeconds: int, recorded: int, period: int, now: int)
    requires Persist(events) == events && period <= windowSeconds && recorded <= now
    ensures Changes(Persist(Prune(events, windowSeconds, recorded)), period, now) == Changes(events, period, now)
  {
    PrunePersisted(events, windowSeconds, recorded);
    PruneKeepsChanges(events, windowSeconds, period, recorded, now);
  }

  /** Recording one write adds its own change by its persisted stamp. */
  lemma RecordKnows(log: Log, previous: int, write: Write, upSeconds: int, downSeconds: int, period: int, now: int)
    requires Persisted(log) == log && write.recorded <= now && period <= upSeconds && period <= downSeconds
    ensures Known(Record(log, previous, write, upSeconds, downSeconds), period, now)
         == Known(log, period, now) + if Stamp(write) > now - period * SECOND then write.replicas - previous else 0
  {
    if write.replicas > previous {
      GrowsByStamp(log.up, UpEvent(previous, write), upSeconds, write.recorded, period, now);
      StaysByStamp(log.down, downSeconds, write.recorded, period, now);
    } else {
      StaysByStamp(log.up, upSeconds, write.recorded, period, now);
      GrowsByStamp(log.down, DownEvent(previous, write), downSeconds, write.recorded, period, now);
    }
  }

  lemma EventsArePersisted(initial: int, run: seq<Write>, upSeconds: int, downSeconds: int)
    ensures Persisted(Events(initial, run, upSeconds, downSeconds)) == Events(initial, run, upSeconds, downSeconds)
  {
    if |run| > 0 {
      var front, write := run[..|run| - 1], run[|run| - 1];
      var log, previous := Events(initial, front, upSeconds, downSeconds), Current(initial, front);
      var up := if write.replicas > previous then log.up + [UpEvent(previous, write)] else log.up;
      var down := if write.replicas > previous then log.down else log.down + [DownEvent(previous, write)];
      PersistIdempotent(Prune(up, upSeconds, write.recorded));
      PersistIdempotent(Prune(down, downSeconds, write.recorded));
    }
  }

  /** Repeated pruning hides nothing inside a period both windows cover. */
  lemma {:induction false} EventsKnowPeriod(initial: int, run: seq<Write>, upSeconds: int, downSeconds: int,
                                            period: int, now: int)
    requires After(run, now)
    requires period <= upSeconds && period <= downSeconds
    ensures Known(Events(initial, run, upSeconds, downSeconds), period, now) == Net(initial, run, now - period * SECOND)
  {
    if |run| > 0 {
      var front, last := run[..|run| - 1], run[|run| - 1];
      EventsKnowPeriod(initial, front, upSeconds, downSeconds, period, now);
      EventsArePersisted(initial, front, upSeconds, downSeconds);
      RecordKnows(Events(initial, front, upSeconds, downSeconds), Current(initial, front), last,
                  upSeconds, downSeconds, period, now);
    }
  }

  lemma StampsAscend(initial: int, run: seq<Write>, i: nat, j: nat)
    requires Chronological(initial, run) && i <= j < |run|
    ensures Stamp(run[i]) <= Stamp(run[j])
  {
    assert run[i].time <= run[j].time;
  }

  lemma {:induction false} NoNetBeforeCutoff(initial: int, run: seq<Write>, cutoff: int)
    requires forall i :: 0 <= i < |run| ==> Stamp(run[i]) <= cutoff
    ensures Net(initial, run, cutoff) == 0
  {
    if |run| > 0 {
      NoNetBeforeCutoff(initial, run[..|run| - 1], cutoff);
    }
  }

  /** Undoing every write stamped after an instant gives the stamped count at that instant. */
  lemma {:induction false} NetTelescopes(initial: int, run: seq<Write>, cutoff: int)
    requires Chronological(initial, run)
    ensures Current(initial, run) - Net(initial, run, cutoff) == StampedAt(initial, run, cutoff)
    ensures StampedAt(initial, run, cutoff) >= 0
  {
    if |run| > 0 {
      ChronologicalPrefix(initial, run);
      var front, last := run[..|run| - 1], run[|run| - 1];
      if Stamp(last) <= cutoff {
        forall i | 0 <= i < |front| ensures Stamp(front[i]) <= cutoff {
          StampsAscend(initial, run, i, |front|);
        }
        NoNetBeforeCutoff(initial, front, cutoff);
      } else {
        NetTelescopes(initial, front, cutoff);
      }
    }
  }

  lemma PruneKeepsKnown(log: Log, upSeconds: int, downSeconds: int, period: int, now: int)
    requires period <= upSeconds && period <= downSeconds
    ensures Known(Log(Prune(log.up, upSeconds, now), Prune(log.down, downSeconds, now)), period, now)
         == Known(log, period, now)
  {
    PruneKeepsChanges(log.up, upSeconds, period, now, now);
    PruneKeepsChanges(log.down, downSeconds, period, now, now);
  }

  lemma PlanKnowsPeriod(initial: int, run: seq<Write>, upSeconds: int, downSeconds: int, period: int, now: int)
    requires After(run, now) && period <= upSeconds && period <= downSeconds
    ensures Known(PlanEvents(initial, run, upSeconds, downSeconds, now), period, now)
         == Net(initial, run, now - period * SECOND)
  {
    EventsKnowPeriod(initial, run, upSeconds, downSeconds, period, now);
    PruneKeepsKnown(Events(initial, run, upSeconds, downSeconds), upSeconds, downSeconds, period, now);
  }

  lemma StartFromKnown(current: int, log: Log, period: int, now: int, count: int)
    requires current - Known(log, period, now) == count >= 0
    ensures PeriodStart(current, log.up, log.down, period, now) == count
  {
  }

  lemma StartFromNet(initial: int, run: seq<Write>, log: Log, period: int, now: int, cutoff: int)
    requires Chronological(initial, run) && Known(log, period, now) == Net(initial, run, cutoff)
    ensures PeriodStart(Current(initial, run), log.up, log.down, period, now) == StampedAt(initial, run, cutoff)
  {
    NetTelescopes(initial, run, cutoff);
    StartFromKnown(Current(initial, run), log, period, now, StampedAt(initial, run, cutoff));
  }

  /** In every run, the period start a rate limit computes is the stamped count one period ago. */
  lemma PeriodStartIsStamped(initial: int, run: seq<Write>, upSeconds: int, downSeconds: int, period: int, now: int)
    requires Chronological(initial, run) && After(run, now)
    requires period <= upSeconds && period <= downSeconds
    ensures var log := PlanEvents(initial, run, upSeconds, downSeconds, now);
            PeriodStart(Current(initial, run), log.up, log.down, period, now)
            == StampedAt(initial, run, now - period * SECOND)
  {
    PlanKnowsPeriod(initial, run, upSeconds, downSeconds, period, now);
    StartFromNet(initial, run, PlanEvents(initial, run, upSeconds, downSeconds, now), period, now,
                 now - period * SECOND);
  }

  // ----- Stamps and real writes -----

  /** Stamped at or before the instant, but written to Scale only after it. */
  predicate Straddles(write: Write, at: int) {
    Stamp(write) <= at < write.written
  }

  predicate Unstraddled(run: seq<Write>, at: int) {
    forall i :: 0 <= i < |run| ==> !Straddles(run[i], at)
  }

  /** What the straddling writes change together. */
  function Drift(initial: int, run: seq<Write>, at: int): int {
    if |run| == 0 then 0
    else
      var front := run[..|run| - 1];
      Drift(initial, front, at)
      + if Straddles(run[|run| - 1], at) then run[|run| - 1].replicas - Current(initial, front) else 0
  }

  lemma {:induction false} NoDriftWhenWritten(initial: int, run: seq<Write>, at: int)
    requires forall i :: 0 <= i < |run| ==> run[i].written <= at
    ensures Drift(initial, run, at) == 0 && ReplicasAt(initial, run, at) == Current(initial, run)
  {
    if |run| > 0 {
      NoDriftWhenWritten(initial, run[..|run| - 1], at);
    }
  }

  /** The stamped count is ahead of the real one by exactly the straddling writes. */
  lemma {:induction false} StampedIsRealPlusDrift(initial: int, run: seq<Write>, at: int)
    requires Chronological(initial, run)
    ensures StampedAt(initial, run, at) == ReplicasAt(initial, run, at) + Drift(initial, run, at)
  {
    if |run| > 0 {
      ChronologicalPrefix(initial, run);
      var front, last := run[..|run| - 1], run[|run| - 1];
      StampedIsRealPlusDrift(initial, front, at);
      if last.written <= at {
        forall i | 0 <= i < |run| ensures run[i].written <= at {
          assert i < |front| ==> run[i].recorded <= last.planned;
        }
        NoDriftWhenWritten(initial, run, at);
      } else if Stamp(last) <= at {
        StampedAll(initial, run, at);
      }
    }
  }

  lemma StampedAll(initial: int, run: seq<Write>, at: int)
    requires Chronological(initial, run) && |run| > 0 && Stamp(run[|run| - 1]) <= at
    ensures StampedAt(initial, run[..|run| - 1], at) == Current(initial, run[..|run| - 1])
  {
    var front := run[..|run| - 1];
    if |front| > 0 {
      StampsAscend(initial, run, |front| - 1, |front|);
    }
  }

  lemma {:induction false} UnstraddledHasNoDrift(initial: int, run: seq<Write>, at: int)
    requires Unstraddled(run, at)
    ensures Drift(initial, run, at) == 0
  {
    if |run| > 0 {
      UnstraddledHasNoDrift(initial, run[..|run| - 1], at);
    }
  }

  /** The period start a plan computes now is the real count one period ago. */
  predicate StartIsReal(initial: int, run: seq<Write>, upSeconds: int, downSeconds: int, period: int, now: int) {
    StartAgrees(Current(initial, run), PlanEvents(initial, run, upSeconds, downSeconds, now), period, now,
                ReplicasAt(initial, run, now - period * SECOND))
  }

  predicate StartAgrees(current: int, log: Log, period: int, now: int, start: int) {
    PeriodStart(current, log.up, log.down, period, now) == start
  }

  /**
    For a covered period the computed start is the real count one period ago if and
    only if the writes that straddle that instant cancel out.
   */
  lemma PeriodStartIsReal(initial: int, run: seq<Write>, upSeconds: int, downSeconds: int, period: int, now: int)
    requires Chronological(initial, run) && After(run, now)
    requires period <= upSeconds && period <= downSeconds
    ensures StartIsReal(initial, run, upSeconds, downSeconds, period, now)
       <==> Drift(initial, run, now - period * SECOND) == 0
  {
    PeriodStartIsStamped(initial, run, upSeconds, downSeconds, period, now);
    StampedIsRealPlusDrift(initial, run, now - period * SECOND);
  }

  // ----- Why both conditions are needed -----

  lemma SingleWriteEvents(initial: int, write: Write, upSeconds: int, downSeconds: int)
    ensures Events(initial, [write], upSeconds, downSeconds)
         == Record(Log([], []), initial, write, upSeconds, downSeconds)
  {
    assert [write][..0] == [];
    assert Events(initial, [], upSeconds, downSeconds) == Log([], []);
  }

  /** An event exactly one window old is dropped, at recording or when planning. */
  lemma WindowDropsEvent(event: Sample, windowSeconds: int)
    requires event.time == Some(0) && windowSeconds >= 0
    ensures Prune(Persist(Prune([event], windowSeconds, 0)), windowSeconds, windowSeconds * SECOND) == []
  {
    assert [event][..0] == [];
    assert Prune([], windowSeconds, 0) == [];
    var kept := Prune([event], windowSeconds, 0);
    assert kept == [event] || kept == [];
    PersistOne(event);
    assert !Recent(event, windowSeconds, windowSeconds * SECOND);
  }

  /** A single write one window ago leaves no event behind. */
  lemma WindowDropsWrite(initial: int, write: Write, upSeconds: int, downSeconds: int)
    requires upSeconds >= 0 && downSeconds >= 0 && write.time == 0 && write.recorded == 0
    ensures var now := (if write.replicas > initial then upSeconds else downSeconds) * SECOND;
            PlanEvents(initial, [write], upSeconds, downSeconds, now) == Log([], [])
  {
    SingleWriteEvents(initial, write, upSeconds, downSeconds);
    var event := if write.replicas > initial then UpEvent(initial, write) else DownEvent(initial, write);
    assert [] + [event] == [event];
    WindowDropsEvent(event, if write.replicas > initial then upSeconds else downSeconds);
  }

  lemma BeforeTheOnlyWrite(initial: int, write: Write, at: int)
    requires at < write.written
    ensures ReplicasAt(initial, [write], at) == initial
  {
    assert [write][..0] == [];
  }

  lemma LoneWrite(initial: int, write: Write)
    requires initial >= 0 && write.replicas >= 0 && write.replicas != initial
    requires write.planned <= write.time <= write.written <= write.recorded
    ensures Chronological(initial, [write])
  {
    assert [write][..0] == [];
  }

  /** A write older than its window is forgotten, but a longer period still reaches behind it. */
  lemma DroppedWriteMiscounts(initial: int, write: Write, upSeconds: int, downSeconds: int, period: int)
    requires upSeconds >= 0 && downSeconds >= 0 && write == Write(0, 0, 0, 0, write.replicas)
    requires initial >= 0 && write.replicas >= 0 && write.replicas != initial
    requires period > if write.replicas > initial then upSeconds else downSeconds
    ensures var now := (if write.replicas > initial then upSeconds else downSeconds) * SECOND;
            !StartIsReal(initial, [write], upSeconds, downSeconds, period, now)
  {
    var now := (if write.replicas > initial then upSeconds else downSeconds) * SECOND;
    WindowDropsWrite(initial, write, upSeconds, downSeconds);
    BeforeTheOnlyWrite(initial, write, now - period * SECOND);
    assert PeriodStart(write.replicas, [], [], period, now) == write.replicas;
  }

  /**
    A period longer than either history's window is not covered: one write, straddling
    nothing, is enough to miscount.
   */
  lemma UncoveredPeriodMiscounts(upSeconds: int, downSeconds: int, period: int)
    returns (initial: int, run: seq<Write>, now: int)
    requires upSeconds >= 0 && downSeconds >= 0
    requires period > upSeconds || period > downSeconds
    ensures Chronological(initial, run) && After(run, now) && Unstraddled(run, now - period * SECOND)
    ensures !StartIsReal(initial, run, upSeconds, downSeconds, period, now)
  {
    initial := if period > downSeconds then 2 else 1;
    var write := Write(0, 0, 0, 0, 3 - initial);
    run := [write];
    now := (if period > downSeconds then downSeconds else upSeconds) * SECOND;
    LoneWrite(initial, write);
    DroppedWriteMiscounts(initial, write, upSeconds, downSeconds, period);
  }

  /** One write still under way one period ago is enough to miscount a covered period. */
  lemma StraddlingWriteMiscounts(upSeconds: int, downSeconds: int, period: int)
    returns (initial: int, run: seq<Write>, now: int)
    requires 0 < period <= upSeconds && period <= downSeconds
    ensures Chronological(initial, run) && After(run, now)
    ensures !StartIsReal(initial, run, upSeconds, downSeconds, period, now)
  {
    initial := 1;
    run := [Write(0, 0, 1, 1, 3)];
    now := period * SECOND;
    LoneWrite(initial, run[0]);
    assert run[..0] == [];
    PeriodStartIsReal(initial, run, upSeconds, downSeconds, period, now);
    assert Drift(initial, run[..0], 0) == 0;
    assert Drift(initial, run, 0) == 2;
  }

  /**
    The period start equals the real count in every run in which no write straddles the
    instant one period ago, exactly for the periods both windows cover.
   */
  lemma PeriodStartIsRealExactly(upSeconds: int, downSeconds: int, period: int)
    requires upSeconds >= 0 && downSeconds >= 0
    ensures period <= upSeconds && period <= downSeconds
       <==> forall initial, run, now
         | Chronological(initial, run) && After(run, now) && Unstraddled(run, now - period * SECOND) ::
              StartIsReal(initial, run, upSeconds, downSeconds, period, now)
  {
    if period <= upSeconds && period <= downSeconds {
      forall initial, run, now
        | Chronological(initial, run) && After(run, now) && Unstraddled(run, now - period * SECOND)
        ensures StartIsReal(initial, run, upSeconds, downSeconds, period, now)
      {
        UnstraddledHasNoDrift(initial, run, now - period * SECOND);
        CoveredStartIsReal(initial, run, upSeconds, downSeconds, period, now);
      }
    } else {
      var initial, run, now := UncoveredPeriodMiscounts(upSeconds, downSeconds, period);
    }
  }

  lemma CoveredStartIsReal(initial: int, run: seq<Write>, upSeconds: int, downSeconds: int, period: int, now: int)
    requires Chronological(initial, run) && After(run, now) && Drift(initial, run, now - period * SECOND) == 0
    requires period <= upSeconds && period <= downSeconds
    ensures StartIsReal(initial, run, upSeconds, downSeconds, period, now)
  {
    PeriodStartIsReal(initial, run, upSeconds, downSeconds, period, now);
  }

  // ----- The limit a run obeys -----

  /** What the scale-up policies allow from the real counts one period ago. */
  function RealUpProposals(policies: seq<Policy>, initial: int, run: seq<Write>, now: int): (r: seq<int>)
    ensures |r| == |policies|
  {
    seq(|policies|, i requires 0 <= i < |policies| =>
      UpProposal(policies[i], ReplicasAt(initial, run, now - policies[i].periodSeconds * SECOND)))
  }

  /** What the scale-down policies allow from them. */
  function RealDownProposals(policies: seq<Policy>, initial: int, run: seq<Write>, now: int): (r: seq<int>)
    ensures |r| == |policies|
  {
    seq(|policies|, i requires 0 <= i < |policies| =>
      DownProposal(policies[i], ReplicasAt(initial, run, now - policies[i].periodSeconds * SECOND)))
  }

  function RealUpLimit(rules: Rules, initial: int, run: seq<Write>, now: int): int {
    var proposals := RealUpProposals(rules.policies, initial, run, now);
    match rules.select
    case Disabled => Current(initial, run)
    case MinChange => Lowest(proposals, MAX_INT32)
    case MaxChange => Highest(proposals, MIN_INT32)
  }

  function RealDownLimit(rules: Rules, initial: int, run: seq<Write>, now: int): int {
    var proposals := RealDownProposals(rules.policies, initial, run, now);
    match rules.select
    case Disabled => Current(initial, run)
    case MinChange => Highest(proposals, MIN_INT32)
    case MaxChange => Lowest(proposals, MAX_INT32)
  }

  /** Every period lies within a window of this length. */
  ghost predicate Within(policies: seq<Policy>, windowSeconds: int) {
    forall i :: 0 <= i < |policies| ==> policies[i].periodSeconds <= windowSeconds
  }

  /** Every scale-up period is also covered by the scale-down history. */
  ghost predicate Covered(behavior: Behavior) {
    Within(behavior.scaleUp.policies, LongestPeriod(behavior.scaleDown.policies))
  }

  /** Every scale-down period is also covered by the scale-up history. */
  ghost predicate CoveredDown(behavior: Behavior) {
    Within(behavior.scaleDown.policies, LongestPeriod(behavior.scaleUp.policies))
  }

  /** The straddling writes of every policy's period cancel out. */
  ghost predicate Settled(policies: seq<Policy>, initial: int, run: seq<Write>, now: int) {
    forall i :: 0 <= i < |policies| ==> Drift(initial, run, now - policies[i].periodSeconds * SECOND) == 0
  }

  /** The plan a controller makes from its pruned event histories. */
  function Planned(behavior: Behavior, initial: int, run: seq<Write>, target: int, minReplicas: int, maxReplicas: int,
                   ups: seq<Sample>, downs: seq<Sample>, now: int): BehaviorResult
  {
    var log := PlanEvents(initial, run, LongestPeriod(behavior.scaleUp.policies),
                          LongestPeriod(behavior.scaleDown.policies), now);
    Decide(behavior, Current(initial, run), target, minReplicas, maxReplicas, ups, downs, log.up, log.down, now)
  }

  ghost predicate StartsAreReal(policies: seq<Policy>, upSeconds: int, downSeconds: int, initial: int,
                                run: seq<Write>, now: int)
  {
    forall i :: 0 <= i < |policies| ==>
      StartIsReal(initial, run, upSeconds, downSeconds, policies[i].periodSeconds, now)
  }

  /** On covered, settled policies every start a plan computes is the real one. */
  lemma SettledStartsAreReal(policies: seq<Policy>, upSeconds: int, downSeconds: int, initial: int, run: seq<Write>,
                             now: int)
    requires Chronological(initial, run) && After(run, now) && Settled(policies, initial, run, now)
    requires Within(policies, upSeconds) && Within(policies, downSeconds)
    ensures StartsAreReal(policies, upSeconds, downSeconds, initial, run, now)
  {
    forall i | 0 <= i < |policies|
      ensures StartIsReal(initial, run, upSeconds, downSeconds, policies[i].periodSeconds, now)
    {
      CoveredStartIsReal(initial, run, upSeconds, downSeconds, policies[i].periodSeconds, now);
    }
  }

  /** Histories that give every period its real start give the real proposals. */
  lemma ProposalsAgree(policies: seq<Policy>, current: int, log: Log, initial: int, run: seq<Write>, now: int)
    requires forall i :: 0 <= i < |policies| ==>
      StartAgrees(current, log, policies[i].periodSeconds, now,
                  ReplicasAt(initial, run, now - policies[i].periodSeconds * SECOND))
    ensures UpProposals(policies, current, log.up, log.down, now) == RealUpProposals(policies, initial, run, now)
    ensures DownProposals(policies, current, log.up, log.down, now) == RealDownProposals(policies, initial, run, now)
  {
  }

  lemma ProposalsAreReal(policies: seq<Policy>, upSeconds: int, downSeconds: int, initial: int, run: seq<Write>,
                         now: int)
    requires StartsAreReal(policies, upSeconds, downSeconds, initial, run, now)
    ensures var current, log := Current(initial, run), PlanEvents(initial, run, upSeconds, downSeconds, now);
            && UpProposals(policies, current, log.up, log.down, now) == RealUpProposals(policies, initial, run, now)
            && DownProposals(policies, current, log.up, log.down, now)
              == RealDownProposals(policies, initial, run, now)
  {
    assert forall i :: 0 <= i < |policies| ==>
      StartIsReal(initial, run, upSeconds, downSeconds, policies[i].periodSeconds, now);
    ProposalsAgree(policies, Current(initial, run), PlanEvents(initial, run, upSeconds, downSeconds, now),
                   initial, run, now);
  }

  /** On covered policies the computed limit is the limit on real counts. */
  lemma UpLimitIsReal(rules: Rules, upSeconds: int, downSeconds: int, initial: int, run: seq<Write>, now: int)
    requires Chronological(initial, run) && After(run, now) && Settled(rules.policies, initial, run, now)
    requires Within(rules.policies, upSeconds) && Within(rules.policies, downSeconds)
    ensures var log := PlanEvents(initial, run, upSeconds, downSeconds, now);
            UpLimit(rules, Current(initial, run), log.up, log.down, now) == RealUpLimit(rules, initial, run, now)
  {
    SettledStartsAreReal(rules.policies, upSeconds, downSeconds, initial, run, now);
    ProposalsAreReal(rules.policies, upSeconds, downSeconds, initial, run, now);
  }

  /** So is the computed scale-down limit. */
  lemma DownLimitIsReal(rules: Rules, upSeconds: int, downSeconds: int, initial: int, run: seq<Write>, now: int)
    requires Chronological(initial, run) && After(run, now) && Settled(rules.policies, initial, run, now)
    requires Within(rules.policies, upSeconds) && Within(rules.policies, downSeconds)
    ensures var log := PlanEvents(initial, run, upSeconds, downSeconds, now);
            DownLimit(rules, Current(initial, run), log.up, log.down, now) == RealDownLimit(rules, initial, run, now)
  {
    SettledStartsAreReal(rules.policies, upSeconds, downSeconds, initial, run, now);
    ProposalsAreReal(rules.policies, upSeconds, downSeconds, initial, run, now);
  }

  lemma LongestCovers(policies: seq<Policy>)
    ensures Within(policies, LongestPeriod(policies))
  {
    assert forall i :: 0 <= i < |policies| ==> policies[i] in policies;
  }

  /** Stabilization, rate limit and bounds never pass the limit upwards, or the minimum. */
  lemma DecidedWithinUpLimit(behavior: Behavior, current: int, target: int, minReplicas: int, maxReplicas: int,
                             ups: seq<Sample>, downs: seq<Sample>, log: Log, now: int)
    ensures var plan := Decide(behavior, current, target, minReplicas, maxReplicas, ups, downs, log.up, log.down, now);
            plan.desired > current ==>
              plan.desired <= Max(minReplicas, UpLimit(behavior.scaleUp, current, log.up, log.down, now))
  {
  }

  /** Nor downwards, or the maximum. */
  lemma DecidedWithinDownLimit(behavior: Behavior, current: int, target: int, minReplicas: int, maxReplicas: int,
                               ups: seq<Sample>, downs: seq<Sample>, log: Log, now: int)
    ensures var plan := Decide(behavior, current, target, minReplicas, maxReplicas, ups, downs, log.up, log.down, now);
            plan.desired < current ==>
              plan.desired >= Min(maxReplicas, DownLimit(behavior.scaleDown, current, log.up, log.down, now))
  {
  }

  /**
    In every run, whatever was recommended: a scale-up stays within the limit the
    policies give on the real replica trajectory, or at the minimum.
   */
  lemma UpscaleWithinRealLimit(behavior: Behavior, initial: int, run: seq<Write>, target: int, minReplicas: int,
                               maxReplicas: int, ups: seq<Sample>, downs: seq<Sample>, now: int)
    requires Chronological(initial, run) && After(run, now) && Covered(behavior)
    requires Settled(behavior.scaleUp.policies, initial, run, now)
    ensures var plan := Planned(behavior, initial, run, target, minReplicas, maxReplicas, ups, downs, now);
            plan.desired > Current(initial, run) ==>
              plan.desired <= Max(minReplicas, RealUpLimit(behavior.scaleUp, initial, run, now))
  {
    var up, down := LongestPeriod(behavior.scaleUp.policies), LongestPeriod(behavior.scaleDown.policies);
    LongestCovers(behavior.scaleUp.policies);
    UpLimitIsReal(behavior.scaleUp, up, down, initial, run, now);
    DecidedWithinUpLimit(behavior, Current(initial, run), target, minReplicas, maxReplicas, ups, downs,
                         PlanEvents(initial, run, up, down, now), now);
  }

  /**
    And a scale-down stops at the limit the policies give on the real replica
    trajectory, or at the maximum.
   */
  lemma DownscaleWithinRealLimit(behavior: Behavior, initial: int, run: seq<Write>, target: int, minReplicas: int,
                                 maxReplicas: int, ups: seq<Sample>, downs: seq<Sample>, now: int)
    requires Chronological(initial, run) && After(run, now) && CoveredDown(behavior)
    requires Settled(behavior.scaleDown.policies, initial, run, now)
    ensures var plan := Planned(behavior, initial, run, target, minReplicas, maxReplicas, ups, downs, now);
            plan.desired < Current(initial, run) ==>
              plan.desired >= Min(maxReplicas, RealDownLimit(behavior.scaleDown, initial, run, now))
  {
    var up, down := LongestPeriod(behavior.scaleUp.policies), LongestPeriod(behavior.scaleDown.policies);
    LongestCovers(behavior.scaleDown.policies);
    DownLimitIsReal(behavior.scaleDown, up, down, initial, run, now);
    DecidedWithinDownLimit(behavior, Current(initial, run), target, minReplicas, maxReplicas, ups, downs,
                           PlanEvents(initial, run, up, down, now), now);
  }
}
