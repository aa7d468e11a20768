/**
  The forecast-reliability monitor: timestamp-matched errors, a calibrated error
  bound, and the degraded state. Instants are nanoseconds; 0 is an unset stamp.
 */
module Quality {
  import opened Basics
  import opened Quantile

  const MAX_PENDING := 128

  datatype Policy = Policy(calibration: int, window: int, breaches: int, floor: real)

  /** Omitted fields take their defaults. */
  function Effective(p: Policy): Policy {
    Policy(if p.calibration == 0 then 20 else p.calibration,
           if p.window == 0 then 5 else p.window,
           if p.breaches == 0 then 4 else p.breaches,
           if p.floor == 0.0 then 0.1 else p.floor)
  }

  /** What admission checks of the effective policy. */
  predicate Admitted(p: Policy) {
    && 10 <= p.calibration <= 100 && 2 <= p.window <= 20
    && 2 <= p.breaches <= p.window < 2 * p.breaches
    && 0.001 <= p.floor <= 1.0
  }

  datatype Forecast = Forecast(at: int, until: int, issuedAt: int, cpu: int, lead: int)

  predicate ValidPoint(p: Forecast) {
    p.at != 0 && p.issuedAt < p.at && p.at < p.until <= p.at + DAY && p.cpu >= 0 && p.lead > 0
  }

  datatype State = State(
    fingerprint: string,
    lead: int,
    pending: seq<Forecast>,
    baseline: seq<real>,
    recent: seq<real>,
    lastObservation: int,
    lastEvaluation: int,
    lastIntervalEnd: int,
    errorBound: real,
    degraded: bool,
    adaptationPending: bool,
    adaptation: string)

  function Empty(fingerprint: string): State {
    State(fingerprint, 0, [], [], [], 0, 0, 0, 0.0, false, false, "")
  }

  predicate Unit(s: seq<real>) {
    forall i :: 0 <= i < |s| ==> -1.0 <= s[i] <= 1.0
  }

  predicate AllValid(points: seq<Forecast>) {
    forall i :: 0 <= i < |points| ==> ValidPoint(points[i])
  }

  /** What a loaded state must satisfy to be kept. */
  predicate Valid(s: State) {
    && |s.pending| <= MAX_PENDING && |s.baseline| <= 100 && |s.recent| <= 20
    && s.lead >= 0 && 0.0 <= s.errorBound <= 1.0
    && Unit(s.baseline) && Unit(s.recent) && AllValid(s.pending)
  }

  function Ensure(s: Option<State>, fingerprint: string): State {
    if s == None || s.value.fingerprint != fingerprint || !Valid(s.value) then Empty(fingerprint) else s.value
  }

  // ----- Recording -----

  function InsertByStart(points: seq<Forecast>, p: Forecast): (r: seq<Forecast>)
    ensures |r| == |points| + 1
  {
    if |points| == 0 || p.at >= points[|points| - 1].at then points + [p]
    else InsertByStart(points[..|points| - 1], p) + [points[|points| - 1]]
  }

  /** The library sort by target instant. */
  function SortByStart(points: seq<Forecast>): (r: seq<Forecast>)
    ensures |r| == |points|
  {
    if |points| == 0 then [] else InsertByStart(SortByStart(points[..|points| - 1]), points[|points| - 1])
  }

  predicate Targets(points: seq<Forecast>, at: int) {
    exists i :: 0 <= i < |points| && points[i].at == at
  }

  function LastOf(points: seq<Forecast>, n: nat): (r: seq<Forecast>) {
    if |points| > n then points[|points| - n..] else points
  }

  /** A changed lead starts over. */
  function ForLead(s: State, lead: int): State {
    (if s.lead != 0 && s.lead != lead then Empty(s.fingerprint) else s).(lead := lead)
  }

  function Recorded(s: State, p: Option<Forecast>): State {
    if p == None || !ValidPoint(p.value) then s
    else
      var t := ForLead(s, p.value.lead);
      if Targets(t.pending, p.value.at) then t
      else t.(pending := LastOf(SortByStart(t.pending + [p.value]), MAX_PENDING))
  }

  // ----- Observing -----

  predicate Covers(p: Forecast, at: int) {
    p.at <= at < p.until
  }

  /** Points whose interval is still ahead. */
  function Ahead(points: seq<Forecast>, at: int): (r: seq<Forecast>)
    ensures |r| <= |points|
  {
    if |points| == 0 then []
    else
      var p := points[|points| - 1];
      Ahead(points[..|points| - 1], at) + (if at < p.at && at < p.until then [p] else [])
  }

  /** The first point whose interval holds the instant and starts at or after the last scored end. */
  function Match(points: seq<Forecast>, at: int, lastEnd: int): (m: Option<Forecast>)
    ensures m.Some? ==> m.value in points && Covers(m.value, at) && m.value.at >= lastEnd
  {
    if |points| == 0 then None
    else
      var front := Match(points[..|points| - 1], at, lastEnd);
      var p := points[|points| - 1];
      if front.Some? then front
      else if Covers(p, at) && p.at >= lastEnd then Some(p)
      else None
  }

  function RelativeError(cpu: int, predicted: int): real {
    (cpu - predicted) as real / MaxReal(1.0, Max(cpu, predicted) as real)
  }

  function Abs(x: real): real {
    if x < 0.0 then -x else x
  }

  function CountAbove(s: seq<real>, limit: real): (n: nat) {
    if |s| == 0 then 0 else CountAbove(s[..|s| - 1], limit) + One(s[|s| - 1] > limit)
  }

  function CountBelow(s: seq<real>, limit: real): (n: nat) {
    if |s| == 0 then 0 else CountBelow(s[..|s| - 1], limit) + One(!(s[|s| - 1] > limit) && s[|s| - 1] < -limit)
  }

  function CountInside(s: seq<real>, limit: real): (n: nat) {
    if |s| == 0 then 0 else CountInside(s[..|s| - 1], limit) + One(!(s[|s| - 1] > limit) && !(s[|s| - 1] < -limit))
  }

  predicate Accepts(s: State, at: int, cpu: int, now: int) {
    cpu >= 0 && at != 0 && at <= now && (s.lastObservation != 0 ==> at > s.lastObservation)
  }

  function MatchFor(s: State, at: int, cpu: int, now: int): Option<Forecast> {
    if Accepts(s, at, cpu, now) then Match(s.pending, at, s.lastIntervalEnd) else None
  }

  /** The observation time advances and only points still ahead are kept. */
  function Consumed(s: State, at: int): State {
    s.(lastObservation := at, pending := Ahead(s.pending, at))
  }

  /** A long gap makes the recent errors incomparable. */
  function Scheduled(s: State, p: Policy, f: Forecast, at: int): State {
    s.(recent := if s.lastEvaluation != 0 && at - s.lastEvaluation > p.window * (f.until - f.at) * 2 then []
                 else s.recent,
       lastEvaluation := at, lastIntervalEnd := f.until)
  }

  function Calibrated(s: State, p: Policy, err: real): State {
    var baseline := s.baseline + [Abs(err)];
    s.(baseline := baseline, errorBound := Bound(baseline, p.floor))
  }

  /** The oldest error leaves the window; it joins the reference only while healthy. */
  function Shifted(s: State, p: Policy): State
    requires p.window > 0 && |s.baseline| > 0
  {
    if |s.recent| != p.window then s
    else if s.degraded then s.(recent := s.recent[1..])
    else
      var baseline := s.baseline[1..] + [Abs(s.recent[0])];
      s.(baseline := baseline, errorBound := Bound(baseline, p.floor), recent := s.recent[1..])
  }

  function Judged(s: State, p: Policy): State {
    var under, over, inside :=
      CountAbove(s.recent, s.errorBound), CountBelow(s.recent, s.errorBound), CountInside(s.recent, s.errorBound);
    if !s.degraded && (under >= p.breaches || over >= p.breaches)
    then s.(degraded := true, adaptationPending := true, adaptation := "Requested")
    else if s.degraded && !s.adaptationPending && inside >= p.breaches
    then s.(degraded := false, recent := [])
    else s
  }

  function Scored(s: State, p: Policy, f: Forecast, at: int, cpu: int): State
    requires p.window > 0 && p.calibration > 0
  {
    var t := Scheduled(s, p, f, at);
    var err := RelativeError(cpu, f.cpu);
    if |t.baseline| < p.calibration then Calibrated(t, p, err)
    else
      var shifted := Shifted(t, p);
      var u := shifted.(recent := shifted.recent + [err]);
      if |u.recent| < p.window then u else Judged(u, p)
  }

  function Observed(s: State, policy: Policy, at: int, cpu: int, now: int): State
    requires Admitted(Effective(policy))
  {
    if !Accepts(s, at, cpu, now) then s
    else
      var t := Consumed(s, at);
      match Match(s.pending, at, s.lastIntervalEnd)
      case None => t
      case Some(f) => Scored(t, Effective(policy), f, at, cpu)
  }

  function AdaptedBy(s: State, action: string): State {
    s.(adaptationPending := false, adaptation := action, pending := [], recent := [])
  }

  // ----- The stored object -----

  class Monitor {
    var fingerprint: string
    var lead: int
    var pending: seq<Forecast>
    var baseline: seq<real>
    var recent: seq<real>
    var lastObservation: int
    var lastEvaluation: int
    var lastIntervalEnd: int
    var errorBound: real
    var degraded: bool
    var adaptationPending: bool
    var adaptation: string

    constructor (name: string)
      ensures Value() == Empty(name)
    {
      fingerprint, lead, pending, baseline, recent := name, 0, [], [], [];
      lastObservation, lastEvaluation, lastIntervalEnd, errorBound := 0, 0, 0, 0.0;
      degraded, adaptationPending, adaptation := false, false, "";
    }

    function Value(): State
      reads this
    {
      State(fingerprint, lead, pending, baseline, recent, lastObservation, lastEvaluation, lastIntervalEnd,
            errorBound, degraded, adaptationPending, adaptation)
    }

    method Clear()
      modifies this
      ensures Value() == Empty(old(fingerprint))
    {
      lead, pending, baseline, recent := 0, [], [], [];
      lastObservation, lastEvaluation, lastIntervalEnd, errorBound := 0, 0, 0, 0.0;
      degraded, adaptationPending, adaptation := false, false, "";
    }

    method Record(p: Option<Forecast>)
      modifies this
      ensures Value() == Recorded(old(Value()), p)
    {
      if p == None || !ValidPoint(p.value) {
        return;
      }
      if lead != 0 && lead != p.value.lead {
        Clear();
      }
      lead := p.value.lead;
      for i := 0 to |pending|
        invariant Value() == ForLead(old(Value()), p.value.lead)
        invariant forall k :: 0 <= k < i ==> pending[k].at != p.value.at
      {
        if pending[i].at == p.value.at {
          return;
        }
      }
      pending := SortByStart(pending + [p.value]);
      if |pending| > MAX_PENDING {
        pending := pending[|pending| - MAX_PENDING..];
      }
    }

    /** Splits the pending points at an instant; at most one point is matched. */
    method Consume(at: int) returns (matched: Option<Forecast>)
      modifies this`lastObservation, this`pending
      ensures Value() == Consumed(old(Value()), at)
      ensures matched == Match(old(pending), at, lastIntervalEnd)
    {
      lastObservation := at;
      var kept: seq<Forecast> := [];
      matched := None;
      for i := 0 to |pending|
        invariant pending == old(pending) && lastObservation == at
        invariant kept == Ahead(pending[..i], at) && matched == Match(pending[..i], at, lastIntervalEnd)
      {
        assert pending[..i + 1][..i] == pending[..i];
        var point := pending[i];
        if at < point.until {
          if at >= point.at {
            if matched == None && point.at >= lastIntervalEnd {
              matched := Some(point);
            }
          } else {
            kept := kept + [point];
          }
        }
      }
      assert pending[..|pending|] == pending;
      pending := kept;
    }

    method Judge(p: Policy)
      modifies this`degraded, this`adaptationPending, this`adaptation, this`recent
      ensures Value() == Judged(old(Value()), p)
    {
      var under, over, inside := 0, 0, 0;
      for i := 0 to |recent|
        invariant Value() == old(Value())
        invariant under == CountAbove(recent[..i], errorBound) && over == CountBelow(recent[..i], errorBound)
        invariant inside == CountInside(recent[..i], errorBound)
      {
        assert recent[..i + 1][..i] == recent[..i];
        if recent[i] > errorBound {
          under := under + 1;
        } else if recent[i] < -errorBound {
          over := over + 1;
        } else {
          inside := inside + 1;
        }
      }
      assert recent[..|recent|] == recent;
      if !degraded && (under >= p.breaches || over >= p.breaches) {
        degraded, adaptationPending, adaptation := true, true, "Requested";
      }
      if degraded && !adaptationPending && inside >= p.breaches {
        degraded, recent := false, [];
      }
    }

    method Shift(p: Policy)
      requires p.window > 0 && |baseline| > 0
      modifies this`baseline, this`errorBound, this`recent
      ensures Value() == Shifted(old(Value()), p)
    {
      if |recent| == p.window {
        if !degraded {
          baseline := baseline[1..] + [Abs(recent[0])];
          errorBound := Bound(baseline, p.floor);
        }
        recent := recent[1..];
      }
    }

    method Calibrate(p: Policy, err: real)
      modifies this`baseline, this`errorBound
      ensures Value() == Calibrated(old(Value()), p, err)
    {
      baseline := baseline + [Abs(err)];
      errorBound := Bound(baseline, p.floor);
    }

    method Score(p: Policy, f: Forecast, at: int, cpu: int)
      requires p.window > 0 && p.calibration > 0
      modifies this
      ensures Value() == Scored(old(Value()), p, f, at, cpu)
    {
      if lastEvaluation != 0 && at - lastEvaluation > p.window * (f.until - f.at) * 2 {
        recent := [];
      }
      lastEvaluation, lastIntervalEnd := at, f.until;
      ghost var scheduled := Value();
      assert scheduled == Scheduled(old(Value()), p, f, at);
      var err := RelativeError(cpu, f.cpu);
      if |baseline| < p.calibration {
        Calibrate(p, err);
        return;
      }
      Shift(p);
      ghost var shifted := Value();
      recent := recent + [err];
      assert Value() == shifted.(recent := shifted.recent + [err]);
      if |recent| < p.window {
        return;
      }
      Judge(p);
    }

    method Observe(policy: Policy, at: int, cpu: int, now: int)
      requires Admitted(Effective(policy))
      modifies this
      ensures Value() == Observed(old(Value()), policy, at, cpu, now)
    {
      if cpu < 0 || at == 0 || at > now || (lastObservation != 0 && at <= lastObservation) {
        return;
      }
      var matched := Consume(at);
      if matched == None {
        return;
      }
      Score(Effective(policy), matched.value, at, cpu);
    }

    method Adapt(action: string)
      modifies this
      ensures Value() == AdaptedBy(old(Value()), action)
    {
      adaptationPending, adaptation, pending, recent := false, action, [], [];
    }
  }
}
