/**
  The exchange gate: a successful call returns the answer to the line it wrote,
  because every abandoned exchange has joined its dead worker before the gate opens.
 */
module SessionsExchange {
  import opened Basics
  import opened Sessions

  /** The session whose gate a call in this phase holds. */
  function GateOf(phase: Phase): Option<nat> {
    match phase
    case Gated(sid) => Some(sid)
    case Exchanging(sid, _, _) => Some(sid)
    case Abandoned(sid, _, _) => Some(sid)
    case _ => None
  }

  predicate PipeOk(w: Session) {
    w.taken <= w.replies <= |w.inputs|
  }

  /** Every line written has had its answer taken. */
  predicate Balanced(w: Session) {
    |w.inputs| == w.taken
  }

  /** The one exchange in progress owns the last line and the next answer. */
  predicate Owns(w: Session, payload: string, wrote: Option<nat>, response: Option<Response>) {
    match wrote
    case None => Balanced(w) && (response.Some? ==> response.value == Broken)
    case Some(i) =>
      && |w.inputs| == i + 1 && w.inputs[i] == payload
      && (if response.Some? && response.value.Answer? then response.value.index == i && w.taken == i + 1
          else w.taken == i)
  }

  predicate SessionOk(s: System, sid: nat)
    requires sid < |s.sessions|
  {
    var w := s.sessions[sid];
    && PipeOk(w)
    && match w.gate
       case None => w.reaped || Balanced(w)
       case Some(c) =>
         At(s, c) && GateOf(s.calls[c].phase) == Some(sid) && match s.calls[c].phase
         case Gated(_) => w.reaped || Balanced(w)
         case Exchanging(_, wrote, response) => Owns(w, s.calls[c].payload, wrote, response)
         case _ => true
  }

  ghost predicate SessionsOk(s: System) {
    forall sid :: 0 <= sid < |s.sessions| ==> SessionOk(s, sid)
  }

  predicate HolderOk(s: System, c: nat)
    requires c < |s.calls|
  {
    GateOf(s.calls[c].phase).Some? ==>
      var sid := GateOf(s.calls[c].phase).value;
      sid < |s.sessions| && s.sessions[sid].gate == Some(c)
  }

  /** A success was the answer to the line this call wrote. */
  predicate SuccessOk(s: System, c: nat)
    requires c < |s.calls|
  {
    s.calls[c].phase.Succeeded? ==>
      var p := s.calls[c].phase;
      p.answer == p.line && p.sid < |s.sessions| && p.line < |s.sessions[p.sid].inputs|
      && s.sessions[p.sid].inputs[p.line] == s.calls[c].payload
  }

  predicate CallOk(s: System, c: nat)
    requires c < |s.calls|
  {
    HolderOk(s, c) && SuccessOk(s, c)
  }

  ghost predicate CallsOk(s: System) {
    forall c :: 0 <= c < |s.calls| ==> CallOk(s, c)
  }

  ghost predicate Exchange(s: System) {
    SessionsOk(s) && CallsOk(s)
  }

  // ----- Steps that touch one call and its session -----

  /** Everything but call c and session sid is untouched; the session's lines only grow. */
  ghost predicate OnlyTouches(s: System, s': System, c: nat, sid: nat) {
    && c < |s.calls| == |s'.calls| && sid < |s.sessions| == |s'.sessions|
    && (forall d :: 0 <= d < |s.calls| && d != c ==> s'.calls[d] == s.calls[d])
    && (forall x :: 0 <= x < |s.sessions| && x != sid ==> s'.sessions[x] == s.sessions[x])
    && s'.calls[c].payload == s.calls[c].payload
    && s.sessions[sid].inputs <= s'.sessions[sid].inputs
  }

  /** A holder's step keeps the invariant when its own session and outcome are right afterwards. */
  lemma TouchKeeps(s: System, s': System, c: nat, sid: nat)
    requires Exchange(s) && OnlyTouches(s, s', c, sid)
    requires GateOf(s.calls[c].phase) == None || GateOf(s.calls[c].phase) == Some(sid)
    requires s.sessions[sid].gate == None || s.sessions[sid].gate == Some(c)
    requires SessionOk(s', sid) && CallOk(s', c)
    requires s'.sessions[sid].gate == None || s'.sessions[sid].gate == Some(c)
    ensures Exchange(s')
  {
    forall x | 0 <= x < |s'.sessions| ensures SessionOk(s', x) {
      assert SessionOk(s, x);
    }
    forall d | 0 <= d < |s'.calls| ensures CallOk(s', d) {
      assert CallOk(s, d);
    }
  }

  lemma TakeGateKeeps(s: System, c: nat, canceled: bool)
    requires Exchange(s)
    ensures Exchange(DoTakeGate(s, c, canceled))
  {
    if InRange(s, c) && s.calls[c].phase.Found? {
      var sid := s.calls[c].phase.sid;
      assert SessionOk(s, sid);
      if canceled {
        PhaseOnlyKeeps(s, c, Failed(Some(sid)));
      } else if s.sessions[sid].gate == None {
        TouchKeeps(s, DoTakeGate(s, c, canceled), c, sid);
      }
    }
  }

  predicate Bystander(phase: Phase) {
    phase.Start? || phase.Locked? || phase.Found? || phase.Failed?
  }

  /** A call outside any exchange may change its phase freely. */
  lemma PhaseOnlyKeeps(s: System, c: nat, phase: Phase)
    requires Exchange(s) && At(s, c) && Bystander(s.calls[c].phase) && Bystander(phase)
    ensures Exchange(SetPhase(s, c, phase))
  {
    var t := SetPhase(s, c, phase);
    forall x | 0 <= x < |t.sessions| ensures SessionOk(t, x) {
      assert SessionOk(s, x);
    }
    forall d | 0 <= d < |t.calls| ensures CallOk(t, d) {
      assert CallOk(s, d);
    }
  }

  lemma BeginKeeps(s: System, c: nat, canceled: bool)
    requires Exchange(s)
    ensures Exchange(DoBegin(s, c, canceled))
  {
    if InRange(s, c) && s.calls[c].phase.Gated? {
      var sid := s.calls[c].phase.sid;
      assert CallOk(s, c);
      assert SessionOk(s, sid);
      TouchKeeps(s, DoBegin(s, c, canceled), c, sid);
    }
  }

  lemma WriteKeeps(s: System, c: nat, ok: bool)
    requires Exchange(s)
    ensures Exchange(DoWrite(s, c, ok))
  {
    if InExchange(s, c) && s.calls[c].phase.wrote == None && s.calls[c].phase.response == None {
      var sid := s.calls[c].phase.sid;
      assert CallOk(s, c);
      assert SessionOk(s, sid);
      TouchKeeps(s, DoWrite(s, c, ok), c, sid);
    }
  }

  lemma ReadKeeps(s: System, c: nat, ok: bool)
    requires Exchange(s)
    ensures Exchange(DoRead(s, c, ok))
  {
    if InExchange(s, c) && s.calls[c].phase.wrote.Some? && s.calls[c].phase.response == None {
      var sid := s.calls[c].phase.sid;
      assert CallOk(s, c);
      assert SessionOk(s, sid);
      TouchKeeps(s, DoRead(s, c, ok), c, sid);
    }
  }

  lemma GiveUpKeeps(s: System, c: nat)
    requires Exchange(s) && InRange(s, c) && s.calls[c].phase.Exchanging?
    ensures Exchange(GiveUp(s, c))
  {
    var sid := s.calls[c].phase.sid;
    assert CallOk(s, c);
    assert SessionOk(s, sid);
    TouchKeeps(s, GiveUp(s, c), c, sid);
  }

  /** Taking an answer returns the holder's own and leaves the pipe balanced. */
  lemma TakeKeeps(s: System, c: nat, overflowed: bool)
    requires Exchange(s)
    ensures Exchange(DoTake(s, c, overflowed))
  {
    if InRange(s, c) && s.calls[c].phase.Exchanging? && s.calls[c].phase.response.Some? {
      var sid := s.calls[c].phase.sid;
      assert CallOk(s, c);
      assert SessionOk(s, sid);
      var phase := s.calls[c].phase;
      if phase.response.value.Answer? && phase.wrote.Some? && !overflowed {
        TouchKeeps(s, DoTake(s, c, overflowed), c, sid);
      } else {
        GiveUpKeeps(s, c);
      }
    }
  }

  lemma JoinKeeps(s: System, c: nat)
    requires Exchange(s)
    ensures Exchange(DoJoin(s, c))
  {
    if InRange(s, c) && s.calls[c].phase.Abandoned? {
      var phase := s.calls[c].phase;
      assert CallOk(s, c);
      assert SessionOk(s, phase.sid);
      if s.sessions[phase.sid].reaped && phase.response.Some? {
        TouchKeeps(s, DoJoin(s, c), c, phase.sid);
      }
    }
  }

  // ----- Steps of the worker and the registry -----

  /** The session changes only by dying or answering. */
  predicate Ages(w: Session, w': Session) {
    && w'.gate == w.gate && w'.inputs == w.inputs && w'.taken == w.taken && (w.reaped ==> w'.reaped)
    && w.replies <= w'.replies <= |w.inputs|
  }

  lemma AgingKeeps(s: System, sid: nat, w: Session)
    requires Exchange(s) && sid < |s.sessions| && Ages(s.sessions[sid], w)
    ensures Exchange(SetSession(s, sid, w))
  {
    var t := SetSession(s, sid, w);
    forall x | 0 <= x < |t.sessions| ensures SessionOk(t, x) {
      assert SessionOk(s, x);
    }
    forall d | 0 <= d < |t.calls| ensures CallOk(t, d) {
      assert CallOk(s, d);
    }
  }

  lemma WorkerKeeps(s: System, sid: nat)
    requires Exchange(s)
    ensures Exchange(Killed(s, sid)) && Exchange(DoExit(s, sid)) && Exchange(DoReply(s, sid))
  {
    if sid < |s.sessions| {
      assert SessionOk(s, sid);
      AgingKeeps(s, sid, s.sessions[sid].(killed := true));
      AgingKeeps(s, sid, s.sessions[sid].(reaped := true));
      if s.sessions[sid].replies < |s.sessions[sid].inputs| {
        AgingKeeps(s, sid, s.sessions[sid].(replies := s.sessions[sid].replies + 1));
      }
    }
  }

  /** The exchange does not depend on the registry. */
  lemma RegistryKeeps(s: System, registry: map<string, nat>, closed: bool, lock: Lock)
    requires Exchange(s)
    ensures Exchange(s.(registry := registry, closed := closed, lock := lock))
  {
    var t := s.(registry := registry, closed := closed, lock := lock);
    forall x | 0 <= x < |t.sessions| ensures SessionOk(t, x) {
      assert SessionOk(s, x);
    }
    forall d | 0 <= d < |t.calls| ensures CallOk(t, d) {
      assert CallOk(s, d);
    }
  }

  lemma SubmitKeeps(s: System, call: Call)
    requires Exchange(s) && call.phase == Start
    ensures Exchange(s.(calls := s.calls + [call]))
  {
    var t := s.(calls := s.calls + [call]);
    forall x | 0 <= x < |t.sessions| ensures SessionOk(t, x) {
      assert SessionOk(s, x);
    }
    forall d | 0 <= d < |t.calls| ensures CallOk(t, d) {
      assert d < |s.calls| ==> CallOk(s, d);
    }
  }

  lemma SpawnKeeps(s: System, script: string)
    requires Exchange(s)
    ensures Exchange(s.(sessions := s.sessions + [Session(script, false, false, None, [], 0, 0)]))
  {
    var t := s.(sessions := s.sessions + [Session(script, false, false, None, [], 0, 0)]);
    forall x | 0 <= x < |t.sessions| ensures SessionOk(t, x) {
      assert x < |s.sessions| ==> SessionOk(s, x);
    }
    forall d | 0 <= d < |t.calls| ensures CallOk(t, d) {
      assert CallOk(s, d);
    }
  }

  /** Whoever holds or waits for the registry lock is in no exchange. */
  ghost predicate LockHolder(s: System) {
    s.lock.Getting? ==> At(s, s.lock.call) && s.calls[s.lock.call].phase == Locked
  }

  lemma LookupKeeps(s: System)
    requires Exchange(s) && LockHolder(s)
    ensures Exchange(DoLookup(s))
  {
    if Holds(s, Entered) {
      var t := DoLookup(s);
      var c := s.lock.call;
      var id := s.calls[c].id;
      if id in s.registry && t.lock == Free {
        PhaseOnlyKeeps(s, c, Found(s.registry[id]));
        RegistryKeeps(SetPhase(s, c, Found(s.registry[id])), t.registry, t.closed, t.lock);
      } else if id in s.registry && t.lock.Getting? && t.lock.stage.Replacing? {
        WorkerKeeps(s, s.registry[id]);
        RegistryKeeps(Killed(s, s.registry[id]), t.registry, t.closed, t.lock);
      } else {
        RegistryKeeps(s, t.registry, t.closed, t.lock);
      }
    }
  }

  lemma AdmissionStepsKeep(s: System, step: Step)
    requires Exchange(s) && LockHolder(s)
    requires step.Enter? || step.Admit? || step.Register?
    ensures Exchange(Exec(s, step))
  {
    var t := Exec(s, step);
    if step.Enter? {
      if At(s, step.call) && s.calls[step.call].phase == Start && s.lock == Free {
        var phase := t.calls[step.call].phase;
        PhaseOnlyKeeps(s, step.call, phase);
        RegistryKeeps(SetPhase(s, step.call, phase), t.registry, t.closed, t.lock);
      }
    } else if step.Admit? {
      if Holds(s, Sweeping({})) {
        var c := s.lock.call;
        if t.lock == Free {
          PhaseOnlyKeeps(s, c, Failed(None));
          RegistryKeeps(SetPhase(s, c, Failed(None)), t.registry, t.closed, t.lock);
        } else {
          SpawnKeeps(s, s.calls[c].script);
          RegistryKeeps(s.(sessions := t.sessions), t.registry, t.closed, t.lock);
        }
      }
    } else if s.lock.Getting? && s.lock.stage.Registering? {
      PhaseOnlyKeeps(s, s.lock.call, Found(s.lock.stage.sid));
      RegistryKeeps(SetPhase(s, s.lock.call, Found(s.lock.stage.sid)), t.registry, t.closed, t.lock);
    }
  }

  predicate RegistryOnly(step: Step) {
    step.Replaced? || step.Sweep? || step.ResetDone? || step.ResetAll? || step.ResetAllDone? || step.Close?
      || step.Cleanup?
  }

  lemma ResetStepsKeep(s: System, step: Step)
    requires Exchange(s) && (step.Reset? || step.ResetNext? || RegistryOnly(step))
    ensures Exchange(Exec(s, step))
  {
    var t := Exec(s, step);
    if step.Reset? && s.lock == Free && step.id in s.registry {
      WorkerKeeps(s, s.registry[step.id]);
      RegistryKeeps(Killed(s, s.registry[step.id]), t.registry, t.closed, t.lock);
    } else if step.ResetNext? && s.lock == ResettingAll(None) && step.id in s.registry {
      WorkerKeeps(s, s.registry[step.id]);
      RegistryKeeps(Killed(s, s.registry[step.id]), t.registry, t.closed, t.lock);
    } else {
      assert t == s.(registry := t.registry, closed := t.closed, lock := t.lock);
      RegistryKeeps(s, t.registry, t.closed, t.lock);
    }
  }

  lemma ExchangeStepsKeep(s: System, step: Step)
    requires Exchange(s)
    requires step.TakeGate? || step.Begin? || step.Write? || step.Read? || step.Take? || step.Abandon? || step.Join?
    ensures Exchange(Exec(s, step))
  {
    match step
    case TakeGate(c, canceled) => TakeGateKeeps(s, c, canceled);
    case Begin(c, canceled) => BeginKeeps(s, c, canceled);
    case Write(c, ok) => WriteKeeps(s, c, ok);
    case Read(c, ok) => ReadKeeps(s, c, ok);
    case Take(c, overflowed) => TakeKeeps(s, c, overflowed);
    case Abandon(c) => if InRange(s, c) && s.calls[c].phase.Exchanging? { GiveUpKeeps(s, c); }
    case Join(c) => JoinKeeps(s, c);
  }

  lemma LockHolderKept(s: System, step: Step)
    requires LockHolder(s)
    ensures LockHolder(Exec(s, step))
  {
  }

  lemma StepKeeps(s: System, step: Step)
    requires Exchange(s) && LockHolder(s)
    ensures Exchange(Exec(s, step)) && LockHolder(Exec(s, step))
  {
    LockHolderKept(s, step);
    match step
    case Submit(id, script, payload) => SubmitKeeps(s, Call(id, script, payload, Start));
    case Enter(_, _) => AdmissionStepsKeep(s, step);
    case Admit(_, _) => AdmissionStepsKeep(s, step);
    case Register => AdmissionStepsKeep(s, step);
    case Lookup => LookupKeeps(s);
    case Kill(sid) => WorkerKeeps(s, sid);
    case Exit(sid) => WorkerKeeps(s, sid);
    case Reply(sid) => WorkerKeeps(s, sid);
    case Replaced => ResetStepsKeep(s, step);
    case Sweep(_) => ResetStepsKeep(s, step);
    case Reset(_) => ResetStepsKeep(s, step);
    case ResetDone => ResetStepsKeep(s, step);
    case ResetAll => ResetStepsKeep(s, step);
    case ResetNext(_) => ResetStepsKeep(s, step);
    case ResetAllDone => ResetStepsKeep(s, step);
    case Close => ResetStepsKeep(s, step);
    case Cleanup(_) => ResetStepsKeep(s, step);
    case _ => ExchangeStepsKeep(s, step);
  }

  // ----- No answer goes to two callers -----

  /** The line a call's answer will be, or was, the answer to. */
  function LineOf(phase: Phase): Option<(nat, nat)> {
    match phase
    case Exchanging(sid, Some(i), _) => Some((sid, i))
    case Succeeded(sid, i, _) => Some((sid, i))
    case _ => None
  }

  ghost predicate Unshared(s: System) {
    forall c, d :: 0 <= c < d < |s.calls| && LineOf(s.calls[c].phase).Some? ==>
      LineOf(s.calls[c].phase) != LineOf(s.calls[d].phase)
  }

  /** No call gains a line it did not have. */
  ghost predicate LinesVanish(s: System, t: System) {
    && |s.calls| <= |t.calls|
    && (forall c :: 0 <= c < |s.calls| && LineOf(t.calls[c].phase).Some? ==>
          LineOf(t.calls[c].phase) == LineOf(s.calls[c].phase))
    && (forall c :: |s.calls| <= c < |t.calls| ==> LineOf(t.calls[c].phase) == None)
  }

  predicate OfExchange(step: Step) {
    step.TakeGate? || step.Begin? || step.Read? || step.Take? || step.Abandon? || step.Join?
  }

  lemma SameCallsVanish(s: System, t: System)
    requires t.calls == s.calls
    ensures LinesVanish(s, t)
  {
  }

  /** One call changed phase and kept or lost its line. */
  lemma OneCallVanishes(s: System, t: System, c: nat)
    requires c < |s.calls| == |t.calls| && t.calls == s.calls[c := t.calls[c]]
    requires LineOf(t.calls[c].phase) == None || LineOf(t.calls[c].phase) == LineOf(s.calls[c].phase)
    ensures LinesVanish(s, t)
  {
  }

  lemma ExchangeLinesVanish(s: System, step: Step)
    requires OfExchange(step)
    ensures LinesVanish(s, Exec(s, step))
  {
    if At(s, step.call) {
      OneCallChanges(s, step);
      OneCallVanishes(s, Exec(s, step), step.call);
    } else {
      SameCallsVanish(s, Exec(s, step));
    }
  }

  lemma OneCallChanges(s: System, step: Step)
    requires OfExchange(step) && At(s, step.call)
    ensures var t, c := Exec(s, step), step.call;
            && |t.calls| == |s.calls| && t.calls == s.calls[c := t.calls[c]]
            && (LineOf(t.calls[c].phase) == None || LineOf(t.calls[c].phase) == LineOf(s.calls[c].phase))
  {
    assert s.calls == s.calls[step.call := s.calls[step.call]];
  }

  /** The registry steps that move a call. */
  predicate MovesCall(step: Step) {
    step.Enter? || step.Lookup? || step.Admit? || step.Register?
  }

  lemma RegistryLinesVanish(s: System, step: Step)
    requires !OfExchange(step) && !step.Write?
    ensures LinesVanish(s, Exec(s, step))
  {
    if MovesCall(step) {
      AdmissionLinesVanish(s, step);
    } else if !step.Submit? {
      OthersKeepCalls(s, step);
      SameCallsVanish(s, Exec(s, step));
    }
  }

  lemma OthersKeepCalls(s: System, step: Step)
    requires !OfExchange(step) && !step.Write? && !MovesCall(step) && !step.Submit?
    ensures Exec(s, step).calls == s.calls
  {
  }

  lemma AdmissionLinesVanish(s: System, step: Step)
    requires MovesCall(step)
    ensures LinesVanish(s, Exec(s, step))
  {
    var t := Exec(s, step);
    if t.calls == s.calls {
      SameCallsVanish(s, t);
    } else {
      OneCallVanishes(s, t, if step.Enter? then step.call else s.lock.call);
    }
  }

  lemma VanishKeepsUnshared(s: System, t: System)
    requires Unshared(s) && LinesVanish(s, t)
    ensures Unshared(t)
  {
  }

  lemma LineBelow(s: System, c: nat)
    requires Exchange(s) && c < |s.calls| && LineOf(s.calls[c].phase).Some?
    ensures var line := LineOf(s.calls[c].phase).value;
            line.0 < |s.sessions| && line.1 < |s.sessions[line.0].inputs|
  {
    assert CallOk(s, c);
    if s.calls[c].phase.Exchanging? {
      assert SessionOk(s, s.calls[c].phase.sid);
    }
  }

  /** The written line is the first of its number in the session. */
  lemma WriteKeepsUnshared(s: System, c: nat, ok: bool)
    requires Exchange(s) && Unshared(s)
    ensures Unshared(DoWrite(s, c, ok))
  {
    var t := DoWrite(s, c, ok);
    if t != s {
      assert forall d :: 0 <= d < |s.calls| && d != c ==> t.calls[d] == s.calls[d];
      forall d | 0 <= d < |s.calls| && d != c && LineOf(s.calls[d].phase).Some?
        ensures LineOf(t.calls[c].phase) != LineOf(s.calls[d].phase)
      {
        LineBelow(s, d);
      }
    }
  }

  lemma UnsharedKept(s: System, step: Step)
    requires Exchange(s) && Unshared(s)
    ensures Unshared(Exec(s, step))
  {
    if step.Write? {
      WriteKeepsUnshared(s, step.call, step.ok);
    } else {
      if OfExchange(step) {
        ExchangeLinesVanish(s, step);
      } else {
        RegistryLinesVanish(s, step);
      }
      VanishKeepsUnshared(s, Exec(s, step));
    }
  }

  lemma {:induction false} RunKeeps(maxSessions: int, steps: seq<Step>)
    ensures Exchange(Run(Init(maxSessions), steps)) && LockHolder(Run(Init(maxSessions), steps))
    ensures Unshared(Run(Init(maxSessions), steps))
  {
    if |steps| > 0 {
      RunKeeps(maxSessions, steps[..|steps| - 1]);
      UnsharedKept(Run(Init(maxSessions), steps[..|steps| - 1]), steps[|steps| - 1]);
      StepKeeps(Run(Init(maxSessions), steps[..|steps| - 1]), steps[|steps| - 1]);
    }
  }

  /** In every interleaving a successful call got the answer to the very line it wrote, with its payload. */
  lemma AnswersAreOwn(maxSessions: int, steps: seq<Step>, c: nat)
    requires c < |Run(Init(maxSessions), steps).calls| && Run(Init(maxSessions), steps).calls[c].phase.Succeeded?
    ensures var s := Run(Init(maxSessions), steps);
            var p := s.calls[c].phase;
            && p.answer == p.line && p.sid < |s.sessions| && p.line < |s.sessions[p.sid].inputs|
            && s.sessions[p.sid].inputs[p.line] == s.calls[c].payload
  {
    RunKeeps(maxSessions, steps);
    assert CallOk(Run(Init(maxSessions), steps), c);
  }

  /** No answer is ever delivered to two calls. */
  lemma AnswersAreUnshared(maxSessions: int, steps: seq<Step>, c: nat, d: nat)
    requires c < d < |Run(Init(maxSessions), steps).calls|
    requires Run(Init(maxSessions), steps).calls[c].phase.Succeeded?
          && Run(Init(maxSessions), steps).calls[d].phase.Succeeded?
    ensures var p, q := Run(Init(maxSessions), steps).calls[c].phase, Run(Init(maxSessions), steps).calls[d].phase;
            p.sid == q.sid ==> p.answer != q.answer
  {
    RunKeeps(maxSessions, steps);
    AnswersAreOwn(maxSessions, steps, c);
    AnswersAreOwn(maxSessions, steps, d);
    var s := Run(Init(maxSessions), steps);
    assert LineOf(s.calls[c].phase).Some?;
  }
}
