/**
  The bounded registry of persistent workers: admission and reaping under the
  registry lock, and the one-exchange-at-a-time gate of a session. Any number of
  callers, resets, a close and the workers themselves interleave.
 */
module Sessions {
  import opened Basics

  /**
    `reaped`: the wait on the child has returned. A line written to the worker is
    appended to `inputs`; the worker answers its lines in order, `replies` so far,
    and `taken` of the answers have been taken from the pipe.
   */
  datatype Session = Session(
    script: string,
    killed: bool,
    reaped: bool,
    gate: Option<nat>,
    inputs: seq<string>,
    replies: nat,
    taken: nat)

  datatype Response = Answer(index: nat) | Broken

  datatype Phase =
    | Start
    | Locked
    | Found(sid: nat)
    | Gated(sid: nat)
    | Exchanging(sid: nat, wrote: Option<nat>, response: Option<Response>)
    | Abandoned(sid: nat, wrote: Option<nat>, response: Option<Response>)
    | Failed(session: Option<nat>)
    | Succeeded(sid: nat, line: nat, answer: nat)

  datatype Call = Call(id: string, script: string, payload: string, phase: Phase)

  datatype Stage = Entered | Replacing(sid: nat) | Sweeping(todo: set<string>) | Registering(sid: nat)

  datatype Lock =
    | Free
    | Getting(call: nat, stage: Stage)
    | Resetting(id: string, sid: nat)
    | ResettingAll(current: Option<string>)

  datatype System = System(
    maxSessions: int,
    registry: map<string, nat>,
    closed: bool,
    lock: Lock,
    sessions: seq<Session>,
    calls: seq<Call>)

  function Limit(s: System): int {
    if s.maxSessions <= 0 then 16 else s.maxSessions
  }

  function Init(maxSessions: int): System {
    System(maxSessions, map[], false, Free, [], [])
  }

  datatype Step =
    | Submit(id: string, script: string, payload: string)
    // the registry lock
    | Enter(call: nat, canceled: bool)
    | Lookup
    | Replaced
    | Sweep(key: string)
    | Admit(canceled: bool, fails: bool)
    | Register
    | Reset(id: string)
    | ResetDone
    | ResetAll
    | ResetNext(id: string)
    | ResetAllDone
    | Close
    | Cleanup(call: nat)
    // the worker
    | Kill(sid: nat)
    | Exit(sid: nat)
    | Reply(sid: nat)
    // the exchange
    | TakeGate(call: nat, canceled: bool)
    | Begin(call: nat, canceled: bool)
    | Write(call: nat, ok: bool)
    | Read(call: nat, ok: bool)
    | Take(call: nat, overflowed: bool)
    | Abandon(call: nat)
    | Join(call: nat)

  // ----- Small updates -----

  function SetPhase(s: System, c: nat, phase: Phase): System
    requires c < |s.calls|
  {
    s.(calls := s.calls[c := s.calls[c].(phase := phase)])
  }

  function SetSession(s: System, sid: nat, session: Session): System
    requires sid < |s.sessions|
  {
    s.(sessions := s.sessions[sid := session])
  }

  function Killed(s: System, sid: nat): System {
    if sid < |s.sessions| then SetSession(s, sid, s.sessions[sid].(killed := true)) else s
  }

  predicate Reaped(s: System, sid: nat) {
    sid < |s.sessions| && s.sessions[sid].reaped
  }

  predicate At(s: System, c: nat) {
    c < |s.calls|
  }

  function Drop(s: System, id: string): System {
    s.(registry := s.registry - {id})
  }

  // ----- Registry steps -----

  function DoEnter(s: System, c: nat, canceled: bool): System {
    if !(At(s, c) && s.calls[c].phase == Start && s.lock == Free) then s
    else if canceled || s.closed then SetPhase(s, c, Failed(None))
    else SetPhase(s, c, Locked).(lock := Getting(c, Entered))
  }

  predicate Holds(s: System, stage: Stage) {
    s.lock.Getting? && s.lock.stage == stage && At(s, s.lock.call)
  }

  function DoLookup(s: System): System {
    if !Holds(s, Entered) then s
    else
      var c := s.lock.call;
      var id := s.calls[c].id;
      if id !in s.registry then s.(lock := Getting(c, Sweeping(s.registry.Keys)))
      else
        var sid := s.registry[id];
        if sid < |s.sessions| && s.sessions[sid].script == s.calls[c].script then
          if s.sessions[sid].reaped then Drop(s, id).(lock := Getting(c, Sweeping(s.registry.Keys - {id})))
          else SetPhase(s, c, Found(sid)).(lock := Free)
        else Killed(s, sid).(lock := Getting(c, Replacing(sid)))
  }

  function DoReplaced(s: System): System {
    if !(s.lock.Getting? && s.lock.stage.Replacing? && At(s, s.lock.call) && Reaped(s, s.lock.stage.sid)) then s
    else
      var id := s.calls[s.lock.call].id;
      Drop(s, id).(lock := Getting(s.lock.call, Sweeping(s.registry.Keys - {id})))
  }

  function DoSweep(s: System, key: string): System {
    if !(s.lock.Getting? && s.lock.stage.Sweeping? && key in s.lock.stage.todo) then s
    else
      var t := if key in s.registry && Reaped(s, s.registry[key]) then Drop(s, key) else s;
      t.(lock := Getting(s.lock.call, Sweeping(s.lock.stage.todo - {key})))
  }

  function DoAdmit(s: System, canceled: bool, fails: bool): System {
    if !Holds(s, Sweeping({})) then s
    else
      var c := s.lock.call;
      if |s.registry| >= Limit(s) || canceled || fails then SetPhase(s, c, Failed(None)).(lock := Free)
      else s.(sessions := s.sessions + [Session(s.calls[c].script, false, false, None, [], 0, 0)],
              lock := Getting(c, Registering(|s.sessions|)))
  }

  function DoRegister(s: System): System {
    if !(s.lock.Getting? && s.lock.stage.Registering? && At(s, s.lock.call)) then s
    else
      var sid := s.lock.stage.sid;
      SetPhase(s, s.lock.call, Found(sid)).(registry := s.registry[s.calls[s.lock.call].id := sid], lock := Free)
  }

  function DoReset(s: System, id: string): System {
    if s.lock != Free || id !in s.registry then s
    else Killed(s, s.registry[id]).(lock := Resetting(id, s.registry[id]))
  }

  function DoResetDone(s: System): System {
    if !(s.lock.Resetting? && Reaped(s, s.lock.sid)) then s else Drop(s, s.lock.id).(lock := Free)
  }

  function DoResetNext(s: System, id: string): System {
    if !s.lock.ResettingAll? then s
    else
      match s.lock.current
      case None => if id in s.registry then Killed(s, s.registry[id]).(lock := ResettingAll(Some(id))) else s
      case Some(cur) =>
        if cur in s.registry && Reaped(s, s.registry[cur]) then Drop(s, cur).(lock := ResettingAll(None)) else s
  }

  function DoResetAllDone(s: System): System {
    if s.lock == ResettingAll(None) && s.registry == map[] then s.(lock := Free) else s
  }

  /** The registry is emptied at once; its workers are stopped afterwards, by Kill steps. */
  function DoClose(s: System): System {
    if s.lock != Free then s else s.(closed := true, registry := map[])
  }

  /** After an error the caller removes its own finished worker and nothing else. */
  function DoCleanup(s: System, c: nat): System {
    if !(At(s, c) && s.lock == Free && s.calls[c].phase.Failed? && s.calls[c].phase.session.Some?) then s
    else
      var sid, id := s.calls[c].phase.session.value, s.calls[c].id;
      if Reaped(s, sid) && id in s.registry && s.registry[id] == sid then Drop(s, id) else s
  }

  // ----- Worker steps -----

  function DoExit(s: System, sid: nat): System {
    if sid < |s.sessions| then SetSession(s, sid, s.sessions[sid].(reaped := true)) else s
  }

  function DoReply(s: System, sid: nat): System {
    if sid < |s.sessions| && !s.sessions[sid].reaped && s.sessions[sid].replies < |s.sessions[sid].inputs|
    then SetSession(s, sid, s.sessions[sid].(replies := s.sessions[sid].replies + 1))
    else s
  }

  // ----- Exchange steps -----

  predicate InRange(s: System, c: nat) {
    && At(s, c)
    && match s.calls[c].phase
       case Found(sid) => sid < |s.sessions|
       case Gated(sid) => sid < |s.sessions|
       case Exchanging(sid, _, _) => sid < |s.sessions|
       case Abandoned(sid, _, _) => sid < |s.sessions|
       case _ => false
  }

  function DoTakeGate(s: System, c: nat, canceled: bool): System {
    if !(InRange(s, c) && s.calls[c].phase.Found?) then s
    else
      var sid := s.calls[c].phase.sid;
      if canceled then SetPhase(s, c, Failed(Some(sid)))
      else if s.sessions[sid].gate == None
      then SetSession(SetPhase(s, c, Gated(sid)), sid, s.sessions[sid].(gate := Some(c)))
      else s
  }

  function Release(s: System, c: nat, sid: nat, phase: Phase): System
    requires At(s, c) && sid < |s.sessions|
  {
    SetSession(SetPhase(s, c, phase), sid, s.sessions[sid].(gate := None))
  }

  function DoBegin(s: System, c: nat, canceled: bool): System {
    if !(InRange(s, c) && s.calls[c].phase.Gated?) then s
    else
      var sid := s.calls[c].phase.sid;
      if canceled || s.sessions[sid].reaped then Release(s, c, sid, Failed(Some(sid)))
      else SetPhase(s, c, Exchanging(sid, None, None))
  }

  predicate InExchange(s: System, c: nat) {
    InRange(s, c) && (s.calls[c].phase.Exchanging? || s.calls[c].phase.Abandoned?)
  }

  /** The goroutine of the exchange writes its line, also when the caller has given up meanwhile. */
  function DoWrite(s: System, c: nat, ok: bool): System {
    if !(InExchange(s, c) && s.calls[c].phase.wrote == None && s.calls[c].phase.response == None) then s
    else
      var phase := s.calls[c].phase;
      var session := s.sessions[phase.sid];
      if !ok then SetPhase(s, c, phase.(response := Some(Broken)))
      else SetSession(SetPhase(s, c, phase.(wrote := Some(|session.inputs|))), phase.sid,
                      session.(inputs := session.inputs + [s.calls[c].payload]))
  }

  /** It then takes the next answer from the pipe, or fails. */
  function DoRead(s: System, c: nat, ok: bool): System {
    if !(InExchange(s, c) && s.calls[c].phase.wrote.Some? && s.calls[c].phase.response == None) then s
    else
      var phase := s.calls[c].phase;
      var session := s.sessions[phase.sid];
      if !ok then SetPhase(s, c, phase.(response := Some(Broken)))
      else if session.taken < session.replies
      then SetSession(SetPhase(s, c, phase.(response := Some(Answer(session.taken)))), phase.sid,
                      session.(taken := session.taken + 1))
      else s
  }

  function GiveUp(s: System, c: nat): System
    requires InRange(s, c) && s.calls[c].phase.Exchanging?
  {
    var phase := s.calls[c].phase;
    Killed(SetPhase(s, c, Abandoned(phase.sid, phase.wrote, phase.response)), phase.sid)
  }

  function DoTake(s: System, c: nat, overflowed: bool): System {
    if !(InRange(s, c) && s.calls[c].phase.Exchanging? && s.calls[c].phase.response.Some?) then s
    else
      var phase := s.calls[c].phase;
      if phase.response.value.Answer? && phase.wrote.Some? && !overflowed
      then Release(s, c, phase.sid, Succeeded(phase.sid, phase.wrote.value, phase.response.value.index))
      else GiveUp(s, c)
  }

  /** Cancellation, too much stderr, or the child's exit wins the select. */
  function DoAbandon(s: System, c: nat): System {
    if InRange(s, c) && s.calls[c].phase.Exchanging? then GiveUp(s, c) else s
  }

  /** An abandoned call joins the child and its own goroutine before it releases the gate. */
  function DoJoin(s: System, c: nat): System {
    if !(InRange(s, c) && s.calls[c].phase.Abandoned?) then s
    else
      var phase := s.calls[c].phase;
      if s.sessions[phase.sid].reaped && phase.response.Some? then Release(s, c, phase.sid, Failed(Some(phase.sid)))
      else s
  }

  function Exec(s: System, step: Step): System {
    match step
    case Submit(id, script, payload) => s.(calls := s.calls + [Call(id, script, payload, Start)])
    case Enter(c, canceled) => DoEnter(s, c, canceled)
    case Lookup => DoLookup(s)
    case Replaced => DoReplaced(s)
    case Sweep(key) => DoSweep(s, key)
    case Admit(canceled, fails) => DoAdmit(s, canceled, fails)
    case Register => DoRegister(s)
    case Reset(id) => DoReset(s, id)
    case ResetDone => DoResetDone(s)
    case ResetAll => if s.lock == Free then s.(lock := ResettingAll(None)) else s
    case ResetNext(id) => DoResetNext(s, id)
    case ResetAllDone => DoResetAllDone(s)
    case Close => DoClose(s)
    case Cleanup(c) => DoCleanup(s, c)
    case Kill(sid) => Killed(s, sid)
    case Exit(sid) => DoExit(s, sid)
    case Reply(sid) => DoReply(s, sid)
    case TakeGate(c, canceled) => DoTakeGate(s, c, canceled)
    case Begin(c, canceled) => DoBegin(s, c, canceled)
    case Write(c, ok) => DoWrite(s, c, ok)
    case Read(c, ok) => DoRead(s, c, ok)
    case Take(c, overflowed) => DoTake(s, c, overflowed)
    case Abandon(c) => DoAbandon(s, c)
    case Join(c) => DoJoin(s, c)
  }

  function Run(s: System, steps: seq<Step>): System {
    if |steps| == 0 then s else Exec(Run(s, steps[..|steps| - 1]), steps[|steps| - 1])
  }
}
