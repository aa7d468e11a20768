/** The registry bounds the workers: no interleaving leaves more unreaped children than the session limit. */
module SessionsAdmission {
  import opened Basics
  import opened Sessions

  function Unreaped(s: System): set<nat> {
    set sid | 0 <= sid < |s.sessions| && !s.sessions[sid].reaped
  }

  ghost predicate Registered(s: System, sid: nat) {
    exists id :: id in s.registry && s.registry[id] == sid
  }

  predicate BeingRegistered(s: System, sid: nat) {
    s.lock.Getting? && s.lock.stage == Registering(sid)
  }

  ghost predicate Tracked(s: System) {
    forall sid :: sid in Unreaped(s) ==> Registered(s, sid) || BeingRegistered(s, sid)
  }

  predicate StageOk(s: System, id: string, stage: Stage) {
    match stage
    case Entered => true
    case Replacing(sid) => id in s.registry && s.registry[id] == sid
    case Sweeping(_) => id !in s.registry
    case Registering(sid) => id !in s.registry && |s.registry| < Limit(s) && sid < |s.sessions|
  }

  predicate LockOk(s: System) {
    match s.lock
    case Free => true
    case Getting(c, stage) => At(s, c) && StageOk(s, s.calls[c].id, stage)
    case Resetting(id, sid) => id in s.registry && s.registry[id] == sid
    case ResettingAll(current) => current.Some? ==> current.value in s.registry
  }

  ghost predicate Admission(s: System) {
    && |s.registry| <= Limit(s)
    && LockOk(s)
    && (!s.closed ==> Tracked(s))
    && (s.closed ==> s.registry == map[] && !s.lock.Getting? && |Unreaped(s)| <= Limit(s))
  }

  // ----- Counting -----

  lemma {:induction false} SubsetCount(a: set<nat>, b: set<nat>)
    requires a <= b
    ensures |a| <= |b|
  {
    assert b == a + (b - a);
  }

  lemma {:induction false} ValuesCount(keys: set<string>, m: map<string, nat>)
    requires keys <= m.Keys
    ensures |set id | id in keys :: m[id]| <= |keys|
  {
    if keys == {} {
      assert (set id | id in keys :: m[id]) == {};
    } else {
      var k :| k in keys;
      var rest := keys - {k};
      ValuesCount(rest, m);
      var all, some := set id | id in keys :: m[id], set id | id in rest :: m[id];
      assert all == some + {m[k]};
    }
  }

  /** What the invariant means: the children never outnumber the limit. */
  lemma AdmissionBounds(s: System)
    requires Admission(s)
    ensures |Unreaped(s)| <= Limit(s)
  {
    if !s.closed {
      var values := set id | id in s.registry.Keys :: s.registry[id];
      ValuesCount(s.registry.Keys, s.registry);
      forall sid | Registered(s, sid) ensures sid in values {
        var id :| id in s.registry && s.registry[id] == sid;
        assert id in s.registry.Keys;
      }
      if s.lock.Getting? && s.lock.stage.Registering? {
        var extra := values + {s.lock.stage.sid};
        SubsetCount(Unreaped(s), extra);
        assert |extra| <= |values| + 1;
      } else {
        SubsetCount(Unreaped(s), values);
      }
    }
  }

  // ----- Steps that leave the registry alone -----

  ghost predicate Quiet(s: System, s': System) {
    && s'.maxSessions == s.maxSessions && s'.registry == s.registry && s'.closed == s.closed && s'.lock == s.lock
    && |s'.sessions| == |s.sessions| && Unreaped(s') <= Unreaped(s)
    && |s'.calls| >= |s.calls| && forall c :: 0 <= c < |s.calls| ==> s'.calls[c].id == s.calls[c].id
  }

  lemma QuietKeeps(s: System, s': System)
    requires Admission(s) && Quiet(s, s')
    ensures Admission(s')
  {
    SubsetCount(Unreaped(s'), Unreaped(s));
    forall sid | !s'.closed && sid in Unreaped(s') ensures Registered(s', sid) || BeingRegistered(s', sid) {
      assert sid in Unreaped(s);
      if Registered(s, sid) {
        var id :| id in s.registry && s.registry[id] == sid;
        assert id in s'.registry && s'.registry[id] == sid;
      }
    }
  }

  lemma SessionUpdateIsQuiet(s: System, sid: nat, session: Session)
    requires sid < |s.sessions| && (s.sessions[sid].reaped ==> session.reaped)
    ensures Quiet(s, SetSession(s, sid, session))
  {
  }

  lemma PhaseIsQuiet(s: System, c: nat, phase: Phase)
    requires c < |s.calls|
    ensures Quiet(s, SetPhase(s, c, phase))
  {
  }

  lemma QuietTransitive(s: System, t: System, u: System)
    requires Quiet(s, t) && Quiet(t, u)
    ensures Quiet(s, u)
  {
  }

  lemma BothAreQuiet(s: System, c: nat, phase: Phase, sid: nat, session: Session)
    requires c < |s.calls| && sid < |s.sessions| && (s.sessions[sid].reaped ==> session.reaped)
    ensures Quiet(s, SetSession(SetPhase(s, c, phase), sid, session))
  {
    PhaseIsQuiet(s, c, phase);
    SessionUpdateIsQuiet(SetPhase(s, c, phase), sid, session);
    QuietTransitive(s, SetPhase(s, c, phase), SetSession(SetPhase(s, c, phase), sid, session));
  }

  predicate Local(step: Step) {
    || step.Submit? || step.Kill? || step.Exit? || step.Reply?
    || step.TakeGate? || step.Begin? || step.Write? || step.Read?
    || step.Take? || step.Abandon? || step.Join?
  }

  lemma KilledIsQuiet(s: System, sid: nat)
    ensures Quiet(s, Killed(s, sid))
  {
    if sid < |s.sessions| {
      SessionUpdateIsQuiet(s, sid, s.sessions[sid].(killed := true));
    }
  }

  lemma GiveUpIsQuiet(s: System, c: nat)
    requires InRange(s, c) && s.calls[c].phase.Exchanging?
    ensures Quiet(s, GiveUp(s, c))
  {
    var phase := s.calls[c].phase;
    var t := SetPhase(s, c, Abandoned(phase.sid, phase.wrote, phase.response));
    PhaseIsQuiet(s, c, Abandoned(phase.sid, phase.wrote, phase.response));
    KilledIsQuiet(t, phase.sid);
    QuietTransitive(s, t, Killed(t, phase.sid));
  }

  lemma WorkerIsQuiet(s: System, step: Step)
    requires step.Submit? || step.Kill? || step.Exit? || step.Reply?
    ensures Quiet(s, Exec(s, step))
  {
    match step
    case Submit(_, _, _) =>
    case Kill(sid) => KilledIsQuiet(s, sid);
    case Exit(sid) => if sid < |s.sessions| { SessionUpdateIsQuiet(s, sid, s.sessions[sid].(reaped := true)); }
    case Reply(sid) =>
      if sid < |s.sessions| {
        SessionUpdateIsQuiet(s, sid, s.sessions[sid].(replies := s.sessions[sid].replies + 1));
      }
  }

  lemma GateIsQuiet(s: System, step: Step)
    requires step.TakeGate? || step.Begin? || step.Join?
    ensures Quiet(s, Exec(s, step))
  {
    var c := step.call;
    if InRange(s, c) {
      var sid := s.calls[c].phase.sid;
      var phase := Exec(s, step).calls[c].phase;
      PhaseIsQuiet(s, c, phase);
      BothAreQuiet(s, c, phase, sid, s.sessions[sid].(gate := Some(c)));
      BothAreQuiet(s, c, phase, sid, s.sessions[sid].(gate := None));
    }
  }

  lemma PipeIsQuiet(s: System, step: Step)
    requires step.Write? || step.Read?
    ensures Quiet(s, Exec(s, step))
  {
    var c := step.call;
    if InRange(s, c) {
      var sid := s.calls[c].phase.sid;
      var phase := Exec(s, step).calls[c].phase;
      PhaseIsQuiet(s, c, phase);
      BothAreQuiet(s, c, phase, sid, s.sessions[sid].(inputs := s.sessions[sid].inputs + [s.calls[c].payload]));
      BothAreQuiet(s, c, phase, sid, s.sessions[sid].(taken := s.sessions[sid].taken + 1));
    }
  }

  lemma OutcomeIsQuiet(s: System, step: Step)
    requires step.Take? || step.Abandon?
    ensures Quiet(s, Exec(s, step))
  {
    var c := step.call;
    if InRange(s, c) && s.calls[c].phase.Exchanging? {
      var sid := s.calls[c].phase.sid;
      GiveUpIsQuiet(s, c);
      BothAreQuiet(s, c, Exec(s, step).calls[c].phase, sid, s.sessions[sid].(gate := None));
    }
  }

  lemma LocalKeeps(s: System, step: Step)
    requires Admission(s) && Local(step)
    ensures Admission(Exec(s, step))
  {
    if step.TakeGate? || step.Begin? || step.Join? {
      GateIsQuiet(s, step);
    } else if step.Write? || step.Read? {
      PipeIsQuiet(s, step);
    } else if step.Take? || step.Abandon? {
      OutcomeIsQuiet(s, step);
    } else {
      WorkerIsQuiet(s, step);
    }
    QuietKeeps(s, Exec(s, step));
  }

  // ----- Steps under the lock -----

  /** Only a reaped worker leaves the registry, so every other child stays tracked. */
  lemma DropTracks(s: System, id: string, lock: Lock)
    requires Admission(s) && !s.closed && id in s.registry && Reaped(s, s.registry[id])
    requires !(s.lock.Getting? && s.lock.stage.Registering?)
    ensures Tracked(Drop(s, id).(lock := lock)) && |Drop(s, id).registry| == |s.registry| - 1
  {
    var t := Drop(s, id).(lock := lock);
    assert t.registry.Keys == s.registry.Keys - {id};
    forall sid | sid in Unreaped(t) ensures Registered(t, sid) {
      assert sid in Unreaped(s);
      var other :| other in s.registry && s.registry[other] == sid;
      assert other in t.registry && t.registry[other] == sid;
    }
  }

  lemma RelockTracks(s: System, lock: Lock)
    requires Tracked(s) && !(s.lock.Getting? && s.lock.stage.Registering?)
    ensures Tracked(s.(lock := lock))
  {
    forall sid | sid in Unreaped(s.(lock := lock)) ensures Registered(s.(lock := lock), sid) {
      assert sid in Unreaped(s);
      var id :| id in s.registry && s.registry[id] == sid;
      assert s.(lock := lock).registry[id] == sid;
    }
  }

  lemma EnterKeeps(s: System, c: nat, canceled: bool)
    requires Admission(s)
    ensures Admission(DoEnter(s, c, canceled))
  {
    if At(s, c) && s.calls[c].phase == Start && s.lock == Free {
      if canceled || s.closed {
        PhaseIsQuiet(s, c, Failed(None));
        QuietKeeps(s, SetPhase(s, c, Failed(None)));
      } else {
        PhaseIsQuiet(s, c, Locked);
        QuietKeeps(s, SetPhase(s, c, Locked));
        RelockTracks(SetPhase(s, c, Locked), Getting(c, Entered));
      }
    }
  }

  lemma LookupKeeps(s: System)
    requires Admission(s)
    ensures Admission(DoLookup(s))
  {
    if Holds(s, Entered) {
      var c := s.lock.call;
      var id := s.calls[c].id;
      if id !in s.registry {
        RelockTracks(s, Getting(c, Sweeping(s.registry.Keys)));
      } else {
        var sid := s.registry[id];
        if sid < |s.sessions| && s.sessions[sid].script == s.calls[c].script {
          if s.sessions[sid].reaped {
            DropTracks(s, id, Getting(c, Sweeping(s.registry.Keys - {id})));
          } else {
            PhaseIsQuiet(s, c, Found(sid));
            QuietKeeps(s, SetPhase(s, c, Found(sid)));
            RelockTracks(SetPhase(s, c, Found(sid)), Free);
          }
        } else {
          KilledIsQuiet(s, sid);
          QuietKeeps(s, Killed(s, sid));
          RelockTracks(Killed(s, sid), Getting(c, Replacing(sid)));
        }
      }
    }
  }

  lemma ReplacedKeeps(s: System)
    requires Admission(s)
    ensures Admission(DoReplaced(s))
  {
    if s.lock.Getting? && s.lock.stage.Replacing? && At(s, s.lock.call) && Reaped(s, s.lock.stage.sid) {
      var id := s.calls[s.lock.call].id;
      DropTracks(s, id, Getting(s.lock.call, Sweeping(s.registry.Keys - {id})));
    }
  }

  lemma SweepKeeps(s: System, key: string)
    requires Admission(s)
    ensures Admission(DoSweep(s, key))
  {
    if s.lock.Getting? && s.lock.stage.Sweeping? && key in s.lock.stage.todo {
      var next := Getting(s.lock.call, Sweeping(s.lock.stage.todo - {key}));
      if key in s.registry && Reaped(s, s.registry[key]) {
        DropTracks(s, key, next);
      } else {
        RelockTracks(s, next);
      }
    }
  }

  lemma AdmitKeeps(s: System, canceled: bool, fails: bool)
    requires Admission(s)
    ensures Admission(DoAdmit(s, canceled, fails))
  {
    if Holds(s, Sweeping({})) {
      var c := s.lock.call;
      if |s.registry| >= Limit(s) || canceled || fails {
        PhaseIsQuiet(s, c, Failed(None));
        QuietKeeps(s, SetPhase(s, c, Failed(None)));
        RelockTracks(SetPhase(s, c, Failed(None)), Free);
      } else {
        var t := DoAdmit(s, canceled, fails);
        forall sid | sid in Unreaped(t) && sid != |s.sessions| ensures Registered(t, sid) {
          assert sid in Unreaped(s);
          var id :| id in s.registry && s.registry[id] == sid;
          assert t.registry[id] == sid;
        }
      }
    }
  }

  lemma RegisterKeeps(s: System)
    requires Admission(s)
    ensures Admission(DoRegister(s))
  {
    if s.lock.Getting? && s.lock.stage.Registering? && At(s, s.lock.call) {
      var t := DoRegister(s);
      var id, sid := s.calls[s.lock.call].id, s.lock.stage.sid;
      assert t.registry.Keys == s.registry.Keys + {id};
      forall x | x in Unreaped(t) ensures Registered(t, x) {
        assert x in Unreaped(s);
        if x == sid {
          assert t.registry[id] == x;
        } else {
          var other :| other in s.registry && s.registry[other] == x;
          assert t.registry[other] == x;
        }
      }
    }
  }

  lemma ResetKeeps(s: System, id: string)
    requires Admission(s)
    ensures Admission(DoReset(s, id)) && Admission(DoResetDone(s))
  {
    if s.lock == Free && id in s.registry {
      KilledIsQuiet(s, s.registry[id]);
      QuietKeeps(s, Killed(s, s.registry[id]));
      RelockTracks(Killed(s, s.registry[id]), Resetting(id, s.registry[id]));
    }
    if s.lock.Resetting? && Reaped(s, s.lock.sid) {
      DropTracks(s, s.lock.id, Free);
    }
  }

  lemma ResetAllKeeps(s: System, id: string)
    requires Admission(s)
    ensures Admission(DoResetNext(s, id)) && Admission(DoResetAllDone(s))
    ensures s.lock == Free ==> Admission(s.(lock := ResettingAll(None)))
  {
    if s.lock == Free && !s.closed {
      RelockTracks(s, ResettingAll(None));
    }
    if s.lock == ResettingAll(None) && !s.closed {
      RelockTracks(s, Free);
      if id in s.registry {
        KilledIsQuiet(s, s.registry[id]);
        QuietKeeps(s, Killed(s, s.registry[id]));
        RelockTracks(Killed(s, s.registry[id]), ResettingAll(Some(id)));
      }
    } else if s.lock.ResettingAll? && s.lock.current.Some? {
      var cur := s.lock.current.value;
      if Reaped(s, s.registry[cur]) {
        DropTracks(s, cur, ResettingAll(None));
      }
    }
  }

  lemma CloseKeeps(s: System)
    requires Admission(s)
    ensures Admission(DoClose(s))
  {
    AdmissionBounds(s);
    assert Unreaped(DoClose(s)) == Unreaped(s);
  }

  lemma CleanupKeeps(s: System, c: nat)
    requires Admission(s)
    ensures Admission(DoCleanup(s, c))
  {
    if At(s, c) && s.lock == Free && s.calls[c].phase.Failed? && s.calls[c].phase.session.Some? {
      var sid, id := s.calls[c].phase.session.value, s.calls[c].id;
      if Reaped(s, sid) && id in s.registry && s.registry[id] == sid {
        DropTracks(s, id, Free);
      }
    }
  }

  lemma StepKeeps(s: System, step: Step)
    requires Admission(s)
    ensures Admission(Exec(s, step))
  {
    match step
    case Enter(c, canceled) => EnterKeeps(s, c, canceled);
    case Lookup => LookupKeeps(s);
    case Replaced => ReplacedKeeps(s);
    case Sweep(key) => SweepKeeps(s, key);
    case Admit(canceled, fails) => AdmitKeeps(s, canceled, fails);
    case Register => RegisterKeeps(s);
    case Reset(id) => ResetKeeps(s, id);
    case ResetDone => ResetKeeps(s, "");
    case ResetAll => ResetAllKeeps(s, "");
    case ResetNext(id) => ResetAllKeeps(s, id);
    case ResetAllDone => ResetAllKeeps(s, "");
    case Close => CloseKeeps(s);
    case Cleanup(c) => CleanupKeeps(s, c);
    case _ => LocalKeeps(s, step);
  }

  lemma {:induction false} RunKeeps(maxSessions: int, steps: seq<Step>)
    ensures Admission(Run(Init(maxSessions), steps))
    ensures Run(Init(maxSessions), steps).maxSessions == maxSessions
  {
    if |steps| > 0 {
      var front, last := steps[..|steps| - 1], steps[|steps| - 1];
      RunKeeps(maxSessions, front);
      var s := Run(Init(maxSessions), front);
      StepKeeps(s, last);
      StepKeepsLimit(s, last);
      assert Run(Init(maxSessions), steps) == Exec(s, last);
    } else {
      assert Unreaped(Init(maxSessions)) == {};
    }
  }

  lemma StepKeepsLimit(s: System, step: Step)
    ensures Exec(s, step).maxSessions == s.maxSessions
  {
  }

  /** In every interleaving the unreaped children stay within the limit, 16 when none is configured. */
  lemma ChildrenAreBounded(maxSessions: int, steps: seq<Step>)
    ensures |Unreaped(Run(Init(maxSessions), steps))| <= if maxSessions <= 0 then 16 else maxSessions
  {
    RunKeeps(maxSessions, steps);
    AdmissionBounds(Run(Init(maxSessions), steps));
  }

  lemma StepStaysClosed(s: System, step: Step)
    requires s.closed && !s.lock.Getting?
    ensures Exec(s, step).closed && |Exec(s, step).sessions| == |s.sessions|
  {
  }

  /** Once closed, however the run goes on, the runner never starts another child and keeps none registered. */
  lemma {:induction false} ClosedStartsNothing(maxSessions: int, steps: seq<Step>, more: seq<Step>)
    requires Run(Init(maxSessions), steps).closed
    ensures var s, t := Run(Init(maxSessions), steps), Run(Run(Init(maxSessions), steps), more);
            Admission(t) && t.closed && t.registry == map[] && |t.sessions| == |s.sessions|
    decreases |more|
  {
    var s := Run(Init(maxSessions), steps);
    RunKeeps(maxSessions, steps);
    if |more| > 0 {
      var front := more[..|more| - 1];
      ClosedStartsNothing(maxSessions, steps, front);
      StepKeeps(Run(s, front), more[|more| - 1]);
      StepStaysClosed(Run(s, front), more[|more| - 1]);
    }
  }
}
