/**
  Publishing a finished fit: the fences that keep a fit from restoring state its
  window has lost. Fits run concurrently with the sampler, retention, retargeting
  and edits of the resource; every write of stored data is a compare-and-swap.
 */
module Completion {
  import opened Basics
  import opened History

  /** The resource as the API server holds it; `kind` is the model's configured type, if it is configured. */
  datatype Spec = Spec(uid: nat, generation: nat, kind: Option<string>)

  /** The stored data, seen from one model. */
  datatype Data = Data(target: nat, source: nat, history: Option<ModelHistory>)

  datatype Ending =
    | Success(consumed: int, cached: Option<int>, reliability: Option<int>)
    | Failure(failure: int)

  /**
    What a fit remembers of the data it started from. The code does not see `window`,
    which names the window it trained on, or `hazards`, the disturbances so far.
   */
  datatype Token = Token(
    target: nat,
    epoch: int,
    expected: ModelHistory,
    deadline: Option<int>,
    window: nat,
    hazards: nat)

  /** Only forecast-owned fields fence a completion. */
  predicate SameCompletionState(h: ModelHistory, expected: ModelHistory) {
    && h.reliability == expected.reliability && h.lastModelRun == expected.lastModelRun
    && h.cached == expected.cached && h.failure == expected.failure
  }

  /** The fences a completion passes against the loaded data. */
  predicate Current(d: Data, token: Token, now: int) {
    && (token.deadline.Some? ==> now < token.deadline.value)
    && d.target == token.target && d.history.Some? && d.history.value.epoch == token.epoch
    && Assess(d.history.value, now) == Sound && SameCompletionState(d.history.value, token.expected)
  }

  /** A success must say something new, must not move the consumed instant back, and must lie within the rows. */
  predicate Advances(h: ModelHistory, consumed: int, cached: Option<int>) {
    && !(cached == None && h.failure == None && h.lastModelRun == Some(consumed))
    && (h.lastModelRun.Some? ==> h.lastModelRun.value <= consumed)
    && (Latest(h.rows).Some? && consumed <= Latest(h.rows).value)
  }

  /** The mutation a completion applies to loaded data; nothing when a fence stops it. */
  function Completed(d: Data, token: Token, ending: Ending, now: int): Option<Data> {
    if !Current(d, token, now) then None
    else
      var h := d.history.value;
      match ending
      case Success(consumed, cached, reliability) =>
        if Advances(h, consumed, cached)
        then Some(d.(history := Some(h.(lastModelRun := Some(consumed), cached := cached, failure := None,
                                        reliability := reliability))))
        else None
      case Failure(failure) => Some(d.(history := Some(h.(failure := Some(failure)))))
  }

  // ----- What the other writers may do -----

  function NewestCpu(h: ModelHistory): Option<int> {
    LastTime(CpuRows(h.rows))
  }

  /** Another newest measurement is at least as new. */
  predicate NotOlder(before: Option<int>, after: Option<int>) {
    before.Some? ==> after.Some? && before.value <= after.value
  }

  /** Samples, and reliability evaluations, of the same window: they leave the other forecast-owned fields alone. */
  predicate SampleOnly(h: ModelHistory, after: ModelHistory) {
    && after.kind == h.kind && after.epoch == h.epoch && after.lastModelRun == h.lastModelRun
    && after.cached == h.cached && after.failure == h.failure && NotOlder(NewestCpu(h), NewestCpu(after))
  }

  /** A reset or an expired row starts another epoch with nothing consumed. */
  predicate RestartOnly(h: ModelHistory, after: ModelHistory) {
    && after.kind == h.kind && after.epoch > h.epoch
    && after.lastModelRun == None && after.cached == None && after.failure == None
  }

  /** A missing history, or one of another type, is started anew and counts its epochs from zero. */
  predicate NewOnly(kind: string, after: ModelHistory) {
    && after.kind == kind && after.epoch == 0
    && after.lastModelRun == None && after.cached == None && after.failure == None
  }

  predicate ConsumesRetained(h: ModelHistory, ending: Ending) {
    ending.Success? ==> ending.consumed != 0 && NewestCpu(h).Some? && ending.consumed <= NewestCpu(h).value
  }

  // ----- The machine -----

  /** Every write of stored data is one of these, and goes through the same checked mutation. */
  datatype Job = Complete(token: Token, ending: Ending) | Sampling | Rebinding(target: nat, source: nat)

  /** What a sampling pass makes of the history it loaded. */
  datatype Choice = Keep(after: ModelHistory) | Reset(after: ModelHistory) | Renew(after: ModelHistory) | Drop

  /** Whether a write continues the window, restarts it under the epoch fence, or puts another in its place. */
  datatype Renewal = Same | Restarted | Renewed

  /**
    One attempt: the data loaded at a version, the owner compared again, the swap. `read`
    and `edits` are of that comparison.
   */
  datatype Phase =
    | Running
    | Loaded(version: nat, after: Data, renewal: Renewal)
    | Checked(version: nat, after: Data, renewal: Renewal, read: Spec, edits: nat)
    | Done(published: bool)

  /** A writer holds the resource as it read it, possibly long ago. */
  datatype Writer = Writer(uid: nat, generation: nat, job: Job, phase: Phase)

  /**
    `used`: target identities bound since the last edit. `window` counts the windows
    that followed one another, `edits` the changes of the resource, `hazards` the
    writes that no fence tells apart.
   */
  datatype System = System(
    spec: Spec,
    data: Data,
    version: nat,
    window: nat,
    hazards: nat,
    edits: nat,
    used: set<nat>,
    writers: seq<Writer>)

  datatype Step =
    | Edit(kind: Option<string>)
    | Recreate(generation: nat, kind: Option<string>)
    | BeginFit(generation: nat, ending: Ending, deadline: Option<int>)
    | BeginSampling(generation: nat)
    | BeginRebinding(generation: nat, target: nat, source: nat)
    | Load(writer: nat, now: int, choice: Choice)
    | Check(writer: nat)
    | Commit(writer: nat)
    | GiveUp(writer: nat)
    | Touch

  function Init(spec: Spec, target: nat, source: nat): System {
    System(spec, Data(target, source, None), 0, 0, 0, 0, {target}, [])
  }

  /** A fit starts on a history of the type its own spec configures. */
  predicate CanFit(s: System, generation: nat, ending: Ending) {
    && s.data.history.Some? && generation <= s.spec.generation && ConsumesRetained(s.data.history.value, ending)
    && (generation == s.spec.generation ==> s.spec.kind == Some(s.data.history.value.kind))
  }

  predicate Enabled(s: System, step: Step) {
    match step
    case Edit(_) => true
    case Recreate(_, _) => true
    case BeginFit(generation, ending, _) => CanFit(s, generation, ending)
    case BeginSampling(generation) => generation <= s.spec.generation
    case BeginRebinding(generation, _, _) => generation <= s.spec.generation
    case Load(i, _, _) => i < |s.writers| && s.writers[i].phase == Running
    case Check(i) => i < |s.writers| && s.writers[i].phase.Loaded?
    case Commit(i) => i < |s.writers| && s.writers[i].phase.Checked?
    case GiveUp(i) => i < |s.writers| && !s.writers[i].phase.Done?
    case Touch => true
  }

  function SetPhase(s: System, i: nat, phase: Phase): System
    requires i < |s.writers|
  {
    s.(writers := s.writers[i := s.writers[i].(phase := phase)])
  }

  predicate Owns(s: System, w: Writer) {
    w.uid == s.spec.uid && w.generation == s.spec.generation
  }

  /** The history is of the configured type. */
  predicate Configured(s: System) {
    s.data.history.Some? && s.spec.kind == Some(s.data.history.value.kind)
  }

  /** A sampling pass under the current spec. */
  function Sampled(s: System, choice: Choice): Option<(Data, Renewal)> {
    match choice
    case Keep(after) =>
      if Configured(s) && SampleOnly(s.data.history.value, after)
      then Some((s.data.(history := Some(after)), Same)) else None
    case Reset(after) =>
      if Configured(s) && RestartOnly(s.data.history.value, after)
      then Some((s.data.(history := Some(after)), Restarted)) else None
    case Renew(after) =>
      if s.spec.kind.Some? && !Configured(s) && NewOnly(s.spec.kind.value, after)
      then Some((s.data.(history := Some(after)), Renewed)) else None
    case Drop =>
      if s.spec.kind == None && s.data.history.Some? then Some((s.data.(history := None), Renewed)) else None
  }

  /** Binding to another target or another measurement source discards every history. */
  function Rebound(s: System, target: nat, source: nat): Option<(Data, Renewal)> {
    if target == s.data.target && source == s.data.source then None else Some((Data(target, source, None), Renewed))
  }

  function Mutated(s: System, job: Job, now: int, choice: Choice): Option<(Data, Renewal)> {
    match job
    case Complete(token, ending) =>
      var after := Completed(s.data, token, ending, now);
      if after.Some? then Some((after.value, Same)) else None
    case Sampling => Sampled(s, choice)
    case Rebinding(target, source) => Rebound(s, target, source)
  }

  function DoLoad(s: System, i: nat, now: int, choice: Choice): System
    requires i < |s.writers|
  {
    var w := s.writers[i];
    var r := Mutated(s, w.job, now, choice);
    SetPhase(s, i, if Owns(s, w) && r.Some? then Loaded(s.version, r.value.0, r.value.1) else Done(false))
  }

  function DoCheck(s: System, i: nat): System
    requires i < |s.writers| && s.writers[i].phase.Loaded?
  {
    var w := s.writers[i];
    SetPhase(s, i,
      if Owns(s, w) then Checked(w.phase.version, w.phase.after, w.phase.renewal, s.spec, s.edits) else Done(false))
  }

  predicate Publishes(s: System, i: nat) {
    i < |s.writers| && s.writers[i].phase.Checked? && s.writers[i].phase.version == s.version
  }

  /**
    A write that puts another window in place where target and epoch may repeat:
    made under a superseded spec, switching the measurement source, or going back to
    a target that was left since the last edit.
   */
  predicate Hazardous(s: System, w: Writer) {
    && w.phase.Checked? && w.phase.renewal == Renewed
    && (|| !Owns(s, w)
        || w.phase.after.source != s.data.source
        || (w.phase.after.target != s.data.target && w.phase.after.target in s.used))
  }

  function Put(s: System, w: Writer): System
    requires w.phase.Checked?
  {
    s.(data := w.phase.after, version := s.version + 1, used := s.used + {w.phase.after.target},
       window := if w.phase.renewal == Same then s.window else s.window + 1,
       hazards := if Hazardous(s, w) then s.hazards + 1 else s.hazards)
  }

  function DoCommit(s: System, i: nat): System
    requires i < |s.writers| && s.writers[i].phase.Checked?
  {
    if Publishes(s, i) then SetPhase(Put(s, s.writers[i]), i, Done(true)) else SetPhase(s, i, Running)
  }

  function TokenFor(s: System, deadline: Option<int>): Token
    requires s.data.history.Some?
  {
    var h := s.data.history.value;
    Token(s.data.target, h.epoch, h, deadline, s.window, s.hazards)
  }

  function Start(s: System, generation: nat, job: Job): System {
    s.(writers := s.writers + [Writer(s.spec.uid, generation, job, Running)])
  }

  function Exec(s: System, step: Step): System {
    if !Enabled(s, step) then s
    else
      match step
      case Edit(kind) =>
        s.(spec := s.spec.(generation := s.spec.generation + 1, kind := kind), edits := s.edits + 1,
           used := {s.data.target})
      case Recreate(generation, kind) =>
        s.(spec := Spec(s.spec.uid + 1, generation, kind), edits := s.edits + 1, used := {s.data.target})
      case BeginFit(generation, ending, deadline) => Start(s, generation, Complete(TokenFor(s, deadline), ending))
      case BeginSampling(generation) => Start(s, generation, Sampling)
      case BeginRebinding(generation, target, source) => Start(s, generation, Rebinding(target, source))
      case Load(i, now, choice) => DoLoad(s, i, now, choice)
      case Check(i) => DoCheck(s, i)
      case Commit(i) => DoCommit(s, i)
      case GiveUp(i) => SetPhase(s, i, Done(false))
      case Touch => s.(version := s.version + 1)
  }

  function Run(s: System, steps: seq<Step>): System {
    if |steps| == 0 then s else Exec(Run(s, steps[..|steps| - 1]), steps[|steps| - 1])
  }
}
