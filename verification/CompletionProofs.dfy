/**
  A fit is published into the window it trained on exactly when nothing took that
  window's place unseen; it owns the resource it is published under exactly when the
  resource was not changed after the last comparison.
 */
module CompletionProofs {
  import opened Basics
  import opened History
  import opened Completion

  // ----- What one completion does -----

  /** A completion changes only forecast-owned fields and never moves the consumed instant back. */
  lemma CompletedChangesLittle(d: Data, token: Token, ending: Ending, now: int)
    requires Completed(d, token, ending, now).Some?
    ensures var after := Completed(d, token, ending, now).value;
            && d.history.Some? && after.history.Some? && after.target == d.target && after.source == d.source
            && d.target == token.target && d.history.value.epoch == token.epoch
            && SameCompletionState(d.history.value, token.expected)
            && FitFieldsOnly(d.history.value, after.history.value)
            && NotOlder(d.history.value.lastModelRun, after.history.value.lastModelRun)
  {
  }

  predicate FitFieldsOnly(h: ModelHistory, after: ModelHistory) {
    after == h.(lastModelRun := after.lastModelRun, cached := after.cached, failure := after.failure,
                reliability := after.reliability)
  }

  // ----- The invariant -----

  /** The token has the current target and its writer the current resource. */
  predicate Matches(s: System, w: Writer) {
    w.job.Complete? && Owns(s, w) && w.job.token.target == s.data.target
  }

  /** Undisturbed, a matching fit belongs to the current window or to an earlier epoch. */
  predicate Distinguished(s: System, w: Writer) {
    Matches(s, w) && w.job.token.hazards == s.hazards ==>
      && Configured(s) && w.job.token.epoch <= s.data.history.value.epoch
      && (w.job.token.epoch == s.data.history.value.epoch ==> w.job.token.window == s.window)
  }

  predicate TokenOk(s: System, w: Writer) {
    w.job.Complete? ==>
      && w.job.token.window <= s.window && w.job.token.hazards <= s.hazards
      && (w.job.token.hazards < s.hazards ==> w.job.token.window < s.window)
      && (Owns(s, w) ==> w.job.token.target in s.used)
      && Distinguished(s, w)
      && (w.job.token.window == s.window ==>
            s.data.history.Some? && ConsumesRetained(s.data.history.value, w.job.ending))
  }

  /** Writers never read the resource from the future. */
  predicate NotAhead(s: System, w: Writer) {
    w.uid < s.spec.uid || (w.uid == s.spec.uid && w.generation <= s.spec.generation)
  }

  /** What a computed write is, relative to the data it was computed from. */
  ghost predicate Computed(s: System, w: Writer, after: Data, renewal: Renewal) {
    match w.job
    case Complete(token, ending) =>
      && renewal == Same && (exists now :: Completed(s.data, token, ending, now) == Some(after))
      && (token.hazards == s.hazards ==> token.window == s.window)
    case Sampling =>
      && after.target == s.data.target && after.source == s.data.source
      && (renewal == Same ==>
            s.data.history.Some? && after.history.Some? && SampleOnly(s.data.history.value, after.history.value))
      && (renewal == Restarted ==>
            s.data.history.Some? && after.history.Some? && RestartOnly(s.data.history.value, after.history.value))
      && (renewal == Renewed && Owns(s, w) ==> !Configured(s))
    case Rebinding(target, source) =>
      && renewal == Renewed && after == Data(target, source, None)
      && (target != s.data.target || source != s.data.source)
  }

  ghost predicate PhaseOk(s: System, w: Writer) {
    match w.phase
    case Loaded(version, after, renewal) =>
      version <= s.version && (version == s.version ==> Computed(s, w, after, renewal))
    case Checked(version, after, renewal, read, edits) =>
      && version <= s.version && (version == s.version ==> Computed(s, w, after, renewal))
      && CheckedOk(s, w)
    case _ => true
  }

  /** The comparison was passed; the writer owns the resource as long as it has not been changed since. */
  predicate CheckedOk(s: System, w: Writer)
    requires w.phase.Checked?
  {
    && w.phase.read.uid == w.uid && w.phase.read.generation == w.generation
    && w.phase.edits <= s.edits
    && (w.phase.edits == s.edits <==> Owns(s, w))
  }

  ghost predicate WriterOk(s: System, w: Writer) {
    NotAhead(s, w) && TokenOk(s, w) && PhaseOk(s, w)
  }

  ghost predicate Inv(s: System) {
    && s.data.target in s.used
    && forall i :: 0 <= i < |s.writers| ==> WriterOk(s, s.writers[i])
  }

  // ----- Steps -----

  lemma SpecKeeps(s: System, step: Step)
    requires Inv(s) && (step.Edit? || step.Recreate?)
    ensures Inv(Exec(s, step))
  {
    var t := Exec(s, step);
    forall i | 0 <= i < |t.writers| ensures WriterOk(t, t.writers[i]) {
      assert WriterOk(s, s.writers[i]);
      assert !Owns(t, t.writers[i]);
    }
  }

  lemma BeginKeeps(s: System, generation: nat, job: Job)
    requires Inv(s) && generation <= s.spec.generation
    requires job.Complete? ==>
               && CanFit(s, generation, job.ending) && job.token == TokenFor(s, job.token.deadline)
    ensures Inv(Start(s, generation, job))
  {
    var t := Start(s, generation, job);
    forall i | 0 <= i < |t.writers| ensures WriterOk(t, t.writers[i]) {
      assert i < |s.writers| ==> WriterOk(s, s.writers[i]);
    }
  }

  lemma PhaseKeeps(s: System, i: nat, phase: Phase)
    requires Inv(s) && i < |s.writers| && PhaseOk(s, s.writers[i].(phase := phase))
    ensures Inv(SetPhase(s, i, phase))
  {
    var t := SetPhase(s, i, phase);
    forall j | 0 <= j < |t.writers| ensures WriterOk(t, t.writers[j]) {
      assert WriterOk(s, s.writers[j]);
    }
  }

  lemma MutationIsComputed(s: System, w: Writer, now: int, choice: Choice)
    requires WriterOk(s, w) && Owns(s, w) && Mutated(s, w.job, now, choice).Some?
    ensures var r := Mutated(s, w.job, now, choice).value; Computed(s, w, r.0, r.1)
  {
    if w.job.Complete? {
      CompletedChangesLittle(s.data, w.job.token, w.job.ending, now);
    }
  }

  lemma LoadKeeps(s: System, i: nat, now: int, choice: Choice)
    requires Inv(s) && Enabled(s, Load(i, now, choice))
    ensures Inv(DoLoad(s, i, now, choice))
  {
    var w := s.writers[i];
    assert WriterOk(s, w);
    if Owns(s, w) && Mutated(s, w.job, now, choice).Some? {
      MutationIsComputed(s, w, now, choice);
    }
    PhaseKeeps(s, i, DoLoad(s, i, now, choice).writers[i].phase);
  }

  lemma CheckKeeps(s: System, i: nat)
    requires Inv(s) && Enabled(s, Check(i))
    ensures Inv(DoCheck(s, i))
  {
    assert WriterOk(s, s.writers[i]);
    PhaseKeeps(s, i, DoCheck(s, i).writers[i].phase);
  }

  /** What a write does to the tokens of the fits in flight. */
  lemma PutKeepsToken(s: System, w: Writer, f: Writer)
    requires Inv(s) && WriterOk(s, w) && w.phase.Checked? && w.phase.version == s.version && WriterOk(s, f)
    ensures TokenOk(Put(s, w), f)
  {
    if w.job.Complete? {
      var now :| Completed(s.data, w.job.token, w.job.ending, now) == Some(w.phase.after);
      CompletedChangesLittle(s.data, w.job.token, w.job.ending, now);
    }
  }

  lemma PutKeeps(s: System, w: Writer)
    requires Inv(s) && WriterOk(s, w) && w.phase.Checked? && w.phase.version == s.version
    ensures Inv(Put(s, w))
  {
    var t := Put(s, w);
    forall i | 0 <= i < |t.writers| ensures WriterOk(t, t.writers[i]) {
      assert WriterOk(s, s.writers[i]);
      PutKeepsToken(s, w, s.writers[i]);
    }
  }

  lemma CommitKeeps(s: System, i: nat)
    requires Inv(s) && Enabled(s, Commit(i))
    ensures Inv(DoCommit(s, i))
  {
    assert WriterOk(s, s.writers[i]);
    if Publishes(s, i) {
      PutKeeps(s, s.writers[i]);
      PhaseKeeps(Put(s, s.writers[i]), i, Done(true));
    } else {
      PhaseKeeps(s, i, Running);
    }
  }

  lemma TouchKeeps(s: System)
    requires Inv(s)
    ensures Inv(Exec(s, Touch))
  {
    var t := Exec(s, Touch);
    forall i | 0 <= i < |t.writers| ensures WriterOk(t, t.writers[i]) {
      assert WriterOk(s, s.writers[i]);
    }
  }

  lemma StepKeeps(s: System, step: Step)
    requires Inv(s)
    ensures Inv(Exec(s, step))
  {
    if Enabled(s, step) {
      match step
      case Edit(_) => SpecKeeps(s, step);
      case Recreate(_, _) => SpecKeeps(s, step);
      case BeginFit(generation, ending, deadline) => BeginKeeps(s, generation, Complete(TokenFor(s, deadline), ending));
      case BeginSampling(generation) => BeginKeeps(s, generation, Sampling);
      case BeginRebinding(generation, target, source) => BeginKeeps(s, generation, Rebinding(target, source));
      case Load(i, now, choice) => LoadKeeps(s, i, now, choice);
      case Check(i) => CheckKeeps(s, i);
      case Commit(i) => CommitKeeps(s, i);
      case GiveUp(i) => PhaseKeeps(s, i, Done(false));
      case Touch => TouchKeeps(s);
    }
  }

  lemma {:induction false} RunKeeps(s: System, steps: seq<Step>)
    requires Inv(s)
    ensures Inv(Run(s, steps))
  {
    if |steps| > 0 {
      RunKeeps(s, steps[..|steps| - 1]);
      StepKeeps(Run(s, steps[..|steps| - 1]), steps[|steps| - 1]);
    }
  }

  lemma InitHolds(spec: Spec, target: nat, source: nat)
    ensures Inv(Init(spec, target, source))
  {
  }

  // ----- Counting disturbances and edits along a run -----

  /** This step is the swap of a write that no fence tells apart. */
  predicate Disturbs(s: System, step: Step) {
    step.Commit? && Publishes(s, step.writer) && Hazardous(s, s.writers[step.writer])
  }

  /** No step of the run disturbs. */
  predicate Undisturbed(s: System, steps: seq<Step>) {
    |steps| > 0 ==>
      Undisturbed(s, steps[..|steps| - 1]) && !Disturbs(Run(s, steps[..|steps| - 1]), steps[|steps| - 1])
  }

  lemma StepCounts(s: System, step: Step)
    ensures Exec(s, step).hazards == s.hazards + (if Disturbs(s, step) then 1 else 0)
    ensures Exec(s, step).edits == s.edits + (if Changes(step) then 1 else 0)
  {
  }

  predicate Changes(step: Step) {
    step.Edit? || step.Recreate?
  }

  predicate Unchanged(steps: seq<Step>) {
    forall k :: 0 <= k < |steps| ==> !Changes(steps[k])
  }

  lemma {:induction false} RunCountsHazards(s: System, steps: seq<Step>)
    ensures Run(s, steps).hazards >= s.hazards && (Run(s, steps).hazards == s.hazards <==> Undisturbed(s, steps))
  {
    if |steps| > 0 {
      RunCountsHazards(s, steps[..|steps| - 1]);
      StepCounts(Run(s, steps[..|steps| - 1]), steps[|steps| - 1]);
    }
  }

  lemma {:induction false} RunCountsEdits(s: System, steps: seq<Step>)
    ensures Run(s, steps).edits >= s.edits && (Run(s, steps).edits == s.edits <==> Unchanged(steps))
  {
    if |steps| > 0 {
      var front, last := steps[..|steps| - 1], steps[|steps| - 1];
      RunCountsEdits(s, front);
      StepCounts(Run(s, front), last);
      assert Unchanged(steps) <==> Unchanged(front) && !Changes(last);
    }
  }

  predicate SameWriter(s: System, t: System, i: nat) {
    && i < |s.writers| && i < |t.writers| && t.writers[i].uid == s.writers[i].uid
    && t.writers[i].generation == s.writers[i].generation && t.writers[i].job == s.writers[i].job
  }

  lemma StepKeepsWriter(s: System, step: Step, i: nat)
    requires i < |s.writers|
    ensures SameWriter(s, Exec(s, step), i)
  {
  }

  /** A writer's task and its reading of the resource never change. */
  lemma {:induction false} RunKeepsWriter(s: System, steps: seq<Step>, i: nat)
    requires i < |s.writers|
    ensures SameWriter(s, Run(s, steps), i)
  {
    if |steps| > 0 {
      RunKeepsWriter(s, steps[..|steps| - 1], i);
      StepKeepsWriter(Run(s, steps[..|steps| - 1]), steps[|steps| - 1], i);
    }
  }

  // ----- Theorems -----

  /**
    Publishing a fit. Its target, epoch and forecast-owned fields are those of the data
    it replaces. The window is the one it trained on if and only if no write since its
    start put another window in place under a superseded spec, from another source, or
    by going back to a target left since the last edit.
   */
  lemma FitsStayInTheirWindow(spec: Spec, target: nat, source: nat, before: seq<Step>,
                              generation: nat, ending: Ending, deadline: Option<int>, after: seq<Step>)
    requires Enabled(Run(Init(spec, target, source), before), BeginFit(generation, ending, deadline))
    requires var s := Run(Init(spec, target, source), before);
             Publishes(Run(Exec(s, BeginFit(generation, ending, deadline)), after), |s.writers|)
    ensures var s := Run(Init(spec, target, source), before);
            var begun := Exec(s, BeginFit(generation, ending, deadline));
            var t := Run(begun, after);
            && (t.window == s.window <==> Undisturbed(begun, after))
            && t.data.history.Some? && t.data.target == s.data.target
            && t.data.history.value.epoch == s.data.history.value.epoch
            && SameCompletionState(t.data.history.value, s.data.history.value)
            && (t.window == s.window ==> ConsumesRetained(t.data.history.value, ending))
  {
    InitHolds(spec, target, source);
    RunKeeps(Init(spec, target, source), before);
    var s := Run(Init(spec, target, source), before);
    var step := BeginFit(generation, ending, deadline);
    StepKeeps(s, step);
    var begun := Exec(s, step);
    RunKeeps(begun, after);
    RunCountsHazards(begun, after);
    var t := Run(begun, after);
    var w := t.writers[|s.writers|];
    RunKeepsWriter(begun, after, |s.writers|);
    assert WriterOk(t, w);
    var now :| Completed(t.data, w.job.token, w.job.ending, now) == Some(w.phase.after);
    CompletedChangesLittle(t.data, w.job.token, w.job.ending, now);
  }

  /**
    Every writer that may swap owned the resource when it last compared it, and owns it
    at any later instant if and only if the resource was not edited or recreated since.
   */
  lemma OwnershipLastsUntilEdit(spec: Spec, target: nat, source: nat, before: seq<Step>, i: nat, after: seq<Step>)
    requires Enabled(Run(Init(spec, target, source), before), Check(i))
    requires var checked := Exec(Run(Init(spec, target, source), before), Check(i));
             && checked.writers[i].phase.Checked?
             && i < |Run(checked, after).writers| && Run(checked, after).writers[i] == checked.writers[i]
    ensures var s := Run(Init(spec, target, source), before);
            var t := Run(Exec(s, Check(i)), after);
            && Owns(s, s.writers[i]) && t.writers[i].phase.read == s.spec
            && (Owns(t, t.writers[i]) <==> Unchanged(after))
  {
    InitHolds(spec, target, source);
    RunKeeps(Init(spec, target, source), before);
    var s := Run(Init(spec, target, source), before);
    StepKeeps(s, Check(i));
    var checked := Exec(s, Check(i));
    RunKeeps(checked, after);
    RunCountsEdits(checked, after);
    assert WriterOk(Run(checked, after), Run(checked, after).writers[i]);
  }

  function ConsumedOf(s: System): Option<int> {
    if s.data.history.Some? then s.data.history.value.lastModelRun else None
  }

  /** Within one window the consumed instant never moves back, whatever happens. */
  lemma ConsumedNeverMovesBack(spec: Spec, target: nat, source: nat, steps: seq<Step>, step: Step)
    ensures var s := Run(Init(spec, target, source), steps);
            Exec(s, step).window == s.window ==> NotOlder(ConsumedOf(s), ConsumedOf(Exec(s, step)))
  {
    InitHolds(spec, target, source);
    RunKeeps(Init(spec, target, source), steps);
    var s := Run(Init(spec, target, source), steps);
    if step.Commit? && Publishes(s, step.writer) {
      var w := s.writers[step.writer];
      assert WriterOk(s, w);
      if w.job.Complete? {
        var now :| Completed(s.data, w.job.token, w.job.ending, now) == Some(w.phase.after);
        CompletedChangesLittle(s.data, w.job.token, w.job.ending, now);
      }
    }
  }
}
