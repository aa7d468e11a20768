/** Runs that show why a fit's window is not told apart by target, epoch and generation alone. */
module CompletionExamples {
  import opened Basics
  import opened History
  import opened HistoryFacts
  import opened Completion

  const ROW := Sample(Some(5), 1, None, Some(100), None, None)
  const ENDING := Success(5, Some(1), None)

  /** A window with one measurement. */
  function OneRow(kind: string): ModelHistory {
    Fresh(kind).(rows := [ROW])
  }

  lemma OneRowTimes(kind: string)
    ensures CpuRows([ROW]) == [ROW] && Latest([ROW]) == Some(5) && NewestCpu(OneRow(kind)) == Some(5)
  {
    CpuRowsSingle(ROW);
    assert [ROW][..0] == [];
    assert Latest([ROW][..0]) == None;
  }

  lemma OneRowIsSound(kind: string)
    ensures Assess(OneRow(kind), 10) == Sound
  {
    OneRowTimes(kind);
    assert RowOk(ROW);
    assert Chronicle([ROW]);
    assert !AnyLater([ROW], 10);
  }

  /** The fit of the first window. */
  function FitJob(kind: string): Job {
    Complete(Token(0, 0, OneRow(kind), None, 1, 0), ENDING)
  }

  // ----- Steps in sequence -----

  lemma RunStep(s: System, steps: seq<Step>, step: Step)
    ensures Run(s, steps + [step]) == Exec(Run(s, steps), step)
  {
    assert (steps + [step])[..|steps|] == steps;
  }

  function LoadAndCheck(i: nat, choice: Choice): seq<Step> {
    [Load(i, 10, choice), Check(i)]
  }

  lemma RunLoadAndCheck(s: System, steps: seq<Step>, i: nat, choice: Choice)
    ensures Run(s, steps + LoadAndCheck(i, choice)) == Exec(Exec(Run(s, steps), Load(i, 10, choice)), Check(i))
  {
    RunStep(s, steps, Load(i, 10, choice));
    RunStep(s, steps + [Load(i, 10, choice)], Check(i));
    assert steps + LoadAndCheck(i, choice) == steps + [Load(i, 10, choice)] + [Check(i)];
  }

  function Whole(i: nat, choice: Choice): seq<Step> {
    LoadAndCheck(i, choice) + [Commit(i)]
  }

  lemma RunWhole(s: System, steps: seq<Step>, i: nat, choice: Choice)
    ensures Run(s, steps + Whole(i, choice))
         == Exec(Exec(Exec(Run(s, steps), Load(i, 10, choice)), Check(i)), Commit(i))
  {
    RunLoadAndCheck(s, steps, i, choice);
    RunStep(s, steps + LoadAndCheck(i, choice), Commit(i));
    assert steps + Whole(i, choice) == steps + LoadAndCheck(i, choice) + [Commit(i)];
  }

  /** A running writer that owns the resource and has something to write passes both comparisons. */
  lemma Checks(s: System, i: nat, choice: Choice)
    requires i < |s.writers| && s.writers[i].phase == Running && Owns(s, s.writers[i])
    requires Mutated(s, s.writers[i].job, 10, choice).Some?
    ensures var r := Mutated(s, s.writers[i].job, 10, choice).value;
            Exec(Exec(s, Load(i, 10, choice)), Check(i))
            == SetPhase(s, i, Checked(s.version, r.0, r.1, s.spec, s.edits))
  {
    var t := Exec(s, Load(i, 10, choice));
    assert t.writers[i].phase.Loaded?;
  }

  /** The state after such a writer, undisturbed, has swapped. */
  function Written(s: System, i: nat, r: (Data, Renewal)): System
    requires i < |s.writers|
  {
    var w := s.writers[i].(phase := Checked(s.version, r.0, r.1, s.spec, s.edits));
    SetPhase(Put(s, w), i, Done(true))
  }

  lemma Writes(s: System, i: nat, choice: Choice)
    requires i < |s.writers| && s.writers[i].phase == Running && Owns(s, s.writers[i])
    requires Mutated(s, s.writers[i].job, 10, choice).Some?
    ensures Exec(Exec(Exec(s, Load(i, 10, choice)), Check(i)), Commit(i))
         == Written(s, i, Mutated(s, s.writers[i].job, 10, choice).value)
  {
    Checks(s, i, choice);
    var r := Mutated(s, s.writers[i].job, 10, choice).value;
    var t := SetPhase(s, i, Checked(s.version, r.0, r.1, s.spec, s.edits));
    assert Publishes(t, i);
    assert SetPhase(Put(t, t.writers[i]), i, Done(true)) == Written(s, i, r);
  }

  /** The fit of the first window passes every fence of data that look like that window. */
  lemma FitPasses(s: System, i: nat, kind: string)
    requires i < |s.writers| && s.writers[i].job == FitJob(kind) && s.writers[i].phase == Running
          && Owns(s, s.writers[i])
    requires s.data.target == 0 && s.data.history == Some(OneRow(kind))
    ensures var t := Exec(Exec(s, Load(i, 10, Drop)), Check(i));
            Publishes(t, i) && t.window == s.window && t.hazards == s.hazards && Owns(t, t.writers[i])
  {
    OneRowTimes(kind);
    OneRowIsSound(kind);
    assert Completed(s.data, s.writers[i].job.token, ENDING, 10).Some?;
    Checks(s, i, Drop);
  }

  // ----- The first window -----

  /** One sampling pass has created the window and taken its first row. */
  function Created(spec: Spec, kind: string): System {
    System(spec, Data(0, 0, Some(OneRow(kind))), 1, 1, 0, 0, {0},
           [Writer(spec.uid, spec.generation, Sampling, Done(true))])
  }

  lemma CreatedIsReached(spec: Spec, kind: string) returns (steps: seq<Step>)
    requires spec.kind == Some(kind)
    ensures Run(Init(spec, 0, 0), steps) == Created(spec, kind)
  {
    var s0 := Init(spec, 0, 0);
    var s1 := Exec(s0, BeginSampling(spec.generation));
    steps := [] + [BeginSampling(spec.generation)];
    RunStep(s0, [], BeginSampling(spec.generation));
    RunWhole(s0, steps, 0, Renew(OneRow(kind)));
    Writes(s1, 0, Renew(OneRow(kind)));
    steps := steps + Whole(0, Renew(OneRow(kind)));
  }

  function Fitting(spec: Spec, kind: string): System {
    Start(Created(spec, kind), spec.generation, FitJob(kind))
  }

  lemma FitBegins(s: System, kind: string)
    requires s.data == Data(0, 0, Some(OneRow(kind))) && s.spec.kind == Some(kind) && s.window == 1 && s.hazards == 0
    ensures Enabled(s, BeginFit(s.spec.generation, ENDING, None))
    ensures Exec(s, BeginFit(s.spec.generation, ENDING, None)) == Start(s, s.spec.generation, FitJob(kind))
  {
    OneRowTimes(kind);
  }

  /** A fit from `begun` on, published into another window than the one it trained on. */
  ghost predicate Strays(spec: Spec, before: seq<Step>, after: seq<Step>) {
    var s := Run(Init(spec, 0, 0), before);
    && Enabled(s, BeginFit(s.spec.generation, ENDING, None))
    && var t := Run(Exec(s, BeginFit(s.spec.generation, ENDING, None)), after);
       Publishes(t, |s.writers|) && Owns(t, t.writers[|s.writers|]) && t.window != s.window
  }

  /** The window is created anew by a sampling pass that is the next writer. */
  lemma Recreated(s: System, steps: seq<Step>, s0: System, kind: string) returns (more: seq<Step>)
    requires Run(s0, steps) == s && s.spec.kind == Some(kind) && !Configured(s)
    ensures Run(s0, more).data == s.data.(history := Some(OneRow(kind))) && Run(s0, more).window == s.window + 1
    ensures Run(s0, more).spec == s.spec && Run(s0, more).edits == s.edits
    ensures |Run(s0, more).writers| == |s.writers| + 1 && Run(s0, more).writers[..|s.writers|] == s.writers
  {
    var n := |s.writers|;
    var t := Exec(s, BeginSampling(s.spec.generation));
    RunStep(s0, steps, BeginSampling(s.spec.generation));
    more := steps + [BeginSampling(s.spec.generation)];
    RunWhole(s0, more, n, Renew(OneRow(kind)));
    Writes(t, n, Renew(OneRow(kind)));
    more := more + Whole(n, Renew(OneRow(kind)));
  }

  // ----- The three ways to stray -----

  /** A rebinding that is the next writer, by the current owner. */
  lemma Rebinds(s: System, steps: seq<Step>, s0: System, target: nat, source: nat) returns (more: seq<Step>)
    requires Run(s0, steps) == s && (target != s.data.target || source != s.data.source)
    ensures Run(s0, more).data == Data(target, source, None) && Run(s0, more).window == s.window + 1
    ensures Run(s0, more).spec == s.spec && Run(s0, more).edits == s.edits
    ensures |Run(s0, more).writers| == |s.writers| + 1 && Run(s0, more).writers[..|s.writers|] == s.writers
  {
    var n := |s.writers|;
    var t := Exec(s, BeginRebinding(s.spec.generation, target, source));
    RunStep(s0, steps, BeginRebinding(s.spec.generation, target, source));
    more := steps + [BeginRebinding(s.spec.generation, target, source)];
    RunWhole(s0, more, n, Drop);
    Writes(t, n, Drop);
    more := more + Whole(n, Drop);
  }

  /** What the last part of every such run looks like: the window is created again and the fit passes. */
  lemma PassesAgain(s: System, steps: seq<Step>, s0: System, i: nat, kind: string) returns (more: seq<Step>)
    requires Run(s0, steps) == s && s.spec.kind == Some(kind) && !Configured(s) && s.data.target == 0
    requires i < |s.writers| && s.writers[i].job == FitJob(kind) && s.writers[i].phase == Running
          && Owns(s, s.writers[i])
    ensures var t := Run(s0, more); Publishes(t, i) && t.window == s.window + 1 && Owns(t, t.writers[i])
  {
    more := Recreated(s, steps, s0, kind);
    var t := Run(s0, more);
    assert t.writers[i] == s.writers[i] by {
      assert t.writers[..|s.writers|][i] == s.writers[i];
    }
    FitPasses(t, i, kind);
    RunLoadAndCheck(s0, more, i, Drop);
    more := more + LoadAndCheck(i, Drop);
  }

  /** Switching the measurement source empties the histories and counts epochs from zero again. */
  lemma SourceSwitchMixesWindows(spec: Spec, kind: string) returns (before: seq<Step>, after: seq<Step>)
    requires spec.kind == Some(kind)
    ensures Strays(spec, before, after)
  {
    before := CreatedIsReached(spec, kind);
    FitBegins(Created(spec, kind), kind);
    var begun := Fitting(spec, kind);
    after := Rebinds(begun, [], begun, 0, 1);
    var s := Run(begun, after);
    assert s.writers[1] == begun.writers[1] by {
      assert s.writers[..2][1] == begun.writers[1];
    }
    after := PassesAgain(s, after, begun, 1, kind);
  }

  /** A rebinding that read the Scale before the target was replaced goes back to the old target. */
  lemma ReturningTargetMixesWindows(spec: Spec, kind: string) returns (before: seq<Step>, after: seq<Step>)
    requires spec.kind == Some(kind)
    ensures Strays(spec, before, after)
  {
    before := CreatedIsReached(spec, kind);
    FitBegins(Created(spec, kind), kind);
    var begun := Fitting(spec, kind);
    after := Rebinds(begun, [], begun, 7, 0);
    var s := Run(begun, after);
    after := Rebinds(s, after, begun, 0, 0);
    var t := Run(begun, after);
    assert t.writers[1] == begun.writers[1] by {
      assert s.writers[..2][1] == begun.writers[1];
      assert t.writers[..3][1] == s.writers[1];
    }
    after := PassesAgain(t, after, begun, 1, kind);
  }

  /** Up to the fit: another type was configured for one generation, whose sampling pass is about to swap. */
  lemma StaleSamplerWaits(spec: Spec, kind: string, other: string) returns (steps: seq<Step>)
    requires spec.kind == Some(kind) && other != kind
    ensures var s := Run(Init(spec, 0, 0), steps);
            && s == Created(spec, kind).(spec := spec.(generation := spec.generation + 2), edits := 2,
                                         writers := s.writers)
            && |s.writers| == 2 && Publishes(s, 1) && s.writers[1].phase.renewal == Renewed
            && s.writers[1].phase.after == Data(0, 0, Some(Fresh(other)))
  {
    var s0, s1 := Init(spec, 0, 0), Created(spec, kind);
    steps := CreatedIsReached(spec, kind);
    RunStep(s0, steps, Edit(Some(other)));
    steps := steps + [Edit(Some(other))];
    var s2 := Exec(s1, Edit(Some(other)));
    RunStep(s0, steps, BeginSampling(spec.generation + 1));
    steps := steps + [BeginSampling(spec.generation + 1)];
    var s3 := Exec(s2, BeginSampling(spec.generation + 1));
    RunLoadAndCheck(s0, steps, 1, Renew(Fresh(other)));
    Checks(s3, 1, Renew(Fresh(other)));
    steps := steps + LoadAndCheck(1, Renew(Fresh(other)));
    RunStep(s0, steps, Edit(Some(kind)));
    steps := steps + [Edit(Some(kind))];
  }

  /** A sampling pass of a superseded generation swaps under the fit of the newest one. */
  lemma SupersededWriteMixesWindows(spec: Spec, kind: string, other: string)
    returns (before: seq<Step>, after: seq<Step>)
    requires spec.kind == Some(kind) && other != kind
    ensures Strays(spec, before, after)
  {
    before := StaleSamplerWaits(spec, kind, other);
    var s := Run(Init(spec, 0, 0), before);
    FitBegins(s, kind);
    var begun := Start(s, s.spec.generation, FitJob(kind));
    RunStep(begun, [], Commit(1));
    after := [] + [Commit(1)];
    var t := Exec(begun, Commit(1));
    assert t.data == Data(0, 0, Some(Fresh(other))) && t.window == 2 && t.writers[2] == begun.writers[2];
    after := PassesAgain(t, after, begun, 2, kind);
  }

  // ----- Ownership at the swap -----

  /** The generation is compared before the swap, not by it: an edit in between does not stop a publication. */
  lemma LateEditDoesNotStopPublication(spec: Spec, kind: string) returns (before: seq<Step>, after: seq<Step>)
    requires spec.kind == Some(kind)
    ensures var s := Run(Init(spec, 0, 0), before);
            && Enabled(s, BeginFit(s.spec.generation, ENDING, None))
            && var t := Run(Exec(s, BeginFit(s.spec.generation, ENDING, None)), after);
               Publishes(t, |s.writers|) && t.window == s.window && !Owns(t, t.writers[|s.writers|])
  {
    before := CreatedIsReached(spec, kind);
    FitBegins(Created(spec, kind), kind);
    var begun := Fitting(spec, kind);
    FitPasses(begun, 1, kind);
    RunLoadAndCheck(begun, [], 1, Drop);
    after := [] + LoadAndCheck(1, Drop);
    RunStep(begun, after, Edit(spec.kind));
    after := after + [Edit(spec.kind)];
  }
}
