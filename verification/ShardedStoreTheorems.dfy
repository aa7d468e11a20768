/** The sharded store's promises over whole runs. */
module ShardedStoreTheorems {
  import opened Basics
  import opened Chunking
  import opened ShardedStore
  import opened ShardedStoreProofs

  /**
    Whatever writers, readers, cleanups, crashes and lost responses do: every
    chunk the root names exists with its published bytes, no cleanup running or
    stalled may delete it, and no load ever reports corrupt data.
   */
  lemma PublishedChunksSurvive(s: System, steps: seq<Step>)
    requires Init(s)
    ensures var t := Run(s, steps);
            && AllMatch(t.chunks, RefsOf(t.root.payload))
            && (forall c :: c in t.cleaners ==>
                  c.fence <= t.root.fence && Safe(t.chunks, RefsOf(t.root.payload), c))
            && (forall id :: id in t.calls ==> !t.calls[id].phase.Corrupt?)
  {
    InitHolds(s);
    RunKeeps(s, steps);
    var t := Run(s, steps);
    forall id | id in t.calls ensures !t.calls[id].phase.Corrupt? {
      assert CallOk(t, t.calls[id]);
    }
  }

  /**
    The published states form one chain: each is its own call's mutation of its
    immediate predecessor, the last is the current state, and no call appears
    twice, retries and late deliveries included.
   */
  lemma NoLostUpdates(s: System, steps: seq<Step>)
    requires Init(s)
    ensures var t := Run(s, steps);
            && |t.log| > 0 && t.log[|t.log| - 1].state == Logical(t.root.payload)
            && (forall k :: 1 <= k < |t.log| ==>
                  && t.log[k].call.Some? && t.log[k].call.value in t.calls
                  && t.calls[t.log[k].call.value].mutation(t.log[k - 1].state) == Some(t.log[k].state))
            && (forall j, k :: 1 <= j < k < |t.log| ==> t.log[j].call != t.log[k].call)
  {
    InitHolds(s);
    RunKeeps(s, steps);
  }

  // ----- Loads -----

  /** Every root some call still holds carries a state that was published as a whole. */
  ghost predicate Seen(s: System) {
    forall id :: id in s.calls && BaseOf(s.calls[id].phase).Some? ==>
      WasPublished(s, Logical(BaseOf(s.calls[id].phase).value.payload))
  }

  ghost predicate WasPublished(s: System, state: State) {
    exists k :: 0 <= k < |s.log| && s.log[k].state == state
  }

  lemma LogGrows(s: System, step: Step)
    ensures var s' := Exec(s, step); |s.log| <= |s'.log| && s'.log[..|s.log|] == s.log
  {
  }

  lemma BasesComeFromRoot(s: System, step: Step, id: nat)
    requires CallsOk(s)
    requires var s' := Exec(s, step); id in s'.calls && BaseOf(s'.calls[id].phase).Some?
    ensures var payload := BaseOf(Exec(s, step).calls[id].phase).value.payload;
            || payload == s.root.payload
            || (id in s.calls && BaseOf(s.calls[id].phase).Some? && BaseOf(s.calls[id].phase).value.payload == payload)
  {
    if step.Commit? {
      BasesFromCommit(s, step, id);
    } else if step.CreateChunk? || step.Publish? || step.Crash? {
      BasesFromWrites(s, step, id);
    }
  }

  ghost predicate BaseKept(s: System, s': System, id: nat) {
    id in s'.calls && BaseOf(s'.calls[id].phase).Some? ==>
      var payload := BaseOf(s'.calls[id].phase).value.payload;
      || payload == s.root.payload
      || (id in s.calls && BaseOf(s.calls[id].phase).Some? && BaseOf(s.calls[id].phase).value.payload == payload)
  }

  lemma BasesFromCommit(s: System, step: Step, id: nat)
    requires CallsOk(s) && step.Commit?
    ensures BaseKept(s, Exec(s, step), id)
  {
    if id in s.calls {
      assert CallOk(s, s.calls[id]);
    }
  }

  lemma BasesFromWrites(s: System, step: Step, id: nat)
    requires step.CreateChunk? || step.Publish? || step.Crash?
    ensures BaseKept(s, Exec(s, step), id)
  {
  }

  lemma SeenKeeps(s: System, step: Step)
    requires Inv(s) && Seen(s)
    ensures Seen(Exec(s, step))
  {
    var s' := Exec(s, step);
    LogGrows(s, step);
    forall id | id in s'.calls && BaseOf(s'.calls[id].phase).Some?
      ensures WasPublished(s', Logical(BaseOf(s'.calls[id].phase).value.payload))
    {
      BasesComeFromRoot(s, step, id);
      var state := Logical(BaseOf(s'.calls[id].phase).value.payload);
      if state == Logical(s.root.payload) {
        assert s.log[|s.log| - 1].state == state;
        assert s'.log[|s.log| - 1] == s'.log[..|s.log|][|s.log| - 1];
      } else {
        assert WasPublished(s, state);
        var k :| 0 <= k < |s.log| && s.log[k].state == state;
        assert s'.log[k] == s'.log[..|s.log|][k];
      }
    }
  }

  lemma {:induction false} SeenInRun(s: System, steps: seq<Step>)
    requires Inv(s) && Seen(s)
    ensures Seen(Run(s, steps))
    decreases |steps|
  {
    if |steps| > 0 {
      SeenKeeps(s, steps[0]);
      StepKeeps(s, steps[0]);
      SeenInRun(Exec(s, steps[0]), steps[1..]);
    }
  }

  /** A load that succeeds returns exactly one state that was published as a whole. */
  lemma LoadsArePublishedStates(s: System, steps: seq<Step>, id: nat)
    requires Init(s)
    requires id in Run(s, steps).calls && Run(s, steps).calls[id].phase.Loaded?
    ensures var t := Run(s, steps);
            && t.calls[id].phase.state == Logical(t.calls[id].phase.base.payload)
            && WasPublished(t, t.calls[id].phase.state)
  {
    InitHolds(s);
    RunKeeps(s, steps);
    SeenInRun(s, steps);
    assert CallOk(Run(s, steps), Run(s, steps).calls[id]);
  }

  // ----- Fencing -----

  lemma StepMovesForward(s: System, step: Step)
    ensures var s' := Exec(s, step); s.root.version <= s'.root.version
  {
  }

  lemma {:induction false} RunMovesForward(s: System, steps: seq<Step>)
    ensures s.root.version <= Run(s, steps).root.version
    decreases |steps|
  {
    if |steps| > 0 {
      StepMovesForward(s, steps[0]);
      RunMovesForward(Exec(s, steps[0]), steps[1..]);
    }
  }

  /** A publication in flight whose fence has been overtaken is refused whenever it arrives. */
  lemma OvertakenRequestIsRefused(s: System, steps: seq<Step>, r: Request)
    requires Inv(s) && r in s.flight && Publishes(r) && r.fence < s.root.fence
    ensures var t := Run(s, steps);
            && r.expected < t.root.version
            && Exec(t, Deliver(r)).root == t.root && Exec(t, Deliver(r)).log == t.log
  {
    assert PutOk(s, r);
    RunMovesForward(s, steps);
  }

  /**
    A writer whose fence has been overtaken can never publish what it staged:
    however the run goes on, its publication is a conflict and, delivered late,
    is refused.
   */
  lemma OvertakenNeverPublishes(s: System, steps: seq<Step>, id: nat, lost: bool, more: seq<Step>)
    requires Inv(s) && id in s.calls && s.calls[id].phase.Staging?
    requires s.calls[id].phase.base.fence < s.root.fence
    requires var t := Run(s, steps);
             id in t.calls && Complete(t.calls[id].phase) && t.calls[id].phase.base == s.calls[id].phase.base
    ensures var t := Run(s, steps);
            var phase := t.calls[id].phase;
            && phase.base.version < t.root.version
            && Exec(t, Publish(id, lost)).root == t.root && Exec(t, Publish(id, lost)).log == t.log
            && var u := Run(Exec(t, Publish(id, lost)), more);
               var sent := PutRoot(phase.base.version, phase.base.fence, Sharded(phase.refs, phase.target.journal),
                                   Some(id));
               Exec(u, Deliver(sent)).root == u.root && Exec(u, Deliver(sent)).log == u.log
  {
    assert CallOk(s, s.calls[id]);
    RunMovesForward(s, steps);
    var t := Run(s, steps);
    RunMovesForward(Exec(t, Publish(id, lost)), more);
  }

  // ----- Progress without interference -----

  /** n chunk creations, then the publication. */
  function Finish(id: nat, n: nat): seq<Step> {
    if n == 0 then [Publish(id, false)] else [CreateChunk(id, false)] + Finish(id, n - 1)
  }

  /** The call owns the current root and has n chunks left to create, under names nobody uses. */
  ghost predicate Undisturbed(s: System, id: nat, n: nat) {
    && id in s.calls && s.calls[id].phase.Staging? && !s.calls[id].phase.reused
    && s.calls[id].phase.base.version == s.root.version
    && n == PieceCount(|s.calls[id].phase.target.body|) - |s.calls[id].phase.refs|
    && NamesBelow(s.chunks, s.calls[id].phase.transaction, |s.calls[id].phase.refs|)
  }

  ghost predicate NamesBelow(chunks: map<Name, Chunk>, transaction: nat, n: nat) {
    forall name :: name in chunks && name.transaction == transaction ==> name.index < n
  }

  /** The call has ended with its own target as the state. */
  predicate PublishedAs(s: System, id: nat, target: State) {
    Logical(s.root.payload) == target && id in s.calls && s.calls[id].phase.Published?
  }

  lemma {:induction false} UndisturbedStaging(s: System, id: nat, n: nat)
    requires Inv(s) && Undisturbed(s, id, n)
    ensures PublishedAs(Run(s, Finish(id, n)), id, s.calls[id].phase.target)
    decreases n
  {
    if n == 0 {
      UndisturbedPublication(s, id);
    } else {
      ChunkIsStaged(s, id, n);
      RunFirst(s, CreateChunk(id, false), Finish(id, n - 1));
      UndisturbedStaging(Exec(s, CreateChunk(id, false)), id, n - 1);
    }
  }

  lemma UndisturbedPublication(s: System, id: nat)
    requires Inv(s) && Undisturbed(s, id, 0)
    ensures PublishedAs(Run(s, Finish(id, 0)), id, s.calls[id].phase.target)
  {
    StagedPublishes(s, id);
    assert Run(s, Finish(id, 0)) == Run(Exec(s, Publish(id, false)), []);
  }

  lemma RunFirst(s: System, step: Step, rest: seq<Step>)
    ensures Run(s, [step] + rest) == Run(Exec(s, step), rest)
  {
    assert ([step] + rest)[1..] == rest;
  }

  /** With every piece staged and the root unchanged, publishing succeeds. */
  lemma StagedPublishes(s: System, id: nat)
    requires Inv(s) && id in s.calls && s.calls[id].phase.Staging? && !s.calls[id].phase.reused
    requires s.calls[id].phase.base.version == s.root.version
    requires |s.calls[id].phase.refs| == PieceCount(|s.calls[id].phase.target.body|)
    ensures PublishedAs(Exec(s, Publish(id, false)), id, s.calls[id].phase.target)
  {
    var phase := s.calls[id].phase;
    assert CallOk(s, s.calls[id]);
    JoinPieces(phase.target.body, Digests(phase.refs));
  }

  /** Creating the next chunk leaves one less to create. */
  lemma ChunkIsStaged(s: System, id: nat, n: nat)
    requires Inv(s) && Undisturbed(s, id, n) && n > 0
    ensures var t := Exec(s, CreateChunk(id, false));
            Inv(t) && Undisturbed(t, id, n - 1) && t.calls[id].phase.target == s.calls[id].phase.target
  {
    CommittingKeeps(s, CreateChunk(id, false));
    OneLessToStage(s, id, n);
  }

  lemma OneLessToStage(s: System, id: nat, n: nat)
    requires CallsOk(s) && Undisturbed(s, id, n) && n > 0
    ensures var t := Exec(s, CreateChunk(id, false));
            Undisturbed(t, id, n - 1) && t.calls[id].phase.target == s.calls[id].phase.target
  {
    assert CallOk(s, s.calls[id]);
  }

  /** With the current chunks reused and the root unchanged, publishing succeeds. */
  lemma ReusedPublishes(s: System, id: nat)
    requires Inv(s) && id in s.calls && s.calls[id].phase.Staging? && s.calls[id].phase.reused
    requires s.calls[id].phase.base.version == s.root.version
    ensures PublishedAs(Run(s, Finish(id, 0)), id, s.calls[id].phase.target)
  {
    assert CallOk(s, s.calls[id]);
    assert Run(s, Finish(id, 0)) == Run(Exec(s, Publish(id, false)), []);
  }

  /** What a commit still has to do after its first root write. */
  function Remaining(id: nat, base: Root, state: State, target: State, extra: nat, journalBytes: nat): seq<Step> {
    if base.payload.Inline? && |target.body| + extra <= MAX_INLINE_BYTES && journalBytes <= MAX_JOURNAL_BYTES then []
    else if base.payload.Sharded? && state.body == target.body then Finish(id, 0)
    else Finish(id, PieceCount(|target.body|))
  }

  /** A commit that nobody disturbs publishes exactly its target: inline, in new chunks, or in the current ones. */
  lemma UndisturbedCommitPublishes(s: System, id: nat, extra: nat, journalBytes: nat, transaction: nat)
    requires Inv(s) && id in s.calls && s.calls[id].phase.Loaded?
    requires s.calls[id].phase.base.version == s.root.version
    requires s.calls[id].mutation(s.calls[id].phase.state).Some?
    requires forall name :: name in s.chunks ==> name.transaction != transaction
    requires var target := s.calls[id].mutation(s.calls[id].phase.state).value;
             |target.body| + extra <= MAX_ALLOCATED_BYTES
    requires var Loaded(base, state) := s.calls[id].phase;
             var target := s.calls[id].mutation(state).value;
             Remaining(id, base, state, target, extra, journalBytes) == [] ==> target != state
    ensures var Loaded(base, state) := s.calls[id].phase;
            var target := s.calls[id].mutation(state).value;
            var t := Run(Exec(s, Commit(id, extra, journalBytes, transaction, false)),
                         Remaining(id, base, state, target, extra, journalBytes));
            Logical(t.root.payload) == target && id in t.calls && t.calls[id].phase.Published?
  {
    assert CallOk(s, s.calls[id]);
    var Loaded(base, state) := s.calls[id].phase;
    var target := s.calls[id].mutation(state).value;
    var step := Commit(id, extra, journalBytes, transaction, false);
    StepKeeps(s, step);
    if Remaining(id, base, state, target, extra, journalBytes) != [] {
      if base.payload.Sharded? && state.body == target.body {
        ReusedPublishes(Exec(s, step), id);
      } else {
        UndisturbedStaging(Exec(s, step), id, PieceCount(|target.body|));
      }
    }
  }
}
