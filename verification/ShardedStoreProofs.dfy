/**
  What every step of the sharded store keeps, and what follows for every run:
  published chunks are never lost, readers see one published state, the
  published states form a chain of mutations, and an overtaken writer cannot
  publish.
 */
module ShardedStoreProofs {
  import opened Basics
  import opened Chunking
  import opened ShardedStore

  // ----- Frames -----

  /** A call that has not finished may move to any phase that suits the unchanged objects. */
  lemma PhaseChange(s: System, id: nat, call: Call)
    requires Inv(s) && id in s.calls && !Finished(s, id)
    requires call.mutation == s.calls[id].mutation
    requires CallOk(s, call)
    ensures Inv(s.(calls := s.calls[id := call]))
  {
    var s' := s.(calls := s.calls[id := call]);
    forall k | k in s'.calls ensures CallOk(s', s'.calls[k]) {
      assert k != id ==> CallOk(s, s.calls[k]);
    }
    forall r | r in s'.flight && r.PutRoot? ensures PutOk(s', r) {
      assert PutOk(s, r);
    }
  }

  /** One more root or chunk write in flight, by a call that is over. */
  lemma SendKeeps(s: System, request: Request)
    requires Inv(s) && !request.DropChunk?
    requires request.PutRoot? ==> PutOk(s, request)
    requires Publishes(request) ==>
               && Finished(s, request.publisher.value)
               && (forall k :: 1 <= k < |s.log| ==> s.log[k].call != request.publisher)
               && (forall r :: r in s.flight && Publishes(r) ==> r.publisher != request.publisher)
    ensures Inv(s.(flight := s.flight + {request}))
  {
    var s' := s.(flight := s.flight + {request});
    forall r | r in s'.flight && r.PutRoot? ensures PutOk(s', r) {
      assert r in s.flight ==> PutOk(s, r);
    }
  }

  /** A call ends and leaves one root or chunk write in flight. */
  lemma LoseKeeps(s: System, id: nat, request: Request)
    requires Inv(s) && id in s.calls && !Finished(s, id)
    requires !request.DropChunk?
    requires request.PutRoot? ==> PutOk(s, request)
    requires Publishes(request) ==> request.publisher == Some(id)
    ensures Inv(Lose(s, id, request))
  {
    var ended := s.calls[id].(phase := Ended);
    NotLogged(s, id);
    PhaseChange(s, id, ended);
    SendKeeps(s.(calls := s.calls[id := ended]), request);
  }

  lemma ConflictKeeps(s: System, id: nat)
    requires Inv(s) && id in s.calls && !Finished(s, id)
    ensures Inv(Conflict(s, id))
  {
    PhaseChange(s, id, Conflict(s, id).calls[id]);
  }

  /** Once the root has moved, older holders only keep facts that no longer matter to it. */
  lemma CallsAfterMove(s: System, s': System)
    requires CallsOk(s) && s'.root.version > s.root.version
    ensures forall id :: id in s.calls ==> CallOk(s', s.calls[id])
  {
    forall id | id in s.calls ensures CallOk(s', s.calls[id]) {
      assert CallOk(s, s.calls[id]);
    }
  }

  // ----- Reading -----

  lemma ReadRootKeeps(s: System, id: nat)
    requires Inv(s) && id in s.calls && s.calls[id].phase.Waiting?
    ensures Inv(ExecReadRoot(s, id))
  {
    assert Digests([]) == [];
    assert RefsOf(s.root.payload)[..0] == [];
    PhaseChange(s, id, ExecReadRoot(s, id).calls[id]);
  }

  lemma ReadChunkKeeps(s: System, id: nat)
    requires Inv(s) && id in s.calls && s.calls[id].phase.Reading?
    ensures Inv(ExecReadChunk(s, id))
  {
    var call := s.calls[id];
    assert CallOk(s, call);
    var Reading(base, gathered, count) := call.phase;
    var refs := RefsOf(base.payload);
    if count >= |refs| {
      assert refs[..count] == refs;
    } else if Matches(s.chunks, refs[count]) {
      assert Digests(refs[..count + 1])[..count] == Digests(refs[..count]);
    } else {
      assert base.version != s.root.version;
    }
    PhaseChange(s, id, ExecReadChunk(s, id).calls[id]);
  }

  lemma RecheckKeeps(s: System, id: nat)
    requires Inv(s) && id in s.calls && s.calls[id].phase.Missed?
    ensures Inv(ExecRecheck(s, id))
  {
    assert CallOk(s, s.calls[id]);
    PhaseChange(s, id, ExecRecheck(s, id).calls[id]);
  }

  // ----- Committing -----

  /** s' publishes the payload for call id on top of the current root of s. */
  ghost predicate Publication(s: System, s': System, id: nat, payload: Payload, reused: bool) {
    && id in s.calls
    && s.calls[id].mutation(Logical(s.root.payload)) == Some(Logical(payload))
    && Publishable(s.chunks, s.root, RefsOf(payload), reused)
    && s'.root == Root(s.root.version + 1, s.root.fence, payload)
    && s'.chunks == s.chunks && s'.nextUid == s.nextUid
    && s'.log == s.log + [Entry(Some(id), Logical(payload))]
    && (s'.calls == s.calls[id := s.calls[id].(phase := Published)] || (s'.calls == s.calls && Finished(s, id)))
    && s'.flight <= s.flight
    && s.cleaners <= s'.cleaners <= s.cleaners + {Cleaner(s.root.fence, Names(RefsOf(payload)))}
    && (forall k :: 1 <= k < |s.log| ==> s.log[k].call != Some(id))
    && (forall r :: r in s'.flight && Publishes(r) ==> r.publisher != Some(id))
  }

  lemma PublicationRoot(s: System, s': System, id: nat, payload: Payload, reused: bool)
    requires RootOk(s) && UidsOk(s) && Publication(s, s', id, payload, reused)
    ensures RootOk(s') && UidsOk(s')
  {
    forall cleaner | cleaner in s'.cleaners
      ensures cleaner.fence <= s'.root.fence && Safe(s'.chunks, RefsOf(payload), cleaner)
    {
      if cleaner in s.cleaners {
        assert Safe(s.chunks, RefsOf(s.root.payload), cleaner);
      }
    }
  }

  lemma PublicationCalls(s: System, s': System, id: nat, payload: Payload, reused: bool)
    requires CallsOk(s) && FlightOk(s) && Publication(s, s', id, payload, reused)
    ensures CallsOk(s') && FlightOk(s')
  {
    CallsAfterMove(s, s');
    forall r | r in s'.flight && r.PutRoot? ensures PutOk(s', r) {
      assert PutOk(s, r);
    }
  }

  lemma PublicationChain(s: System, s': System, id: nat, payload: Payload, reused: bool)
    requires Chain(s) && Publication(s, s', id, payload, reused)
    ensures Chain(s')
  {
    forall k | 1 <= k < |s'.log|
      ensures && s'.log[k].call.Some? && s'.log[k].call.value in s'.calls
              && s'.calls[s'.log[k].call.value].mutation(s'.log[k - 1].state) == Some(s'.log[k].state)
    {
      assert s'.log[k - 1] == s.log[k - 1];
      assert k < |s.log| ==> s'.log[k] == s.log[k];
    }
  }

  lemma PublicationLog(s: System, s': System, id: nat, payload: Payload, reused: bool)
    requires Chain(s) && Once(s) && Publication(s, s', id, payload, reused)
    ensures Chain(s') && Once(s')
  {
    PublicationChain(s, s', id, payload, reused);
    assert forall i :: i in s.calls && Finished(s, i) ==> Finished(s', i);
    assert Finished(s', id);
    assert forall k :: 0 <= k < |s.log| ==> s'.log[k] == s.log[k];
    assert s'.log[|s.log|].call == Some(id);
  }

  /** A publication on top of the current root. */
  lemma PublishKeeps(s: System, s': System, id: nat, payload: Payload, reused: bool)
    requires Inv(s) && Publication(s, s', id, payload, reused)
    ensures Inv(s')
  {
    PublicationRoot(s, s', id, payload, reused);
    PublicationCalls(s, s', id, payload, reused);
    PublicationLog(s, s', id, payload, reused);
  }

  lemma NotLogged(s: System, id: nat)
    requires Inv(s) && id in s.calls && !Finished(s, id)
    ensures forall k :: 1 <= k < |s.log| ==> s.log[k].call != Some(id)
    ensures forall r :: r in s.flight && Publishes(r) ==> r.publisher != Some(id)
  {
    forall k | 1 <= k < |s.log| ensures s.log[k].call != Some(id) {
      assert Finished(s, s.log[k].call.value);
    }
    forall r | r in s.flight && Publishes(r) ensures r.publisher != Some(id) {
      assert Finished(s, r.publisher.value);
    }
  }

  lemma LoseWholeKeeps(s: System, id: nat, target: State)
    requires Inv(s) && id in s.calls && s.calls[id].phase.Loaded?
    requires s.calls[id].mutation(s.calls[id].phase.state) == Some(target)
    ensures var base := s.calls[id].phase.base;
            Inv(Lose(s, id, PutRoot(base.version, base.fence, Inline(target), Some(id))))
  {
    var base := s.calls[id].phase.base;
    assert CallOk(s, s.calls[id]);
    var r := PutRoot(base.version, base.fence, Inline(target), Some(id));
    assert Publishable(s.chunks, s.root, RefsOf(r.payload), false);
    LoseKeeps(s, id, r);
  }

  lemma LoseFenceKeeps(s: System, id: nat)
    requires Inv(s) && id in s.calls && s.calls[id].phase.Loaded?
    ensures var base := s.calls[id].phase.base;
            Inv(Lose(s, id, PutRoot(base.version, base.fence + 1, base.payload, None)))
  {
    var base := s.calls[id].phase.base;
    assert CallOk(s, s.calls[id]);
    LoseKeeps(s, id, PutRoot(base.version, base.fence + 1, base.payload, None));
  }

  lemma LostCommitKeeps(s: System, id: nat, extra: nat, journalBytes: nat, transaction: nat)
    requires Inv(s) && id in s.calls && s.calls[id].phase.Loaded?
    ensures Inv(ExecCommit(s, id, extra, journalBytes, transaction, true))
  {
    var call := s.calls[id];
    var base := call.phase.base;
    var s' := ExecCommit(s, id, extra, journalBytes, transaction, true);
    if s' == WithPhase(s, id, Ended) {
      PhaseChange(s, id, call.(phase := Ended));
    } else {
      var target := call.mutation(call.phase.state).value;
      if s' == Lose(s, id, PutRoot(base.version, base.fence, Inline(target), Some(id))) {
        LoseWholeKeeps(s, id, target);
      } else {
        assert s' == Lose(s, id, PutRoot(base.version, base.fence + 1, base.payload, None));
        LoseFenceKeeps(s, id);
      }
    }
  }

  predicate Fits(s: System, target: State, extra: nat, journalBytes: nat) {
    s.root.payload.Inline? && |target.body| + extra <= MAX_INLINE_BYTES && journalBytes <= MAX_JOURNAL_BYTES
  }

  lemma InlineCommitKeeps(s: System, id: nat, extra: nat, journalBytes: nat, transaction: nat)
    requires Inv(s) && id in s.calls && s.calls[id].phase.Loaded?
    requires s.calls[id].phase.base.version == s.root.version
    requires s.calls[id].mutation(s.calls[id].phase.state).Some?
    requires Fits(s, s.calls[id].mutation(s.calls[id].phase.state).value, extra, journalBytes)
    ensures Inv(ExecCommit(s, id, extra, journalBytes, transaction, false))
  {
    var call := s.calls[id];
    assert CallOk(s, call);
    PhaseChange(s, id, call.(phase := Ended));
    var target := call.mutation(call.phase.state).value;
    if target != call.phase.state {
      NotLogged(s, id);
      assert Publishable(s.chunks, s.root, RefsOf(Inline(target)), false);
      PublishKeeps(s, ExecCommit(s, id, extra, journalBytes, transaction, false), id, Inline(target), false);
    }
  }

  lemma CommitKeeps(s: System, id: nat, extra: nat, journalBytes: nat, transaction: nat, lost: bool)
    requires Inv(s) && id in s.calls && s.calls[id].phase.Loaded?
    ensures Inv(ExecCommit(s, id, extra, journalBytes, transaction, lost))
  {
    var call := s.calls[id];
    assert CallOk(s, call);
    var next := call.mutation(call.phase.state);
    if lost {
      LostCommitKeeps(s, id, extra, journalBytes, transaction);
    } else if next.None? || |next.value.body| + extra > MAX_ALLOCATED_BYTES {
      PhaseChange(s, id, call.(phase := Ended));
    } else if call.phase.base.version != s.root.version {
      PhaseChange(s, id, call.(phase := Ended));
      ConflictKeeps(s, id);
    } else if Fits(s, next.value, extra, journalBytes) {
      InlineCommitKeeps(s, id, extra, journalBytes, transaction);
    } else {
      FenceKeeps(s, id, extra, journalBytes, transaction);
    }
  }

  /** Advancing the fence keeps the published state and starts a cleanup that spares it. */
  lemma FenceKeeps(s: System, id: nat, extra: nat, journalBytes: nat, transaction: nat)
    requires Inv(s) && id in s.calls && s.calls[id].phase.Loaded?
    requires s.calls[id].phase.base.version == s.root.version
    requires s.calls[id].mutation(s.calls[id].phase.state).Some?
    requires var target := s.calls[id].mutation(s.calls[id].phase.state).value;
             |target.body| + extra <= MAX_ALLOCATED_BYTES && !Fits(s, target, extra, journalBytes)
    ensures Inv(ExecCommit(s, id, extra, journalBytes, transaction, false))
  {
    var call := s.calls[id];
    assert CallOk(s, call);
    var s' := ExecCommit(s, id, extra, journalBytes, transaction, false);
    CallsAfterMove(s, s');
    var refs := RefsOf(s.root.payload);
    forall cleaner | cleaner in s'.cleaners
      ensures cleaner.fence <= s'.root.fence && Safe(s'.chunks, refs, cleaner)
    {
      if cleaner in s.cleaners {
        assert Safe(s.chunks, refs, cleaner);
      }
    }
    assert RootOk(s');
    assert StagedOk(s'.chunks, s'.calls[id].phase);
    assert CallsOk(s');
    forall r | r in s'.flight && r.PutRoot? ensures PutOk(s', r) {
      assert PutOk(s, r);
    }
    assert FlightOk(s');
    assert Chain(s');
    NotLogged(s, id);
    assert Once(s');
  }

  // ----- Chunks -----

  /** Creating an object under an unused name changes no existing object. */
  lemma GrowKeeps(s: System, name: Name, chunk: Chunk)
    requires Inv(s) && name !in s.chunks && chunk.uid == s.nextUid
    ensures Inv(s.(chunks := s.chunks[name := chunk], nextUid := s.nextUid + 1))
  {
    var s' := s.(chunks := s.chunks[name := chunk], nextUid := s.nextUid + 1);
    forall cleaner | cleaner in s'.cleaners ensures Safe(s'.chunks, RefsOf(s'.root.payload), cleaner) {
      assert Safe(s.chunks, RefsOf(s.root.payload), cleaner);
    }
    forall id | id in s'.calls ensures CallOk(s', s'.calls[id]) {
      assert CallOk(s, s.calls[id]);
    }
    forall r | r in s'.flight && r.PutRoot? ensures PutOk(s', r) {
      assert PutOk(s, r);
      if r.expected == s.root.version && r.publisher.Some? {
        var reused :| Publishable(s.chunks, s.root, RefsOf(r.payload), reused);
        assert Publishable(s'.chunks, s'.root, RefsOf(r.payload), reused);
      }
    }
  }

  /** The next reference, to the chunk just created, extends what is staged. */
  lemma StagedGrows(chunks: map<Name, Chunk>, phase: Phase, name: Name, chunk: Chunk)
    requires phase.Staging? && !phase.reused && StagedOk(chunks, phase) && name !in chunks
    requires |phase.refs| < PieceCount(|phase.target.body|)
    requires chunk.generation == phase.base.fence && chunk.content == Piece(phase.target.body, |phase.refs|)
    ensures StagedOk(chunks[name := chunk], phase.(refs := phase.refs + [Ref(name, chunk.uid, chunk.content)]))
  {
  }

  lemma CreateChunkKeeps(s: System, id: nat, lost: bool)
    requires Inv(s) && CanCreateChunk(s, id)
    ensures Inv(ExecCreateChunk(s, id, lost))
  {
    var call := s.calls[id];
    assert CallOk(s, call);
    var Staging(base, target, refs, transaction, reused) := call.phase;
    var name := Name(transaction, |refs|);
    var content := Piece(target.body, |refs|);
    if lost {
      LoseKeeps(s, id, PutChunk(name, base.fence, content));
    } else if name in s.chunks {
      PhaseChange(s, id, call.(phase := Ended));
    } else {
      StageKeeps(s, id, name, Chunk(s.nextUid, base.fence, content));
    }
  }

  lemma StageKeeps(s: System, id: nat, name: Name, chunk: Chunk)
    requires Inv(s) && CanCreateChunk(s, id) && name !in s.chunks && chunk.uid == s.nextUid
    requires var phase := s.calls[id].phase;
             chunk.generation == phase.base.fence && chunk.content == Piece(phase.target.body, |phase.refs|)
    ensures var phase := s.calls[id].phase;
            var next := phase.(refs := phase.refs + [Ref(name, chunk.uid, chunk.content)]);
            Inv(WithPhase(s, id, next).(chunks := s.chunks[name := chunk], nextUid := s.nextUid + 1))
  {
    var phase := s.calls[id].phase;
    assert CallOk(s, s.calls[id]);
    GrowKeeps(s, name, chunk);
    if phase.base.version == s.root.version {
      StagedGrows(s.chunks, phase, name, chunk);
    }
    var next := phase.(refs := phase.refs + [Ref(name, chunk.uid, chunk.content)]);
    PhaseChange(s.(chunks := s.chunks[name := chunk], nextUid := s.nextUid + 1), id, s.calls[id].(phase := next));
  }

  lemma ExecPublishKeeps(s: System, id: nat, lost: bool)
    requires Inv(s) && id in s.calls && Complete(s.calls[id].phase)
    ensures Inv(ExecPublish(s, id, lost))
  {
    var call := s.calls[id];
    assert CallOk(s, call);
    var Staging(base, target, refs, transaction, reused) := call.phase;
    var payload := Sharded(refs, target.journal);
    if base.version == s.root.version {
      assert StagedOk(s.chunks, call.phase);
      if !reused {
        JoinPieces(target.body, Digests(refs));
      }
      assert Logical(payload) == target;
      assert Publishable(s.chunks, s.root, RefsOf(payload), reused);
    }
    if lost {
      LoseKeeps(s, id, PutRoot(base.version, base.fence, payload, Some(id)));
    } else if base.version != s.root.version {
      ConflictKeeps(s, id);
    } else {
      NotLogged(s, id);
      PublishKeeps(s, ExecPublish(s, id, lost), id, payload, reused);
    }
  }

  // ----- Requests in flight -----

  lemma SweepKeeps(s: System, cleaner: Cleaner, name: Name)
    requires Inv(s)
    ensures Inv(ExecSweep(s, cleaner, name))
  {
    var s' := ExecSweep(s, cleaner, name);
    forall id | id in s'.calls ensures CallOk(s', s'.calls[id]) {
      assert CallOk(s, s.calls[id]);
    }
    forall r | r in s'.flight && r.PutRoot? ensures PutOk(s', r) {
      assert PutOk(s, r);
    }
  }

  lemma ForgetKeeps(s: System, request: Request)
    requires Inv(s)
    ensures Inv(s.(flight := s.flight - {request}))
  {
    var s' := s.(flight := s.flight - {request});
    forall id | id in s'.calls ensures CallOk(s', s'.calls[id]) {
      assert CallOk(s, s.calls[id]);
    }
    forall r | r in s'.flight && r.PutRoot? ensures PutOk(s', r) {
      assert PutOk(s, r);
    }
  }

  /** A delete sent by any cleanup, however late, hits no chunk that is or can become published. */
  lemma DropKeeps(s: System, r: Request)
    requires Inv(s) && r in s.flight && r.DropChunk?
    requires r.name in s.chunks && s.chunks[r.name].uid == r.uid
    ensures Inv(s.(flight := s.flight - {r}, chunks := s.chunks - {r.name}))
  {
    ForgetKeeps(s, r);
    var s0 := s.(flight := s.flight - {r});
    var s' := s0.(chunks := s.chunks - {r.name});
    assert s.chunks[r.name].generation < r.cleaner.fence <= s.root.fence;
    assert Safe(s.chunks, RefsOf(s.root.payload), r.cleaner);
    forall cleaner | cleaner in s'.cleaners ensures Safe(s'.chunks, RefsOf(s'.root.payload), cleaner) {
      assert Safe(s.chunks, RefsOf(s.root.payload), cleaner);
    }
    forall id | id in s'.calls ensures CallOk(s', s'.calls[id]) {
      assert CallOk(s0, s0.calls[id]);
    }
    forall q | q in s'.flight && q.PutRoot? ensures PutOk(s', q) {
      assert PutOk(s0, q);
      if q.expected == s.root.version && q.publisher.Some? {
        var reused :| Publishable(s.chunks, s.root, RefsOf(q.payload), reused);
        assert Publishable(s'.chunks, s'.root, RefsOf(q.payload), reused);
      }
    }
  }

  lemma DeliverPutKeeps(s: System, r: Request)
    requires Inv(s) && r in s.flight && r.PutRoot? && r.expected == s.root.version
    ensures Inv(ExecDeliver(s, r))
  {
    ForgetKeeps(s, r);
    var s0 := s.(flight := s.flight - {r});
    var s' := ExecDeliver(s, r);
    assert PutOk(s, r);
    if r.publisher.Some? {
      var reused :| Publishable(s.chunks, s.root, RefsOf(r.payload), reused);
      assert Finished(s, r.publisher.value);
      PublishKeeps(s0, s', r.publisher.value, r.payload, reused);
    } else {
      CallsAfterMove(s0, s');
      forall cleaner | cleaner in s'.cleaners ensures Safe(s'.chunks, RefsOf(s'.root.payload), cleaner) {
        assert Safe(s.chunks, RefsOf(s.root.payload), cleaner);
      }
      forall q | q in s'.flight && q.PutRoot? ensures PutOk(s', q) {
        assert PutOk(s0, q);
      }
    }
  }

  lemma DeliverKeeps(s: System, r: Request)
    requires Inv(s) && r in s.flight
    ensures Inv(ExecDeliver(s, r))
  {
    ForgetKeeps(s, r);
    var s0 := s.(flight := s.flight - {r});
    match r {
      case PutRoot(expected, _, _, _) =>
        if expected == s.root.version {
          DeliverPutKeeps(s, r);
        }
      case PutChunk(name, generation, content) =>
        if name !in s.chunks {
          GrowKeeps(s0, name, Chunk(s.nextUid, generation, content));
        }
      case DropChunk(name, uid, _) =>
        if name in s.chunks && s.chunks[name].uid == uid {
          DropKeeps(s, r);
        }
    }
  }

  lemma TouchKeeps(s: System)
    requires Inv(s)
    ensures Inv(Exec(s, Touch))
  {
    var s' := Exec(s, Touch);
    CallsAfterMove(s, s');
    forall cleaner | cleaner in s'.cleaners ensures Safe(s'.chunks, RefsOf(s'.root.payload), cleaner) {
      assert Safe(s.chunks, RefsOf(s.root.payload), cleaner);
    }
    forall r | r in s'.flight && r.PutRoot? ensures PutOk(s', r) {
      assert PutOk(s, r);
    }
  }

  lemma BeginKeeps(s: System, id: nat, mutation: Mutation)
    requires Inv(s) && id !in s.calls
    ensures Inv(Exec(s, Begin(id, mutation)))
  {
    var s' := Exec(s, Begin(id, mutation));
    forall k | k in s'.calls ensures CallOk(s', s'.calls[k]) {
      assert k != id ==> CallOk(s, s.calls[k]);
    }
    forall r | r in s'.flight && r.PutRoot? ensures PutOk(s', r) {
      assert PutOk(s, r);
    }
  }

  // ----- Every step, every run -----

  /** A step of one call, up to its commit. */
  predicate Loads(step: Step) {
    step.Begin? || step.ReadRoot? || step.ReadChunk? || step.Recheck? || step.Crash?
  }

  lemma LoadingKeeps(s: System, step: Step)
    requires Inv(s) && Loads(step)
    ensures Inv(Exec(s, step))
  {
    match step {
      case Begin(id, mutation) =>
        if id !in s.calls { BeginKeeps(s, id, mutation); }
      case ReadRoot(id) =>
        if id in s.calls && s.calls[id].phase.Waiting? { ReadRootKeeps(s, id); }
      case ReadChunk(id) =>
        if id in s.calls && s.calls[id].phase.Reading? { ReadChunkKeeps(s, id); }
      case Recheck(id) =>
        if id in s.calls && s.calls[id].phase.Missed? { RecheckKeeps(s, id); }
      case Crash(id) => CrashKeeps(s, id);
    }
  }

  lemma CrashKeeps(s: System, id: nat)
    requires Inv(s)
    ensures Inv(Exec(s, Crash(id)))
  {
    if id in s.calls {
      if !Finished(s, id) {
        PhaseChange(s, id, s.calls[id].(phase := Ended));
      } else if s.calls[id].phase.Ended? {
        assert s.calls[id := s.calls[id].(phase := Ended)] == s.calls;
      }
    }
  }

  lemma CommittingKeeps(s: System, step: Step)
    requires Inv(s) && (step.Commit? || step.CreateChunk? || step.Publish?)
    ensures Inv(Exec(s, step))
  {
    match step {
      case Commit(id, extra, journalBytes, transaction, lost) =>
        if id in s.calls && s.calls[id].phase.Loaded? {
          CommitKeeps(s, id, extra, journalBytes, transaction, lost);
        }
      case CreateChunk(id, lost) =>
        if CanCreateChunk(s, id) { CreateChunkKeeps(s, id, lost); }
      case Publish(id, lost) =>
        if id in s.calls && Complete(s.calls[id].phase) { ExecPublishKeeps(s, id, lost); }
    }
  }

  lemma StepKeeps(s: System, step: Step)
    requires Inv(s)
    ensures Inv(Exec(s, step))
  {
    if Loads(step) {
      LoadingKeeps(s, step);
    } else if step.Commit? || step.CreateChunk? || step.Publish? {
      CommittingKeeps(s, step);
    } else {
      match step {
        case Sweep(cleaner, name) => SweepKeeps(s, cleaner, name);
        case Deliver(request) => if request in s.flight { DeliverKeeps(s, request); }
        case Touch => TouchKeeps(s);
      }
    }
  }

  lemma InitHolds(s: System)
    requires Init(s)
    ensures Inv(s)
  {
  }

  /** The invariant holds in every state of every run. */
  lemma {:induction false} RunKeeps(s: System, steps: seq<Step>)
    requires Inv(s)
    ensures Inv(Run(s, steps))
    decreases |steps|
  {
    if |steps| > 0 {
      StepKeeps(s, steps[0]);
      RunKeeps(Exec(s, steps[0]), steps[1..]);
    }
  }
}
