/**
  The fenced, sharded history store as a transition system.

  Any number of mutation calls run concurrently against one root object with a
  resource-version compare-and-swap and a set of immutable chunk objects. A
  call loads a state, mutates it and commits it: directly while the state fits
  in the root, otherwise by advancing the root fence, creating chunks and
  publishing a manifest with a second compare-and-swap. Cleanup runs at any
  speed, forever after it starts. A request whose response is lost stays in
  flight and may take effect at any later time, or never.
 */
module ShardedStore {
  import opened Basics
  import opened Chunking

  const MAX_ATTEMPTS := 5
  const MAX_INLINE_BYTES := 768 * 1024
  const MAX_JOURNAL_BYTES := 256 * 1024

  // ----- Objects -----

  /** The pending scale decision, opaque to storage. */
  type Journal = Option<nat>

  /** One logical state: encoded model histories and the journal. */
  datatype State = State(body: Bytes, journal: Journal)

  datatype Name = Name(transaction: nat, index: nat)
  datatype Chunk = Chunk(uid: nat, generation: nat, content: Bytes)

  /** A digest identifies its bytes, so the reference carries them. */
  datatype Ref = Ref(name: Name, uid: nat, digest: Bytes)
  datatype Payload = Inline(state: State) | Sharded(refs: seq<Ref>, journal: Journal)
  datatype Root = Root(version: nat, fence: nat, payload: Payload)

  function Digests(refs: seq<Ref>): (pieces: seq<Bytes>)
    ensures |pieces| == |refs|
  {
    seq(|refs|, i requires 0 <= i < |refs| => refs[i].digest)
  }

  function Names(refs: seq<Ref>): (names: set<Name>)
    ensures forall ref :: ref in refs ==> ref.name in names
  {
    set ref | ref in refs :: ref.name
  }

  /** The chunks a root payload refers to. */
  function RefsOf(payload: Payload): seq<Ref> {
    if payload.Sharded? then payload.refs else []
  }

  /** The state a root payload stands for. */
  function Logical(payload: Payload): State {
    match payload
    case Inline(state) => state
    case Sharded(refs, journal) => State(Join(Digests(refs)), journal)
  }

  // ----- Calls, cleanups and requests in flight -----

  /** A mutation either declines (nothing to change, or an error) or gives the next state. */
  type Mutation = State -> Option<State>

  datatype Phase =
    | Waiting                                            // about to read the root
    | Reading(base: Root, gathered: Bytes, count: nat)   // count chunks read so far
    | Missed(base: Root)                                 // a chunk was absent or different
    | Corrupt                                            // reported as invalid data
    | Loaded(base: Root, state: State)
    | Staging(base: Root, target: State, refs: seq<Ref>, transaction: nat, reused: bool)
    | Published
    | Ended

  datatype Call = Call(mutation: Mutation, attempt: nat, phase: Phase)

  /** A cleanup deletes older chunks outside its keep set. */
  datatype Cleaner = Cleaner(fence: nat, keep: set<Name>)

  datatype Request =
    | PutRoot(expected: nat, fence: nat, payload: Payload, publisher: Option<nat>)
    | PutChunk(name: Name, generation: nat, content: Bytes)
    | DropChunk(name: Name, uid: nat, cleaner: Cleaner)

  datatype Entry = Entry(call: Option<nat>, state: State)

  /** `log` records every published state, oldest first. */
  datatype System = System(
    root: Root,
    chunks: map<Name, Chunk>,
    nextUid: nat,
    calls: map<nat, Call>,
    cleaners: set<Cleaner>,
    flight: set<Request>,
    log: seq<Entry>)

  datatype Step =
    | Begin(id: nat, mutation: Mutation)
    | ReadRoot(id: nat)
    | ReadChunk(id: nat)
    | Recheck(id: nat)
    | Commit(id: nat, extra: nat, journalBytes: nat, transaction: nat, lost: bool)
    | CreateChunk(id: nat, lost: bool)
    | Publish(id: nat, lost: bool)
    | Crash(id: nat)
    | Sweep(cleaner: Cleaner, name: Name)
    | Deliver(request: Request)
    | Touch

  // ----- Transitions -----

  function WithPhase(s: System, id: nat, phase: Phase): System
    requires id in s.calls
  {
    s.(calls := s.calls[id := s.calls[id].(phase := phase)])
  }

  /** A conflict starts the next of five attempts; the sixth gives up. */
  function Conflict(s: System, id: nat): System
    requires id in s.calls
  {
    var call := s.calls[id];
    var next := if call.attempt < MAX_ATTEMPTS then call.(attempt := call.attempt + 1, phase := Waiting)
                else call.(phase := Ended);
    s.(calls := s.calls[id := next])
  }

  /** The response never arrives: the call ends, its request stays in flight. */
  function Lose(s: System, id: nat, request: Request): System
    requires id in s.calls
  {
    WithPhase(s, id, Ended).(flight := s.flight + {request})
  }

  predicate Matches(chunks: map<Name, Chunk>, ref: Ref) {
    ref.name in chunks && chunks[ref.name].uid == ref.uid && chunks[ref.name].content == ref.digest
  }

  function ExecReadRoot(s: System, id: nat): System
    requires id in s.calls && s.calls[id].phase.Waiting?
  {
    WithPhase(s, id,
      if s.root.payload.Inline? then Loaded(s.root, s.root.payload.state) else Reading(s.root, [], 0))
  }

  function ExecReadChunk(s: System, id: nat): System
    requires id in s.calls && s.calls[id].phase.Reading?
  {
    var Reading(base, gathered, count) := s.calls[id].phase;
    var refs := RefsOf(base.payload);
    if count >= |refs| then
      var journal := if base.payload.Sharded? then base.payload.journal else None;
      WithPhase(s, id, Loaded(base, State(gathered, journal)))
    else if Matches(s.chunks, refs[count]) then
      WithPhase(s, id, Reading(base, gathered + s.chunks[refs[count].name].content, count + 1))
    else
      WithPhase(s, id, Missed(base))
  }

  /** After a failed read the load restarts if the root moved and reports bad data if it did not. */
  function ExecRecheck(s: System, id: nat): System
    requires id in s.calls && s.calls[id].phase.Missed?
  {
    WithPhase(s, id, if s.root.version != s.calls[id].phase.base.version then Waiting else Corrupt)
  }

  /** The first root write of a commit: the whole state while it fits, else the next fence. */
  function ExecCommit(s: System, id: nat, extra: nat, journalBytes: nat, transaction: nat, lost: bool): System
    requires id in s.calls && s.calls[id].phase.Loaded?
  {
    var call := s.calls[id];
    var base, state := call.phase.base, call.phase.state;
    match call.mutation(state)
    case None => WithPhase(s, id, Ended)
    case Some(target) =>
      if |target.body| + extra > MAX_ALLOCATED_BYTES then
        WithPhase(s, id, Ended)
      else if base.payload.Inline? && |target.body| + extra <= MAX_INLINE_BYTES
              && journalBytes <= MAX_JOURNAL_BYTES then
        if target == state then WithPhase(s, id, Ended)
        else if lost then Lose(s, id, PutRoot(base.version, base.fence, Inline(target), Some(id)))
        else if base.version != s.root.version then Conflict(s, id)
        else WithPhase(s, id, Published).(
          root := Root(s.root.version + 1, base.fence, Inline(target)),
          log := s.log + [Entry(Some(id), target)])
      else if lost then
        Lose(s, id, PutRoot(base.version, base.fence + 1, base.payload, None))
      else if base.version != s.root.version then
        Conflict(s, id)
      else
        var fenced := Root(s.root.version + 1, base.fence + 1, base.payload);
        var reused := base.payload.Sharded? && state.body == target.body;
        var refs := if reused then RefsOf(base.payload) else [];
        WithPhase(s, id, Staging(fenced, target, refs, transaction, reused)).(
          root := fenced,
          cleaners := s.cleaners + {Cleaner(fenced.fence, Names(RefsOf(base.payload)))})
  }

  /** Every chunk of the target has been created, or the current ones are reused. */
  predicate Complete(phase: Phase) {
    phase.Staging? && (phase.reused || |phase.refs| == PieceCount(|phase.target.body|))
  }

  function ExecCreateChunk(s: System, id: nat, lost: bool): System
    requires id in s.calls && s.calls[id].phase.Staging? && !Complete(s.calls[id].phase)
    requires |s.calls[id].phase.refs| < PieceCount(|s.calls[id].phase.target.body|)
  {
    var Staging(base, target, refs, transaction, reused) := s.calls[id].phase;
    var name := Name(transaction, |refs|);
    var content := Piece(target.body, |refs|);
    if lost then Lose(s, id, PutChunk(name, base.fence, content))
    else if name in s.chunks then WithPhase(s, id, Ended)
    else WithPhase(s, id, Staging(base, target, refs + [Ref(name, s.nextUid, content)], transaction, reused)).(
      chunks := s.chunks[name := Chunk(s.nextUid, base.fence, content)],
      nextUid := s.nextUid + 1)
  }

  function ExecPublish(s: System, id: nat, lost: bool): System
    requires id in s.calls && Complete(s.calls[id].phase)
  {
    var Staging(base, target, refs, transaction, reused) := s.calls[id].phase;
    var payload := Sharded(refs, target.journal);
    if lost then Lose(s, id, PutRoot(base.version, base.fence, payload, Some(id)))
    else if base.version != s.root.version then Conflict(s, id)
    else WithPhase(s, id, Published).(
      root := Root(s.root.version + 1, base.fence, payload),
      cleaners := s.cleaners + {Cleaner(base.fence, Names(refs))},
      log := s.log + [Entry(Some(id), target)])
  }

  /** One listed chunk: older generation, not kept, so a conditional delete is sent. */
  function ExecSweep(s: System, cleaner: Cleaner, name: Name): System {
    if cleaner in s.cleaners && name in s.chunks
       && s.chunks[name].generation < cleaner.fence && name !in cleaner.keep
    then s.(flight := s.flight + {DropChunk(name, s.chunks[name].uid, cleaner)})
    else s
  }

  /** The API server executes a request in flight, at most once. */
  function ExecDeliver(s: System, request: Request): System
    requires request in s.flight
  {
    var s0 := s.(flight := s.flight - {request});
    match request
    case PutRoot(expected, fence, payload, publisher) =>
      if expected != s.root.version then s0
      else
        var root := Root(s.root.version + 1, fence, payload);
        if publisher.None? then s0.(root := root)
        else s0.(root := root, log := s.log + [Entry(publisher, Logical(payload))])
    case PutChunk(name, generation, content) =>
      if name in s.chunks then s0
      else s0.(chunks := s.chunks[name := Chunk(s.nextUid, generation, content)], nextUid := s.nextUid + 1)
    case DropChunk(name, uid, _) =>
      if name in s.chunks && s.chunks[name].uid == uid then s0.(chunks := s.chunks - {name}) else s0
  }

  predicate CanCreateChunk(s: System, id: nat) {
    && id in s.calls && s.calls[id].phase.Staging? && !Complete(s.calls[id].phase)
    && |s.calls[id].phase.refs| < PieceCount(|s.calls[id].phase.target.body|)
  }

  /** One atomic step; a step that is not enabled changes nothing. */
  function Exec(s: System, step: Step): System {
    match step
    case Begin(id, mutation) =>
      if id in s.calls then s else s.(calls := s.calls[id := Call(mutation, 1, Waiting)])
    case ReadRoot(id) =>
      if id in s.calls && s.calls[id].phase.Waiting? then ExecReadRoot(s, id) else s
    case ReadChunk(id) =>
      if id in s.calls && s.calls[id].phase.Reading? then ExecReadChunk(s, id) else s
    case Recheck(id) =>
      if id in s.calls && s.calls[id].phase.Missed? then ExecRecheck(s, id) else s
    case Commit(id, extra, journalBytes, transaction, lost) =>
      if id in s.calls && s.calls[id].phase.Loaded?
      then ExecCommit(s, id, extra, journalBytes, transaction, lost) else s
    case CreateChunk(id, lost) =>
      if CanCreateChunk(s, id) then ExecCreateChunk(s, id, lost) else s
    case Publish(id, lost) =>
      if id in s.calls && Complete(s.calls[id].phase) then ExecPublish(s, id, lost) else s
    case Crash(id) =>
      if id in s.calls && !s.calls[id].phase.Published? then WithPhase(s, id, Ended) else s
    case Sweep(cleaner, name) => ExecSweep(s, cleaner, name)
    case Deliver(request) => if request in s.flight then ExecDeliver(s, request) else s
    case Touch => s.(root := s.root.(version := s.root.version + 1))   // unrelated keys or metadata
  }

  function Run(s: System, steps: seq<Step>): System
    decreases |steps|
  {
    if |steps| == 0 then s else Run(Exec(s, steps[0]), steps[1..])
  }

  /** A freshly created root holds one inline state. */
  ghost predicate Init(s: System) {
    && s.root.payload.Inline?
    && s.calls == map[] && s.cleaners == {} && s.flight == {}
    && s.log == [Entry(None, s.root.payload.state)]
    && forall name :: name in s.chunks ==> s.chunks[name].uid < s.nextUid
  }

  // ----- Invariant -----

  ghost predicate AllMatch(chunks: map<Name, Chunk>, refs: seq<Ref>) {
    forall i :: 0 <= i < |refs| ==> Matches(chunks, refs[i])
  }

  /** No chunk of the list may be deleted by this cleanup. */
  ghost predicate Safe(chunks: map<Name, Chunk>, refs: seq<Ref>, cleaner: Cleaner) {
    forall i :: 0 <= i < |refs| ==>
      refs[i].name in cleaner.keep || (refs[i].name in chunks && chunks[refs[i].name].generation >= cleaner.fence)
  }

  /** The published chunks exist unchanged, and every cleanup spares them. */
  ghost predicate RootOk(s: System) {
    AllMatch(s.chunks, RefsOf(s.root.payload)) && CleanersOk(s.chunks, s.root, s.cleaners)
  }

  ghost predicate CleanersOk(chunks: map<Name, Chunk>, root: Root, cleaners: set<Cleaner>) {
    forall cleaner :: cleaner in cleaners ==>
      cleaner.fence <= root.fence && Safe(chunks, RefsOf(root.payload), cleaner)
  }

  ghost predicate UidsOk(s: System) {
    && (forall name :: name in s.chunks ==> s.chunks[name].uid < s.nextUid)
    && (forall r :: r in s.flight && r.DropChunk? ==>
          && r.uid < s.nextUid && r.cleaner in s.cleaners && r.name !in r.cleaner.keep
          && (r.name in s.chunks && s.chunks[r.name].uid == r.uid ==> s.chunks[r.name].generation < r.cleaner.fence))
  }

  /** References that may become the published manifest on top of the current root. */
  ghost predicate Publishable(chunks: map<Name, Chunk>, root: Root, refs: seq<Ref>, reused: bool) {
    && AllMatch(chunks, refs)
    && (reused ==> root.payload.Sharded? && refs == root.payload.refs)
    && (!reused ==> forall i :: 0 <= i < |refs| ==>
          refs[i].name in chunks && chunks[refs[i].name].generation >= root.fence)
  }

  ghost predicate StagedOk(chunks: map<Name, Chunk>, phase: Phase)
    requires phase.Staging?
  {
    && Publishable(chunks, phase.base, phase.refs, phase.reused)
    && (!phase.reused ==>
          && |phase.refs| <= PieceCount(|phase.target.body|)
          && forall i :: 0 <= i < |phase.refs| ==> phase.refs[i].digest == Piece(phase.target.body, i))
    && (phase.reused ==> Join(Digests(phase.refs)) == phase.target.body)
  }

  function BaseOf(phase: Phase): Option<Root> {
    match phase
    case Reading(base, _, _) => Some(base)
    case Missed(base) => Some(base)
    case Loaded(base, _) => Some(base)
    case Staging(base, _, _, _, _) => Some(base)
    case _ => None
  }

  /** A root version identifies one root: whoever still holds it holds the current one. */
  ghost predicate BaseOk(root: Root, base: Root) {
    base.version <= root.version && (base.version == root.version ==> base == root)
  }

  ghost predicate CallOk(s: System, call: Call) {
    CallFits(s.root, s.chunks, call)
  }

  ghost predicate CallFits(root: Root, chunks: map<Name, Chunk>, call: Call) {
    && (BaseOf(call.phase).Some? ==> BaseOk(root, BaseOf(call.phase).value))
    && !call.phase.Corrupt?
    && match call.phase
       case Reading(base, gathered, count) =>
         && count <= |RefsOf(base.payload)|
         && gathered == Join(Digests(RefsOf(base.payload)[..count]))
         && base.payload.Sharded?
       case Missed(base) => base.version != root.version
       case Loaded(base, state) => state == Logical(base.payload)
       case Staging(base, target, refs, _, _) =>
         && call.mutation(Logical(base.payload)) == Some(target)
         && (base.version == root.version ==> StagedOk(chunks, call.phase))
       case _ => true
  }

  ghost predicate CallsOk(s: System) {
    forall id :: id in s.calls ==> CallOk(s, s.calls[id])
  }

  /** A root write in flight that can still win is a fence advance or one call's own publication. */
  ghost predicate PutOk(s: System, r: Request)
    requires r.PutRoot?
  {
    && r.expected <= s.root.version
    && (r.publisher.Some? ==> r.publisher.value in s.calls)
    && (r.expected == s.root.version ==>
          if r.publisher.None? then r.fence == s.root.fence + 1 && r.payload == s.root.payload
          else
            && r.fence == s.root.fence
            && s.calls[r.publisher.value].mutation(Logical(s.root.payload)) == Some(Logical(r.payload))
            && MayPublish(s.chunks, s.root, r.payload))
  }

  ghost predicate MayPublish(chunks: map<Name, Chunk>, root: Root, payload: Payload) {
    exists reused :: Publishable(chunks, root, RefsOf(payload), reused)
  }

  ghost predicate FlightOk(s: System) {
    forall r :: r in s.flight && r.PutRoot? ==> PutOk(s, r)
  }

  /** The published states form a chain of mutations ending in the current one. */
  ghost predicate Chain(s: System) {
    && |s.log| > 0
    && s.log[|s.log| - 1].state == Logical(s.root.payload)
    && forall k :: 1 <= k < |s.log| ==>
         && s.log[k].call.Some? && s.log[k].call.value in s.calls
         && s.calls[s.log[k].call.value].mutation(s.log[k - 1].state) == Some(s.log[k].state)
  }

  /** A call that may still publish has published nothing yet. */
  ghost predicate Once(s: System) {
    && (forall j, k :: 1 <= j < k < |s.log| ==> s.log[j].call != s.log[k].call)
    && (forall k :: 1 <= k < |s.log| ==> s.log[k].call.Some? && Finished(s, s.log[k].call.value))
    && (forall r :: r in s.flight && Publishes(r) ==>
          && Finished(s, r.publisher.value)
          && forall k :: 1 <= k < |s.log| ==> s.log[k].call != r.publisher)
    && (forall r, q :: r in s.flight && q in s.flight && Publishes(r) && Publishes(q) && r.publisher == q.publisher
          ==> r == q)
  }

  ghost predicate Publishes(r: Request) {
    r.PutRoot? && r.publisher.Some?
  }

  ghost predicate Finished(s: System, id: nat) {
    id in s.calls && (s.calls[id].phase.Published? || s.calls[id].phase.Ended?)
  }

  ghost predicate Inv(s: System) {
    RootOk(s) && UidsOk(s) && CallsOk(s) && FlightOk(s) && Chain(s) && Once(s)
  }
}
