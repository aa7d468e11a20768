/** Every interleaving of cached reads: the bounds hold and only recent completed reads are shared. */
module ObservationsRun {
  import opened Basics
  import opened Observations

  /** A read between its two locked sections. */
  datatype Pending = Pending(owner: string, fingerprint: string, count: int, ttl: int, maxAge: int, started: int,
                             hit: Option<Entry>)

  datatype Service = Service(reader: Pending, entry: Entry, checkedAt: int)

  /** `stored` logs what completed reads put in the cache, `services` what was answered from it. */
  datatype System = System(lru: seq<Entry>, open: seq<Pending>, stored: seq<Entry>, services: seq<Service>)

  datatype Step =
    | Begin(owner: string, fingerprint: string, count: int, ttl: int, maxAge: int, started: int)
    | Serve(read: nat, checkedAt: int)
    | Complete(read: nat, completed: int, data: Reading)
    | Forget(owner: string)

  function Init(): System {
    System([], [], [], [])
  }

  function DoBegin(s: System, p: Pending): System {
    if p.owner == "" || p.fingerprint == "" || p.ttl <= 0 then s
    else s.(lru := Looked(s.lru, p.owner, p.fingerprint, p.started),
            open := s.open + [p.(hit := Hit(s.lru, p.owner, p.fingerprint, p.started))])
  }

  predicate Within(t: int, e: Entry) {
    e.started <= t < e.expires
  }

  /** The cached snapshot is checked again once decoded. */
  ghost predicate Servable(p: Pending, checkedAt: int) {
    p.hit.Some? && Within(checkedAt, p.hit.value) && Reusable(p.hit.value.data, p.count, checkedAt, p.maxAge)
  }

  function EntryOf(p: Pending, data: Reading): Entry {
    Entry(p.owner, p.fingerprint, p.started, p.started + p.ttl, data)
  }

  ghost predicate Storable(p: Pending, completed: int, data: Reading) {
    && p.started <= completed < p.started + p.ttl && Reusable(data, p.count, completed, p.maxAge)
    && data.size <= MAX_ENTRY_BYTES
  }

  ghost function Exec(s: System, step: Step): System {
    match step
    case Begin(owner, fingerprint, count, ttl, maxAge, started) =>
      DoBegin(s, Pending(owner, fingerprint, count, ttl, maxAge, started, None))
    case Serve(i, checkedAt) =>
      if i < |s.open| && Servable(s.open[i], checkedAt)
      then s.(services := s.services + [Service(s.open[i], s.open[i].hit.value, checkedAt)])
      else s
    case Complete(i, completed, data) =>
      if i < |s.open| && Storable(s.open[i], completed, data)
      then s.(lru := Stored(s.lru, EntryOf(s.open[i], data)), stored := s.stored + [EntryOf(s.open[i], data)])
      else s
    case Forget(owner) => s.(lru := Without(s.lru, owner))
  }

  ghost function Run(s: System, steps: seq<Step>): System {
    if |steps| == 0 then s else Exec(Run(s, steps[..|steps| - 1]), steps[|steps| - 1])
  }

  // ----- The invariant -----

  ghost predicate Bounded(lru: seq<Entry>) {
    Distinct(lru) && |lru| <= MAX_ENTRIES && Total(lru) <= MAX_BYTES
  }

  ghost predicate PendingOk(p: Pending, stored: seq<Entry>) {
    p.hit.Some? ==> p.hit.value in stored && p.hit.value.owner == p.owner
                    && Usable(p.hit.value, p.fingerprint, p.started)
  }

  ghost predicate ServiceOk(x: Service, stored: seq<Entry>) {
    && x.entry in stored && x.entry.owner == x.reader.owner
    && Usable(x.entry, x.reader.fingerprint, x.reader.started) && Within(x.checkedAt, x.entry)
    && Reusable(x.entry.data, x.reader.count, x.checkedAt, x.reader.maxAge)
  }

  ghost predicate Inv(s: System) {
    && Bounded(s.lru)
    && (forall e :: e in s.lru ==> e in s.stored)
    && (forall p :: p in s.open ==> PendingOk(p, s.stored))
    && (forall x :: x in s.services ==> ServiceOk(x, s.stored))
  }

  lemma WithoutKeeps(lru: seq<Entry>, owner: string)
    requires Bounded(lru)
    ensures Bounded(Without(lru, owner))
  {
    WithoutDistinct(lru, owner);
    if Find(lru, owner).Some? {
      WithoutTotal(lru, Find(lru, owner).value);
    } else {
      FindNone(lru, owner);
      AbsentWithout(lru, owner);
    }
  }

  lemma LookedKeeps(lru: seq<Entry>, owner: string, fingerprint: string, started: int)
    requires Bounded(lru)
    ensures Bounded(Looked(lru, owner, fingerprint, started))
    ensures forall e :: e in Looked(lru, owner, fingerprint, started) ==> e in lru
  {
    WithoutKeeps(lru, owner);
    forall e: Entry | e in Without(lru, owner) ensures e in lru {
      WithoutMember(lru, owner, e);
    }
    if Find(lru, owner).Some? {
      var v := Find(lru, owner).value;
      WithoutTotal(lru, v);
      WithoutLacks(lru, owner);
      ConsTotal(v, Without(lru, owner));
      ConsDistinct(v, Without(lru, owner));
    }
  }

  lemma StoredKeeps(lru: seq<Entry>, e: Entry)
    requires Bounded(lru) && e.data.size <= MAX_ENTRY_BYTES
    ensures Bounded(Stored(lru, e))
    ensures forall x :: x in Stored(lru, e) ==> x in lru || x == e
  {
    var rest := Without(lru, e.owner);
    var kept := Trimmed(rest, e.data.size);
    WithoutKeeps(lru, e.owner);
    WithoutLacks(lru, e.owner);
    forall i | 0 <= i < |kept| ensures kept[i] in lru {
      assert kept[i] == rest[i];
      WithoutMember(lru, e.owner, rest[i]);
    }
    ConsTotal(e, kept);
    ConsDistinct(e, kept);
  }

  lemma BeginKeeps(s: System, p: Pending)
    requires Inv(s) && p.hit == None
    ensures Inv(DoBegin(s, p))
  {
    LookedKeeps(s.lru, p.owner, p.fingerprint, p.started);
    var h := Hit(s.lru, p.owner, p.fingerprint, p.started);
    assert h.Some? ==> h.value in s.lru;
  }

  lemma CompleteKeeps(s: System, i: nat, data: Reading)
    requires Inv(s) && i < |s.open| && data.size <= MAX_ENTRY_BYTES
    ensures Inv(s.(lru := Stored(s.lru, EntryOf(s.open[i], data)), stored := s.stored + [EntryOf(s.open[i], data)]))
  {
    var e := EntryOf(s.open[i], data);
    StoredKeeps(s.lru, e);
    forall p | p in s.open ensures PendingOk(p, s.stored + [e]) {
      assert PendingOk(p, s.stored);
    }
    forall x | x in s.services ensures ServiceOk(x, s.stored + [e]) {
      assert ServiceOk(x, s.stored);
    }
  }

  lemma StepKeeps(s: System, step: Step)
    requires Inv(s)
    ensures Inv(Exec(s, step))
  {
    match step
    case Begin(owner, fingerprint, count, ttl, maxAge, started) =>
      BeginKeeps(s, Pending(owner, fingerprint, count, ttl, maxAge, started, None));
    case Serve(i, checkedAt) =>
      if i < |s.open| {
        assert PendingOk(s.open[i], s.stored);
      }
    case Complete(i, completed, data) =>
      if i < |s.open| && Storable(s.open[i], completed, data) {
        CompleteKeeps(s, i, data);
      }
    case Forget(owner) =>
      WithoutKeeps(s.lru, owner);
      forall e: Entry | e in Without(s.lru, owner) ensures e in s.lru {
        WithoutMember(s.lru, owner, e);
      }
  }

  lemma {:induction false} RunKeeps(steps: seq<Step>)
    ensures Inv(Run(Init(), steps))
  {
    if |steps| > 0 {
      RunKeeps(steps[..|steps| - 1]);
      StepKeeps(Run(Init(), steps[..|steps| - 1]), steps[|steps| - 1]);
    }
  }

  /** The cache never outgrows its entry and byte bounds. */
  lemma CacheStaysBounded(steps: seq<Step>)
    ensures var s := Run(Init(), steps); |s.lru| <= MAX_ENTRIES && Total(s.lru) <= MAX_BYTES && Distinct(s.lru)
  {
    RunKeeps(steps);
  }

  /**
    Whatever is answered from the cache was stored by a completed read of the same
    owner and fingerprint that began no later and had not expired, neither when this
    read began nor when the snapshot was checked.
   */
  lemma ServedAreRecent(steps: seq<Step>, i: nat)
    requires i < |Run(Init(), steps).services|
    ensures var s := Run(Init(), steps); ServiceOk(s.services[i], s.stored)
  {
    RunKeeps(steps);
    assert Run(Init(), steps).services[i] in Run(Init(), steps).services;
  }

  // ----- Newer and older reads -----

  /** Storing never replaces a newer observation of the same owner. */
  lemma StoreKeepsNewer(lru: seq<Entry>, e: Entry, v: Entry)
    requires e.data.size <= MAX_ENTRY_BYTES && Find(lru, e.owner) == Some(v)
    ensures var now := Find(Stored(lru, e), e.owner);
            now.Some? && now.value.started == Max(v.started, e.started)
  {
    if v.started <= e.started {
      var kept := Trimmed(Without(lru, e.owner), e.data.size);
      WithoutLacks(lru, e.owner);
      FindNone(kept, e.owner);
      FindCons(e, kept, e.owner);
    }
  }

  /**
    A whole undisturbed read leaves an observation at least as new as the one it
    found exactly when it began no earlier than that one: a read that took its start
    time first and the lock second evicts the newer entry and then stores its own.
   */
  lemma ReadKeepsNewerExactly(lru: seq<Entry>, e: Entry, v: Entry)
    requires e.data.size <= MAX_ENTRY_BYTES && Find(lru, e.owner) == Some(v)
    ensures var after := Stored(Looked(lru, e.owner, e.fingerprint, e.started), e);
            && Find(after, e.owner).Some?
            && (Find(after, e.owner).value.started >= v.started <==> e.started >= v.started)
  {
    var looked := Looked(lru, e.owner, e.fingerprint, e.started);
    FindWithout(lru, e.owner, e.owner);
    if Usable(v, e.fingerprint, e.started) {
      FindCons(v, Without(lru, e.owner), e.owner);
      StoreKeepsNewer(looked, e, v);
    } else {
      var kept := Trimmed(Without(looked, e.owner), e.data.size);
      WithoutLacks(looked, e.owner);
      FindNone(kept, e.owner);
      FindCons(e, kept, e.owner);
    }
  }

  /** In a bounded cache an owner's entry is the only one of that owner. */
  lemma OnlyEntry(lru: seq<Entry>, v: Entry, x: Entry)
    requires Distinct(lru) && v in lru && x in lru && x.owner == v.owner
    ensures x == v
  {
  }

  lemma StepMovesForward(s: System, step: Step, owner: string)
    requires Inv(s) && Find(s.lru, owner).Some? && Find(Exec(s, step).lru, owner).Some?
    ensures Find(Exec(s, step).lru, owner).value.started >= Find(s.lru, owner).value.started
  {
    var v, x := Find(s.lru, owner).value, Find(Exec(s, step).lru, owner).value;
    match step
    case Begin(o, fingerprint, _, _, _, started) =>
      LookedKeeps(s.lru, o, fingerprint, started);
      OnlyEntry(s.lru, v, x);
    case Serve(_, _) =>
    case Complete(i, completed, data) =>
      if i < |s.open| && Storable(s.open[i], completed, data) {
        var e := EntryOf(s.open[i], data);
        if e.owner == owner {
          StoreKeepsNewer(s.lru, e, v);
        } else {
          StoredKeeps(s.lru, e);
          OnlyEntry(s.lru, v, x);
        }
      }
    case Forget(o) =>
      WithoutMember(s.lru, o, x);
      OnlyEntry(s.lru, v, x);
  }

  /** The owner has a cached observation in every state on the way. */
  ghost predicate CachedThroughout(s: System, steps: seq<Step>, owner: string) {
    && Find(Run(s, steps).lru, owner).Some?
    && (|steps| > 0 ==> CachedThroughout(s, steps[..|steps| - 1], owner))
  }

  lemma {:induction false} RunFromKeeps(s: System, steps: seq<Step>)
    requires Inv(s)
    ensures Inv(Run(s, steps))
  {
    if |steps| > 0 {
      RunFromKeeps(s, steps[..|steps| - 1]);
      StepKeeps(Run(s, steps[..|steps| - 1]), steps[|steps| - 1]);
    }
  }

  /** In every run an owner's cached observation goes back in time only across a state in which it has none. */
  lemma {:induction false} CachedMovesForward(before: seq<Step>, steps: seq<Step>, owner: string)
    requires CachedThroughout(Run(Init(), before), steps, owner)
    ensures var s := Run(Init(), before);
            && Find(s.lru, owner).Some? && Find(Run(s, steps).lru, owner).Some?
            && Find(Run(s, steps).lru, owner).value.started >= Find(s.lru, owner).value.started
    decreases |steps|
  {
    var s := Run(Init(), before);
    if |steps| > 0 {
      var front := steps[..|steps| - 1];
      CachedMovesForward(before, front, owner);
      RunKeeps(before);
      RunFromKeeps(s, front);
      StepMovesForward(Run(s, front), steps[|steps| - 1], owner);
    }
  }

  lemma KeptIfMember(before: seq<Entry>, after: seq<Entry>, v: Entry)
    requires Distinct(before) && Find(before, v.owner) == Some(v)
    requires forall x :: x in after && x.owner == v.owner ==> x in before
    ensures Find(after, v.owner).Some? <==> v in after
  {
    FindNone(after, v.owner);
    if Find(after, v.owner).Some? {
      OnlyEntry(before, v, Find(after, v.owner).value);
    }
  }

  /**
    The new entry is stored, since none of its owner is newer, and among the others the
    entries up to and including this one leave no room for it.
   */
  ghost predicate Crowded(lru: seq<Entry>, e: Entry, v: Entry) {
    var found, rest := Find(lru, e.owner), Without(lru, e.owner);
    && (found.Some? ==> found.value.started <= e.started)
    && NoRoomUpTo(rest, v, e.data.size)
  }

  ghost predicate NoRoomUpTo(rest: seq<Entry>, v: Entry, need: nat) {
    exists k :: 0 <= k < |rest| && rest[k] == v && !Fits(rest[..k + 1], need)
  }

  lemma {:induction false} TotalPrefix(lru: seq<Entry>, k: nat)
    requires k <= |lru|
    ensures Total(lru[..k]) <= Total(lru)
  {
    if k < |lru| {
      TotalPrefix(lru[..|lru| - 1], k);
      assert lru[..|lru| - 1][..k] == lru[..k];
    } else {
      assert lru[..k] == lru;
    }
  }

  lemma FitsPrefix(lru: seq<Entry>, j: nat, k: nat, need: nat)
    requires j <= k <= |lru| && Fits(lru[..k], need)
    ensures Fits(lru[..j], need)
  {
    TotalPrefix(lru[..k], j);
    assert lru[..k][..j] == lru[..j];
  }

  /** Trimming keeps exactly the entries up to which there is room. */
  lemma TrimmedKeeps(rest: seq<Entry>, k: nat, need: nat)
    requires need <= MAX_ENTRY_BYTES && k < |rest|
    ensures k < |Trimmed(rest, need)| <==> Fits(rest[..k + 1], need)
  {
    var n := |Trimmed(rest, need)|;
    assert Trimmed(rest, need) == rest[..n];
    if k < n {
      FitsPrefix(rest, k + 1, n, need);
    } else if Fits(rest[..k + 1], need) {
      FitsPrefix(rest, n + 1, k + 1, need);
    }
  }

  lemma TrimmedAway(rest: seq<Entry>, v: Entry, need: nat)
    requires need <= MAX_ENTRY_BYTES && Distinct(rest) && v in rest
    ensures v !in Trimmed(rest, need) <==> NoRoomUpTo(rest, v, need)
  {
    var n := |Trimmed(rest, need)|;
    if NoRoomUpTo(rest, v, need) {
      var k :| 0 <= k < |rest| && rest[k] == v && !Fits(rest[..k + 1], need);
      TrimmedKeeps(rest, k, need);
      PrefixMember(rest, n, k);
    } else {
      var k :| 0 <= k < |rest| && rest[k] == v;
      TrimmedKeeps(rest, k, need);
      PrefixMember(rest, n, k);
    }
  }

  lemma PrefixMember(rest: seq<Entry>, n: nat, k: nat)
    requires Distinct(rest) && n <= |rest| && k < |rest|
    ensures rest[k] in rest[..n] <==> k < n
  {
    if k < n {
      assert rest[..n][k] == rest[k];
    }
  }

  lemma CrowdedOut(lru: seq<Entry>, e: Entry, v: Entry)
    requires Distinct(lru) && v in lru && v.owner != e.owner && e.data.size <= MAX_ENTRY_BYTES
    ensures v !in Stored(lru, e) <==> Crowded(lru, e, v)
  {
    WithoutMember(lru, e.owner, v);
    WithoutDistinct(lru, e.owner);
    TrimmedAway(Without(lru, e.owner), v, e.data.size);
  }

  /**
    An owner loses its cached observation exactly by being forgotten, by a lookup that
    asks for something else, began earlier or began after the expiry, or by another
    owner's stored entry for which the entries up to it leave no room.
   */
  lemma DroppedExactly(s: System, step: Step, v: Entry)
    requires Inv(s) && Find(s.lru, v.owner) == Some(v)
    ensures Find(Exec(s, step).lru, v.owner).None?
       <==> match step
            case Begin(o, fingerprint, _, ttl, _, started) =>
              o == v.owner && o != "" && fingerprint != "" && ttl > 0 && !Usable(v, fingerprint, started)
            case Serve(_, _) => false
            case Complete(i, completed, data) =>
              && i < |s.open| && Storable(s.open[i], completed, data) && s.open[i].owner != v.owner
              && Crowded(s.lru, EntryOf(s.open[i], data), v)
            case Forget(o) => o == v.owner
  {
    match step
    case Begin(o, fingerprint, _, _, _, started) =>
      LookedKeeps(s.lru, o, fingerprint, started);
      KeptIfMember(s.lru, Looked(s.lru, o, fingerprint, started), v);
      WithoutMember(s.lru, o, v);
    case Serve(_, _) =>
    case Complete(i, completed, data) =>
      if i < |s.open| && Storable(s.open[i], completed, data) {
        var e := EntryOf(s.open[i], data);
        if e.owner == v.owner {
          StoreKeepsNewer(s.lru, e, v);
        } else {
          StoredKeeps(s.lru, e);
          KeptIfMember(s.lru, Stored(s.lru, e), v);
          CrowdedOut(s.lru, e, v);
        }
      }
    case Forget(o) =>
      forall x: Entry | x in Without(s.lru, o) ensures x in s.lru {
        WithoutMember(s.lru, o, x);
      }
      KeptIfMember(s.lru, Without(s.lru, o), v);
      WithoutMember(s.lru, o, v);
  }

  /** The late read exists: a newer cached observation is lost to an older one. */
  lemma LateLookupLosesNewer()
    ensures exists lru: seq<Entry>, e: Entry, v: Entry ::
              && Bounded(lru) && e.data.size <= MAX_ENTRY_BYTES && Find(lru, e.owner) == Some(v)
              && Find(Stored(Looked(lru, e.owner, e.fingerprint, e.started), e), e.owner).Some?
              && Find(Stored(Looked(lru, e.owner, e.fingerprint, e.started), e), e.owner).value.started < v.started
  {
    var data := Reading([[1]], 1);
    var v, e := Entry("a", "f", 10, 20, data), Entry("a", "f", 5, 15, data);
    assert [v][..0] == [];
    assert Total([v]) == Total([v][..0]) + 1;
    assert Find([v], "a") == Some(v);
    ReadKeepsNewerExactly([v], e, v);
    assert Bounded([v]);
  }
}
