/**
  The shared observation cache: a map, a recency list and a byte count kept in
  agreement, bounded in entries and bytes. Instants are nanoseconds.
 */
module Observations {
  import opened Basics

  const MAX_ENTRIES := 256
  const MAX_BYTES := 16 * 1024 * 1024
  const MAX_ENTRY_BYTES := 256 * 1024

  /** A completed metric read: the source timestamps of each metric, and its encoded size. */
  datatype Reading = Reading(times: seq<seq<int>>, size: nat)

  datatype Entry = Entry(owner: string, fingerprint: string, started: int, expires: int, data: Reading)

  // ----- The recency list as a value -----

  function Total(lru: seq<Entry>): (n: nat) {
    if |lru| == 0 then 0 else Total(lru[..|lru| - 1]) + lru[|lru| - 1].data.size
  }

  ghost predicate Distinct(lru: seq<Entry>) {
    forall i, j :: 0 <= i < j < |lru| ==> lru[i].owner != lru[j].owner
  }

  predicate Lacks(lru: seq<Entry>, owner: string) {
    forall i :: 0 <= i < |lru| ==> lru[i].owner != owner
  }

  function Find(lru: seq<Entry>, owner: string): (r: Option<Entry>)
    ensures r.Some? ==> r.value in lru && r.value.owner == owner
  {
    if |lru| == 0 then None
    else if lru[|lru| - 1].owner == owner then Some(lru[|lru| - 1])
    else Find(lru[..|lru| - 1], owner)
  }

  function Without(lru: seq<Entry>, owner: string): (r: seq<Entry>)
    ensures |r| <= |lru|
  {
    if |lru| == 0 then []
    else Without(lru[..|lru| - 1], owner) + (if lru[|lru| - 1].owner == owner then [] else [lru[|lru| - 1]])
  }

  lemma {:induction false} FindNone(lru: seq<Entry>, owner: string)
    ensures Find(lru, owner) == None <==> Lacks(lru, owner)
  {
    if |lru| > 0 {
      FindNone(lru[..|lru| - 1], owner);
    }
  }

  lemma {:induction false} WithoutMember(lru: seq<Entry>, owner: string, e: Entry)
    ensures e in Without(lru, owner) <==> e in lru && e.owner != owner
  {
    if |lru| > 0 {
      WithoutMember(lru[..|lru| - 1], owner, e);
      assert lru == lru[..|lru| - 1] + [lru[|lru| - 1]];
    }
  }

  /** Room for one more entry of the given size. */
  predicate Fits(lru: seq<Entry>, need: nat) {
    |lru| < MAX_ENTRIES && Total(lru) + need <= MAX_BYTES
  }

  /** Drop from the back until the new entry fits. */
  function Trimmed(lru: seq<Entry>, need: nat): (r: seq<Entry>)
    requires need <= MAX_ENTRY_BYTES
    ensures Fits(r, need) && r <= lru
    ensures r == lru || !Fits(lru[..|r| + 1], need)
  {
    if Fits(lru, need) then lru
    else
      var front := lru[..|lru| - 1];
      var r := Trimmed(front, need);
      assert r == front ==> lru[..|r| + 1] == lru;
      assert r != front ==> front[..|r| + 1] == lru[..|r| + 1];
      r
  }

  /** Same read, begun no earlier than the cached one and before it expired. */
  predicate Usable(v: Entry, fingerprint: string, started: int) {
    v.fingerprint == fingerprint && v.started <= started < v.expires
  }

  function Looked(lru: seq<Entry>, owner: string, fingerprint: string, started: int): seq<Entry> {
    match Find(lru, owner)
    case None => lru
    case Some(v) => if Usable(v, fingerprint, started) then [v] + Without(lru, owner) else Without(lru, owner)
  }

  function Hit(lru: seq<Entry>, owner: string, fingerprint: string, started: int): Option<Entry> {
    match Find(lru, owner)
    case None => None
    case Some(v) => if Usable(v, fingerprint, started) then Some(v) else None
  }

  function Stored(lru: seq<Entry>, e: Entry): seq<Entry>
    requires e.data.size <= MAX_ENTRY_BYTES
  {
    var found := Find(lru, e.owner);
    if found.Some? && found.value.started > e.started then lru
    else [e] + Trimmed(Without(lru, e.owner), e.data.size)
  }

  /** A complete set of timestamped metrics, none from the future and none too old. */
  ghost predicate Reusable(data: Reading, count: int, now: int, maxAge: int) {
    && count != 0 && |data.times| == count
    && (forall i :: 0 <= i < |data.times| ==> |data.times[i]| > 0)
    && (forall i, j :: 0 <= i < |data.times| && 0 <= j < |data.times[i]| ==> StampOk(data.times[i][j], now, maxAge))
  }

  predicate StampOk(stamp: int, now: int, maxAge: int) {
    stamp != 0 && stamp <= now && (maxAge > 0 ==> now - stamp <= maxAge)
  }

  method StampsOk(times: seq<int>, now: int, maxAge: int) returns (ok: bool)
    ensures ok <==> |times| > 0 && forall j :: 0 <= j < |times| ==> StampOk(times[j], now, maxAge)
  {
    if |times| == 0 {
      return false;
    }
    for j := 0 to |times|
      invariant forall k :: 0 <= k < j ==> StampOk(times[k], now, maxAge)
    {
      if times[j] == 0 || times[j] > now || (maxAge > 0 && now - times[j] > maxAge) {
        return false;
      }
    }
    return true;
  }

  method ReusableObservations(data: Reading, count: int, now: int, maxAge: int) returns (ok: bool)
    ensures ok <==> Reusable(data, count, now, maxAge)
  {
    if count == 0 || |data.times| != count {
      return false;
    }
    for i := 0 to |data.times|
      invariant forall k :: 0 <= k < i ==> |data.times[k]| > 0
      invariant forall k, j :: 0 <= k < i && 0 <= j < |data.times[k]| ==> StampOk(data.times[k][j], now, maxAge)
    {
      var good := StampsOk(data.times[i], now, maxAge);
      if !good {
        return false;
      }
    }
    return true;
  }

  // ----- Facts the bounds need -----

  lemma {:induction false} AbsentWithout(lru: seq<Entry>, owner: string)
    requires Lacks(lru, owner)
    ensures Without(lru, owner) == lru
  {
    if |lru| > 0 {
      AbsentWithout(lru[..|lru| - 1], owner);
    }
  }

  lemma WithoutLacks(lru: seq<Entry>, owner: string)
    ensures Lacks(Without(lru, owner), owner)
  {
    var r := Without(lru, owner);
    forall i | 0 <= i < |r| ensures r[i].owner != owner {
      WithoutMember(lru, owner, r[i]);
    }
  }

  lemma {:induction false} WithoutDistinct(lru: seq<Entry>, owner: string)
    requires Distinct(lru)
    ensures Distinct(Without(lru, owner))
  {
    if |lru| > 0 {
      var front, last := lru[..|lru| - 1], lru[|lru| - 1];
      WithoutDistinct(front, owner);
      var r := Without(front, owner);
      forall i | 0 <= i < |r| ensures r[i].owner != last.owner {
        WithoutMember(front, owner, r[i]);
      }
    }
  }

  lemma {:induction false} WithoutTotal(lru: seq<Entry>, v: Entry)
    requires Distinct(lru) && v in lru
    ensures Total(Without(lru, v.owner)) == Total(lru) - v.data.size
    ensures |Without(lru, v.owner)| < |lru|
  {
    var front, last := lru[..|lru| - 1], lru[|lru| - 1];
    if last == v {
      DropLast(lru);
    } else {
      assert v in front;
      WithoutTotal(front, v);
      var i :| 0 <= i < |front| && front[i] == v;
      assert lru[i] == v;
      var r := Without(front, v.owner);
      assert (r + [last])[..|r|] == r;
    }
  }

  /** Removing the entry at the back drops the back. */
  lemma DropLast(lru: seq<Entry>)
    requires Distinct(lru) && |lru| > 0
    ensures Without(lru, lru[|lru| - 1].owner) == lru[..|lru| - 1]
  {
    AbsentWithout(lru[..|lru| - 1], lru[|lru| - 1].owner);
  }

  lemma {:induction false} ConsTotal(e: Entry, lru: seq<Entry>)
    ensures Total([e] + lru) == e.data.size + Total(lru)
  {
    if |lru| == 0 {
      assert [e] + lru == [e] && [e][..0] == [];
      assert Total([e]) == Total([e][..0]) + e.data.size;
    } else {
      var front := lru[..|lru| - 1];
      ConsTotal(e, front);
      assert ([e] + lru)[..|lru|] == [e] + front;
    }
  }

  lemma {:induction false} FindWithout(lru: seq<Entry>, owner: string, o: string)
    ensures Find(Without(lru, owner), o) == if o == owner then None else Find(lru, o)
  {
    if |lru| > 0 {
      var front, last := lru[..|lru| - 1], lru[|lru| - 1];
      FindWithout(front, owner, o);
      if last.owner != owner {
        var r := Without(front, owner);
        assert (r + [last])[..|r|] == r;
      } else {
        assert Without(lru, owner) == Without(front, owner);
      }
    }
  }

  lemma {:induction false} FindCons(e: Entry, lru: seq<Entry>, o: string)
    ensures Find([e] + lru, o) == if Find(lru, o).Some? then Find(lru, o) else if e.owner == o then Some(e) else None
  {
    if |lru| == 0 {
      assert [e] + lru == [e] && [e][..0] == [];
    } else {
      FindCons(e, lru[..|lru| - 1], o);
      assert ([e] + lru)[..|lru|] == [e] + lru[..|lru| - 1];
    }
  }

  /** The map holds, for every owner, what a search of the list finds. */
  ghost predicate Indexed(entries: map<string, Entry>, lru: seq<Entry>) {
    forall o :: Find(lru, o) == if o in entries then Some(entries[o]) else None
  }

  lemma IndexedWithout(entries: map<string, Entry>, lru: seq<Entry>, owner: string)
    requires Indexed(entries, lru)
    ensures Indexed(entries - {owner}, Without(lru, owner))
  {
    forall o
      ensures Find(Without(lru, owner), o) == if o in entries - {owner} then Some((entries - {owner})[o]) else None
    {
      FindWithout(lru, owner, o);
      assert Find(lru, o) == if o in entries then Some(entries[o]) else None;
    }
  }

  lemma IndexedCons(entries: map<string, Entry>, lru: seq<Entry>, e: Entry)
    requires Indexed(entries, lru) && Find(lru, e.owner) == None
    ensures Indexed(entries[e.owner := e], [e] + lru)
  {
    forall o ensures Find([e] + lru, o) == if o in entries[e.owner := e] then Some(entries[e.owner := e][o]) else None {
      FindCons(e, lru, o);
      assert Find(lru, o) == if o in entries then Some(entries[o]) else None;
    }
  }

  lemma ConsDistinct(e: Entry, lru: seq<Entry>)
    requires Distinct(lru) && Lacks(lru, e.owner)
    ensures Distinct([e] + lru)
  {
    var r := [e] + lru;
    forall i, j | 0 <= i < j < |r| ensures r[i].owner != r[j].owner {
      assert r[j] == lru[j - 1];
      if i > 0 {
        assert r[i] == lru[i - 1];
      }
    }
  }

  // ----- The object -----

  class Cache {
    var entries: map<string, Entry>
    var lru: seq<Entry>
    var bytes: int

    /** The map indexes the list and the counter is its size. */
    ghost predicate Agrees()
      reads this
    {
      Distinct(lru) && Indexed(entries, lru) && bytes == Total(lru)
    }

    ghost predicate Valid()
      reads this
    {
      Agrees() && |lru| <= MAX_ENTRIES && bytes <= MAX_BYTES
    }

    constructor ()
      ensures Valid() && lru == []
    {
      entries, lru, bytes := map[], [], 0;
    }

    method Remove(owner: string)
      requires Agrees() && owner in entries
      modifies this
      ensures Agrees() && lru == Without(old(lru), owner) && |lru| < old(|lru|) && bytes <= old(bytes)
    {
      assert Find(lru, owner) == Some(entries[owner]);
      WithoutTotal(lru, entries[owner]);
      WithoutDistinct(lru, owner);
      IndexedWithout(entries, lru, owner);
      bytes := bytes - entries[owner].data.size;
      entries := entries - {owner};
      lru := Without(lru, owner);
    }

    method Forget(owner: string)
      requires Valid()
      modifies this
      ensures Valid() && lru == Without(old(lru), owner)
    {
      if owner in entries {
        Remove(owner);
      } else {
        assert Find(lru, owner) == None;
        FindNone(lru, owner);
        AbsentWithout(lru, owner);
      }
    }

    method MoveToFront(v: Entry)
      requires Valid() && v.owner in entries && entries[v.owner] == v
      modifies this`lru
      ensures Valid() && lru == [v] + Without(old(lru), v.owner)
    {
      assert Find(lru, v.owner) == Some(v);
      var rest := Without(lru, v.owner);
      WithoutTotal(lru, v);
      WithoutDistinct(lru, v.owner);
      WithoutLacks(lru, v.owner);
      ConsTotal(v, rest);
      ConsDistinct(v, rest);
      IndexedWithout(entries, lru, v.owner);
      FindWithout(lru, v.owner, v.owner);
      IndexedCons(entries - {v.owner}, rest, v);
      assert (entries - {v.owner})[v.owner := v] == entries;
      lru := [v] + rest;
    }

    /** The first locked section of a read. */
    method Lookup(owner: string, fingerprint: string, started: int) returns (hit: Option<Entry>)
      requires Valid()
      modifies this
      ensures Valid() && lru == Looked(old(lru), owner, fingerprint, started)
      ensures hit == Hit(old(lru), owner, fingerprint, started)
    {
      hit := None;
      assert Find(lru, owner) == if owner in entries then Some(entries[owner]) else None;
      if owner in entries {
        var v := entries[owner];
        if v.fingerprint == fingerprint && started >= v.started && started < v.expires {
          hit := Some(v);
          MoveToFront(v);
        } else {
          Remove(owner);
        }
      }
    }

    method RemoveBack()
      requires Agrees() && |lru| > 0
      modifies this
      ensures Agrees() && lru == old(lru)[..old(|lru|) - 1]
    {
      var back := lru[|lru| - 1];
      DropLast(lru);
      assert Find(lru, back.owner) == Some(back);
      Remove(back.owner);
    }

    /** Evicts least recently used entries until the new one fits, and no further. */
    method Evict(need: nat)
      requires Agrees() && need <= MAX_ENTRY_BYTES
      modifies this
      ensures Agrees() && lru == Trimmed(old(lru), need)
    {
      while |lru| >= MAX_ENTRIES || bytes + need > MAX_BYTES
        invariant Agrees() && Trimmed(lru, need) == Trimmed(old(lru), need)
        decreases |lru|
      {
        RemoveBack();
      }
    }

    method PushFront(e: Entry)
      requires Agrees() && Lacks(lru, e.owner)
      modifies this
      ensures Agrees() && lru == [e] + old(lru) && bytes == old(bytes) + e.data.size
    {
      FindNone(lru, e.owner);
      ConsTotal(e, lru);
      ConsDistinct(e, lru);
      IndexedCons(entries, lru, e);
      entries := entries[e.owner := e];
      lru := [e] + lru;
      bytes := bytes + e.data.size;
    }

    /** The second locked section of a read, after a complete gathering of acceptable size. */
    method Store(e: Entry)
      requires Valid() && e.data.size <= MAX_ENTRY_BYTES
      modifies this
      ensures Valid() && lru == Stored(old(lru), e)
    {
      assert Find(lru, e.owner) == if e.owner in entries then Some(entries[e.owner]) else None;
      if e.owner in entries {
        if entries[e.owner].started > e.started {
          return;
        }
        WithoutLacks(lru, e.owner);
        Remove(e.owner);
      } else {
        FindNone(lru, e.owner);
        AbsentWithout(lru, e.owner);
      }
      Evict(e.data.size);
      PushFront(e);
    }
  }
}
