/** The loops inside one load and one cleanup of the sharded store, undisturbed by others. */
module StoreLoops {
  import opened Basics
  import opened Chunking
  import opened ShardedStore

  lemma DigestsFront(refs: seq<Ref>, k: nat)
    requires k < |refs|
    ensures Join(Digests(refs[..k + 1])) == Join(Digests(refs[..k])) + refs[k].digest
  {
    var all, front := Digests(refs[..k + 1]), Digests(refs[..k]);
    assert all[..k] == front && all[k] == refs[k].digest;
  }

  /** Reading every referenced chunk: any mismatch fails the load, and otherwise the bytes are the encoded state. */
  method Assemble(chunks: map<Name, Chunk>, refs: seq<Ref>) returns (r: Result<Bytes>)
    ensures r.Ok? <==> AllMatch(chunks, refs)
    ensures r.Ok? ==> r.value == Join(Digests(refs))
  {
    var state: Bytes := [];
    for k := 0 to |refs|
      invariant forall i :: 0 <= i < k ==> Matches(chunks, refs[i])
      invariant state == Join(Digests(refs[..k]))
    {
      if !Matches(chunks, refs[k]) {
        return Err;
      }
      DigestsFront(refs, k);
      state := state + chunks[refs[k].name].content;
    }
    assert refs[..|refs|] == refs;
    return Ok(state);
  }

  /** A chunk of an older generation that the manifest does not name. */
  predicate Stale(chunk: Chunk, name: Name, keep: set<Name>, fence: nat) {
    chunk.generation < fence && name !in keep
  }

  class ChunkStore {
    var chunks: map<Name, Chunk>

    method CleanPage(page: seq<Name>, keep: set<Name>, fence: nat)
      modifies this
      ensures chunks
           == map name | name in old(chunks) && !(name in page && Stale(old(chunks)[name], name, keep, fence)) ::
                old(chunks)[name]
    {
      for i := 0 to |page|
        invariant chunks
               == map name | name in old(chunks)
                             && !(name in page[..i] && Stale(old(chunks)[name], name, keep, fence)) ::
                    old(chunks)[name]
      {
        assert page[..i + 1] == page[..i] + [page[i]];
        if page[i] in chunks && chunks[page[i]].generation < fence && page[i] !in keep {
          chunks := chunks - {page[i]};
        }
      }
      assert page[..|page|] == page;
    }

    /** Page by page, exactly the listed stale chunks are deleted and nothing else changes. */
    method Cleanup(pages: seq<seq<Name>>, refs: seq<Ref>, fence: nat)
      modifies this
      ensures chunks.Keys <= old(chunks).Keys
      ensures forall name :: name in chunks ==> chunks[name] == old(chunks)[name]
      ensures forall name :: name in old(chunks) ==>
        (name in chunks <==> !(Listed(pages, name) && Stale(old(chunks)[name], name, Names(refs), fence)))
    {
      var keep := Names(refs);
      for p := 0 to |pages|
        invariant chunks.Keys <= old(chunks).Keys
        invariant forall name :: name in chunks ==> chunks[name] == old(chunks)[name]
        invariant forall name :: name in old(chunks) ==>
          (name in chunks <==> !(Listed(pages[..p], name) && Stale(old(chunks)[name], name, keep, fence)))
      {
        forall name ensures Listed(pages[..p + 1], name) <==> Listed(pages[..p], name) || name in pages[p] {
          ListedMore(pages, p, name);
        }
        CleanPage(pages[p], keep, fence);
      }
      assert pages[..|pages|] == pages;
    }
  }

  predicate Listed(pages: seq<seq<Name>>, name: Name) {
    exists p :: 0 <= p < |pages| && name in pages[p]
  }

  lemma ListedMore(pages: seq<seq<Name>>, p: nat, name: Name)
    requires p < |pages|
    ensures Listed(pages[..p + 1], name) <==> Listed(pages[..p], name) || name in pages[p]
  {
    if Listed(pages[..p], name) {
      var q :| 0 <= q < p && name in pages[..p][q];
      assert name in pages[..p + 1][q];
    }
    if name in pages[p] {
      assert name in pages[..p + 1][p];
    }
    if Listed(pages[..p + 1], name) {
      var q :| 0 <= q < p + 1 && name in pages[..p + 1][q];
      assert q < p ==> name in pages[..p][q];
    }
  }

  /** A cleanup keeps every chunk its manifest names, so a load of that manifest still succeeds. */
  lemma CleanupKeepsManifest(before: map<Name, Chunk>, after: map<Name, Chunk>, pages: seq<seq<Name>>, refs: seq<Ref>,
                             fence: nat)
    requires AllMatch(before, refs)
    requires forall name :: name in after ==> name in before && after[name] == before[name]
    requires forall name ::
               name in before && !(Listed(pages, name) && Stale(before[name], name, Names(refs), fence)) ==>
                 name in after
    ensures AllMatch(after, refs)
  {
    forall i | 0 <= i < |refs| ensures Matches(after, refs[i]) {
      assert refs[i] in refs && Matches(before, refs[i]);
    }
  }
}
