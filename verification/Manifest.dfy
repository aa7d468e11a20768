/**
  The manifest a commit writes on the history root, and the reader's checks on
  it: references, names, digests, sizes and the fence annotation.
 */
module Manifest {
  import opened Basics
  import opened Chunking

  const MAX_UINT64: nat := 0xFFFF_FFFF_FFFF_FFFF
  const MAX_LABEL := 63

  // ----- Fence annotation -----

  function Digit(d: nat): (c: char)
    requires d < 10
    ensures '0' <= c <= '9'
    ensures c as int - '0' as int == d
  {
    ('0' as int + d) as char
  }

  predicate IsDigit(c: char) {
    '0' <= c <= '9'
  }

  /** Decimal form of an unsigned number. */
  function FormatUint(n: nat): (s: string)
    ensures |s| > 0 && forall i :: 0 <= i < |s| ==> IsDigit(s[i])
  {
    if n < 10 then [Digit(n)] else FormatUint(n / 10) + [Digit(n % 10)]
  }

  function Value(s: string): (n: nat)
    requires forall i :: 0 <= i < |s| ==> IsDigit(s[i])
  {
    if s == "" then 0
    else
      assert IsDigit(s[|s| - 1]);
      Value(s[..|s| - 1]) * 10 + (s[|s| - 1] as int - '0' as int)
  }

  /** A missing annotation is fence 0; the largest uint64 counts as exhausted. */
  function FenceOf(annotation: string): (r: Result<nat>)
    ensures r.Ok? ==> r.value < MAX_UINT64
  {
    if annotation == "" then Ok(0)
    else if exists i :: 0 <= i < |annotation| && !IsDigit(annotation[i]) then Err
    else if Value(annotation) >= MAX_UINT64 then Err
    else Ok(Value(annotation))
  }

  lemma {:induction false} ValueOfFormat(n: nat)
    ensures Value(FormatUint(n)) == n
  {
    if n >= 10 {
      ValueOfFormat(n / 10);
      var s := FormatUint(n);
      assert s[..|s| - 1] == FormatUint(n / 10);
    }
  }

  /** Every written fence reads back, except the exhausted one, which is refused. */
  lemma FenceRoundTrip(n: nat)
    ensures n < MAX_UINT64 ==> FenceOf(FormatUint(n)) == Ok(n)
    ensures n >= MAX_UINT64 ==> FenceOf(FormatUint(n)).Err?
  {
    ValueOfFormat(n);
  }

  // ----- References -----

  datatype RawRef = RawRef(name: string, uid: string, digest: string, bytes: int)
  datatype RawManifest = RawManifest(schemaVersion: int, chunks: seq<RawRef>)

  predicate IsLowerHex(c: char) {
    IsDigit(c) || 'a' <= c <= 'f'
  }

  predicate AllLowerHex(s: string) {
    forall i :: 0 <= i < |s| ==> IsLowerHex(s[i])
  }

  /** Decodes as 32 bytes of hexadecimal. */
  predicate IsDigest(s: string) {
    |s| == 64 && forall i :: 0 <= i < |s| ==> IsHex(s[i])
  }

  predicate AlphaNumeric(c: char) {
    IsDigit(c) || 'a' <= c <= 'z'
  }

  /** DNS label rule of RFC 1123: lower-case alphanumerics and inner dashes. */
  predicate IsLabel(s: string) {
    && 1 <= |s| <= MAX_LABEL
    && AlphaNumeric(s[0]) && AlphaNumeric(s[|s| - 1])
    && forall i :: 0 <= i < |s| ==> AlphaNumeric(s[i]) || s[i] == '-'
  }

  predicate ValidRef(ref: RawRef, prefix: string) {
    && prefix <= ref.name
    && IsLabel(ref.name)
    && ref.uid != ""
    && 1 <= ref.bytes <= CHUNK_BYTES
    && IsDigest(ref.digest)
  }

  function TotalBytes(chunks: seq<RawRef>): int {
    if |chunks| == 0 then 0
    else TotalBytes(chunks[..|chunks| - 1]) + chunks[|chunks| - 1].bytes
  }

  /** Valid references with distinct names. */
  ghost predicate RefsOk(chunks: seq<RawRef>, prefix: string) {
    && (forall i :: 0 <= i < |chunks| ==> ValidRef(chunks[i], prefix))
    && (forall i, j :: 0 <= i < j < |chunks| ==> chunks[i].name != chunks[j].name)
  }

  /** What a reader accepts of a manifest found on a root. */
  ghost predicate Accepted(manifest: RawManifest, rootUid: string, prefix: string, annotation: string) {
    && rootUid != ""
    && manifest.schemaVersion == 2
    && 1 <= |manifest.chunks| <= MAX_CHUNKS
    && RefsOk(manifest.chunks, prefix)
    && TotalBytes(manifest.chunks) <= MAX_ALLOCATED_BYTES
    && FenceOf(annotation).Ok?
  }

  function Names(chunks: seq<RawRef>): set<string> {
    if |chunks| == 0 then {} else Names(chunks[..|chunks| - 1]) + {chunks[|chunks| - 1].name}
  }

  lemma {:induction false} NamesHold(chunks: seq<RawRef>, name: string)
    ensures name in Names(chunks) <==> exists i :: 0 <= i < |chunks| && chunks[i].name == name
  {
    if |chunks| > 0 {
      var n := |chunks| - 1;
      NamesHold(chunks[..n], name);
      if name in Names(chunks[..n]) {
        var i :| 0 <= i < n && chunks[..n][i].name == name;
        assert chunks[i].name == name;
      } else {
        assert forall i :: 0 <= i < n ==> chunks[..n][i] == chunks[i];
      }
    }
  }

  /** One more reference is acceptable exactly when it is valid and its name is new. */
  lemma RefsExtend(chunks: seq<RawRef>, k: nat, prefix: string)
    requires k < |chunks|
    ensures RefsOk(chunks[..k + 1], prefix)
       <==> RefsOk(chunks[..k], prefix) && ValidRef(chunks[k], prefix) && chunks[k].name !in Names(chunks[..k])
  {
    var before, after := chunks[..k], chunks[..k + 1];
    assert forall i :: 0 <= i < k ==> before[i] == after[i];
    assert after[k] == chunks[k];
    NamesHold(before, chunks[k].name);
  }

  lemma RefsPrefix(chunks: seq<RawRef>, k: nat, prefix: string)
    requires k <= |chunks| && RefsOk(chunks, prefix)
    ensures RefsOk(chunks[..k], prefix)
  {
  }

  /** The decoding loop: a running total and the names already seen. */
  method ScanRefs(chunks: seq<RawRef>, prefix: string) returns (r: Result<int>)
    ensures r.Ok? <==> RefsOk(chunks, prefix)
    ensures r.Ok? ==> r.value == TotalBytes(chunks)
  {
    var total := 0;
    var names: set<string> := {};
    for k := 0 to |chunks|
      invariant RefsOk(chunks[..k], prefix) && names == Names(chunks[..k]) && total == TotalBytes(chunks[..k])
    {
      RefsExtend(chunks, k, prefix);
      if !ValidRef(chunks[k], prefix) || chunks[k].name in names {
        if RefsOk(chunks, prefix) {
          RefsPrefix(chunks, k + 1, prefix);
        }
        return Err;
      }
      names := names + {chunks[k].name};
      total := total + chunks[k].bytes;
      assert chunks[..k + 1][..k] == chunks[..k];
    }
    assert chunks[..|chunks|] == chunks;
    return Ok(total);
  }

  method DecodeManifest(manifest: RawManifest, rootUid: string, prefix: string, annotation: string)
    returns (r: Result<RawManifest>)
    ensures r.Ok? <==> Accepted(manifest, rootUid, prefix, annotation)
    ensures r.Ok? ==> r.value == manifest
  {
    if rootUid == "" {
      return Err;
    }
    var chunks := manifest.chunks;
    if manifest.schemaVersion != 2 || |chunks| == 0 || |chunks| > MAX_CHUNKS {
      return Err;
    }
    var total := ScanRefs(chunks, prefix);
    if total.Err? {
      return Err;
    }
    if total.value > MAX_ALLOCATED_BYTES {
      return Err;
    }
    if FenceOf(annotation).Err? {
      return Err;
    }
    r := Ok(manifest);
  }

  // ----- What Commit writes -----

  /** Prefix of every chunk of one root: the first six digest bytes of its UID. */
  function ChunkPrefix(uidDigest: string): (prefix: string) {
    "hpa-hist-" + uidDigest + "-"
  }

  predicate PrefixOf(uidDigest: string) {
    |uidDigest| == 12 && AllLowerHex(uidDigest)
  }

  /** Two-digit chunk number. */
  function TwoDigits(i: nat): (s: string)
    requires i < 100
  {
    [Digit(i / 10), Digit(i % 10)]
  }

  function ChunkName(uidDigest: string, transaction: string, i: nat): (name: string)
    requires i < 100
  {
    ChunkPrefix(uidDigest) + transaction + "-" + TwoDigits(i)
  }

  /** Chunk names are legal object names and identify their transaction and position. */
  lemma ChunkNameIsLabel(uidDigest: string, transaction: string, i: nat)
    requires i < 100 && PrefixOf(uidDigest) && |transaction| == 32 && AllLowerHex(transaction)
    ensures IsLabel(ChunkName(uidDigest, transaction, i))
    ensures ChunkPrefix(uidDigest) <= ChunkName(uidDigest, transaction, i)
  {
    var name := ChunkName(uidDigest, transaction, i);
    var head := "hpa-hist-";
    assert |name| == 57;
    forall k | 0 <= k < |name| ensures AlphaNumeric(name[k]) || name[k] == '-' {
      if k < 9 {
        assert name[k] == head[k];
      } else if k < 21 {
        assert name[k] == uidDigest[k - 9];
      } else if k == 21 {
        assert name[k] == '-';
      } else if k < 54 {
        assert name[k] == transaction[k - 22];
      } else if k == 54 {
        assert name[k] == '-';
      } else {
        assert name[k] == TwoDigits(i)[k - 55];
      }
    }
    assert name[0] == 'h';
    assert name[56] == TwoDigits(i)[1];
  }

  lemma ChunkNamesDiffer(uidDigest: string, t1: string, i: nat, t2: string, j: nat)
    requires i < 100 && j < 100 && |t1| == |t2|
    requires ChunkName(uidDigest, t1, i) == ChunkName(uidDigest, t2, j)
    ensures t1 == t2 && i == j
  {
    var prefix := ChunkPrefix(uidDigest);
    var a, b := ChunkName(uidDigest, t1, i), ChunkName(uidDigest, t2, j);
    var cut := |prefix| + |t1|;
    assert a[|prefix|..cut] == t1 && b[|prefix|..cut] == t2;
    assert a[cut + 1..] == TwoDigits(i) && b[cut + 1..] == TwoDigits(j);
    assert TwoDigits(i)[0] == TwoDigits(j)[0] && TwoDigits(i)[1] == TwoDigits(j)[1];
    assert i == 10 * (i / 10) + i % 10;
  }

  /** The references a commit collects while it creates the chunks of one state. */
  ghost predicate Written(refs: seq<RawRef>, body: Bytes, uidDigest: string, transaction: string) {
    && |refs| == PieceCount(|body|) <= MAX_CHUNKS
    && forall i :: 0 <= i < |refs| ==>
         && refs[i].name == ChunkName(uidDigest, transaction, i)
         && refs[i].uid != ""
         && |refs[i].digest| == 64 && AllLowerHex(refs[i].digest)
         && refs[i].bytes == |Piece(body, i)|
  }

  lemma {:induction false} TotalOfPieces(refs: seq<RawRef>, body: Bytes)
    requires |refs| <= PieceCount(|body|)
    requires forall i :: 0 <= i < |refs| ==> refs[i].bytes == |Piece(body, i)|
    ensures TotalBytes(refs) == Min(|refs| * CHUNK_BYTES, |body|)
  {
    if |refs| > 0 {
      TotalOfPieces(refs[..|refs| - 1], body);
    }
  }

  /** Every manifest a commit writes within its budget passes the reader's checks. */
  lemma CommittedManifestDecodes(refs: seq<RawRef>, body: Bytes, rootUid: string, uidDigest: string,
                                 transaction: string, fence: nat)
    requires 0 < |body| <= MAX_ALLOCATED_BYTES
    requires Written(refs, body, uidDigest, transaction)
    requires PrefixOf(uidDigest) && |transaction| == 32 && AllLowerHex(transaction)
    requires rootUid != "" && fence < MAX_UINT64
    ensures Accepted(RawManifest(2, refs), rootUid, ChunkPrefix(uidDigest), FormatUint(fence))
    ensures TotalBytes(refs) == |body|
  {
    BudgetBoundsPieces(|body|);
    TotalOfPieces(refs, body);
    FenceRoundTrip(fence);
    forall i | 0 <= i < |refs| ensures ValidRef(refs[i], ChunkPrefix(uidDigest)) {
      ChunkNameIsLabel(uidDigest, transaction, i);
    }
    forall i, j | 0 <= i < j < |refs| ensures refs[i].name != refs[j].name {
      if refs[i].name == refs[j].name {
        ChunkNamesDiffer(uidDigest, transaction, i, transaction, j);
      }
    }
  }
}
