/** How the sharded history store cuts one encoded state into immutable chunks and joins them again. */
module Chunking {
  import opened Basics

  newtype byte = x: int | 0 <= x < 256
  type Bytes = seq<byte>

  const CHUNK_BYTES := 512 * 1024
  const MAX_ALLOCATED_BYTES := 16 * 1024 * 1024
  const MAX_CHUNKS := MAX_ALLOCATED_BYTES / CHUNK_BYTES

  // ----- Cutting -----

  /** Number of chunks the creation loop makes for n bytes. */
  function PieceCount(n: nat): (count: nat)
    ensures count * CHUNK_BYTES >= n
    ensures count > 0 ==> (count - 1) * CHUNK_BYTES < n
  {
    (n + CHUNK_BYTES - 1) / CHUNK_BYTES
  }

  /** The i-th chunk's bytes. */
  function Piece(body: Bytes, i: nat): (piece: Bytes)
    requires i < PieceCount(|body|)
    ensures 1 <= |piece| <= CHUNK_BYTES
  {
    body[i * CHUNK_BYTES .. Min((i + 1) * CHUNK_BYTES, |body|)]
  }

  function Join(pieces: seq<Bytes>): (whole: Bytes) {
    if |pieces| == 0 then [] else Join(pieces[..|pieces| - 1]) + pieces[|pieces| - 1]
  }

  /** The first `count` chunks hold exactly the bytes before the next cut. */
  lemma {:induction false} JoinPrefix(body: Bytes, pieces: seq<Bytes>)
    requires |pieces| <= PieceCount(|body|)
    requires forall i :: 0 <= i < |pieces| ==> pieces[i] == Piece(body, i)
    ensures Join(pieces) == body[..Min(|pieces| * CHUNK_BYTES, |body|)]
  {
    if |pieces| > 0 {
      var last := |pieces| - 1;
      JoinPrefix(body, pieces[..last]);
      assert body[..Min(last * CHUNK_BYTES, |body|)] + Piece(body, last)
          == body[..Min((last + 1) * CHUNK_BYTES, |body|)];
    }
  }

  /** All chunks together are the encoded state. */
  lemma JoinPieces(body: Bytes, pieces: seq<Bytes>)
    requires |pieces| == PieceCount(|body|)
    requires forall i :: 0 <= i < |pieces| ==> pieces[i] == Piece(body, i)
    ensures Join(pieces) == body
  {
    JoinPrefix(body, pieces);
  }

  /** A state within the allocation budget needs at most MAX_CHUNKS chunks. */
  lemma BudgetBoundsPieces(n: nat)
    requires n <= MAX_ALLOCATED_BYTES
    ensures PieceCount(n) <= MAX_CHUNKS == 32
    ensures n > 0 ==> PieceCount(n) > 0
  {
  }

  /** The chunk-creation loop of a commit. */
  method Cut(encoded: Bytes) returns (pieces: seq<Bytes>)
    ensures |pieces| == PieceCount(|encoded|)
    ensures forall i :: 0 <= i < |pieces| ==> pieces[i] == Piece(encoded, i)
    ensures Join(pieces) == encoded
  {
    pieces := [];
    var start := 0;
    while start < |encoded|
      invariant start == |pieces| * CHUNK_BYTES
      invariant |pieces| <= PieceCount(|encoded|)
      invariant forall i :: 0 <= i < |pieces| ==> pieces[i] == Piece(encoded, i)
      decreases |encoded| - start
    {
      var end := start + CHUNK_BYTES;
      if end > |encoded| {
        end := |encoded|;
      }
      pieces := pieces + [encoded[start..end]];
      start := start + CHUNK_BYTES;
    }
    JoinPieces(encoded, pieces);
  }
}
