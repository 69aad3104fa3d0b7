/** Adapter output and the digest that binds a delivery to one payload
    (stele/contracts/adapter.py, stele/ledger/delivery.py). */
module Chunks {
  import opened Digests
  import opened Wrappers

  datatype Chunk = Chunk(id: string, content: string, hash: Digest, tokens: int, metadata: Json)

  /** The chunk contract: non-empty, distinct ids, honest content hashes. */
  ghost predicate ValidChunks(chunks: seq<Chunk>) {
    && chunks != []
    && (forall i :: 0 <= i < |chunks| ==> ValidChunk(chunks[i]))
    && (forall i, j :: 0 <= i < j < |chunks| ==> chunks[i].id != chunks[j].id)
  }

  predicate ValidChunk(c: Chunk) {
    c.id != "" && c.content != "" && c.hash == Sha(TextContent(c.content)) && c.tokens >= 0 && c.metadata.JObj?
  }

  /** validate_chunks: the first violation found, or none exactly for valid output. */
  method ValidateChunks(chunks: seq<Chunk>) returns (problem: Option<string>)
    ensures problem.None? <==> ValidChunks(chunks)
  {
    if chunks == [] {
      return Some("adapter returned no chunks");
    }
    var seenIds: set<string> := {};
    for i := 0 to |chunks|
      invariant forall j :: 0 <= j < i ==> ValidChunk(chunks[j])
      invariant forall j, k :: 0 <= j < k < i ==> chunks[j].id != chunks[k].id
      invariant seenIds == set j | 0 <= j < i :: chunks[j].id
    {
      var chunk := chunks[i];
      if chunk.id == "" {
        return Some("chunk_id is empty");
      }
      if chunk.id in seenIds {
        return Some("duplicate chunk_id");
      }
      seenIds := seenIds + {chunk.id};
      if chunk.content == "" {
        return Some("content is empty");
      }
      if chunk.hash != Sha(TextContent(chunk.content)) {
        return Some("content_hash mismatch");
      }
      if chunk.tokens < 0 {
        return Some("token_count must be >= 0");
      }
      if !chunk.metadata.JObj? {
        return Some("metadata must be a dict");
      }
    }
    return None;
  }

  function KeyOf(c: Chunk): ChunkKey { ChunkKey(c.id, c.hash, c.tokens, c.metadata) }

  function Keys(chunks: seq<Chunk>): (ks: seq<ChunkKey>)
    ensures |ks| == |chunks|
  {
    seq(|chunks|, i requires 0 <= i < |chunks| => KeyOf(chunks[i]))
  }

  /** The digest column: current ("chunks-v2:") or written before schema 6 (bare hex). */
  function ChunksDigestOf(chunks: seq<Chunk>): Text {
    TaggedHex(Sha(ChunkPayload(Keys(chunks))))
  }

  function LegacyDigestOf(chunks: seq<Chunk>): Text {
    Hex(Sha(LegacyPayload(seq(|chunks|, i requires 0 <= i < |chunks| => (chunks[i].id, chunks[i].hash)))))
  }

  /** delivery.payload_matches. A plain string is neither digest form. */
  predicate PayloadMatches(bound: Text, chunks: seq<Chunk>) {
    match bound
    case TaggedHex(_) => bound == ChunksDigestOf(chunks)
    case _ => bound == LegacyDigestOf(chunks)
  }

  /** Two valid chunk lists with one current digest are the same list. */
  lemma DigestDeterminesChunks(a: seq<Chunk>, b: seq<Chunk>)
    requires ValidChunks(a) && ValidChunks(b)
    requires ChunksDigestOf(a) == ChunksDigestOf(b)
    ensures a == b
  {
    assert Keys(a) == Keys(b);
    forall i | 0 <= i < |a| ensures a[i] == b[i] {
      assert Keys(a)[i] == Keys(b)[i];
      assert ValidChunk(a[i]) && ValidChunk(b[i]);
    }
  }

  /** A legacy digest binds ids and contents, in order, and nothing more. */
  lemma LegacyDigestBindsContent(a: seq<Chunk>, b: seq<Chunk>)
    requires ValidChunks(a) && ValidChunks(b)
    ensures LegacyDigestOf(a) == LegacyDigestOf(b) <==>
      |a| == |b| && forall i :: 0 <= i < |a| ==> a[i].id == b[i].id && a[i].content == b[i].content
  {
    var pa := seq(|a|, i requires 0 <= i < |a| => (a[i].id, a[i].hash));
    var pb := seq(|b|, i requires 0 <= i < |b| => (b[i].id, b[i].hash));
    if pa == pb {
      forall i | 0 <= i < |a| ensures a[i].id == b[i].id && a[i].content == b[i].content {
        assert pa[i] == pb[i];
        assert ValidChunk(a[i]) && ValidChunk(b[i]);
      }
    } else if |a| == |b| {
      var i :| 0 <= i < |a| && pa[i] != pb[i];
      assert ValidChunk(a[i]) && ValidChunk(b[i]);
    }
  }
}
