/**
 Digests and JSON values. A digest is a free constructor over the content it
 was computed from, so equal digests mean equal content and no collision
 assumption is stated anywhere. JSON is a datatype; the text of a canonical
 JSON body is identified with its value.
 */
module Digests {
  import opened Wrappers

  datatype Digest = Genesis | Sha(content: Content)

  datatype Content =
    | TextContent(text: string)                          // a chunk's content
    | ChunkPayload(chunks: seq<ChunkKey>)                // delivery.chunks_digest
    | LegacyPayload(pairs: seq<(string, Digest)>)        // delivery._legacy_chunks_digest
    | ManifestContent(manifest: map<string, Digest>)     // hashing.encode_manifest
    | EventContent(seqNo: int, kind: Kind, subject: string, body: Body, at: string, prev: Digest)
    | ConfigContent(config: Json)                        // campaign.config_digest

  /** What a delivery's digest covers of one chunk. */
  datatype ChunkKey = ChunkKey(id: string, hash: Digest, tokens: int, metadata: Json)

  /** A string column or JSON string: literal, a hex digest, or a "chunks-v2:" digest. */
  datatype Text = Plain(value: string) | Hex(digest: Digest) | TaggedHex(tagged: Digest)

  datatype Json =
    | JNull
    | JBool(b: bool)
    | JInt(n: int)
    | JStr(text: Text)
    | JArr(items: seq<Json>)
    | JObj(members: map<Field, Json>)

  /** Object keys: the ledger's own field names, or any other. */
  datatype Field =
    | RunId | ArtifactHash | SourceHash | SourceKind | SourceId | Parser | ParserConfig
    | Backend | RunConditions | State | Error | Name | Version | ImageDigest | ModuleSha256
    | RecordId | TargetKind | Target | Event | Planned | ChunksDigest | Done | AttemptId
    | Outcome | Reason | ReplayArtifactHash | Policy | Platform | Named(name: string)

  /** An event body as stored: JSON text, or text that is not JSON. */
  datatype Body = Parsed(json: Json) | NotJson(raw: string)

  datatype Kind =
    | RecordCreated | RecordImported | RecordSealed | RecordFailed | RecordInvalidated
    | DeliveryOpened | DeliveryImported | DeliveryEventLogged | DeliveryEventImported
    | ReplayLogged | ReplayImported | OtherKind(kindName: string)

  function OptText(o: Option<Text>): Json {
    if o.Some? then JStr(o.value) else JNull
  }

  function OptHex(o: Option<Digest>): Json {
    if o.Some? then JStr(Hex(o.value)) else JNull
  }

  function OptPlain(o: Option<string>): Json {
    if o.Some? then JStr(Plain(o.value)) else JNull
  }

  function OptInt(o: Option<int>): Json {
    if o.Some? then JInt(o.value) else JNull
  }

  function OptJson(o: Option<Json>): Json {
    if o.Some? then o.value else JNull
  }
}
