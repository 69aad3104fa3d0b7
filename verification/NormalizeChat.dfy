/**
 The ChatGPT normalizer (stele/extraction/normalizers.py): one message unit for
 each chunk of the tree walk, anchored by a JSON pointer to the message it renders.
 */
module NormalizeChat {
  import opened ChatTree
  import opened ConversationNames
  import opened Extraction
  import opened Normalize
  import opened Refs
  import opened Resolver
  import opened Utf8
  import opened Wrappers

  // ---- A conversation document as a tree ---------------------------------

  function StringOf(j: Json): Option<string> { if j.JString? then Some(j.s) else None }

  function StringsOf(items: seq<Json>): seq<Option<string>> {
    seq(|items|, i requires 0 <= i < |items| => StringOf(items[i]))
  }

  function ChildrenOf(j: Json): Children {
    match j
    case JNull => Absent
    case JArray(items) => Listed(StringsOf(items))
    case _ => NotList
  }

  function MessageText(h: Host, message: Json): string { if message.JObject? then h.render(message) else "" }

  function NodeOf(h: Host, j: Json): Node {
    if j.JObject?
    then Node(StringOf(Member(j, "parent")), ChildrenOf(Member(j, "children")), MessageText(h, Member(j, "message")))
    else NotObject
  }

  function ConversationOf(h: Host, doc: Json): Conversation {
    var mapping, current := Member(doc, "mapping"), Member(doc, "current_node");
    Conversation(
      match mapping
      case JNull => NoMapping
      case JObject(keys, members) => Object(Mapping(keys, map k | k in members :: NodeOf(h, members[k])))
      case _ => NotAnObject,
      if current.JNull? then None else Some(StringOf(current)))
  }

  /** A parsed object lists each of its keys once. */
  ghost predicate GoodHost(h: Host) {
    forall data: seq<Byte> :: h.parse(data).Some? ==>
      var mapping := Member(h.parse(data).value, "mapping");
      mapping.JObject? ==> IsDict(Mapping(mapping.keys, map k | k in mapping.members :: NodeOf(h, mapping.members[k])))
  }

  function MessagePointer(nodeId: string): string { Pointer(["mapping", nodeId, "message"]) }

  /** The message a chunk was rendered from is where its pointer leads. */
  lemma PointerFindsMessage(h: Host, doc: Json, id: string)
    requires TextOf(MappingOf(ConversationOf(h, doc)), id) != ""
    ensures AtPointer(doc, MessagePointer(id)).Some?
    ensures Render(h, CHATGPT_MESSAGE, AtPointer(doc, MessagePointer(id)).value)
      == Ok(TextOf(MappingOf(ConversationOf(h, doc)), id))
  {
    ResolveInvertsPointer(doc, ["mapping", id, "message"]);
    var mapping := Member(doc, "mapping");
    assert mapping.JObject? && id in mapping.members;
    DescendToMessage(doc, id);
  }

  lemma DescendToMessage(doc: Json, id: string)
    requires Member(doc, "mapping").JObject? && id in Member(doc, "mapping").members
    ensures DescendAll(doc, ["mapping", id, "message"]) == Descend(Member(doc, "mapping").members[id], "message")
  {
    var tokens, mapping := ["mapping", id, "message"], Member(doc, "mapping");
    assert tokens[1..] == [id, "message"] && tokens[1..][1..] == ["message"];
    assert DescendAll(mapping.members[id], ["message"]) == Descend(mapping.members[id], "message");
    assert DescendAll(mapping, tokens[1..]) == DescendAll(mapping.members[id], ["message"]);
  }

  // ---- Units -------------------------------------------------------------

  function AnchorOf(b: Bundle, path: string, c: TreeChunk): Anchor
    requires path in b.manifest
  {
    PointerAnchor(path, b.manifest[path], MessagePointer(c.nodeId), CHATGPT_MESSAGE)
  }

  /** Units from..: one for each chunk, each under its parent chunk's unit. */
  ghost predicate FollowsTree(b: Bundle, path: string, units: seq<Unit>, from: nat, chunks: seq<TreeChunk>, n: nat)
    requires path in b.manifest && n <= |chunks|
  {
    && |units| == from + n
    && forall i :: 0 <= i < n ==> UnitFollows(b, path, units, from, chunks, i)
  }

  ghost predicate UnitFollows(b: Bundle, path: string, units: seq<Unit>, from: nat, chunks: seq<TreeChunk>, i: nat)
    requires path in b.manifest && i < |chunks| && from + i < |units|
  {
    var u := units[from + i];
    && u.id == UnitId(from + i) && u.order == from + i && u.kind == Message && u.text == chunks[i].text && u.level.None?
    && u.anchor == AnchorOf(b, path, chunks[i])
    && (u.parent.None? <==> chunks[i].parentNodeId.None?)
    && (u.parent.Some? ==> exists j :: IsParentChunk(chunks, i, j) && u.parent.value == UnitId(from + j))
  }

  ghost predicate IsParentChunk(chunks: seq<TreeChunk>, i: nat, j: nat) {
    j < i < |chunks| && Some(chunks[j].nodeId) == chunks[i].parentNodeId
  }

  /** What every unit list built so far satisfies. */
  ghost predicate Sound(h: Host, b: Bundle, units: seq<Unit>) {
    forall i :: 0 <= i < |units| ==> SoundUnit(h, b, units, i)
  }

  ghost predicate SoundUnit(h: Host, b: Bundle, units: seq<Unit>, i: nat)
    requires i < |units|
  {
    && units[i].id == UnitId(i) && units[i].order == i && ValidUnit(units[i])
    && TextAt(h, b, units[i].anchor) == Ok(units[i].text)
    && (units[i].parent.Some? ==> exists j :: 0 <= j < i && units[i].parent == Some(UnitId(j)) && units[j].anchor.artifact == units[i].anchor.artifact)
  }

  /** A conversation's chunks as the walk emits them. */
  ghost predicate ChunksOf(h: Host, doc: Json, chunks: seq<TreeChunk>) {
    && ParentsFirst(chunks) && DistinctNodes(chunks)
    && forall i :: 0 <= i < |chunks| ==>
      chunks[i].text != "" && chunks[i].text == TextOf(MappingOf(ConversationOf(h, doc)), chunks[i].nodeId)
  }

  lemma WalkGivesChunks(h: Host, doc: Json, branch: set<string>, ps: seq<Path>, chunks: seq<TreeChunk>)
    requires CompleteWalk(MappingOf(ConversationOf(h, doc)), branch, ps, chunks)
    ensures ChunksOf(h, doc, chunks)
  {
    var m := MappingOf(ConversationOf(h, doc));
    CompleteWalkParentsFirst(m, branch, ps, chunks);
    OneChunkPerTextNode(m, branch, ps, chunks);
    forall i | 0 <= i < |chunks| ensures chunks[i].text != "" && chunks[i].text == TextOf(m, chunks[i].nodeId) {
      assert chunks[i] in chunks;
    }
  }

  lemma SoundGrows(h: Host, b: Bundle, units: seq<Unit>, u: Unit)
    requires Sound(h, b, units) && SoundUnit(h, b, units + [u], |units|)
    ensures Sound(h, b, units + [u])
  {
    var more := units + [u];
    forall i | 0 <= i < |more| ensures SoundUnit(h, b, more, i) {
      if i < |units| {
        assert SoundUnit(h, b, units, i);
        if units[i].parent.Some? {
          var j :| 0 <= j < i && units[i].parent == Some(UnitId(j)) && units[j].anchor.artifact == units[i].anchor.artifact;
          assert more[j] == units[j];
        }
      }
    }
  }

  lemma NewUnitSound(h: Host, b: Bundle, path: string, doc: Json, chunks: seq<TreeChunk>, i: nat, units: seq<Unit>, u: Unit, parent: Option<nat>)
    requires BundleOk(b) && path in b.manifest && Read(b, path).Some? && h.parse(Read(b, path).value) == Some(doc)
    requires ChunksOf(h, doc, chunks) && i < |chunks|
    requires u == Unit(UnitId(|units|), Message, chunks[i].text, |units|, None, IdOf(parent), AnchorOf(b, path, chunks[i]))
    requires parent.Some? ==> parent.value < |units| && units[parent.value].anchor.artifact == path
    ensures SoundUnit(h, b, units + [u], |units|)
  {
    PointerFindsMessage(h, doc, chunks[i].nodeId);
    PointerSplits(["mapping", chunks[i].nodeId, "message"]);
    if parent.Some? { assert (units + [u])[parent.value] == units[parent.value]; }
  }

  /** Where the normalizer's dictionary holds the conversation's chunks so far. */
  ghost predicate Known(unitOf: map<(string, string), string>, conv: string, chunks: seq<TreeChunk>, n: nat, from: nat)
    requires n <= |chunks|
  {
    forall j :: 0 <= j < n ==> (conv, chunks[j].nodeId) in unitOf && unitOf[(conv, chunks[j].nodeId)] == UnitId(from + j)
  }

  lemma KnownGrows(unitOf: map<(string, string), string>, conv: string, chunks: seq<TreeChunk>, n: nat, from: nat)
    requires n < |chunks| && Known(unitOf, conv, chunks, n, from) && DistinctNodes(chunks)
    ensures Known(unitOf[(conv, chunks[n].nodeId) := UnitId(from + n)], conv, chunks, n + 1, from)
  {
  }

  lemma FollowsStays(b: Bundle, path: string, units: seq<Unit>, from: nat, chunks: seq<TreeChunk>, k: nat, u: Unit)
    requires path in b.manifest && k < |chunks| && from + k < |units| && UnitFollows(b, path, units, from, chunks, k)
    ensures UnitFollows(b, path, units + [u], from, chunks, k)
  {
    assert (units + [u])[from + k] == units[from + k];
  }

  lemma FollowsGrows(b: Bundle, path: string, units: seq<Unit>, from: nat, chunks: seq<TreeChunk>, i: nat, u: Unit)
    requires path in b.manifest && i < |chunks| && FollowsTree(b, path, units, from, chunks, i)
    requires UnitFollows(b, path, units + [u], from, chunks, i)
    ensures FollowsTree(b, path, units + [u], from, chunks, i + 1)
  {
    forall k: nat | k < i ensures UnitFollows(b, path, units + [u], from, chunks, k) {
      FollowsStays(b, path, units, from, chunks, k, u);
    }
  }

  /** One conversation's chunks. The parent's unit is always found, and is the one this
      conversation made, even where two conversations share an id. */
  method AddConversation(h: Host, b: Bundle, path: string, ghost doc: Json, conv: string, chunks: seq<TreeChunk>,
                         units: seq<Unit>, unitOf: map<(string, string), string>)
    returns (units': seq<Unit>, unitOf': map<(string, string), string>)
    requires BundleOk(b) && path in b.manifest && Read(b, path).Some? && h.parse(Read(b, path).value) == Some(doc)
    requires ChunksOf(h, doc, chunks) && Sound(h, b, units)
    ensures Sound(h, b, units') && units <= units' && FollowsTree(b, path, units', |units|, chunks, |chunks|)
  {
    units', unitOf' := units, unitOf;
    for i := 0 to |chunks|
      invariant Sound(h, b, units') && units <= units'
      invariant FollowsTree(b, path, units', |units|, chunks, i) && Known(unitOf', conv, chunks, i, |units|)
    {
      KnownGrows(unitOf', conv, chunks, i, |units|);
      unitOf' := unitOf'[(conv, chunks[i].nodeId) := UnitId(|units'|)];
      var u := AddChunk(h, b, path, doc, conv, chunks, i, |units|, units', unitOf');
      units' := units' + [u];
    }
  }

  /** The unit of one chunk. */
  method AddChunk(h: Host, b: Bundle, path: string, ghost doc: Json, conv: string, chunks: seq<TreeChunk>, i: nat,
                  ghost from: nat, units: seq<Unit>, unitOf: map<(string, string), string>)
    returns (u: Unit)
    requires BundleOk(b) && path in b.manifest && Read(b, path).Some? && h.parse(Read(b, path).value) == Some(doc)
    requires ChunksOf(h, doc, chunks) && Sound(h, b, units) && i < |chunks|
    requires FollowsTree(b, path, units, from, chunks, i) && Known(unitOf, conv, chunks, i + 1, from)
    ensures Sound(h, b, units + [u]) && FollowsTree(b, path, units + [u], from, chunks, i + 1)
  {
    var chunk := chunks[i];
    ghost var parent := ParentUnit(chunks, i, from);
    ParentKnown(b, path, conv, chunks, i, from, units, unitOf, parent);
    u := Unit(UnitId(|units|), Message, chunk.text, |units|, None,
              if chunk.parentNodeId.Some? then Some(unitOf[(conv, chunk.parentNodeId.value)]) else None,
              AnchorOf(b, path, chunk));
    ChunkAdded(h, b, path, doc, chunks, i, from, units, u, parent);
  }

  /** The dictionary holds the parent chunk's unit. */
  lemma ParentKnown(b: Bundle, path: string, conv: string, chunks: seq<TreeChunk>, i: nat, from: nat, units: seq<Unit>,
                    unitOf: map<(string, string), string>, parent: Option<nat>)
    requires path in b.manifest && i < |chunks| && FollowsTree(b, path, units, from, chunks, i)
    requires Known(unitOf, conv, chunks, i + 1, from)
    requires parent.Some? <==> chunks[i].parentNodeId.Some?
    requires parent.Some? ==> from <= parent.value && IsParentChunk(chunks, i, parent.value - from)
    ensures parent.Some? ==>
      && parent.value < |units| && units[parent.value].anchor.artifact == path
      && (conv, chunks[i].parentNodeId.value) in unitOf
      && unitOf[(conv, chunks[i].parentNodeId.value)] == UnitId(parent.value)
  {
    if parent.Some? {
      var j := parent.value - from;
      assert UnitFollows(b, path, units, from, chunks, j) && |units| == from + i;
      assert Some(chunks[j].nodeId) == chunks[i].parentNodeId && j < i + 1;
      assert (conv, chunks[j].nodeId) in unitOf;
    }
  }

  lemma ChunkAdded(h: Host, b: Bundle, path: string, doc: Json, chunks: seq<TreeChunk>, i: nat, from: nat,
                   units: seq<Unit>, u: Unit, parent: Option<nat>)
    requires BundleOk(b) && path in b.manifest && Read(b, path).Some? && h.parse(Read(b, path).value) == Some(doc)
    requires ChunksOf(h, doc, chunks) && Sound(h, b, units) && i < |chunks| && FollowsTree(b, path, units, from, chunks, i)
    requires u == Unit(UnitId(|units|), Message, chunks[i].text, |units|, None, IdOf(parent), AnchorOf(b, path, chunks[i]))
    requires parent.Some? <==> chunks[i].parentNodeId.Some?
    requires parent.Some? ==> from <= parent.value < |units| && IsParentChunk(chunks, i, parent.value - from)
    requires parent.Some? ==> units[parent.value].anchor.artifact == path
    ensures Sound(h, b, units + [u]) && FollowsTree(b, path, units + [u], from, chunks, i + 1)
  {
    NewUnitSound(h, b, path, doc, chunks, i, units, u, parent);
    SoundGrows(h, b, units, u);
    NewUnitFollows(b, path, units, from, chunks, i, u, parent);
    FollowsGrows(b, path, units, from, chunks, i, u);
  }

  /** The number of the unit made from chunk i's parent chunk. */
  ghost function ParentUnit(chunks: seq<TreeChunk>, i: nat, from: nat): (r: Option<nat>)
    requires ParentsFirst(chunks) && i < |chunks|
    ensures r.Some? <==> chunks[i].parentNodeId.Some?
    ensures r.Some? ==> from <= r.value < from + i && IsParentChunk(chunks, i, r.value - from)
  {
    if chunks[i].parentNodeId.None? then None
    else
      assert EmittedBefore(chunks, i, chunks[i].parentNodeId.value);
      var j :| 0 <= j < i && chunks[j].nodeId == chunks[i].parentNodeId.value;
      Some(from + j)
  }

  lemma NewUnitFollows(b: Bundle, path: string, units: seq<Unit>, from: nat, chunks: seq<TreeChunk>, i: nat, u: Unit, parent: Option<nat>)
    requires path in b.manifest && i < |chunks| && |units| == from + i
    requires u == Unit(UnitId(|units|), Message, chunks[i].text, |units|, None, IdOf(parent), AnchorOf(b, path, chunks[i]))
    requires parent.Some? <==> chunks[i].parentNodeId.Some?
    requires parent.Some? ==> from <= parent.value && IsParentChunk(chunks, i, parent.value - from)
    ensures UnitFollows(b, path, units + [u], from, chunks, i)
  {
  }

  // ---- The whole bundle --------------------------------------------------

  const INDEX := "index.jsonl"

  /** One conversation file: read, parsed, walked. */
  method ReadConversation(h: Host, b: Bundle, path: string)
    returns (r: Result<(Json, seq<TreeChunk>), NormalizeError>)
    requires GoodHost(h)
    ensures r.Ok? ==> path in b.manifest && Read(b, path).Some? && h.parse(Read(b, path).value) == Some(r.value.0)
    ensures r.Ok? ==> ChunksOf(h, r.value.0, r.value.1)
  {
    if path !in b.manifest {
      return Err(Malformed);
    }
    var raw := Read(b, path);
    if raw.None? {
      return Err(ArtifactUnreadable);
    }
    var doc := h.parse(raw.value);
    if doc.None? || !doc.value.JObject? {
      return Err(Malformed);
    }
    var chunks := ConversationChunks(ConversationOf(h, doc.value));
    if chunks.Err? {
      return Err(Malformed);
    }
    ghost var ps, branch :| CompleteWalk(MappingOf(ConversationOf(h, doc.value)), branch, ps, chunks.value);
    WalkGivesChunks(h, doc.value, branch, ps, chunks.value);
    return Ok((doc.value, chunks.value));
  }

  lemma SoundVerifies(h: Host, b: Bundle, e: Extraction)
    requires BundleOk(b) && Sound(h, b, e.units) && HeaderMatches(b, e)
    ensures ValidExtraction(e) && Verified(h, b, e)
  {
    forall i | 0 <= i < |e.units|
      ensures ValidUnit(e.units[i]) && e.units[i].order == i && TextAt(h, b, e.units[i].anchor) == Ok(e.units[i].text)
      ensures e.units[i].parent.Some? ==> EarlierUnit(e.units, i, e.units[i].parent.value)
    {
      assert SoundUnit(h, b, e.units, i);
      if e.units[i].parent.Some? {
        var j :| 0 <= j < i && e.units[i].parent == Some(UnitId(j)) && e.units[j].anchor.artifact == e.units[i].anchor.artifact;
        assert SoundUnit(h, b, e.units, j);
      }
    }
    forall i, j | 0 <= i < j < |e.units| ensures e.units[i].id != e.units[j].id {
      assert SoundUnit(h, b, e.units, i) && SoundUnit(h, b, e.units, j);
      if e.units[i].id == e.units[j].id { UnitIdsDiffer(i, j); }
    }
  }

  /** normalize_chatgpt: whenever it returns, its extraction is valid and verifies,
      and every parent is an earlier unit of the same conversation file. */
  method NormalizeChatgpt(h: Host, b: Bundle) returns (r: Result<Extraction, NormalizeError>)
    requires GoodHost(h) && BundleOk(b) && NormalizerId(b) == Some(Ident("chatgpt", "1"))
    ensures r.Ok? ==> ValidExtraction(r.value) && Verified(h, b, r.value) && Sound(h, b, r.value.units)
  {
    if INDEX !in b.manifest {
      return Err(NoOutput);
    }
    var index := Read(b, INDEX);
    if index.None? {
      return Err(ArtifactUnreadable);
    }
    var entries := h.index(index.value);
    if entries.None? {
      return Err(Malformed);
    }
    var units: seq<Unit> := [];
    var unitOf: map<(string, string), string> := map[];
    var seenIds: map<string, nat> := map[];
    ghost var ids: seq<string> := [];
    for i := 0 to |entries.value|
      invariant Sound(h, b, units) && Counts(seenIds, ids)
    {
      var entry := entries.value[i];
      var read := ReadConversation(h, b, entry.path);
      if read.Err? {
        return Err(read.error);
      }
      var (doc, chunks) := read.value;
      var id := h.conversationId(doc, entry.index);
      var name: string;
      seenIds, name := NameConversation(seenIds, id, ids);
      ids := ids + [id];
      units, unitOf := AddConversation(h, b, entry.path, doc, name, chunks, units, unitOf);
    }
    var e := Extraction(b.recordId, b.artifactHash, b.sourceHash, ParserId(b), Ident("chatgpt", "1"), units);
    SoundVerifies(h, b, e);
    return Ok(e);
  }
}
