/**
 The Markdown normalizer (stele/extraction/normalizers.py): one unit a block,
 anchored at its byte range, with headings nested by level.
 */
module Normalize {
  import opened Extraction
  import opened Refs
  import opened Resolver
  import opened Utf8
  import opened Wrappers
  import M = Markdown

  datatype NormalizeError = NoOutput | MalformedManifest | ArtifactUnreadable | NotText | Malformed

  /** What a sealed record guarantees of its bundle. */
  ghost predicate BundleOk(b: Bundle) {
    && b.recordId != "" && IsDigest(b.artifactHash) && (b.sourceHash.Some? ==> IsDigest(b.sourceHash.value))
    && forall p :: p in b.manifest ==> p != "" && IsDigest(b.manifest[p])
  }

  function Read(b: Bundle, path: string): Option<seq<Byte>>
    requires path in b.manifest
  {
    if b.manifest[path] in b.archive then Some(b.archive[b.manifest[path]]) else None
  }

  // ---- Which file --------------------------------------------------------

  const PARSER_MANIFEST := "stele-parser.json"
  const DEFAULT_MARKDOWN := "document.md"

  /** The outputs.markdown member: null, a value, or a document that has no such member to read. */
  function NamedMarkdown(h: Host, data: seq<Byte>): Result<Json, NormalizeError> {
    match h.parse(data)
    case None => Err(MalformedManifest)
    case Some(doc) => if doc.JObject? then Ok(Member(Member(doc, "outputs"), "markdown")) else Err(MalformedManifest)
  }

  function DefaultPath(b: Bundle): Result<string, NormalizeError> {
    if DEFAULT_MARKDOWN in b.manifest then Ok(DEFAULT_MARKDOWN) else Err(NoOutput)
  }

  /** markdown_path. */
  function MarkdownPath(h: Host, b: Bundle): (r: Result<string, NormalizeError>)
    ensures r.Ok? ==> r.value in b.manifest
  {
    if PARSER_MANIFEST !in b.manifest then DefaultPath(b)
    else if Read(b, PARSER_MANIFEST).None? then Err(ArtifactUnreadable)
    else
      match NamedMarkdown(h, Read(b, PARSER_MANIFEST).value)
      case Err(e) => Err(e)
      case Ok(named) =>
        if named.JNull? then DefaultPath(b)
        else if !named.JString? || named.s !in b.manifest then Err(MalformedManifest)
        else Ok(named.s)
  }

  ghost predicate Names(h: Host, b: Bundle, named: Json) {
    PARSER_MANIFEST in b.manifest && Read(b, PARSER_MANIFEST).Some? && NamedMarkdown(h, Read(b, PARSER_MANIFEST).value) == Ok(named)
  }

  /** The path taken is the one the parser manifest names, or the default if it names
      none or is absent, and only an artifact of the bundle. */
  lemma MarkdownPathIff(h: Host, b: Bundle, path: string)
    ensures MarkdownPath(h, b) == Ok(path) <==>
      && path in b.manifest
      && (Names(h, b, JString(path))
          || (path == DEFAULT_MARKDOWN && (PARSER_MANIFEST !in b.manifest || Names(h, b, JNull))))
  {
  }

  // ---- Heading nesting ---------------------------------------------------

  /** Unit i is a heading of this level. */
  function LevelAt(levels: seq<Option<nat>>, i: int): Option<nat>
    requires 0 <= i < |levels|
  {
    levels[i]
  }

  /** j is the nearest unit before k that heads a section k lies in: the nearest heading
      of strictly smaller level, or for other blocks the latest heading. */
  ghost predicate Heads(levels: seq<Option<nat>>, k: nat, j: int)
    requires k < |levels|
  {
    && 0 <= j < k && levels[j].Some? && (levels[k].Some? ==> levels[j].value < levels[k].value)
    && forall i :: j < i < k && LevelAt(levels, i).Some? ==> levels[k].Some? && levels[i].value >= levels[k].value
  }

  ghost predicate NestedUnder(levels: seq<Option<nat>>, k: nat, parent: Option<nat>)
    requires k < |levels|
  {
    match parent
    case Some(j) => Heads(levels, k, j)
    case None => forall i :: 0 <= i < k && LevelAt(levels, i).Some? ==> levels[k].Some? && levels[i].value >= levels[k].value
  }

  /** The open sections: indices of headings, levels strictly increasing, covering every
      heading that no later heading has closed. */
  ghost predicate OpenSections(levels: seq<Option<nat>>, open: seq<nat>) {
    && (forall i :: 0 <= i < |open| ==> open[i] < |levels| && levels[open[i]].Some?)
    && (forall i, j :: 0 <= i < j < |open| ==> open[i] < open[j] && levels[open[i]].value < levels[open[j]].value)
    && (forall k :: 0 <= k < |levels| && LevelAt(levels, k).Some? ==> Closed(levels, open, k))
  }

  /** Heading k is open, or an open heading after it is of no larger level. */
  ghost predicate Closed(levels: seq<Option<nat>>, open: seq<nat>, k: int)
    requires 0 <= k < |levels| && levels[k].Some?
    requires forall i :: 0 <= i < |open| ==> open[i] < |levels| && levels[open[i]].Some?
  {
    exists i :: 0 <= i < |open| && k <= open[i] && levels[open[i]].value <= levels[k].value
  }

  function Last(s: seq<nat>): Option<nat> { if s == [] then None else Some(s[|s| - 1]) }

  /** Pop sections of the new heading's level or deeper. */
  method PopTo(levels: seq<Option<nat>>, open: seq<nat>, level: nat) returns (r: seq<nat>)
    requires OpenSections(levels, open)
    ensures r <= open && (r != [] ==> r[|r| - 1] < |levels| && levels[r[|r| - 1]].Some? && levels[r[|r| - 1]].value < level)
    ensures forall i :: |r| <= i < |open| ==> open[i] < |levels| && levels[open[i]].Some? && levels[open[i]].value >= level
  {
    r := open;
    while r != [] && levels[r[|r| - 1]].value >= level
      invariant r <= open
      invariant forall i :: |r| <= i < |open| ==> open[i] < |levels| && levels[open[i]].Some? && levels[open[i]].value >= level
      decreases |r|
    {
      r := r[..|r| - 1];
    }
  }

  /** What remains open after popping heads the new unit. */
  lemma HeadFound(levels: seq<Option<nat>>, open: seq<nat>, r: seq<nat>, level: Option<nat>)
    requires OpenSections(levels, open) && r <= open
    requires level.None? ==> r == open
    requires level.Some? && r != [] ==> levels[r[|r| - 1]].value < level.value
    requires level.Some? ==> forall i :: |r| <= i < |open| ==> levels[open[i]].value >= level.value
    ensures NestedUnder(levels + [level], |levels|, Last(r))
  {
    var more, k := levels + [level], |levels|;
    forall i | 0 <= i < k && more[i].Some? && (r == [] || i > r[|r| - 1])
      ensures level.Some? && more[i].value >= level.value
    {
      assert LevelAt(levels, i).Some?;
      assert Closed(levels, open, i);
      var x :| 0 <= x < |open| && i <= open[x] && levels[open[x]].value <= levels[i].value;
      if x < |r| { assert r[x] == open[x]; }
    }
  }

  lemma SectionBelow(levels: seq<Option<nat>>, open: seq<nat>, r: seq<nat>, level: Option<nat>, i: nat, j: nat)
    requires OpenSections(levels, open) && r <= open
    requires level.None? ==> r == open
    requires level.Some? && r != [] ==> levels[r[|r| - 1]].value < level.value
    requires i < j < |if level.Some? then r + [|levels|] else r|
    ensures var open', more := (if level.Some? then r + [|levels|] else r), levels + [level];
      i < |r| && open'[i] == open[i] && open[i] < |levels| && open'[i] < open'[j] < |more|
      && more[open'[i]].Some? && more[open'[j]].Some? && more[open'[i]].value < more[open'[j]].value
  {
    if j >= |r| && i < |r| - 1 {
      assert open[i] < open[|r| - 1] && levels[open[i]].value < levels[open[|r| - 1]].value;
    }
  }

  lemma SectionCloser(levels: seq<Option<nat>>, open: seq<nat>, r: seq<nat>, level: Option<nat>, k: nat)
    requires forall i :: 0 <= i < |open| ==> open[i] < |levels| && levels[open[i]].Some?
    requires r <= open && k < |levels| && levels[k].Some? && Closed(levels, open, k)
    requires level.None? ==> r == open
    requires level.Some? ==> forall i :: |r| <= i < |open| ==> levels[open[i]].value >= level.value
    ensures var open', more := (if level.Some? then r + [|levels|] else r), levels + [level];
      exists x :: 0 <= x < |open'| && k <= open'[x] && open'[x] < |more| && more[open'[x]].Some? && more[open'[x]].value <= levels[k].value
  {
    var open', more := (if level.Some? then r + [|levels|] else r), levels + [level];
    var x :| 0 <= x < |open| && k <= open[x] && levels[open[x]].value <= levels[k].value;
    if x < |r| {
      assert open'[x] == open[x] && more[open'[x]] == levels[open[x]];
    } else {
      assert open'[|r|] == |levels| && more[|levels|] == level;
    }
  }

  lemma SectionsAfter(levels: seq<Option<nat>>, open: seq<nat>, r: seq<nat>, level: Option<nat>)
    requires OpenSections(levels, open) && r <= open
    requires level.None? ==> r == open
    requires level.Some? && r != [] ==> levels[r[|r| - 1]].value < level.value
    requires level.Some? ==> forall i :: |r| <= i < |open| ==> levels[open[i]].value >= level.value
    ensures OpenSections(levels + [level], if level.Some? then r + [|levels|] else r)
  {
    var more := levels + [level];
    var open' := if level.Some? then r + [|levels|] else r;
    forall i, j | 0 <= i < j < |open'| ensures open'[i] < open'[j] && more[open'[i]].value < more[open'[j]].value {
      SectionBelow(levels, open, r, level, i, j);
    }
    forall k | 0 <= k < |more| && LevelAt(more, k).Some? ensures Closed(more, open', k) {
      if k < |levels| {
        assert LevelAt(levels, k).Some?;
        SectionCloser(levels, open, r, level, k);
      } else {
        assert open'[|r|] == |levels|;
      }
    }
  }

  // ---- Units -------------------------------------------------------------

  function KindName(k: M.Kind): Kind {
    match k
    case Heading(_) => Heading
    case Code => Code
    case Table => Table
    case List => List
    case Formula => Formula
    case Figure => Figure
    case Paragraph => Paragraph
  }

  function LevelOf(k: M.Kind): Option<nat> { if k.Heading? then Some(k.level) else None }

  function IdOf(parent: Option<nat>): Option<string> { if parent.Some? then Some(UnitId(parent.value)) else None }

  function Levels(units: seq<Unit>): (ls: seq<Option<nat>>)
    ensures |ls| == |units|
  {
    seq(|units|, i requires 0 <= i < |units| => units[i].level)
  }

  /** Unit i is block i of the document. */
  ghost predicate IsBlock(b: Bundle, path: string, data: seq<Byte>, blocks: seq<(nat, nat)>, units: seq<Unit>, i: nat)
    requires i < |units| && path in b.manifest
  {
    && i < |blocks| && blocks[i].0 < blocks[i].1 <= |data|
    && var block := data[blocks[i].0..blocks[i].1];
       var u := units[i];
       && u.id == UnitId(i) && u.order == i && Decode(block) == Some(u.text)
       && u.kind == KindName(M.KindOf(block)) && u.level == LevelOf(M.KindOf(block))
       && u.anchor == RangeAnchor(path, b.manifest[path], blocks[i].0, blocks[i].1)
  }

  ghost predicate Nested(units: seq<Unit>, i: nat)
    requires i < |units|
  {
    exists parent: Option<nat> :: units[i].parent == IdOf(parent) && NestedUnder(Levels(units[..i + 1]), i, parent)
  }

  ghost predicate BlockUnits(b: Bundle, path: string, data: seq<Byte>, blocks: seq<(nat, nat)>, units: seq<Unit>)
    requires path in b.manifest
  {
    forall i :: 0 <= i < |units| ==> IsBlock(b, path, data, blocks, units, i) && Nested(units, i)
  }

  lemma BlockUnitsAppend(b: Bundle, path: string, data: seq<Byte>, blocks: seq<(nat, nat)>, units: seq<Unit>, u: Unit)
    requires path in b.manifest && BlockUnits(b, path, data, blocks, units)
    requires IsBlock(b, path, data, blocks, units + [u], |units|) && Nested(units + [u], |units|)
    ensures BlockUnits(b, path, data, blocks, units + [u])
  {
    var more := units + [u];
    forall i | 0 <= i < |more| ensures IsBlock(b, path, data, blocks, more, i) && Nested(more, i) {
      if i < |units| {
        assert IsBlock(b, path, data, blocks, units, i) && Nested(units, i);
        assert more[..i + 1] == units[..i + 1] && more[i] == units[i];
      }
    }
  }

  lemma {:induction false} DecodeNonEmpty(bs: seq<Byte>)
    requires bs != [] && Decode(bs).Some?
    ensures Decode(bs).value != ""
  {
  }

  /** Units over blocks, each nested under an earlier one, form a valid, verified extraction. */
  lemma BlockUnitsVerify(h: Host, b: Bundle, path: string, data: seq<Byte>, blocks: seq<(nat, nat)>, e: Extraction)
    requires BundleOk(b) && path in b.manifest && Read(b, path) == Some(data)
    requires BlockUnits(b, path, data, blocks, e.units) && HeaderMatches(b, e)
    ensures ValidExtraction(e) && Verified(h, b, e)
  {
    forall i | 0 <= i < |e.units|
      ensures ValidUnit(e.units[i]) && e.units[i].order == i && TextAt(h, b, e.units[i].anchor) == Ok(e.units[i].text)
      ensures e.units[i].parent.Some? ==> EarlierUnit(e.units, i, e.units[i].parent.value)
    {
      assert IsBlock(b, path, data, blocks, e.units, i) && Nested(e.units, i);
      DecodeNonEmpty(data[blocks[i].0..blocks[i].1]);
      var parent: Option<nat> :| e.units[i].parent == IdOf(parent) && NestedUnder(Levels(e.units[..i + 1]), i, parent);
      if parent.Some? {
        assert IsBlock(b, path, data, blocks, e.units, parent.value);
        assert e.units[parent.value].id == e.units[i].parent.value;
      }
    }
    forall i, j | 0 <= i < j < |e.units| ensures e.units[i].id != e.units[j].id {
      assert IsBlock(b, path, data, blocks, e.units, i) && IsBlock(b, path, data, blocks, e.units, j);
      if e.units[i].id == e.units[j].id { UnitIdsDiffer(i, j); }
    }
  }

  /** normalize_markdown: whenever it returns, its extraction is valid and verifies,
      one unit a block, nested by heading level. */
  method NormalizeMarkdown(h: Host, b: Bundle) returns (r: Result<Extraction, NormalizeError>)
    requires BundleOk(b) && NormalizerId(b) == Some(Ident("markdown", "1"))
    ensures r.Ok? ==> ValidExtraction(r.value) && Verified(h, b, r.value)
    ensures r.Ok? ==> MarkdownPath(h, b).Ok? && Read(b, MarkdownPath(h, b).value).Some?
    ensures r.Ok? ==> var data := Read(b, MarkdownPath(h, b).value).value;
      |r.value.units| == |M.Blocks(data)| && BlockUnits(b, MarkdownPath(h, b).value, data, M.Blocks(data), r.value.units)
  {
    var named := MarkdownPath(h, b);
    if named.Err? {
      return Err(named.error);
    }
    var path := named.value;
    var read := Read(b, path);
    if read.None? {
      return Err(ArtifactUnreadable);
    }
    var units := MarkdownUnits(b, path, read.value);
    if units.None? {
      return Err(NotText);
    }
    var e := Extraction(b.recordId, b.artifactHash, b.sourceHash, ParserId(b), Ident("markdown", "1"), units.value);
    BlockUnitsVerify(h, b, path, read.value, M.Blocks(read.value), e);
    return Ok(e);
  }

  /** The loop over blocks. */
  method MarkdownUnits(b: Bundle, path: string, data: seq<Byte>) returns (r: Option<seq<Unit>>)
    requires path in b.manifest
    ensures r.Some? ==> |r.value| == |M.Blocks(data)| && BlockUnits(b, path, data, M.Blocks(data), r.value)
  {
    var blocks := M.MarkdownBlocks(data);
    M.BlocksCoverTheText(data);
    var units: seq<Unit> := [];
    var headings: seq<nat> := [];
    for i := 0 to |blocks|
      invariant |units| == i && BlockUnits(b, path, data, blocks, units) && OpenSections(Levels(units), headings)
    {
      var unit;
      unit, headings := AddBlock(b, path, data, blocks, units, headings);
      if unit.None? {
        return None;
      }
      BlockUnitsAppend(b, path, data, blocks, units, unit.value);
      units := units + [unit.value];
    }
    return Some(units);
  }

  /** The loop's body: one block. */
  method AddBlock(b: Bundle, path: string, data: seq<Byte>, blocks: seq<(nat, nat)>, units: seq<Unit>, headings: seq<nat>)
    returns (unit: Option<Unit>, headings': seq<nat>)
    requires path in b.manifest && |units| < |blocks| && OpenSections(Levels(units), headings)
    requires M.Ranges(blocks, |data|)
    ensures unit.Some? ==> IsBlock(b, path, data, blocks, units + [unit.value], |units|)
    ensures unit.Some? ==> Nested(units + [unit.value], |units|) && OpenSections(Levels(units + [unit.value]), headings')
  {
    var i := |units|;
    var (start, end) := blocks[i];
    var block := data[start..end];
    var text := Decode(block);
    headings' := headings;
    if text.None? {
      return None, headings';
    }
    var kind := M.KindOf(block);
    ghost var levels, level := Levels(units), LevelOf(kind);
    if kind.Heading? {
      headings' := PopTo(Levels(units), headings', kind.level);
    }
    var parent := Last(headings');
    HeadFound(levels, headings, headings', level);
    SectionsAfter(levels, headings, headings', level);
    if kind.Heading? {
      headings' := headings' + [i];
    }
    var u := Unit(UnitId(i), KindName(kind), text.value, i, LevelOf(kind), IdOf(parent),
                  RangeAnchor(path, b.manifest[path], start, end));
    assert Levels(units + [u]) == levels + [level];
    assert (units + [u])[..i + 1] == units + [u];
    return Some(u), headings';
  }
}
