/**
 The trusted resolver (stele/extraction/resolver.py): JSON pointers (sections 3
 and 4 of RFC 6901), anchors, and the verification of an extraction, with its
 one-artifact cache.
 */
module Resolver {
  import opened Extraction
  import opened Refs
  import opened Seqs
  import opened Utf8
  import opened Wrappers

  // ---- Pointers ----------------------------------------------------------

  /** str.replace of a two-character pattern by one character. */
  function Replace2(s: string, a: char, b: char, c: char): string {
    if |s| < 2 then s
    else if s[0] == a && s[1] == b then [c] + Replace2(s[2..], a, b, c)
    else [s[0]] + Replace2(s[1..], a, b, c)
  }

  /** str.replace of one character by two. */
  function Replace1(s: string, c: char, a: char, b: char): string {
    if s == "" then "" else (if s[0] == c then [a, b] else [s[0]]) + Replace1(s[1..], c, a, b)
  }

  function Escape(token: string): string { Replace1(Replace1(token, '~', '~', '0'), '/', '~', '1') }

  function Unescape(raw: string): string { Replace2(Replace2(raw, '~', '1', '/'), '~', '0', '~') }

  /** json_pointer(*tokens). */
  function Pointer(tokens: seq<string>): string {
    if tokens == [] then "" else "/" + Escape(tokens[0]) + Pointer(tokens[1..])
  }

  predicate NoBareTilde(s: string) { forall i | 0 <= i < |s| :: s[i] == '~' ==> i + 1 < |s| && s[i + 1] == '0' }

  lemma {:induction false} TildesEscaped(s: string)
    ensures NoBareTilde(Replace1(s, '~', '~', '0')) && Replace2(Replace1(s, '~', '~', '0'), '~', '0', '~') == s
  {
    if s != "" {
      TildesEscaped(s[1..]);
      var rest := Replace1(s[1..], '~', '~', '0');
      var t := Replace1(s, '~', '~', '0');
      if s[0] == '~' {
        assert t == ['~', '0'] + rest && t[2..] == rest;
      } else {
        assert t == [s[0]] + rest && t[1..] == rest;
        if |t| < 2 { assert rest == ""; }
      }
      assert s == [s[0]] + s[1..];
    }
  }

  /** Where no bare tilde precedes it, "~1" only ever comes from a slash. */
  lemma {:induction false} SlashesEscaped(s: string)
    requires NoBareTilde(s)
    ensures Replace2(Replace1(s, '/', '~', '1'), '~', '1', '/') == s
    ensures '/' !in Replace1(s, '/', '~', '1')
  {
    if s != "" {
      forall i | 0 <= i < |s[1..]| ensures s[1..][i] == '~' ==> i + 1 < |s[1..]| && s[1..][i + 1] == '0' {
        assert s[1..][i] == s[i + 1];
      }
      SlashesEscaped(s[1..]);
      var rest := Replace1(s[1..], '/', '~', '1');
      var t := Replace1(s, '/', '~', '1');
      assert s == [s[0]] + s[1..];
      if s[0] == '/' {
        assert t == ['~', '1'] + rest && t[2..] == rest;
      } else {
        assert t == [s[0]] + rest && t[1..] == rest;
        if s[0] == '~' {
          assert s[1] == '0' && s[1..] == ['0'] + s[2..];
          assert rest[0] == '0';
        }
        if |t| < 2 { assert rest == ""; }
      }
    }
  }

  lemma UnescapeInvertsEscape(token: string)
    ensures Unescape(Escape(token)) == token && '/' !in Escape(token)
  {
    TildesEscaped(token);
    SlashesEscaped(Replace1(token, '~', '~', '0'));
  }

  /** The value one reference token leads to. */
  function Descend(value: Json, token: string): Option<Json> {
    match value
    case JObject(_, members) => if token in members then Some(members[token]) else None
    case JArray(items) => if IsUint(token) && IntOf(token) < |items| then Some(items[IntOf(token)]) else None
    case _ => None
  }

  function DescendAll(value: Json, tokens: seq<string>): Option<Json> {
    if tokens == [] then Some(value)
    else
      var next := Descend(value, tokens[0]);
      if next.None? then None else DescendAll(next.value, tokens[1..])
  }

  function RawTokens(pointer: string): seq<string> {
    if pointer == "" then [] else Split(pointer[1..], '/')
  }

  function Unescaped(raw: seq<string>): (tokens: seq<string>)
    ensures |tokens| == |raw|
  {
    seq(|raw|, i requires 0 <= i < |raw| => Unescape(raw[i]))
  }

  /** resolve_pointer's value. */
  function AtPointer(doc: Json, pointer: string): Option<Json> { DescendAll(doc, Unescaped(RawTokens(pointer))) }

  lemma FirstTokenSplits(token: string, rest: string)
    ensures Unescaped(Split(Escape(token), '/')) == [token]
    ensures Unescaped(Split(Escape(token) + ['/'] + rest, '/')) == [token] + Unescaped(Split(rest, '/'))
  {
    UnescapeInvertsEscape(token);
    SplitFirst(Escape(token), '/', rest);
  }

  /** Text that is "/" and then splits into these unescaped tokens. */
  ghost predicate PointsBy(pointer: string, tokens: seq<string>) {
    pointer != "" && pointer[0] == '/' && Unescaped(Split(pointer[1..], '/')) == tokens
  }

  lemma LastToken(token: string)
    ensures PointsBy("/" + Escape(token), [token])
  {
    FirstTokenSplits(token, "");
    assert ("/" + Escape(token))[1..] == Escape(token);
  }

  lemma OneMoreToken(token: string, rest: string, tokens: seq<string>)
    requires PointsBy(rest, tokens)
    ensures PointsBy("/" + Escape(token) + rest, [token] + tokens)
  {
    FirstTokenSplits(token, rest[1..]);
    assert ("/" + Escape(token) + rest)[1..] == Escape(token) + ['/'] + rest[1..];
  }

  lemma {:induction false} PointerSplits(tokens: seq<string>)
    requires tokens != []
    ensures PointsBy(Pointer(tokens), tokens)
  {
    if |tokens| == 1 {
      LastToken(tokens[0]);
      assert Pointer(tokens[1..]) == "" && "/" + Escape(tokens[0]) + "" == "/" + Escape(tokens[0]);
      assert tokens == [tokens[0]];
    } else {
      PointerSplits(tokens[1..]);
      OneMoreToken(tokens[0], Pointer(tokens[1..]), tokens[1..]);
      assert [tokens[0]] + tokens[1..] == tokens;
    }
  }

  /** resolve_pointer inverts json_pointer: it descends by exactly the tokens. */
  lemma ResolveInvertsPointer(doc: Json, tokens: seq<string>)
    ensures AtPointer(doc, Pointer(tokens)) == DescendAll(doc, tokens)
  {
    if tokens != [] { PointerSplits(tokens); }
  }

  method ResolvePointer(doc: Json, pointer: string) returns (r: Option<Json>)
    ensures r == AtPointer(doc, pointer)
  {
    if pointer == "" {
      return Some(doc);
    }
    var value := doc;
    var raws := Split(pointer[1..], '/');
    ghost var tokens := Unescaped(raws);
    for i := 0 to |raws|
      invariant DescendAll(doc, tokens) == DescendAll(value, tokens[i..])
    {
      var token := Unescape(raws[i]);
      assert tokens[i..][0] == token && tokens[i..][1..] == tokens[i + 1..];
      if value.JObject? {
        if token !in value.members {
          return None;
        }
        value := value.members[token];
      } else if value.JArray? {
        if !IsUint(token) {
          return None;
        }
        var index := IntOf(token);
        if index >= |value.items| {
          return None;
        }
        value := value.items[index];
      } else {
        return None;
      }
    }
    return Some(value);
  }

  // ---- Anchors -----------------------------------------------------------

  datatype Problem =
    | NotAnArtifact | WrongDigest | Unreadable | NotJson | PastEnd | NotUtf8 | UnknownRenderer | NoSuchValue | WrongValue

  const JSON_STRING := "json-string"
  const CHATGPT_MESSAGE := "chatgpt-message"

  /** The anchored artifact's bytes, read without a cache. */
  function BytesOf(b: Bundle, a: Anchor): Result<seq<Byte>, Problem> {
    if a.artifact !in b.manifest then Err(NotAnArtifact)
    else if b.manifest[a.artifact] != a.digest then Err(WrongDigest)
    else if a.digest !in b.archive then Err(Unreadable)
    else Ok(b.archive[a.digest])
  }

  function JsonOf(h: Host, b: Bundle, a: Anchor): Result<Json, Problem> {
    match BytesOf(b, a)
    case Err(e) => Err(e)
    case Ok(data) => if h.parse(data).Some? then Ok(h.parse(data).value) else Err(NotJson)
  }

  function Render(h: Host, renderer: string, value: Json): Result<string, Problem> {
    if renderer == JSON_STRING then if value.JString? then Ok(value.s) else Err(WrongValue)
    else if value.JObject? then Ok(h.render(value)) else Err(WrongValue)
  }

  /** The text the sealed evidence gives for an anchor. */
  function TextAt(h: Host, b: Bundle, a: Anchor): Result<string, Problem>
    requires ValidAnchor(a)
  {
    match a
    case RangeAnchor(_, _, start, end) =>
      (match BytesOf(b, a)
       case Err(e) => Err(e)
       case Ok(data) =>
         if end > |data| then Err(PastEnd)
         else if Decode(data[start..end]).None? then Err(NotUtf8)
         else Ok(Decode(data[start..end]).value))
    case PointerAnchor(_, _, pointer, renderer) =>
      if renderer != JSON_STRING && renderer != CHATGPT_MESSAGE then Err(UnknownRenderer)
      else
        match JsonOf(h, b, a)
        case Err(e) => Err(e)
        case Ok(doc) =>
          if AtPointer(doc, pointer).None? then Err(NoSuchValue) else Render(h, renderer, AtPointer(doc, pointer).value)
  }

  const MARKDOWN_PARSERS: set<string> := {"mineru", "marker", "docling"}
  const SPLITTER := "chatgpt-export-split"

  function ParserId(b: Bundle): Ident { if b.parser.Some? then b.parser.value else Ident("unknown", "unknown") }

  function NormalizerId(b: Bundle): Option<Ident> {
    if b.parser.None? then None
    else if b.parser.value.name in MARKDOWN_PARSERS then Some(Ident("markdown", "1"))
    else if b.parser.value.name == SPLITTER then Some(Ident("chatgpt", "1"))
    else None
  }

  predicate HeaderMatches(b: Bundle, e: Extraction) {
    && e.recordId == b.recordId && e.artifactHash == b.artifactHash && e.sourceHash == b.sourceHash
    && e.parser == ParserId(b) && NormalizerId(b) == Some(e.normalizer)
  }

  /** Every unit's text is what its anchor says, and the header is the record's. */
  ghost predicate Verified(h: Host, b: Bundle, e: Extraction) {
    && HeaderMatches(b, e)
    && forall i :: 0 <= i < |e.units| ==> ValidAnchor(e.units[i].anchor) && TextAt(h, b, e.units[i].anchor) == Ok(e.units[i].text)
  }

  /** BundleResolver: the last artifact read, and its parsed form once asked for. */
  class BundleResolver {
    const host: Host
    const bundle: Bundle
    var cached: Option<string>
    var data: seq<Byte>
    var parsed: Option<Json>

    ghost predicate Valid() reads this {
      && (cached.Some? ==> cached.value in bundle.archive && data == bundle.archive[cached.value])
      && (cached.None? ==> parsed.None?)
      && (parsed.Some? ==> host.parse(data) == parsed)
    }

    constructor (host: Host, bundle: Bundle)
      ensures Valid() && this.host == host && this.bundle == bundle
    {
      this.host, this.bundle := host, bundle;
      cached, data, parsed := None, [], None;
    }

    method Bytes(a: Anchor) returns (r: Result<seq<Byte>, Problem>)
      requires Valid()
      modifies this
      ensures Valid() && r == BytesOf(bundle, a)
      ensures r.Ok? ==> cached == Some(a.digest) && data == r.value
    {
      if a.artifact !in bundle.manifest {
        return Err(NotAnArtifact);
      }
      var sealed := bundle.manifest[a.artifact];
      if sealed != a.digest {
        return Err(WrongDigest);
      }
      if cached != Some(sealed) {
        if sealed !in bundle.archive {
          return Err(Unreadable);
        }
        cached, data, parsed := Some(sealed), bundle.archive[sealed], None;
      }
      return Ok(data);
    }

    method Parsed(a: Anchor) returns (r: Result<Json, Problem>)
      requires Valid()
      modifies this
      ensures Valid() && r == JsonOf(host, bundle, a)
    {
      var bytes := Bytes(a);
      if bytes.Err? {
        return Err(bytes.error);
      }
      if parsed.None? {
        var doc := host.parse(bytes.value);
        if doc.None? {
          return Err(NotJson);
        }
        parsed := doc;
      }
      return Ok(parsed.value);
    }

    /** The cached resolver answers as an uncached one does. */
    method Resolve(a: Anchor) returns (r: Result<string, Problem>)
      requires Valid() && ValidAnchor(a)
      modifies this
      ensures Valid() && r == TextAt(host, bundle, a)
    {
      match a
      case RangeAnchor(_, _, start, end) =>
        var bytes := Bytes(a);
        if bytes.Err? {
          return Err(bytes.error);
        }
        if end > |bytes.value| {
          return Err(PastEnd);
        }
        var text := Decode(bytes.value[start..end]);
        return if text.None? then Err(NotUtf8) else Ok(text.value);
      case PointerAnchor(_, _, pointer, renderer) =>
        if renderer != JSON_STRING && renderer != CHATGPT_MESSAGE {
          return Err(UnknownRenderer);
        }
        var doc := Parsed(a);
        if doc.Err? {
          return Err(doc.error);
        }
        var value := ResolvePointer(doc.value, pointer);
        return if value.None? then Err(NoSuchValue) else Render(host, renderer, value.value);
    }

    /** verify: no problem exactly for a verified extraction; otherwise the header's
        problems, or the units whose text is not what their anchor gives. */
    method Verify(e: Extraction) returns (header: bool, problems: seq<nat>)
      requires Valid() && forall i :: 0 <= i < |e.units| ==> ValidAnchor(e.units[i].anchor)
      modifies this
      ensures Valid() && header == HeaderMatches(bundle, e)
      ensures header && problems == [] <==> Verified(host, bundle, e)
      ensures header ==> forall i :: i in problems <==>
        0 <= i < |e.units| && TextAt(host, bundle, e.units[i].anchor) != Ok(e.units[i].text)
    {
      problems := [];
      header := HeaderMatches(bundle, e);
      if !header {
        return;
      }
      for i := 0 to |e.units|
        invariant Valid()
        invariant forall j :: j in problems <==> 0 <= j < i && TextAt(host, bundle, e.units[j].anchor) != Ok(e.units[j].text)
      {
        var resolved := Resolve(e.units[i].anchor);
        if resolved != Ok(e.units[i].text) {
          problems := problems + [i];
        }
      }
      if problems != [] { assert problems[0] in problems; }
    }
  }
}
