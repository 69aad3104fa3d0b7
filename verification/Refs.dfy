/**
 Typed references and their one canonical spelling (stele/identity/refs.py),
 with percent-encoding as urllib.parse.quote and unquote perform it
 (sections 2.1 and 2.3 of RFC 3986).
 */
module Refs {
  import opened Utf8
  import opened Wrappers

  datatype SnapshotKind = FileKind | TreeKind

  datatype Anchor =
    | RangeAnchor(artifact: string, digest: string, start: nat, end: nat)
    | PointerAnchor(artifact: string, digest: string, pointer: string, render: string)

  datatype Ref =
    | SourceRef(sourceId: string)
    | SnapshotRef(kind: SnapshotKind, digest: string)
    | RecordRef(recordId: string, artifactHash: string)
    | ObservationRef(recordId: string, digest: string)
    | AnchorRef(recordId: string, artifactHash: string, anchor: Anchor)
    | EventRef(seqNo: nat, hash: string)

  // ---- Well-formed references --------------------------------------------

  predicate IsDigest(s: string) {
    |s| == 64 && forall c | c in s :: '0' <= c <= '9' || 'a' <= c <= 'f'
  }

  predicate Alnum(c: char) { 'A' <= c <= 'Z' || 'a' <= c <= 'z' || '0' <= c <= '9' }

  predicate IsRecordId(s: string) {
    s != "" && Alnum(s[0]) && forall c | c in s :: Alnum(c) || c == '.' || c == '_' || c == '-'
  }

  predicate ValidAnchor(a: Anchor) {
    && a.artifact != "" && IsDigest(a.digest)
    && (a.RangeAnchor? ==> a.start <= a.end)
    && (a.PointerAnchor? ==> (a.pointer == "" || a.pointer[0] == '/') && a.render != "")
  }

  /** What the constructors check. */
  predicate Valid(r: Ref) {
    match r
    case SourceRef(id) => IsDigest(id)
    case SnapshotRef(_, digest) => IsDigest(digest)
    case RecordRef(id, hash) => IsRecordId(id) && IsDigest(hash)
    case ObservationRef(id, digest) => IsRecordId(id) && IsDigest(digest)
    case AnchorRef(id, hash, anchor) => IsRecordId(id) && IsDigest(hash) && ValidAnchor(anchor)
    case EventRef(n, hash) => n >= 1 && IsDigest(hash)
  }

  // ---- Percent-encoding --------------------------------------------------

  predicate Unreserved(c: char) { Alnum(c) || c == '_' || c == '.' || c == '-' || c == '~' }

  predicate Literal(b: Byte, slash: bool) { b < 128 && (Unreserved(b as char) || (slash && b == '/' as int)) }

  function HexDigit(n: int): char
    requires 0 <= n < 16
  {
    if n < 10 then ('0' as int + n) as char else ('A' as int + n - 10) as char
  }

  function HexValue(c: char): Option<int> {
    if '0' <= c <= '9' then Some(c as int - '0' as int)
    else if 'A' <= c <= 'F' then Some(c as int - 'A' as int + 10)
    else if 'a' <= c <= 'f' then Some(c as int - 'a' as int + 10)
    else None
  }

  function QuoteByte(b: Byte, slash: bool): string {
    if Literal(b, slash) then [b as char] else ['%', HexDigit(b / 16), HexDigit(b % 16)]
  }

  function QuoteBytes(bs: seq<Byte>, slash: bool): string {
    if bs == [] then "" else QuoteByte(bs[0], slash) + QuoteBytes(bs[1..], slash)
  }

  /** quote(s), or quote(s, safe='') when slash is false. */
  function Quote(s: string, slash: bool): string { QuoteBytes(Encode(s), slash) }

  predicate Ascii(s: string) { forall i | 0 <= i < |s| :: s[i] as int < 128 }

  /** unquote_to_bytes of ASCII text: a '%' not followed by two hex digits stays. */
  function UnquoteBytes(s: string): seq<Byte>
    requires Ascii(s)
  {
    if s == [] then []
    else if s[0] == '%' && |s| >= 3 && HexValue(s[1]).Some? && HexValue(s[2]).Some?
    then [HexValue(s[1]).value * 16 + HexValue(s[2]).value] + UnquoteBytes(s[3..])
    else [s[0] as int] + UnquoteBytes(s[1..])
  }

  function AsciiRun(s: string): (n: nat)
    ensures n <= |s| && Ascii(s[..n]) && (n < |s| ==> s[n] as int >= 128)
  {
    if s == [] || s[0] as int >= 128 then 0 else 1 + AsciiRun(s[1..])
  }

  /** Each maximal ASCII run is unquoted and decoded; other text stays. */
  function UnquoteRuns(s: string): string {
    if s == [] then ""
    else
      var n := AsciiRun(s);
      if n == 0 then [s[0]] + UnquoteRuns(s[1..]) else DecodeLossy(UnquoteBytes(s[..n])) + UnquoteRuns(s[n..])
  }

  function Unquote(s: string): string { if '%' in s then UnquoteRuns(s) else s }

  predicate QuotedChar(c: char, slash: bool) { Unreserved(c) || c == '%' || (slash && c == '/') }

  lemma {:induction false} QuotedChars(bs: seq<Byte>, slash: bool)
    ensures forall i :: 0 <= i < |QuoteBytes(bs, slash)| ==> QuotedChar(QuoteBytes(bs, slash)[i], slash)
  {
    if bs != [] {
      QuotedChars(bs[1..], slash);
      var head, tail := QuoteByte(bs[0], slash), QuoteBytes(bs[1..], slash);
      forall i | 0 <= i < |head + tail| ensures QuotedChar((head + tail)[i], slash) {
        if i >= |head| { assert (head + tail)[i] == tail[i - |head|]; }
      }
    }
  }

  lemma {:induction false} UnquoteBytesInverts(bs: seq<Byte>, slash: bool)
    ensures Ascii(QuoteBytes(bs, slash)) && UnquoteBytes(QuoteBytes(bs, slash)) == bs
  {
    QuotedChars(bs, slash);
    if bs != [] {
      var head, tail := QuoteByte(bs[0], slash), QuoteBytes(bs[1..], slash);
      QuotedChars(bs[1..], slash);
      UnquoteBytesInverts(bs[1..], slash);
      assert (head + tail)[|head|..] == tail;
      assert bs == [bs[0]] + bs[1..];
      if !Literal(bs[0], slash) {
        assert (head + tail)[0] == '%' && (head + tail)[1] == HexDigit(bs[0] / 16) && (head + tail)[2] == HexDigit(bs[0] % 16);
      } else {
        assert (head + tail)[0] == bs[0] as char;
      }
    }
  }

  lemma {:induction false} PlainAsciiDecodes(s: string)
    requires Ascii(s) && '%' !in s
    ensures DecodeLossy(UnquoteBytes(s)) == s
  {
    if s != [] {
      PlainAsciiDecodes(s[1..]);
      var rest := UnquoteBytes(s[1..]);
      assert UnquoteBytes(s) == [s[0] as int] + rest && ([s[0] as int] + rest)[1..] == rest;
      assert s == [s[0]] + s[1..];
    }
  }

  lemma AsciiUnquotes(s: string)
    requires Ascii(s)
    ensures Unquote(s) == DecodeLossy(UnquoteBytes(s))
  {
    if '%' in s {
      assert AsciiRun(s) == |s|;
      assert s[..|s|] == s && UnquoteRuns(s[|s|..]) == "";
    } else {
      PlainAsciiDecodes(s);
    }
  }

  /** Percent-decoding inverts percent-encoding on all text. */
  lemma UnquoteInvertsQuote(s: string, slash: bool)
    ensures Unquote(Quote(s, slash)) == s
  {
    UnquoteBytesInverts(Encode(s), slash);
    AsciiUnquotes(Quote(s, slash));
    DecodeInvertsEncode(s);
  }

  // ---- Decimals ----------------------------------------------------------

  function Decimal(n: nat): string {
    if n < 10 then [HexDigit(n)] else Decimal(n / 10) + [HexDigit(n % 10)]
  }

  predicate AllDigits(s: string) { forall i | 0 <= i < |s| :: '0' <= s[i] <= '9' }

  predicate IsUint(s: string) {
    s != "" && AllDigits(s) && (s[0] != '0' || |s| == 1)
  }

  function IntOf(s: string): nat
    requires AllDigits(s)
  {
    if s == "" then 0 else IntOf(s[..|s| - 1]) * 10 + (s[|s| - 1] as int - '0' as int)
  }

  lemma {:induction false} DecimalInverts(n: nat)
    ensures IsUint(Decimal(n)) && IntOf(Decimal(n)) == n
    ensures n > 0 ==> Decimal(n)[0] != '0'
  {
    if n >= 10 {
      DecimalInverts(n / 10);
      var front := Decimal(n / 10);
      assert (front + [HexDigit(n % 10)])[..|front|] == front;
    } else {
      assert IntOf(Decimal(n)[..0]) == 0;
    }
  }

  // ---- Formatting --------------------------------------------------------

  const PREFIX := "stele:"

  function KindText(k: SnapshotKind): string { if k == FileKind then "file" else "tree" }

  function Fragment(a: Anchor): string {
    match a
    case RangeAnchor(_, _, start, end) => "bytes=" + (Decimal(start) + "-" + Decimal(end))
    case PointerAnchor(_, _, pointer, render) => "pointer=" + (Quote(pointer, true) + "&render=" + Quote(render, false))
  }

  function Location(r: Ref): string
    requires r.AnchorRef?
  {
    (r.recordId + "@" + r.artifactHash) + "/" + (Quote(r.anchor.artifact, true) + "@" + r.anchor.digest)
  }

  function TypeName(r: Ref): string {
    match r
    case SourceRef(_) => "source"
    case SnapshotRef(_, _) => "snapshot"
    case RecordRef(_, _) => "record"
    case ObservationRef(_, _) => "observation"
    case AnchorRef(_, _, _) => "anchor"
    case EventRef(_, _) => "event"
  }

  function Rest(r: Ref): string {
    match r
    case SourceRef(id) => id
    case SnapshotRef(kind, digest) => KindText(kind) + ":" + digest
    case RecordRef(id, hash) => id + "@" + hash
    case ObservationRef(id, digest) => id + "@" + digest
    case AnchorRef(_, _, anchor) => Location(r) + "#" + Fragment(anchor)
    case EventRef(n, hash) => Decimal(n) + "@" + hash
  }

  /** str(ref). */
  function Format(r: Ref): string { PREFIX + (TypeName(r) + ":" + Rest(r)) }

  // ---- Parsing -----------------------------------------------------------

  predicate StartsWith(s: string, p: string) { |p| <= |s| && s[..|p|] == p }

  /** str.partition: the text before and after the first separator. */
  function Partition(s: string, sep: string): (r: Option<(string, string)>) {
    if StartsWith(s, sep) then Some(("", s[|sep|..]))
    else if s == "" then None
    else
      var rest := Partition(s[1..], sep);
      if rest.None? then None else Some(([s[0]] + rest.value.0, rest.value.1))
  }

  /** str.rpartition: the text before and after the last '@'. */
  function SplitAt(s: string): (r: Option<(string, string)>) {
    if s == "" then None
    else if s[|s| - 1] == '@' then Some((s[..|s| - 1], ""))
    else
      var rest := SplitAt(s[..|s| - 1]);
      if rest.None? then None else Some((rest.value.0, rest.value.1 + [s[|s| - 1]]))
  }

  function Checked(r: Ref): Option<Ref> { if Valid(r) then Some(r) else None }

  function ParseSnapshot(rest: string): Option<Ref> {
    match Partition(rest, ":")
    case None => None
    case Some((kind, digest)) =>
      if kind == "file" then Checked(SnapshotRef(FileKind, digest))
      else if kind == "tree" then Checked(SnapshotRef(TreeKind, digest))
      else None
  }

  function ParseFragment(artifact: string, digest: string, fragment: string): Option<Anchor> {
    if StartsWith(fragment, "bytes=") then
      match Partition(fragment[6..], "-")
      case None => None
      case Some((start, end)) =>
        if IsUint(start) && IsUint(end)
        then Some(RangeAnchor(Unquote(artifact), digest, IntOf(start), IntOf(end))) else None
    else if StartsWith(fragment, "pointer=") then
      match Partition(fragment[8..], "&render=")
      case None => None
      case Some((pointer, render)) => Some(PointerAnchor(Unquote(artifact), digest, Unquote(pointer), Unquote(render)))
    else None
  }

  function ParseAnchor(rest: string): Option<Ref> {
    match Partition(rest, "#")
    case None => None
    case Some((location, fragment)) => ParseLocated(location, fragment)
  }

  function ParseLocated(location: string, fragment: string): Option<Ref> {
    match Partition(location, "/")
    case None => None
    case Some((recordPart, artifactPart)) =>
      match (SplitAt(recordPart), SplitAt(artifactPart))
      case (Some((id, hash)), Some((artifact, digest))) =>
        var anchor := ParseFragment(artifact, digest, fragment);
        if anchor.None? then None else Checked(AnchorRef(id, hash, anchor.value))
      case (_, _) => None
  }

  function ParseEvent(rest: string): Option<Ref> {
    match SplitAt(rest)
    case None => None
    case Some((n, hash)) => if IsUint(n) then Checked(EventRef(IntOf(n), hash)) else None
  }

  function ParseRecord(rest: string): Option<Ref> {
    match SplitAt(rest)
    case None => None
    case Some((id, hash)) => Checked(RecordRef(id, hash))
  }

  function ParseObservation(rest: string): Option<Ref> {
    match SplitAt(rest)
    case None => None
    case Some((id, digest)) => Checked(ObservationRef(id, digest))
  }

  function ParseRest(kind: string, rest: string): Option<Ref> {
    if kind == "source" then Checked(SourceRef(rest))
    else if kind == "snapshot" then ParseSnapshot(rest)
    else if kind == "record" then ParseRecord(rest)
    else if kind == "observation" then ParseObservation(rest)
    else if kind == "anchor" then ParseAnchor(rest)
    else if kind == "event" then ParseEvent(rest)
    else None
  }

  /** parse_ref: parse, then accept only the canonical spelling. */
  function Parse(text: string): Option<Ref> {
    if !StartsWith(text, PREFIX) then None
    else
      match Partition(text[|PREFIX|..], ":")
      case None => None
      case Some((kind, rest)) =>
        var r := ParseRest(kind, rest);
        if r.Some? && Format(r.value) == text then r else None
  }

  // ---- Separators --------------------------------------------------------

  lemma {:induction false} PartitionFinds(left: string, sep: string, right: string)
    requires sep != "" && sep[0] !in left
    ensures Partition(left + sep + right, sep) == Some((left, right))
  {
    var s := left + sep + right;
    if left == "" {
      assert s == sep + right && s[|sep|..] == right;
    } else {
      assert s[0] == left[0];
      assert s[1..] == left[1..] + sep + right;
      PartitionFinds(left[1..], sep, right);
      assert s[..|sep|][0] == s[0];
      assert [left[0]] + left[1..] == left;
    }
  }

  lemma {:induction false} SplitAtFinds(left: string, right: string)
    requires '@' !in right
    ensures SplitAt(left + "@" + right) == Some((left, right))
  {
    var s := left + "@" + right;
    if right == "" {
      assert s == left + "@" && s[..|s| - 1] == left;
    } else {
      var last := right[|right| - 1];
      assert s[|s| - 1] == last && s[..|s| - 1] == left + "@" + right[..|right| - 1];
      SplitAtFinds(left, right[..|right| - 1]);
      assert right[..|right| - 1] + [last] == right;
    }
  }

  lemma QuotedHas(s: string, slash: bool, c: char)
    requires !QuotedChar(c, slash)
    ensures c !in Quote(s, slash)
  {
    QuotedChars(Encode(s), slash);
  }

  // ---- Round trips -------------------------------------------------------

  lemma FragmentRoundTrip(a: Anchor, artifact: string)
    requires ValidAnchor(a) && Unquote(artifact) == a.artifact
    ensures ParseFragment(artifact, a.digest, Fragment(a)) == Some(a)
  {
    match a
    case RangeAnchor(_, _, start, end) =>
      var tail := Decimal(start) + "-" + Decimal(end);
      DecimalInverts(start);
      DecimalInverts(end);
      PartitionFinds(Decimal(start), "-", Decimal(end));
      assert ("bytes=" + tail)[6..] == tail && ("bytes=" + tail)[..6] == "bytes=";
    case PointerAnchor(_, _, pointer, render) =>
      var tail := Quote(pointer, true) + "&render=" + Quote(render, false);
      QuotedHas(pointer, true, '&');
      PartitionFinds(Quote(pointer, true), "&render=", Quote(render, false));
      UnquoteInvertsQuote(pointer, true);
      UnquoteInvertsQuote(render, false);
      assert ("pointer=" + tail)[8..] == tail && ("pointer=" + tail)[..8] == "pointer=";
      assert ("pointer=" + tail)[..6][0] == 'p' && "bytes="[0] == 'b';
  }

  lemma AnchorRoundTrip(r: Ref)
    requires Valid(r) && r.AnchorRef?
    ensures ParseAnchor(Rest(r)) == Some(r)
  {
    var recordPart, artifact := r.recordId + "@" + r.artifactHash, Quote(r.anchor.artifact, true);
    var artifactPart := artifact + "@" + r.anchor.digest;
    QuotedHas(r.anchor.artifact, true, '#');
    assert '#' !in Location(r);
    PartitionFinds(Location(r), "#", Fragment(r.anchor));
    PartitionFinds(recordPart, "/", artifactPart);
    SplitAtFinds(r.recordId, r.artifactHash);
    SplitAtFinds(artifact, r.anchor.digest);
    UnquoteInvertsQuote(r.anchor.artifact, true);
    FragmentRoundTrip(r.anchor, artifact);
  }

  lemma RestRoundTrip(r: Ref)
    requires Valid(r)
    ensures ParseRest(TypeName(r), Rest(r)) == Some(r)
  {
    match r
    case SourceRef(id) =>
    case SnapshotRef(kind, digest) => PartitionFinds(KindText(kind), ":", digest);
    case RecordRef(id, hash) => SplitAtFinds(id, hash);
    case ObservationRef(id, digest) => SplitAtFinds(id, digest);
    case AnchorRef(_, _, _) => AnchorRoundTrip(r);
    case EventRef(n, hash) =>
      SplitAtFinds(Decimal(n), hash);
      DecimalInverts(n);
  }

  /** Every well-formed reference survives being written out and parsed. */
  lemma ParseInvertsFormat(r: Ref)
    requires Valid(r)
    ensures Parse(Format(r)) == Some(r)
  {
    var tail := TypeName(r) + ":" + Rest(r);
    assert (PREFIX + tail)[..|PREFIX|] == PREFIX && (PREFIX + tail)[|PREFIX|..] == tail;
    PartitionFinds(TypeName(r), ":", Rest(r));
    RestRoundTrip(r);
  }

  /** An accepted string is the spelling of the well-formed reference it parses to. */
  lemma AcceptedIsCanonical(text: string)
    requires Parse(text).Some?
    ensures Valid(Parse(text).value) && Format(Parse(text).value) == text
  {
    var kr := Partition(text[|PREFIX|..], ":").value;
    var r := ParseRest(kr.0, kr.1);
    assert Valid(r.value);
  }

  ghost predicate Spells(r: Ref, text: string) { Valid(r) && Format(r) == text }

  /** Accepted strings and well-formed references are in bijection. */
  lemma OneSpellingEach(text: string, r: Ref, q: Ref)
    ensures Parse(text).Some? <==> exists x :: Spells(x, text)
    ensures Valid(r) && Valid(q) && Format(r) == Format(q) ==> r == q
  {
    if Parse(text).Some? {
      AcceptedIsCanonical(text);
      assert Spells(Parse(text).value, text);
    }
    if exists x :: Spells(x, text) {
      var x :| Spells(x, text);
      ParseInvertsFormat(x);
    }
    if Valid(r) && Valid(q) && Format(r) == Format(q) {
      ParseInvertsFormat(r);
      ParseInvertsFormat(q);
    }
  }
}
