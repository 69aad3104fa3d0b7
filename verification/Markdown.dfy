/**
 Splitting a Markdown document into blocks, and the kind of a block
 (stele/extraction/normalizers.py).
 */
module Markdown {
  import opened Utf8
  import opened Wrappers

  type Bytes = seq<Byte>

  const NL: Byte := 10
  const CR: Byte := 13
  const SPACE: Byte := 32
  const TAB: Byte := 9

  /** bytes.strip() removes these. */
  predicate White(b: Byte) { b == SPACE || 9 <= b <= 13 }

  predicate Blank(bs: Bytes) { forall i | 0 <= i < |bs| :: White(bs[i]) }

  // ---- Lines -------------------------------------------------------------

  /** The length of the first line without its ending. */
  function BodyLength(bs: Bytes): (n: nat)
    ensures n <= |bs| && forall i :: 0 <= i < n ==> bs[i] != NL && bs[i] != CR
    ensures n < |bs| ==> bs[n] == NL || bs[n] == CR
  {
    if bs == [] || bs[0] == NL || bs[0] == CR then 0 else 1 + BodyLength(bs[1..])
  }

  /** bytes.splitlines(keepends=True): the first line's length with its ending. */
  function LineLength(bs: Bytes): (n: nat)
    ensures BodyLength(bs) <= n <= |bs| && (bs != [] ==> n > 0)
    ensures forall i :: BodyLength(bs) <= i < n ==> bs[i] == NL || bs[i] == CR
  {
    var n := BodyLength(bs);
    if n == |bs| then n
    else if bs[n] == CR && n + 1 < |bs| && bs[n + 1] == NL then n + 2
    else n + 1
  }

  /** bytes.splitlines(). */
  function Lines(bs: Bytes): (ls: seq<Bytes>)
    ensures bs != [] ==> |ls| > 0
    decreases |bs|
  {
    if bs == [] then [] else [bs[..BodyLength(bs)]] + Lines(bs[LineLength(bs)..])
  }

  // ---- Block syntax ------------------------------------------------------

  /** How many times b is repeated at position i. */
  function Run(bs: Bytes, i: nat, b: Byte): (n: nat)
    requires i <= |bs|
    ensures i + n <= |bs|
    ensures forall k :: i <= k < i + n ==> bs[k] == b
    decreases |bs| - i
  {
    if i < |bs| && bs[i] == b then 1 + Run(bs, i + 1, b) else 0
  }

  function Indent(bs: Bytes): (n: nat)
    ensures n <= |bs|
  {
    Run(bs, 0, SPACE)
  }

  function SkipBlanks(bs: Bytes, i: nat): (n: nat)
    requires i <= |bs|
    ensures i <= n <= |bs|
    decreases |bs| - i
  {
    if i < |bs| && (bs[i] == SPACE || bs[i] == TAB) then SkipBlanks(bs, i + 1) else i
  }

  function DigitRun(bs: Bytes, i: nat): (n: nat)
    requires i <= |bs|
    ensures i + n <= |bs|
    decreases |bs| - i
  {
    if i < |bs| && '0' as int <= bs[i] <= '9' as int then 1 + DigitRun(bs, i + 1) else 0
  }

  /** Up to three spaces, then three or more backticks or tildes. */
  function Fence(bs: Bytes): (f: Option<(Byte, nat)>)
    ensures f.Some? ==> Indent(bs) + f.value.1 <= |bs| && f.value.1 >= 3
  {
    var i := Indent(bs);
    if i > 3 then None
    else if Run(bs, i, '`' as int) >= 3 then Some(('`' as int, Run(bs, i, '`' as int)))
    else if Run(bs, i, '~' as int) >= 3 then Some(('~' as int, Run(bs, i, '~' as int)))
    else None
  }

  /** Up to three spaces, one to six '#', then a blank or the end: the level. */
  function Atx(bs: Bytes): (level: Option<nat>)
    ensures level.Some? ==> 1 <= level.value <= 6
  {
    var i := Indent(bs);
    var n := Run(bs, i, '#' as int);
    if i <= 3 && 1 <= n <= 6 && (i + n == |bs| || bs[i + n] == SPACE || bs[i + n] == TAB) then Some(n) else None
  }

  /** Up to three spaces, a run of '=' or '-', then blanks: 1 or 2. */
  function Setext(bs: Bytes): (level: Option<nat>)
    ensures level.Some? ==> 1 <= level.value <= 2
  {
    var i := Indent(bs);
    var eq, dash := Run(bs, i, '=' as int), Run(bs, i, '-' as int);
    if i <= 3 && eq > 0 && SkipBlanks(bs, i + eq) == |bs| then Some(1)
    else if i <= 3 && dash > 0 && SkipBlanks(bs, i + dash) == |bs| then Some(2)
    else None
  }

  /** Blanks, a bullet or up to nine digits with '.' or ')', then a blank. */
  predicate ListItem(bs: Bytes) {
    var i := SkipBlanks(bs, 0);
    var n := DigitRun(bs, i);
    || (i + 1 < |bs| && bs[i] in ['-' as int, '*' as int, '+' as int] && (bs[i + 1] == SPACE || bs[i + 1] == TAB))
    || (1 <= n <= 9 && i + n + 1 < |bs| && (bs[i + n] == '.' as int || bs[i + n] == ')' as int)
        && (bs[i + n + 1] == SPACE || bs[i + n + 1] == TAB))
  }

  // ---- The scan ----------------------------------------------------------

  /** The variables of markdown_blocks. */
  datatype Scan = Scan(blocks: seq<(nat, nat)>, start: Option<nat>, end: nat, lines: nat, fence: Option<(Byte, nat)>, pos: nat)
  {
    function Close(): Scan {
      Scan(if start.Some? then blocks + [(start.value, end)] else blocks, None, end, 0, fence, pos)
    }
  }

  predicate ClosesFence(body: Bytes, fence: (Byte, nat)) {
    var m := Fence(body);
    m.Some? && m.value.0 == fence.0 && m.value.1 >= fence.1 && Blank(body[Indent(body) + m.value.1..])
  }

  /** What a line is, given the block it meets. */
  datatype Line =
    | InFence(closes: bool)
    | BlankLine
    | OpensFence(fence: (Byte, nat))
    | AtxHeading
    | Plain(underline: bool)       // underline: a setext line that ends a one-line paragraph

  function BodyAt(data: Bytes, pos: nat): (body: Bytes)
    requires pos < |data|
    ensures pos + |body| <= |data| && forall i :: 0 <= i < |body| ==> body[i] == data[pos + i]
  {
    var rest := data[pos..];
    rest[..BodyLength(rest)]
  }

  function NextAt(data: Bytes, pos: nat): (next: nat)
    requires pos < |data|
    ensures pos + |BodyAt(data, pos)| <= next <= |data| && pos < next
    ensures forall i :: pos + |BodyAt(data, pos)| <= i < next ==> White(data[i])
  {
    var rest := data[pos..];
    assert forall i :: 0 <= i < |rest| ==> rest[i] == data[pos + i];
    assert forall i :: pos <= i < |data| ==> data[i] == rest[i - pos];
    pos + LineLength(rest)
  }

  function Classify(data: Bytes, s: Scan, body: Bytes): (line: Line)
    requires s.pos + |body| <= |data|
    ensures line.InFence? <==> s.fence.Some?
    ensures line.BlankLine? ==> Blank(body)
    ensures line.OpensFence? || line.AtxHeading? || line.Plain? ==> |body| > 0
  {
    if s.fence.Some? then InFence(ClosesFence(body, s.fence.value))
    else if Blank(body) then BlankLine
    else if Fence(body).Some? then OpensFence(Fence(body).value)
    else if Atx(body).Some? then AtxHeading
    else Plain(EndsParagraph(data, s.start, s.lines, s.pos, body))
  }

  predicate EndsParagraph(data: Bytes, start: Option<nat>, lines: nat, pos: nat, body: Bytes)
    requires pos + |body| <= |data|
  {
    var from, end := if start.None? then pos else start.value, pos + |body|;
    lines + 1 == 2 && Setext(body).Some? && from < end && !ListItem(Lines(data[from..end])[0])
  }

  /** One line of `len` bytes at s.pos; the following line starts at `next`. */
  function AddLine(s: Scan, line: Line, len: nat, next: nat): Scan {
    var end := s.pos + len;
    var t := match line
      case InFence(closes) => if closes then s.(end := end, fence := None).Close() else s.(end := end)
      case BlankLine => s.Close()
      case OpensFence(f) => s.Close().(start := Some(s.pos), end := end, fence := Some(f))
      case AtxHeading => s.Close().(start := Some(s.pos), end := end).Close()
      case Plain(underline) =>
        var u := s.(start := if s.start.None? then Some(s.pos) else s.start, end := end, lines := s.lines + 1);
        if underline then u.Close() else u;
    t.(pos := next)
  }

  function NextScan(data: Bytes, s: Scan): (t: Scan)
    requires s.pos < |data|
    ensures s.pos < t.pos <= |data|
  {
    var body := BodyAt(data, s.pos);
    AddLine(s, Classify(data, s, body), |body|, NextAt(data, s.pos))
  }

  function Scanned(data: Bytes, s: Scan): (t: Scan)
    decreases |data| - s.pos
  {
    if s.pos >= |data| then s else Scanned(data, NextScan(data, s))
  }

  const START := Scan([], None, 0, 0, None, 0)

  /** markdown_blocks' value. */
  function Blocks(data: Bytes): seq<(nat, nat)> { Scanned(data, START).Close().blocks }

  method MarkdownBlocks(data: Bytes) returns (blocks: seq<(nat, nat)>)
    ensures blocks == Blocks(data)
  {
    blocks := [];
    var start: Option<nat>, end: nat, lines: nat, fence: Option<(Byte, nat)>, pos: nat := None, 0, 0, None, 0;
    while pos < |data|
      invariant Scanned(data, Scan(blocks, start, end, lines, fence, pos)) == Scanned(data, START)
      decreases |data| - pos
    {
      blocks, start, end, lines, fence := ScanLine(data, blocks, start, end, lines, fence, pos);
      pos := NextAt(data, pos);
    }
    blocks, start, lines := CloseBlock(blocks, start, end);
  }

  /** The loop's body: one line. */
  method ScanLine(data: Bytes, blocks: seq<(nat, nat)>, start: Option<nat>, end: nat, lines: nat,
                  fence: Option<(Byte, nat)>, pos: nat)
    returns (blocks': seq<(nat, nat)>, start': Option<nat>, end': nat, lines': nat, fence': Option<(Byte, nat)>)
    requires pos < |data|
    ensures Scan(blocks', start', end', lines', fence', NextAt(data, pos)) == NextScan(data, Scan(blocks, start, end, lines, fence, pos))
  {
    var body := BodyAt(data, pos);
    var lineEnd := pos + |body|;
    var opens := Fence(body);
    blocks', start', end', lines', fence' := blocks, start, end, lines, fence;
    if fence.Some? {
      end' := lineEnd;
      if ClosesFence(body, fence.value) {
        fence' := None;
        blocks', start', lines' := CloseBlock(blocks', start', end');
      }
    } else if Blank(body) {
      blocks', start', lines' := CloseBlock(blocks', start', end');
    } else if opens.Some? {
      blocks', start', lines' := CloseBlock(blocks', start', end');
      start', end', fence' := Some(pos), lineEnd, opens;
    } else if Atx(body).Some? {
      blocks', start', lines' := CloseBlock(blocks', start', end');
      start', end' := Some(pos), lineEnd;
      blocks', start', lines' := CloseBlock(blocks', start', end');
    } else {
      blocks', start', end', lines' := ScanPlain(data, blocks, start, lines, pos);
    }
  }

  /** A line of a paragraph, which a setext underline may end. */
  method ScanPlain(data: Bytes, blocks: seq<(nat, nat)>, start: Option<nat>, lines: nat, pos: nat)
    returns (blocks': seq<(nat, nat)>, start': Option<nat>, end': nat, lines': nat)
    requires pos < |data|
    ensures end' == pos + |BodyAt(data, pos)|
    ensures var from := if start.None? then pos else start.value;
      if EndsParagraph(data, start, lines, pos, BodyAt(data, pos))
      then blocks' == blocks + [(from, end')] && start' == None && lines' == 0
      else blocks' == blocks && start' == Some(from) && lines' == lines + 1
  {
    var body := BodyAt(data, pos);
    blocks' := blocks;
    start' := if start.None? then Some(pos) else start;
    end' := pos + |body|;
    lines' := lines + 1;
    var ends := EndsParagraph(data, start, lines, pos, body);
    if ends {
      blocks', start', lines' := CloseBlock(blocks', start', end');
    }
  }

  method CloseBlock(blocks: seq<(nat, nat)>, start: Option<nat>, end: nat)
    returns (blocks': seq<(nat, nat)>, start': Option<nat>, lines: nat)
    ensures blocks' == if start.Some? then blocks + [(start.value, end)] else blocks
    ensures start' == None && lines == 0
  {
    blocks' := if start.Some? then blocks + [(start.value, end)] else blocks;
    start', lines := None, 0;
  }

  // ---- Blocks cover the text ---------------------------------------------

  /** Non-empty, in bounds, in order and disjoint. */
  ghost predicate Ranges(blocks: seq<(nat, nat)>, n: nat) {
    && (forall k :: 0 <= k < |blocks| ==> blocks[k].0 < blocks[k].1 <= n)
    && (forall j, k :: 0 <= j < k < |blocks| ==> blocks[j].1 <= blocks[k].0)
  }

  ghost predicate Inside(blocks: seq<(nat, nat)>, i: int) { exists k :: 0 <= k < |blocks| && blocks[k].0 <= i < blocks[k].1 }

  /** Only white space lies outside the blocks. */
  ghost predicate CoversText(data: Bytes, blocks: seq<(nat, nat)>, n: nat)
    requires n <= |data|
  {
    forall i :: 0 <= i < n && !White(data[i]) ==> Inside(blocks, i)
  }

  function Open(s: Scan): seq<(nat, nat)> { if s.start.Some? then s.blocks + [(s.start.value, s.end)] else s.blocks }

  ghost predicate ScanOk(data: Bytes, s: Scan) {
    && s.pos <= |data| && s.end <= s.pos && (s.fence.Some? ==> s.start.Some?)
    && Ranges(Open(s), s.pos) && CoversText(data, Open(s), s.pos)
  }

  /** Closing changes nothing about what is covered. */
  lemma CloseOk(data: Bytes, s: Scan)
    requires ScanOk(data, s)
    ensures Open(s.Close()) == Open(s)
  {
  }

  /** A line added as a new block, or at the end of the open one. */
  ghost predicate Extended(s: Scan, t: Scan, len: nat, blank: bool) {
    var o, o' := Open(s), Open(t);
    || (o' == o && blank)
    || (o' == o + [(s.pos, s.pos + len)] && len > 0)
    || (s.start.Some? && o' == s.blocks + [(s.start.value, s.pos + len)])
  }

  lemma RangesExtended(s: Scan, t: Scan, len: nat, next: nat, blank: bool)
    requires Ranges(Open(s), s.pos) && s.end <= s.pos && s.pos + len <= next && Extended(s, t, len, blank)
    ensures Ranges(Open(t), next)
  {
    var o, o' := Open(s), Open(t);
    if s.start.Some? { assert o[|o| - 1] == (s.start.value, s.end); }
    forall k | 0 <= k < |o'| ensures o'[k].0 < o'[k].1 <= next {
      if k < |o| { assert o[k].0 < o[k].1 <= s.pos; }
    }
    forall j, k | 0 <= j < k < |o'| ensures o'[j].1 <= o'[k].0 {
      assert o'[j] == o[j];
      if k < |o| { assert o[j].1 <= o[k].0; } else { assert o[j].1 <= s.pos; }
    }
  }

  lemma LineCovered(data: Bytes, s: Scan, t: Scan, len: nat, next: nat, blank: bool)
    requires ScanOk(data, s) && s.pos + len <= next <= |data| && t.pos == next && t.end <= next
    requires forall i :: s.pos + len <= i < next ==> White(data[i])
    requires blank ==> forall i :: s.pos <= i < s.pos + len ==> White(data[i])
    requires t.fence.Some? ==> t.start.Some?
    requires Extended(s, t, len, blank)
    ensures ScanOk(data, t)
  {
    var o, o' := Open(s), Open(t);
    RangesExtended(s, t, len, next, blank);
    forall i | 0 <= i < next && !White(data[i]) ensures Inside(o', i) {
      if i < s.pos {
        var k :| 0 <= k < |o| && o[k].0 <= i < o[k].1;
        assert o'[k].0 <= i < o'[k].1;
      } else {
        if s.start.Some? { assert o[|o| - 1] == (s.start.value, s.end) && s.start.value < s.end; }
        assert o'[|o'| - 1].0 <= i < o'[|o'| - 1].1;
      }
    }
  }

  /** What a line does to the blocks, whatever its syntax. */
  lemma AddLineExtends(s: Scan, line: Line, len: nat, next: nat)
    requires s.end <= s.pos && (s.fence.Some? ==> s.start.Some?) && (line.InFence? <==> s.fence.Some?)
    requires (line.OpensFence? || line.AtxHeading? || line.Plain? ==> len > 0) && s.pos + len <= next
    ensures var t := AddLine(s, line, len, next);
      && Extended(s, t, len, line.BlankLine?) && t.pos == next && t.end <= next && (t.fence.Some? ==> t.start.Some?)
  {
  }

  lemma LineOk(data: Bytes, s: Scan)
    requires ScanOk(data, s) && s.pos < |data|
    ensures ScanOk(data, NextScan(data, s))
  {
    var body, next := BodyAt(data, s.pos), NextAt(data, s.pos);
    var line := Classify(data, s, body);
    forall i | line.BlankLine? && s.pos <= i < s.pos + |body| ensures White(data[i]) {
      assert body[i - s.pos] == data[i];
    }
    AddLineExtends(s, line, |body|, next);
    LineCovered(data, s, AddLine(s, line, |body|, next), |body|, next, line.BlankLine?);
  }

  lemma {:induction false} ScannedOk(data: Bytes, s: Scan)
    requires ScanOk(data, s)
    ensures ScanOk(data, Scanned(data, s)) && Scanned(data, s).pos >= |data|
    decreases |data| - s.pos
  {
    if s.pos < |data| {
      LineOk(data, s);
      ScannedOk(data, NextScan(data, s));
    }
  }

  /** Block ranges are in bounds, non-empty, ordered and disjoint, and every byte
      outside them is white space or a line ending. */
  lemma BlocksCoverTheText(data: Bytes)
    ensures Ranges(Blocks(data), |data|) && CoversText(data, Blocks(data), |data|)
  {
    ScannedOk(data, START);
    CloseOk(data, Scanned(data, START));
  }

  // ---- The kind of a block -----------------------------------------------

  datatype Kind = Heading(level: nat) | Code | Table | List | Formula | Figure | Paragraph

  function LowerCase(b: Byte): int { if 'A' as int <= b <= 'Z' as int then b + 32 else b }

  predicate WordByte(b: Byte) {
    '0' as int <= b <= '9' as int || 'a' as int <= LowerCase(b) <= 'z' as int || b == '_' as int
  }

  predicate StartsAt(bs: Bytes, i: nat, word: string) {
    i + |word| <= |bs| && forall k | 0 <= k < |word| :: LowerCase(bs[i + k]) == word[k] as int
  }

  /** Blanks, then a pipe or a <table tag in any case. */
  predicate TableRow(bs: Bytes) {
    var i := SkipBlanks(bs, 0);
    || (i < |bs| && bs[i] == '|' as int)
    || (StartsAt(bs, i, "<table") && (i + 6 == |bs| || !WordByte(bs[i + 6])))
  }

  function StripLeft(bs: Bytes): Bytes { if bs != [] && White(bs[0]) then StripLeft(bs[1..]) else bs }

  function StripRight(bs: Bytes): Bytes {
    if bs != [] && White(bs[|bs| - 1]) then StripRight(bs[..|bs| - 1]) else bs
  }

  /** markdown_kind. */
  function KindOf(block: Bytes): Kind
    requires block != []
  {
    var lines := Lines(block);
    var first := lines[0];
    var stripped := StripRight(StripLeft(block));
    if Atx(first).Some? then Heading(Atx(first).value)
    else if |lines| == 2 && Setext(lines[1]).Some? && !ListItem(first) then Heading(Setext(lines[1]).value)
    else if Fence(first).Some? then Code
    else if TableRow(first) then Table
    else if ListItem(first) then List
    else if |stripped| >= 2 && stripped[0] == '$' as int && stripped[1] == '$' as int then Formula
    else if |stripped| >= 2 && stripped[0] == '!' as int && stripped[1] == '[' as int && NL !in stripped then Figure
    else Paragraph
  }

  /** A fenced block is code unless it is two lines with an underline for its second. */
  lemma FencedKind(block: Bytes)
    requires block != [] && Fence(Lines(block)[0]).Some?
    ensures KindOf(block) == if |Lines(block)| == 2 && Setext(Lines(block)[1]).Some?
                             then Heading(Setext(Lines(block)[1]).value) else Code
  {
    var first := Lines(block)[0];
    var i := Indent(first);
    var mark := Fence(first).value.0;
    assert first[i] == mark && (mark == '`' as int || mark == '~' as int);
    BlanksAfterSpaces(first, 0);
    NoRun(first, i, '#' as int);
  }

  lemma {:induction false} BlanksAfterSpaces(bs: Bytes, i: nat)
    requires i <= |bs| && i + Run(bs, i, SPACE) < |bs|
    requires var b := bs[i + Run(bs, i, SPACE)]; b != TAB
    ensures SkipBlanks(bs, i) == i + Run(bs, i, SPACE)
    decreases |bs| - i
  {
    if bs[i] == SPACE { BlanksAfterSpaces(bs, i + 1); }
  }

  lemma NoRun(bs: Bytes, i: nat, b: Byte)
    requires i < |bs| && bs[i] != b
    ensures Run(bs, i, b) == 0
  {
  }

  lemma {:induction false} BodyLengthIs(bs: Bytes, n: nat)
    requires n <= |bs| && (forall i :: 0 <= i < n ==> bs[i] != NL && bs[i] != CR)
    requires n == |bs| || bs[n] == NL || bs[n] == CR
    ensures BodyLength(bs) == n
  {
    if n > 0 { BodyLengthIs(bs[1..], n - 1); }
  }

  lemma {:induction false} RunIs(bs: Bytes, i: nat, b: Byte, n: nat)
    requires i + n <= |bs| && (forall k :: i <= k < i + n ==> bs[k] == b)
    requires i + n == |bs| || bs[i + n] != b
    ensures Run(bs, i, b) == n
    decreases n
  {
    if n > 0 { RunIs(bs, i + 1, b, n - 1); }
  }

  const UNCLOSED: Bytes := [96, 96, 96, 10, 45, 45, 45]
  const BACKTICKS: Bytes := [96, 96, 96]
  const DASHES: Bytes := [45, 45, 45]

  lemma UnclosedLines()
    ensures BodyAt(UNCLOSED, 0) == BACKTICKS && NextAt(UNCLOSED, 0) == 4
    ensures BodyAt(UNCLOSED, 4) == DASHES && NextAt(UNCLOSED, 4) == 7
    ensures Lines(UNCLOSED) == [BACKTICKS, DASHES]
  {
    BodyLengthIs(UNCLOSED, 3);
    BodyLengthIs(DASHES, 3);
    assert UNCLOSED[0..] == UNCLOSED && UNCLOSED[4..] == DASHES && UNCLOSED[..3] == BACKTICKS && DASHES[..3] == DASHES;
    assert DASHES[3..] == [];
  }

  lemma UnclosedSyntax()
    ensures Fence(BACKTICKS) == Some((96, 3)) && !Blank(BACKTICKS)
    ensures Fence(DASHES).None? && Setext(DASHES) == Some(2)
  {
    RunIs(BACKTICKS, 0, SPACE, 0);
    RunIs(BACKTICKS, 0, 96, 3);
    RunIs(DASHES, 0, SPACE, 0);
    RunIs(DASHES, 0, 96, 0);
    RunIs(DASHES, 0, 126, 0);
    RunIs(DASHES, 0, 61, 0);
    RunIs(DASHES, 0, 45, 3);
    assert BACKTICKS[0] == 96 && !White(BACKTICKS[0]);
  }

  /** Three backticks, a line of three dashes, and the end of the document: the
      unclosed fence is one block, and it is classed as a heading. */
  lemma UnclosedFenceIsAHeading()
    ensures Blocks(UNCLOSED) == [(0, 7)] && KindOf(UNCLOSED) == Heading(2)
  {
    UnclosedLines();
    UnclosedSyntax();
    var s1 := Scan([], Some(0), 3, 0, Some((96, 3)), 4);
    assert NextScan(UNCLOSED, START) == s1;
    var s2 := Scan([], Some(0), 7, 0, Some((96, 3)), 7);
    assert NextScan(UNCLOSED, s1) == s2;
    assert Scanned(UNCLOSED, s2) == s2;
    FencedKind(UNCLOSED);
  }
}
