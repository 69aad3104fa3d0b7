/**
 The verification campaign's journal (stele/verification/campaign.py): an
 append-only file of JSON lines whose last line may be torn by a crash, and the
 run that fills it. JSON text is abstracted by a line codec.
 */
module Journal {
  import opened Utf8
  import opened Wrappers

  type Bytes = seq<Byte>
  const NL: Byte := 10

  datatype Header = Header(campaign: string)
  datatype Observation = Observation(path: string, lane: string, status: string, details: string)

  /** canonical_json and json.loads of one line. */
  datatype Codec = Codec(header: Header -> Bytes, readHeader: Bytes -> Option<Header>,
                         line: Observation -> Bytes, readLine: Bytes -> Option<Observation>)

  /** Canonical JSON has no raw newline and parses back. */
  ghost predicate GoodCodec(c: Codec) {
    && (forall h :: NL !in c.header(h) && c.readHeader(c.header(h)) == Some(h))
    && (forall o :: NL !in c.line(o) && c.readLine(c.line(o)) == Some(o))
  }

  // ---- The file ----------------------------------------------------------

  function Line(c: Codec, o: Observation): Bytes { c.line(o) + [NL] }

  function Lines(c: Codec, os: seq<Observation>): Bytes {
    if os == [] then [] else Lines(c, os[..|os| - 1]) + Line(c, os[|os| - 1])
  }

  /** A journal with nothing torn. */
  function Whole(c: Codec, h: Header, os: seq<Observation>): Bytes { c.header(h) + [NL] + Lines(c, os) }

  /** data[:data.rfind(b"\n") + 1]. */
  function ThroughLastNewline(data: Bytes): Bytes {
    if data == [] || data[|data| - 1] == NL then data else ThroughLastNewline(data[..|data| - 1])
  }

  /** data.split(b"\n")[:-1]: the complete lines. */
  function Complete(data: Bytes): seq<Bytes> { CompleteFrom(data, []) }

  function CompleteFrom(data: Bytes, part: Bytes): seq<Bytes> {
    if data == [] then []
    else if data[0] == NL then [part] + CompleteFrom(data[1..], [])
    else CompleteFrom(data[1..], part + [data[0]])
  }

  datatype JournalError = BadHeader | OtherCampaign | BadLine

  function ReadAll(c: Codec, lines: seq<Bytes>): Option<seq<Observation>> {
    if lines == [] then Some([])
    else
      var front := ReadAll(c, lines[..|lines| - 1]);
      var last := c.readLine(lines[|lines| - 1]);
      if front.None? || last.None? then None else Some(front.value + [last.value])
  }

  /** What opening does to the file and reads from it. */
  function Opened(c: Codec, h: Header, data: Bytes): Result<(Bytes, seq<Observation>), JournalError> {
    var kept := ThroughLastNewline(data);
    var lines := Complete(kept);
    if lines == [] then Ok((kept + c.header(h) + [NL], []))
    else if c.readHeader(lines[0]).None? then Err(BadHeader)
    else if c.readHeader(lines[0]).value != h then Err(OtherCampaign)
    else if ReadAll(c, lines[1..]).None? then Err(BadLine)
    else Ok((kept, ReadAll(c, lines[1..]).value))
  }

  /** The file after appends cut off anywhere: whole lines, then part of one. */
  ghost predicate Holds(c: Codec, h: Header, os: seq<Observation>, data: Bytes) {
    || (os == [] && NL !in data)
    || exists tail :: NL !in tail && data == Whole(c, h, os) + tail
  }

  // ---- Reading back ------------------------------------------------------

  lemma {:induction false} TornTailDropped(whole: Bytes, tail: Bytes)
    requires NL !in tail && (whole == [] || whole[|whole| - 1] == NL)
    ensures ThroughLastNewline(whole + tail) == whole
  {
    if tail == [] {
      assert whole + tail == whole;
    } else {
      var data := whole + tail;
      assert data[|data| - 1] == tail[|tail| - 1] && tail[|tail| - 1] in tail;
      assert data[..|data| - 1] == whole + tail[..|tail| - 1];
      TornTailDropped(whole, tail[..|tail| - 1]);
    }
  }

  lemma {:induction false} FirstLine(line: Bytes, rest: Bytes, part: Bytes)
    requires NL !in line
    ensures CompleteFrom(line + [NL] + rest, part) == [part + line] + CompleteFrom(rest, [])
  {
    if line == [] {
      assert ([] + [NL] + rest)[1..] == rest;
      assert part + [] == part;
    } else {
      var data := line + [NL] + rest;
      assert data[1..] == line[1..] + [NL] + rest && data[0] == line[0] && line[0] in line;
      FirstLine(line[1..], rest, part + [line[0]]);
      assert part + [line[0]] + line[1..] == part + line;
    }
  }

  lemma {:induction false} NoLine(data: Bytes, part: Bytes)
    requires NL !in data
    ensures CompleteFrom(data, part) == []
  {
    if data != [] {
      assert data[0] in data;
      NoLine(data[1..], part + [data[0]]);
    }
  }

  lemma {:induction false} AppendLine(data: Bytes, part: Bytes, line: Bytes)
    requires NL !in line && (data == [] ==> part == []) && (data == [] || data[|data| - 1] == NL)
    ensures CompleteFrom(data + line + [NL], part) == CompleteFrom(data, part) + [line]
  {
    if data == [] {
      FirstLine(line, [], []);
      assert data + line + [NL] == line + [NL] + [];
      assert part + line == line;
    } else {
      var all := data + line + [NL];
      assert all[0] == data[0] && all[1..] == data[1..] + line + [NL];
      if |data| > 1 { assert data[1..][|data[1..]| - 1] == NL; }
      if data[0] == NL {
        AppendLine(data[1..], [], line);
        assert [part] + (CompleteFrom(data[1..], []) + [line]) == [part] + CompleteFrom(data[1..], []) + [line];
      } else {
        AppendLine(data[1..], part + [data[0]], line);
      }
    }
  }

  lemma {:induction false} LinesEnd(c: Codec, os: seq<Observation>)
    ensures Lines(c, os) == [] || Lines(c, os)[|Lines(c, os)| - 1] == NL
  {
    if os != [] {
      assert Lines(c, os)[|Lines(c, os)| - 1] == Line(c, os[|os| - 1])[|Line(c, os[|os| - 1])| - 1];
    }
  }

  /** A whole journal splits into its header line and one line an observation. */
  lemma {:induction false} WholeLines(c: Codec, h: Header, os: seq<Observation>)
    requires GoodCodec(c)
    ensures var lines := Complete(Whole(c, h, os));
      |lines| == |os| + 1 && lines[0] == c.header(h) && forall i :: 0 <= i < |os| ==> lines[i + 1] == c.line(os[i])
    ensures Whole(c, h, os)[|Whole(c, h, os)| - 1] == NL
  {
    LinesEnd(c, os);
    if os == [] {
      assert Whole(c, h, os) == c.header(h) + [NL] + [];
      FirstLine(c.header(h), [], []);
      assert [] + c.header(h) == c.header(h);
    } else {
      var front, last := os[..|os| - 1], os[|os| - 1];
      WholeLines(c, h, front);
      assert Whole(c, h, os) == Whole(c, h, front) + c.line(last) + [NL];
      AppendLine(Whole(c, h, front), [], c.line(last));
    }
  }

  lemma {:induction false} ReadAllBack(c: Codec, lines: seq<Bytes>, os: seq<Observation>)
    requires GoodCodec(c) && |lines| == |os| && forall i :: 0 <= i < |os| ==> lines[i] == c.line(os[i])
    ensures ReadAll(c, lines) == Some(os)
  {
    if os != [] {
      ReadAllBack(c, lines[..|os| - 1], os[..|os| - 1]);
      assert os == os[..|os| - 1] + [os[|os| - 1]];
    }
  }

  /** Opening a journal cut off anywhere gives exactly the observations completely
      written, in order, and leaves a whole journal of them. */
  lemma OpeningRecovers(c: Codec, h: Header, os: seq<Observation>, data: Bytes)
    requires GoodCodec(c) && Holds(c, h, os, data)
    ensures Opened(c, h, data) == Ok((Whole(c, h, os), os))
  {
    if os == [] && NL !in data {
      assert [] + data == data;
      TornTailDropped([], data);
      assert Whole(c, h, os) == [] + c.header(h) + [NL];
    } else {
      var tail :| NL !in tail && data == Whole(c, h, os) + tail;
      WholeLines(c, h, os);
      TornTailDropped(Whole(c, h, os), tail);
      var lines := Complete(Whole(c, h, os));
      ReadAllBack(c, lines[1..], os);
    }
  }

  // ---- Runs of opens, appends and crashes --------------------------------

  datatype Event =
    | Open
    | Append(o: Observation)
    | CrashInAppend(o: Observation, n: nat)      // n bytes of the line reached the file
    | CrashInOpen(truncated: bool, n: nat)       // and n bytes of the header
    | Crash

  /** The disk, whether a process has the journal open, and what was completely written. */
  datatype Disk = Disk(data: Bytes, live: bool, written: seq<Observation>)

  function Cut(line: Bytes, n: nat): Bytes { if n >= |line| then line else line[..n] }

  function Happen(c: Codec, h: Header, d: Disk, e: Event): Disk {
    match e
    case Open =>
      if d.live || Opened(c, h, d.data).Err? then d else d.(data := Opened(c, h, d.data).value.0, live := true)
    case Append(o) => if d.live then d.(data := d.data + Line(c, o), written := d.written + [o]) else d
    case CrashInAppend(o, n) =>
      if !d.live then d
      else Disk(d.data + Cut(Line(c, o), n), false, if n >= |Line(c, o)| then d.written + [o] else d.written)
    case CrashInOpen(truncated, n) =>
      if d.live then d
      else
        var kept := if truncated then ThroughLastNewline(d.data) else d.data;
        d.(data := if Complete(kept) == [] && kept == [] then Cut(c.header(h) + [NL], n) else kept)
    case Crash => d.(live := false)
  }

  function Happened(c: Codec, h: Header, es: seq<Event>): Disk {
    if es == [] then Disk([], false, []) else Happen(c, h, Happened(c, h, es[..|es| - 1]), es[|es| - 1])
  }

  ghost predicate DiskOk(c: Codec, h: Header, d: Disk) {
    && Holds(c, h, d.written, d.data)
    && (d.live ==> d.data == Whole(c, h, d.written))
  }

  lemma WholeHolds(c: Codec, h: Header, os: seq<Observation>, tail: Bytes)
    requires NL !in tail
    ensures Holds(c, h, os, Whole(c, h, os) + tail) && Holds(c, h, os, Whole(c, h, os))
  {
    assert Whole(c, h, os) == Whole(c, h, os) + [];
  }

  lemma AppendIsWhole(c: Codec, h: Header, os: seq<Observation>, o: Observation)
    ensures Whole(c, h, os) + Line(c, o) == Whole(c, h, os + [o])
  {
    assert (os + [o])[..|os|] == os;
  }

  lemma CutHasNoNewline(c: Codec, line: Bytes, n: nat)
    requires NL !in line && n < |line + [NL]|
    ensures NL !in Cut(line + [NL], n)
  {
    assert Cut(line + [NL], n) == line[..n];
  }

  lemma TruncationHolds(c: Codec, h: Header, os: seq<Observation>, data: Bytes)
    requires GoodCodec(c) && Holds(c, h, os, data)
    ensures Holds(c, h, os, ThroughLastNewline(data))
    ensures ThroughLastNewline(data) == [] ==> os == []
  {
    if os == [] && NL !in data {
      assert [] + data == data;
      TornTailDropped([], data);
    } else {
      var tail :| NL !in tail && data == Whole(c, h, os) + tail;
      WholeLines(c, h, os);
      TornTailDropped(Whole(c, h, os), tail);
      WholeHolds(c, h, os, []);
    }
  }

  lemma HappenKeeps(c: Codec, h: Header, d: Disk, e: Event)
    requires GoodCodec(c) && DiskOk(c, h, d)
    ensures DiskOk(c, h, Happen(c, h, d, e))
  {
    match e
    case Open =>
      OpeningRecovers(c, h, d.written, d.data);
      WholeHolds(c, h, d.written, []);
    case Append(o) =>
      AppendIsWhole(c, h, d.written, o);
      WholeHolds(c, h, d.written + [o], []);
    case CrashInAppend(o, n) =>
      if d.live {
        if n >= |Line(c, o)| {
          AppendIsWhole(c, h, d.written, o);
          WholeHolds(c, h, d.written + [o], []);
        } else {
          CutHasNoNewline(c, c.line(o), n);
          WholeHolds(c, h, d.written, Cut(Line(c, o), n));
        }
      }
    case CrashInOpen(truncated, n) =>
      if !d.live {
        TruncationHolds(c, h, d.written, d.data);
        var kept := if truncated then ThroughLastNewline(d.data) else d.data;
        if kept == [] {
          EmptyHoldsNothing(c, h, d.written);
          if n >= |c.header(h) + [NL]| {
            assert Whole(c, h, []) == c.header(h) + [NL];
            WholeHolds(c, h, [], []);
          } else {
            CutHasNoNewline(c, c.header(h), n);
          }
        }
      }
    case Crash =>
  }

  lemma EmptyHoldsNothing(c: Codec, h: Header, os: seq<Observation>)
    requires Holds(c, h, os, [])
    ensures os == []
  {
  }

  /** After any appends, cut off at any byte by crashes, and reopenings, the next
      opening finds exactly the completely written observations in order. */
  lemma {:induction false} JournalRecovers(c: Codec, h: Header, es: seq<Event>)
    requires GoodCodec(c)
    ensures DiskOk(c, h, Happened(c, h, es))
    ensures Opened(c, h, Happened(c, h, es).data) == Ok((Whole(c, h, Happened(c, h, es).written), Happened(c, h, es).written))
  {
    if es != [] {
      JournalRecovers(c, h, es[..|es| - 1]);
      HappenKeeps(c, h, Happened(c, h, es[..|es| - 1]), es[|es| - 1]);
    }
    var d := Happened(c, h, es);
    OpeningRecovers(c, h, d.written, d.data);
  }

  // ---- The campaign's run ------------------------------------------------

  function Pair(o: Observation): (string, string) { (o.path, o.lane) }

  /** A file that opens as it stands. */
  ghost predicate Reads(c: Codec, h: Header, data: Bytes, os: seq<Observation>) { Opened(c, h, data) == Ok((data, os)) }

  lemma NewJournalReads(c: Codec, h: Header)
    requires GoodCodec(c)
    ensures Reads(c, h, [] + c.header(h) + [NL], [])
  {
    assert Whole(c, h, []) == [] + c.header(h) + [NL];
    WholeHolds(c, h, [], []);
    OpeningRecovers(c, h, [], Whole(c, h, []));
  }

  lemma {:induction false} ThroughEnds(data: Bytes)
    ensures var kept := ThroughLastNewline(data);
      (kept == [] || kept[|kept| - 1] == NL) && ThroughLastNewline(kept) == kept && Prefixes(kept, data)
  {
    if data != [] && data[|data| - 1] != NL { ThroughEnds(data[..|data| - 1]); }
  }

  predicate Prefixes(a: Bytes, b: Bytes) { |a| <= |b| && b[..|a|] == a }

  lemma NoCompleteLine(data: Bytes)
    requires Complete(data) == [] && (data == [] || data[|data| - 1] == NL)
    ensures data == []
  {
    if data != [] {
      AppendLine([], [], []);
      LastLineCounts(data, []);
    }
  }

  lemma {:induction false} LastLineCounts(data: Bytes, part: Bytes)
    requires data != [] && data[|data| - 1] == NL
    ensures CompleteFrom(data, part) != []
  {
    if data[0] != NL { LastLineCounts(data[1..], part + [data[0]]); }
  }

  lemma AppendReads(c: Codec, h: Header, data: Bytes, os: seq<Observation>, o: Observation)
    requires GoodCodec(c) && Reads(c, h, data, os)
    ensures Reads(c, h, data + Line(c, o), os + [o])
  {
    ThroughEnds(data);
    if Complete(ThroughLastNewline(data)) == [] { NoCompleteLine(ThroughLastNewline(data)); }
    var all := data + c.line(o) + [NL];
    assert data + Line(c, o) == all;
    AppendLine(data, [], c.line(o));
    var lines := Complete(data);
    assert (lines + [c.line(o)])[1..] == lines[1..] + [c.line(o)];
    assert (lines[1..] + [c.line(o)])[..|lines[1..]|] == lines[1..];
  }

  class File {
    var data: Bytes

    constructor (data: Bytes)
      ensures this.data == data
    {
      this.data := data;
    }
  }

  class Journal {
    const codec: Codec
    const header: Header
    const file: File
    var observations: seq<Observation>

    ghost predicate Valid() reads this, file {
      GoodCodec(codec) && Reads(codec, header, file.data, observations)
    }

    constructor (codec: Codec, header: Header, file: File, observations: seq<Observation>)
      requires GoodCodec(codec) && Reads(codec, header, file.data, observations)
      ensures Valid() && this.codec == codec && this.header == header && this.file == file
      ensures this.observations == observations
    {
      this.codec, this.header, this.file, this.observations := codec, header, file, observations;
    }

    method Append(o: Observation)
      requires Valid()
      modifies this`observations, file
      ensures Valid() && observations == old(observations) + [o]
      ensures file.data == old(file.data) + Line(codec, o)
    {
      AppendReads(codec, header, file.data, observations, o);
      file.data := file.data + Line(codec, o);
      observations := observations + [o];
    }

    function Done(): set<(string, string)> reads this { set i | 0 <= i < |observations| :: Pair(observations[i]) }

    /** Campaign.run: observe every pending pair in corpus order, or the first `limit`. */
    method Run(corpus: seq<string>, lanes: seq<string>, limit: Option<nat>, observe: (string, string) -> Observation)
      returns (observed: seq<Observation>)
      requires Valid() && Distinct(corpus) && Distinct(lanes)
      requires forall path, lane :: Pair(observe(path, lane)) == (path, lane)
      modifies this`observations, file
      ensures Valid() && observations == old(observations) + observed
      ensures Pairs(observed) == Take(Pending(corpus, lanes, old(Done())), limit)
    {
      observed := [];
      var done := Done();
      var todo := PendingList(corpus, lanes, done);
      for i := 0 to |todo|
        invariant Valid() && observations == old(observations) + observed && |observed| == i
        invariant Pairs(observed) == todo[..i]
        invariant limit.Some? ==> i <= limit.value
      {
        if limit.Some? && |observed| >= limit.value {
          return;
        }
        var o := observe(todo[i].0, todo[i].1);
        Append(o);
        OneMoreObserved(observed, todo, o, i);
        observed := observed + [o];
      }
      assert todo[..|todo|] == todo;
    }
  }

  ghost predicate Distinct(names: seq<string>) { forall i, j :: 0 <= i < j < |names| ==> names[i] != names[j] }

  function Pairs(os: seq<Observation>): (ps: seq<(string, string)>)
    ensures |ps| == |os|
  {
    seq(|os|, i requires 0 <= i < |os| => Pair(os[i]))
  }

  lemma OneMoreObserved(observed: seq<Observation>, todo: seq<(string, string)>, o: Observation, i: nat)
    requires i < |todo| && Pairs(observed) == todo[..i] && Pair(o) == todo[i]
    ensures Pairs(observed + [o]) == todo[..i + 1]
  {
    assert todo[..i + 1] == todo[..i] + [todo[i]];
  }

  function Take(ps: seq<(string, string)>, limit: Option<nat>): seq<(string, string)> {
    if limit.Some? && limit.value < |ps| then ps[..limit.value] else ps
  }

  /** The pairs of one document not done yet, in lane order. */
  function PendingOf(path: string, lanes: seq<string>, done: set<(string, string)>): seq<(string, string)> {
    if lanes == [] then []
    else (if (path, lanes[0]) in done then [] else [(path, lanes[0])]) + PendingOf(path, lanes[1..], done)
  }

  /** pending(): documents in corpus order, lanes in order within each. */
  function Pending(corpus: seq<string>, lanes: seq<string>, done: set<(string, string)>): seq<(string, string)> {
    if corpus == [] then [] else PendingOf(corpus[0], lanes, done) + Pending(corpus[1..], lanes, done)
  }

  /** The nested loops of pending(). */
  method PendingList(corpus: seq<string>, lanes: seq<string>, done: set<(string, string)>) returns (r: seq<(string, string)>)
    ensures r == Pending(corpus, lanes, done)
  {
    r := [];
    for i := 0 to |corpus|
      invariant r + Pending(corpus[i..], lanes, done) == Pending(corpus, lanes, done)
    {
      var more := PendingLanes(corpus[i], lanes, done);
      assert corpus[i..][1..] == corpus[i + 1..];
      r := r + more;
    }
  }

  method PendingLanes(path: string, lanes: seq<string>, done: set<(string, string)>) returns (r: seq<(string, string)>)
    ensures r == PendingOf(path, lanes, done)
  {
    r := [];
    for j := 0 to |lanes|
      invariant r + PendingOf(path, lanes[j..], done) == PendingOf(path, lanes, done)
    {
      assert lanes[j..][1..] == lanes[j + 1..];
      if (path, lanes[j]) !in done {
        r := r + [(path, lanes[j])];
      }
    }
  }

  // ---- Every pair exactly once -------------------------------------------

  lemma {:induction false} PendingOfMeaning(path: string, lanes: seq<string>, done: set<(string, string)>)
    requires Distinct(lanes)
    ensures var ps := PendingOf(path, lanes, done);
      && (forall p :: p in ps <==> p.0 == path && p.1 in lanes && p !in done)
      && (forall i, j :: 0 <= i < j < |ps| ==> ps[i] != ps[j])
  {
    if lanes != [] {
      PendingOfMeaning(path, lanes[1..], done);
      forall lane ensures lane in lanes <==> lane == lanes[0] || lane in lanes[1..] {
        assert lanes == [lanes[0]] + lanes[1..];
      }
    }
  }

  lemma {:induction false} PendingMeaning(corpus: seq<string>, lanes: seq<string>, done: set<(string, string)>)
    requires Distinct(corpus) && Distinct(lanes)
    ensures var ps := Pending(corpus, lanes, done);
      && (forall p :: p in ps <==> p.0 in corpus && p.1 in lanes && p !in done)
      && (forall i, j :: 0 <= i < j < |ps| ==> ps[i] != ps[j])
  {
    if corpus != [] {
      PendingMeaning(corpus[1..], lanes, done);
      PendingOfMeaning(corpus[0], lanes, done);
      var first, rest := PendingOf(corpus[0], lanes, done), Pending(corpus[1..], lanes, done);
      assert corpus == [corpus[0]] + corpus[1..];
      forall i, j | 0 <= i < j < |first + rest| ensures (first + rest)[i] != (first + rest)[j] {
        if i < |first| <= j {
          assert first[i] in first && rest[j - |first|] in rest;
          var k :| 0 <= k < |corpus[1..]| && corpus[1..][k] == rest[j - |first|].0;
          assert corpus[k + 1] != corpus[0];
        }
      }
    }
  }

  /** The journal records pairs of the campaign, none twice. */
  ghost predicate OncePerPair(corpus: seq<string>, lanes: seq<string>, os: seq<Observation>) {
    && (forall i, j :: 0 <= i < j < |os| ==> Pair(os[i]) != Pair(os[j]))
    && (forall i :: 0 <= i < |os| ==> os[i].path in corpus && os[i].lane in lanes)
  }

  /** A run, whole or limited or cut off after any append, never observes a pair twice;
      once nothing is pending, every pair has been observed exactly once. */
  lemma RunsObserveEachPairOnce(corpus: seq<string>, lanes: seq<string>, old': seq<Observation>, observed: seq<Observation>)
    requires Distinct(corpus) && Distinct(lanes) && OncePerPair(corpus, lanes, old')
    requires var todo := Pending(corpus, lanes, set i | 0 <= i < |old'| :: Pair(old'[i]));
      |observed| <= |todo| && Pairs(observed) == todo[..|observed|]
    ensures OncePerPair(corpus, lanes, old' + observed)
    ensures var done := set i | 0 <= i < |old'| :: Pair(old'[i]);
      |observed| == |Pending(corpus, lanes, done)| ==>
        forall path, lane :: path in corpus && lane in lanes ==> exists k :: 0 <= k < |old' + observed| && Pair((old' + observed)[k]) == (path, lane)
  {
    var done := set i | 0 <= i < |old'| :: Pair(old'[i]);
    var todo, all := Pending(corpus, lanes, done), old' + observed;
    PendingMeaning(corpus, lanes, done);
    forall i | 0 <= i < |observed| ensures Pair(observed[i]) == todo[i] && todo[i] in todo {
      assert Pairs(observed)[i] == todo[..|observed|][i];
    }
    if |observed| == |todo| {
      forall path, lane | path in corpus && lane in lanes ensures exists k :: 0 <= k < |all| && Pair(all[k]) == (path, lane) {
        if (path, lane) in done {
          var k :| 0 <= k < |old'| && Pair(old'[k]) == (path, lane);
          assert all[k] == old'[k];
        } else {
          assert (path, lane) in todo;
          var k :| 0 <= k < |todo| && todo[k] == (path, lane);
          assert all[|old'| + k] == observed[k];
        }
      }
    }
  }

  /** Journal.__init__: drop a torn line, check the header, read every line. */
  method OpenJournal(c: Codec, h: Header, file: File) returns (r: Result<Journal, JournalError>)
    requires GoodCodec(c)
    modifies file
    ensures r.Ok? <==> Opened(c, h, old(file.data)).Ok?
    ensures r.Err? ==> Opened(c, h, old(file.data)) == Err(r.error)
    ensures r.Ok? ==> fresh(r.value) && r.value.Valid() && r.value.file == file && r.value.codec == c && r.value.header == h
    ensures r.Ok? ==> Opened(c, h, old(file.data)) == Ok((file.data, r.value.observations))
  {
    var data := file.data;
    ThroughEnds(data);
    if data == [] || data[|data| - 1] != NL {
      data := ThroughLastNewline(data);
      file.data := data;
    }
    var lines := Complete(data);
    if lines == [] {
      NoCompleteLine(data);
      NewJournalReads(c, h);
      file.data := file.data + c.header(h) + [NL];
      var j := new Journal(c, h, file, []);
      return Ok(j);
    }
    var existing := c.readHeader(lines[0]);
    if existing.None? {
      return Err(BadHeader);
    }
    if existing.value != h {
      return Err(OtherCampaign);
    }
    var observations := ReadLines(c, lines[1..]);
    if observations.None? {
      return Err(BadLine);
    }
    var j := new Journal(c, h, file, observations.value);
    return Ok(j);
  }

  method ReadLines(c: Codec, lines: seq<Bytes>) returns (r: Option<seq<Observation>>)
    ensures r == ReadAll(c, lines)
  {
    var observations: seq<Observation> := [];
    for i := 0 to |lines|
      invariant ReadAll(c, lines[..i]) == Some(observations)
    {
      var o := c.readLine(lines[i]);
      assert lines[..i + 1][..i] == lines[..i];
      if o.None? {
        UnreadableLine(c, lines, i);
        return None;
      }
      observations := observations + [o.value];
    }
    assert lines[..|lines|] == lines;
    return Some(observations);
  }

  lemma {:induction false} UnreadableLine(c: Codec, lines: seq<Bytes>, i: nat)
    requires i < |lines| && c.readLine(lines[i]).None?
    ensures ReadAll(c, lines).None?
  {
    if i < |lines| - 1 { UnreadableLine(c, lines[..|lines| - 1], i); }
  }
}
