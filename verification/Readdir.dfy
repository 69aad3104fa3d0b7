/**
 Directory paging in the Wasm backend (stele/containment/wasm.py): the host's
 directory is read page by page, sorted by name, and served to the guest page
 by page with per-run inode numbers. Directory entries are those of fd_readdir
 in WASI preview 1.
 */
module Readdir {
  import opened Utf8
  import opened Wrappers

  const HEADER := 24
  const SHIM_DIRBUF_LEN := 65536
  const EOVERFLOW := 61

  // ---- Little-endian integers --------------------------------------------

  function Pow256(w: nat): nat { if w == 0 then 1 else 256 * Pow256(w - 1) }

  const U32 := 0x1_0000_0000
  const U64 := 0x1_0000_0000_0000_0000

  lemma Powers()
    ensures Pow256(4) == U32 && Pow256(8) == U64
  {
    assert Pow256(2) == 65536;
    assert Pow256(4) == 65536 * 65536;
    assert Pow256(6) == 65536 * 65536 * 65536;
  }

  function Le(n: nat, w: nat): (bs: seq<Byte>)
    ensures |bs| == w
  {
    if w == 0 then [] else [n % 256] + Le(n / 256, w - 1)
  }

  function FromLe(bs: seq<Byte>): nat { if bs == [] then 0 else bs[0] + 256 * FromLe(bs[1..]) }

  lemma {:induction false} FromLeInverts(n: nat, w: nat)
    requires n < Pow256(w)
    ensures FromLe(Le(n, w)) == n
  {
    if w > 0 {
      FromLeInverts(n / 256, w - 1);
      assert Le(n, w)[1..] == Le(n / 256, w - 1);
    }
  }

  // ---- Directory entries on the wire -------------------------------------

  datatype Dirent = Dirent(next: nat, ino: nat, kind: Byte, pad: seq<Byte>, name: seq<Byte>) {
    predicate Fits() {
      next < U64 && ino < U64 && |pad| == 3 && |name| < U32
    }
    function Size(): nat { HEADER + |name| }
  }

  function Header(d: Dirent): seq<Byte> { Le(d.next, 8) + Le(d.ino, 8) + Le(|d.name|, 4) + [d.kind] + d.pad }

  function Wire(ds: seq<Dirent>): seq<Byte> {
    if ds == [] then [] else Header(ds[0]) + ds[0].name + Wire(ds[1..])
  }

  function Take(bs: seq<Byte>, n: nat): seq<Byte> { if |bs| <= n then bs else bs[..n] }

  function HeaderOf(bs: seq<Byte>, name: seq<Byte>): Dirent
    requires |bs| >= HEADER
  {
    Dirent(FromLe(bs[..8]), FromLe(bs[8..16]), bs[20], bs[21..24], name)
  }

  /** The complete entries of a page. */
  function Parse(bs: seq<Byte>): seq<Dirent> {
    if |bs| < HEADER || HEADER + FromLe(bs[16..20]) > |bs| then []
    else
      var end := HEADER + FromLe(bs[16..20]);
      [HeaderOf(bs, bs[HEADER..end])] + Parse(bs[end..])
  }

  /** How many entries a page of n bytes holds whole. */
  function Whole(ds: seq<Dirent>, n: nat): (k: nat)
    ensures k <= |ds|
  {
    if ds == [] || ds[0].Size() > n then 0 else 1 + Whole(ds[1..], n - ds[0].Size())
  }

  ghost predicate AllFit(ds: seq<Dirent>) { forall i :: 0 <= i < |ds| ==> ds[i].Fits() }

  lemma HeaderParses(d: Dirent, rest: seq<Byte>)
    requires d.Fits()
    ensures var bs := Header(d) + rest;
      && |Header(d)| == HEADER && FromLe(bs[16..20]) == |d.name|
      && forall name :: HeaderOf(bs, name) == d.(name := name)
  {
    var bs := Header(d) + rest;
    Powers();
    FromLeInverts(d.next, 8);
    FromLeInverts(d.ino, 8);
    FromLeInverts(|d.name|, 4);
    assert bs[..8] == Le(d.next, 8);
    assert bs[8..16] == Le(d.ino, 8);
    assert bs[16..20] == Le(|d.name|, 4);
    assert bs[21..24] == d.pad;
  }

  /** A page cut anywhere parses to the entries it holds whole. */
  lemma ParseFirst(d: Dirent, tail: seq<Byte>)
    requires d.Fits()
    ensures Parse(Header(d) + (d.name + tail)) == [d] + Parse(tail)
  {
    var bs := Header(d) + (d.name + tail);
    HeaderParses(d, d.name + tail);
    assert bs[HEADER..d.Size()] == d.name && bs[d.Size()..] == tail;
  }

  lemma ParseCut(d: Dirent, rest: seq<Byte>, n: nat)
    requires d.Fits() && n < d.Size()
    ensures n <= |Header(d) + (d.name + rest)| && Parse((Header(d) + (d.name + rest))[..n]) == []
  {
    HeaderParses(d, []);
    if n >= HEADER {
      assert (Header(d) + (d.name + rest))[..n] == Header(d) + (d.name + rest)[..n - HEADER];
      HeaderParses(d, (d.name + rest)[..n - HEADER]);
    }
  }

  /** A page cut anywhere parses to the entries it holds whole. */
  lemma TakeFirst(d: Dirent, rest: seq<Byte>, n: nat)
    requires |d.pad| == 3 && d.Size() <= n
    ensures Take(Header(d) + d.name + rest, n) == Header(d) + (d.name + Take(rest, n - d.Size()))
  {
    assert |Header(d)| == HEADER;
  }

  lemma TakeCut(d: Dirent, rest: seq<Byte>, n: nat)
    requires d.Fits() && n < d.Size()
    ensures Parse(Take(Header(d) + d.name + rest, n)) == [] && |Take(Header(d) + d.name + rest, n)| == n
  {
    ParseCut(d, rest, n);
    assert |Header(d)| == HEADER;
    assert Header(d) + d.name + rest == Header(d) + (d.name + rest);
  }

  /** A page cut anywhere parses to the entries it holds whole. */
  lemma {:induction false} ParsePage(ds: seq<Dirent>, n: nat)
    requires AllFit(ds)
    ensures Parse(Take(Wire(ds), n)) == ds[..Whole(ds, n)]
    ensures |Take(Wire(ds), n)| < n ==> Whole(ds, n) == |ds|
  {
    if ds == [] {
      assert Wire(ds) == [];
    } else {
      var d, rest := ds[0], Wire(ds[1..]);
      if d.Size() <= n {
        var tail := Take(rest, n - d.Size());
        ParsePage(ds[1..], n - d.Size());
        TakeFirst(d, rest, n);
        ParseFirst(d, tail);
        WholeStep(ds, n);
      } else {
        TakeCut(d, rest, n);
      }
    }
  }

  lemma WholeStep(ds: seq<Dirent>, n: nat)
    requires ds != [] && ds[0].Size() <= n
    ensures ds[..Whole(ds, n)] == [ds[0]] + ds[1..][..Whole(ds[1..], n - ds[0].Size())]
  {
  }

  // ---- Reading the host's directory --------------------------------------

  datatype Entry = Entry(name: seq<Byte>, kind: Byte, ino: nat)

  datatype Reply = Errno(code: nat) | Page(bytes: seq<Byte>)

  /** A host's fd_readdir on one directory, by cookie, with a 65536-byte buffer. */
  type Host = nat -> Reply

  /** The cookie that continues at entry i. */
  function CookieOf(ds: seq<Dirent>, i: nat): nat
    requires i <= |ds|
  {
    if i == 0 then 0 else ds[i - 1].next
  }

  /** The host lists ds: each page holds as much of the rest as the buffer takes. */
  ghost predicate Conforming(host: Host, ds: seq<Dirent>) {
    && AllFit(ds)
    && forall i :: 0 <= i <= |ds| ==> ServesFrom(host, ds, i)
  }

  ghost predicate ServesFrom(host: Host, ds: seq<Dirent>, i: nat)
    requires i <= |ds|
  {
    match host(CookieOf(ds, i))
    case Errno(code) => code != 0
    case Page(bytes) => bytes == Take(Wire(ds[i..]), SHIM_DIRBUF_LEN)
  }

  function EntryOf(d: Dirent): Entry { Entry(d.name, d.kind, d.ino) }

  function EntriesOf(ds: seq<Dirent>): (es: seq<Entry>)
    ensures |es| == |ds|
  {
    seq(|ds|, i requires 0 <= i < |ds| => EntryOf(ds[i]))
  }

  /** Entries seen, then the rest of the page. */
  ghost predicate PageSplit(raw: seq<Byte>, seen: seq<Dirent>, pos: nat) {
    pos <= |raw| && Parse(raw) == seen + Parse(raw[pos..])
  }

  lemma PageStarts(raw: seq<Byte>)
    ensures PageSplit(raw, [], 0)
  {
    assert raw[0..] == raw && [] + Parse(raw) == Parse(raw);
  }

  /** The entry at pos and where it ends, if the page holds it whole. */
  function WholeAt(raw: seq<Byte>, pos: nat): (r: Option<(Dirent, nat)>)
    requires pos + HEADER <= |raw|
    ensures r.Some? ==> pos < r.value.1 <= |raw|
  {
    var at := raw[pos..];
    var end := HEADER + FromLe(at[16..20]);
    if end > |at| then None else Some((HeaderOf(at, at[HEADER..end]), pos + end))
  }

  /** One more whole entry at pos, or none. */
  lemma ParseWhole(raw: seq<Byte>, pos: nat)
    requires pos + HEADER <= |raw|
    ensures WholeAt(raw, pos).None? ==> Parse(raw[pos..]) == []
    ensures WholeAt(raw, pos).Some? ==>
      Parse(raw[pos..]) == [WholeAt(raw, pos).value.0] + Parse(raw[WholeAt(raw, pos).value.1..])
  {
    var at := raw[pos..];
    var end := HEADER + FromLe(at[16..20]);
    if end <= |at| { assert at[end..] == raw[pos + end..]; }
  }

  lemma PageStep(raw: seq<Byte>, seen: seq<Dirent>, pos: nat)
    requires PageSplit(raw, seen, pos)
    ensures pos + HEADER > |raw| ==> Parse(raw) == seen
    ensures pos + HEADER <= |raw| && WholeAt(raw, pos).None? ==> Parse(raw) == seen
    ensures pos + HEADER <= |raw| && WholeAt(raw, pos).Some? ==>
      PageSplit(raw, seen + [WholeAt(raw, pos).value.0], WholeAt(raw, pos).value.1)
  {
    assert seen + [] == seen;
    if pos + HEADER > |raw| {
      assert Parse(raw[pos..]) == [];
    } else {
      ParseWhole(raw, pos);
      if WholeAt(raw, pos).Some? {
        var (d, end) := WholeAt(raw, pos).value;
        SeqAssociates(seen, [d], Parse(raw[end..]));
      }
    }
  }

  lemma SeqAssociates(a: seq<Dirent>, b: seq<Dirent>, c: seq<Dirent>)
    ensures a + (b + c) == (a + b) + c
  {
  }

  /** What the loop's variables hold after these entries. */
  ghost predicate Collected(seen: seq<Dirent>, entries: seq<Entry>, cookie: nat, entries': seq<Entry>, cookie': nat, progressed: bool) {
    && entries' == entries + EntriesOf(seen)
    && (progressed <==> seen != [])
    && cookie' == if seen == [] then cookie else seen[|seen| - 1].next
  }

  lemma CollectOne(seen: seq<Dirent>, entries: seq<Entry>, cookie: nat, entries': seq<Entry>, cookie': nat, progressed: bool, d: Dirent)
    requires Collected(seen, entries, cookie, entries', cookie', progressed)
    ensures Collected(seen + [d], entries, cookie, entries' + [EntryOf(d)], d.next, true)
  {
    EntriesAppend(seen, d);
  }

  /** The inner loop: the page's complete entries, and where to continue. */
  method ReadPage(raw: seq<Byte>, entries: seq<Entry>, cookie: nat)
    returns (entries': seq<Entry>, cookie': nat, progressed: bool)
    ensures Collected(Parse(raw), entries, cookie, entries', cookie', progressed)
  {
    var used := |raw|;
    var pos := 0;
    progressed, entries', cookie' := false, entries, cookie;
    ghost var seen: seq<Dirent> := [];
    PageStarts(raw);
    while pos + HEADER <= used
      invariant PageSplit(raw, seen, pos)
      invariant Collected(seen, entries, cookie, entries', cookie', progressed)
      decreases used - pos
    {
      PageStep(raw, seen, pos);
      var next := WholeAt(raw, pos);
      if next.None? {
        return;
      }
      var (d, end) := next.value;
      CollectOne(seen, entries, cookie, entries', cookie', progressed, d);
      entries' := entries' + [EntryOf(d)];
      cookie', pos, progressed := d.next, end, true;
      seen := seen + [d];
    }
    PageStep(raw, seen, pos);
  }

  lemma EntriesAppend(ds: seq<Dirent>, d: Dirent)
    ensures EntriesOf(ds + [d]) == EntriesOf(ds) + [EntryOf(d)]
  {
  }

  lemma PageFrom(host: Host, ds: seq<Dirent>, i: nat)
    requires Conforming(host, ds) && i <= |ds| && host(CookieOf(ds, i)).Page?
    ensures var raw := host(CookieOf(ds, i)).bytes;
      var k := i + Whole(ds[i..], SHIM_DIRBUF_LEN);
      && k <= |ds| && Parse(raw) == ds[i..k]
      && |raw| <= SHIM_DIRBUF_LEN && (|raw| < SHIM_DIRBUF_LEN ==> k == |ds|)
      && (k == i ==> |raw| < SHIM_DIRBUF_LEN || (i < |ds| && ds[i].Size() > SHIM_DIRBUF_LEN))
  {
    assert ServesFrom(host, ds, i);
    ParsePage(ds[i..], SHIM_DIRBUF_LEN);
    var k := i + Whole(ds[i..], SHIM_DIRBUF_LEN);
    assert ds[i..][..k - i] == ds[i..k];
    if i == |ds| { assert Wire(ds[i..]) == []; }
  }

  ghost predicate HasOversized(ds: seq<Dirent>) { exists i :: 0 <= i < |ds| && ds[i].Size() > SHIM_DIRBUF_LEN }

  ghost predicate HostFails(host: Host, ds: seq<Dirent>, code: nat) {
    exists i :: 0 <= i <= |ds| && host(CookieOf(ds, i)) == Errno(code)
  }

  /** One page further. */
  lemma NextPage(ds: seq<Dirent>, i: nat, k: nat)
    requires i <= k <= |ds| && k == i + Whole(ds[i..], SHIM_DIRBUF_LEN)
    ensures EntriesOf(ds[..k]) == EntriesOf(ds[..i]) + EntriesOf(ds[i..k])
    ensures forall j :: i <= j < k ==> ds[j].Size() <= SHIM_DIRBUF_LEN
  {
    WholeFits(ds[i..], SHIM_DIRBUF_LEN);
    assert forall j :: i <= j < k ==> ds[j] == ds[i..][j - i];
  }

  /** The first i entries have been read. */
  ghost predicate Listed(ds: seq<Dirent>, i: nat, entries: seq<Entry>, cookie: nat) {
    && i <= |ds| && cookie == CookieOf(ds, i) && entries == EntriesOf(ds[..i])
    && forall j :: 0 <= j < i ==> ds[j].Size() <= SHIM_DIRBUF_LEN
  }

  /** A page further: to the end if the page is short, and stuck only at an oversized entry. */
  lemma Advance(host: Host, ds: seq<Dirent>, i: nat, entries: seq<Entry>, cookie: nat, raw: seq<Byte>,
                entries': seq<Entry>, cookie': nat, progressed: bool)
    returns (k: nat)
    requires Conforming(host, ds) && Listed(ds, i, entries, cookie) && host(cookie) == Page(raw)
    requires Collected(Parse(raw), entries, cookie, entries', cookie', progressed)
    ensures Listed(ds, k, entries', cookie') && i <= k
    ensures |raw| < SHIM_DIRBUF_LEN ==> k == |ds|
    ensures progressed ==> k > i
    ensures !progressed && |raw| >= SHIM_DIRBUF_LEN ==> HasOversized(ds)
  {
    PageFrom(host, ds, i);
    k := i + Whole(ds[i..], SHIM_DIRBUF_LEN);
    NextPage(ds, i, k);
    if k > i { assert ds[i..k][k - i - 1] == ds[k - 1]; }
  }

  /** _list_directory: the whole directory, sorted by name, or the reason it cannot be read. */
  method ListDirectory(host: Host, ghost ds: seq<Dirent>) returns (r: Result<seq<Entry>, nat>)
    requires Conforming(host, ds)
    ensures r.Ok? ==> r.value == SortByName(EntriesOf(ds)) && !HasOversized(ds)
    ensures r.Err? ==> r.error != 0
    ensures r.Err? ==> HostFails(host, ds, r.error) || (r.error == EOVERFLOW && HasOversized(ds))
  {
    var entries: seq<Entry> := [];
    var cookie := 0;
    ghost var i: nat := 0;
    while true
      invariant Listed(ds, i, entries, cookie)
      decreases |ds| - i
    {
      var reply := host(cookie);
      assert ServesFrom(host, ds, i);
      if reply.Errno? {
        return Err(reply.code);
      }
      var entries', cookie', progressed := ReadPage(reply.bytes, entries, cookie);
      i := Advance(host, ds, i, entries, cookie, reply.bytes, entries', cookie', progressed);
      entries, cookie := entries', cookie';
      if |reply.bytes| < SHIM_DIRBUF_LEN {
        break;
      }
      if !progressed {
        return Err(EOVERFLOW);
      }
    }
    assert ds[..i] == ds;
    entries := Sort(entries);
    return Ok(entries);
  }

  lemma {:induction false} WholeFits(ds: seq<Dirent>, n: nat)
    ensures forall j :: 0 <= j < Whole(ds, n) ==> ds[j].Size() <= n
  {
    if ds != [] && ds[0].Size() <= n {
      WholeFits(ds[1..], n - ds[0].Size());
      assert forall j :: 1 <= j < |ds| ==> ds[j] == ds[1..][j - 1];
    }
  }

  // ---- Sorting -----------------------------------------------------------

  predicate NameBefore(a: seq<Byte>, b: seq<Byte>) {
    b != [] && (a == [] || a[0] < b[0] || (a[0] == b[0] && NameBefore(a[1..], b[1..])))
  }

  lemma {:induction false} NameOrder(a: seq<Byte>, b: seq<Byte>, c: seq<Byte>)
    ensures !(NameBefore(a, b) && NameBefore(b, a))
    ensures !NameBefore(b, a) && !NameBefore(c, b) ==> !NameBefore(c, a)
    decreases |a| + |b| + |c|
  {
    if a != [] && b != [] && c != [] { NameOrder(a[1..], b[1..], c[1..]); }
    if a != [] && b != [] { NameOrder(a[1..], b[1..], []); }
  }

  ghost predicate ByName(es: seq<Entry>) {
    forall i, j :: 0 <= i < j < |es| ==> !NameBefore(es[j].name, es[i].name)
  }

  /** After every entry that does not sort after it. */
  function Place(e: Entry, es: seq<Entry>): seq<Entry> {
    if es == [] then [e]
    else if NameBefore(e.name, es[|es| - 1].name) then Place(e, es[..|es| - 1]) + [es[|es| - 1]]
    else es + [e]
  }

  /** list.sort(key=name): stable. */
  function SortByName(es: seq<Entry>): seq<Entry> {
    if es == [] then [] else Place(es[|es| - 1], SortByName(es[..|es| - 1]))
  }

  /** An entry that does not sort before the last sorts after all. */
  lemma AfterAll(e: Entry, es: seq<Entry>)
    requires ByName(es) && es != [] && !NameBefore(e.name, es[|es| - 1].name)
    ensures ByName(es + [e])
  {
    var last := es[|es| - 1];
    forall i | 0 <= i < |es| ensures !NameBefore(e.name, es[i].name) {
      NameOrder(es[i].name, last.name, e.name);
      NameOrder(es[i].name, es[i].name, []);
    }
  }

  lemma BeforeLast(p: seq<Entry>, front: seq<Entry>, e: Entry, last: Entry)
    requires ByName(p) && ByName(front + [last]) && multiset(p) == multiset(front) + multiset{e} && NameBefore(e.name, last.name)
    ensures ByName(p + [last])
  {
    NameOrder(e.name, last.name, []);
    forall i | 0 <= i < |p| ensures !NameBefore(last.name, p[i].name) {
      assert p[i] in multiset(p);
      if p[i] != e {
        assert p[i] in front;
        var k :| 0 <= k < |front| && front[k] == p[i];
        assert (front + [last])[k] == p[i] && (front + [last])[|front|] == last;
      }
    }
  }

  lemma {:induction false} PlaceKeeps(e: Entry, es: seq<Entry>)
    requires ByName(es)
    ensures ByName(Place(e, es)) && multiset(Place(e, es)) == multiset(es) + multiset{e}
  {
    if es == [] {
    } else {
      var last, front := es[|es| - 1], es[..|es| - 1];
      assert es == front + [last];
      if NameBefore(e.name, last.name) {
        PlaceKeeps(e, front);
        BeforeLast(Place(e, front), front, e, last);
      } else {
        AfterAll(e, es);
      }
    }
  }

  /** The listing is the directory, in name order. */
  lemma {:induction false} SortMeaning(es: seq<Entry>)
    ensures ByName(SortByName(es)) && multiset(SortByName(es)) == multiset(es)
  {
    if es != [] {
      var front := es[..|es| - 1];
      SortMeaning(front);
      PlaceKeeps(es[|es| - 1], SortByName(front));
      assert es == front + [es[|es| - 1]];
    }
  }

  method Sort(es: seq<Entry>) returns (r: seq<Entry>)
    ensures r == SortByName(es)
  {
    r := [];
    for i := 0 to |es|
      invariant r == SortByName(es[..i])
    {
      assert es[..i + 1][..i] == es[..i];
      r := Place(es[i], r);
    }
    assert es[..|es|] == es;
  }

  // ---- Serving the guest -------------------------------------------------

  /** Entries from..to of a listing as the guest sees them: cookie i + 1 follows entry i. */
  function Served(inodes: map<nat, nat>, es: seq<Entry>, from: nat, to: nat): (ds: seq<Dirent>)
    requires from <= to <= |es| && forall i :: from <= i < to ==> es[i].ino in inodes
    ensures |ds| == to - from
  {
    seq(to - from, k requires 0 <= k < to - from =>
      Dirent(from + k + 1, inodes[es[from + k].ino], es[from + k].kind, [0, 0, 0], es[from + k].name))
  }

  ghost predicate Extends(later: map<nat, nat>, earlier: map<nat, nat>) {
    forall k :: k in earlier ==> k in later && later[k] == earlier[k]
  }

  /** Numbers 1, 2, ... in order of first observation. */
  ghost predicate Numbering(inodes: map<nat, nat>) {
    && (forall k :: k in inodes ==> 1 <= inodes[k] <= |inodes|)
    && (forall j, k :: j in inodes && k in inodes && inodes[j] == inodes[k] ==> j == k)
  }

  lemma {:induction false} WireAppend(ds: seq<Dirent>, d: Dirent)
    ensures Wire(ds + [d]) == Wire(ds) + Header(d) + d.name
  {
    if ds == [] {
      assert [] + [d] == [d] && [d][1..] == [];
    } else {
      assert (ds + [d])[1..] == ds[1..] + [d];
      WireAppend(ds[1..], d);
    }
  }

  ghost function Inos(es: seq<Entry>): set<nat> { set e | e in es :: e.ino }

  lemma InosHas(es: seq<Entry>, i: nat)
    requires i < |es|
    ensures es[i].ino in Inos(es)
  {
    assert es[i] in es;
  }

  lemma {:induction false} InosBounded(es: seq<Entry>)
    ensures |Inos(es)| <= |es|
  {
    if es == [] {
      assert Inos(es) == {};
    } else {
      InosBounded(es[1..]);
      assert Inos(es) == Inos(es[1..]) + {es[0].ino};
    }
  }

  lemma UnionBounded(a: set<nat>, b: set<nat>, c: set<nat>)
    requires a <= b + c
    ensures |a| <= |b| + |c|
  {
    SubsetCount(a, b + c);
    assert b + c == b + (c - b);
    SubsetCount(c - b, c);
  }

  lemma {:induction false} SubsetCount(a: set<nat>, b: set<nat>)
    requires a <= b
    ensures |a| <= |b|
    decreases a
  {
    if a != {} {
      var x :| x in a;
      SubsetCount(a - {x}, b - {x});
    }
  }

  class Run {
    var inodes: map<nat, nat>
    var listings: map<nat, seq<Entry>>

    ghost predicate Valid() reads this { Numbering(inodes) }

    constructor ()
      ensures Valid() && inodes == map[] && listings == map[]
    {
      inodes, listings := map[], map[];
    }

    /** _inode: the number given on first observation, never 0. */
    method Inode(hostIno: nat) returns (n: nat)
      requires Valid()
      modifies this`inodes
      ensures Valid() && Extends(inodes, old(inodes)) && inodes.Keys == old(inodes).Keys + {hostIno}
      ensures n == inodes[hostIno] && n >= 1
    {
      if hostIno !in inodes {
        inodes := inodes[hostIno := |inodes| + 1];
      }
      n := inodes[hostIno];
    }

    /** The loop of _fd_readdir: lay out entries until the buffer is full. */
    method LayOut(entries: seq<Entry>, cookie: nat, bufLen: nat) returns (out: seq<Byte>, ghost shown: nat)
      requires Valid()
      modifies this`inodes
      ensures Valid() && Extends(inodes, old(inodes)) && inodes.Keys <= old(inodes).Keys + Inos(entries)
      ensures cookie > |entries| ==> out == []
      ensures cookie <= |entries| ==> LaidOut(inodes, entries, cookie, shown, out)
      ensures cookie <= |entries| && shown < |entries| ==> |out| >= bufLen
    {
      out := [];
      var index := cookie;
      while index < |entries|
        invariant Valid() && Extends(inodes, old(inodes)) && inodes.Keys <= old(inodes).Keys + Inos(entries)
        invariant cookie > |entries| ==> index == cookie && out == []
        invariant cookie <= |entries| ==> LaidOut(inodes, entries, cookie, index, out)
      {
        if |out| >= bufLen {
          break;
        }
        var e := entries[index];
        ghost var before := inodes;
        var n := Inode(e.ino);
        InosHas(entries, index);
        ServedGrows(before, inodes, entries, cookie, index);
        out := out + Header(Dirent(index + 1, n, e.kind, [0, 0, 0], e.name)) + e.name;
        index := index + 1;
      }
      shown := index;
    }

    /** _fd_readdir: `shown` entries were laid out; the reply is as much of them as fits. */
    method FdReaddir(host: Host, ghost ds: seq<Dirent>, fd: nat, bufLen: nat, cookie: nat)
      returns (errno: nat, out: seq<Byte>, ghost shown: nat)
      requires Valid() && Conforming(host, ds)
      modifies this
      ensures Valid() && Extends(inodes, old(inodes))
      ensures errno != 0 ==> out == [] && listings == old(listings) && inodes == old(inodes)
      ensures errno != 0 ==> HostFails(host, ds, errno) || (errno == EOVERFLOW && HasOversized(ds))
      ensures errno == 0 && (cookie == 0 || fd !in old(listings)) ==> listings == old(listings)[fd := SortByName(EntriesOf(ds))]
      ensures errno == 0 && cookie != 0 && fd in old(listings) ==> listings == old(listings)
      ensures errno == 0 ==> fd in listings && inodes.Keys <= old(inodes).Keys + Inos(listings[fd])
      ensures errno == 0 && cookie > |listings[fd]| ==> out == []
      ensures errno == 0 && cookie <= |listings[fd]| ==> Shows(fd, cookie, shown, bufLen, out)
    {
      out, shown := [], cookie;
      if cookie == 0 || fd !in listings {
        var listing := ListDirectory(host, ds);
        if listing.Err? {
          errno := listing.error;
          return;
        }
        listings := listings[fd := listing.value];
      }
      out, shown := LayOut(listings[fd], cookie, bufLen);
      out := Take(out, bufLen);
      errno := 0;
    }

    ghost predicate Shows(fd: nat, cookie: nat, shown: nat, bufLen: nat, out: seq<Byte>)
      reads this
    {
      && fd in listings && cookie <= shown <= |listings[fd]|
      && (forall i :: cookie <= i < shown ==> listings[fd][i].ino in inodes)
      && var wire := Wire(Served(inodes, listings[fd], cookie, shown));
         out == Take(wire, bufLen) && (shown == |listings[fd]| || |wire| >= bufLen)
    }
  }

  /** out is entries from..to of a listing, each under its number. */
  ghost predicate LaidOut(inodes: map<nat, nat>, es: seq<Entry>, from: nat, to: nat, out: seq<Byte>) {
    && from <= to <= |es| && (forall i :: from <= i < to ==> es[i].ino in inodes)
    && out == Wire(Served(inodes, es, from, to))
  }

  lemma ServedGrows(before: map<nat, nat>, after: map<nat, nat>, es: seq<Entry>, from: nat, to: nat)
    requires from <= to < |es| && Extends(after, before) && es[to].ino in after
    requires forall i :: from <= i < to ==> es[i].ino in before
    ensures forall i :: from <= i <= to ==> es[i].ino in after
    ensures var d := Dirent(to + 1, after[es[to].ino], es[to].kind, [0, 0, 0], es[to].name);
      Wire(Served(after, es, from, to + 1)) == Wire(Served(before, es, from, to)) + Header(d) + d.name
  {
    var d := Dirent(to + 1, after[es[to].ino], es[to].kind, [0, 0, 0], es[to].name);
    assert Served(after, es, from, to + 1) == Served(before, es, from, to) + [d];
    WireAppend(Served(before, es, from, to), d);
  }

  /** What a guest learns from one reply: the next entries, or that it has seen them all. */
  lemma ReplyHolds(inodes: map<nat, nat>, es: seq<Entry>, from: nat, shown: nat, bufLen: nat)
    requires from <= shown <= |es| && forall i :: from <= i < shown ==> es[i].ino in inodes
    requires Numbering(inodes) && |es| < U64 && |inodes| < U64
    requires HEADER <= bufLen < U32 && forall i :: 0 <= i < |es| ==> HEADER + |es[i].name| <= bufLen
    requires shown == |es| || |Wire(Served(inodes, es, from, shown))| >= bufLen
    ensures var out := Take(Wire(Served(inodes, es, from, shown)), bufLen);
      var got := Parse(out);
      && from + |got| <= |es| && (forall i :: from <= i < from + |got| ==> es[i].ino in inodes)
      && got == Served(inodes, es, from, from + |got|)
      && (|out| < bufLen ==> from + |got| == |es|)
      && (|out| >= bufLen ==> got != [])
  {
    var ds := Served(inodes, es, from, shown);
    ServedFits(inodes, es, from, shown);
    ParsePage(ds, bufLen);
    var k := Whole(ds, bufLen);
    assert ds[..k] == Served(inodes, es, from, from + k);
    if ds == [] { assert Wire(ds) == []; }
  }

  lemma ServedFits(inodes: map<nat, nat>, es: seq<Entry>, from: nat, shown: nat)
    requires from <= shown <= |es| && forall i :: from <= i < shown ==> es[i].ino in inodes
    requires Numbering(inodes) && |es| < U64 && |inodes| < U64 && forall i :: 0 <= i < |es| ==> |es[i].name| < U32
    ensures forall i :: 0 <= i < |Served(inodes, es, from, shown)| ==> Served(inodes, es, from, shown)[i].Fits()
  {
    var ds := Served(inodes, es, from, shown);
    forall i | 0 <= i < |ds| ensures ds[i].Fits() {
      assert ds[i].ino == inodes[es[from + i].ino];
    }
  }

  /** The guest's entries so far, and the reply that follows them. */
  lemma ReplyFollows(old': map<nat, nat>, inodes: map<nat, nat>, es: seq<Entry>, got: seq<Dirent>, more: seq<Dirent>)
    requires Extends(inodes, old') && SeesFirst(got, es, old')
    requires |got| + |more| <= |es| && forall i :: |got| <= i < |got| + |more| ==> es[i].ino in inodes
    requires more == Served(inodes, es, |got|, |got| + |more|)
    ensures SeesFirst(got + more, es, inodes)
  {
  }

  /** One fd_readdir call of a guest that has seen the first entries. */
  method ReadMore(run: Run, host: Host, ghost ds: seq<Dirent>, fd: nat, bufLen: nat, cookie: nat, got: seq<Dirent>)
    returns (errno: nat, got': seq<Dirent>, done: bool)
    requires run.Valid() && Conforming(host, ds) && |ds| + |run.inodes| < U64
    requires cookie == |got| <= |ds|
    requires HEADER <= bufLen < U32 && forall i :: 0 <= i < |ds| ==> HEADER + |ds[i].name| <= bufLen
    requires cookie > 0 ==> fd in run.listings && run.listings[fd] == SortByName(EntriesOf(ds))
    requires SeesFirst(got, SortByName(EntriesOf(ds)), run.inodes)
    modifies run
    ensures run.Valid() && Extends(run.inodes, old(run.inodes))
    ensures errno != 0 ==> HostFails(host, ds, errno) || (errno == EOVERFLOW && HasOversized(ds))
    ensures errno == 0 ==> run.inodes.Keys <= old(run.inodes).Keys + Inos(SortByName(EntriesOf(ds)))
    ensures errno == 0 ==> fd in run.listings && run.listings[fd] == SortByName(EntriesOf(ds))
    ensures errno == 0 ==> SeesFirst(got', SortByName(EntriesOf(ds)), run.inodes)
    ensures errno == 0 ==> if done then |got'| == |ds| else |got| < |got'| <= |ds|
  {
    ghost var es := SortByName(EntriesOf(ds));
    got', done := got, false;
    ghost var before := run.inodes;
    var out;
    ghost var shown;
    ListingCounts(ds, es);
    errno, out, shown := run.FdReaddir(host, ds, fd, bufLen, cookie);
    if errno != 0 {
      return;
    }
    assert run.Shows(fd, cookie, shown, bufLen, out);
    AfterReply(before, run.inodes, es, got, shown, bufLen, out);
    got' := got + Parse(out);
    done := |out| < bufLen;
  }

  lemma AfterReply(before: map<nat, nat>, inodes: map<nat, nat>, es: seq<Entry>, got: seq<Dirent>,
                   shown: nat, bufLen: nat, out: seq<Byte>)
    requires Numbering(inodes) && Extends(inodes, before) && SeesFirst(got, es, before)
    requires |es| + |before| < U64 && |Inos(es)| <= |es| && inodes.Keys <= before.Keys + Inos(es)
    requires HEADER <= bufLen < U32 && forall i :: 0 <= i < |es| ==> HEADER + |es[i].name| <= bufLen
    requires |got| <= shown <= |es| && forall i :: |got| <= i < shown ==> es[i].ino in inodes
    requires out == Take(Wire(Served(inodes, es, |got|, shown)), bufLen)
    requires shown == |es| || |Wire(Served(inodes, es, |got|, shown))| >= bufLen
    ensures SeesFirst(got + Parse(out), es, inodes)
    ensures if |out| < bufLen then |got + Parse(out)| == |es| else |got| < |got + Parse(out)| <= |es|
  {
    UnionBounded(inodes.Keys, before.Keys, Inos(es));
    assert |inodes| == |inodes.Keys| && |before| == |before.Keys|;
    var more := NextEntries(inodes, es, |got|, shown, bufLen, out);
    ReplyFollows(before, inodes, es, got, more);
  }

  lemma NextEntries(inodes: map<nat, nat>, es: seq<Entry>, from: nat, shown: nat, bufLen: nat, out: seq<Byte>)
    returns (more: seq<Dirent>)
    requires from <= shown <= |es| && forall i :: from <= i < shown ==> es[i].ino in inodes
    requires Numbering(inodes) && |es| < U64 && |inodes| < U64
    requires HEADER <= bufLen < U32 && forall i :: 0 <= i < |es| ==> HEADER + |es[i].name| <= bufLen
    requires shown == |es| || |Wire(Served(inodes, es, from, shown))| >= bufLen
    requires out == Take(Wire(Served(inodes, es, from, shown)), bufLen)
    ensures more == Parse(out) && from + |more| <= |es|
    ensures forall i :: from <= i < from + |more| ==> es[i].ino in inodes
    ensures more == Served(inodes, es, from, from + |more|)
    ensures if |out| < bufLen then from + |more| == |es| else more != []
  {
    ReplyHolds(inodes, es, from, shown, bufLen);
    more := Parse(out);
  }

  /** The guest's loop: resume at the last complete entry's cookie, with any buffer
      that holds the largest entry, until a reply is shorter than the buffer. */
  method ReadWhole(run: Run, host: Host, ghost ds: seq<Dirent>, fd: nat, size: nat -> nat)
    returns (errno: nat, got: seq<Dirent>)
    requires run.Valid() && Conforming(host, ds)
    requires 2 * |ds| + |run.inodes| < U64
    requires forall k: nat, i :: 0 <= i < |ds| ==> HEADER + |ds[i].name| <= size(k)
    requires forall k: nat :: HEADER <= size(k) < U32
    modifies run
    ensures run.Valid() && Extends(run.inodes, old(run.inodes))
    ensures errno != 0 ==> HostFails(host, ds, errno) || (errno == EOVERFLOW && HasOversized(ds))
    ensures errno == 0 ==> SeesListing(got, SortByName(EntriesOf(ds)), run.inodes)
  {
    got := [];
    var calls: nat := 0;
    ghost var es := SortByName(EntriesOf(ds));
    ListingCounts(ds, es);
    while true
      invariant run.Valid() && Extends(run.inodes, old(run.inodes))
      invariant run.inodes.Keys <= old(run.inodes).Keys + Inos(es)
      invariant |got| <= |ds| && SeesFirst(got, es, run.inodes)
      invariant |got| > 0 ==> fd in run.listings && run.listings[fd] == es
      decreases |ds| - |got|
    {
      UnionBounded(run.inodes.Keys, old(run.inodes).Keys, Inos(es));
      var done;
      errno, got, done := ReadMore(run, host, ds, fd, size(calls), CookieAfter(got), got);
      if errno != 0 || done {
        return;
      }
      calls := calls + 1;
    }
  }

  /** The last complete entry's cookie. */
  function CookieAfter(got: seq<Dirent>): nat { if got == [] then 0 else got[|got| - 1].next }

  lemma ListingCounts(ds: seq<Dirent>, es: seq<Entry>)
    requires es == SortByName(EntriesOf(ds))
    ensures |es| == |ds| && |Inos(es)| <= |ds|
    ensures forall i :: 0 <= i < |es| ==> exists j :: 0 <= j < |ds| && es[i] == EntryOf(ds[j])
  {
    SortMeaning(EntriesOf(ds));
    NamesKept(ds, es);
    InosBounded(es);
  }

  ghost predicate SeesFirst(got: seq<Dirent>, es: seq<Entry>, inodes: map<nat, nat>) {
    && |got| <= |es|
    && (forall i :: 0 <= i < |got| ==> got[i].next == i + 1 && got[i].name == es[i].name && got[i].kind == es[i].kind)
    && (forall i :: 0 <= i < |got| ==> es[i].ino in inodes && got[i].ino == inodes[es[i].ino])
  }

  /** Each entry of the listing once, in order, under its stable number. */
  ghost predicate SeesListing(got: seq<Dirent>, es: seq<Entry>, inodes: map<nat, nat>) {
    |got| == |es| && SeesFirst(got, es, inodes)
  }

  lemma NamesKept(ds: seq<Dirent>, es: seq<Entry>)
    requires multiset(es) == multiset(EntriesOf(ds))
    ensures |es| == |ds| && forall i :: 0 <= i < |es| ==> exists j :: 0 <= j < |ds| && es[i] == EntryOf(ds[j])
  {
    assert |es| == |multiset(es)| && |EntriesOf(ds)| == |multiset(EntriesOf(ds))|;
    forall i | 0 <= i < |es| ensures exists j :: 0 <= j < |ds| && es[i] == EntryOf(ds[j]) {
      assert es[i] in multiset(es);
      assert es[i] in EntriesOf(ds);
      var j :| 0 <= j < |ds| && EntriesOf(ds)[j] == es[i];
    }
  }
}
