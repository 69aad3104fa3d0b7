/**
 Tree objects: the canonical bytes of a {path: digest} manifest
 (stele/ledger/hashing.py, stele/archive/store.py), and writing a tree out to a
 directory (stele/archive/ingest.py).
 */
module TreeCodec {
  import opened Refs
  import opened Seqs
  import opened Utf8
  import opened Wrappers

  type Manifest = map<string, string>

  // ---- Which manifests are trees -----------------------------------------

  /** validate_tree_path. */
  predicate SafePath(path: string) {
    && path != "" && '\0' !in path && path[0] != '/'
    && forall i | 0 <= i < |Split(path, '/')| :: Split(path, '/')[i] !in ["", ".", ".."]
  }

  /** Every "/".join(parts[:i]) of a path. */
  function ParentPaths(path: string): set<string> {
    set i | 1 <= i < |Split(path, '/')| :: Join(Split(path, '/')[..i], '/')
  }

  ghost predicate NoClash(m: Manifest) {
    forall p, q :: p in m && q in m ==> p !in ParentPaths(q)
  }

  ghost predicate SafeManifest(m: Manifest) {
    && (forall p :: p in m ==> SafePath(p) && IsDigest(m[p]))
    && NoClash(m)
  }

  /** No path is a file above another: none continues another past a '/'. */
  lemma NoClashMeaning(m: Manifest)
    ensures NoClash(m) <==> forall p, q :: p in m && q in m ==> !(p + "/" <= q)
  {
    forall p, q | p in m && q in m ensures p in ParentPaths(q) <==> p + "/" <= q {
      ParentMeaning(p, q);
    }
  }

  lemma ParentMeaning(p: string, q: string)
    ensures p in ParentPaths(q) <==> p + "/" <= q
  {
    var parts := Split(q, '/');
    JoinInvertsSplit(q, '/');
    if p in ParentPaths(q) {
      var i :| 1 <= i < |parts| && p == Join(parts[..i], '/');
      assert parts[..i] + parts[i..] == parts;
      JoinAppend(parts[..i], parts[i..], '/');
    }
    if p + "/" <= q {
      var rest := q[|p| + 1..];
      assert q == p + ['/'] + rest;
      var whole := Split(p, '/') + Split(rest, '/');
      JoinInvertsSplit(p, '/');
      JoinInvertsSplit(rest, '/');
      JoinAppend(Split(p, '/'), Split(rest, '/'), '/');
      SplitInvertsJoin(whole, '/');
      assert parts == whole && whole[..|Split(p, '/')|] == Split(p, '/');
      assert p == Join(parts[..|Split(p, '/')|], '/');
    }
  }

  // ---- Encoding ----------------------------------------------------------

  function Entry(path: string, digest: string): seq<Byte> { Encode(path) + [0] + (Encode(digest) + [0]) }

  function Entries(paths: seq<string>, m: Manifest): seq<Byte>
    requires forall p :: p in paths ==> p in m
  {
    if paths == [] then [] else Entry(paths[0], m[paths[0]]) + Entries(paths[1..], m)
  }

  /** encode_manifest's value: the entries in path order. */
  ghost function TreeBytes(m: Manifest): seq<Byte> { Entries(Sorted(m.Keys), m) }

  lemma {:induction false} EntriesAppend(paths: seq<string>, p: string, m: Manifest)
    requires p in m && forall q :: q in paths ==> q in m
    ensures Entries(paths + [p], m) == Entries(paths, m) + Entry(p, m[p])
  {
    var all := paths + [p];
    if paths == [] {
      assert all == [p] && Entries(all[1..], m) == [];
    } else {
      assert all[1..] == paths[1..] + [p] && all[0] == paths[0];
      EntriesAppend(paths[1..], p, m);
      Associates(Entry(paths[0], m[paths[0]]), Entries(paths[1..], m), Entry(p, m[p]));
    }
  }

  lemma Associates(a: seq<Byte>, b: seq<Byte>, c: seq<Byte>)
    ensures a + (b + c) == (a + b) + c
  {
  }

  lemma EntriesStep(paths: seq<string>, i: nat, m: Manifest)
    requires i < |paths| && forall p :: p in paths ==> p in m
    ensures paths[i] in m
    ensures Entries(paths[..i + 1], m) == Entries(paths[..i], m) + Encode(paths[i]) + [0] + Encode(m[paths[i]]) + [0]
  {
    var p := paths[i];
    assert p in paths;
    assert paths[..i + 1] == paths[..i] + [p];
    EntriesAppend(paths[..i], p, m);
  }

  method EncodeManifest(m: Manifest) returns (data: seq<Byte>)
    ensures data == TreeBytes(m)
  {
    var paths := SortKeys(m.Keys);
    data := [];
    for i := 0 to |paths|
      invariant data == Entries(paths[..i], m)
    {
      EntriesStep(paths, i, m);
      var p := paths[i];
      data := data + Encode(p) + [0] + Encode(m[p]) + [0];
    }
    assert paths[..|paths|] == paths;
  }

  // ---- Fields of an encoding ---------------------------------------------

  lemma {:induction false} EncodeHasNoNul(s: string)
    requires '\0' !in s
    ensures 0 !in Encode(s)
  {
    if s != "" {
      assert s[0] in s;
      EncodeHasNoNul(s[1..]);
    }
  }

  function AsciiText(bs: seq<Byte>): Option<string> {
    if bs == [] then Some("")
    else if bs[0] >= 128 then None
    else
      var rest := AsciiText(bs[1..]);
      if rest.None? then None else Some([bs[0] as char] + rest.value)
  }

  lemma {:induction false} AsciiInverts(s: string)
    requires Ascii(s)
    ensures AsciiText(Encode(s)) == Some(s)
  {
    if s != "" {
      AsciiInverts(s[1..]);
      assert Encode(s) == [s[0] as int] + Encode(s[1..]) && Encode(s)[1..] == Encode(s[1..]);
      assert [s[0]] + s[1..] == s;
    }
  }

  /** The fields an encoding splits into: path, digest, path, digest, ... */
  function Fields(paths: seq<string>, m: Manifest): (fs: seq<seq<Byte>>)
    requires forall i :: 0 <= i < |paths| ==> paths[i] in m
    ensures |fs| == 2 * |paths|
  {
    if paths == [] then [] else [Encode(paths[0]), Encode(m[paths[0]])] + Fields(paths[1..], m)
  }

  /** The bytes of one entry before others: a path, a NUL, a digest, a NUL. */
  lemma SplitEntry(path: seq<Byte>, digest: seq<Byte>, rest: seq<Byte>)
    requires 0 !in path && 0 !in digest
    ensures Split(path + [0] + (digest + [0] + rest), 0) == [path, digest] + Split(rest, 0)
    ensures Split(path + [0] + digest, 0) == [path, digest]
  {
    SplitFirst(path, 0, digest + [0] + rest);
    SplitFirst(digest, 0, rest);
    SplitFirst(path, 0, digest);
  }

  /** An encoded path and digest hold no NUL. */
  lemma EntryHasNoNul(path: string, digest: string)
    requires SafePath(path) && IsDigest(digest)
    ensures 0 !in Encode(path) && 0 !in Encode(digest)
  {
    EncodeHasNoNul(path);
    DigestIsAscii(digest);
    EncodeHasNoNul(digest);
  }

  /** Bytes that end in NUL and split, without it, into these fields. */
  ghost predicate SplitsInto(data: seq<Byte>, fields: seq<seq<Byte>>) {
    |data| > 0 && data[|data| - 1] == 0 && Split(data[..|data| - 1], 0) == fields
  }

  lemma OneEntrySplits(path: seq<Byte>, digest: seq<Byte>)
    requires 0 !in path && 0 !in digest
    ensures SplitsInto(path + [0] + (digest + [0]), [path, digest])
  {
    var data := path + [0] + (digest + [0]);
    assert data[..|data| - 1] == path + [0] + digest;
    SplitEntry(path, digest, []);
  }

  lemma MoreEntriesSplit(path: seq<Byte>, digest: seq<Byte>, rest: seq<Byte>, fields: seq<seq<Byte>>)
    requires 0 !in path && 0 !in digest && SplitsInto(rest, fields)
    ensures SplitsInto(path + [0] + (digest + [0]) + rest, [path, digest] + fields)
  {
    var data, tail := path + [0] + (digest + [0]) + rest, rest[..|rest| - 1];
    assert data[..|data| - 1] == path + [0] + (digest + [0] + tail);
    SplitEntry(path, digest, tail);
  }

  lemma {:induction false} EntriesSplit(paths: seq<string>, m: Manifest)
    requires paths != [] && forall p :: p in paths ==> p in m && SafePath(p) && IsDigest(m[p])
    ensures SplitsInto(Entries(paths, m), Fields(paths, m))
  {
    assert paths[0] in paths;
    var path, digest := Encode(paths[0]), Encode(m[paths[0]]);
    EntryHasNoNul(paths[0], m[paths[0]]);
    if |paths| == 1 {
      OneEntrySplits(path, digest);
      assert Entries(paths[1..], m) == [] && Fields(paths[1..], m) == [];
      assert Entries(paths, m) == path + [0] + (digest + [0]);
      assert Fields(paths, m) == [path, digest];
    } else {
      EntriesSplit(paths[1..], m);
      MoreEntriesSplit(path, digest, Entries(paths[1..], m), Fields(paths[1..], m));
    }
  }

  /** The split fields of a safe manifest's bytes. */
  ghost predicate FieldsOf(m: Manifest, fields: seq<seq<Byte>>) {
    SortedAs(Sorted(m.Keys), m.Keys) && fields == Fields(Sorted(m.Keys), m)
  }

  lemma SafeFields(m: Manifest, data: seq<Byte>)
    requires SafeManifest(m) && TreeBytes(m) == data
    ensures data == [] <==> m == map[]
    ensures data != [] ==> data[|data| - 1] == 0 && FieldsOf(m, Split(data[..|data| - 1], 0))
  {
    var paths := Sorted(m.Keys);
    SortedHasNoRepeats(m.Keys);
    if paths == [] {
      assert Entries(paths, m) == [] && m.Keys == {};
    } else {
      SafeEntries(m, paths);
    }
  }

  lemma {:induction false} FieldAt(paths: seq<string>, m: Manifest, i: nat)
    requires i < |paths| && forall j :: 0 <= j < |paths| ==> paths[j] in m
    ensures Fields(paths, m)[2 * i] == Encode(paths[i]) && Fields(paths, m)[2 * i + 1] == Encode(m[paths[i]])
  {
    if i > 0 {
      FieldAt(paths[1..], m, i - 1);
      var rest := Fields(paths[1..], m);
      assert Fields(paths, m)[2 * i] == rest[2 * (i - 1)] && Fields(paths, m)[2 * i + 1] == rest[2 * (i - 1) + 1];
    }
  }

  lemma SafeEntries(m: Manifest, paths: seq<string>)
    requires SafeManifest(m) && SortedAs(paths, m.Keys) && paths != []
    ensures forall i :: 0 <= i < |paths| ==> paths[i] in m
    ensures SplitsInto(Entries(paths, m), Fields(paths, m))
  {
    EntriesSplit(paths, m);
  }

  ghost predicate IsTreeOf(m: Manifest, data: seq<Byte>) { SafeManifest(m) && TreeBytes(m) == data }

  lemma DigestIsAscii(d: string)
    requires IsDigest(d)
    ensures Ascii(d) && '\0' !in d
  {
    forall i | 0 <= i < |d| ensures d[i] as int < 128 { assert d[i] in d; }
  }

  /** Where entry i of a safe manifest's fields leads. */
  lemma EntryDecodes(m: Manifest, fields: seq<seq<Byte>>, i: nat)
    requires SafeManifest(m) && FieldsOf(m, fields) && i < |Sorted(m.Keys)|
    ensures 2 * i + 1 < |fields|
    ensures var p := Sorted(m.Keys)[i];
      && p in m && Decode(fields[2 * i]) == Some(p) && AsciiText(fields[2 * i + 1]) == Some(m[p])
      && SafePath(p) && IsDigest(m[p])
  {
    var paths := Sorted(m.Keys);
    assert paths[i] in paths;
    FieldAt(paths, m, i);
    FieldDecodes(m, paths[i]);
  }

  lemma FieldDecodes(m: Manifest, p: string)
    requires SafeManifest(m) && p in m
    ensures Decode(Encode(p)) == Some(p) && AsciiText(Encode(m[p])) == Some(m[p])
  {
    DecodeInvertsEncode(p);
    DigestIsAscii(m[p]);
    AsciiInverts(m[p]);
  }

  /** The first i entries of a manifest. */
  ghost predicate FirstEntries(found: Manifest, m: Manifest, i: nat) {
    i <= |Sorted(m.Keys)|
    && (forall p :: p in found <==> p in Sorted(m.Keys)[..i])
    && forall p :: p in found ==> p in m && found[p] == m[p]
  }

  lemma NextEntry(found: Manifest, m: Manifest, i: nat)
    requires FirstEntries(found, m, i) && i < |Sorted(m.Keys)|
    ensures Sorted(m.Keys)[i] in m && Sorted(m.Keys)[i] !in found
    ensures FirstEntries(found[Sorted(m.Keys)[i] := m[Sorted(m.Keys)[i]]], m, i + 1)
  {
    SortedHasNoRepeats(m.Keys);
    NextOfList(found, m, Sorted(m.Keys), i);
  }

  lemma NextOfList(found: Manifest, m: Manifest, paths: seq<string>, i: nat)
    requires i < |paths| && SortedAs(paths, m.Keys) && forall j, k :: 0 <= j < k < |paths| ==> paths[j] != paths[k]
    requires forall p :: p in found <==> p in paths[..i]
    requires forall p :: p in found ==> p in m && found[p] == m[p]
    ensures paths[i] in m && paths[i] !in found
    ensures var more := found[paths[i] := m[paths[i]]];
      && (forall p :: p in more <==> p in paths[..i + 1])
      && (forall p :: p in more ==> p in m && more[p] == m[p])
  {
    assert paths[i] in paths;
    assert paths[..i + 1] == paths[..i] + [paths[i]];
  }

  /** The checks on one pair of fields. */
  function ReadEntry(path: seq<Byte>, digest: seq<Byte>, found: Manifest): Option<(string, string)> {
    match (Decode(path), AsciiText(digest))
    case (Some(p), Some(d)) => if SafePath(p) && IsDigest(d) && p !in found then Some((p, d)) else None
    case (_, _) => None
  }

  /** The fields read so far are the first entries of any manifest with these bytes. */
  ghost predicate OnTrack(fields: seq<seq<Byte>>, data: seq<Byte>, found: Manifest, i: nat) {
    forall m :: IsTreeOf(m, data) ==> FieldsOf(m, fields) && FirstEntries(found, m, i)
  }

  lemma TrackStep(fields: seq<seq<Byte>>, data: seq<Byte>, found: Manifest, i: nat)
    requires OnTrack(fields, data, found, i) && 2 * i + 1 < |fields|
    ensures ReadEntry(fields[2 * i], fields[2 * i + 1], found).None? ==> forall m :: !IsTreeOf(m, data)
    ensures var e := ReadEntry(fields[2 * i], fields[2 * i + 1], found);
      e.Some? ==> OnTrack(fields, data, found[e.value.0 := e.value.1], i + 1)
  {
    var e := ReadEntry(fields[2 * i], fields[2 * i + 1], found);
    forall m | IsTreeOf(m, data)
      ensures e.Some? && FirstEntries(found[e.value.0 := e.value.1], m, i + 1)
    {
      EntryDecodes(m, fields, i);
      NextEntry(found, m, i);
    }
  }

  lemma AllEntries(found: Manifest, m: Manifest)
    requires FirstEntries(found, m, |Sorted(m.Keys)|)
    ensures m == found
  {
    var paths := Sorted(m.Keys);
    assert paths[..|paths|] == paths;
    forall p ensures p in m <==> p in found { assert p in paths <==> p in m.Keys; }
  }

  lemma TrackEnd(fields: seq<seq<Byte>>, data: seq<Byte>, found: Manifest, i: nat)
    requires OnTrack(fields, data, found, i) && 2 * i == |fields|
    ensures forall m :: IsTreeOf(m, data) ==> m == found
  {
    forall m | IsTreeOf(m, data) ensures m == found {
      AllEntries(found, m);
    }
  }

  method HasClash(m: Manifest) returns (clash: bool)
    ensures clash <==> !NoClash(m)
  {
    var directories := set p, d | p in m.Keys && d in ParentPaths(p) :: d;
    clash := directories * m.Keys != {};
    if clash {
      ghost var d :| d in directories * m.Keys;
      ghost var p :| p in m.Keys && d in ParentPaths(p);
    } else {
      forall p, q | p in m && q in m ensures p !in ParentPaths(q) {
        assert p in ParentPaths(q) ==> p in directories * m.Keys;
      }
    }
  }

  /** The loop over pairs of fields. */
  method ReadFields(fields: seq<seq<Byte>>, ghost data: seq<Byte>) returns (r: Option<Manifest>)
    requires |fields| % 2 == 0 && forall m :: IsTreeOf(m, data) ==> FieldsOf(m, fields)
    ensures forall m :: IsTreeOf(m, data) ==> r == Some(m)
    ensures r.Some? ==> forall p :: p in r.value ==> SafePath(p) && IsDigest(r.value[p])
  {
    var manifest: Manifest := map[];
    for i := 0 to |fields| / 2
      invariant OnTrack(fields, data, manifest, i)
      invariant forall p :: p in manifest ==> SafePath(p) && IsDigest(manifest[p])
    {
      TrackStep(fields, data, manifest, i);
      var e := ReadEntry(fields[2 * i], fields[2 * i + 1], manifest);
      if e.None? {
        return None;
      }
      manifest := manifest[e.value.0 := e.value.1];
    }
    TrackEnd(fields, data, manifest, |fields| / 2);
    return Some(manifest);
  }

  lemma TreeShape(data: seq<Byte>)
    ensures data == [] ==> IsTreeOf(map[], data) && forall m :: IsTreeOf(m, data) ==> m == map[]
    ensures data != [] && data[|data| - 1] != 0 ==> forall m :: !IsTreeOf(m, data)
    ensures data != [] ==> forall m :: IsTreeOf(m, data) ==> FieldsOf(m, Split(data[..|data| - 1], 0))
    ensures forall m :: IsTreeOf(m, data) ==> |Sorted(m.Keys)| == |m|
  {
    var none: Manifest := map[];
    assert TreeBytes(none) == [];
    forall m | IsTreeOf(m, data)
      ensures data == [] <==> m == map[]
      ensures data != [] ==> data[|data| - 1] == 0 && FieldsOf(m, Split(data[..|data| - 1], 0))
    {
      SafeFields(m, data);
    }
    forall m | IsTreeOf(m, data) ensures |Sorted(m.Keys)| == |m| { SortedHasNoRepeats(m.Keys); }
  }

  /** decode_tree: accepts exactly the encodings of safe manifests, and inverts them. */
  method DecodeTree(data: seq<Byte>) returns (r: Option<Manifest>)
    ensures r.Some? ==> IsTreeOf(r.value, data)
    ensures forall m :: IsTreeOf(m, data) ==> r == Some(m)
  {
    TreeShape(data);
    if data == [] {
      return Some(map[]);
    }
    if data[|data| - 1] != 0 {
      return None;
    }
    var fields := Split(data[..|data| - 1], 0);
    if |fields| % 2 != 0 {
      return None;
    }
    var manifest := ReadFields(fields, data);
    if manifest.None? {
      return None;
    }
    var canonical := IsCanonical(manifest.value, data);
    return if canonical then manifest else None;
  }

  /** The two checks after the loop: re-encoding gives the bytes back, and nothing clashes. */
  method IsCanonical(m: Manifest, data: seq<Byte>) returns (ok: bool)
    requires forall p :: p in m ==> SafePath(p) && IsDigest(m[p])
    ensures ok <==> IsTreeOf(m, data)
  {
    var encoded := EncodeManifest(m);
    if encoded != data {
      return false;
    }
    var clash := HasClash(m);
    return !clash;
  }

  /** So the bytes, and their digest, name one tree. */
  lemma TreeBytesAreInjective(m: Manifest, n: Manifest)
    requires SafeManifest(m) && SafeManifest(n) && TreeBytes(m) == TreeBytes(n)
    ensures m == n
  {
    var data := TreeBytes(m);
    SafeFields(m, data);
    SafeFields(n, data);
    if data != [] {
      SameFields(m, n, Split(data[..|data| - 1], 0));
    }
  }

  lemma SameFields(m: Manifest, n: Manifest, fields: seq<seq<Byte>>)
    requires SafeManifest(m) && SafeManifest(n) && FieldsOf(m, fields) && FieldsOf(n, fields)
    ensures m == n
  {
    var ps, qs := Sorted(m.Keys), Sorted(n.Keys);
    forall i | 0 <= i < |ps| ensures ps[i] == qs[i] && ps[i] in m && qs[i] in n && m[ps[i]] == n[qs[i]] {
      EntryDecodes(m, fields, i);
      EntryDecodes(n, fields, i);
    }
    SameEntries(m, n, ps, qs);
  }

  lemma SameEntries(m: Manifest, n: Manifest, ps: seq<string>, qs: seq<string>)
    requires SortedAs(ps, m.Keys) && SortedAs(qs, n.Keys) && |ps| == |qs|
    requires forall i :: 0 <= i < |ps| ==> ps[i] == qs[i] && ps[i] in m && qs[i] in n && m[ps[i]] == n[qs[i]]
    ensures m == n
  {
    assert ps == qs;
    forall p | p in m ensures p in n && m[p] == n[p] {
      assert p in ps;
      var i :| 0 <= i < |ps| && ps[i] == p;
    }
    forall p | p in n ensures p in m {
      assert p in qs;
    }
  }

  // ---- Writing a tree out ------------------------------------------------

  datatype Node = Dir | File(digest: string)

  /** A directory tree: the destination is the empty path. */
  type Tree = map<seq<string>, Node>

  predicate Above(a: seq<string>, b: seq<string>) { |a| < |b| && b[..|a|] == a }

  /** fs holds exactly the files of m at their paths, and the directories above them. */
  ghost predicate Holds(fs: Tree, m: Manifest) {
    && [] in fs && fs[[]] == Dir
    && FilesNamed(fs, m) && DirsNeeded(fs, m)
    && forall p :: p in m ==> Written(fs, p, m[p])
  }

  ghost predicate FilesNamed(fs: Tree, m: Manifest) {
    forall a :: a in fs && fs[a].File? ==> HasFile(m, a, fs[a].digest)
  }

  ghost predicate DirsNeeded(fs: Tree, m: Manifest) {
    forall a :: a in fs && fs[a].Dir? ==> a == [] || HasBelow(m, a)
  }

  ghost predicate Written(fs: Tree, p: string, digest: string) {
    var parts := Split(p, '/');
    && parts in fs && fs[parts] == File(digest)
    && forall a :: Above(a, parts) ==> a in fs && fs[a] == Dir
  }

  ghost predicate HasFile(m: Manifest, a: seq<string>, digest: string) {
    exists p :: p in m && Split(p, '/') == a && m[p] == digest
  }

  ghost predicate HasBelow(m: Manifest, a: seq<string>) {
    exists p :: p in m && Above(a, Split(p, '/'))
  }

  /** A safe path below another's file, or above it, would be a clash. */
  lemma PartsDoNotClash(m: Manifest, p: string, q: string)
    requires SafeManifest(m) && p in m && q in m
    ensures !Above(Split(p, '/'), Split(q, '/'))
    ensures Split(p, '/') == Split(q, '/') ==> p == q
  {
    JoinInvertsSplit(p, '/');
    JoinInvertsSplit(q, '/');
    AboveIsParent(p, q);
  }

  lemma AboveIsParent(p: string, q: string)
    ensures Above(Split(p, '/'), Split(q, '/')) ==> p in ParentPaths(q)
  {
    if Above(Split(p, '/'), Split(q, '/')) {
      JoinInvertsSplit(p, '/');
      var n := |Split(p, '/')|;
      assert Split(q, '/')[..n] == Split(p, '/');
      assert Join(Split(q, '/')[..n], '/') in ParentPaths(q);
    }
  }

  /** mkdir(parents=True, exist_ok=True) of every directory above a path. */
  method MakeParents(fs: Tree, parts: seq<string>) returns (r: Option<Tree>)
    requires [] in fs && fs[[]] == Dir && |parts| >= 1
    ensures r.Some? <==> forall i :: 0 <= i < |parts| && parts[..i] in fs ==> fs[parts[..i]] == Dir
    ensures r.Some? ==> Made(fs, parts, r.value)
  {
    var out := fs;
    for i := 0 to |parts|
      invariant forall j :: 0 <= j < i && parts[..j] in fs ==> fs[parts[..j]] == Dir
      invariant forall a :: a in out <==> a in fs || (Above(a, parts) && |a| < i)
      invariant forall a :: a in out ==> out[a] == if a in fs then fs[a] else Dir
    {
      if parts[..i] in out {
        if out[parts[..i]] != Dir {
          return None;
        }
      } else {
        out := out[parts[..i] := Dir];
      }
    }
    return Some(out);
  }

  /** made is fs with every directory above a path. */
  ghost predicate Made(fs: Tree, parts: seq<string>, made: Tree) {
    && (forall a :: a in made <==> a in fs || Above(a, parts))
    && (forall a :: a in made ==> made[a] == if a in fs then fs[a] else Dir)
  }

  /** Part of a manifest, without p. */
  ghost predicate Partial(before: Manifest, m: Manifest, p: string) {
    p in m && p !in before && forall x :: x in before ==> x in m && before[x] == m[x]
  }

  lemma PathIsFree(m: Manifest, before: Manifest, p: string, fs: Tree, made: Tree)
    requires SafeManifest(m) && Partial(before, m, p) && Holds(fs, before) && Made(fs, Split(p, '/'), made)
    ensures Split(p, '/') !in made
  {
    var parts := Split(p, '/');
    if parts in fs {
      if fs[parts].Dir? {
        var q :| q in before && Above(parts, Split(q, '/'));
        PartsDoNotClash(m, p, q);
      } else {
        var q :| q in before && Split(q, '/') == parts;
        PartsDoNotClash(m, p, q);
      }
    }
  }

  lemma OthersStayWritten(m: Manifest, before: Manifest, p: string, fs: Tree, made: Tree, q: string)
    requires SafeManifest(m) && Partial(before, m, p) && Holds(fs, before) && Made(fs, Split(p, '/'), made)
    requires q in before
    ensures Written(made[Split(p, '/') := File(m[p])], q, m[q])
  {
    PartsDoNotClash(m, p, q);
    assert Written(fs, q, before[q]);
  }

  lemma NewIsWritten(m: Manifest, before: Manifest, p: string, fs: Tree, made: Tree)
    requires SafeManifest(m) && Partial(before, m, p) && Holds(fs, before) && Made(fs, Split(p, '/'), made)
    ensures Written(made[Split(p, '/') := File(m[p])], p, m[p])
  {
    var parts := Split(p, '/');
    forall a | Above(a, parts) ensures a in made && made[a] == Dir {
      NoFileAbove(m, before, p, fs, a);
    }
  }

  lemma NoFileAbove(m: Manifest, before: Manifest, p: string, fs: Tree, a: seq<string>)
    requires SafeManifest(m) && p in m && Holds(fs, before) && Above(a, Split(p, '/'))
    requires forall x :: x in before ==> x in m && before[x] == m[x]
    ensures a in fs ==> fs[a] == Dir
  {
    if a in fs && fs[a].File? {
      var x :| x in before && Split(x, '/') == a && before[x] == fs[a].digest;
      PartsDoNotClash(m, x, p);
    }
  }

  lemma StillNamed(m: Manifest, before: Manifest, p: string, fs: Tree, made: Tree)
    requires SafeManifest(m) && Partial(before, m, p) && Holds(fs, before) && Made(fs, Split(p, '/'), made)
    ensures FilesNamed(made[Split(p, '/') := File(m[p])], before[p := m[p]])
    ensures DirsNeeded(made[Split(p, '/') := File(m[p])], before[p := m[p]])
  {
    var out, after := made[Split(p, '/') := File(m[p])], before[p := m[p]];
    forall a | a in out && out[a].File? ensures HasFile(after, a, out[a].digest) {
      if a == Split(p, '/') {
        assert p in after;
      } else {
        var q :| q in before && Split(q, '/') == a && before[q] == out[a].digest;
        assert q in after && after[q] == before[q];
      }
    }
    forall a | a in out && out[a].Dir? && a != [] ensures HasBelow(after, a) {
      if a in fs {
        var q :| q in before && Above(a, Split(q, '/'));
        assert q in after;
      } else {
        assert p in after && Above(a, Split(p, '/'));
      }
    }
  }

  lemma WriteKeepsHolds(m: Manifest, before: Manifest, p: string, fs: Tree, made: Tree)
    requires SafeManifest(m) && Partial(before, m, p) && Holds(fs, before) && Made(fs, Split(p, '/'), made)
    ensures Split(p, '/') !in made
    ensures Holds(made[Split(p, '/') := File(m[p])], before[p := m[p]])
  {
    PathIsFree(m, before, p, fs, made);
    StillNamed(m, before, p, fs, made);
    NewIsWritten(m, before, p, fs, made);
    forall q | q in before ensures Written(made[Split(p, '/') := File(m[p])], q, m[q]) {
      OthersStayWritten(m, before, p, fs, made, q);
    }
  }

  /** One file: its directories, then its blob. */
  method WriteFile(tree: Manifest, blobs: set<string>, fs: Tree, ghost before: Manifest, p: string) returns (r: Option<Tree>)
    requires SafeManifest(tree) && Partial(before, tree, p) && Holds(fs, before)
    ensures r.Some? <==> tree[p] in blobs
    ensures r.Some? ==> Holds(r.value, before[p := tree[p]])
  {
    var parts := Split(p, '/');
    var made := MakeParents(fs, parts);
    if made.None? {
      NothingInTheWay(tree, before, p, fs);
      assert false;
    }
    WriteKeepsHolds(tree, before, p, fs, made.value);
    if parts in made.value || tree[p] !in blobs {
      return None;
    }
    return Some(made.value[parts := File(tree[p])]);
  }

  lemma NextPath(paths: seq<string>, keys: set<string>, n: nat)
    requires paths == Sorted(keys) && n < |paths|
    ensures paths[n] in keys && paths[n] !in paths[..n]
    ensures forall p :: p in paths[..n + 1] <==> p in paths[..n] || p == paths[n]
  {
    SortedHasNoRepeats(keys);
    assert paths[n] in paths;
    assert paths[..n + 1] == paths[..n] + [paths[n]];
  }

  lemma AllPaths(paths: seq<string>, keys: set<string>)
    requires paths == Sorted(keys)
    ensures forall p :: p in paths[..|paths|] <==> p in keys
  {
    assert paths[..|paths|] == paths;
  }

  /** materialize_snapshot of a tree: nothing collides, and it fails only for want of a blob. */
  method Materialize(tree: Manifest, blobs: set<string>) returns (r: Option<Tree>)
    requires SafeManifest(tree)
    ensures r.Some? <==> forall p :: p in tree ==> tree[p] in blobs
    ensures r.Some? ==> Holds(r.value, tree)
  {
    var paths := SortKeys(tree.Keys);
    var fs: Tree := map[[] := Dir];
    ghost var before: Manifest := map[];
    for n := 0 to |paths|
      invariant Holds(fs, before)
      invariant forall p :: p in before <==> p in paths[..n]
      invariant forall p :: p in before ==> p in tree && before[p] == tree[p] && tree[p] in blobs
    {
      var p := paths[n];
      NextPath(paths, tree.Keys, n);
      var written := WriteFile(tree, blobs, fs, before, p);
      if written.None? {
        return None;
      }
      fs := written.value;
      before := before[p := tree[p]];
    }
    AllPaths(paths, tree.Keys);
    assert before == tree;
    return Some(fs);
  }

  lemma NothingInTheWay(m: Manifest, before: Manifest, p: string, fs: Tree)
    requires SafeManifest(m) && Partial(before, m, p) && Holds(fs, before)
    ensures forall i :: 0 <= i < |Split(p, '/')| && Split(p, '/')[..i] in fs ==> fs[Split(p, '/')[..i]] == Dir
  {
    var parts := Split(p, '/');
    forall i | 0 <= i < |parts| && parts[..i] in fs ensures fs[parts[..i]] == Dir {
      NoFileAbove(m, before, p, fs, parts[..i]);
    }
  }

  /** Walking the written tree gives the manifest back: each file at its joined path. */
  lemma RewalkGivesManifest(fs: Tree, m: Manifest, p: string, d: string)
    requires Holds(fs, m)
    ensures (p in m && m[p] == d) <==> exists a :: FileAt(fs, a, d) && Join(a, '/') == p
  {
    JoinInvertsSplit(p, '/');
    if p in m && m[p] == d {
      assert Written(fs, p, d);
      assert FileAt(fs, Split(p, '/'), d);
    }
    if exists a :: FileAt(fs, a, d) && Join(a, '/') == p {
      var a :| FileAt(fs, a, d) && Join(a, '/') == p;
      var q :| q in m && Split(q, '/') == a && m[q] == d;
      JoinInvertsSplit(q, '/');
    }
  }

  predicate FileAt(fs: Tree, a: seq<string>, d: string) { a in fs && fs[a] == File(d) && a != [] }
}
