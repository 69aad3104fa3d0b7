/**
 Publishing into the evidence store (stele/archive/store.py, archive/ingest.py,
 and archive_bundle in ledger/store.py). Any number of writers interleave file
 operation by file operation on one store and may crash anywhere; files are
 inodes, so that a name published by a hard link shares the temp file's bytes.

 A digest is a free constructor over the bytes it was computed from. The tree
 codec is a parameter, which module TreeObjects instantiates with TreeCodec's.
 */
module Publish {
  import opened Seqs
  import opened Utf8
  import opened Wrappers

  type Bytes = seq<Byte>
  datatype BlobDigest = Sha(bytes: Bytes)
  type Manifest = map<string, BlobDigest>
  datatype Codec = Codec(safe: Manifest -> bool, encode: Manifest -> Bytes, decode: Bytes -> Option<Manifest>,
                         prefix: BlobDigest -> int)

  ghost predicate GoodCodec(c: Codec) {
    forall m: Manifest :: c.safe(m) ==> c.decode(c.encode(m)) == Some(m)
  }

  datatype SnapshotKind = OneFile | Tree
  datatype Snapshot = Snapshot(kind: SnapshotKind, digest: BlobDigest, size: nat, fileCount: nat)

  datatype FileData = Raw(bytes: Bytes) | Record(snap: Snapshot)
  type Ino = nat

  datatype Base = Blobs | Snapshots(kind: SnapshotKind)
  datatype Name = BlobName(digest: BlobDigest) | SnapName(kind: SnapshotKind, digest: BlobDigest)

  /** The store's directories: blobs, meta, meta/snapshots, meta/snapshots/<kind>, and in
      blobs and in each kind a shard for each first byte of a digest. */
  datatype Dir = BlobsDir | MetaDir | SnapshotsDir | KindDir(kind: SnapshotKind) | Shard(base: Base, prefix: int)

  /** What opening a store makes; a kind is made with its first shard. */
  const LAYOUT := {BlobsDir, MetaDir, SnapshotsDir}

  function BaseDir(base: Base): Dir { if base.Blobs? then BlobsDir else KindDir(base.kind) }

  function BaseOf(name: Name): Base { if name.BlobName? then Blobs else Snapshots(name.kind) }

  function DirOf(c: Codec, name: Name): Dir { Shard(BaseOf(name), c.prefix(name.digest)) }

  datatype Problem = Conflict | Mismatch | Missing | BadTree | WrongTotals | Drift | Io

  /** A directory being stored: its files in order, and the tree digest expected of it. */
  datatype Bundle = Bundle(files: seq<(string, BlobDigest)>, hash: BlobDigest, sealing: bool)

  datatype Target = BlobTarget | SnapTarget(snap: Snapshot)
  datatype After =
    | Return
    | NextFile(dir: Bundle, stored: seq<BlobDigest>)
    | FileStored(hash: BlobDigest)
    | TreeStored(dir: Bundle)
  datatype Job = Job(target: Target, expected: Option<BlobDigest>, next: After)

  datatype Pc =
    // one publication
    | Writing(job: Job, ino: Ino, hashed: Bytes, rest: seq<Bytes>)
    | Closed(job: Job, ino: Ino, digest: BlobDigest)
    | MadeDir(job: Job, ino: Ino, digest: BlobDigest)       // shard made; sync its parent next
    | HasDir(job: Job, ino: Ino, digest: BlobDigest)
    | Absent(job: Job, ino: Ino, digest: BlobDigest)        // final did not exist; link next
    | Existing(job: Job, ino: Ino, digest: BlobDigest)      // on_exists
    | Linked(job: Job, ino: Ino, digest: BlobDigest)        // sync the shard next
    | Dropping(job: Job, ino: Ino, digest: BlobDigest, problem: Option<Problem>)
    // put_snapshot
    | CheckSnapshot(snap: Snapshot)
    | SumTree(snap: Snapshot, tree: Manifest, done: nat, total: nat)
    // snapshot_staged_input and archive_bundle
    | Files(dir: Bundle, stored: seq<BlobDigest>)
    | PutTree(dir: Bundle)
    | Totals(dir: Bundle)
    | SizeOf(hash: BlobDigest)
    | ReadBundle(dir: Bundle)
    | CheckBundle(dir: Bundle, done: nat)
    | ToSeal(dir: Bundle)
    | Failed(why: Problem)
    | Finished
    | Crashed

  datatype State = State(
    data: map<Ino, FileData>, synced: set<Ino>, temps: set<Ino>,
    blobs: map<BlobDigest, Ino>, snaps: map<(SnapshotKind, BlobDigest), Ino>,
    dirs: set<Dir>, sealed: set<(Manifest, BlobDigest)>, procs: map<nat, Pc>)

  datatype Act =
    | StartPut(chunks: seq<Bytes>, expected: Option<BlobDigest>, ino: Ino)
    | StartSnapshot(snap: Snapshot)
    | StartIngestFile(chunks: seq<Bytes>, hash: BlobDigest, ino: Ino)
    | StartDir(dir: Bundle)
    | Write
    | Close
    | WriteFails
    | FindDir(missing: bool)
    | SyncParent
    | Look
    | Link
    | SyncDir
    | SkipSync
    | SyncFails
    | VerifyExisting
    | Drop
    | StoreFile(chunks: seq<Bytes>, ino: Ino)
    | FileGone
    | Check(ino: Ino)
    | Commit
    | Crash

  function ManifestOf(files: seq<(string, BlobDigest)>): Manifest {
    map p | p in (set f | f in files :: f.0) :: DigestIn(files, p)
  }

  function DigestIn(files: seq<(string, BlobDigest)>, p: string): BlobDigest
    requires exists i :: 0 <= i < |files| && files[i].0 == p
  {
    if files[0].0 == p then files[0].1 else DigestIn(files[1..], p)
  }

  // ---- Steps -------------------------------------------------------------

  function Go(s: State, p: nat, pc: Pc): State { s.(procs := s.procs[p := pc]) }

  /** mkstemp, then write: a new inode under a temp name. */
  function Open(s: State, p: nat, job: Job, chunks: seq<Bytes>, ino: Ino): Option<State> {
    if ino in s.data then None
    else Some(Go(s.(data := s.data[ino := Raw([])], temps := s.temps + {ino}), p, Writing(job, ino, [], chunks)))
  }

  function StartStep(s: State, p: nat, a: Act): Option<State> {
    match a
    case StartPut(chunks, expected, ino) => Open(s, p, Job(BlobTarget, expected, Return), chunks, ino)
    case StartSnapshot(snap) => Some(Go(s, p, CheckSnapshot(snap)))
    case StartIngestFile(chunks, hash, ino) => Open(s, p, Job(BlobTarget, Some(hash), FileStored(hash)), chunks, ino)
    case StartDir(dir) => Some(Go(s, p, Files(dir, [])))
    case _ => None
  }

  function FinalOf(s: State, job: Job, digest: BlobDigest): Option<Ino> {
    match job.target
    case BlobTarget => if digest in s.blobs then Some(s.blobs[digest]) else None
    case SnapTarget(snap) => if (snap.kind, snap.digest) in s.snaps then Some(s.snaps[(snap.kind, snap.digest)]) else None
  }

  /** _write_temp, and put_chunks' check of the digest. */
  function WriteStep(s: State, p: nat, a: Act): Option<State>
    requires p in s.procs && s.procs[p].Writing?
  {
    var Writing(job, ino, hashed, rest) := s.procs[p];
    match a
    case Write =>
      if rest == [] || ino !in s.data then None
      else if job.target.SnapTarget? then
        Some(Go(s.(data := s.data[ino := Record(job.target.snap)]), p, Writing(job, ino, hashed, [])))
      else if s.data[ino].Raw? then
        Some(Go(s.(data := s.data[ino := Raw(s.data[ino].bytes + rest[0])]), p, Writing(job, ino, hashed + rest[0], rest[1..])))
      else None
    case Close =>
      if rest != [] then None
      else
        var t := s.(synced := s.synced + {ino});
        if job.expected.Some? && job.expected.value != Sha(hashed)
        then Some(Go(t, p, Dropping(job, ino, Sha(hashed), Some(Mismatch))))
        else Some(Go(t, p, Closed(job, ino, Sha(hashed))))
    case WriteFails => Some(Go(s, p, Dropping(job, ino, Sha(hashed), Some(Io))))
    case _ => None
  }

  function NameOf(job: Job, digest: BlobDigest): Name {
    match job.target
    case BlobTarget => BlobName(digest)
    case SnapTarget(snap) => SnapName(snap.kind, snap.digest)
  }

  /** _install: find or make the shard, then exists, link, or verify what is there. Only
      the writer that made a shard syncs its parent, and only the one that linked a name
      syncs the shard. A sync is skipped in silence where the directory cannot be opened
      or the file system cannot sync one; any other error ends the put. */
  function InstallStep(c: Codec, s: State, p: nat, a: Act): Option<State>
    requires p in s.procs
  {
    match (s.procs[p], a)
    case (Closed(job, ino, digest), FindDir(missing)) =>
      var dir := DirOf(c, NameOf(job, digest));
      if missing then Some(Go(s.(dirs := s.dirs + {dir, BaseDir(dir.base)}), p, MadeDir(job, ino, digest)))
      else if dir in s.dirs then Some(Go(s, p, HasDir(job, ino, digest)))
      else None
    case (MadeDir(job, ino, digest), SyncParent) => Some(Go(s, p, HasDir(job, ino, digest)))
    case (MadeDir(job, ino, digest), SkipSync) => Some(Go(s, p, HasDir(job, ino, digest)))
    case (MadeDir(job, ino, digest), SyncFails) => Some(Go(s, p, Dropping(job, ino, digest, Some(Io))))
    case (HasDir(job, ino, digest), Look) =>
      Some(Go(s, p, if FinalOf(s, job, digest).Some? then Existing(job, ino, digest) else Absent(job, ino, digest)))
    case (Absent(job, ino, digest), Link) =>
      if FinalOf(s, job, digest).Some? then Some(Go(s, p, Existing(job, ino, digest)))
      else
        var t := if job.target.SnapTarget? then s.(snaps := s.snaps[(job.target.snap.kind, job.target.snap.digest) := ino])
                 else s.(blobs := s.blobs[digest := ino]);
        Some(Go(t, p, Linked(job, ino, digest)))
    case (Linked(job, ino, digest), SyncDir) => Some(Go(s, p, Dropping(job, ino, digest, None)))
    case (Linked(job, ino, digest), SkipSync) => Some(Go(s, p, Dropping(job, ino, digest, None)))
    case (Linked(job, ino, digest), SyncFails) => Some(Go(s, p, Dropping(job, ino, digest, Some(Io))))
    case (Existing(job, ino, digest), VerifyExisting) =>
      var final := FinalOf(s, job, digest);
      if final.None? || final.value !in s.data then None
      else
        var found := s.data[final.value];
        var same := if job.target.SnapTarget? then found == Record(job.target.snap) else found.Raw? && Sha(found.bytes) == digest;
        Some(Go(s, p, Dropping(job, ino, digest, if same then None else Some(Conflict))))
    case (Dropping(job, ino, digest, problem), Drop) =>
      Some(Go(s.(temps := s.temps - {ino}), p, if problem.Some? then Failed(problem.value) else Continue(job.next, digest)))
    case (_, _) => None
  }

  function Continue(next: After, digest: BlobDigest): Pc {
    match next
    case Return => Finished
    case NextFile(dir, stored) => Files(dir, stored + [digest])
    case FileStored(hash) => SizeOf(hash)
    case TreeStored(dir) =>
      if !dir.sealing then Totals(dir)
      else if digest != dir.hash then Failed(Drift)
      else ToSeal(dir)
  }

  /** A stored blob's bytes, re-hashed. */
  function ReadBlob(s: State, d: BlobDigest): Result<Bytes, Problem> {
    if d !in s.blobs || s.blobs[d] !in s.data then Err(Missing)
    else
      var found := s.data[s.blobs[d]];
      if found.Raw? && Sha(found.bytes) == d then Ok(found.bytes) else Err(Conflict)
  }

  function ReadTree(c: Codec, s: State, d: BlobDigest): Result<Manifest, Problem> {
    match ReadBlob(s, d)
    case Err(problem) => Err(problem)
    case Ok(bytes) => if c.decode(bytes).Some? then Ok(c.decode(bytes).value) else Err(BadTree)
  }

  /** lstat(...).st_size, without reading. */
  function Size(s: State, d: BlobDigest): nat {
    if d in s.blobs && s.blobs[d] in s.data && s.data[s.blobs[d]].Raw? then |s.data[s.blobs[d]].bytes| else 0
  }

  ghost function SumSizes(s: State, m: Manifest, paths: seq<string>): nat
    requires forall p :: p in paths ==> p in m
  {
    if paths == [] then 0 else SumSizes(s, m, paths[..|paths| - 1]) + Size(s, m[paths[|paths| - 1]])
  }

  function RecordJob(s: State, p: nat, snap: Snapshot, ino: Ino): Option<State> {
    Open(s, p, Job(SnapTarget(snap), None, Return), [[]], ino)
  }

  /** put_snapshot: _check_snapshot_content blob by blob, then the record. */
  ghost function SnapshotStep(c: Codec, s: State, p: nat, ino: Ino): Option<State>
    requires p in s.procs
  {
    match s.procs[p]
    case CheckSnapshot(snap) =>
      if snap.kind == OneFile then
        match ReadBlob(s, snap.digest)
        case Err(problem) => Some(Go(s, p, Failed(problem)))
        case Ok(bytes) =>
          if |bytes| != snap.size || snap.fileCount != 1 then Some(Go(s, p, Failed(WrongTotals)))
          else RecordJob(s, p, snap, ino)
      else
        (match ReadTree(c, s, snap.digest)
         case Err(problem) => Some(Go(s, p, Failed(problem)))
         case Ok(tree) => Some(Go(s, p, SumTree(snap, tree, 0, 0))))
    case SumTree(snap, tree, done, total) =>
      var paths := Sorted(tree.Keys);
      if done < |paths| then
        assert paths[done] in paths;
        match ReadBlob(s, tree[paths[done]])
        case Err(problem) => Some(Go(s, p, Failed(problem)))
        case Ok(bytes) => Some(Go(s, p, SumTree(snap, tree, done + 1, total + |bytes|)))
      else if total != snap.size || |tree| != snap.fileCount then Some(Go(s, p, Failed(WrongTotals)))
      else RecordJob(s, p, snap, ino)
    case _ => None
  }

  /** snapshot_staged_input and archive_bundle, after and between their puts. */
  ghost function DirStep(c: Codec, s: State, p: nat, a: Act): Option<State>
    requires p in s.procs
  {
    match (s.procs[p], a)
    case (Files(dir, stored), StoreFile(chunks, ino)) =>
      if |stored| >= |dir.files| then None
      else
        var expected := if dir.sealing then None else Some(dir.files[|stored|].1);
        Open(s, p, Job(BlobTarget, expected, NextFile(dir, stored)), chunks, ino)
    case (Files(dir, stored), FileGone) =>
      if |stored| >= |dir.files| then None
      else Some(Go(s, p, if dir.sealing then ReadBundle(dir) else Failed(Io)))
    case (Files(dir, stored), Check(_)) =>
      if |stored| != |dir.files| then None
      else if dir.sealing && exists i | 0 <= i < |stored| :: stored[i] != dir.files[i].1 then Some(Go(s, p, Failed(Drift)))
      else Some(Go(s, p, PutTree(dir)))
    case (PutTree(dir), Check(ino)) =>
      var m := ManifestOf(dir.files);
      if exists q | q in m :: m[q] !in s.blobs then Some(Go(s, p, Failed(Missing)))
      else if !c.safe(m) then Some(Go(s, p, Failed(BadTree)))
      else Open(s, p, Job(BlobTarget, None, TreeStored(dir)), [c.encode(m)], ino)
    case (Totals(dir), Check(ino)) =>
      var m := ManifestOf(dir.files);
      if Sha(c.encode(m)) != dir.hash then Some(Go(s, p, Failed(Mismatch)))
      else RecordJob(s, p, Snapshot(Tree, dir.hash, SumSizes(s, m, Sorted(m.Keys)), |m|), ino)
    case (SizeOf(hash), Check(ino)) => RecordJob(s, p, Snapshot(OneFile, hash, Size(s, hash), 1), ino)
    case (_, _) => None
  }

  /** verify_archived_bundle when files are gone, and the transition to SEALED. */
  ghost function SealStep(c: Codec, s: State, p: nat, a: Act): Option<State>
    requires p in s.procs
  {
    match (s.procs[p], a)
    case (ReadBundle(dir), Check(_)) =>
      (match ReadTree(c, s, dir.hash)
       case Err(problem) => Some(Go(s, p, Failed(problem)))
       case Ok(tree) => Some(Go(s, p, if tree == ManifestOf(dir.files) then CheckBundle(dir, 0) else Failed(Drift))))
    case (CheckBundle(dir, done), Check(_)) =>
      if done < |dir.files| then
        match ReadBlob(s, dir.files[done].1)
        case Err(problem) => Some(Go(s, p, Failed(problem)))
        case Ok(_) => Some(Go(s, p, CheckBundle(dir, done + 1)))
      else Some(Go(s, p, ToSeal(dir)))
    case (ToSeal(dir), Commit) =>
      Some(Go(s.(sealed := s.sealed + {(ManifestOf(dir.files), dir.hash)}), p, Finished))
    case (_, _) => None
  }

  predicate Installing(pc: Pc) {
    pc.Closed? || pc.MadeDir? || pc.HasDir? || pc.Absent? || pc.Existing? || pc.Linked? || pc.Dropping?
  }

  ghost function Step(c: Codec, s: State, p: nat, a: Act): Option<State> {
    if p !in s.procs then StartStep(s, p, a)
    else if a.Crash? then Some(Go(s, p, Crashed))
    else if s.procs[p].Writing? then WriteStep(s, p, a)
    else if Installing(s.procs[p]) then InstallStep(c, s, p, a)
    else if s.procs[p].CheckSnapshot? || s.procs[p].SumTree? then
      if a.Check? then SnapshotStep(c, s, p, a.ino) else None
    else if s.procs[p].ReadBundle? || s.procs[p].CheckBundle? || s.procs[p].ToSeal? then SealStep(c, s, p, a)
    else DirStep(c, s, p, a)
  }

  /** Paths of a directory are distinct; a record to seal names its own manifest's hash. */
  ghost predicate Admissible(c: Codec, a: Act) {
    a.StartDir? ==>
      && (forall i, j :: 0 <= i < j < |a.dir.files| ==> a.dir.files[i].0 != a.dir.files[j].0)
      && (a.dir.sealing ==> a.dir.hash == Sha(c.encode(ManifestOf(a.dir.files))))
  }

  const EMPTY := State(map[], {}, {}, map[], map[], LAYOUT, {}, map[])

  datatype Move = Move(p: nat, act: Act)

  ghost function AfterMoves(c: Codec, s: State, moves: seq<Move>): Option<State> {
    if moves == [] then Some(s)
    else
      var before := AfterMoves(c, s, moves[..|moves| - 1]);
      var m := moves[|moves| - 1];
      if before.Some? && Admissible(c, m.act) then Step(c, before.value, m.p, m.act) else None
  }

  ghost predicate Reachable(c: Codec, s: State) {
    exists moves: seq<Move> :: AfterMoves(c, EMPTY, moves) == Some(s)
  }

  // ---- What the store holds ----------------------------------------------

  /** Everything published is complete, on disk, and what its name says. */
  ghost predicate StoreOk(c: Codec, s: State) {
    && (forall d :: d in s.blobs ==> BlobOk(s, d))
    && (forall k :: k in s.snaps ==> SnapOk(c, s, k))
    && (forall m, h :: (m, h) in s.sealed ==> SealedOk(c, s, m, h))
  }

  ghost predicate BlobOk(s: State, d: BlobDigest)
    requires d in s.blobs
  {
    s.blobs[d] in s.data && s.blobs[d] in s.synced && s.data[s.blobs[d]] == Raw(d.bytes)
  }

  ghost predicate SnapOk(c: Codec, s: State, k: (SnapshotKind, BlobDigest))
    requires k in s.snaps
  {
    && s.snaps[k] in s.data && s.snaps[k] in s.synced && s.data[s.snaps[k]].Record?
    && (s.data[s.snaps[k]].snap.kind, s.data[s.snaps[k]].snap.digest) == k
    && Accurate(c, s, s.data[s.snaps[k]].snap)
  }

  ghost predicate Stored(s: State, m: Manifest) { forall p :: p in m ==> m[p] in s.blobs }

  /** All content of a snapshot is in the store and its totals are right. */
  ghost predicate Accurate(c: Codec, s: State, snap: Snapshot) {
    && snap.digest in s.blobs
    && match snap.kind
       case OneFile => snap.size == |snap.digest.bytes| && snap.fileCount == 1
       case Tree =>
         && c.decode(snap.digest.bytes).Some?
         && var tree := c.decode(snap.digest.bytes).value;
            Stored(s, tree) && snap.size == TotalSize(tree) && snap.fileCount == |tree|
  }

  ghost function TotalSize(m: Manifest): nat { SumBytes(m, Sorted(m.Keys)) }

  ghost function SumBytes(m: Manifest, paths: seq<string>): nat
    requires forall p :: p in paths ==> p in m
  {
    if paths == [] then 0 else SumBytes(m, paths[..|paths| - 1]) + |m[paths[|paths| - 1]].bytes|
  }

  /** A sealed record's tree object and every file it names are in the store. */
  ghost predicate SealedOk(c: Codec, s: State, m: Manifest, h: BlobDigest) {
    h in s.blobs && c.decode(h.bytes) == Some(m) && Stored(s, m)
  }
}
