/** The evidence store in every reachable state of module Publish. */
module PublishSafety {
  import opened Publish
  import opened Seqs
  import opened Wrappers

  // ---- What a writer knows at each point ---------------------------------

  function InoOf(pc: Pc): Option<Ino> {
    match pc
    case Writing(_, ino, _, _) => Some(ino)
    case Closed(_, ino, _) => Some(ino)
    case MadeDir(_, ino, _) => Some(ino)
    case HasDir(_, ino, _) => Some(ino)
    case Linked(_, ino, _) => Some(ino)
    case Absent(_, ino, _) => Some(ino)
    case Existing(_, ino, _) => Some(ino)
    case Dropping(_, ino, _, _) => Some(ino)
    case _ => None
  }

  function Concat(chunks: seq<Bytes>): Bytes { if chunks == [] then [] else chunks[0] + Concat(chunks[1..]) }

  ghost predicate DirOk(c: Codec, dir: Bundle) {
    && (forall i, j :: 0 <= i < j < |dir.files| ==> dir.files[i].0 != dir.files[j].0)
    && (dir.sealing ==> dir.hash == Sha(c.encode(ManifestOf(dir.files))))
  }

  ghost predicate FilesStored(s: State, dir: Bundle, stored: seq<BlobDigest>) {
    && |stored| <= |dir.files|
    && forall i :: 0 <= i < |stored| ==> stored[i] in s.blobs && (!dir.sealing ==> stored[i] == dir.files[i].1)
  }

  ghost predicate JobOk(c: Codec, s: State, job: Job) {
    match job.target
    case SnapTarget(snap) => Accurate(c, s, snap) && job.next == Return && job.expected == None
    case BlobTarget =>
      match job.next
      case Return => true
      case NextFile(dir, stored) =>
        && DirOk(c, dir) && FilesStored(s, dir, stored) && |stored| < |dir.files|
        && (!dir.sealing ==> job.expected == Some(dir.files[|stored|].1))
      case FileStored(hash) => job.expected == Some(hash)
      case TreeStored(dir) => DirOk(c, dir) && Stored(s, ManifestOf(dir.files)) && c.safe(ManifestOf(dir.files))
  }

  /** A tree job writes the encoding of its directory's manifest. */
  ghost predicate TreeBytesAre(c: Codec, job: Job, bytes: Bytes) {
    job.next.TreeStored? ==> bytes == c.encode(ManifestOf(job.next.dir.files))
  }

  ghost predicate TempOk(c: Codec, s: State, job: Job, ino: Ino, digest: BlobDigest) {
    && ino in s.temps && ino in s.data && ino in s.synced && JobOk(c, s, job) && TreeBytesAre(c, job, digest.bytes)
    && (job.expected.Some? ==> job.expected.value == digest)
    && s.data[ino] == if job.target.SnapTarget? then Record(job.target.snap) else Raw(digest.bytes)
  }

  /** The first files of a tree have been found, with these many bytes in all. */
  ghost predicate Counted(s: State, tree: Manifest, paths: seq<string>, done: nat, total: nat) {
    && done <= |paths| && (forall i :: 0 <= i < |paths| ==> paths[i] in tree)
    && (forall i :: 0 <= i < done ==> tree[paths[i]] in s.blobs)
    && total == SumBytes(tree, paths[..done])
  }

  /** What a put has achieved once its name is published. */
  ghost predicate DoneOk(c: Codec, s: State, job: Job, digest: BlobDigest) {
    && JobOk(c, s, job) && TreeBytesAre(c, job, digest.bytes)
    && (job.expected.Some? ==> job.expected.value == digest) && FinalOf(s, job, digest).Some?
  }

  ghost predicate PcOk(c: Codec, s: State, pc: Pc) {
    match pc
    case Writing(job, ino, hashed, rest) =>
      && ino in s.temps && ino in s.data && ino !in s.synced && JobOk(c, s, job)
      && TreeBytesAre(c, job, hashed + Concat(rest))
      && (job.target.BlobTarget? ==> s.data[ino] == Raw(hashed))
      && (job.target.SnapTarget? && rest == [] ==> s.data[ino] == Record(job.target.snap))
    case Closed(job, ino, digest) => TempOk(c, s, job, ino, digest)
    case MadeDir(job, ino, digest) => TempOk(c, s, job, ino, digest)
    case HasDir(job, ino, digest) => TempOk(c, s, job, ino, digest)
    case Linked(job, ino, digest) => ino in s.data && DoneOk(c, s, job, digest)
    case Absent(job, ino, digest) => TempOk(c, s, job, ino, digest)
    case Existing(job, ino, digest) => TempOk(c, s, job, ino, digest) && FinalOf(s, job, digest).Some?
    case Dropping(job, ino, digest, problem) =>
      && ino in s.data && problem in [None, Some(Mismatch), Some(Io)]
      && (problem.None? ==> DoneOk(c, s, job, digest))
    case SumTree(snap, tree, done, total) =>
      && snap.kind == Tree && snap.digest in s.blobs && c.decode(snap.digest.bytes) == Some(tree)
      && Counted(s, tree, Sorted(tree.Keys), done, total)
    case Files(dir, stored) => DirOk(c, dir) && FilesStored(s, dir, stored)
    case PutTree(dir) => DirOk(c, dir)
    case Totals(dir) =>
      && DirOk(c, dir) && Stored(s, ManifestOf(dir.files)) && c.safe(ManifestOf(dir.files))
      && Sha(c.encode(ManifestOf(dir.files))) in s.blobs
    case SizeOf(hash) => hash in s.blobs
    case ReadBundle(dir) => DirOk(c, dir)
    case CheckBundle(dir, done) =>
      && DirOk(c, dir) && dir.hash in s.blobs && c.decode(dir.hash.bytes) == Some(ManifestOf(dir.files)) && done <= |dir.files|
      && forall i :: 0 <= i < done ==> dir.files[i].1 in s.blobs
    case ToSeal(dir) => SealedOk(c, s, ManifestOf(dir.files), dir.hash)
    case Failed(why) => why != Conflict
    case _ => true
  }

  ghost predicate Inv(c: Codec, s: State) {
    && StoreOk(c, s) && s.synced <= s.data.Keys && s.temps <= s.data.Keys
    && (forall p :: p in s.procs ==> PcOk(c, s, s.procs[p]))
    && (forall p, q :: p in s.procs && q in s.procs && p != q && InoOf(s.procs[p]).Some? ==> InoOf(s.procs[p]) != InoOf(s.procs[q]))
  }

  // ---- Steps that leave others alone -------------------------------------

  /** The store only grows: names stay on their inodes, published bytes stay put. */
  ghost predicate Grows(s: State, t: State) {
    && (forall d :: d in s.blobs ==> d in t.blobs && t.blobs[d] == s.blobs[d])
    && (forall k :: k in s.snaps ==> k in t.snaps && t.snaps[k] == s.snaps[k])
    && s.sealed <= t.sealed && s.synced <= t.synced
    && (forall i :: i in s.data && i in s.synced ==> i in t.data && t.data[i] == s.data[i])
  }

  ghost predicate SameTemp(s: State, t: State, i: Ino) {
    && (i in s.data <==> i in t.data) && (i in s.data ==> s.data[i] == t.data[i])
    && (i in s.temps <==> i in t.temps) && (i in s.synced <==> i in t.synced)
  }

  lemma AccurateStays(c: Codec, s: State, t: State, snap: Snapshot)
    requires Grows(s, t) && Accurate(c, s, snap)
    ensures Accurate(c, t, snap)
  {
  }

  lemma JobStays(c: Codec, s: State, t: State, job: Job)
    requires Grows(s, t) && JobOk(c, s, job)
    ensures JobOk(c, t, job)
  {
    if job.target.SnapTarget? { AccurateStays(c, s, t, job.target.snap); }
  }

  lemma PcStays(c: Codec, s: State, t: State, pc: Pc)
    requires Grows(s, t) && PcOk(c, s, pc)
    requires InoOf(pc).Some? ==> SameTemp(s, t, InoOf(pc).value)
    ensures PcOk(c, t, pc)
  {
    match pc
    case Writing(job, _, _, _) => JobStays(c, s, t, job);
    case Closed(job, _, _) => JobStays(c, s, t, job);
    case MadeDir(job, _, _) => JobStays(c, s, t, job);
    case HasDir(job, _, _) => JobStays(c, s, t, job);
    case Linked(job, _, _) => JobStays(c, s, t, job);
    case Absent(job, _, _) => JobStays(c, s, t, job);
    case Existing(job, _, _) => JobStays(c, s, t, job);
    case Dropping(job, _, _, problem) => if problem.None? { JobStays(c, s, t, job); }
    case _ =>
  }

  lemma StoreStays(c: Codec, s: State, t: State)
    requires StoreOk(c, s) && Grows(s, t)
    requires forall d :: d in t.blobs && d !in s.blobs ==> BlobOk(t, d)
    requires forall k :: k in t.snaps && k !in s.snaps ==> SnapOk(c, t, k)
    requires forall m, h :: (m, h) in t.sealed && (m, h) !in s.sealed ==> SealedOk(c, t, m, h)
    ensures StoreOk(c, t)
  {
    forall k | k in t.snaps ensures SnapOk(c, t, k) {
      if k in s.snaps { AccurateStays(c, s, t, s.data[s.snaps[k]].snap); }
    }
    forall m, h | (m, h) in t.sealed ensures SealedOk(c, t, m, h) {
      if (m, h) in s.sealed { assert SealedOk(c, s, m, h); }
    }
  }

  /** Only process p, and the inode it owns, changed. */
  ghost predicate OnlyMoves(s: State, t: State, p: nat) {
    && p in t.procs && t.procs.Keys == s.procs.Keys + {p}
    && (forall q :: q in s.procs && q != p ==> t.procs[q] == s.procs[q])
    && (forall i: Ino :: (p !in s.procs || InoOf(s.procs[p]) != Some(i)) && (InoOf(t.procs[p]) != Some(i) || i in s.data) ==> SameTemp(s, t, i))
    && (InoOf(t.procs[p]).Some? ==> (p in s.procs && InoOf(s.procs[p]) == InoOf(t.procs[p])) || InoOf(t.procs[p]).value !in s.data)
  }

  lemma InvStays(c: Codec, s: State, t: State, p: nat)
    requires Inv(c, s) && Grows(s, t) && OnlyMoves(s, t, p) && StoreOk(c, t) && PcOk(c, t, t.procs[p])
    requires t.synced <= t.data.Keys && t.temps <= t.data.Keys
    ensures Inv(c, t)
  {
    forall q | q in t.procs ensures PcOk(c, t, t.procs[q]) {
      if q != p { OtherStays(c, s, t, p, q); }
    }
    forall q, r | q in t.procs && r in t.procs && q != r && InoOf(t.procs[q]).Some?
      ensures InoOf(t.procs[q]) != InoOf(t.procs[r])
    {
      if q == p || r == p { OwnersStayApart(c, s, t, p, if q == p then r else q); }
    }
  }

  lemma OtherStays(c: Codec, s: State, t: State, p: nat, q: nat)
    requires Inv(c, s) && Grows(s, t) && OnlyMoves(s, t, p) && q in t.procs && q != p
    ensures PcOk(c, t, t.procs[q])
  {
    assert PcOk(c, s, s.procs[q]);
    if InoOf(s.procs[q]).Some? { OwnersDiffer(c, s, t, p, q); }
    PcStays(c, s, t, s.procs[q]);
  }

  lemma OwnersStayApart(c: Codec, s: State, t: State, p: nat, q: nat)
    requires Inv(c, s) && OnlyMoves(s, t, p) && q in t.procs && q != p
    ensures InoOf(t.procs[p]).Some? || InoOf(t.procs[q]).Some? ==> InoOf(t.procs[p]) != InoOf(t.procs[q])
  {
    assert q in s.procs && t.procs[q] == s.procs[q];
    if InoOf(s.procs[q]).Some? { OwnersDiffer(c, s, t, p, q); }
  }

  /** Another process's inode is neither p's nor new. */
  lemma OwnersDiffer(c: Codec, s: State, t: State, p: nat, q: nat)
    requires Inv(c, s) && OnlyMoves(s, t, p) && q in s.procs && q != p && InoOf(s.procs[q]).Some?
    ensures InoOf(t.procs[p]) != InoOf(s.procs[q])
    ensures SameTemp(s, t, InoOf(s.procs[q]).value)
  {
    assert PcOk(c, s, s.procs[q]);
  }

  // ---- Each step keeps the invariant -------------------------------------

  /** A process's own part of a step, and that nothing else moved. */
  lemma StepKeepsInv(c: Codec, s: State, t: State, p: nat)
    requires Inv(c, s) && Grows(s, t) && OnlyMoves(s, t, p) && PcOk(c, t, t.procs[p])
    requires t.blobs == s.blobs && t.snaps == s.snaps && t.sealed == s.sealed
    requires t.synced <= t.data.Keys && t.temps <= t.data.Keys
    ensures Inv(c, t)
  {
    StoreStays(c, s, t);
    InvStays(c, s, t, p);
  }

  lemma OpenMoves(c: Codec, s: State, p: nat, job: Job, chunks: seq<Bytes>, ino: Ino)
    requires Inv(c, s) && Open(s, p, job, chunks, ino).Some?
    requires p in s.procs ==> InoOf(s.procs[p]).None?
    ensures var t := Open(s, p, job, chunks, ino).value;
      Grows(s, t) && OnlyMoves(s, t, p) && t.synced <= t.data.Keys && t.temps <= t.data.Keys
  {
  }

  lemma OpenKeeps(c: Codec, s: State, p: nat, job: Job, chunks: seq<Bytes>, ino: Ino)
    requires Inv(c, s) && Open(s, p, job, chunks, ino).Some? && JobOk(c, s, job)
    requires p in s.procs ==> InoOf(s.procs[p]).None?
    requires TreeBytesAre(c, job, Concat(chunks)) && (job.target.SnapTarget? ==> chunks != [])
    ensures Inv(c, Open(s, p, job, chunks, ino).value) && Grows(s, Open(s, p, job, chunks, ino).value)
  {
    var t := Open(s, p, job, chunks, ino).value;
    OpenMoves(c, s, p, job, chunks, ino);
    JobStays(c, s, t, job);
    assert [] + Concat(chunks) == Concat(chunks);
    assert PcOk(c, t, Writing(job, ino, [], chunks));
    StepKeepsInv(c, s, t, p);
  }

  /** A step that only moves a process that owns no temp file. */
  lemma MoveKeeps(c: Codec, s: State, p: nat, pc: Pc)
    requires Inv(c, s) && PcOk(c, s, pc) && InoOf(pc).None?
    ensures Inv(c, Go(s, p, pc)) && Grows(s, Go(s, p, pc))
  {
    var t := Go(s, p, pc);
    assert Grows(s, t) && OnlyMoves(s, t, p);
    PcStays(c, s, t, pc);
    StepKeepsInv(c, s, t, p);
  }

  /** A step that moves a process along its own temp file. */
  lemma OwnMoveKeeps(c: Codec, s: State, p: nat, pc: Pc)
    requires Inv(c, s) && PcOk(c, s, pc) && p in s.procs && InoOf(pc) == InoOf(s.procs[p])
    ensures Inv(c, Go(s, p, pc)) && Grows(s, Go(s, p, pc))
  {
    var t := Go(s, p, pc);
    assert Grows(s, t) && OnlyMoves(s, t, p);
    PcStays(c, s, t, pc);
    StepKeepsInv(c, s, t, p);
  }

  lemma StartKeeps(c: Codec, s: State, p: nat, a: Act)
    requires Inv(c, s) && p !in s.procs && Admissible(c, a) && StartStep(s, p, a).Some?
    ensures Inv(c, StartStep(s, p, a).value) && Grows(s, StartStep(s, p, a).value)
  {
    match a
    case StartPut(chunks, expected, ino) => OpenKeeps(c, s, p, Job(BlobTarget, expected, Return), chunks, ino);
    case StartIngestFile(chunks, hash, ino) => OpenKeeps(c, s, p, Job(BlobTarget, Some(hash), FileStored(hash)), chunks, ino);
    case StartSnapshot(snap) => MoveKeeps(c, s, p, CheckSnapshot(snap));
    case StartDir(dir) => MoveKeeps(c, s, p, Files(dir, []));
    case _ =>
  }

  lemma ChunkKeeps(c: Codec, s: State, p: nat, job: Job, ino: Ino, hashed: Bytes, rest: seq<Bytes>)
    requires Inv(c, s) && p in s.procs && s.procs[p] == Writing(job, ino, hashed, rest) && rest != []
    ensures WriteStep(s, p, Write).Some? ==> Inv(c, WriteStep(s, p, Write).value) && Grows(s, WriteStep(s, p, Write).value)
  {
    if WriteStep(s, p, Write).Some? {
      var t := WriteStep(s, p, Write).value;
      ChunkMoves(c, s, t, p, job, ino, hashed, rest);
      ChunkOk(c, s, t, p, job, ino, hashed, rest);
      StepKeepsInv(c, s, t, p);
    }
  }

  lemma ChunkIs(s: State, t: State, p: nat, job: Job, ino: Ino, hashed: Bytes, rest: seq<Bytes>) returns (content: FileData, pc: Pc)
    requires p in s.procs && s.procs[p] == Writing(job, ino, hashed, rest) && WriteStep(s, p, Write) == Some(t)
    ensures t == Go(s.(data := s.data[ino := content]), p, pc) && InoOf(pc) == Some(ino)
  {
    content, pc := t.data[ino], t.procs[p];
  }

  lemma ChunkMoves(c: Codec, s: State, t: State, p: nat, job: Job, ino: Ino, hashed: Bytes, rest: seq<Bytes>)
    requires Inv(c, s) && p in s.procs && s.procs[p] == Writing(job, ino, hashed, rest) && WriteStep(s, p, Write) == Some(t)
    ensures Grows(s, t) && OnlyMoves(s, t, p) && t.synced <= t.data.Keys && t.temps <= t.data.Keys
    ensures t.blobs == s.blobs && t.snaps == s.snaps && t.sealed == s.sealed
  {
    assert PcOk(c, s, s.procs[p]);
    var content, pc := ChunkIs(s, t, p, job, ino, hashed, rest);
  }

  lemma ChunkOk(c: Codec, s: State, t: State, p: nat, job: Job, ino: Ino, hashed: Bytes, rest: seq<Bytes>)
    requires p in s.procs && s.procs[p] == Writing(job, ino, hashed, rest) && PcOk(c, s, s.procs[p]) && rest != []
    requires WriteStep(s, p, Write) == Some(t) && Grows(s, t)
    ensures PcOk(c, t, t.procs[p])
  {
    assert hashed + Concat(rest) == (hashed + rest[0]) + Concat(rest[1..]);
    JobStays(c, s, t, job);
  }

  lemma CloseIs(s: State, p: nat, job: Job, ino: Ino, hashed: Bytes) returns (t: State, pc: Pc)
    requires p in s.procs && s.procs[p] == Writing(job, ino, hashed, [])
    ensures WriteStep(s, p, Close) == Some(t) && t == Go(s.(synced := s.synced + {ino}), p, pc)
    ensures pc == if job.expected.Some? && job.expected.value != Sha(hashed)
                  then Dropping(job, ino, Sha(hashed), Some(Mismatch)) else Closed(job, ino, Sha(hashed))
  {
    pc := if job.expected.Some? && job.expected.value != Sha(hashed)
          then Dropping(job, ino, Sha(hashed), Some(Mismatch)) else Closed(job, ino, Sha(hashed));
    t := Go(s.(synced := s.synced + {ino}), p, pc);
  }

  lemma CloseMoves(c: Codec, s: State, t: State, p: nat, ino: Ino, pc: Pc)
    requires Inv(c, s) && p in s.procs && s.procs[p].Writing? && s.procs[p].ino == ino
    requires t == Go(s.(synced := s.synced + {ino}), p, pc) && InoOf(pc) == Some(ino)
    ensures Grows(s, t) && OnlyMoves(s, t, p) && t.synced <= t.data.Keys && t.temps <= t.data.Keys
  {
    assert PcOk(c, s, s.procs[p]);
  }

  lemma CloseKeeps(c: Codec, s: State, p: nat, job: Job, ino: Ino, hashed: Bytes)
    requires Inv(c, s) && p in s.procs && s.procs[p] == Writing(job, ino, hashed, [])
    ensures WriteStep(s, p, Close).Some? && Inv(c, WriteStep(s, p, Close).value) && Grows(s, WriteStep(s, p, Close).value)
  {
    var t, pc := CloseIs(s, p, job, ino, hashed);
    CloseMoves(c, s, t, p, ino, pc);
    CloseOk(c, s, t, p, job, ino, hashed, pc);
    StepKeepsInv(c, s, t, p);
  }

  lemma CloseOk(c: Codec, s: State, t: State, p: nat, job: Job, ino: Ino, hashed: Bytes, pc: Pc)
    requires PcOk(c, s, Writing(job, ino, hashed, [])) && Grows(s, t) && t == Go(s.(synced := s.synced + {ino}), p, pc)
    requires pc == if job.expected.Some? && job.expected.value != Sha(hashed)
                   then Dropping(job, ino, Sha(hashed), Some(Mismatch)) else Closed(job, ino, Sha(hashed))
    ensures PcOk(c, t, pc)
  {
    assert hashed + Concat([]) == hashed;
    JobStays(c, s, t, job);
  }

  lemma WriteKeeps(c: Codec, s: State, p: nat, a: Act)
    requires Inv(c, s) && p in s.procs && s.procs[p].Writing? && WriteStep(s, p, a).Some?
    ensures Inv(c, WriteStep(s, p, a).value) && Grows(s, WriteStep(s, p, a).value)
  {
    var Writing(job, ino, hashed, rest) := s.procs[p];
    assert PcOk(c, s, s.procs[p]);
    match a
    case Write => ChunkKeeps(c, s, p, job, ino, hashed, rest);
    case Close => CloseKeeps(c, s, p, job, ino, hashed);
    case WriteFails => OwnMoveKeeps(c, s, p, Dropping(job, ino, Sha(hashed), Some(Io)));
    case _ =>
  }

  /** Two accurate records of one snapshot are the same record. */
  lemma AccurateIsUnique(c: Codec, s: State, a: Snapshot, b: Snapshot)
    requires Accurate(c, s, a) && Accurate(c, s, b) && a.kind == b.kind && a.digest == b.digest
    ensures a == b
  {
  }

  /** What is already published under a writer's final name is what it would publish. */
  lemma ExistingAgrees(c: Codec, s: State, job: Job, ino: Ino, digest: BlobDigest)
    requires StoreOk(c, s) && TempOk(c, s, job, ino, digest) && FinalOf(s, job, digest).Some?
    ensures var final := FinalOf(s, job, digest).value;
      final in s.data && s.data[final] == s.data[ino] && (job.target.BlobTarget? ==> digest in s.blobs)
  {
    match job.target
    case BlobTarget => assert BlobOk(s, digest);
    case SnapTarget(snap) =>
      assert SnapOk(c, s, (snap.kind, snap.digest));
      AccurateIsUnique(c, s, snap, s.data[s.snaps[(snap.kind, snap.digest)]].snap);
  }

  /** The link itself: one new name for a complete, fsynced file. */
  lemma LinkBlob(c: Codec, s: State, p: nat, job: Job, ino: Ino, digest: BlobDigest)
    requires Inv(c, s) && p in s.procs && s.procs[p] == Absent(job, ino, digest) && job.target.BlobTarget? && digest !in s.blobs
    ensures var t := Go(s.(blobs := s.blobs[digest := ino]), p, Linked(job, ino, digest));
      Grows(s, t) && OnlyMoves(s, t, p) && StoreOk(c, t)
  {
    assert PcOk(c, s, s.procs[p]);
    var t := Go(s.(blobs := s.blobs[digest := ino]), p, Linked(job, ino, digest));
    assert BlobOk(t, digest);
    StoreStays(c, s, t);
  }

  lemma RecordIsOk(c: Codec, s: State, t: State, job: Job, ino: Ino, digest: BlobDigest, key: (SnapshotKind, BlobDigest))
    requires TempOk(c, s, job, ino, digest) && job.target.SnapTarget? && key == (job.target.snap.kind, job.target.snap.digest)
    requires Grows(s, t) && t.data == s.data && t.synced == s.synced && key in t.snaps && t.snaps[key] == ino
    ensures SnapOk(c, t, key)
  {
    AccurateStays(c, s, t, job.target.snap);
  }

  lemma LinkRecord(c: Codec, s: State, p: nat, job: Job, ino: Ino, digest: BlobDigest, key: (SnapshotKind, BlobDigest))
    requires Inv(c, s) && p in s.procs && s.procs[p] == Absent(job, ino, digest) && job.target.SnapTarget?
    requires key == (job.target.snap.kind, job.target.snap.digest) && key !in s.snaps
    ensures var t := Go(s.(snaps := s.snaps[key := ino]), p, Linked(job, ino, digest));
      Grows(s, t) && OnlyMoves(s, t, p) && StoreOk(c, t)
  {
    assert PcOk(c, s, s.procs[p]);
    var t := Go(s.(snaps := s.snaps[key := ino]), p, Linked(job, ino, digest));
    assert Grows(s, t);
    RecordIsOk(c, s, t, job, ino, digest, key);
    StoreStays(c, s, t);
  }

  /** The link itself: one new name for a complete, fsynced file. */
  lemma LinkPublishes(c: Codec, s: State, p: nat, job: Job, ino: Ino, digest: BlobDigest) returns (t: State)
    requires Inv(c, s) && p in s.procs && s.procs[p] == Absent(job, ino, digest) && FinalOf(s, job, digest).None?
    ensures InstallStep(c, s, p, Link) == Some(t) && t.procs == s.procs[p := Linked(job, ino, digest)]
    ensures Grows(s, t) && OnlyMoves(s, t, p) && StoreOk(c, t) && FinalOf(t, job, digest) == Some(ino)
    ensures t.data == s.data && t.synced == s.synced && t.temps == s.temps
  {
    t := InstallStep(c, s, p, Link).value;
    if job.target.BlobTarget? {
      LinkBlob(c, s, p, job, ino, digest);
      assert t == Go(s.(blobs := s.blobs[digest := ino]), p, Linked(job, ino, digest));
    } else {
      var key := (job.target.snap.kind, job.target.snap.digest);
      LinkRecord(c, s, p, job, ino, digest, key);
      assert t == Go(s.(snaps := s.snaps[key := ino]), p, Linked(job, ino, digest));
    }
  }

  lemma LinkKeeps(c: Codec, s: State, p: nat, job: Job, ino: Ino, digest: BlobDigest)
    requires Inv(c, s) && p in s.procs && s.procs[p] == Absent(job, ino, digest)
    ensures InstallStep(c, s, p, Link).Some? && Inv(c, InstallStep(c, s, p, Link).value) && Grows(s, InstallStep(c, s, p, Link).value)
  {
    assert PcOk(c, s, s.procs[p]);
    if FinalOf(s, job, digest).Some? {
      OwnMoveKeeps(c, s, p, Existing(job, ino, digest));
    } else {
      var t := LinkPublishes(c, s, p, job, ino, digest);
      JobStays(c, s, t, job);
      assert PcOk(c, t, Linked(job, ino, digest));
      InvStays(c, s, t, p);
    }
  }

  lemma VerifyKeeps(c: Codec, s: State, p: nat, job: Job, ino: Ino, digest: BlobDigest)
    requires Inv(c, s) && p in s.procs && s.procs[p] == Existing(job, ino, digest)
    ensures InstallStep(c, s, p, VerifyExisting) == Some(Go(s, p, Dropping(job, ino, digest, None)))
    ensures Inv(c, Go(s, p, Dropping(job, ino, digest, None))) && Grows(s, Go(s, p, Dropping(job, ino, digest, None)))
  {
    assert PcOk(c, s, s.procs[p]);
    ExistingAgrees(c, s, job, ino, digest);
    OwnMoveKeeps(c, s, p, Dropping(job, ino, digest, None));
  }

  /** After its put, a client goes on with the blob stored. */
  lemma ContinueOk(c: Codec, s: State, job: Job, ino: Ino, digest: BlobDigest)
    requires GoodCodec(c) && PcOk(c, s, Dropping(job, ino, digest, None))
    ensures PcOk(c, s, Continue(job.next, digest)) && InoOf(Continue(job.next, digest)).None?
  {
    match job.next
    case Return =>
    case NextFile(dir, stored) =>
      assert forall i :: 0 <= i < |stored| ==> (stored + [digest])[i] == stored[i];
    case FileStored(hash) =>
    case TreeStored(dir) =>
      assert digest == Sha(c.encode(ManifestOf(dir.files)));
  }

  lemma DropMoves(c: Codec, s: State, t: State, p: nat, ino: Ino, pc: Pc)
    requires Inv(c, s) && p in s.procs && s.procs[p].Dropping? && s.procs[p].ino == ino
    requires t == Go(s.(temps := s.temps - {ino}), p, pc) && InoOf(pc).None?
    ensures Grows(s, t) && OnlyMoves(s, t, p)
  {
  }

  lemma DropIs(c: Codec, s: State, p: nat, job: Job, ino: Ino, digest: BlobDigest, problem: Option<Problem>) returns (t: State, pc: Pc)
    requires p in s.procs && s.procs[p] == Dropping(job, ino, digest, problem)
    ensures InstallStep(c, s, p, Drop) == Some(t) && t == Go(s.(temps := s.temps - {ino}), p, pc)
    ensures pc == if problem.Some? then Failed(problem.value) else Continue(job.next, digest)
  {
    pc := if problem.Some? then Failed(problem.value) else Continue(job.next, digest);
    t := Go(s.(temps := s.temps - {ino}), p, pc);
  }

  lemma DropOk(c: Codec, s: State, job: Job, ino: Ino, digest: BlobDigest, problem: Option<Problem>, pc: Pc)
    requires GoodCodec(c) && PcOk(c, s, Dropping(job, ino, digest, problem))
    requires pc == if problem.Some? then Failed(problem.value) else Continue(job.next, digest)
    ensures PcOk(c, s, pc) && InoOf(pc).None?
  {
    if problem.None? { ContinueOk(c, s, job, ino, digest); }
  }

  lemma DropKeeps(c: Codec, s: State, p: nat, job: Job, ino: Ino, digest: BlobDigest, problem: Option<Problem>)
    requires GoodCodec(c) && Inv(c, s) && p in s.procs && s.procs[p] == Dropping(job, ino, digest, problem)
    ensures InstallStep(c, s, p, Drop).Some? && Inv(c, InstallStep(c, s, p, Drop).value) && Grows(s, InstallStep(c, s, p, Drop).value)
  {
    var t, pc := DropIs(c, s, p, job, ino, digest, problem);
    DropOk(c, s, job, ino, digest, problem, pc);
    DropMoves(c, s, t, p, ino, pc);
    PcStays(c, s, t, pc);
    StepKeepsInv(c, s, t, p);
  }

  /** Making a shard directory touches no name and no file. */
  lemma MakeDirKeeps(c: Codec, s: State, p: nat, job: Job, ino: Ino, digest: BlobDigest, made: set<Dir>)
    requires Inv(c, s) && p in s.procs && s.procs[p] == Closed(job, ino, digest)
    ensures var t := Go(s.(dirs := s.dirs + made), p, MadeDir(job, ino, digest)); Inv(c, t) && Grows(s, t)
  {
    assert PcOk(c, s, s.procs[p]);
    var t := Go(s.(dirs := s.dirs + made), p, MadeDir(job, ino, digest));
    assert Grows(s, t) && OnlyMoves(s, t, p);
    PcStays(c, s, t, MadeDir(job, ino, digest));
    StepKeepsInv(c, s, t, p);
  }

  lemma FindDirKeeps(c: Codec, s: State, p: nat, job: Job, ino: Ino, digest: BlobDigest, a: Act)
    requires Inv(c, s) && p in s.procs && s.procs[p] == Closed(job, ino, digest)
    ensures var r := InstallStep(c, s, p, a); r.Some? ==> Inv(c, r.value) && Grows(s, r.value)
  {
    assert PcOk(c, s, s.procs[p]);
    if a.FindDir? {
      if a.missing {
        MakeDirKeeps(c, s, p, job, ino, digest, {DirOf(c, NameOf(job, digest)), BaseDir(BaseOf(NameOf(job, digest)))});
      } else {
        OwnMoveKeeps(c, s, p, HasDir(job, ino, digest));
      }
    }
  }

  lemma LookKeeps(c: Codec, s: State, p: nat, job: Job, ino: Ino, digest: BlobDigest)
    requires Inv(c, s) && p in s.procs && s.procs[p] == HasDir(job, ino, digest)
    ensures var r := InstallStep(c, s, p, Look); r.Some? && Inv(c, r.value) && Grows(s, r.value)
  {
    assert PcOk(c, s, s.procs[p]);
    OwnMoveKeeps(c, s, p, if FinalOf(s, job, digest).Some? then Existing(job, ino, digest) else Absent(job, ino, digest));
  }

  lemma SyncIs(c: Codec, s: State, p: nat, job: Job, ino: Ino, digest: BlobDigest, a: Act) returns (pc: Pc)
    requires p in s.procs && s.procs[p] in [MadeDir(job, ino, digest), Linked(job, ino, digest)] && InstallStep(c, s, p, a).Some?
    ensures InstallStep(c, s, p, a) == Some(Go(s, p, pc))
    ensures pc == Dropping(job, ino, digest, Some(Io))
      || (if s.procs[p].MadeDir? then pc == HasDir(job, ino, digest) else pc == Dropping(job, ino, digest, None))
  {
    pc := if a.SyncFails? then Dropping(job, ino, digest, Some(Io))
          else if s.procs[p].MadeDir? then HasDir(job, ino, digest)
          else Dropping(job, ino, digest, None);
  }

  lemma SyncKeeps(c: Codec, s: State, p: nat, job: Job, ino: Ino, digest: BlobDigest, a: Act)
    requires Inv(c, s) && p in s.procs && s.procs[p] in [MadeDir(job, ino, digest), Linked(job, ino, digest)]
    ensures var r := InstallStep(c, s, p, a); r.Some? ==> Inv(c, r.value) && Grows(s, r.value)
  {
    if InstallStep(c, s, p, a).Some? {
      var pc := SyncIs(c, s, p, job, ino, digest, a);
      assert PcOk(c, s, pc) && InoOf(pc) == InoOf(s.procs[p]) by { assert PcOk(c, s, s.procs[p]); }
      OwnMoveKeeps(c, s, p, pc);
    }
  }

  lemma InstallKeeps(c: Codec, s: State, p: nat, a: Act)
    requires GoodCodec(c) && Inv(c, s) && p in s.procs && InstallStep(c, s, p, a).Some?
    ensures Inv(c, InstallStep(c, s, p, a).value) && Grows(s, InstallStep(c, s, p, a).value)
  {
    assert PcOk(c, s, s.procs[p]);
    match s.procs[p]
    case Closed(job, ino, digest) => FindDirKeeps(c, s, p, job, ino, digest, a);
    case MadeDir(job, ino, digest) => SyncKeeps(c, s, p, job, ino, digest, a);
    case HasDir(job, ino, digest) => LookKeeps(c, s, p, job, ino, digest);
    case Absent(job, ino, digest) => LinkKeeps(c, s, p, job, ino, digest);
    case Linked(job, ino, digest) => SyncKeeps(c, s, p, job, ino, digest, a);
    case Existing(job, ino, digest) => VerifyKeeps(c, s, p, job, ino, digest);
    case Dropping(job, ino, digest, problem) => DropKeeps(c, s, p, job, ino, digest, problem);
    case _ =>
  }

  // ---- Totals ------------------------------------------------------------

  lemma BlobReads(c: Codec, s: State, d: BlobDigest)
    requires StoreOk(c, s)
    ensures ReadBlob(s, d) == if d in s.blobs then Ok(d.bytes) else Err(Missing)
    ensures d in s.blobs ==> Size(s, d) == |d.bytes|
  {
    if d in s.blobs { assert BlobOk(s, d); }
  }

  lemma {:induction false} SizesAreBytes(c: Codec, s: State, m: Manifest, paths: seq<string>)
    requires StoreOk(c, s) && Stored(s, m) && forall q :: q in paths ==> q in m
    ensures SumSizes(s, m, paths) == SumBytes(m, paths)
  {
    if paths != [] {
      var q := paths[|paths| - 1];
      assert q in paths;
      SizesAreBytes(c, s, m, paths[..|paths| - 1]);
      BlobReads(c, s, m[q]);
    }
  }

  lemma AllSummed(s: State, tree: Manifest)
    requires forall i :: 0 <= i < |Sorted(tree.Keys)| ==> Sorted(tree.Keys)[i] in tree && tree[Sorted(tree.Keys)[i]] in s.blobs
    ensures Stored(s, tree)
  {
    forall q | q in tree ensures tree[q] in s.blobs {
      assert q in Sorted(tree.Keys);
    }
  }

  lemma {:induction false} DigestInMeaning(files: seq<(string, BlobDigest)>, q: string)
    requires exists i :: 0 <= i < |files| && files[i].0 == q
    ensures exists i :: 0 <= i < |files| && files[i] == (q, DigestIn(files, q))
  {
    if files[0].0 != q {
      var i :| 0 <= i < |files| && files[i].0 == q;
      assert files[1..][i - 1].0 == q;
      DigestInMeaning(files[1..], q);
      var k :| 0 <= k < |files[1..]| && files[1..][k] == (q, DigestIn(files[1..], q));
      assert files[k + 1] == (q, DigestIn(files, q));
    } else {
      assert files[0] == (q, DigestIn(files, q));
    }
  }

  lemma FilesAreManifest(s: State, files: seq<(string, BlobDigest)>)
    requires forall i :: 0 <= i < |files| ==> files[i].1 in s.blobs
    ensures Stored(s, ManifestOf(files))
  {
    var m := ManifestOf(files);
    forall q | q in m ensures m[q] in s.blobs {
      DigestInMeaning(files, q);
    }
  }

  // ---- Snapshots, staged inputs and bundles ------------------------------

  lemma RecordKeeps(c: Codec, s: State, p: nat, snap: Snapshot, ino: Ino)
    requires Inv(c, s) && p in s.procs && InoOf(s.procs[p]).None? && Accurate(c, s, snap)
    ensures RecordJob(s, p, snap, ino).Some? ==>
      Inv(c, RecordJob(s, p, snap, ino).value) && Grows(s, RecordJob(s, p, snap, ino).value)
  {
    if RecordJob(s, p, snap, ino).Some? {
      OpenKeeps(c, s, p, Job(SnapTarget(snap), None, Return), [[]], ino);
    }
  }

  lemma SumNext(c: Codec, s: State, p: nat, snap: Snapshot, tree: Manifest, done: nat, total: nat)
    requires Inv(c, s) && p in s.procs && s.procs[p] == SumTree(snap, tree, done, total) && done < |Sorted(tree.Keys)|
    ensures Sorted(tree.Keys)[done] in tree
    ensures var d := tree[Sorted(tree.Keys)[done]];
      d in s.blobs ==> PcOk(c, s, SumTree(snap, tree, done + 1, total + |d.bytes|))
  {
    var paths := Sorted(tree.Keys);
    assert PcOk(c, s, s.procs[p]) && Counted(s, tree, paths, done, total);
    if tree[paths[done]] in s.blobs { CountedNext(s, tree, paths, done, total); }
  }

  lemma CountedNext(s: State, tree: Manifest, paths: seq<string>, done: nat, total: nat)
    requires Counted(s, tree, paths, done, total) && done < |paths| && tree[paths[done]] in s.blobs
    ensures Counted(s, tree, paths, done + 1, total + |tree[paths[done]].bytes|)
  {
    SumBytesNext(tree, paths, done);
  }

  lemma SumBytesNext(m: Manifest, paths: seq<string>, done: nat)
    requires done < |paths| && forall q :: q in paths ==> q in m
    ensures SumBytes(m, paths[..done + 1]) == SumBytes(m, paths[..done]) + |m[paths[done]].bytes|
  {
    assert paths[..done + 1][..done] == paths[..done];
  }

  lemma SumDone(c: Codec, s: State, p: nat, snap: Snapshot, tree: Manifest, done: nat, total: nat)
    requires Inv(c, s) && p in s.procs && s.procs[p] == SumTree(snap, tree, done, total) && done >= |Sorted(tree.Keys)|
    requires total == snap.size && |tree| == snap.fileCount
    ensures Accurate(c, s, snap)
  {
    var paths := Sorted(tree.Keys);
    assert PcOk(c, s, s.procs[p]);
    assert paths[..done] == paths;
    AllSummed(s, tree);
  }

  /** One more file of the tree is read. */
  lemma SumStepIs(c: Codec, s: State, p: nat, snap: Snapshot, tree: Manifest, done: nat, total: nat, ino: Ino)
    returns (d: BlobDigest, pc: Pc)
    requires StoreOk(c, s) && p in s.procs && s.procs[p] == SumTree(snap, tree, done, total) && done < |Sorted(tree.Keys)|
    ensures Sorted(tree.Keys)[done] in tree && d == tree[Sorted(tree.Keys)[done]]
    ensures pc == if d in s.blobs then SumTree(snap, tree, done + 1, total + |d.bytes|) else Failed(Missing)
    ensures SnapshotStep(c, s, p, ino) == Some(Go(s, p, pc))
  {
    var path := Sorted(tree.Keys)[done];
    assert path in Sorted(tree.Keys);
    d := tree[path];
    pc := if d in s.blobs then SumTree(snap, tree, done + 1, total + |d.bytes|) else Failed(Missing);
    BlobReads(c, s, d);
  }

  lemma SumEndIs(c: Codec, s: State, p: nat, snap: Snapshot, tree: Manifest, done: nat, total: nat, ino: Ino)
    requires p in s.procs && s.procs[p] == SumTree(snap, tree, done, total) && done >= |Sorted(tree.Keys)|
    ensures SnapshotStep(c, s, p, ino) ==
      if total != snap.size || |tree| != snap.fileCount then Some(Go(s, p, Failed(WrongTotals))) else RecordJob(s, p, snap, ino)
  {
  }

  lemma SumKeeps(c: Codec, s: State, p: nat, snap: Snapshot, tree: Manifest, done: nat, total: nat, ino: Ino)
    requires Inv(c, s) && p in s.procs && s.procs[p] == SumTree(snap, tree, done, total)
    ensures var r := SnapshotStep(c, s, p, ino); r.Some? ==> Inv(c, r.value) && Grows(s, r.value)
  {
    if done < |Sorted(tree.Keys)| {
      var d, pc := SumStepIs(c, s, p, snap, tree, done, total, ino);
      SumNext(c, s, p, snap, tree, done, total);
      MoveKeeps(c, s, p, pc);
    } else {
      SumEndIs(c, s, p, snap, tree, done, total, ino);
      if total == snap.size && |tree| == snap.fileCount {
        SumDone(c, s, p, snap, tree, done, total);
        RecordKeeps(c, s, p, snap, ino);
      } else {
        MoveKeeps(c, s, p, Failed(WrongTotals));
      }
    }
  }

  lemma SnapshotKeeps(c: Codec, s: State, p: nat, ino: Ino)
    requires Inv(c, s) && p in s.procs && SnapshotStep(c, s, p, ino).Some?
    ensures Inv(c, SnapshotStep(c, s, p, ino).value) && Grows(s, SnapshotStep(c, s, p, ino).value)
  {
    match s.procs[p]
    case CheckSnapshot(snap) =>
      BlobReads(c, s, snap.digest);
      if snap.digest !in s.blobs {
        MoveKeeps(c, s, p, Failed(Missing));
      } else if snap.kind == OneFile {
        if |snap.digest.bytes| != snap.size || snap.fileCount != 1 {
          MoveKeeps(c, s, p, Failed(WrongTotals));
        } else {
          RecordKeeps(c, s, p, snap, ino);
        }
      } else if c.decode(snap.digest.bytes).None? {
        MoveKeeps(c, s, p, Failed(BadTree));
      } else {
        var tree := c.decode(snap.digest.bytes).value;
        assert Sorted(tree.Keys)[..0] == [];
        MoveKeeps(c, s, p, SumTree(snap, tree, 0, 0));
      }
    case SumTree(snap, tree, done, total) => SumKeeps(c, s, p, snap, tree, done, total, ino);
    case _ =>
  }

  lemma FilesKeeps(c: Codec, s: State, p: nat, dir: Bundle, stored: seq<BlobDigest>, a: Act)
    requires Inv(c, s) && p in s.procs && s.procs[p] == Files(dir, stored)
    ensures var r := DirStep(c, s, p, a); r.Some? ==> Inv(c, r.value) && Grows(s, r.value)
  {
    match a
    case StoreFile(chunks, ino) => StoreFileKeeps(c, s, p, dir, stored, chunks, ino);
    case FileGone => GoneKeeps(c, s, p, dir, stored);
    case Check(ino) => ComparedKeeps(c, s, p, dir, stored, ino);
    case _ =>
  }

  lemma GoneKeeps(c: Codec, s: State, p: nat, dir: Bundle, stored: seq<BlobDigest>)
    requires Inv(c, s) && p in s.procs && s.procs[p] == Files(dir, stored)
    ensures var r := DirStep(c, s, p, FileGone); r.Some? ==> Inv(c, r.value) && Grows(s, r.value)
  {
    assert PcOk(c, s, s.procs[p]);
    MoveKeeps(c, s, p, if dir.sealing then ReadBundle(dir) else Failed(Io));
  }

  lemma ComparedKeeps(c: Codec, s: State, p: nat, dir: Bundle, stored: seq<BlobDigest>, ino: Ino)
    requires Inv(c, s) && p in s.procs && s.procs[p] == Files(dir, stored)
    ensures var r := DirStep(c, s, p, Check(ino)); r.Some? ==> Inv(c, r.value) && Grows(s, r.value)
  {
    assert PcOk(c, s, s.procs[p]);
    MoveKeeps(c, s, p, PutTree(dir));
    MoveKeeps(c, s, p, Failed(Drift));
  }

  lemma StoreFileKeeps(c: Codec, s: State, p: nat, dir: Bundle, stored: seq<BlobDigest>, chunks: seq<Bytes>, ino: Ino)
    requires Inv(c, s) && p in s.procs && s.procs[p] == Files(dir, stored)
    ensures var r := DirStep(c, s, p, StoreFile(chunks, ino)); r.Some? ==> Inv(c, r.value) && Grows(s, r.value)
  {
    assert PcOk(c, s, s.procs[p]);
    if |stored| < |dir.files| && ino !in s.data {
      var expected := if dir.sealing then None else Some(dir.files[|stored|].1);
      OpenKeeps(c, s, p, Job(BlobTarget, expected, NextFile(dir, stored)), chunks, ino);
    }
  }

  lemma PutTreeKeeps(c: Codec, s: State, p: nat, dir: Bundle, ino: Ino)
    requires Inv(c, s) && p in s.procs && s.procs[p] == PutTree(dir)
    ensures var r := DirStep(c, s, p, Check(ino)); r.Some? ==> Inv(c, r.value) && Grows(s, r.value)
  {
    var m := ManifestOf(dir.files);
    assert PcOk(c, s, s.procs[p]);
    if !Stored(s, m) {
      MoveKeeps(c, s, p, Failed(Missing));
    } else if !c.safe(m) {
      MoveKeeps(c, s, p, Failed(BadTree));
    } else if ino !in s.data {
      assert Concat([c.encode(m)]) == c.encode(m) + [];
      OpenKeeps(c, s, p, Job(BlobTarget, None, TreeStored(dir)), [c.encode(m)], ino);
    }
  }

  lemma TotalsKeeps(c: Codec, s: State, p: nat, dir: Bundle, ino: Ino)
    requires GoodCodec(c) && Inv(c, s) && p in s.procs && s.procs[p] == Totals(dir)
    ensures var r := DirStep(c, s, p, Check(ino)); r.Some? ==> Inv(c, r.value) && Grows(s, r.value)
  {
    var m := ManifestOf(dir.files);
    assert PcOk(c, s, s.procs[p]);
    if Sha(c.encode(m)) != dir.hash {
      MoveKeeps(c, s, p, Failed(Mismatch));
    } else {
      SizesAreBytes(c, s, m, Sorted(m.Keys));
      RecordKeeps(c, s, p, Snapshot(Tree, dir.hash, SumSizes(s, m, Sorted(m.Keys)), |m|), ino);
    }
  }

  lemma DirKeeps(c: Codec, s: State, p: nat, a: Act)
    requires GoodCodec(c) && Inv(c, s) && p in s.procs && DirStep(c, s, p, a).Some?
    ensures Inv(c, DirStep(c, s, p, a).value) && Grows(s, DirStep(c, s, p, a).value)
  {
    assert PcOk(c, s, s.procs[p]);
    match s.procs[p]
    case Files(dir, stored) => FilesKeeps(c, s, p, dir, stored, a);
    case PutTree(dir) => PutTreeKeeps(c, s, p, dir, a.ino);
    case Totals(dir) => TotalsKeeps(c, s, p, dir, a.ino);
    case SizeOf(hash) =>
      BlobReads(c, s, hash);
      RecordKeeps(c, s, p, Snapshot(OneFile, hash, Size(s, hash), 1), a.ino);
    case _ =>
  }

  lemma ReadBundleIs(c: Codec, s: State, p: nat, dir: Bundle, ino: Ino) returns (pc: Pc)
    requires StoreOk(c, s) && p in s.procs && s.procs[p] == ReadBundle(dir)
    ensures SealStep(c, s, p, Check(ino)) == Some(Go(s, p, pc))
    ensures pc in [Failed(Missing), Failed(BadTree), Failed(Drift), CheckBundle(dir, 0)]
    ensures pc.CheckBundle? ==> dir.hash in s.blobs && c.decode(dir.hash.bytes) == Some(ManifestOf(dir.files))
  {
    BlobReads(c, s, dir.hash);
    var tree := c.decode(dir.hash.bytes);
    pc := if dir.hash !in s.blobs then Failed(Missing)
          else if tree.None? then Failed(BadTree)
          else if tree.value == ManifestOf(dir.files) then CheckBundle(dir, 0)
          else Failed(Drift);
  }

  lemma ReadBundleKeeps(c: Codec, s: State, p: nat, dir: Bundle, ino: Ino)
    requires Inv(c, s) && p in s.procs && s.procs[p] == ReadBundle(dir)
    ensures var r := SealStep(c, s, p, Check(ino)); r.Some? && Inv(c, r.value) && Grows(s, r.value)
  {
    var pc := ReadBundleIs(c, s, p, dir, ino);
    assert PcOk(c, s, pc) by { assert PcOk(c, s, s.procs[p]); }
    MoveKeeps(c, s, p, pc);
  }

  lemma CheckBundleStepIs(c: Codec, s: State, p: nat, dir: Bundle, done: nat, ino: Ino) returns (pc: Pc)
    requires StoreOk(c, s) && p in s.procs && s.procs[p] == CheckBundle(dir, done)
    ensures SealStep(c, s, p, Check(ino)) == Some(Go(s, p, pc))
    ensures pc == if done >= |dir.files| then ToSeal(dir)
                  else if dir.files[done].1 in s.blobs then CheckBundle(dir, done + 1) else Failed(Missing)
  {
    pc := if done >= |dir.files| then ToSeal(dir)
          else if dir.files[done].1 in s.blobs then CheckBundle(dir, done + 1) else Failed(Missing);
    if done < |dir.files| { BlobReads(c, s, dir.files[done].1); }
  }

  lemma CheckBundleKeeps(c: Codec, s: State, p: nat, dir: Bundle, done: nat, ino: Ino)
    requires Inv(c, s) && p in s.procs && s.procs[p] == CheckBundle(dir, done)
    ensures var r := SealStep(c, s, p, Check(ino)); r.Some? && Inv(c, r.value) && Grows(s, r.value)
  {
    var pc := CheckBundleStepIs(c, s, p, dir, done, ino);
    assert PcOk(c, s, pc) by {
      assert PcOk(c, s, s.procs[p]);
      if done >= |dir.files| { FilesAreManifest(s, dir.files); }
    }
    MoveKeeps(c, s, p, pc);
  }

  lemma CommitKeeps(c: Codec, s: State, p: nat, dir: Bundle)
    requires Inv(c, s) && p in s.procs && s.procs[p] == ToSeal(dir)
    ensures var t := Go(s.(sealed := s.sealed + {(ManifestOf(dir.files), dir.hash)}), p, Finished);
      Inv(c, t) && Grows(s, t)
  {
    assert PcOk(c, s, s.procs[p]);
    CommitStores(c, s, p, ManifestOf(dir.files), dir.hash);
    InvStays(c, s, Go(s.(sealed := s.sealed + {(ManifestOf(dir.files), dir.hash)}), p, Finished), p);
  }

  lemma CommitStores(c: Codec, s: State, p: nat, m: Manifest, hash: BlobDigest)
    requires StoreOk(c, s) && p in s.procs && InoOf(s.procs[p]).None? && SealedOk(c, s, m, hash)
    ensures var t := Go(s.(sealed := s.sealed + {(m, hash)}), p, Finished);
      Grows(s, t) && OnlyMoves(s, t, p) && StoreOk(c, t)
  {
    StoreStays(c, s, Go(s.(sealed := s.sealed + {(m, hash)}), p, Finished));
  }

  lemma SealKeeps(c: Codec, s: State, p: nat, a: Act)
    requires Inv(c, s) && p in s.procs && SealStep(c, s, p, a).Some?
    ensures Inv(c, SealStep(c, s, p, a).value) && Grows(s, SealStep(c, s, p, a).value)
  {
    match s.procs[p]
    case ReadBundle(dir) => ReadBundleKeeps(c, s, p, dir, a.ino);
    case CheckBundle(dir, done) => CheckBundleKeeps(c, s, p, dir, done, a.ino);
    case ToSeal(dir) => CommitKeeps(c, s, p, dir);
    case _ =>
  }

  lemma StepKeeps(c: Codec, s: State, p: nat, a: Act)
    requires GoodCodec(c) && Inv(c, s) && Admissible(c, a) && Step(c, s, p, a).Some?
    ensures Inv(c, Step(c, s, p, a).value) && Grows(s, Step(c, s, p, a).value)
  {
    if p !in s.procs {
      StartKeeps(c, s, p, a);
    } else if a.Crash? {
      MoveKeeps(c, s, p, Crashed);
    } else if s.procs[p].Writing? {
      WriteKeeps(c, s, p, a);
    } else if Installing(s.procs[p]) {
      InstallKeeps(c, s, p, a);
    } else if s.procs[p].CheckSnapshot? || s.procs[p].SumTree? {
      SnapshotKeeps(c, s, p, a.ino);
    } else if s.procs[p].ReadBundle? || s.procs[p].CheckBundle? || s.procs[p].ToSeal? {
      SealKeeps(c, s, p, a);
    } else {
      DirKeeps(c, s, p, a);
    }
  }

  lemma {:induction false} RunKeeps(c: Codec, start: State, moves: seq<Move>)
    requires GoodCodec(c) && Inv(c, start) && AfterMoves(c, start, moves).Some?
    ensures Inv(c, AfterMoves(c, start, moves).value)
  {
    if moves != [] {
      RunKeeps(c, start, moves[..|moves| - 1]);
      var before, m := AfterMoves(c, start, moves[..|moves| - 1]).value, moves[|moves| - 1];
      StepKeeps(c, before, m.p, m.act);
    }
  }

  lemma EmptyIsOk(c: Codec)
    ensures Inv(c, EMPTY)
  {
  }

  lemma ReachableIsOk(c: Codec, s: State)
    requires GoodCodec(c) && Reachable(c, s)
    ensures Inv(c, s)
  {
    var moves: seq<Move> :| AfterMoves(c, EMPTY, moves) == Some(s);
    EmptyIsOk(c);
    RunKeeps(c, EMPTY, moves);
  }

  // ---- Theorems ----------------------------------------------------------

  /** Every blob published under a digest holds bytes with that digest, every
      snapshot record describes content wholly present, and every sealed record's
      tree and files are present. */
  lemma PublishedIsComplete(c: Codec, s: State)
    requires GoodCodec(c) && Reachable(c, s)
    ensures StoreOk(c, s)
  {
    ReachableIsOk(c, s);
  }

  /** No step and no crash of a process removes or changes anything published. */
  lemma PublishedNeverChanges(c: Codec, s: State, p: nat, a: Act)
    requires GoodCodec(c) && Reachable(c, s) && Admissible(c, a) && Step(c, s, p, a).Some?
    ensures forall d :: d in s.blobs ==>
      d in Step(c, s, p, a).value.blobs && ReadBlob(Step(c, s, p, a).value, d) == ReadBlob(s, d) == Ok(d.bytes)
    ensures forall k :: k in s.snaps ==> k in Step(c, s, p, a).value.snaps && Step(c, s, p, a).value.snaps[k] == s.snaps[k]
    ensures s.sealed <= Step(c, s, p, a).value.sealed
  {
    ReachableIsOk(c, s);
    StepKeeps(c, s, p, a);
    var t := Step(c, s, p, a).value;
    forall d | d in s.blobs ensures d in t.blobs && ReadBlob(t, d) == ReadBlob(s, d) == Ok(d.bytes) {
      BlobReads(c, s, d);
      BlobReads(c, t, d);
    }
  }

  function Verified(pc: Pc): Pc
    requires pc.Existing?
  {
    Dropping(pc.job, pc.ino, pc.digest, None)
  }

  /** Writers of equal content never conflict: a publication fails only for a wrong
      expected digest or an error while writing, and a later verification always
      finds what the writer itself wrote. */
  lemma WritersNeverConflict(c: Codec, s: State, p: nat)
    requires GoodCodec(c) && Reachable(c, s) && p in s.procs
    ensures s.procs[p] != Failed(Conflict)
    ensures s.procs[p].Dropping? ==> s.procs[p].problem in [None, Some(Mismatch), Some(Io)]
    ensures s.procs[p].Existing? ==> Step(c, s, p, VerifyExisting) == Some(Go(s, p, Verified(s.procs[p])))
  {
    ReachableIsOk(c, s);
    assert PcOk(c, s, s.procs[p]);
    if s.procs[p].Existing? { VerifyKeeps(c, s, p, s.procs[p].job, s.procs[p].ino, s.procs[p].digest); }
  }

  /** A put that ends well has published what it was given: its digest reads back as the
      bytes it hashed, and is the one expected; a record reads back as the record. */
  lemma EndedPutIsPublished(c: Codec, s: State, p: nat)
    requires GoodCodec(c) && Reachable(c, s) && p in s.procs && s.procs[p].Dropping? && s.procs[p].problem.None?
    ensures var job, digest := s.procs[p].job, s.procs[p].digest;
      && (job.expected.Some? ==> digest == job.expected.value)
      && match job.target
         case BlobTarget => ReadBlob(s, digest) == Ok(digest.bytes)
         case SnapTarget(snap) => IsRecorded(s, snap)
  {
    ReachableIsOk(c, s);
    var job, digest := s.procs[p].job, s.procs[p].digest;
    assert PcOk(c, s, s.procs[p]);
    match job.target
    case BlobTarget => BlobReads(c, s, digest);
    case SnapTarget(snap) => RecordedIs(c, s, snap);
  }

  ghost predicate IsRecorded(s: State, snap: Snapshot) {
    var k := (snap.kind, snap.digest);
    k in s.snaps && s.snaps[k] in s.data && s.data[s.snaps[k]] == Record(snap)
  }

  lemma RecordedIs(c: Codec, s: State, snap: Snapshot)
    requires StoreOk(c, s) && Accurate(c, s, snap) && (snap.kind, snap.digest) in s.snaps
    ensures IsRecorded(s, snap)
  {
    assert SnapOk(c, s, (snap.kind, snap.digest));
    AccurateIsUnique(c, s, snap, s.data[s.snaps[(snap.kind, snap.digest)]].snap);
  }
}
