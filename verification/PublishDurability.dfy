/**
 Power loss (stele/archive/store.py). File data is fsynced before it is linked, but a
 name is durable only once its shard directory is synced, a shard only once its parent
 is, and so on up to the archive's root. The writer that links a name syncs the shard,
 and the writer that made a shard syncs its parent. No writer syncs anything further up,
 and one that finds a name or a shard already there waits for nobody. The history of a
 run says what has been synced, and so exactly what a power failure can take.
 */
module PublishDurability {
  import opened Publish
  import opened PublishSafety
  import opened Seqs
  import opened Wrappers

  ghost function Names(s: State): set<Name> {
    (set d | d in s.blobs :: BlobName(d)) + (set k | k in s.snaps :: SnapName(k.0, k.1))
  }

  /** A directory and those above it, below the root. */
  function Chain(dir: Dir): set<Dir> {
    match dir
    case BlobsDir => {BlobsDir}
    case MetaDir => {MetaDir}
    case SnapshotsDir => {SnapshotsDir, MetaDir}
    case KindDir(kind) => {KindDir(kind), SnapshotsDir, MetaDir}
    case Shard(base, _) => if base.Blobs? then {dir, BlobsDir} else {dir, KindDir(base.kind), SnapshotsDir, MetaDir}
  }

  function Depth(dir: Dir): nat {
    match dir
    case BlobsDir => 0
    case MetaDir => 0
    case SnapshotsDir => 1
    case KindDir(_) => 2
    case Shard(_, _) => 3
  }

  /** The names and directories whose entries have been synced, and whether a sync was
      ever left out: by a crash, an error, or a file system that cannot do it. */
  datatype Durable = Durable(names: set<Name>, dirs: set<Dir>, lapsed: bool)

  /** A sync left out, or a crash that may have come before one. */
  predicate Lapses(a: Act) { a.Crash? || a.SkipSync? || a.SyncFails? }

  /** Syncing a directory makes durable every entry it holds at that moment. */
  ghost function Sync(c: Codec, h: Durable, s: State, p: nat, a: Act): Durable {
    if p !in s.procs then h
    else if Lapses(a) then h.(lapsed := true)
    else
      match (s.procs[p], a)
      case (MadeDir(job, _, digest), SyncParent) =>
        h.(dirs := h.dirs + set dir | dir in s.dirs && dir.Shard? && dir.base == BaseOf(NameOf(job, digest)))
      case (Linked(job, _, digest), SyncDir) =>
        h.(names := h.names + set n | n in Names(s) && DirOf(c, n) == DirOf(c, NameOf(job, digest)))
      case (_, _) => h
  }

  ghost function DurableAfter(c: Codec, h: Durable, start: State, moves: seq<Move>): Durable {
    if moves == [] then h
    else
      var front, m := moves[..|moves| - 1], moves[|moves| - 1];
      var before, g := AfterMoves(c, start, front), DurableAfter(c, h, start, front);
      if before.Some? then Sync(c, g, before.value, m.p, m.act) else g
  }

  // ---- What is not durable yet has an owner ------------------------------

  predicate Owes(c: Codec, pc: Pc, n: Name) { pc.Linked? && NameOf(pc.job, pc.digest) == n }

  predicate OwesDir(c: Codec, pc: Pc, dir: Dir) { pc.MadeDir? && DirOf(c, NameOf(pc.job, pc.digest)) == dir }

  /** A name is durable in its shard, or the writer that linked it is about to sync, or
      some sync was left out. */
  ghost predicate NameCovered(c: Codec, h: Durable, s: State, n: Name) {
    n in h.names || h.lapsed || exists q :: q in s.procs && Owes(c, s.procs[q], n)
  }

  ghost predicate ShardCovered(c: Codec, h: Durable, s: State, dir: Dir) {
    dir in h.dirs || h.lapsed || exists q :: q in s.procs && OwesDir(c, s.procs[q], dir)
  }

  predicate PastDir(pc: Pc) { pc.MadeDir? || pc.HasDir? || pc.Absent? || pc.Existing? || pc.Linked? }

  ghost predicate UpClosed(dirs: set<Dir>) { forall dir :: dir in dirs ==> Chain(dir) <= dirs }

  ghost predicate DirsOk(c: Codec, h: Durable, s: State) {
    && h.names <= Names(s) && h.dirs <= s.dirs && LAYOUT <= s.dirs && UpClosed(s.dirs)
    && (forall n :: n in Names(s) ==> DirOf(c, n) in s.dirs && NameCovered(c, h, s, n))
    && (forall dir :: dir in s.dirs && dir.Shard? ==> ShardCovered(c, h, s, dir))
    && (forall q :: q in s.procs && PastDir(s.procs[q]) ==> DirOf(c, NameOf(s.procs[q].job, s.procs[q].digest)) in s.dirs)
  }

  /** Process p stepped from s to t and the history went from h to g: nothing is lost, what
      p owed is synced or given up, and what is new p owes. */
  ghost predicate Carried(c: Codec, h: Durable, g: Durable, s: State, t: State, p: nat) {
    && p in t.procs && t.procs == s.procs[p := t.procs[p]]
    && h.names <= g.names && h.dirs <= g.dirs && (h.lapsed ==> g.lapsed)
    && g.names <= Names(t) && g.dirs <= t.dirs && Names(s) <= Names(t) && s.dirs <= t.dirs && UpClosed(t.dirs)
    && (p in s.procs && !g.lapsed ==>
          && (s.procs[p].Linked? ==> NameOf(s.procs[p].job, s.procs[p].digest) in g.names)
          && (s.procs[p].MadeDir? ==> DirOf(c, NameOf(s.procs[p].job, s.procs[p].digest)) in g.dirs))
    && (forall n :: n in Names(t) && n !in Names(s) ==> Owes(c, t.procs[p], n) && DirOf(c, n) in t.dirs)
    && (forall dir :: dir in t.dirs && dir !in s.dirs && dir.Shard? ==> OwesDir(c, t.procs[p], dir))
    && (PastDir(t.procs[p]) ==> DirOf(c, NameOf(t.procs[p].job, t.procs[p].digest)) in t.dirs)
  }

  lemma CarriedCovers(c: Codec, h: Durable, g: Durable, s: State, t: State, p: nat)
    requires DirsOk(c, h, s) && Carried(c, h, g, s, t, p)
    ensures DirsOk(c, g, t)
  {
    forall n | n in Names(t) ensures DirOf(c, n) in t.dirs && NameCovered(c, g, t, n) { NameCarried(c, h, g, s, t, p, n); }
    forall dir | dir in t.dirs && dir.Shard? ensures ShardCovered(c, g, t, dir) { ShardCarried(c, h, g, s, t, p, dir); }
  }

  lemma NameCarried(c: Codec, h: Durable, g: Durable, s: State, t: State, p: nat, n: Name)
    requires DirsOk(c, h, s) && Carried(c, h, g, s, t, p) && n in Names(t)
    ensures DirOf(c, n) in t.dirs && NameCovered(c, g, t, n)
  {
    if n in Names(s) {
      assert NameCovered(c, h, s, n);
      if n !in g.names && !g.lapsed {
        var q :| q in s.procs && Owes(c, s.procs[q], n);
        assert q in t.procs && Owes(c, t.procs[q], n);
      }
    } else {
      assert p in t.procs && Owes(c, t.procs[p], n);
    }
  }

  lemma ShardCarried(c: Codec, h: Durable, g: Durable, s: State, t: State, p: nat, dir: Dir)
    requires DirsOk(c, h, s) && Carried(c, h, g, s, t, p) && dir in t.dirs && dir.Shard?
    ensures ShardCovered(c, g, t, dir)
  {
    if dir in s.dirs {
      assert ShardCovered(c, h, s, dir);
      if dir !in g.dirs && !g.lapsed {
        var q :| q in s.procs && OwesDir(c, s.procs[q], dir);
        assert q in t.procs && OwesDir(c, t.procs[q], dir);
      }
    } else {
      assert p in t.procs && OwesDir(c, t.procs[p], dir);
    }
  }

  // ---- Every step --------------------------------------------------------

  /** A step that publishes nothing, makes no directory and syncs none. */
  ghost predicate Plain(s: State, t: State, p: nat) {
    && p in t.procs && t.procs == s.procs[p := t.procs[p]]
    && t.blobs == s.blobs && t.snaps == s.snaps && t.dirs == s.dirs
    && (p in s.procs ==> !s.procs[p].Linked? && !s.procs[p].MadeDir?)
  }

  lemma PlainCovers(c: Codec, h: Durable, s: State, t: State, p: nat)
    requires DirsOk(c, h, s) && Plain(s, t, p)
    requires PastDir(t.procs[p]) ==> DirOf(c, NameOf(t.procs[p].job, t.procs[p].digest)) in s.dirs
    ensures DirsOk(c, h, t)
  {
    assert Names(t) == Names(s);
    CarriedCovers(c, h, h, s, t, p);
  }

  /** A step that only moves p on, after which the history counts a lapse. */
  lemma LapseCovers(c: Codec, h: Durable, s: State, p: nat, pc: Pc)
    requires DirsOk(c, h, s) && p in s.procs
    requires PastDir(pc) ==> PastDir(s.procs[p]) && pc.job == s.procs[p].job && pc.digest == s.procs[p].digest
    ensures DirsOk(c, h.(lapsed := true), Go(s, p, pc))
  {
    var t := Go(s, p, pc);
    assert Names(t) == Names(s);
    CarriedCovers(c, h, h.(lapsed := true), s, t, p);
  }

  lemma MakeDirCovers(c: Codec, h: Durable, s: State, p: nat, job: Job, ino: Ino, digest: BlobDigest)
    requires DirsOk(c, h, s) && p in s.procs && s.procs[p] == Closed(job, ino, digest)
    ensures var dir := DirOf(c, NameOf(job, digest));
      DirsOk(c, h, Go(s.(dirs := s.dirs + {dir, BaseDir(dir.base)}), p, MadeDir(job, ino, digest)))
  {
    var dir := DirOf(c, NameOf(job, digest));
    var t := Go(s.(dirs := s.dirs + {dir, BaseDir(dir.base)}), p, MadeDir(job, ino, digest));
    assert Names(t) == Names(s);
    MadeIsClosed(s.dirs, dir);
    CarriedCovers(c, h, h, s, t, p);
  }

  lemma MadeIsClosed(dirs: set<Dir>, dir: Dir)
    requires UpClosed(dirs) && LAYOUT <= dirs && dir.Shard?
    ensures UpClosed(dirs + {dir, BaseDir(dir.base)})
  {
  }

  lemma SyncParentCovers(c: Codec, h: Durable, s: State, p: nat, job: Job, ino: Ino, digest: BlobDigest)
    requires DirsOk(c, h, s) && p in s.procs && s.procs[p] == MadeDir(job, ino, digest)
    ensures DirsOk(c, Sync(c, h, s, p, SyncParent), Go(s, p, HasDir(job, ino, digest)))
  {
    var t := Go(s, p, HasDir(job, ino, digest));
    assert Names(t) == Names(s);
    CarriedCovers(c, h, Sync(c, h, s, p, SyncParent), s, t, p);
  }

  lemma SyncDirCovers(c: Codec, h: Durable, s: State, p: nat, job: Job, ino: Ino, digest: BlobDigest)
    requires StoreHas(s, NameOf(job, digest))
    requires DirsOk(c, h, s) && p in s.procs && s.procs[p] == Linked(job, ino, digest)
    ensures DirsOk(c, Sync(c, h, s, p, SyncDir), Go(s, p, Dropping(job, ino, digest, None)))
  {
    var t := Go(s, p, Dropping(job, ino, digest, None));
    assert Names(t) == Names(s);
    CarriedCovers(c, h, Sync(c, h, s, p, SyncDir), s, t, p);
  }

  ghost predicate StoreHas(s: State, n: Name) { n in Names(s) }

  /** A linked name is published: that is part of the store's invariant. */
  lemma LinkedIsThere(c: Codec, s: State, p: nat)
    requires Inv(c, s) && p in s.procs && s.procs[p].Linked?
    ensures StoreHas(s, NameOf(s.procs[p].job, s.procs[p].digest))
  {
    assert PcOk(c, s, s.procs[p]) && FinalOf(s, s.procs[p].job, s.procs[p].digest).Some?;
  }

  /** t is s with one more name, linked by p. */
  ghost predicate NewName(s: State, t: State, p: nat) {
    && p in s.procs && s.procs[p].Absent?
    && t.procs == s.procs[p := Linked(s.procs[p].job, s.procs[p].ino, s.procs[p].digest)]
    && t.dirs == s.dirs && Names(t) == Names(s) + {NameOf(s.procs[p].job, s.procs[p].digest)}
  }

  lemma LinkIsNewName(c: Codec, s: State, t: State, p: nat)
    requires p in s.procs && s.procs[p].Absent? && FinalOf(s, s.procs[p].job, s.procs[p].digest).None?
    requires InstallStep(c, s, p, Link) == Some(t)
    ensures NewName(s, t, p)
  {
    var job, digest := s.procs[p].job, s.procs[p].digest;
    forall n ensures n in Names(t) <==> n in Names(s) || n == NameOf(job, digest) {
    }
  }

  lemma NewNameCovers(c: Codec, h: Durable, s: State, t: State, p: nat)
    requires DirsOk(c, h, s) && NewName(s, t, p)
    ensures DirsOk(c, h, t)
  {
    CarriedCovers(c, h, h, s, t, p);
  }

  lemma MadeCovers(c: Codec, h: Durable, s: State, t: State, p: nat, a: Act)
    requires DirsOk(c, h, s) && p in s.procs && s.procs[p].MadeDir? && !a.Crash? && InstallStep(c, s, p, a) == Some(t)
    ensures DirsOk(c, Sync(c, h, s, p, a), t)
  {
    var job, ino, digest := s.procs[p].job, s.procs[p].ino, s.procs[p].digest;
    if a.SyncParent? {
      SyncParentCovers(c, h, s, p, job, ino, digest);
    } else if a.SkipSync? {
      LapseCovers(c, h, s, p, HasDir(job, ino, digest));
    } else {
      LapseCovers(c, h, s, p, Dropping(job, ino, digest, Some(Io)));
    }
  }

  lemma LinkedCovers(c: Codec, h: Durable, s: State, t: State, p: nat, a: Act)
    requires Inv(c, s) && DirsOk(c, h, s) && p in s.procs && s.procs[p].Linked? && !a.Crash? && InstallStep(c, s, p, a) == Some(t)
    ensures DirsOk(c, Sync(c, h, s, p, a), t)
  {
    var job, ino, digest := s.procs[p].job, s.procs[p].ino, s.procs[p].digest;
    if a.SyncDir? {
      LinkedIsThere(c, s, p);
      SyncDirCovers(c, h, s, p, job, ino, digest);
    } else {
      LapseCovers(c, h, s, p, Dropping(job, ino, digest, if a.SkipSync? then None else Some(Io)));
    }
  }

  /** The steps of a put that neither make, sync nor link anything. */
  lemma OnwardCovers(c: Codec, h: Durable, s: State, t: State, p: nat, a: Act)
    requires DirsOk(c, h, s) && p in s.procs && !a.Crash? && InstallStep(c, s, p, a) == Some(t)
    requires s.procs[p].HasDir? || s.procs[p].Existing? || s.procs[p].Dropping?
    ensures DirsOk(c, Sync(c, h, s, p, a), t)
  {
    PlainCovers(c, h, s, t, p);
  }

  lemma FindDirCovers(c: Codec, h: Durable, s: State, t: State, p: nat, a: Act)
    requires DirsOk(c, h, s) && p in s.procs && s.procs[p].Closed? && !a.Crash? && InstallStep(c, s, p, a) == Some(t)
    ensures DirsOk(c, Sync(c, h, s, p, a), t)
  {
    if a.missing {
      MakeDirCovers(c, h, s, p, s.procs[p].job, s.procs[p].ino, s.procs[p].digest);
    } else {
      PlainCovers(c, h, s, t, p);
    }
  }

  lemma LinkCovers(c: Codec, h: Durable, s: State, t: State, p: nat, a: Act)
    requires DirsOk(c, h, s) && p in s.procs && s.procs[p].Absent? && !a.Crash? && InstallStep(c, s, p, a) == Some(t)
    ensures DirsOk(c, Sync(c, h, s, p, a), t)
  {
    if FinalOf(s, s.procs[p].job, s.procs[p].digest).None? {
      LinkIsNewName(c, s, t, p);
      NewNameCovers(c, h, s, t, p);
    } else {
      PlainCovers(c, h, s, t, p);
    }
  }

  lemma InstallCovers(c: Codec, h: Durable, s: State, t: State, p: nat, a: Act)
    requires Inv(c, s) && DirsOk(c, h, s) && p in s.procs && Installing(s.procs[p]) && !a.Crash? && InstallStep(c, s, p, a) == Some(t)
    ensures DirsOk(c, Sync(c, h, s, p, a), t)
  {
    match s.procs[p]
    case Closed(_, _, _) => FindDirCovers(c, h, s, t, p, a);
    case MadeDir(_, _, _) => MadeCovers(c, h, s, t, p, a);
    case Absent(_, _, _) => LinkCovers(c, h, s, t, p, a);
    case Linked(_, _, _) => LinkedCovers(c, h, s, t, p, a);
    case _ => OnwardCovers(c, h, s, t, p, a);
  }

  lemma StartIsPlain(s: State, t: State, p: nat, a: Act)
    requires p !in s.procs && StartStep(s, p, a) == Some(t)
    ensures Plain(s, t, p) && !PastDir(t.procs[p])
  {
  }

  lemma WriteIsPlain(s: State, t: State, p: nat, a: Act)
    requires p in s.procs && s.procs[p].Writing? && WriteStep(s, p, a) == Some(t)
    ensures Plain(s, t, p) && !PastDir(t.procs[p])
  {
  }

  lemma OtherStepIsPlain(c: Codec, s: State, t: State, p: nat, a: Act)
    requires Step(c, s, p, a) == Some(t) && (p in s.procs ==> !a.Crash? && !Installing(s.procs[p]))
    ensures Plain(s, t, p) && !PastDir(t.procs[p]) && forall h :: Sync(c, h, s, p, a) == h
  {
    if p !in s.procs {
      StartIsPlain(s, t, p, a);
    } else if s.procs[p].Writing? {
      WriteIsPlain(s, t, p, a);
    } else if s.procs[p].CheckSnapshot? || s.procs[p].SumTree? {
      SnapshotIsPlain(c, s, t, p, a.ino);
    } else if s.procs[p].ReadBundle? || s.procs[p].CheckBundle? || s.procs[p].ToSeal? {
      SealIsPlain(c, s, t, p, a);
    } else {
      DirIsPlain(c, s, t, p, a);
    }
  }

  lemma OpenIsPlain(s: State, p: nat, job: Job, chunks: seq<Bytes>, ino: Ino)
    requires p in s.procs ==> !s.procs[p].Linked? && !s.procs[p].MadeDir?
    ensures Open(s, p, job, chunks, ino).Some? ==>
      Plain(s, Open(s, p, job, chunks, ino).value, p) && Open(s, p, job, chunks, ino).value.procs[p].Writing?
  {
  }

  lemma SumIsPlain(c: Codec, s: State, t: State, p: nat, ino: Ino)
    requires p in s.procs && s.procs[p].SumTree? && SnapshotStep(c, s, p, ino) == Some(t)
    ensures Plain(s, t, p) && !PastDir(t.procs[p])
  {
    OpenIsPlain(s, p, Job(SnapTarget(s.procs[p].snap), None, Return), [[]], ino);
  }

  lemma SnapshotIsPlain(c: Codec, s: State, t: State, p: nat, ino: Ino)
    requires p in s.procs && SnapshotStep(c, s, p, ino) == Some(t)
    ensures Plain(s, t, p) && !PastDir(t.procs[p])
  {
    match s.procs[p]
    case CheckSnapshot(snap) => CheckIsPlain(c, s, t, p, snap, ino);
    case SumTree(_, _, _, _) => SumIsPlain(c, s, t, p, ino);
  }

  lemma CheckIsPlain(c: Codec, s: State, t: State, p: nat, snap: Snapshot, ino: Ino)
    requires p in s.procs && s.procs[p] == CheckSnapshot(snap) && SnapshotStep(c, s, p, ino) == Some(t)
    ensures Plain(s, t, p) && !PastDir(t.procs[p])
  {
    OpenIsPlain(s, p, Job(SnapTarget(snap), None, Return), [[]], ino);
  }

  lemma SealIsPlain(c: Codec, s: State, t: State, p: nat, a: Act)
    requires p in s.procs && SealStep(c, s, p, a) == Some(t)
    ensures Plain(s, t, p) && !PastDir(t.procs[p])
  {
  }

  lemma FilesIsPlain(c: Codec, s: State, t: State, p: nat, a: Act)
    requires p in s.procs && s.procs[p].Files? && DirStep(c, s, p, a) == Some(t)
    ensures Plain(s, t, p) && !PastDir(t.procs[p])
  {
    var dir, stored := s.procs[p].dir, s.procs[p].stored;
    if a.StoreFile? {
      var expected := if dir.sealing then None else Some(dir.files[|stored|].1);
      OpenIsPlain(s, p, Job(BlobTarget, expected, NextFile(dir, stored)), a.chunks, a.ino);
    }
  }

  lemma PutTreeIsPlain(c: Codec, s: State, t: State, p: nat, a: Act)
    requires p in s.procs && s.procs[p].PutTree? && DirStep(c, s, p, a) == Some(t)
    ensures Plain(s, t, p) && !PastDir(t.procs[p])
  {
    var dir := s.procs[p].dir;
    OpenIsPlain(s, p, Job(BlobTarget, None, TreeStored(dir)), [c.encode(ManifestOf(dir.files))], a.ino);
  }

  lemma TotalsIsPlain(c: Codec, s: State, t: State, p: nat, a: Act)
    requires p in s.procs && s.procs[p].Totals? && DirStep(c, s, p, a) == Some(t)
    ensures Plain(s, t, p) && !PastDir(t.procs[p])
  {
    var dir := s.procs[p].dir;
    var m := ManifestOf(dir.files);
    OpenIsPlain(s, p, Job(SnapTarget(Snapshot(Tree, dir.hash, SumSizes(s, m, Sorted(m.Keys)), |m|)), None, Return), [[]], a.ino);
  }

  lemma DirIsPlain(c: Codec, s: State, t: State, p: nat, a: Act)
    requires p in s.procs && DirStep(c, s, p, a) == Some(t)
    ensures Plain(s, t, p) && !PastDir(t.procs[p])
  {
    match s.procs[p]
    case Files(_, _) => FilesIsPlain(c, s, t, p, a);
    case PutTree(_) => PutTreeIsPlain(c, s, t, p, a);
    case Totals(_) => TotalsIsPlain(c, s, t, p, a);
    case SizeOf(hash) =>
      OpenIsPlain(s, p, Job(SnapTarget(Snapshot(OneFile, hash, Size(s, hash), 1)), None, Return), [[]], a.ino);
  }

  lemma StepCovers(c: Codec, h: Durable, s: State, t: State, p: nat, a: Act)
    requires Inv(c, s) && DirsOk(c, h, s) && Step(c, s, p, a) == Some(t)
    ensures DirsOk(c, Sync(c, h, s, p, a), t)
  {
    if p in s.procs && a.Crash? {
      LapseCovers(c, h, s, p, Crashed);
    } else if p in s.procs && Installing(s.procs[p]) {
      InstallCovers(c, h, s, t, p, a);
    } else {
      OtherStepIsPlain(c, s, t, p, a);
      PlainCovers(c, h, s, t, p);
    }
  }

  /** A store from which a run may start: new, or found after a power failure. */
  ghost predicate Boots(c: Codec, h: Durable, start: State) { Inv(c, start) && DirsOk(c, h, start) && !h.lapsed }

  /** On a new store, some of the directories that opening it made may be durable. */
  lemma NewStoreBoots(c: Codec, laid: set<Dir>)
    requires laid <= LAYOUT
    ensures Boots(c, Durable({}, laid, false), EMPTY)
  {
    EmptyIsOk(c);
    assert Names(EMPTY) == {};
  }

  ghost predicate Ran(c: Codec, h: Durable, start: State, moves: seq<Move>, s: State) {
    GoodCodec(c) && Boots(c, h, start) && AfterMoves(c, start, moves) == Some(s)
  }

  lemma {:induction false} RunCovers(c: Codec, h: Durable, start: State, moves: seq<Move>, s: State)
    requires Ran(c, h, start, moves, s)
    ensures Inv(c, s) && DirsOk(c, DurableAfter(c, h, start, moves), s)
  {
    if moves != [] {
      var front, m := moves[..|moves| - 1], moves[|moves| - 1];
      var before := AfterMoves(c, start, front).value;
      RunCovers(c, h, start, front, before);
      StepKeeps(c, before, m.p, m.act);
      StepCovers(c, DurableAfter(c, h, start, front), before, s, m.p, m.act);
    }
  }

  /** No step syncs a directory above the bases, nor the entry of a base. */
  lemma {:induction false} OnlyShardsAreSynced(c: Codec, h: Durable, start: State, moves: seq<Move>)
    ensures forall dir: Dir :: !dir.Shard? ==> (dir in DurableAfter(c, h, start, moves).dirs <==> dir in h.dirs)
  {
    if moves != [] { OnlyShardsAreSynced(c, h, start, moves[..|moves| - 1]); }
  }

  // ---- What a power failure leaves ---------------------------------------

  /** Every process is gone. A directory whose entry was not synced may vanish with all
      below it, a name that was not synced may vanish, data that was not fsynced is
      arbitrary. Database commits are durable. */
  ghost predicate PowerLost(c: Codec, h: Durable, s: State, t: State) {
    && t.dirs <= s.dirs && UpClosed(t.dirs)
    && (forall dir :: dir in h.dirs && Chain(dir) - {dir} <= t.dirs ==> dir in t.dirs)
    && Names(t) <= Names(s)
    && (forall d :: d in t.blobs && d in s.blobs ==> t.blobs[d] == s.blobs[d])
    && (forall k :: k in t.snaps && k in s.snaps ==> t.snaps[k] == s.snaps[k])
    && (forall n :: n in Names(t) ==> DirOf(c, n) in t.dirs)
    && (forall n :: n in h.names && DirOf(c, n) in t.dirs ==> n in Names(t))
    && t.sealed == s.sealed && t.temps <= s.temps && t.synced == s.synced && t.data.Keys == s.data.Keys
    && (forall i :: i in s.synced && i in s.data ==> t.data[i] == s.data[i])
    && t.procs == map[]
  }

  /** Synced, with every directory on the way up to the root. */
  ghost predicate Sure(c: Codec, h: Durable, n: Name) { n in h.names && Chain(DirOf(c, n)) <= h.dirs }

  lemma ChainSurvives(c: Codec, h: Durable, s: State, t: State, dir: Dir)
    requires PowerLost(c, h, s, t) && Chain(dir) <= h.dirs
    ensures dir in t.dirs
    decreases Depth(dir)
  {
    if dir.SnapshotsDir? {
      ChainSurvives(c, h, s, t, MetaDir);
    } else if dir.KindDir? {
      ChainSurvives(c, h, s, t, MetaDir);
      ChainSurvives(c, h, s, t, SnapshotsDir);
    } else if dir.Shard? && dir.base.Blobs? {
      ChainSurvives(c, h, s, t, BlobsDir);
    } else if dir.Shard? {
      ChainSurvives(c, h, s, t, KindDir(dir.base.kind));
    }
  }

  lemma SureSurvives(c: Codec, h: Durable, s: State, t: State, n: Name)
    requires PowerLost(c, h, s, t) && Sure(c, h, n)
    ensures n in Names(t)
  {
    ChainSurvives(c, h, s, t, DirOf(c, n));
  }

  /** Blob d is content of a snapshot record or of a sealed ledger record. */
  ghost predicate Needed(c: Codec, s: State, d: BlobDigest) {
    || (exists k :: k in s.snaps && NeededBy(c, s, k, d))
    || (exists m, h :: (m, h) in s.sealed && (d == h || d in m.Values))
  }

  ghost predicate NeededBy(c: Codec, s: State, k: (SnapshotKind, BlobDigest), d: BlobDigest) {
    d == k.1 || (k.0 == Tree && c.decode(k.1.bytes).Some? && d in c.decode(k.1.bytes).value.Values)
  }

  lemma NameKept(s: State, d: BlobDigest)
    ensures BlobName(d) in Names(s) <==> d in s.blobs
  {
  }

  lemma RecordKept(s: State, k: (SnapshotKind, BlobDigest))
    ensures SnapName(k.0, k.1) in Names(s) <==> k in s.snaps
  {
  }

  /** The record of k is the one it was. */
  ghost predicate SameRecord(s: State, t: State, k: (SnapshotKind, BlobDigest)) {
    && k in s.snaps && k in t.snaps && s.snaps[k] in s.data && t.snaps[k] in t.data
    && t.data[t.snaps[k]] == s.data[s.snaps[k]]
  }

  lemma RecordSurvives(c: Codec, h: Durable, s: State, t: State, k: (SnapshotKind, BlobDigest))
    requires StoreOk(c, s) && PowerLost(c, h, s, t) && k in t.snaps
    ensures SameRecord(s, t, k)
  {
    RecordKept(s, k);
    RecordKept(t, k);
    assert SnapOk(c, s, k);
  }

  /** What survives is intact, and what was synced all the way up survives. */
  lemma SurvivorsAreIntact(c: Codec, h: Durable, start: State, moves: seq<Move>, s: State, t: State)
    requires Ran(c, h, start, moves, s) && PowerLost(c, DurableAfter(c, h, start, moves), s, t)
    ensures forall d :: d in t.blobs ==> d in s.blobs && ReadBlob(t, d) == Ok(d.bytes)
    ensures forall k :: k in t.snaps ==> SameRecord(s, t, k)
    ensures forall n :: Sure(c, DurableAfter(c, h, start, moves), n) ==> n in Names(t)
  {
    var g := DurableAfter(c, h, start, moves);
    RunCovers(c, h, start, moves, s);
    forall d | d in t.blobs ensures d in s.blobs && ReadBlob(t, d) == Ok(d.bytes) {
      NameKept(s, d);
      NameKept(t, d);
      BlobStays(c, g, s, t, d);
    }
    forall k | k in t.snaps ensures SameRecord(s, t, k) { RecordSurvives(c, g, s, t, k); }
    forall n | Sure(c, g, n) ensures n in Names(t) { SureSurvives(c, g, s, t, n); }
  }

  // ---- The failure that takes one name -----------------------------------

  /** A failure that takes the name n, and the directory `gone`, if any, with all below it. */
  ghost function Without(c: Codec, s: State, n: Name, gone: Option<Dir>): State {
    var kept := set dir | dir in s.dirs && (gone.None? || gone.value !in Chain(dir));
    s.(blobs := map d | d in s.blobs && BlobName(d) != n && DirOf(c, BlobName(d)) in kept :: s.blobs[d],
       snaps := map k | k in s.snaps && SnapName(k.0, k.1) != n && DirOf(c, SnapName(k.0, k.1)) in kept :: s.snaps[k],
       dirs := kept, procs := map[])
  }

  /** The first thing on the way from the root to n that was not synced. */
  ghost predicate Unsynced(c: Codec, h: Durable, n: Name, gone: Option<Dir>) {
    if gone.None? then n !in h.names else gone.value in Chain(DirOf(c, n)) && gone.value !in h.dirs
  }

  lemma NotSure(c: Codec, h: Durable, n: Name) returns (gone: Option<Dir>)
    requires !Sure(c, h, n)
    ensures Unsynced(c, h, n, gone)
  {
    if n !in h.names {
      gone := None;
    } else {
      var dir :| dir in Chain(DirOf(c, n)) && dir !in h.dirs;
      gone := Some(dir);
    }
  }

  lemma NamesWithout(c: Codec, s: State, n: Name, gone: Option<Dir>)
    ensures var t := Without(c, s, n, gone);
      forall m :: m in Names(t) <==> m in Names(s) && m != n && DirOf(c, m) in t.dirs
  {
    var t := Without(c, s, n, gone);
    forall m ensures m in Names(t) <==> m in Names(s) && m != n && DirOf(c, m) in t.dirs {
      match m
      case BlobName(d) => NameKept(s, d); NameKept(t, d);
      case SnapName(kind, d) => RecordKept(s, (kind, d)); RecordKept(t, (kind, d));
    }
  }

  lemma ChainsNest(dir: Dir, up: Dir)
    requires up in Chain(dir)
    ensures Chain(up) <= Chain(dir) && dir in Chain(dir)
  {
  }

  lemma WithoutIsClosed(c: Codec, s: State, n: Name, gone: Option<Dir>)
    requires UpClosed(s.dirs)
    ensures UpClosed(Without(c, s, n, gone).dirs)
  {
    var t := Without(c, s, n, gone);
    forall dir | dir in t.dirs ensures Chain(dir) <= t.dirs {
      forall up | up in Chain(dir) ensures up in t.dirs { ChainsNest(dir, up); }
    }
  }

  lemma WithoutKeepsSynced(c: Codec, h: Durable, s: State, n: Name, gone: Option<Dir>, dir: Dir)
    requires h.dirs <= s.dirs && Unsynced(c, h, n, gone) && dir in h.dirs && Chain(dir) - {dir} <= Without(c, s, n, gone).dirs
    ensures dir in Without(c, s, n, gone).dirs
  {
    if gone.Some? && gone.value in Chain(dir) {
      assert gone.value in Chain(dir) - {dir};
      ChainsNest(gone.value, gone.value);
    }
  }

  lemma WithoutIsPowerLoss(c: Codec, h: Durable, s: State, n: Name, gone: Option<Dir>)
    requires DirsOk(c, h, s) && n in Names(s) && Unsynced(c, h, n, gone)
    ensures PowerLost(c, h, s, Without(c, s, n, gone)) && n !in Names(Without(c, s, n, gone))
  {
    var t := Without(c, s, n, gone);
    NamesWithout(c, s, n, gone);
    WithoutIsClosed(c, s, n, gone);
    forall dir | dir in h.dirs && Chain(dir) - {dir} <= t.dirs ensures dir in t.dirs {
      WithoutKeepsSynced(c, h, s, n, gone, dir);
    }
    forall m | m in h.names && DirOf(c, m) in t.dirs ensures m in Names(t) {
      assert m in Names(s);
    }
  }

  /** Losing a blob, its shard or all blobs takes no record. */
  lemma RecordsStay(c: Codec, s: State, d: BlobDigest, gone: Option<Dir>)
    requires forall n :: n in Names(s) ==> DirOf(c, n) in s.dirs
    requires gone.Some? ==> gone.value in Chain(DirOf(c, BlobName(d)))
    ensures Without(c, s, BlobName(d), gone).snaps == s.snaps
  {
    var t := Without(c, s, BlobName(d), gone);
    forall k | k in s.snaps ensures k in t.snaps {
      RecordKept(s, k);
      assert DirOf(c, SnapName(k.0, k.1)) in s.dirs;
    }
  }

  // ---- When nothing is lost, and when nothing is left broken -------------

  /** Nothing published can be lost, whatever a power failure takes. */
  ghost predicate NothingCanGo(c: Codec, h: Durable, s: State) { forall t :: PowerLost(c, h, s, t) ==> Names(t) == Names(s) }

  lemma NothingCanGoIff(c: Codec, h: Durable, start: State, moves: seq<Move>, s: State)
    requires Ran(c, h, start, moves, s)
    ensures var g := DurableAfter(c, h, start, moves);
      NothingCanGo(c, g, s) <==> forall n :: n in Names(s) ==> Sure(c, g, n)
  {
    var g := DurableAfter(c, h, start, moves);
    RunCovers(c, h, start, moves, s);
    if forall n :: n in Names(s) ==> Sure(c, g, n) {
      forall t | PowerLost(c, g, s, t) ensures Names(t) == Names(s) {
        forall n | n in Names(s) ensures n in Names(t) { SureSurvives(c, g, s, t, n); }
      }
    } else {
      var n :| n in Names(s) && !Sure(c, g, n);
      var gone := NotSure(c, g, n);
      WithoutIsPowerLoss(c, g, s, n, gone);
    }
  }

  ghost predicate HarmlessPowerLoss(c: Codec, h: Durable, s: State) {
    forall t :: PowerLost(c, h, s, t) ==> StoreOk(c, t)
  }

  ghost predicate NeedsAreSure(c: Codec, h: Durable, s: State) {
    forall d :: Needed(c, s, d) ==> Sure(c, h, BlobName(d))
  }

  lemma NeededStays(c: Codec, h: Durable, s: State, t: State, d: BlobDigest)
    requires NeedsAreSure(c, h, s) && PowerLost(c, h, s, t) && Needed(c, s, d)
    ensures d in t.blobs
  {
    SureSurvives(c, h, s, t, BlobName(d));
    NameKept(t, d);
  }

  lemma SnapshotStays(c: Codec, h: Durable, s: State, t: State, k: (SnapshotKind, BlobDigest))
    requires StoreOk(c, s) && NeedsAreSure(c, h, s) && PowerLost(c, h, s, t) && k in t.snaps
    ensures SnapOk(c, t, k)
  {
    RecordKept(s, k);
    RecordKept(t, k);
    assert SnapOk(c, s, k);
    assert NeededBy(c, s, k, k.1);
    NeededStays(c, h, s, t, k.1);
    if k.0 == Tree {
      var tree := c.decode(k.1.bytes).value;
      forall q | q in tree ensures tree[q] in t.blobs {
        assert NeededBy(c, s, k, tree[q]);
        NeededStays(c, h, s, t, tree[q]);
      }
    }
  }

  lemma SealedStays(c: Codec, h: Durable, s: State, t: State, m: Manifest, hash: BlobDigest)
    requires StoreOk(c, s) && NeedsAreSure(c, h, s) && PowerLost(c, h, s, t) && (m, hash) in s.sealed
    ensures SealedOk(c, t, m, hash)
  {
    assert SealedOk(c, s, m, hash);
    assert Needed(c, s, hash);
    NeededStays(c, h, s, t, hash);
    forall q | q in m ensures m[q] in t.blobs {
      assert m[q] in m.Values;
      assert Needed(c, s, m[q]);
      NeededStays(c, h, s, t, m[q]);
    }
  }

  lemma BlobStays(c: Codec, h: Durable, s: State, t: State, d: BlobDigest)
    requires StoreOk(c, s) && PowerLost(c, h, s, t) && d in t.blobs
    ensures BlobOk(t, d)
  {
    NameKept(s, d);
    NameKept(t, d);
    assert BlobOk(s, d);
  }

  lemma NeededIsPublished(c: Codec, s: State, d: BlobDigest)
    requires StoreOk(c, s) && Needed(c, s, d)
    ensures d in s.blobs
  {
    if k :| k in s.snaps && NeededBy(c, s, k, d) {
      assert SnapOk(c, s, k);
    } else {
      var m, h :| (m, h) in s.sealed && (d == h || d in m.Values);
      assert SealedOk(c, s, m, h);
    }
  }

  lemma LossIsSeen(c: Codec, s: State, t: State, d: BlobDigest)
    requires Needed(c, s, d) && d !in t.blobs && t.snaps == s.snaps && t.sealed == s.sealed
    ensures !StoreOk(c, t)
  {
    NeedIsTheRecords(c, s, t, d);
    if StoreOk(c, t) { NeededIsPublished(c, t, d); }
  }

  lemma NeedIsTheRecords(c: Codec, s: State, t: State, d: BlobDigest)
    requires t.snaps == s.snaps && t.sealed == s.sealed && Needed(c, s, d)
    ensures Needed(c, t, d)
  {
    if k :| k in s.snaps && NeededBy(c, s, k, d) {
      assert k in t.snaps && NeededBy(c, t, k, d);
    }
  }

  /** The exact condition: whatever a power failure takes, every record left is complete,
      if and only if each blob that a snapshot or sealed record needs had its shard synced
      after it was linked, and its shard and the blobs directory are durable. */
  lemma PowerLossIsHarmlessIff(c: Codec, h: Durable, start: State, moves: seq<Move>, s: State)
    requires Ran(c, h, start, moves, s)
    ensures var g := DurableAfter(c, h, start, moves); HarmlessPowerLoss(c, g, s) <==> NeedsAreSure(c, g, s)
  {
    var g := DurableAfter(c, h, start, moves);
    RunCovers(c, h, start, moves, s);
    if NeedsAreSure(c, g, s) {
      forall t | PowerLost(c, g, s, t) ensures StoreOk(c, t) { SureIsHarmless(c, g, s, t); }
    } else {
      var d :| Needed(c, s, d) && !Sure(c, g, BlobName(d));
      UnsureIsHarmful(c, g, s, d);
    }
  }

  lemma SureIsHarmless(c: Codec, h: Durable, s: State, t: State)
    requires StoreOk(c, s) && NeedsAreSure(c, h, s) && PowerLost(c, h, s, t)
    ensures StoreOk(c, t)
  {
    forall d | d in t.blobs ensures BlobOk(t, d) { BlobStays(c, h, s, t, d); }
    forall k | k in t.snaps ensures SnapOk(c, t, k) { SnapshotStays(c, h, s, t, k); }
    forall m, hash | (m, hash) in t.sealed ensures SealedOk(c, t, m, hash) { SealedStays(c, h, s, t, m, hash); }
  }

  lemma UnsureIsHarmful(c: Codec, h: Durable, s: State, d: BlobDigest)
    requires StoreOk(c, s) && DirsOk(c, h, s) && Needed(c, s, d) && !Sure(c, h, BlobName(d))
    ensures !HarmlessPowerLoss(c, h, s)
  {
    NeededIsPublished(c, s, d);
    NameKept(s, d);
    var gone := NotSure(c, h, BlobName(d));
    var t := Without(c, s, BlobName(d), gone);
    WithoutIsPowerLoss(c, h, s, BlobName(d), gone);
    RecordsStay(c, s, d, gone);
    NameKept(t, d);
    LossIsSeen(c, s, t, d);
  }

  // ---- After the failure -------------------------------------------------

  /** The store is opened again, which makes the layout directories that are missing. */
  function Reopened(t: State): State { t.(dirs := t.dirs + LAYOUT) }

  /** After a power failure that did no harm runs start again, and everything found on the
      disk is durable: so these theorems hold over any number of failures. */
  lemma WritersGoOn(c: Codec, h: Durable, start: State, moves: seq<Move>, s: State, t: State)
    requires Ran(c, h, start, moves, s) && PowerLost(c, DurableAfter(c, h, start, moves), s, t) && StoreOk(c, t)
    ensures Boots(c, Durable(Names(t), t.dirs, false), Reopened(t))
  {
    RunCovers(c, h, start, moves, s);
    var found := Reopened(t);
    assert Names(found) == Names(t);
    assert StoreOk(c, found) by { ReopenedIsOk(c, t); }
  }

  lemma ReopenedIsOk(c: Codec, t: State)
    requires StoreOk(c, t)
    ensures StoreOk(c, Reopened(t))
  {
    var found := Reopened(t);
    forall d | d in found.blobs ensures BlobOk(found, d) { assert BlobOk(t, d); }
    forall k | k in found.snaps ensures SnapOk(c, found, k) { assert SnapOk(c, t, k); }
    forall m, h | (m, h) in found.sealed ensures SealedOk(c, found, m, h) { assert SealedOk(c, t, m, h); }
  }

  // ---- A store at rest ---------------------------------------------------

  ghost predicate AtRest(s: State) {
    forall q :: q in s.procs ==> s.procs[q].Finished? || s.procs[q].Failed?
  }

  lemma RestIsSynced(c: Codec, h: Durable, s: State, n: Name)
    requires DirsOk(c, h, s) && AtRest(s) && !h.lapsed && n in Names(s)
    ensures n in h.names && DirOf(c, n) in h.dirs
  {
    assert NameCovered(c, h, s, n) && ShardCovered(c, h, s, DirOf(c, n));
  }

  lemma ChainOfName(c: Codec, n: Name)
    ensures Chain(DirOf(c, n)) == {DirOf(c, n)} + Chain(BaseDir(BaseOf(n)))
    ensures forall dir :: dir in Chain(BaseDir(BaseOf(n))) ==> !dir.Shard?
  {
  }

  /** Exactly what is durable once every writer has come to its own end and no sync was
      left out: the names below a base directory that was durable before the run. Nothing
      a run does makes a base directory durable. */
  lemma AtRestIsDurableIff(c: Codec, h: Durable, start: State, moves: seq<Move>, s: State, n: Name)
    requires Ran(c, h, start, moves, s) && AtRest(s) && !DurableAfter(c, h, start, moves).lapsed && n in Names(s)
    ensures Sure(c, DurableAfter(c, h, start, moves), n) <==> Chain(BaseDir(BaseOf(n))) <= h.dirs
  {
    var g := DurableAfter(c, h, start, moves);
    RunCovers(c, h, start, moves, s);
    OnlyShardsAreSynced(c, h, start, moves);
    RestIsSynced(c, g, s, n);
    ChainOfName(c, n);
  }

  /** So at rest every record left after a power failure is complete exactly when the blobs
      directory was durable before, or no record needs a blob. */
  lemma AtRestIsHarmlessIff(c: Codec, h: Durable, start: State, moves: seq<Move>, s: State)
    requires Ran(c, h, start, moves, s) && AtRest(s) && !DurableAfter(c, h, start, moves).lapsed
    ensures HarmlessPowerLoss(c, DurableAfter(c, h, start, moves), s) <==> BlobsDir in h.dirs || forall d :: !Needed(c, s, d)
  {
    RunCovers(c, h, start, moves, s);
    PowerLossIsHarmlessIff(c, h, start, moves, s);
    forall d | Needed(c, s, d)
      ensures Sure(c, DurableAfter(c, h, start, moves), BlobName(d)) <==> BlobsDir in h.dirs
    {
      NeededIsPublished(c, s, d);
      NameKept(s, d);
      AtRestIsDurableIff(c, h, start, moves, s, BlobName(d));
    }
  }

  // ---- Runs that a power failure breaks ----------------------------------

  /** A run of a new store that left no sync out, and the names it has synced. */
  ghost predicate At(c: Codec, laid: set<Dir>, moves: seq<Move>, s: State, synced: set<Name>) {
    && AfterMoves(c, EMPTY, moves) == Some(s)
    && var g := DurableAfter(c, Durable({}, laid, false), EMPTY, moves);
       g.names == synced && !g.lapsed
  }

  lemma Onward(c: Codec, laid: set<Dir>, moves: seq<Move>, s: State, synced: set<Name>, p: nat, a: Act, t: State)
    returns (more: seq<Move>)
    requires At(c, laid, moves, s, synced) && Admissible(c, a) && Step(c, s, p, a) == Some(t) && !a.SyncDir? && !Lapses(a)
    ensures At(c, laid, more, t, synced)
  {
    more := moves + [Move(p, a)];
    assert more[..|more| - 1] == moves;
  }

  lemma Opens(c: Codec, laid: set<Dir>, moves: seq<Move>, s: State, synced: set<Name>, p: nat, a: Act, job: Job, chunks: seq<Bytes>, ino: Ino)
    returns (t: State, more: seq<Move>)
    requires At(c, laid, moves, s, synced) && Admissible(c, a) && ino !in s.data && !a.SyncDir? && !Lapses(a)
    requires Step(c, s, p, a) == Open(s, p, job, chunks, ino)
    ensures At(c, laid, more, t, synced)
    ensures t == Go(s.(data := s.data[ino := Raw([])], temps := s.temps + {ino}), p, Writing(job, ino, [], chunks))
  {
    t := Open(s, p, job, chunks, ino).value;
    more := Onward(c, laid, moves, s, synced, p, a, t);
  }

  lemma Closes(c: Codec, laid: set<Dir>, moves: seq<Move>, s: State, synced: set<Name>, p: nat, job: Job, ino: Ino) returns (t: State, more: seq<Move>)
    requires At(c, laid, moves, s, synced) && p in s.procs && s.procs[p] == Writing(job, ino, [], [])
    requires job.expected.None? || job.expected.value == Sha([])
    ensures At(c, laid, more, t, synced) && t == Go(s.(synced := s.synced + {ino}), p, Closed(job, ino, Sha([])))
  {
    t := Go(s.(synced := s.synced + {ino}), p, Closed(job, ino, Sha([])));
    more := Onward(c, laid, moves, s, synced, p, Close, t);
  }

  /** The shard is made and its parent synced. */
  lemma Makes(c: Codec, laid: set<Dir>, moves: seq<Move>, s: State, synced: set<Name>, p: nat, job: Job, ino: Ino, digest: BlobDigest)
    returns (t: State, more: seq<Move>)
    requires At(c, laid, moves, s, synced) && p in s.procs && s.procs[p] == Closed(job, ino, digest)
    ensures At(c, laid, more, t, synced)
    ensures t == Go(s.(dirs := s.dirs + {DirOf(c, NameOf(job, digest)), BaseDir(BaseOf(NameOf(job, digest)))}), p, HasDir(job, ino, digest))
  {
    var m := Go(s.(dirs := s.dirs + {DirOf(c, NameOf(job, digest)), BaseDir(BaseOf(NameOf(job, digest)))}), p, MadeDir(job, ino, digest));
    more := Onward(c, laid, moves, s, synced, p, FindDir(true), m);
    t, more := SyncsParent(c, laid, more, m, synced, p, job, ino, digest);
  }

  lemma SyncsParent(c: Codec, laid: set<Dir>, moves: seq<Move>, s: State, synced: set<Name>, p: nat, job: Job, ino: Ino, digest: BlobDigest)
    returns (t: State, more: seq<Move>)
    requires At(c, laid, moves, s, synced) && p in s.procs && s.procs[p] == MadeDir(job, ino, digest)
    ensures At(c, laid, more, t, synced) && t == Go(s, p, HasDir(job, ino, digest))
  {
    t := Go(s, p, HasDir(job, ino, digest));
    more := Onward(c, laid, moves, s, synced, p, SyncParent, t);
  }

  lemma Looks(c: Codec, laid: set<Dir>, moves: seq<Move>, s: State, synced: set<Name>, p: nat, job: Job, ino: Ino, digest: BlobDigest)
    returns (t: State, more: seq<Move>)
    requires At(c, laid, moves, s, synced) && p in s.procs && s.procs[p] == HasDir(job, ino, digest)
    ensures At(c, laid, more, t, synced)
    ensures t == Go(s, p, if FinalOf(s, job, digest).Some? then Existing(job, ino, digest) else Absent(job, ino, digest))
  {
    t := Go(s, p, if FinalOf(s, job, digest).Some? then Existing(job, ino, digest) else Absent(job, ino, digest));
    more := Onward(c, laid, moves, s, synced, p, Look, t);
  }

  lemma LinksBlob(c: Codec, laid: set<Dir>, moves: seq<Move>, s: State, synced: set<Name>, p: nat, job: Job, ino: Ino, digest: BlobDigest)
    returns (t: State, more: seq<Move>)
    requires At(c, laid, moves, s, synced) && p in s.procs && s.procs[p] == Absent(job, ino, digest)
    requires job.target.BlobTarget? && digest !in s.blobs
    ensures At(c, laid, more, t, synced) && t == Go(s.(blobs := s.blobs[digest := ino]), p, Linked(job, ino, digest))
  {
    t := Go(s.(blobs := s.blobs[digest := ino]), p, Linked(job, ino, digest));
    more := Onward(c, laid, moves, s, synced, p, Link, t);
  }

  lemma LinksRecord(c: Codec, laid: set<Dir>, moves: seq<Move>, s: State, synced: set<Name>, p: nat, job: Job, ino: Ino, digest: BlobDigest, snap: Snapshot)
    returns (t: State, more: seq<Move>)
    requires At(c, laid, moves, s, synced) && p in s.procs && s.procs[p] == Absent(job, ino, digest)
    requires job.target == SnapTarget(snap) && (snap.kind, snap.digest) !in s.snaps
    ensures At(c, laid, more, t, synced)
    ensures t == Go(s.(snaps := s.snaps[(snap.kind, snap.digest) := ino]), p, Linked(job, ino, digest))
  {
    t := Go(s.(snaps := s.snaps[(snap.kind, snap.digest) := ino]), p, Linked(job, ino, digest));
    more := Onward(c, laid, moves, s, synced, p, Link, t);
  }

  /** The shard is there already. */
  lemma HasShard(c: Codec, laid: set<Dir>, moves: seq<Move>, s: State, synced: set<Name>, p: nat, job: Job, ino: Ino, digest: BlobDigest)
    returns (t: State, more: seq<Move>)
    requires At(c, laid, moves, s, synced) && p in s.procs && s.procs[p] == Closed(job, ino, digest)
    requires DirOf(c, NameOf(job, digest)) in s.dirs
    ensures At(c, laid, more, t, synced) && t == Go(s, p, HasDir(job, ino, digest))
  {
    t := Go(s, p, HasDir(job, ino, digest));
    more := Onward(c, laid, moves, s, synced, p, FindDir(false), t);
  }

  /** The blob is there already, and its bytes hash to the digest. */
  lemma Verifies(c: Codec, laid: set<Dir>, moves: seq<Move>, s: State, synced: set<Name>, p: nat, job: Job, ino: Ino, digest: BlobDigest)
    returns (t: State, more: seq<Move>)
    requires At(c, laid, moves, s, synced) && p in s.procs && s.procs[p] == Existing(job, ino, digest) && job.target.BlobTarget?
    requires digest in s.blobs && s.blobs[digest] in s.data && s.data[s.blobs[digest]] == Raw(digest.bytes)
    ensures At(c, laid, more, t, synced) && t == Go(s, p, Dropping(job, ino, digest, None))
  {
    t := Go(s, p, Dropping(job, ino, digest, None));
    more := Onward(c, laid, moves, s, synced, p, VerifyExisting, t);
  }

  lemma Drops(c: Codec, laid: set<Dir>, moves: seq<Move>, s: State, synced: set<Name>, p: nat, job: Job, ino: Ino, digest: BlobDigest)
    returns (t: State, more: seq<Move>)
    requires At(c, laid, moves, s, synced) && p in s.procs && s.procs[p] == Dropping(job, ino, digest, None)
    ensures At(c, laid, more, t, synced) && t == Go(s.(temps := s.temps - {ino}), p, Continue(job.next, digest))
  {
    t := Go(s.(temps := s.temps - {ino}), p, Continue(job.next, digest));
    more := Onward(c, laid, moves, s, synced, p, Drop, t);
  }

  lemma Writes(c: Codec, laid: set<Dir>, moves: seq<Move>, s: State, synced: set<Name>, p: nat, job: Job, ino: Ino, snap: Snapshot)
    returns (t: State, more: seq<Move>)
    requires At(c, laid, moves, s, synced) && p in s.procs && s.procs[p] == Writing(job, ino, [], [[]])
    requires job.target == SnapTarget(snap) && ino in s.data
    ensures At(c, laid, more, t, synced) && t == Go(s.(data := s.data[ino := Record(snap)]), p, Writing(job, ino, [], []))
  {
    t := Go(s.(data := s.data[ino := Record(snap)]), p, Writing(job, ino, [], []));
    more := Onward(c, laid, moves, s, synced, p, Write, t);
  }

  /** The shard is synced: a name linked there is durable in it. */
  lemma SyncsShard(c: Codec, laid: set<Dir>, moves: seq<Move>, s: State, synced: set<Name>, p: nat, job: Job, ino: Ino, digest: BlobDigest)
    returns (t: State, more: seq<Move>, synced': set<Name>)
    requires At(c, laid, moves, s, synced) && p in s.procs && s.procs[p] == Linked(job, ino, digest)
    ensures At(c, laid, more, t, synced') && t == Go(s, p, Dropping(job, ino, digest, None))
  {
    t := Go(s, p, Dropping(job, ino, digest, None));
    more := moves + [Move(p, SyncDir)];
    assert more[..|more| - 1] == moves;
    synced' := DurableAfter(c, Durable({}, laid, false), EMPTY, more).names;
  }

  const EMPTY_FILE := Sha([])
  const PUT := Job(BlobTarget, None, Return)
  const INGEST := Job(BlobTarget, Some(EMPTY_FILE), FileStored(EMPTY_FILE))
  const RECORD := Snapshot(OneFile, EMPTY_FILE, 0, 1)
  const RECORDING := Job(SnapTarget(RECORD), None, Return)

  lemma BlobWritten(c: Codec, laid: set<Dir>) returns (s: State, moves: seq<Move>)
    ensures At(c, laid, moves, s, {}) && s.procs == map[0 := Closed(PUT, 0, EMPTY_FILE)] && s.data == map[0 := Raw([])]
    ensures s.blobs == map[] && s.snaps == map[]
  {
    s, moves := Opens(c, laid, [], EMPTY, {}, 0, StartPut([], None, 0), PUT, [], 0);
    s, moves := Closes(c, laid, moves, s, {}, 0, PUT, 0);
  }

  /** Writer 0 links the empty blob and has not yet synced its shard. */
  lemma BlobLinked(c: Codec, laid: set<Dir>) returns (s: State, moves: seq<Move>)
    ensures At(c, laid, moves, s, {}) && s.procs.Keys == {0} && s.data == map[0 := Raw([])]
    ensures s.blobs == map[EMPTY_FILE := 0] && s.snaps == map[] && DirOf(c, BlobName(EMPTY_FILE)) in s.dirs
  {
    s, moves := BlobWritten(c, laid);
    s, moves := Makes(c, laid, moves, s, {}, 0, PUT, 0, EMPTY_FILE);
    s, moves := Looks(c, laid, moves, s, {}, 0, PUT, 0, EMPTY_FILE);
    s, moves := LinksBlob(c, laid, moves, s, {}, 0, PUT, 0, EMPTY_FILE);
  }

  lemma BlobStaged(c: Codec, laid: set<Dir>) returns (s: State, moves: seq<Move>)
    ensures At(c, laid, moves, s, {}) && 1 in s.procs && s.procs[1] == Closed(INGEST, 1, EMPTY_FILE) && s.data.Keys == {0, 1}
    ensures s.blobs == map[EMPTY_FILE := 0] && s.data[0] == Raw([]) && s.snaps == map[] && DirOf(c, BlobName(EMPTY_FILE)) in s.dirs
  {
    s, moves := BlobLinked(c, laid);
    s, moves := Opens(c, laid, moves, s, {}, 1, StartIngestFile([], EMPTY_FILE, 1), INGEST, [], 1);
    s, moves := Closes(c, laid, moves, s, {}, 1, INGEST, 1);
  }

  /** Writer 1 stages the same content and finds the blob. */
  lemma BlobFound(c: Codec, laid: set<Dir>) returns (s: State, moves: seq<Move>)
    ensures At(c, laid, moves, s, {}) && 1 in s.procs && s.procs[1] == Existing(INGEST, 1, EMPTY_FILE) && s.data.Keys == {0, 1}
    ensures s.blobs == map[EMPTY_FILE := 0] && s.data[0] == Raw([]) && s.snaps == map[]
  {
    s, moves := BlobStaged(c, laid);
    s, moves := HasShard(c, laid, moves, s, {}, 1, INGEST, 1, EMPTY_FILE);
    s, moves := Looks(c, laid, moves, s, {}, 1, INGEST, 1, EMPTY_FILE);
  }

  lemma SizeStep(c: Codec, s: State, p: nat, hash: BlobDigest, ino: Ino)
    requires p in s.procs && s.procs[p] == SizeOf(hash)
    ensures Step(c, s, p, Check(ino)) == RecordJob(s, p, Snapshot(OneFile, hash, Size(s, hash), 1), ino)
  {
  }

  lemma BlobVerified(c: Codec, laid: set<Dir>) returns (s: State, moves: seq<Move>)
    ensures At(c, laid, moves, s, {}) && 1 in s.procs && s.procs[1] == SizeOf(EMPTY_FILE) && s.data.Keys == {0, 1}
    ensures Size(s, EMPTY_FILE) == 0 && s.snaps == map[]
  {
    s, moves := BlobFound(c, laid);
    s, moves := Verifies(c, laid, moves, s, {}, 1, INGEST, 1, EMPTY_FILE);
    s, moves := Drops(c, laid, moves, s, {}, 1, INGEST, 1, EMPTY_FILE);
  }

  lemma RecordOpened(c: Codec, laid: set<Dir>) returns (s: State, moves: seq<Move>)
    ensures At(c, laid, moves, s, {}) && 1 in s.procs && s.procs[1] == Writing(RECORDING, 2, [], [[]])
    ensures 2 in s.data && s.snaps == map[]
  {
    s, moves := BlobVerified(c, laid);
    SizeStep(c, s, 1, EMPTY_FILE, 2);
    s, moves := Opens(c, laid, moves, s, {}, 1, Check(2), RECORDING, [[]], 2);
  }

  lemma RecordPublished(c: Codec, laid: set<Dir>) returns (s: State, moves: seq<Move>)
    ensures At(c, laid, moves, s, {}) && (OneFile, EMPTY_FILE) in s.snaps
  {
    s, moves := RecordOpened(c, laid);
    s, moves := Writes(c, laid, moves, s, {}, 1, RECORDING, 2, RECORD);
    s, moves := Closes(c, laid, moves, s, {}, 1, RECORDING, 2);
    s, moves := Makes(c, laid, moves, s, {}, 1, RECORDING, 2, EMPTY_FILE);
    s, moves := Looks(c, laid, moves, s, {}, 1, RECORDING, 2, EMPTY_FILE);
    s, moves := LinksRecord(c, laid, moves, s, {}, 1, RECORDING, 2, EMPTY_FILE, RECORD);
  }

  /** The run that shows it: one writer links a blob, another finds it and publishes a
      snapshot record over it, and the power fails before the first syncs the shard. The
      record stays, its blob does not, whatever of the layout is durable. */
  lemma RecordOutlivesItsBlob(c: Codec, laid: set<Dir>) returns (moves: seq<Move>, s: State, t: State)
    requires GoodCodec(c) && laid <= LAYOUT
    ensures Ran(c, Durable({}, laid, false), EMPTY, moves, s)
    ensures PowerLost(c, DurableAfter(c, Durable({}, laid, false), EMPTY, moves), s, t)
    ensures (OneFile, EMPTY_FILE) in t.snaps && EMPTY_FILE !in t.blobs && !StoreOk(c, t)
  {
    s, moves := RecordPublished(c, laid);
    var h := Durable({}, laid, false);
    NewStoreBoots(c, laid);
    RunCovers(c, h, EMPTY, moves, s);
    t := Without(c, s, BlobName(EMPTY_FILE), None);
    assert NeededBy(c, s, (OneFile, EMPTY_FILE), EMPTY_FILE);
    NeededIsPublished(c, s, EMPTY_FILE);
    NameKept(s, EMPTY_FILE);
    WithoutIsPowerLoss(c, DurableAfter(c, h, EMPTY, moves), s, BlobName(EMPTY_FILE), None);
    RecordsStay(c, s, EMPTY_FILE, None);
    NameKept(t, EMPTY_FILE);
    LossIsSeen(c, s, t, EMPTY_FILE);
  }

  // A file staged on a new store, from its first byte to its record, by one writer.

  lemma FileWritten(c: Codec, laid: set<Dir>) returns (s: State, moves: seq<Move>)
    ensures At(c, laid, moves, s, {}) && s.procs == map[0 := Closed(INGEST, 0, EMPTY_FILE)] && s.data == map[0 := Raw([])]
    ensures s.blobs == map[] && s.snaps == map[]
  {
    s, moves := Opens(c, laid, [], EMPTY, {}, 0, StartIngestFile([], EMPTY_FILE, 0), INGEST, [], 0);
    s, moves := Closes(c, laid, moves, s, {}, 0, INGEST, 0);
  }

  lemma FileLinked(c: Codec, laid: set<Dir>) returns (s: State, moves: seq<Move>)
    ensures At(c, laid, moves, s, {}) && s.procs == map[0 := Linked(INGEST, 0, EMPTY_FILE)] && s.data == map[0 := Raw([])]
    ensures s.blobs == map[EMPTY_FILE := 0] && s.snaps == map[]
  {
    s, moves := FileWritten(c, laid);
    s, moves := Makes(c, laid, moves, s, {}, 0, INGEST, 0, EMPTY_FILE);
    s, moves := Looks(c, laid, moves, s, {}, 0, INGEST, 0, EMPTY_FILE);
    s, moves := LinksBlob(c, laid, moves, s, {}, 0, INGEST, 0, EMPTY_FILE);
  }

  lemma FileStoredWhole(c: Codec, laid: set<Dir>) returns (s: State, moves: seq<Move>, synced: set<Name>)
    ensures At(c, laid, moves, s, synced) && s.procs == map[0 := SizeOf(EMPTY_FILE)] && s.data == map[0 := Raw([])]
    ensures Size(s, EMPTY_FILE) == 0 && s.snaps == map[]
  {
    s, moves := FileLinked(c, laid);
    s, moves, synced := SyncsShard(c, laid, moves, s, {}, 0, INGEST, 0, EMPTY_FILE);
    s, moves := Drops(c, laid, moves, s, synced, 0, INGEST, 0, EMPTY_FILE);
  }

  lemma FileRecordOpened(c: Codec, laid: set<Dir>) returns (s: State, moves: seq<Move>, synced: set<Name>)
    ensures At(c, laid, moves, s, synced) && s.procs == map[0 := Writing(RECORDING, 1, [], [[]])]
    ensures s.snaps == map[] && 1 in s.data
  {
    s, moves, synced := FileStoredWhole(c, laid);
    SizeStep(c, s, 0, EMPTY_FILE, 1);
    s, moves := Opens(c, laid, moves, s, synced, 0, Check(1), RECORDING, [[]], 1);
  }

  lemma FileRecordWritten(c: Codec, laid: set<Dir>) returns (s: State, moves: seq<Move>, synced: set<Name>)
    ensures At(c, laid, moves, s, synced) && s.procs == map[0 := Closed(RECORDING, 1, EMPTY_FILE)] && s.snaps == map[]
  {
    s, moves, synced := FileRecordOpened(c, laid);
    s, moves := Writes(c, laid, moves, s, synced, 0, RECORDING, 1, RECORD);
    s, moves := Closes(c, laid, moves, s, synced, 0, RECORDING, 1);
  }

  lemma FileRecordLinked(c: Codec, laid: set<Dir>) returns (s: State, moves: seq<Move>, synced: set<Name>)
    ensures At(c, laid, moves, s, synced) && s.procs == map[0 := Linked(RECORDING, 1, EMPTY_FILE)]
    ensures (OneFile, EMPTY_FILE) in s.snaps
  {
    s, moves, synced := FileRecordWritten(c, laid);
    s, moves := Makes(c, laid, moves, s, synced, 0, RECORDING, 1, EMPTY_FILE);
    s, moves := Looks(c, laid, moves, s, synced, 0, RECORDING, 1, EMPTY_FILE);
    s, moves := LinksRecord(c, laid, moves, s, synced, 0, RECORDING, 1, EMPTY_FILE, RECORD);
  }

  lemma FileRecorded(c: Codec, laid: set<Dir>) returns (s: State, moves: seq<Move>)
    ensures exists synced :: At(c, laid, moves, s, synced)
    ensures s.procs == map[0 := Finished] && (OneFile, EMPTY_FILE) in s.snaps
  {
    var synced;
    s, moves, synced := FileRecordLinked(c, laid);
    s, moves, synced := SyncsShard(c, laid, moves, s, synced, 0, RECORDING, 1, EMPTY_FILE);
    s, moves := Drops(c, laid, moves, s, synced, 0, RECORDING, 1, EMPTY_FILE);
  }

  /** The run that shows it at rest: on a new store one snapshot is taken to its end, every
      sync done, and then the power fails. The directory of its kind, which no writer syncs
      into its parent, goes with the record in it, even if the whole layout is durable. */
  lemma RecordAtRestCanGo(c: Codec, laid: set<Dir>) returns (moves: seq<Move>, s: State, t: State)
    requires GoodCodec(c) && laid <= LAYOUT
    ensures Ran(c, Durable({}, laid, false), EMPTY, moves, s)
    ensures AtRest(s) && !DurableAfter(c, Durable({}, laid, false), EMPTY, moves).lapsed
    ensures PowerLost(c, DurableAfter(c, Durable({}, laid, false), EMPTY, moves), s, t)
    ensures (OneFile, EMPTY_FILE) in s.snaps && (OneFile, EMPTY_FILE) !in t.snaps
  {
    s, moves := FileRecorded(c, laid);
    var h, n := Durable({}, laid, false), SnapName(OneFile, EMPTY_FILE);
    NewStoreBoots(c, laid);
    RunCovers(c, h, EMPTY, moves, s);
    OnlyShardsAreSynced(c, h, EMPTY, moves);
    RecordKept(s, (OneFile, EMPTY_FILE));
    t := Without(c, s, n, Some(KindDir(OneFile)));
    WithoutIsPowerLoss(c, DurableAfter(c, h, EMPTY, moves), s, n, Some(KindDir(OneFile)));
    RecordKept(t, (OneFile, EMPTY_FILE));
  }
}
