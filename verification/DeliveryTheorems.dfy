/**
 What holds in every reachable state of concurrent delivery: the log never
 claims an empty target that holds rows, a delivery writes one payload, a
 receipt means that payload, and the ledger verifies throughout.
 */
module DeliveryTheorems {
  import opened Chunks
  import opened Delivery
  import opened DeliveryProtocol
  import opened DeliverySafety
  import EventChain
  import opened Ledger
  import LedgerView
  import opened Wrappers

  // ---- Receipts and complete payloads ------------------------------------

  ghost predicate RemovalBegan(log: seq<DeliveryEvent>) {
    exists i :: 0 <= i < |log| && log[i].kind == RemovalIntent
  }

  ghost predicate Receipted(log: seq<DeliveryEvent>) {
    exists i :: 0 <= i < |log| && log[i].kind == Receipt
  }

  ghost predicate CompleteDid(s: State, did: string) {
    !RemovalBegan(EventLog(s, did)) && Receipted(EventLog(s, did)) ==>
      did in s.payload && forall i: nat :: i < |s.payload[did]| ==> s.payload[did][i].id in Rows(s, did)
  }

  ghost predicate CompleteProc(s: State, pc: Pc) {
    match pc
    case DWriting(did, _, chunks, landed) => LandedPresent(s, did, chunks, landed)
    case DOutcome(did, _, chunks, landed, _) => LandedPresent(s, did, chunks, landed)
    case RCall(did, _) => RemovalBegan(EventLog(s, did))
    case RRemove(did, _, _, _) => RemovalBegan(EventLog(s, did))
    case _ => true
  }

  ghost predicate LandedPresent(s: State, did: string, chunks: seq<Chunk>, landed: set<nat>) {
    !RemovalBegan(EventLog(s, did)) ==> forall i :: i in landed && i < |chunks| ==> chunks[i].id in Rows(s, did)
  }

  ghost predicate Complete(s: State) {
    && (forall did :: CompleteDid(s, did))
    && (forall q {:trigger s.procs[q]} :: q in s.procs ==> CompleteProc(s, s.procs[q].pc))
  }

  /** What a step does to one delivery: its log only grows, and its rows only grow
      unless a removal has begun. */
  ghost predicate Monotone(s: State, t: State, did: string) {
    && EventLog(s, did) <= EventLog(t, did)
    && (did in s.payload ==> did in t.payload && t.payload[did] == s.payload[did])
    && (!RemovalBegan(EventLog(t, did)) ==> Rows(s, did).Keys <= Rows(t, did).Keys)
  }

  lemma BeganStays(s: State, t: State, did: string)
    requires EventLog(s, did) <= EventLog(t, did)
    ensures RemovalBegan(EventLog(s, did)) ==> RemovalBegan(EventLog(t, did))
    ensures Receipted(EventLog(s, did)) ==> Receipted(EventLog(t, did))
  {
    if RemovalBegan(EventLog(s, did)) {
      var i :| 0 <= i < |EventLog(s, did)| && EventLog(s, did)[i].kind == RemovalIntent;
      assert EventLog(t, did)[i].kind == RemovalIntent;
    }
    if Receipted(EventLog(s, did)) {
      var i :| 0 <= i < |EventLog(s, did)| && EventLog(s, did)[i].kind == Receipt;
      assert EventLog(t, did)[i].kind == Receipt;
    }
  }

  lemma CompleteProcStays(s: State, t: State, pc: Pc)
    requires CompleteProc(s, pc)
    requires pc.DWriting? || pc.DOutcome? || pc.RCall? || pc.RRemove? ==> Monotone(s, t, pc.did)
    ensures CompleteProc(t, pc)
  {
    if pc.DWriting? || pc.DOutcome? || pc.RCall? || pc.RRemove? { BeganStays(s, t, pc.did); }
  }

  /** A step that logs no receipt keeps each delivery complete. */
  lemma CompleteDidStays(s: State, t: State, did: string)
    requires CompleteDid(s, did) && Monotone(s, t, did)
    requires Receipted(EventLog(t, did)) ==> Receipted(EventLog(s, did))
    ensures CompleteDid(t, did)
  {
    BeganStays(s, t, did);
  }

  lemma SameLogIsMonotone(s: State, t: State, did: string)
    requires t.db.events == s.db.events && Rows(s, did).Keys <= Rows(t, did).Keys && t.payload == s.payload
    ensures Monotone(s, t, did)
  {
  }

  lemma LoggedIsMonotone(s: State, t: State, did: string, e: DeliveryEvent, at: string, d: string)
    requires AppendEvent(s.db, did, e, at) == Ok(t.db) && t.rows == s.rows
    requires d in s.payload ==> d in t.payload && t.payload[d] == s.payload[d]
    ensures Monotone(s, t, d)
    ensures EventLog(t, d) == if d == did then EventLog(s, d) + [e] else EventLog(s, d)
    ensures e.kind != Receipt && Receipted(EventLog(t, d)) ==> Receipted(EventLog(s, d))
    ensures e.kind == RemovalIntent && d == did ==> RemovalBegan(EventLog(t, d))
  {
    AppendEffect(s, t, did, e, at);
    assert EventLog(t, d) == if d == did then EventLog(s, d) + [e] else EventLog(s, d);
    if e.kind == RemovalIntent && d == did { assert EventLog(t, d)[|EventLog(s, d)|].kind == RemovalIntent; }
    if e.kind != Receipt && Receipted(EventLog(t, d)) {
      var i :| 0 <= i < |EventLog(t, d)| && EventLog(t, d)[i].kind == Receipt;
      assert EventLog(s, d)[i].kind == Receipt;
    }
  }

  /** The common shape: the log and rows of every delivery move monotonically, no
      receipt appears, and call p is complete where it lands. */
  lemma MonotoneKeeps(s: State, t: State, p: nat)
    requires Complete(s) && p in t.procs && t.procs == s.procs[p := t.procs[p]]
    requires forall did :: Monotone(s, t, did) && (Receipted(EventLog(t, did)) ==> Receipted(EventLog(s, did)))
    requires CompleteProc(t, t.procs[p].pc)
    ensures Complete(t)
  {
    forall did ensures CompleteDid(t, did) {
      assert CompleteDid(s, did) && Monotone(s, t, did);
      CompleteDidStays(s, t, did);
    }
    forall q | q in t.procs ensures CompleteProc(t, t.procs[q].pc) {
      if q != p {
        var pc := s.procs[q].pc;
        assert CompleteProc(s, pc);
        if pc.DWriting? || pc.DOutcome? || pc.RCall? || pc.RRemove? { assert Monotone(s, t, pc.did); }
        CompleteProcStays(s, t, pc);
      }
    }
  }

  lemma MovedComplete(s: State, t: State, p: nat)
    requires Complete(s) && Moved(s, t, p) && !t.procs[p].pc.RCall?
    ensures Complete(t)
  {
    forall did ensures Monotone(s, t, did) && (Receipted(EventLog(t, did)) ==> Receipted(EventLog(s, did))) {
      SameLogIsMonotone(s, t, did);
    }
    MonotoneKeeps(s, t, p);
  }

  lemma LoggedComplete(s: State, t: State, p: nat, did: string, e: DeliveryEvent, at: string)
    requires Complete(s) && p in t.procs && t.procs == s.procs[p := t.procs[p]] && e.kind != Receipt
    requires AppendEvent(s.db, did, e, at) == Ok(t.db) && t.rows == s.rows
    requires forall d :: d in s.payload ==> d in t.payload && t.payload[d] == s.payload[d]
    requires t.procs[p].pc.RCall? ==> e.kind == RemovalIntent && t.procs[p].pc.did == did
    requires t.procs[p].pc.DWriting? ==> t.procs[p].pc.landed == {}
    requires !t.procs[p].pc.DOutcome? && !t.procs[p].pc.RRemove?
    ensures Complete(t)
  {
    forall d ensures Monotone(s, t, d) && (Receipted(EventLog(t, d)) ==> Receipted(EventLog(s, d))) {
      LoggedIsMonotone(s, t, did, e, at, d);
    }
    if t.procs[p].pc.RCall? { LoggedIsMonotone(s, t, did, e, at, did); }
    MonotoneKeeps(s, t, p);
  }

  lemma LandComplete(s: State, t: State, p: nat, i: nat, at: string)
    requires Complete(s) && p in s.procs && s.procs[p].pc.DWriting? && WriterStep(s, p, Land(i), at) == Some(t)
    ensures Complete(t)
  {
    var pc := s.procs[p].pc;
    forall did ensures Monotone(s, t, did) && (Receipted(EventLog(t, did)) ==> Receipted(EventLog(s, did))) {
      SameLogIsMonotone(s, t, did);
    }
    assert CompleteProc(s, pc);
    MonotoneKeeps(s, t, p);
  }

  lemma OutcomeComplete(s: State, t: State, p: nat)
    requires Safe(s) && Complete(s) && p in s.procs && s.procs[p].pc.DOutcome? && Concluded(s, t, p)
    ensures Complete(t)
  {
    var pc := s.procs[p].pc;
    assert ProcOk(s, pc) && CompleteProc(s, pc);
    forall d ensures Monotone(s, t, d) {
      assert EventLog(t, d) == if d == pc.did then EventLog(s, d) + [pc.outcome] else EventLog(s, d);
      assert Rows(t, d) == Rows(s, d);
    }
    forall d ensures CompleteDid(t, d) {
      assert CompleteDid(s, d) && Monotone(s, t, d);
      BeganStays(s, t, d);
      if Receipted(EventLog(t, d)) { OutcomeReceipts(s, t, p, d); }
    }
    forall q | q in t.procs ensures CompleteProc(t, t.procs[q].pc) {
      var qc := s.procs[q].pc;
      assert CompleteProc(s, qc);
      if qc.DWriting? || qc.DOutcome? || qc.RCall? || qc.RRemove? { assert Monotone(s, t, qc.did); }
      CompleteProcStays(s, t, qc);
    }
  }

  lemma OutcomeReceipts(s: State, t: State, p: nat, d: string)
    requires p in s.procs && s.procs[p].pc.DOutcome? && Concluded(s, t, p) && Receipted(EventLog(t, d))
    ensures Receipted(EventLog(s, d)) || (d == s.procs[p].pc.did && s.procs[p].pc.outcome.kind == Receipt)
  {
    var i :| 0 <= i < |EventLog(t, d)| && EventLog(t, d)[i].kind == Receipt;
    assert EventLog(t, d) == if d == s.procs[p].pc.did then EventLog(s, d) + [s.procs[p].pc.outcome] else EventLog(s, d);
    if i < |EventLog(s, d)| { assert EventLog(s, d)[i].kind == Receipt; }
  }

  lemma RemoveRowComplete(s: State, t: State, p: nat, key: string, at: string)
    requires Complete(s) && p in s.procs && s.procs[p].pc.RRemove? && RemovalStep(s, p, RemoveRow(key), at) == Some(t)
    ensures Complete(t)
  {
    assert CompleteProc(s, s.procs[p].pc);
    forall did ensures Monotone(s, t, did) && (Receipted(EventLog(t, did)) ==> Receipted(EventLog(s, did))) {
    }
    MonotoneKeeps(s, t, p);
  }

  lemma DispatchComplete(s: State, t: State, p: nat, a: Act, at: string)
    requires Safe(s) && Complete(s) && p in s.procs && Admissible(a) && DispatchStep(s, p, a, at) == Some(t)
    ensures Complete(t)
  {
    var pc := s.procs[p].pc;
    if a.LogUnwritten? {
      LoggedComplete(s, t, p, pc.did, DeliveryEvent(Failure, None, None, Some(0), Some(a.error), Some(a.attempt)), at);
    } else if a.LogIntent? && AppendIntent(s.db, pc.did, pc.chunks, a.attempt, at).Ok? {
      assert ProcOk(s, pc) && DidOk(s, pc.did);
      IntentIsBound(s, t.db, pc.did, pc.chunks, a.attempt, at);
      LoggedComplete(s, t, p, pc.did, IntentEvent(|pc.chunks|, ChunksDigestOf(pc.chunks), a.attempt), at);
    } else {
      DispatchMoves(s, t, p, a, at);
      MovedComplete(s, t, p);
    }
  }

  lemma WriterComplete(s: State, t: State, p: nat, a: Act, at: string)
    requires Safe(s) && Complete(s) && p in s.procs && WriterStep(s, p, a, at) == Some(t)
    ensures Complete(t)
  {
    var pc := s.procs[p].pc;
    assert CompleteProc(s, pc);
    if a.Land? {
      LandComplete(s, t, p, a.i, at);
    } else if a.LogOutcome? {
      AppendEffect(s, t, pc.did, pc.outcome, at);
      OutcomeComplete(s, t, p);
    } else {
      forall did ensures Monotone(s, t, did) && (Receipted(EventLog(t, did)) ==> Receipted(EventLog(s, did))) {
        SameLogIsMonotone(s, t, did);
      }
      MonotoneKeeps(s, t, p);
    }
  }

  lemma RetractComplete(s: State, t: State, p: nat, a: Act, at: string)
    requires Complete(s) && p in s.procs && RetractStep(s, p, a, at) == Some(t)
    ensures Complete(t)
  {
    var pc := s.procs[p].pc;
    if a.NoWriter? {
      LoggedComplete(s, t, p, pc.todo[0].0, RemovalEvent(RemovalFailure, None, None, Some(a.error)), at);
    } else if a.LogRemovalIntent? {
      LoggedComplete(s, t, p, pc.todo[0].0, RemovalEvent(RemovalIntent, Some(pc.todo[0].1), None, None), at);
    } else {
      RetractMoves(s, t, p, a, at);
      MovedComplete(s, t, p);
    }
  }

  lemma RemovalComplete(s: State, t: State, p: nat, a: Act, at: string)
    requires Complete(s) && p in s.procs && RemovalStep(s, p, a, at) == Some(t)
    ensures Complete(t)
  {
    var pc := s.procs[p].pc;
    assert CompleteProc(s, pc);
    if a.RemoveRow? {
      RemoveRowComplete(s, t, p, a.key, at);
    } else if a.LogRemovalReceipt? {
      LoggedComplete(s, t, p, pc.did, RemovalEvent(RemovalReceipt, None, pc.removed, None), at);
    } else if a.LogRemovalFailure? {
      LoggedComplete(s, t, p, pc.did, RemovalEvent(RemovalFailure, None, None, Some(a.error)), at);
    } else {
      forall did ensures Monotone(s, t, did) && (Receipted(EventLog(t, did)) ==> Receipted(EventLog(s, did))) {
        SameLogIsMonotone(s, t, did);
      }
      MonotoneKeeps(s, t, p);
    }
  }

  lemma EnvComplete(s: State, t: State, tx: Tx, at: string)
    requires Complete(s) && EnvStep(s, tx, at) == Some(t)
    ensures Complete(t)
  {
    assert t.db.events == s.db.events;
    forall did ensures CompleteDid(t, did) {
      assert CompleteDid(s, did);
      SameLogIsMonotone(s, t, did);
      CompleteDidStays(s, t, did);
    }
    forall q | q in t.procs ensures CompleteProc(t, t.procs[q].pc) {
      var pc := s.procs[q].pc;
      assert CompleteProc(s, pc);
      if pc.DWriting? || pc.DOutcome? || pc.RCall? || pc.RRemove? { SameLogIsMonotone(s, t, pc.did); }
      CompleteProcStays(s, t, pc);
    }
  }

  lemma StartOrCrashComplete(s: State, t: State, p: nat, a: Act, at: string)
    requires Safe(s) && Complete(s) && (a.Start? || a.Crash?) && Step(s, p, a, at) == Some(t)
    ensures Complete(t)
  {
    forall did ensures Monotone(s, t, did) && (Receipted(EventLog(t, did)) ==> Receipted(EventLog(s, did))) {
      SameLogIsMonotone(s, t, did);
    }
    if a.Crash? {
      assert CompleteProc(s, s.procs[p].pc);
      var pc := s.procs[p].pc;
      if pc.DWriting? || pc.DOutcome? || pc.RCall? || pc.RRemove? { SameLogIsMonotone(s, t, pc.did); }
      CompleteProcStays(s, t, pc);
    }
    MonotoneKeeps(s, t, p);
  }

  lemma StepComplete(s: State, t: State, p: nat, a: Act, at: string)
    requires Safe(s) && Complete(s) && Admissible(a) && Step(s, p, a, at) == Some(t)
    ensures Complete(t)
  {
    if a.Env? {
      EnvComplete(s, t, a.tx, at);
    } else if a.Start? || a.Crash? {
      StartOrCrashComplete(s, t, p, a, at);
    } else if a.Read? {
      ReadMoves(s, t, p);
      MovedComplete(s, t, p);
    } else if DispatchStep(s, p, a, at).Some? {
      DispatchComplete(s, t, p, a, at);
    } else if WriterStep(s, p, a, at).Some? {
      WriterComplete(s, t, p, a, at);
    } else if RetractStep(s, p, a, at).Some? {
      RetractComplete(s, t, p, a, at);
    } else {
      RemovalComplete(s, t, p, a, at);
    }
  }

  // ---- The ledger under the protocol -------------------------------------

  /** The change is one of the ledger's transactions, committed or rolled back. */
  ghost predicate IsCommit(db: Db, after: Db) {
    db == after || exists tx, at :: HonestTx(tx) && after == Commit(db, tx, at)
  }

  lemma Committed(db: Db, tx: Tx, at: string, after: Db)
    requires HonestTx(tx) && after == Commit(db, tx, at)
    ensures IsCommit(db, after)
  {
  }

  lemma DispatchCommits(s: State, t: State, p: nat, a: Act, at: string)
    requires p in s.procs && DispatchStep(s, p, a, at) == Some(t)
    ensures IsCommit(s.db, t.db)
  {
    var pc := s.procs[p].pc;
    if a.Open? {
      Committed(s.db, TxOpen(a.did, DeliveryRow(s.procs[p].rid, pc.kind, pc.target)), at, t.db);
    } else if a.LogUnwritten? {
      Committed(s.db, TxEvent(pc.did, DeliveryEvent(Failure, None, None, Some(0), Some(a.error), Some(a.attempt))), at, t.db);
    } else if a.LogIntent? {
      Committed(s.db, TxIntent(pc.did, pc.chunks, a.attempt), at, t.db);
    }
  }

  lemma WriterCommits(s: State, t: State, p: nat, a: Act, at: string)
    requires p in s.procs && WriterStep(s, p, a, at) == Some(t)
    ensures IsCommit(s.db, t.db)
  {
    if a.LogOutcome? { Committed(s.db, TxEvent(s.procs[p].pc.did, s.procs[p].pc.outcome), at, t.db); }
  }

  lemma RetractCommits(s: State, t: State, p: nat, a: Act, at: string)
    requires p in s.procs && RetractStep(s, p, a, at) == Some(t)
    ensures IsCommit(s.db, t.db)
  {
    var pc := s.procs[p].pc;
    if a.CommitInvalidation? {
      Committed(s.db, TxInvalidate(s.procs[p].rid, pc.reason), at, t.db);
    } else if a.NoWriter? {
      Committed(s.db, TxEvent(pc.todo[0].0, RemovalEvent(RemovalFailure, None, None, Some(a.error))), at, t.db);
    } else if a.LogRemovalIntent? {
      Committed(s.db, TxEvent(pc.todo[0].0, RemovalEvent(RemovalIntent, Some(pc.todo[0].1), None, None)), at, t.db);
    }
  }

  lemma RemovalCommits(s: State, t: State, p: nat, a: Act, at: string)
    requires p in s.procs && RemovalStep(s, p, a, at) == Some(t)
    ensures IsCommit(s.db, t.db)
  {
    var pc := s.procs[p].pc;
    if a.LogRemovalReceipt? {
      Committed(s.db, TxEvent(pc.did, RemovalEvent(RemovalReceipt, None, pc.removed, None)), at, t.db);
    } else if a.LogRemovalFailure? {
      Committed(s.db, TxEvent(pc.did, RemovalEvent(RemovalFailure, None, None, Some(a.error))), at, t.db);
    }
  }

  lemma ReadCommits(s: State, t: State, p: nat)
    requires p in s.procs && ReadStep(s, p) == Some(t)
    ensures t.db == s.db
  {
    match s.procs[p].pc
    case DStart(_, _) =>
    case DGet(_) =>
    case DRecheck =>
    case IStart(_) =>
    case RStart =>
    case REvents(unread, _) =>
    case RLoop(_) =>
    case _ =>
  }

  /** Every database change of the protocol is one of the ledger's transactions. */
  lemma StepCommits(s: State, t: State, p: nat, a: Act, at: string)
    requires Admissible(a) && Step(s, p, a, at) == Some(t)
    ensures IsCommit(s.db, t.db)
  {
    if a.Env? {
      Committed(s.db, a.tx, at, t.db);
    } else if !a.Start? && !a.Crash? {
      if a.Read? {
        ReadCommits(s, t, p);
      } else if DispatchStep(s, p, a, at).Some? {
        DispatchCommits(s, t, p, a, at);
      } else if WriterStep(s, p, a, at).Some? {
        WriterCommits(s, t, p, a, at);
      } else if RetractStep(s, p, a, at).Some? {
        RetractCommits(s, t, p, a, at);
      } else {
        RemovalCommits(s, t, p, a, at);
      }
    }
  }

  lemma CommitKeepsLedger(db: Db, after: Db)
    requires LedgerView.Inv(db) && IsCommit(db, after)
    ensures LedgerView.Inv(after)
  {
    if after != db {
      var tx, at :| HonestTx(tx) && after == Commit(db, tx, at);
      LedgerView.CommitKeeps(db, tx, at);
    }
  }

  // ---- Runs --------------------------------------------------------------

  lemma {:induction false} RunsAreSafe(init: State, moves: seq<Move>, s: State)
    requires Init(init) && After(init, moves) == Some(s)
    requires forall i :: 0 <= i < |moves| ==> Admissible(moves[i].act)
    ensures Safe(s) && Complete(s) && LedgerView.Inv(s.db)
  {
    if moves == [] {
      InitIsSafe(s);
      forall did ensures CompleteDid(s, did) {
        assert EventLog(s, did) == [];
      }
    } else {
      var m := moves[|moves| - 1];
      var before := After(init, moves[..|moves| - 1]).value;
      RunsAreSafe(init, moves[..|moves| - 1], before);
      StepKeeps(before, s, m.p, m.act, m.at);
      StepComplete(before, s, m.p, m.act, m.at);
      StepCommits(before, s, m.p, m.act, m.at);
      CommitKeepsLedger(before.db, s.db);
    }
  }

  lemma ReachableIsSafe(s: State)
    requires Reachable(s)
    ensures Safe(s) && Complete(s) && LedgerView.Inv(s.db)
  {
    var init: State, moves: seq<Move> :| Init(init) && After(init, moves) == Some(s)
      && forall i :: 0 <= i < |moves| ==> Admissible(moves[i].act);
    RunsAreSafe(init, moves, s);
  }

  lemma LandingIsOpen(s: State, did: string, key: string)
    requires Safe(s) && Landing(s, did, key)
    ensures ClaimAt(s, did).outstanding != {}
  {
    var q :| q in s.procs && HasLanded(s.procs[q], did, key);
    assert ProcOk(s, s.procs[q].pc);
  }

  lemma RowsImplyClaim(s: State, did: string, key: string)
    requires Safe(s) && did !in s.overlapped && key in Rows(s, did)
    ensures PossiblyWritten(EventLog(s, did))
  {
    assert DidOk(s, did);
    if Landing(s, did, key) { LandingIsOpen(s, did, key); }
  }

  /** Log soundness: if the log says nothing was possibly written, and the last
      removal receipt had no write outcome logged inside its window, the target
      holds no row of the delivery. */
  lemma LogSoundness(s: State, did: string)
    requires Reachable(s) && did !in s.overlapped
    ensures !PossiblyWritten(EventLog(s, did)) ==> Rows(s, did) == map[]
  {
    ReachableIsSafe(s);
    if Rows(s, did) != map[] {
      var key :| key in Rows(s, did);
      RowsImplyClaim(s, did, key);
    }
  }

  /** One payload: every intent carries one digest and count, that of the first
      intent's chunks, and every target row is one of those chunks. */
  lemma OnePayload(s: State, did: string)
    requires Reachable(s)
    ensures var log := EventLog(s, did);
      && (forall i, j :: 0 <= i < |log| && 0 <= j < |log| && log[i].kind == Intent && log[j].kind == Intent ==>
            log[i].digest == log[j].digest && log[i].planned == log[j].planned)
      && (did in s.payload ==>
            FirstIntent(log).Some? && FirstIntent(log).value.digest == Some(ChunksDigestOf(s.payload[did])))
      && (forall key :: key in Rows(s, did) ==> did in s.payload && IsChunkOf(s.payload[did], key, Rows(s, did)[key]))
  {
    ReachableIsSafe(s);
    assert DidOk(s, did) && PayloadOk(s, did);
  }

  /** A receipt with no removal begun: the target holds exactly the payload, each
      chunk once, however many attempts, retries or crashes there were. */
  lemma ReceiptMeansPayload(s: State, did: string)
    requires Reachable(s) && Receipted(EventLog(s, did)) && !RemovalBegan(EventLog(s, did))
    ensures did in s.payload && ValidChunks(s.payload[did])
    ensures Rows(s, did).Keys == set i | 0 <= i < |s.payload[did]| :: s.payload[did][i].id
    ensures forall i: nat :: i < |s.payload[did]| ==>
      s.payload[did][i].id in Rows(s, did) && Rows(s, did)[s.payload[did][i].id] == s.payload[did][i]
  {
    ReachableIsSafe(s);
    assert DidOk(s, did) && PayloadOk(s, did) && CompleteDid(s, did);
    forall i: nat | i < |s.payload[did]|
      ensures s.payload[did][i].id in Rows(s, did) && Rows(s, did)[s.payload[did][i].id] == s.payload[did][i]
    {
      RowIsItsChunk(s.payload[did], Rows(s, did), i);
    }
    KeysAreIds(s.payload[did], Rows(s, did));
  }

  lemma RowIsItsChunk(payload: seq<Chunk>, rows: map<string, Chunk>, i: nat)
    requires ValidChunks(payload) && i < |payload| && payload[i].id in rows
    requires forall key :: key in rows ==> IsChunkOf(payload, key, rows[key])
    ensures rows[payload[i].id] == payload[i]
  {
    var key := payload[i].id;
    assert IsChunkOf(payload, key, rows[key]);
    var j: nat :| j < |payload| && payload[j] == rows[key] && payload[j].id == key;
  }

  lemma KeysAreIds(payload: seq<Chunk>, rows: map<string, Chunk>)
    requires forall key :: key in rows ==> IsChunkOf(payload, key, rows[key])
    requires forall i: nat :: i < |payload| ==> payload[i].id in rows
    ensures rows.Keys == set i | 0 <= i < |payload| :: payload[i].id
  {
    forall key | key in rows ensures exists i: nat :: i < |payload| && payload[i].id == key {
      assert IsChunkOf(payload, key, rows[key]);
    }
  }

  /** verify_ledger stays clean through every interleaving of the protocol. */
  lemma LedgerVerifiesThroughout(s: State)
    requires Reachable(s)
    ensures EventChain.Intact(s.db.chain) && LedgerView.Consistent(s.db)
  {
    ReachableIsSafe(s);
  }
}
