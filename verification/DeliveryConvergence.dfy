/**
 Invalidation converges (stele/contracts/dispatcher.py, invalidate, retract and
 the re-check at the end of dispatch): once every call has returned and none
 crashed or failed to remove, an invalidated record has nothing at any target.
 */
module DeliveryConvergence {
  import opened Chunks
  import opened Delivery
  import opened DeliveryProtocol
  import opened DeliverySafety
  import opened DeliveryTheorems
  import opened Ledger
  import opened Wrappers

  // ---- Who will still clean up a delivery --------------------------------

  ghost predicate Listed(todo: seq<(string, int)>, did: string) {
    exists i :: 0 <= i < |todo| && todo[i].0 == did
  }

  ghost predicate OfRecord(s: State, rid: string, did: string) {
    did in s.db.deliveries && s.db.deliveries[did].recordId == rid
  }

  /** This call has yet to look at the delivery, or has decided to remove it. */
  ghost predicate Handles(s: State, pr: Proc, did: string) {
    match pr.pc
    case DRecheck => OfRecord(s, pr.rid, did)
    case RStart => OfRecord(s, pr.rid, did)
    case RRows => OfRecord(s, pr.rid, did)
    case REvents(unread, found) => did in unread || Listed(found, did)
    case RLoop(todo) => Listed(todo, did)
    case RCall(d, todo) => d == did || Listed(todo, did)
    case RRemove(d, _, _, todo) => d == did || Listed(todo, did)
    case RReceipt(d, _, _, todo) => d == did || Listed(todo, did)
    case _ => false
  }

  ghost predicate Handled(s: State, did: string) {
    exists q :: q in s.procs && Handles(s, s.procs[q], did)
  }

  ghost predicate Opens(pr: Proc, did: string, attempt: string) {
    Writing(pr) && pr.pc.did == did && pr.pc.attempt == attempt
  }

  ghost predicate Opened(s: State, did: string, attempt: string) {
    exists q :: q in s.procs && Opens(s.procs[q], did, attempt)
  }

  ghost predicate Withdrawn(s: State, did: string) {
    did in s.db.deliveries && RecState(s, s.db.deliveries[did].recordId) == Some(Invalidated)
  }

  /** A dispatch writes to a delivery of its own record. */
  ghost predicate OwnDelivery(s: State, pr: Proc) {
    match pr.pc
    case DGet(did) => OfRecord(s, pr.rid, did)
    case DTransform(did) => OfRecord(s, pr.rid, did)
    case DIntent(did, _) => OfRecord(s, pr.rid, did)
    case DWriting(did, _, _, _) => OfRecord(s, pr.rid, did)
    case DOutcome(did, _, _, _, _) => OfRecord(s, pr.rid, did)
    case _ => true
  }

  ghost predicate CoveredDid(s: State, did: string) {
    && (ClaimAt(s, did).written ==> did in s.db.deliveries)
    && (Withdrawn(s, did) && ClaimAt(s, did).written ==> Handled(s, did))
    && (forall a :: a in ClaimAt(s, did).outstanding ==> Opened(s, did, a))
  }

  /** While nothing has gone wrong, whatever the log says may be at a target of a
      withdrawn record has a call that will still see to it. */
  ghost predicate Covered(s: State) {
    !s.disturbed ==>
      && (forall q {:trigger s.procs[q]} :: q in s.procs ==> !s.procs[q].crashed && OwnDelivery(s, s.procs[q]))
      && (forall did :: CoveredDid(s, did))
  }

  // ---- One step ----------------------------------------------------------

  /** Other calls stay where they are; deliveries are never lost or re-pointed. */
  ghost predicate Frame(s: State, t: State, p: nat) {
    && p in t.procs && t.procs.Keys == s.procs.Keys + {p}
    && (forall q {:trigger t.procs[q]} :: q in s.procs && q != p ==>
          t.procs[q] == s.procs[q] || exists did :: t.procs[q] == s.procs[q].(pc := Unclean(s.procs[q].pc, did)))
    && (forall d :: d in s.db.deliveries ==> d in t.db.deliveries && t.db.deliveries[d] == s.db.deliveries[d])
  }

  /** What call p's step must do for one delivery. */
  ghost predicate Relay(s: State, t: State, p: nat, did: string)
    requires p in t.procs
  {
    && (ClaimAt(t, did).written ==> ClaimAt(s, did).written || did in t.db.deliveries)
    && (Withdrawn(t, did) && ClaimAt(t, did).written ==>
          || Handles(t, t.procs[p], did)
          || (Withdrawn(s, did) && ClaimAt(s, did).written && !(p in s.procs && Handles(s, s.procs[p], did))))
    && (forall a :: a in ClaimAt(t, did).outstanding ==>
          || Opens(t.procs[p], did, a)
          || (a in ClaimAt(s, did).outstanding && !(p in s.procs && Opens(s.procs[p], did, a))))
  }

  lemma UncleanHandles(s: State, t: State, pr: Proc, d: string, did: string)
    requires Handles(s, pr, did)
    requires forall x :: x in s.db.deliveries ==> x in t.db.deliveries && t.db.deliveries[x] == s.db.deliveries[x]
    ensures Handles(t, pr, did) && Handles(t, pr.(pc := Unclean(pr.pc, d)), did)
  {
  }

  lemma FrameKeeps(s: State, t: State, p: nat)
    requires Covered(s) && !s.disturbed && Frame(s, t, p)
    requires !t.procs[p].crashed && OwnDelivery(t, t.procs[p])
    requires forall did :: Relay(s, t, p, did)
    ensures Covered(t)
  {
    forall q | q in t.procs ensures !t.procs[q].crashed && OwnDelivery(t, t.procs[q]) {
      if q != p { assert !s.procs[q].crashed && OwnDelivery(s, s.procs[q]); }
    }
    forall did ensures CoveredDid(t, did) {
      assert CoveredDid(s, did) && Relay(s, t, p, did);
      if Withdrawn(t, did) && ClaimAt(t, did).written && !Handles(t, t.procs[p], did) {
        var q :| q in s.procs && Handles(s, s.procs[q], did);
        assert q != p && q in t.procs;
        if t.procs[q] == s.procs[q] {
          UncleanHandles(s, t, s.procs[q], did, did);
        } else {
          var d :| t.procs[q] == s.procs[q].(pc := Unclean(s.procs[q].pc, d));
          UncleanHandles(s, t, s.procs[q], d, did);
        }
      }
      forall a | a in ClaimAt(t, did).outstanding ensures Opened(t, did, a) {
        if !Opens(t.procs[p], did, a) {
          var q :| q in s.procs && Opens(s.procs[q], did, a);
          assert q != p && q in t.procs && Opens(t.procs[q], did, a);
        }
      }
    }
  }

  /** Only call p moved and the log did not. */
  ghost predicate Still(s: State, t: State, p: nat) {
    && p in s.procs && p in t.procs && t.procs == s.procs[p := s.procs[p].(pc := t.procs[p].pc)]
    && t.db.events == s.db.events
    && (forall d :: d in s.db.deliveries ==> d in t.db.deliveries && t.db.deliveries[d] == s.db.deliveries[d])
  }

  lemma StillKeeps(s: State, t: State, p: nat)
    requires Covered(s) && !s.disturbed && Still(s, t, p) && OwnDelivery(t, t.procs[p])
    requires forall did :: Withdrawn(t, did) && ClaimAt(s, did).written ==>
      Handles(t, t.procs[p], did) || (Withdrawn(s, did) && !Handles(s, s.procs[p], did))
    requires forall did, a :: Opens(s.procs[p], did, a) ==> Opens(t.procs[p], did, a)
    ensures Covered(t)
  {
    assert !s.procs[p].crashed;
    forall did ensures Relay(s, t, p, did) {
      assert EventLog(t, did) == EventLog(s, did);
    }
    FrameKeeps(s, t, p);
  }

  /** Reading one delivery's events never drops a delivery the log claims. */
  lemma EventsReadKeepsHandling(s: State, t: State, p: nat, did: string)
    requires p in s.procs && s.procs[p].pc.REvents? && ReadStep(s, p) == Some(t)
    requires Handles(s, s.procs[p], did) && ClaimAt(s, did).written
    ensures Handles(t, t.procs[p], did)
  {
    var unread, found := s.procs[p].pc.unread, s.procs[p].pc.found;
    if unread != [] {
      var log := EventLog(s, unread[0]);
      var more := found + [(unread[0], PlannedOf(log))];
      if did == unread[0] {
        assert more[|found|].0 == did;
      } else if Listed(found, did) {
        var i :| 0 <= i < |found| && found[i].0 == did;
        assert more[i].0 == did;
      } else {
        assert did in unread[1..];
      }
    }
  }

  lemma ReadRelays(s: State, t: State, p: nat, did: string)
    requires p in s.procs && ReadStep(s, p) == Some(t) && Withdrawn(s, did) && ClaimAt(s, did).written
    requires Handles(s, s.procs[p], did)
    ensures Handles(t, t.procs[p], did)
  {
    match s.procs[p].pc
    case DRecheck =>
    case RStart =>
    case REvents(_, _) => EventsReadKeepsHandling(s, t, p, did);
    case RLoop(_) =>
    case _ =>
  }

  lemma ReadStill(s: State, t: State, p: nat)
    requires p in s.procs && ReadStep(s, p) == Some(t)
    ensures Still(s, t, p) && t.db == s.db && !Writing(s.procs[p])
  {
    ReadMoves(s, t, p);
    ReadCommits(s, t, p);
  }

  lemma ReadOwn(s: State, t: State, p: nat)
    requires p in s.procs && ReadStep(s, p) == Some(t) && t.db == s.db && OwnDelivery(s, s.procs[p]) && p in t.procs
    ensures OwnDelivery(t, t.procs[p])
  {
    match s.procs[p].pc
    case DStart(_, _) =>
    case DGet(_) =>
    case DRecheck =>
    case IStart(_) =>
    case RStart =>
    case REvents(unread, _) =>
    case RLoop(_) =>
    case _ =>
  }

  lemma ReadCovered(s: State, t: State, p: nat)
    requires Covered(s) && !s.disturbed && p in s.procs && ReadStep(s, p) == Some(t)
    ensures Covered(t)
  {
    ReadStill(s, t, p);
    assert OwnDelivery(s, s.procs[p]);
    ReadOwn(s, t, p);
    forall did | Withdrawn(t, did) && ClaimAt(s, did).written
      ensures Handles(t, t.procs[p], did) || (Withdrawn(s, did) && !Handles(s, s.procs[p], did))
    {
      if Handles(s, s.procs[p], did) { ReadRelays(s, t, p, did); }
    }
    StillKeeps(s, t, p);
  }

  /** A step of p that logs e for one delivery, and changes no other log. */
  ghost predicate Logs(s: State, t: State, p: nat, did: string, e: DeliveryEvent) {
    && p in s.procs && p in t.procs && Frame(s, t, p)
    && t.db.records == s.db.records && t.db.deliveries == s.db.deliveries
    && t.procs[p].rid == s.procs[p].rid && t.procs[p].crashed == s.procs[p].crashed
    && (forall d {:trigger ClaimAt(t, d)} :: ClaimAt(t, d) == if d == did then ClaimAt(s, d).Add(e) else ClaimAt(s, d))
  }

  lemma AppendLogs(s: State, t: State, p: nat, did: string, e: DeliveryEvent, at: string)
    requires p in s.procs && p in t.procs && AppendEvent(s.db, did, e, at) == Ok(t.db)
    requires t.procs == s.procs[p := s.procs[p].(pc := t.procs[p].pc)]
    ensures Logs(s, t, p, did, e)
  {
    AppendEffect(s, t, did, e, at);
  }

  /** A removal intent moves the head of the list into the removal; handling is kept. */
  lemma RemovalIntentCovered(s: State, t: State, p: nat, at: string)
    requires Covered(s) && !s.disturbed && p in s.procs && s.procs[p].pc.RLoop?
    requires RetractStep(s, p, LogRemovalIntent, at) == Some(t)
    ensures Covered(t)
  {
    var todo := s.procs[p].pc.todo;
    var e := RemovalEvent(RemovalIntent, Some(todo[0].1), None, None);
    AppendLogs(s, t, p, todo[0].0, e, at);
    assert !s.procs[p].crashed;
    forall did ensures Relay(s, t, p, did) { RemovalIntentRelays(s, t, p, todo, e, did); }
    FrameKeeps(s, t, p);
  }

  lemma RemovalIntentRelays(s: State, t: State, p: nat, todo: seq<(string, int)>, e: DeliveryEvent, did: string)
    requires todo != [] && Logs(s, t, p, todo[0].0, e) && e.kind == RemovalIntent
    requires s.procs[p].pc == RLoop(todo) && t.procs[p].pc == RCall(todo[0].0, todo[1..])
    ensures Relay(s, t, p, did)
  {
    assert ClaimAt(t, did) == ClaimAt(s, did);
    if Listed(todo, did) { ListedTail(todo, did); }
  }

  lemma ListedTail(todo: seq<(string, int)>, did: string)
    requires Listed(todo, did)
    ensures todo[0].0 == did || Listed(todo[1..], did)
  {
    var i :| 0 <= i < |todo| && todo[i].0 == did;
    if i > 0 { assert todo[1..][i - 1].0 == did; }
  }

  lemma RemovalReceiptCovered(s: State, t: State, p: nat, at: string)
    requires Covered(s) && !s.disturbed && p in s.procs && s.procs[p].pc.RReceipt?
    requires RemovalStep(s, p, LogRemovalReceipt, at) == Some(t)
    ensures Covered(t)
  {
    var pc := s.procs[p].pc;
    var e := RemovalEvent(RemovalReceipt, None, pc.removed, None);
    AppendLogs(s, t, p, pc.did, e, at);
    assert !s.procs[p].crashed;
    forall did ensures Relay(s, t, p, did) { RemovalReceiptRelays(s, t, p, pc.did, pc.todo, e, did); }
    FrameKeeps(s, t, p);
  }

  lemma RemovalReceiptRelays(s: State, t: State, p: nat, d: string, todo: seq<(string, int)>, e: DeliveryEvent, did: string)
    requires Logs(s, t, p, d, e) && e.kind == RemovalReceipt
    requires s.procs[p].pc.RReceipt? && s.procs[p].pc.did == d && s.procs[p].pc.todo == todo && t.procs[p].pc == RLoop(todo)
    ensures Relay(s, t, p, did)
  {
    assert ClaimAt(t, did) == if did == d then ClaimAt(s, did).Add(e) else ClaimAt(s, did);
  }

  lemma RemovalCovered(s: State, t: State, p: nat, a: Act, at: string)
    requires Covered(s) && !s.disturbed && !t.disturbed && p in s.procs && RemovalStep(s, p, a, at) == Some(t)
    requires !s.procs[p].pc.RFail?
    ensures Covered(t)
  {
    if a.LogRemovalReceipt? {
      RemovalReceiptCovered(s, t, p, at);
    } else {
      RemovalIsStill(s, t, p, a, at);
      StillKeeps(s, t, p);
    }
  }

  lemma RemovalIsStill(s: State, t: State, p: nat, a: Act, at: string)
    requires p in s.procs && !t.disturbed && RemovalStep(s, p, a, at) == Some(t)
    requires !s.procs[p].pc.RFail? && !a.LogRemovalReceipt?
    ensures Still(s, t, p) && OwnDelivery(t, t.procs[p]) && t.db == s.db && !Writing(s.procs[p])
    ensures forall did :: Handles(s, s.procs[p], did) ==> Handles(t, t.procs[p], did)
  {
  }

  lemma RetractCovered(s: State, t: State, p: nat, a: Act, at: string)
    requires Covered(s) && !s.disturbed && !t.disturbed && p in s.procs && RetractStep(s, p, a, at) == Some(t)
    ensures Covered(t)
  {
    if a.LogRemovalIntent? {
      RemovalIntentCovered(s, t, p, at);
    } else if a.CommitInvalidation? {
      CommitCovered(s, t, p, at);
    } else {
      assert a.ReadRows? && Still(s, t, p);
      forall did | Withdrawn(t, did) && ClaimAt(s, did).written
        ensures Handles(t, t.procs[p], did) || (Withdrawn(s, did) && !Handles(s, s.procs[p], did))
      {
        if Handles(s, s.procs[p], did) { assert did in a.dids; }
      }
      StillKeeps(s, t, p);
    }
  }

  /** The invalidator itself handles every delivery of the record it withdrew. */
  lemma CommitCovered(s: State, t: State, p: nat, at: string)
    requires Covered(s) && !s.disturbed && p in s.procs && s.procs[p].pc.ICommit?
    requires RetractStep(s, p, CommitInvalidation, at) == Some(t)
    ensures Covered(t)
  {
    assert Still(s, t, p);
    forall did | Withdrawn(t, did) && ClaimAt(s, did).written
      ensures Handles(t, t.procs[p], did) || (Withdrawn(s, did) && !Handles(s, s.procs[p], did))
    {
      if !Withdrawn(s, did) { assert OfRecord(t, s.procs[p].rid, did); }
    }
    StillKeeps(s, t, p);
  }

  lemma OutcomeCovered(s: State, t: State, p: nat, at: string)
    requires Safe(s) && Covered(s) && !s.disturbed && p in s.procs && s.procs[p].pc.DOutcome?
    requires WriterStep(s, p, LogOutcome, at) == Some(t)
    ensures Covered(t)
  {
    var pc := s.procs[p].pc;
    assert ProcOk(s, pc) && OwnDelivery(s, s.procs[p]) && !s.procs[p].crashed;
    AppendEffect(s, t, pc.did, pc.outcome, at);
    assert Frame(s, t, p) by {
      forall q | q in s.procs && q != p
        ensures t.procs[q] == s.procs[q] || exists did :: t.procs[q] == s.procs[q].(pc := Unclean(s.procs[q].pc, did))
      {
        assert t.procs[q] == s.procs[q] || t.procs[q] == s.procs[q].(pc := Unclean(s.procs[q].pc, pc.did));
      }
    }
    forall did ensures Relay(s, t, p, did) {
      assert ClaimAt(t, did) == if did == pc.did then ClaimAt(s, did).Add(pc.outcome) else ClaimAt(s, did);
    }
    FrameKeeps(s, t, p);
  }

  lemma WriterCovered(s: State, t: State, p: nat, a: Act, at: string)
    requires Safe(s) && Covered(s) && !s.disturbed && p in s.procs && WriterStep(s, p, a, at) == Some(t)
    ensures Covered(t)
  {
    if a.LogOutcome? {
      OutcomeCovered(s, t, p, at);
    } else {
      assert OwnDelivery(s, s.procs[p]);
      assert Still(s, t, p);
      StillKeeps(s, t, p);
    }
  }

  lemma UnwrittenCovered(s: State, t: State, p: nat, a: Act, at: string)
    requires Safe(s) && Covered(s) && !s.disturbed && p in s.procs && a.LogUnwritten? && DispatchStep(s, p, a, at) == Some(t)
    ensures Covered(t)
  {
    var did := s.procs[p].pc.did;
    var e := DeliveryEvent(Failure, None, None, Some(0), Some(a.error), Some(a.attempt));
    assert !s.procs[p].crashed;
    AppendLogs(s, t, p, did, e, at);
    forall d ensures Relay(s, t, p, d) {
      assert DidOk(s, d);
      assert ClaimAt(t, d) == if d == did then ClaimAt(s, d).Add(e) else ClaimAt(s, d);
    }
    FrameKeeps(s, t, p);
  }

  lemma IntentCovered(s: State, t: State, p: nat, did: string, chunks: seq<Chunk>, attempt: string, at: string)
    requires Safe(s) && Covered(s) && !s.disturbed && p in s.procs && s.procs[p].pc == DIntent(did, chunks)
    requires AppendIntent(s.db, did, chunks, attempt, at) == Ok(t.db)
    requires t.procs == s.procs[p := s.procs[p].(pc := DWriting(did, attempt, chunks, {}))]
    ensures Covered(t)
  {
    var e := IntentEvent(|chunks|, ChunksDigestOf(chunks), attempt);
    assert OwnDelivery(s, s.procs[p]) && !s.procs[p].crashed;
    assert AppendEvent(s.db, did, e, at) == Ok(t.db) by {
      assert ProcOk(s, s.procs[p].pc) && DidOk(s, did);
      IntentIsBound(s, t.db, did, chunks, attempt, at);
    }
    AppendLogs(s, t, p, did, e, at);
    forall d ensures Relay(s, t, p, d) { IntentRelays(s, t, p, did, e, attempt, d); }
    FrameKeeps(s, t, p);
  }

  /** The attempt that logged an intent is the one that holds it open. */
  lemma IntentRelays(s: State, t: State, p: nat, did: string, e: DeliveryEvent, attempt: string, d: string)
    requires Logs(s, t, p, did, e) && e.kind == Intent && e.attempt == Some(attempt)
    requires s.procs[p].pc.DIntent? && t.procs[p].pc.DWriting?
    requires t.procs[p].pc.did == did && t.procs[p].pc.attempt == attempt
    ensures Relay(s, t, p, d)
  {
    assert ClaimAt(t, d) == if d == did then ClaimAt(s, d).Add(e) else ClaimAt(s, d);
  }

  lemma DispatchCovered(s: State, t: State, p: nat, a: Act, at: string)
    requires Safe(s) && Covered(s) && !s.disturbed && p in s.procs && Admissible(a) && DispatchStep(s, p, a, at) == Some(t)
    ensures Covered(t)
  {
    var pr := s.procs[p];
    if a.LogUnwritten? {
      UnwrittenCovered(s, t, p, a, at);
    } else if a.LogIntent? && AppendIntent(s.db, pr.pc.did, pr.pc.chunks, a.attempt, at).Ok? {
      IntentCovered(s, t, p, pr.pc.did, pr.pc.chunks, a.attempt, at);
    } else {
      assert OwnDelivery(s, pr);
      DispatchStill(s, t, p, a, at);
      forall did | ClaimAt(s, did).written ensures did in s.db.deliveries {
        assert CoveredDid(s, did);
      }
      OpenedCovered(s, t, p);
    }
  }

  /** A delivery opened now has an empty log, so nothing to handle. */
  lemma OpenedCovered(s: State, t: State, p: nat)
    requires Covered(s) && !s.disturbed && Still(s, t, p) && OwnDelivery(t, t.procs[p]) && !Writing(s.procs[p])
    requires t.db.records == s.db.records
    requires forall did :: !Handles(s, s.procs[p], did)
    requires forall did :: ClaimAt(s, did).written ==> did in s.db.deliveries
    ensures Covered(t)
  {
    StillKeeps(s, t, p);
  }

  lemma DispatchStill(s: State, t: State, p: nat, a: Act, at: string)
    requires p in s.procs && DispatchStep(s, p, a, at) == Some(t) && OwnDelivery(s, s.procs[p])
    requires !a.LogUnwritten? && (a.LogIntent? ==> AppendIntent(s.db, s.procs[p].pc.did, s.procs[p].pc.chunks, a.attempt, at).Err?)
    ensures Still(s, t, p) && OwnDelivery(t, t.procs[p]) && !Writing(s.procs[p]) && t.db.records == s.db.records
    ensures forall did :: !Handles(s, s.procs[p], did)
    ensures forall did :: did in t.db.deliveries && did !in s.db.deliveries ==> a.Open? && did == a.did
  {
  }

  lemma EnvCovered(s: State, t: State, tx: Tx, at: string)
    requires Covered(s) && !t.disturbed && EnvStep(s, tx, at) == Some(t)
    ensures Covered(t)
  {
    EnvRecords(s, t, tx, at);
    forall q | q in t.procs ensures !t.procs[q].crashed && OwnDelivery(t, t.procs[q]) {
      assert !s.procs[q].crashed && OwnDelivery(s, s.procs[q]);
    }
    forall did ensures CoveredDid(t, did) {
      assert CoveredDid(s, did) && EventLog(t, did) == EventLog(s, did);
      if Withdrawn(t, did) && ClaimAt(t, did).written {
        assert Withdrawn(s, did);
        var q :| q in s.procs && Handles(s, s.procs[q], did);
        assert q in t.procs && Handles(t, t.procs[q], did);
      }
      forall a | a in ClaimAt(t, did).outstanding ensures Opened(t, did, a) {
        assert Opened(s, did, a);
        var q :| q in s.procs && Opens(s.procs[q], did, a);
        assert q in t.procs && Opens(t.procs[q], did, a);
      }
    }
  }

  /** The other ledger transactions withdraw no record that has deliveries. */
  lemma EnvRecords(s: State, t: State, tx: Tx, at: string)
    requires EnvStep(s, tx, at) == Some(t) && !tx.TxInvalidate?
    ensures t.db.events == s.db.events && t.db.deliveries == s.db.deliveries && t.procs == s.procs
    ensures forall rid :: RecState(t, rid) == Some(Invalidated) ==> RecState(s, rid) == Some(Invalidated)
  {
    match tx
    case TxCreate(_, _) =>
    case TxSeal(_) =>
    case TxFail(_, _) =>
    case TxInvalidate(_, _) =>
    case TxOpen(_, _) =>
    case TxEvent(_, _) =>
    case TxIntent(_, _, _) =>
    case TxReplay(_, _) =>
    case TxSignOff(_, _, _) =>
  }

  lemma StepCovered(s: State, t: State, p: nat, a: Act, at: string)
    requires Safe(s) && Covered(s) && Admissible(a) && Step(s, p, a, at) == Some(t)
    requires !s.disturbed ==> forall q :: q in s.procs ==> !s.procs[q].pc.RFail?
    ensures Covered(t)
  {
    if t.disturbed {
    } else if a.Env? {
      EnvCovered(s, t, a.tx, at);
    } else if a.Start? {
      StartCovered(s, t, p, a, at);
    } else {
      NeverUndisturbed(s, t, p, a, at);
      if a.Read? {
        ReadCovered(s, t, p);
      } else if DispatchStep(s, p, a, at) == Some(t) {
        DispatchCovered(s, t, p, a, at);
      } else if WriterStep(s, p, a, at) == Some(t) {
        WriterCovered(s, t, p, a, at);
      } else if RetractStep(s, p, a, at) == Some(t) {
        RetractCovered(s, t, p, a, at);
      } else {
        RemovalCovered(s, t, p, a, at);
      }
    }
  }

  /** A run that is undisturbed now was undisturbed before, and took one of the calls' steps. */
  lemma NeverUndisturbed(s: State, t: State, p: nat, a: Act, at: string)
    requires Step(s, p, a, at) == Some(t) && !t.disturbed && !a.Env? && !a.Start?
    ensures !s.disturbed && p in s.procs
    ensures if a.Read? then ReadStep(s, p) == Some(t) else
      DispatchStep(s, p, a, at) == Some(t) || WriterStep(s, p, a, at) == Some(t)
      || RetractStep(s, p, a, at) == Some(t) || RemovalStep(s, p, a, at) == Some(t)
  {
    CallSteps(s, t, p, a, at);
    if a.Read? {
      ReadMoves(s, t, p);
      ReadNeverFails(s, t, p);
    } else if DispatchStep(s, p, a, at) == Some(t) {
      DispatchNeverFails(s, t, p, a, at);
    } else if WriterStep(s, p, a, at) == Some(t) {
      WriterNeverFails(s, t, p, a, at);
    } else if RetractStep(s, p, a, at) == Some(t) {
      RetractNeverFails(s, t, p, a, at);
    } else {
      RemovalNeverFails(s, t, p, a, at);
    }
  }

  lemma CallSteps(s: State, t: State, p: nat, a: Act, at: string)
    requires Step(s, p, a, at) == Some(t) && !t.disturbed && !a.Env? && !a.Start?
    ensures p in s.procs
    ensures if a.Read? then ReadStep(s, p) == Some(t) else
      DispatchStep(s, p, a, at) == Some(t) || WriterStep(s, p, a, at) == Some(t)
      || RetractStep(s, p, a, at) == Some(t) || RemovalStep(s, p, a, at) == Some(t)
  {
  }

  lemma StartCovered(s: State, t: State, p: nat, a: Act, at: string)
    requires Covered(s) && !s.disturbed && a.Start? && Step(s, p, a, at) == Some(t)
    ensures Covered(t)
  {
    forall did ensures Relay(s, t, p, did) {
      assert EventLog(t, did) == EventLog(s, did);
    }
    FrameKeeps(s, t, p);
  }

  /** Only a failed removal puts a call where it logs one. */
  ghost predicate NoFailedRemoval(s: State) {
    !s.disturbed ==> forall q {:trigger s.procs[q]} :: q in s.procs ==> !s.procs[q].pc.RFail?
  }

  lemma StepNoFailedRemoval(s: State, t: State, p: nat, a: Act, at: string)
    requires NoFailedRemoval(s) && Step(s, p, a, at) == Some(t)
    ensures NoFailedRemoval(t)
  {
    if !t.disturbed && !a.Start? && !a.Env? {
      if a.Read? {
        ReadMoves(s, t, p);
        ReadNeverFails(s, t, p);
      } else if DispatchStep(s, p, a, at).Some? {
        DispatchNeverFails(s, t, p, a, at);
      } else if WriterStep(s, p, a, at).Some? {
        WriterNeverFails(s, t, p, a, at);
      } else if RetractStep(s, p, a, at).Some? {
        RetractNeverFails(s, t, p, a, at);
      } else {
        RemovalNeverFails(s, t, p, a, at);
      }
    }
  }

  /** The other calls' places, up to their history flag. */
  ghost predicate OthersStay(s: State, t: State, p: nat) {
    && t.procs.Keys == s.procs.Keys
    && forall q {:trigger t.procs[q]} :: q in t.procs && q != p ==> t.procs[q].pc.RFail? == s.procs[q].pc.RFail?
  }

  lemma DispatchNeverFails(s: State, t: State, p: nat, a: Act, at: string)
    requires p in s.procs && DispatchStep(s, p, a, at) == Some(t)
    ensures p in t.procs && !t.procs[p].pc.RFail? && t.disturbed == s.disturbed && OthersStay(s, t, p)
  {
  }

  lemma WriterNeverFails(s: State, t: State, p: nat, a: Act, at: string)
    requires p in s.procs && WriterStep(s, p, a, at) == Some(t)
    ensures p in t.procs && !t.procs[p].pc.RFail? && t.disturbed == s.disturbed && OthersStay(s, t, p)
  {
  }

  lemma RetractNeverFails(s: State, t: State, p: nat, a: Act, at: string)
    requires p in s.procs && RetractStep(s, p, a, at) == Some(t)
    ensures p in t.procs && !t.procs[p].pc.RFail? && (s.disturbed ==> t.disturbed) && OthersStay(s, t, p)
  {
  }

  lemma RemovalNeverFails(s: State, t: State, p: nat, a: Act, at: string)
    requires p in s.procs && RemovalStep(s, p, a, at) == Some(t)
    ensures p in t.procs && (t.procs[p].pc.RFail? ==> t.disturbed) && (s.disturbed ==> t.disturbed) && OthersStay(s, t, p)
  {
  }

  lemma ReadNeverFails(s: State, t: State, p: nat)
    requires p in s.procs && ReadStep(s, p) == Some(t) && p in t.procs
    ensures !t.procs[p].pc.RFail? && t.disturbed == s.disturbed
  {
    match s.procs[p].pc
    case DStart(_, _) =>
    case DGet(_) =>
    case DRecheck =>
    case IStart(_) =>
    case RStart =>
    case REvents(unread, _) =>
    case RLoop(_) =>
    case _ =>
  }

  lemma {:induction false} RunsAreCovered(init: State, moves: seq<Move>, s: State)
    requires Init(init) && After(init, moves) == Some(s)
    requires forall i :: 0 <= i < |moves| ==> Admissible(moves[i].act)
    ensures Covered(s) && NoFailedRemoval(s)
  {
    if moves == [] {
      forall did ensures CoveredDid(s, did) {
        assert EventLog(s, did) == [];
      }
    } else {
      var m := moves[|moves| - 1];
      var before := After(init, moves[..|moves| - 1]).value;
      RunsAreSafe(init, moves[..|moves| - 1], before);
      RunsAreCovered(init, moves[..|moves| - 1], before);
      StepCovered(before, s, m.p, m.act, m.at);
      StepNoFailedRemoval(before, s, m.p, m.act, m.at);
    }
  }

  ghost predicate AllReturned(s: State) {
    forall q {:trigger s.procs[q]} :: q in s.procs ==> s.procs[q].pc.Returned?
  }

  /** Invalidation converges: when every call has returned and none crashed or failed
      to remove, each delivery of an invalidated record is empty at its target and
      the log says so, unless the last removal receipt overlapped a write outcome. */
  lemma InvalidationConverges(s: State, did: string)
    requires Reachable(s) && AllReturned(s) && !s.disturbed
    requires Withdrawn(s, did) && did !in s.overlapped
    ensures Rows(s, did) == map[] && !PossiblyWritten(EventLog(s, did))
  {
    var init: State, moves: seq<Move> :| Init(init) && After(init, moves) == Some(s)
      && forall i :: 0 <= i < |moves| ==> Admissible(moves[i].act);
    RunsAreSafe(init, moves, s);
    RunsAreCovered(init, moves, s);
    NothingLeftOpen(s, did);
    LogSoundness(s, did);
  }

  lemma NothingLeftOpen(s: State, did: string)
    requires Safe(s) && Covered(s) && AllReturned(s) && !s.disturbed && Withdrawn(s, did)
    ensures !PossiblyWritten(EventLog(s, did))
  {
    assert CoveredDid(s, did) && DidOk(s, did);
    assert !Handled(s, did);
    forall a ensures !Opened(s, did, a) {
    }
  }

  // ---- One further retract after crashes ---------------------------------

  /** The steps of one complete retract: reads, and removals that succeed. */
  predicate Undisturbed(a: Act) {
    a.Read? || a.ReadRows? || a.LogRemovalIntent? || a.BeginRemove? || a.RemoveRow? || a.RemovalReturns? || a.LogRemovalReceipt?
  }

  function Solo(s: State, p: nat, acts: seq<Act>, at: string): Option<State> {
    if acts == [] then Some(s)
    else
      var before := Solo(s, p, acts[..|acts| - 1], at);
      if before.Some? then Step(before.value, p, acts[|acts| - 1], at) else None
  }

  /** During the retract: each delivery of the record is empty or still to be removed,
      and its log still claims data until it is. */
  ghost predicate Pending(s: State, p: nat, did: string)
    requires p in s.procs
  {
    var pc := s.procs[p].pc;
    && (Rows(s, did) == map[] || Handles(s, s.procs[p], did))
    && (pc.RRemove? && pc.did == did && !Listed(pc.todo, did) ==> Rows(s, did).Keys <= pc.left)
    && (pc.RReceipt? && pc.did == did && !Listed(pc.todo, did) ==> Rows(s, did) == map[])
    && (Rows(s, did) != map[] && (pc.RStart? || pc.RRows? || pc.REvents?) ==> PossiblyWritten(EventLog(s, did)))
  }

  ghost predicate Retracting(s: State, p: nat, rid: string, did: string) {
    && p in s.procs && s.procs[p].rid == rid && RecState(s, rid) == Some(Invalidated)
    && (s.procs[p].pc.RStart? || s.procs[p].pc.RRows? || s.procs[p].pc.REvents? || s.procs[p].pc.RLoop?
        || s.procs[p].pc.RCall? || s.procs[p].pc.RRemove? || s.procs[p].pc.RReceipt? || s.procs[p].pc.Returned?)
    && OfRecord(s, rid, did) && Pending(s, p, did)
  }

  lemma SoloReadKeeps(s: State, t: State, p: nat, rid: string, did: string)
    requires Retracting(s, p, rid, did) && !s.procs[p].pc.Returned? && ReadStep(s, p) == Some(t)
    ensures Retracting(t, p, rid, did)
  {
    ReadStill(s, t, p);
    SoloReadPc(s, t, p, rid, did);
    ReadMoves(s, t, p);
    assert EventLog(t, did) == EventLog(s, did) && Rows(t, did) == Rows(s, did);
    if Rows(s, did) != map[] { SoloReadHandles(s, t, p, rid, did); }
  }

  lemma SoloReadPc(s: State, t: State, p: nat, rid: string, did: string)
    requires Retracting(s, p, rid, did) && !s.procs[p].pc.Returned? && ReadStep(s, p) == Some(t) && p in t.procs
    ensures t.procs[p].rid == rid
    ensures t.procs[p].pc.RRows? || t.procs[p].pc.REvents? || t.procs[p].pc.RLoop? || t.procs[p].pc.Returned?
  {
    match s.procs[p].pc
    case RStart =>
    case REvents(unread, _) =>
    case RLoop(_) =>
    case _ =>
  }

  lemma SoloReadHandles(s: State, t: State, p: nat, rid: string, did: string)
    requires Retracting(s, p, rid, did) && !s.procs[p].pc.Returned? && ReadStep(s, p) == Some(t) && p in t.procs
    requires Rows(s, did) != map[]
    ensures Handles(t, t.procs[p], did)
  {
    match s.procs[p].pc
    case RStart =>
    case REvents(unread, found) => if unread != [] { FoundKept(s, unread, found, did); }
    case RLoop(_) =>
    case _ =>
  }

  lemma FoundKept(s: State, unread: seq<string>, found: seq<(string, int)>, did: string)
    requires unread != [] && (did in unread || Listed(found, did))
    ensures var log := EventLog(s, unread[0]); var more := found + [(unread[0], PlannedOf(log))];
      && (did == unread[0] ==> Listed(more, did))
      && (did != unread[0] ==> did in unread[1..] || (Listed(found, did) && Listed(more, did)))
  {
    var more := found + [(unread[0], PlannedOf(EventLog(s, unread[0])))];
    if did == unread[0] {
      assert more[|found|].0 == did;
    } else if Listed(found, did) {
      var i :| 0 <= i < |found| && found[i].0 == did;
      assert more[i].0 == did;
    } else {
      assert did in unread[1..];
    }
  }

  lemma SoloIntentKeeps(s: State, t: State, p: nat, rid: string, did: string, at: string)
    requires Retracting(s, p, rid, did) && RetractStep(s, p, LogRemovalIntent, at) == Some(t)
    ensures Retracting(t, p, rid, did)
  {
    var todo := s.procs[p].pc.todo;
    AppendLogs(s, t, p, todo[0].0, RemovalEvent(RemovalIntent, Some(todo[0].1), None, None), at);
    assert Rows(t, did) == Rows(s, did);
    if Listed(todo, did) { ListedTail(todo, did); }
  }

  lemma SoloRemovalKeeps(s: State, t: State, p: nat, rid: string, did: string, a: Act, at: string)
    requires Retracting(s, p, rid, did) && Undisturbed(a) && RemovalStep(s, p, a, at) == Some(t)
    ensures Retracting(t, p, rid, did)
  {
    assert RecState(t, rid) == RecState(s, rid) && t.db.deliveries == s.db.deliveries;
    if a.RemoveRow? {
      SoloRowPending(s, t, p, a.key, at, did);
    } else {
      SoloRemovalPending(s, t, p, a, at, did);
    }
  }

  lemma SoloRemovalPending(s: State, t: State, p: nat, a: Act, at: string, did: string)
    requires p in s.procs && Undisturbed(a) && !a.RemoveRow? && RemovalStep(s, p, a, at) == Some(t) && Pending(s, p, did)
    ensures p in t.procs && Pending(t, p, did)
  {
    if a.LogRemovalReceipt? {
      SoloReceiptPending(s, t, p, at, did);
    } else {
      SoloCallPending(s, t, p, a, at, did);
    }
  }

  lemma SoloReceiptPending(s: State, t: State, p: nat, at: string, did: string)
    requires p in s.procs && RemovalStep(s, p, LogRemovalReceipt, at) == Some(t) && Pending(s, p, did)
    ensures p in t.procs && Pending(t, p, did)
  {
    assert t.rows == s.rows && t.procs[p].pc == RLoop(s.procs[p].pc.todo);
    assert Rows(t, did) == Rows(s, did);
  }

  lemma SoloCallPending(s: State, t: State, p: nat, a: Act, at: string, did: string)
    requires p in s.procs && (a.BeginRemove? || a.RemovalReturns?) && RemovalStep(s, p, a, at) == Some(t) && Pending(s, p, did)
    ensures p in t.procs && Pending(t, p, did)
  {
    assert t.rows == s.rows && p in t.procs;
    assert Rows(t, did) == Rows(s, did);
    assert Rows(s, did) == map[] <==> Rows(s, did).Keys == {};
  }

  lemma SoloRowPending(s: State, t: State, p: nat, key: string, at: string, did: string)
    requires p in s.procs && RemovalStep(s, p, RemoveRow(key), at) == Some(t) && Pending(s, p, did)
    ensures p in t.procs && Pending(t, p, did)
  {
    var d := s.procs[p].pc.did;
    assert Rows(t, did) == if did == d then Rows(s, d) - {key} else Rows(s, did);
  }

  lemma SoloRowsKeeps(s: State, t: State, p: nat, rid: string, did: string, a: Act, at: string)
    requires Retracting(s, p, rid, did) && a.ReadRows? && RetractStep(s, p, a, at) == Some(t)
    ensures Retracting(t, p, rid, did)
  {
    assert did in a.dids;
  }

  /** Which of the call's steps one of these acts is. */
  lemma SoloStepIs(s: State, t: State, p: nat, a: Act, at: string)
    requires p in s.procs && Undisturbed(a) && Step(s, p, a, at) == Some(t)
    ensures if a.Read? then ReadStep(s, p) == Some(t)
            else if a.ReadRows? || a.LogRemovalIntent? then RetractStep(s, p, a, at) == Some(t)
            else RemovalStep(s, p, a, at) == Some(t)
  {
  }

  lemma {:induction false} SoloKeeps(s: State, p: nat, rid: string, did: string, acts: seq<Act>, at: string, t: State)
    requires Retracting(s, p, rid, did) && Solo(s, p, acts, at) == Some(t)
    requires forall i :: 0 <= i < |acts| ==> Undisturbed(acts[i])
    ensures Retracting(t, p, rid, did)
  {
    if acts != [] {
      var before := Solo(s, p, acts[..|acts| - 1], at).value;
      var a := acts[|acts| - 1];
      SoloKeeps(s, p, rid, did, acts[..|acts| - 1], at, before);
      SoloStepIs(before, t, p, a, at);
      if a.Read? {
        SoloReadKeeps(before, t, p, rid, did);
      } else if a.ReadRows? {
        SoloRowsKeeps(before, t, p, rid, did, a, at);
      } else if a.LogRemovalIntent? {
        SoloIntentKeeps(before, t, p, rid, did, at);
      } else {
        SoloRemovalKeeps(before, t, p, rid, did, a, at);
      }
    }
  }

  /** One further retract, started on a withdrawn record while no other call steps. */
  function WithRetract(s: State, p: nat, rid: string): State {
    s.(procs := s.procs[p := Proc(rid, RStart, false)])
  }

  /** After any crashes, one further retract that runs to its end, with no other call
      stepping and no failed removal, leaves nothing of a delivery of the record at its
      target, if the log claimed it or its last removal receipt overlapped no write outcome. */
  lemma OneMoreRetract(s: State, p: nat, rid: string, acts: seq<Act>, at: string, t: State, did: string)
    requires Reachable(s) && p !in s.procs && RecState(s, rid) == Some(Invalidated) && OfRecord(s, rid, did)
    requires did !in s.overlapped || PossiblyWritten(EventLog(s, did))
    requires Finishes(WithRetract(s, p, rid), p, acts, at, t)
    ensures Rows(t, did) == map[]
  {
    var start := WithRetract(s, p, rid);
    if did !in s.overlapped { LogSoundness(s, did); }
    assert EventLog(start, did) == EventLog(s, did) && Rows(start, did) == Rows(s, did);
    SoloKeeps(start, p, rid, did, acts, at, t);
  }

  // ---- Such a retract always exists --------------------------------------

  ghost predicate Finishes(s: State, p: nat, acts: seq<Act>, at: string, t: State) {
    && (forall i :: 0 <= i < |acts| ==> Undisturbed(acts[i]))
    && Solo(s, p, acts, at) == Some(t) && p in t.procs && t.procs[p].pc.Returned?
  }

  ghost predicate CanFinish(s: State, p: nat, at: string) {
    exists acts: seq<Act>, t: State :: Finishes(s, p, acts, at, t)
  }

  lemma {:induction false} SoloAfter(s: State, p: nat, a: Act, m: State, acts: seq<Act>, at: string, t: State)
    requires Step(s, p, a, at) == Some(m) && Solo(m, p, acts, at) == Some(t)
    ensures Solo(s, p, [a] + acts, at) == Some(t)
  {
    var all := [a] + acts;
    if acts == [] {
      assert all[..|all| - 1] == [];
      assert Solo(s, p, all[..|all| - 1], at) == Some(s);
    } else {
      var front := acts[..|acts| - 1];
      assert all[..|all| - 1] == [a] + front;
      SoloAfter(s, p, a, m, front, at, Solo(m, p, front, at).value);
    }
  }

  lemma FinishAfter(s: State, p: nat, a: Act, m: State, at: string)
    requires Step(s, p, a, at) == Some(m) && Undisturbed(a) && CanFinish(m, p, at)
    ensures CanFinish(s, p, at)
  {
    var acts: seq<Act>, t: State :| Finishes(m, p, acts, at, t);
    SoloAfter(s, p, a, m, acts, at, t);
    ActsBefore(a, acts);
    assert Finishes(s, p, [a] + acts, at, t);
  }

  lemma ActsBefore(a: Act, acts: seq<Act>)
    requires Undisturbed(a) && forall i :: 0 <= i < |acts| ==> Undisturbed(acts[i])
    ensures forall i :: 0 <= i < |[a] + acts| ==> Undisturbed(([a] + acts)[i])
  {
  }

  lemma FinishNow(s: State, p: nat, at: string)
    requires p in s.procs && s.procs[p].pc.Returned?
    ensures CanFinish(s, p, at)
  {
    assert Solo(s, p, [], at) == Some(s);
    assert Finishes(s, p, [], at, s);
  }

  /** The call can step, and every delivery it is to remove is in the ledger. */
  ghost predicate CanStep(s: State, p: nat, todo: seq<(string, int)>) {
    p in s.procs && !s.procs[p].crashed && forall i :: 0 <= i < |todo| ==> todo[i].0 in s.db.deliveries
  }

  lemma RemovalEventLogs(db: Db, did: string, e: DeliveryEvent, at: string) returns (after: Db)
    requires did in db.deliveries && e.kind != Intent
    ensures AppendEvent(db, did, e, at) == Ok(after) && after.deliveries == db.deliveries && after.records == db.records
  {
    after := AppendEvent(db, did, e, at).value;
  }

  lemma LoopFinishes(s: State, p: nat, todo: seq<(string, int)>, at: string)
    requires CanStep(s, p, todo) && s.procs[p].pc == RLoop(todo)
    ensures CanFinish(s, p, at)
    decreases |todo|, 3, 0
  {
    if todo == [] {
      var m := Go(s, p, Returned);
      assert Step(s, p, Read, at) == Some(m);
      FinishNow(m, p, at);
      FinishAfter(s, p, Read, m, at);
    } else {
      var db := RemovalEventLogs(s.db, todo[0].0, RemovalEvent(RemovalIntent, Some(todo[0].1), None, None), at);
      var m := Go(s.(db := db), p, RCall(todo[0].0, todo[1..]));
      assert RetractStep(s, p, LogRemovalIntent, at) == Some(m);
      CallFinishes(m, p, todo[0].0, todo[1..], at);
      FinishAfter(s, p, LogRemovalIntent, m, at);
    }
  }

  lemma CallFinishes(s: State, p: nat, did: string, todo: seq<(string, int)>, at: string)
    requires CanStep(s, p, todo) && did in s.db.deliveries && s.procs[p].pc == RCall(did, todo)
    ensures CanFinish(s, p, at)
    decreases |todo| + 1, 2, 0
  {
    var left := Rows(s, did).Keys;
    var m := Go(s, p, RRemove(did, left, true, todo));
    assert RemovalStep(s, p, BeginRemove, at) == Some(m);
    RemoveFinishes(m, p, did, left, true, todo, at);
    FinishAfter(s, p, BeginRemove, m, at);
  }

  lemma RemoveFinishes(s: State, p: nat, did: string, left: set<string>, clean: bool, todo: seq<(string, int)>, at: string)
    requires CanStep(s, p, todo) && did in s.db.deliveries && s.procs[p].pc == RRemove(did, left, clean, todo)
    ensures CanFinish(s, p, at)
    decreases |todo| + 1, 1, |left|
  {
    if left == {} {
      var m := Go(s, p, RReceipt(did, None, clean, todo));
      assert RemovalStep(s, p, RemovalReturns(None), at) == Some(m);
      ReceiptFinishes(m, p, did, clean, todo, at);
      FinishAfter(s, p, RemovalReturns(None), m, at);
    } else {
      var key :| key in left;
      var m := RowStep(s, p, did, left, key, clean, todo, at);
      RemoveFinishes(m, p, did, left - {key}, clean, todo, at);
      FinishAfter(s, p, RemoveRow(key), m, at);
    }
  }

  lemma RowStep(s: State, p: nat, did: string, left: set<string>, key: string, clean: bool, todo: seq<(string, int)>, at: string)
    returns (m: State)
    requires CanStep(s, p, todo) && did in s.db.deliveries && s.procs[p].pc == RRemove(did, left, clean, todo) && key in left
    ensures Step(s, p, RemoveRow(key), at) == Some(m)
    ensures CanStep(m, p, todo) && did in m.db.deliveries && m.procs[p].pc == RRemove(did, left - {key}, clean, todo)
  {
    m := Go(s.(rows := s.rows[did := Rows(s, did) - {key}]), p, RRemove(did, left - {key}, clean, todo));
    assert RemovalStep(s, p, RemoveRow(key), at) == Some(m);
  }

  lemma ReceiptFinishes(s: State, p: nat, did: string, clean: bool, todo: seq<(string, int)>, at: string)
    requires CanStep(s, p, todo) && did in s.db.deliveries && s.procs[p].pc == RReceipt(did, None, clean, todo)
    ensures CanFinish(s, p, at)
    decreases |todo| + 1, 0, 0
  {
    var db := RemovalEventLogs(s.db, did, RemovalEvent(RemovalReceipt, None, None, None), at);
    var m := Go(s.(db := db, overlapped := if clean then s.overlapped - {did} else s.overlapped + {did}), p, RLoop(todo));
    assert RemovalStep(s, p, LogRemovalReceipt, at) == Some(m);
    LoopFinishes(m, p, todo, at);
    FinishAfter(s, p, LogRemovalReceipt, m, at);
  }

  lemma EventsFinish(s: State, p: nat, unread: seq<string>, found: seq<(string, int)>, at: string)
    requires CanStep(s, p, found) && s.procs[p].pc == REvents(unread, found)
    requires forall i :: 0 <= i < |unread| ==> unread[i] in s.db.deliveries
    ensures CanFinish(s, p, at)
    decreases |unread|
  {
    if unread == [] {
      var m := Go(s, p, RLoop(found));
      assert Step(s, p, Read, at) == Some(m);
      LoopFinishes(m, p, found, at);
      FinishAfter(s, p, Read, m, at);
    } else {
      var log := EventLog(s, unread[0]);
      var more := if PossiblyWritten(log) then found + [(unread[0], PlannedOf(log))] else found;
      var m := Go(s, p, REvents(unread[1..], more));
      assert Step(s, p, Read, at) == Some(m);
      EventsFinish(m, p, unread[1..], more, at);
      FinishAfter(s, p, Read, m, at);
    }
  }

  ghost function InOrder(dids: set<string>): (ds: seq<string>)
    ensures forall d :: d in ds <==> d in dids
  {
    if dids == {} then [] else
      var d :| d in dids;
      [d] + InOrder(dids - {d})
  }

  lemma RowsFinish(s: State, p: nat, at: string)
    requires CanStep(s, p, []) && s.procs[p].pc == RRows
    ensures CanFinish(s, p, at)
  {
    var dids := InOrder(set d | d in s.db.deliveries && s.db.deliveries[d].recordId == s.procs[p].rid);
    var m := Go(s, p, REvents(dids, []));
    assert RetractStep(s, p, ReadRows(dids), at) == Some(m);
    forall i | 0 <= i < |dids| ensures dids[i] in s.db.deliveries { assert dids[i] in dids; }
    EventsFinish(m, p, dids, [], at);
    FinishAfter(s, p, ReadRows(dids), m, at);
  }

  /** From every state a further retract of a withdrawn record can run to its end on its
      own, so what OneMoreRetract promises can always be had. */
  lemma RetractCanFinish(s: State, p: nat, rid: string, at: string)
    requires p !in s.procs && RecState(s, rid) == Some(Invalidated)
    ensures CanFinish(WithRetract(s, p, rid), p, at)
  {
    var start := WithRetract(s, p, rid);
    var m := Go(start, p, RRows);
    assert Step(start, p, Read, at) == Some(m);
    RowsFinish(m, p, at);
    FinishAfter(start, p, Read, m, at);
  }
}
