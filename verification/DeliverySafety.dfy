/**
 Safety of concurrent delivery, over every interleaving: the log never hides
 target data (outside the one overlap the protocol allows), and a delivery
 writes one payload.
 */
module DeliverySafety {
  import opened Chunks
  import opened Delivery
  import opened DeliveryProtocol
  import opened Digests
  import opened Ledger
  import opened Wrappers

  function LandedIds(chunks: seq<Chunk>, landed: set<nat>): set<string> {
    set i | i in landed && i < |chunks| :: chunks[i].id
  }

  /** The call has an intent without a logged outcome (even if it crashed since). */
  predicate Writing(pr: Proc) { pr.pc.DWriting? || pr.pc.DOutcome? }

  predicate HasLanded(pr: Proc, did: string, key: string) {
    Writing(pr) && pr.pc.did == did && key in LandedIds(pr.pc.chunks, pr.pc.landed)
  }

  /** Some attempt with no logged outcome landed this row. */
  ghost predicate Landing(s: State, did: string, key: string) {
    exists q :: q in s.procs && HasLanded(s.procs[q], did, key)
  }

  // ---- The invariant -----------------------------------------------------

  /** Every row is vouched for: by the log's written flag or by an open attempt. */
  ghost predicate Accounted(s: State, did: string) {
    forall key {:trigger Landing(s, did, key)} :: key in Rows(s, did) ==> ClaimAt(s, did).written || Landing(s, did, key)
  }

  ghost predicate IsChunkOf(payload: seq<Chunk>, key: string, c: Chunk) {
    exists i: nat :: i < |payload| && payload[i] == c && c.id == key
  }

  ghost predicate PayloadOk(s: State, did: string) {
    && (did in s.payload ==> ValidChunks(s.payload[did]))
    && (forall i :: 0 <= i < |EventLog(s, did)| && EventLog(s, did)[i].kind == Intent ==>
          did in s.payload
          && EventLog(s, did)[i].digest == Some(ChunksDigestOf(s.payload[did]))
          && EventLog(s, did)[i].planned == Some(|s.payload[did]|)
          && EventLog(s, did)[i].attempt.Some?)
    && (did in s.payload ==> FirstIntent(EventLog(s, did)).Some?)
    && (forall key :: key in Rows(s, did) ==> did in s.payload && IsChunkOf(s.payload[did], key, Rows(s, did)[key]))
  }

  ghost predicate DidOk(s: State, did: string) {
    && ClaimAt(s, did).outstanding <= s.attempts
    && !ClaimAt(s, did).legacyInFlight
    && PayloadOk(s, did)
    && (did !in s.overlapped ==> Accounted(s, did))
  }

  ghost predicate WritingOk(s: State, pc: Pc)
    requires pc.DWriting? || pc.DOutcome?
  {
    && pc.did in s.payload && pc.chunks == s.payload[pc.did]
    && (forall i :: i in pc.landed ==> i < |pc.chunks|)
    && pc.attempt in ClaimAt(s, pc.did).outstanding
    && (pc.DOutcome? ==>
          && pc.outcome.attempt == Some(pc.attempt) && pc.outcome.Outcome()
          && (pc.outcome.kind == Receipt ==> forall i: nat :: i < |pc.chunks| ==> i in pc.landed)
          && (!pc.outcome.MayHaveWritten() ==> pc.landed == {}))
  }

  /** A clean removal window: what is left to remove, or was landed by an attempt
      that is still open. */
  ghost predicate WindowOk(s: State, did: string, left: set<string>) {
    forall key {:trigger Landing(s, did, key)} :: key in Rows(s, did) ==> key in left || Landing(s, did, key)
  }

  ghost predicate ProcOk(s: State, pc: Pc) {
    match pc
    case DIntent(_, chunks) => ValidChunks(chunks)
    case DWriting(_, _, _, _) => WritingOk(s, pc)
    case DOutcome(_, _, _, _, _) => WritingOk(s, pc)
    case RRemove(did, left, clean, _) => clean ==> WindowOk(s, did, left)
    case RReceipt(did, _, clean, _) => clean ==> WindowOk(s, did, {})
    case _ => true
  }

  ghost predicate DistinctAttempts(s: State) {
    forall q, r :: q in s.procs && r in s.procs && q != r && Writing(s.procs[q]) && Writing(s.procs[r]) ==>
      s.procs[q].pc.attempt != s.procs[r].pc.attempt
  }

  ghost predicate Safe(s: State) {
    && (forall did :: DidOk(s, did))
    && (forall q {:trigger s.procs[q]} :: q in s.procs ==> ProcOk(s, s.procs[q].pc))
    && DistinctAttempts(s)
  }

  // ---- Log appends -------------------------------------------------------

  lemma AppendEffect(s: State, t: State, did: string, e: DeliveryEvent, at: string)
    requires AppendEvent(s.db, did, e, at) == Ok(t.db)
    ensures forall d {:trigger EventLog(t, d)} ::
      EventLog(t, d) == if d == did then EventLog(s, d) + [e] else EventLog(s, d)
    ensures forall d {:trigger ClaimAt(t, d)} ::
      ClaimAt(t, d) == if d == did then ClaimAt(s, d).Add(e) else ClaimAt(s, d)
    ensures t.db.deliveries == s.db.deliveries && t.db.records == s.db.records
  {
    forall d ensures EventLog(t, d) == if d == did then EventLog(s, d) + [e] else EventLog(s, d) {
      EventsOfAppend(s.db.events, EventRow(did, e), d);
    }
    forall d ensures ClaimAt(t, d) == if d == did then ClaimAt(s, d).Add(e) else ClaimAt(s, d) {
      assert EventLog(t, d) == if d == did then EventLog(s, d) + [e] else EventLog(s, d);
      ClaimAppend(EventLog(s, did), e);
    }
  }

  /** Only call p moved, to pc, and it neither was nor is an open attempt that changed. */
  ghost predicate OnlyProc(s: State, t: State, p: nat, pc: Pc) {
    && p in t.procs && t.procs[p].pc == pc && t.procs == s.procs[p := t.procs[p]]
    && (p in s.procs && Writing(s.procs[p]) ==> Writing(t.procs[p]) && SameAttempt(s.procs[p].pc, pc))
    && (Writing(t.procs[p]) ==> p in s.procs && Writing(s.procs[p]))
  }

  predicate SameAttempt(a: Pc, b: Pc)
    requires (a.DWriting? || a.DOutcome?) && (b.DWriting? || b.DOutcome?)
  {
    a.did == b.did && a.attempt == b.attempt && a.chunks == b.chunks && a.landed == b.landed
  }

  lemma SameLanders(s: State, t: State, p: nat, pc: Pc)
    requires OnlyProc(s, t, p, pc)
    ensures forall did, key {:trigger Landing(s, did, key)} {:trigger Landing(t, did, key)} ::
      Landing(s, did, key) == Landing(t, did, key)
    ensures DistinctAttempts(s) ==> DistinctAttempts(t)
  {
    forall did, key ensures Landing(s, did, key) == Landing(t, did, key) {
      if Landing(s, did, key) {
        var q :| q in s.procs && HasLanded(s.procs[q], did, key);
        assert q in t.procs && HasLanded(t.procs[q], did, key);
      }
      if Landing(t, did, key) {
        var q :| q in t.procs && HasLanded(t.procs[q], did, key);
        assert q in s.procs && HasLanded(s.procs[q], did, key);
      }
    }
    if DistinctAttempts(s) {
      forall q, r | q in t.procs && r in t.procs && q != r && Writing(t.procs[q]) && Writing(t.procs[r])
        ensures t.procs[q].pc.attempt != t.procs[r].pc.attempt
      {
        assert s.procs[q].pc.attempt != s.procs[r].pc.attempt;
      }
    }
  }

  /** A step that neither writes, nor removes, nor logs. */
  lemma QuietKeeps(s: State, t: State, p: nat, pc: Pc)
    requires Safe(s) && OnlyProc(s, t, p, pc) && ProcOk(s, pc)
    requires t.db.events == s.db.events && t.rows == s.rows && t.payload == s.payload
    requires t.attempts == s.attempts && t.overlapped == s.overlapped
    ensures Safe(t)
  {
    SameLanders(s, t, p, pc);
    forall did ensures DidOk(t, did) {
      assert DidOk(s, did) && Rows(t, did) == Rows(s, did) && EventLog(t, did) == EventLog(s, did);
      assert PayloadOk(t, did);
    }
    forall q | q in t.procs ensures ProcOk(t, t.procs[q].pc) {
      if q != p { assert ProcOk(s, s.procs[q].pc); }
    }
  }

  lemma PayloadAfterAppend(s: State, t: State, did: string, e: DeliveryEvent)
    requires PayloadOk(s, did) && e.kind != Intent
    requires EventLog(t, did) == EventLog(s, did) + [e] && t.payload == s.payload
    requires Rows(t, did) == Rows(s, did)
    ensures PayloadOk(t, did)
  {
    FirstIntentAppend(EventLog(s, did), e);
    forall i | 0 <= i < |EventLog(t, did)| && EventLog(t, did)[i].kind == Intent
      ensures i < |EventLog(s, did)| && EventLog(t, did)[i] == EventLog(s, did)[i]
    {
    }
  }

  lemma FirstIntentAppend(events: seq<DeliveryEvent>, e: DeliveryEvent)
    ensures FirstIntent(events + [e]) ==
      if FirstIntent(events).Some? then FirstIntent(events) else if e.kind == Intent then Some(e) else None
  {
    assert (events + [e])[..|events|] == events;
  }

  /** A step that logs an event which leaves every claim as it was: a removal intent,
      a removal failure, or the failure of an attempt that never had an intent. */
  lemma NeutralLogKeeps(s: State, t: State, p: nat, pc: Pc, did: string, e: DeliveryEvent, at: string)
    requires Safe(s) && OnlyProc(s, t, p, pc) && ProcOk(s, pc) && !Writing(t.procs[p])
    requires AppendEvent(s.db, did, e, at) == Ok(t.db)
    requires e.kind == RemovalIntent || e.kind == RemovalFailure
      || (e.kind == Failure && e.done == Some(0) && e.attempt.Some? && e.attempt.value !in s.attempts)
    requires t.rows == s.rows && t.payload == s.payload && t.overlapped == s.overlapped && s.attempts <= t.attempts
    ensures Safe(t)
  {
    AppendEffect(s, t, did, e, at);
    SameLanders(s, t, p, pc);
    forall d ensures DidOk(t, d) && ClaimAt(t, d) == ClaimAt(s, d) {
      assert DidOk(s, d) && Rows(t, d) == Rows(s, d);
      NeutralDid(s, t, did, e, d);
    }
    forall q | q in t.procs ensures ProcOk(t, t.procs[q].pc) {
      if q != p { assert ProcOk(s, s.procs[q].pc); }
    }
  }

  lemma NeutralDid(s: State, t: State, did: string, e: DeliveryEvent, d: string)
    requires DidOk(s, d) && Rows(t, d) == Rows(s, d) && t.payload == s.payload && t.overlapped == s.overlapped
    requires e.kind == RemovalIntent || e.kind == RemovalFailure
      || (e.kind == Failure && e.done == Some(0) && e.attempt.Some? && e.attempt.value !in s.attempts)
    requires EventLog(t, d) == if d == did then EventLog(s, d) + [e] else EventLog(s, d)
    requires ClaimAt(t, d) == if d == did then ClaimAt(s, d).Add(e) else ClaimAt(s, d)
    requires s.attempts <= t.attempts && forall key :: Landing(s, d, key) == Landing(t, d, key)
    ensures DidOk(t, d) && ClaimAt(t, d) == ClaimAt(s, d)
  {
    assert ClaimAt(t, d) == ClaimAt(s, d);
    if d == did { PayloadAfterAppend(s, t, did, e); } else { assert PayloadOk(t, d); }
  }

  // ---- One delivery at a time --------------------------------------------

  /** Landings only grow, for one delivery. */
  ghost predicate LandingGrows(s: State, t: State, d: string) {
    forall key {:trigger Landing(s, d, key)} {:trigger Landing(t, d, key)} :: Landing(s, d, key) ==> Landing(t, d, key)
  }

  lemma DidUnchanged(s: State, t: State, d: string)
    requires DidOk(s, d) && EventLog(t, d) == EventLog(s, d) && Rows(t, d) == Rows(s, d)
    requires (d in s.payload <==> d in t.payload) && (d in s.payload ==> t.payload[d] == s.payload[d])
    requires s.attempts <= t.attempts && (d in s.overlapped ==> d in t.overlapped)
    requires LandingGrows(s, t, d)
    ensures DidOk(t, d)
  {
    assert PayloadOk(t, d);
  }

  /** The window of a removal, after a step that adds no row but landed ones. */
  lemma WindowStays(s: State, t: State, d: string, left: set<string>)
    requires WindowOk(s, d, left) && LandingGrows(s, t, d)
    requires forall key :: key in Rows(t, d) ==> key in Rows(s, d) || Landing(t, d, key)
    ensures WindowOk(t, d, left)
  {
    forall key | key in Rows(t, d) ensures key in left || Landing(t, d, key) {
      if key in Rows(s, d) { assert key in left || Landing(s, d, key); }
    }
  }

  // ---- The five steps that matter ----------------------------------------

  /** What append_intent logged: the payload bound by the first intent. */
  lemma IntentIsBound(s: State, db: Db, did: string, chunks: seq<Chunk>, attempt: string, at: string)
    requires DidOk(s, did) && ValidChunks(chunks) && AppendIntent(s.db, did, chunks, attempt, at) == Ok(db)
    ensures AppendEvent(s.db, did, IntentEvent(|chunks|, ChunksDigestOf(chunks), attempt), at) == Ok(db)
    ensures did in s.payload ==> s.payload[did] == chunks
  {
    var first := FirstIntent(EventLog(s, did));
    if first.Some? {
      assert first.value.digest == Some(ChunksDigestOf(s.payload[did]));
      DigestDeterminesChunks(chunks, s.payload[did]);
    }
  }

  lemma IntentLanders(s: State, t: State, p: nat, did: string, chunks: seq<Chunk>, attempt: string, d: string)
    requires p in s.procs && s.procs[p].pc == DIntent(did, chunks)
    requires t.procs == s.procs[p := s.procs[p].(pc := DWriting(did, attempt, chunks, {}))] && t.overlapped == s.overlapped
    requires Rows(t, d) == Rows(s, d)
    ensures LandingGrows(s, t, d)
  {
    forall key | Landing(s, d, key) ensures Landing(t, d, key) {
      var q :| q in s.procs && HasLanded(s.procs[q], d, key);
      assert q in t.procs && HasLanded(t.procs[q], d, key);
    }
  }

  lemma IntentKeeps(s: State, t: State, p: nat, did: string, chunks: seq<Chunk>, attempt: string, at: string)
    requires Safe(s) && p in s.procs && s.procs[p].pc == DIntent(did, chunks)
    requires AppendIntent(s.db, did, chunks, attempt, at) == Ok(t.db) && attempt !in s.attempts
    requires t == Go(s.(db := t.db, attempts := s.attempts + {attempt},
                        payload := if did in s.payload then s.payload else s.payload[did := chunks]),
                     p, DWriting(did, attempt, chunks, {}))
    ensures Safe(t)
  {
    IntentIsLogged(s, t, p, did, chunks, attempt, at);
    LoggedIntentKeeps(s, t, p, did, chunks, attempt);
  }

  lemma LoggedIntentKeeps(s: State, t: State, p: nat, did: string, chunks: seq<Chunk>, attempt: string)
    requires Safe(s) && p in s.procs && s.procs[p].pc == DIntent(did, chunks) && attempt !in s.attempts
    requires IntentLogged(s, t, p, did, chunks, attempt)
    ensures Safe(t)
  {
    forall d ensures LandingGrows(s, t, d) && DidOk(t, d) {
      assert Rows(t, d) == Rows(s, d) && DidOk(s, d);
      IntentLanders(s, t, p, did, chunks, attempt, d);
      IntentDidOk(s, t, p, did, chunks, attempt, d);
    }
    NewAttemptIsOk(s, t, p, did, chunks, attempt);
    IntentProcs(s, t, p, did, attempt);
  }

  lemma NewAttemptIsOk(s: State, t: State, p: nat, did: string, chunks: seq<Chunk>, attempt: string)
    requires IntentLogged(s, t, p, did, chunks, attempt)
    ensures WritingOk(t, DWriting(did, attempt, chunks, {}))
    ensures forall d {:trigger ClaimAt(t, d)} :: ClaimAt(s, d).outstanding <= ClaimAt(t, d).outstanding
  {
  }

  /** What one logged intent changes: its own log and the set of attempts. */
  ghost predicate IntentLogged(s: State, t: State, p: nat, did: string, chunks: seq<Chunk>, attempt: string) {
    var e := IntentEvent(|chunks|, ChunksDigestOf(chunks), attempt);
    && p in s.procs && t.procs == s.procs[p := s.procs[p].(pc := DWriting(did, attempt, chunks, {}))]
    && ValidChunks(chunks) && (did in s.payload ==> s.payload[did] == chunks)
    && t.payload == s.payload[did := chunks] && t.attempts == s.attempts + {attempt}
    && t.rows == s.rows && t.overlapped == s.overlapped
    && (forall d {:trigger EventLog(t, d)} :: EventLog(t, d) == if d == did then EventLog(s, d) + [e] else EventLog(s, d))
    && (forall d {:trigger ClaimAt(t, d)} :: ClaimAt(t, d) == if d == did then ClaimAt(s, d).Add(e) else ClaimAt(s, d))
  }

  lemma IntentIsLogged(s: State, t: State, p: nat, did: string, chunks: seq<Chunk>, attempt: string, at: string)
    requires Safe(s) && p in s.procs && s.procs[p].pc == DIntent(did, chunks)
    requires AppendIntent(s.db, did, chunks, attempt, at) == Ok(t.db)
    requires t == Go(s.(db := t.db, attempts := s.attempts + {attempt},
                        payload := if did in s.payload then s.payload else s.payload[did := chunks]),
                     p, DWriting(did, attempt, chunks, {}))
    ensures IntentLogged(s, t, p, did, chunks, attempt)
  {
    assert ProcOk(s, s.procs[p].pc) && DidOk(s, did);
    IntentIsBound(s, t.db, did, chunks, attempt, at);
    AppendEffect(s, t, did, IntentEvent(|chunks|, ChunksDigestOf(chunks), attempt), at);
    if did in s.payload { assert s.payload == s.payload[did := chunks]; }
  }

  lemma IntentDidOk(s: State, t: State, p: nat, did: string, chunks: seq<Chunk>, attempt: string, d: string)
    requires DidOk(s, d) && IntentLogged(s, t, p, did, chunks, attempt) && LandingGrows(s, t, d)
    ensures DidOk(t, d)
  {
    if d == did {
      IntentDid(s, t, did, chunks, IntentEvent(|chunks|, ChunksDigestOf(chunks), attempt));
    } else {
      DidUnchanged(s, t, d);
    }
  }

  lemma IntentDid(s: State, t: State, did: string, chunks: seq<Chunk>, e: DeliveryEvent)
    requires DidOk(s, did) && ValidChunks(chunks) && (did in s.payload ==> s.payload[did] == chunks)
    requires e.kind == Intent && e.digest == Some(ChunksDigestOf(chunks)) && e.planned == Some(|chunks|)
    requires e.attempt.Some? && t.attempts == s.attempts + {e.attempt.value}
    requires EventLog(t, did) == EventLog(s, did) + [e] && did in t.payload && t.payload[did] == chunks && t.rows == s.rows
    requires ClaimAt(t, did) == ClaimAt(s, did).Add(e) && t.overlapped == s.overlapped && LandingGrows(s, t, did)
    ensures DidOk(t, did)
  {
    IntentPayload(s, t, did, chunks, e);
    assert Rows(t, did) == Rows(s, did);
  }

  lemma IntentPayload(s: State, t: State, did: string, chunks: seq<Chunk>, e: DeliveryEvent)
    requires PayloadOk(s, did) && ValidChunks(chunks) && (did in s.payload ==> s.payload[did] == chunks)
    requires e.kind == Intent && e.digest == Some(ChunksDigestOf(chunks)) && e.planned == Some(|chunks|) && e.attempt.Some?
    requires EventLog(t, did) == EventLog(s, did) + [e] && did in t.payload && t.payload[did] == chunks && t.rows == s.rows
    ensures PayloadOk(t, did)
  {
    FirstIntentAppend(EventLog(s, did), e);
    assert Rows(t, did) == Rows(s, did);
    forall i | 0 <= i < |EventLog(t, did)| && EventLog(t, did)[i].kind == Intent
      ensures EventLog(t, did)[i].digest == Some(ChunksDigestOf(chunks))
        && EventLog(t, did)[i].planned == Some(|chunks|) && EventLog(t, did)[i].attempt.Some?
    {
      if i < |EventLog(s, did)| { assert EventLog(s, did)[i] == EventLog(t, did)[i]; }
    }
  }

  lemma IntentProcs(s: State, t: State, p: nat, did: string, attempt: string)
    requires Safe(s) && p in s.procs && !Writing(s.procs[p]) && attempt !in s.attempts
    requires t.rows == s.rows && p in t.procs && t.procs == s.procs[p := t.procs[p]]
    requires t.procs[p].pc.DWriting? && t.procs[p].pc.attempt == attempt && WritingOk(t, t.procs[p].pc)
    requires forall d :: d in s.payload ==> d in t.payload && t.payload[d] == s.payload[d]
    requires forall d {:trigger ClaimAt(t, d)} :: ClaimAt(s, d).outstanding <= ClaimAt(t, d).outstanding
    requires forall d :: LandingGrows(s, t, d)
    ensures forall q {:trigger t.procs[q]} :: q in t.procs ==> ProcOk(t, t.procs[q].pc)
    ensures DistinctAttempts(t)
  {
    forall q | q in t.procs ensures ProcOk(t, t.procs[q].pc) {
      if q != p {
        var pc := s.procs[q].pc;
        assert ProcOk(s, pc);
        if Writing(s.procs[q]) { assert ClaimAt(s, pc.did).outstanding <= ClaimAt(t, pc.did).outstanding; }
        if pc.RRemove? && pc.clean { WindowStays(s, t, pc.did, pc.left); }
        if pc.RReceipt? && pc.clean { WindowStays(s, t, pc.did, {}); }
      }
    }
    forall q | q in s.procs && Writing(s.procs[q]) ensures s.procs[q].pc.attempt in s.attempts {
      assert ProcOk(s, s.procs[q].pc) && DidOk(s, s.procs[q].pc.did);
    }
  }

  lemma LandGrows(s: State, t: State, p: nat, i: nat, at: string, d: string)
    requires p in s.procs && s.procs[p].pc.DWriting?
    requires WriterStep(s, p, Land(i), at) == Some(t)
    ensures LandingGrows(s, t, d)
    ensures forall key :: key in Rows(t, d) ==> key in Rows(s, d) || Landing(t, d, key)
  {
    var pc := s.procs[p].pc;
    assert LandedIds(pc.chunks, pc.landed + {i}) == LandedIds(pc.chunks, pc.landed) + {pc.chunks[i].id};
    forall key | Landing(s, d, key) ensures Landing(t, d, key) {
      var q :| q in s.procs && HasLanded(s.procs[q], d, key);
      assert q in t.procs && HasLanded(t.procs[q], d, key);
    }
    assert Landing(t, pc.did, pc.chunks[i].id) by {
      assert p in t.procs && HasLanded(t.procs[p], pc.did, pc.chunks[i].id);
    }
  }

  lemma LandKeeps(s: State, t: State, p: nat, i: nat, at: string)
    requires Safe(s) && p in s.procs && s.procs[p].pc.DWriting?
    requires WriterStep(s, p, Land(i), at) == Some(t)
    ensures Safe(t)
  {
    var pc := s.procs[p].pc;
    var did, chunk := pc.did, pc.chunks[i];
    assert ProcOk(s, pc) && DidOk(s, did);
    forall d ensures LandingGrows(s, t, d) && forall key :: key in Rows(t, d) ==> key in Rows(s, d) || Landing(t, d, key) {
      LandGrows(s, t, p, i, at, d);
    }
    forall d ensures DidOk(t, d) {
      assert DidOk(s, d);
      if d == did {
        assert IsChunkOf(s.payload[did], chunk.id, chunk);
        assert PayloadOk(t, d);
      } else {
        DidUnchanged(s, t, d);
      }
    }
    forall q | q in t.procs ensures ProcOk(t, t.procs[q].pc) {
      LandProc(s, t, p, i, at, q);
    }
  }

  lemma LandProc(s: State, t: State, p: nat, i: nat, at: string, q: nat)
    requires Safe(s) && p in s.procs && s.procs[p].pc.DWriting? && q in s.procs
    requires WriterStep(s, p, Land(i), at) == Some(t)
    ensures q in t.procs && ProcOk(t, t.procs[q].pc)
  {
    var pc := s.procs[q].pc;
    assert ProcOk(s, pc);
    if q != p {
      assert t.procs[q].pc == pc;
      match pc {
        case RRemove(d, left, clean, todo) =>
          LandGrows(s, t, p, i, at, d);
          if clean { WindowStays(s, t, d, left); }
        case RReceipt(d, removed, clean, todo) =>
          LandGrows(s, t, p, i, at, d);
          if clean { WindowStays(s, t, d, {}); }
        case _ =>
      }
    }
  }

  /** t is s after the outcome of call p was logged. */
  ghost predicate Concluded(s: State, t: State, p: nat)
    requires p in s.procs && s.procs[p].pc.DOutcome?
  {
    var did, e := s.procs[p].pc.did, s.procs[p].pc.outcome;
    && t.procs == (if e.MayHaveWritten() then Overlap(s.procs, did) else s.procs)[p := s.procs[p].(pc := DRecheck)]
    && t.rows == s.rows && t.payload == s.payload && t.attempts == s.attempts && t.overlapped == s.overlapped
    && (forall d {:trigger EventLog(t, d)} :: EventLog(t, d) == if d == did then EventLog(s, d) + [e] else EventLog(s, d))
    && (forall d {:trigger ClaimAt(t, d)} :: ClaimAt(t, d) == if d == did then ClaimAt(s, d).Add(e) else ClaimAt(s, d))
  }

  /** An outcome closes its own attempt; the other attempts keep what they landed,
      and a silent outcome had landed nothing. */
  lemma OutcomeLanders(s: State, t: State, p: nat)
    requires p in s.procs && s.procs[p].pc.DOutcome? && WritingOk(s, s.procs[p].pc) && Concluded(s, t, p)
    ensures forall d :: d != s.procs[p].pc.did || !s.procs[p].pc.outcome.MayHaveWritten() ==> LandingGrows(s, t, d)
  {
    forall d | d != s.procs[p].pc.did || !s.procs[p].pc.outcome.MayHaveWritten() ensures LandingGrows(s, t, d) {
      forall key | Landing(s, d, key) ensures Landing(t, d, key) {
        var q :| q in s.procs && HasLanded(s.procs[q], d, key);
        assert q != p;
        assert q in t.procs && HasLanded(t.procs[q], d, key);
      }
    }
  }

  lemma OutcomeDid(s: State, t: State, did: string, e: DeliveryEvent)
    requires DidOk(s, did) && e.Outcome() && e.attempt.Some?
    requires EventLog(t, did) == EventLog(s, did) + [e] && ClaimAt(t, did) == ClaimAt(s, did).Add(e)
    requires t.rows == s.rows && t.payload == s.payload && t.attempts == s.attempts && t.overlapped == s.overlapped
    requires !e.MayHaveWritten() ==> LandingGrows(s, t, did)
    ensures DidOk(t, did)
  {
    PayloadAfterAppend(s, t, did, e);
    assert Rows(t, did) == Rows(s, did);
  }

  lemma OutcomeDistinct(s: State, t: State, p: nat)
    requires DistinctAttempts(s) && p in s.procs && s.procs[p].pc.DOutcome? && Concluded(s, t, p)
    ensures DistinctAttempts(t)
  {
  }

  lemma OutcomeKeeps(s: State, t: State, p: nat)
    requires Safe(s) && p in s.procs && s.procs[p].pc.DOutcome? && Concluded(s, t, p)
    ensures Safe(t)
  {
    var did, e := s.procs[p].pc.did, s.procs[p].pc.outcome;
    assert ProcOk(s, s.procs[p].pc);
    OutcomeLanders(s, t, p);
    OutcomeDistinct(s, t, p);
    forall d ensures DidOk(t, d) {
      OutcomeAnyDid(s, t, p, d);
    }
    forall q | q in t.procs ensures ProcOk(t, t.procs[q].pc) {
      OutcomeProc(s, t, p, q);
    }
  }

  lemma OutcomeAnyDid(s: State, t: State, p: nat, d: string)
    requires p in s.procs && s.procs[p].pc.DOutcome? && WritingOk(s, s.procs[p].pc) && Concluded(s, t, p) && DidOk(s, d)
    requires d != s.procs[p].pc.did || !s.procs[p].pc.outcome.MayHaveWritten() ==> LandingGrows(s, t, d)
    ensures DidOk(t, d)
  {
    if d == s.procs[p].pc.did {
      assert EventLog(t, d) == EventLog(s, d) + [s.procs[p].pc.outcome];
      OutcomeDid(s, t, d, s.procs[p].pc.outcome);
    } else {
      DidUnchanged(s, t, d);
    }
  }

  lemma OutcomeProc(s: State, t: State, p: nat, q: nat)
    requires Safe(s) && p in s.procs && s.procs[p].pc.DOutcome? && q in s.procs && WritingOk(s, s.procs[p].pc)
    requires Concluded(s, t, p)
    requires forall d :: d != s.procs[p].pc.did || !s.procs[p].pc.outcome.MayHaveWritten() ==> LandingGrows(s, t, d)
    ensures ProcOk(t, t.procs[q].pc)
  {
    var pc := s.procs[q].pc;
    assert ProcOk(s, pc);
    if q != p {
      if pc.RRemove? || pc.RReceipt? {
        OutcomeWindow(s, t, p, q);
      } else if Writing(s.procs[q]) {
        assert pc.attempt != s.procs[p].pc.attempt;
      }
    }
  }

  /** A removal window stays clean across the outcomes that do not touch it. */
  lemma OutcomeWindow(s: State, t: State, p: nat, q: nat)
    requires p in s.procs && s.procs[p].pc.DOutcome? && q in s.procs && q != p && Concluded(s, t, p)
    requires (s.procs[q].pc.RRemove? || s.procs[q].pc.RReceipt?) && ProcOk(s, s.procs[q].pc)
    requires forall d :: d != s.procs[p].pc.did || !s.procs[p].pc.outcome.MayHaveWritten() ==> LandingGrows(s, t, d)
    ensures ProcOk(t, t.procs[q].pc)
  {
    var pc := s.procs[q].pc;
    assert t.procs[q].pc == if s.procs[p].pc.outcome.MayHaveWritten() then Unclean(pc, s.procs[p].pc.did) else pc;
    if t.procs[q].pc.clean { WindowStays(s, t, pc.did, if pc.RRemove? then pc.left else {}); }
  }

  lemma RemoveRowKeeps(s: State, t: State, p: nat, key: string, at: string)
    requires Safe(s) && p in s.procs && s.procs[p].pc.RRemove?
    requires RemovalStep(s, p, RemoveRow(key), at) == Some(t)
    ensures Safe(t)
  {
    SameLanders(s, t, p, t.procs[p].pc);
    var did := s.procs[p].pc.did;
    forall d ensures forall k :: k in Rows(t, d) <==> k in Rows(s, d) && !(d == did && k == key) {
    }
    forall d ensures DidOk(t, d) {
      assert DidOk(s, d);
      forall k | k in Rows(t, d) ensures IsChunkOf(t.payload[d], k, Rows(t, d)[k]) {
        assert k in Rows(s, d) && Rows(t, d)[k] == Rows(s, d)[k];
      }
      assert PayloadOk(t, d);
    }
    forall q | q in t.procs ensures ProcOk(t, t.procs[q].pc) {
      assert ProcOk(s, s.procs[q].pc);
    }
  }

  lemma ReceiptDid(s: State, t: State, did: string, e: DeliveryEvent, clean: bool, d: string)
    requires DidOk(s, d) && e.kind == RemovalReceipt && Rows(t, d) == Rows(s, d)
    requires EventLog(t, d) == if d == did then EventLog(s, d) + [e] else EventLog(s, d)
    requires t.payload == s.payload && t.attempts == s.attempts
    requires t.overlapped == if clean then s.overlapped - {did} else s.overlapped + {did}
    requires forall key :: Landing(t, d, key) == Landing(s, d, key)
    requires clean ==> WindowOk(s, did, {})
    ensures DidOk(t, d)
  {
    if d == did {
      ClaimAppend(EventLog(s, d), e);
      PayloadAfterAppend(s, t, d, e);
    } else {
      assert PayloadOk(t, d);
    }
  }

  lemma RemovalReceiptKeeps(s: State, t: State, p: nat, at: string)
    requires Safe(s) && p in s.procs && s.procs[p].pc.RReceipt?
    requires RemovalStep(s, p, LogRemovalReceipt, at) == Some(t)
    ensures Safe(t)
  {
    var pc := s.procs[p].pc;
    var e := RemovalEvent(RemovalReceipt, None, pc.removed, None);
    SameLanders(s, t, p, RLoop(pc.todo));
    AppendEffect(s, t, pc.did, e, at);
    assert ProcOk(s, pc);
    forall d ensures DidOk(t, d) {
      assert DidOk(s, d) && Rows(t, d) == Rows(s, d);
      ReceiptDid(s, t, pc.did, e, pc.clean, d);
    }
    forall q | q in t.procs ensures ProcOk(t, t.procs[q].pc) {
      if q != p { assert ProcOk(s, s.procs[q].pc); }
    }
  }

  // ---- Every step --------------------------------------------------------

  /** Only the program counter moved, between places that hold no target data. */
  ghost predicate Moved(s: State, t: State, p: nat) {
    && p in s.procs && p in t.procs && t.procs == s.procs[p := s.procs[p].(pc := t.procs[p].pc)]
    && !Writing(s.procs[p]) && !Writing(t.procs[p])
    && !t.procs[p].pc.RRemove? && !t.procs[p].pc.RReceipt?
    && (t.procs[p].pc.DIntent? ==> ValidChunks(t.procs[p].pc.chunks))
    && t.db.events == s.db.events && t.rows == s.rows && t.payload == s.payload
    && t.attempts == s.attempts && t.overlapped == s.overlapped
  }

  lemma MovedKeeps(s: State, t: State, p: nat)
    requires Safe(s) && Moved(s, t, p)
    ensures Safe(t)
  {
    QuietKeeps(s, t, p, t.procs[p].pc);
  }

  lemma ReadMoves(s: State, t: State, p: nat)
    requires p in s.procs && ReadStep(s, p) == Some(t)
    ensures Moved(s, t, p)
  {
    var pc := s.procs[p].pc;
    if pc.REvents? {
      EventsReadMoves(s, t, p, pc.unread, pc.found);
    } else if RetractReading(pc) {
      RetractReadMoves(s, t, p);
    } else {
      DispatchReadMoves(s, t, p);
    }
  }

  lemma EventsReadMoves(s: State, t: State, p: nat, unread: seq<string>, found: seq<(string, int)>)
    requires p in s.procs && s.procs[p].pc == REvents(unread, found) && ReadStep(s, p) == Some(t)
    ensures Moved(s, t, p)
  {
    if unread != [] { var log := EventLog(s, unread[0]); }
  }

  ghost predicate RetractReading(pc: Pc) {
    pc.IStart? || pc.RStart? || pc.RLoop?
  }

  lemma DispatchReadMoves(s: State, t: State, p: nat)
    requires p in s.procs && !s.procs[p].pc.REvents? && !RetractReading(s.procs[p].pc)
    requires ReadStep(s, p) == Some(t)
    ensures Moved(s, t, p)
  {
  }

  lemma RetractReadMoves(s: State, t: State, p: nat)
    requires p in s.procs && RetractReading(s.procs[p].pc) && ReadStep(s, p) == Some(t)
    ensures Moved(s, t, p)
  {
  }

  lemma DispatchMoves(s: State, t: State, p: nat, a: Act, at: string)
    requires p in s.procs && Admissible(a) && DispatchStep(s, p, a, at) == Some(t)
    requires !a.LogUnwritten? && (a.LogIntent? ==> AppendIntent(s.db, s.procs[p].pc.did, s.procs[p].pc.chunks, a.attempt, at).Err?)
    ensures Moved(s, t, p)
  {
  }

  lemma DispatchKeeps(s: State, t: State, p: nat, a: Act, at: string)
    requires Safe(s) && p in s.procs && Admissible(a) && DispatchStep(s, p, a, at) == Some(t)
    ensures Safe(t)
  {
    var pc := s.procs[p].pc;
    if a.LogUnwritten? {
      NeutralLogKeeps(s, t, p, Returned, pc.did, DeliveryEvent(Failure, None, None, Some(0), Some(a.error), Some(a.attempt)), at);
    } else if a.LogIntent? && AppendIntent(s.db, pc.did, pc.chunks, a.attempt, at).Ok? {
      IntentKeeps(s, t, p, pc.did, pc.chunks, a.attempt, at);
    } else {
      DispatchMoves(s, t, p, a, at);
      MovedKeeps(s, t, p);
    }
  }

  lemma WriterKeeps(s: State, t: State, p: nat, a: Act, at: string)
    requires Safe(s) && p in s.procs && WriterStep(s, p, a, at) == Some(t)
    ensures Safe(t)
  {
    var pc := s.procs[p].pc;
    assert ProcOk(s, pc);
    if a.Land? {
      LandKeeps(s, t, p, a.i, at);
    } else if a.LogOutcome? {
      AppendEffect(s, t, pc.did, pc.outcome, at);
      OutcomeKeeps(s, t, p);
    } else {
      QuietKeeps(s, t, p, t.procs[p].pc);
    }
  }

  lemma RetractMoves(s: State, t: State, p: nat, a: Act, at: string)
    requires p in s.procs && RetractStep(s, p, a, at) == Some(t) && !a.NoWriter? && !a.LogRemovalIntent?
    ensures Moved(s, t, p)
  {
  }

  lemma RetractKeeps(s: State, t: State, p: nat, a: Act, at: string)
    requires Safe(s) && p in s.procs && RetractStep(s, p, a, at) == Some(t)
    ensures Safe(t)
  {
    var pc := s.procs[p].pc;
    if a.NoWriter? {
      NeutralLogKeeps(s, t, p, t.procs[p].pc, pc.todo[0].0, RemovalEvent(RemovalFailure, None, None, Some(a.error)), at);
    } else if a.LogRemovalIntent? {
      NeutralLogKeeps(s, t, p, t.procs[p].pc, pc.todo[0].0, RemovalEvent(RemovalIntent, Some(pc.todo[0].1), None, None), at);
    } else {
      RetractMoves(s, t, p, a, at);
      MovedKeeps(s, t, p);
    }
  }

  lemma RemovalKeeps(s: State, t: State, p: nat, a: Act, at: string)
    requires Safe(s) && p in s.procs && RemovalStep(s, p, a, at) == Some(t)
    ensures Safe(t)
  {
    var pc := s.procs[p].pc;
    assert ProcOk(s, pc);
    if a.RemoveRow? {
      RemoveRowKeeps(s, t, p, a.key, at);
    } else if a.LogRemovalReceipt? {
      RemovalReceiptKeeps(s, t, p, at);
    } else if a.LogRemovalFailure? {
      NeutralLogKeeps(s, t, p, t.procs[p].pc, pc.did, RemovalEvent(RemovalFailure, None, None, Some(a.error)), at);
    } else {
      QuietKeeps(s, t, p, t.procs[p].pc);
    }
  }

  /** Calls do not read the rest of the ledger's tables in their invariant. */
  lemma EnvProc(s: State, t: State, tx: Tx, at: string, q: nat)
    requires q in s.procs && ProcOk(s, s.procs[q].pc) && EnvStep(s, tx, at) == Some(t)
    requires forall did :: LandingGrows(s, t, did) && EventLog(t, did) == EventLog(s, did)
    ensures ProcOk(t, t.procs[q].pc)
  {
    var pc := s.procs[q].pc;
    if pc.RRemove? && pc.clean { WindowStays(s, t, pc.did, pc.left); }
    if pc.RReceipt? && pc.clean { WindowStays(s, t, pc.did, {}); }
  }

  lemma EnvKeeps(s: State, t: State, tx: Tx, at: string)
    requires Safe(s) && EnvStep(s, tx, at) == Some(t)
    ensures Safe(t)
  {
    forall did, key ensures Landing(s, did, key) == Landing(t, did, key) {
    }
    forall did ensures DidOk(t, did) && LandingGrows(s, t, did) && EventLog(t, did) == EventLog(s, did) {
      assert DidOk(s, did);
      assert LandingGrows(s, t, did);
      DidUnchanged(s, t, did);
    }
    forall q | q in t.procs ensures ProcOk(t, t.procs[q].pc) {
      EnvProc(s, t, tx, at, q);
    }
  }

  lemma StepKeeps(s: State, t: State, p: nat, a: Act, at: string)
    requires Safe(s) && Admissible(a) && Step(s, p, a, at) == Some(t)
    ensures Safe(t)
  {
    if a.Env? {
      EnvKeeps(s, t, a.tx, at);
    } else if a.Start? || a.Crash? {
      if a.Crash? { assert ProcOk(s, s.procs[p].pc); }
      QuietKeeps(s, t, p, t.procs[p].pc);
    } else if a.Read? {
      ReadMoves(s, t, p);
      MovedKeeps(s, t, p);
    } else if DispatchStep(s, p, a, at).Some? {
      DispatchKeeps(s, t, p, a, at);
    } else if WriterStep(s, p, a, at).Some? {
      WriterKeeps(s, t, p, a, at);
    } else if RetractStep(s, p, a, at).Some? {
      RetractKeeps(s, t, p, a, at);
    } else {
      RemovalKeeps(s, t, p, a, at);
    }
  }

  lemma InitIsSafe(s: State)
    requires Init(s)
    ensures Safe(s)
  {
    forall did ensures DidOk(s, did) {
      assert EventLog(s, did) == [] && Rows(s, did) == map[];
    }
  }
}
