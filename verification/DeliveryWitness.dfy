/**
 The proviso of log soundness is needed: a complete, undisturbed run of one
 dispatch and one invalidation after which the log claims an empty target that
 holds the record's data. The write lands after the target-side removal, and its
 receipt is logged before the removal receipt.
 */
module DeliveryWitness {
  import opened Chunks
  import opened Delivery
  import opened DeliveryConvergence
  import opened DeliveryProtocol
  import opened DeliverySafety
  import opened Digests
  import opened Ledger
  import opened LedgerView
  import opened Wrappers

  const NOW := "now"
  const CHUNK := Chunk("c", "x", Sha(TextContent("x")), 1, JObj(map[]))
  const ROW := RecordRow("run", None, None, None, None, None, None, Manifest(map[]), Sha(ManifestContent(map[])),
                         Ledger.Pending, None, None, None)
  const DELIVERY := DeliveryRow("r", "kind", "target")

  lemma ReachesNext(s: State, t: State, p: nat, a: Act)
    requires Reachable(s) && Admissible(a) && Step(s, p, a, NOW) == Some(t)
    ensures Reachable(t)
  {
    var init: State, moves: seq<Move> :| Init(init) && After(init, moves) == Some(s)
      && forall i :: 0 <= i < |moves| ==> Admissible(moves[i].act);
    var more := moves + [Move(p, a, NOW)];
    assert more[..|more| - 1] == moves;
    assert After(init, more) == Some(t);
  }

  /** What the witness needs to know of a state: the record's state, the delivery's
      log and rows, and where the dispatch (0) and the invalidation (1) stand. */
  datatype Facts = Facts(state: RecordState, isOpen: bool, log: seq<DeliveryEvent>, landed: bool, pc0: Pc, pc1: Option<Pc>, used: set<string>)

  function Procs(f: Facts): map<nat, Proc> {
    var one: map<nat, Proc> := map[0 := Proc("r", f.pc0, false)];
    if f.pc1.None? then one else one[1 := Proc("r", f.pc1.value, false)]
  }

  ghost predicate Known(s: State, f: Facts) {
    && !s.disturbed && s.attempts == f.used
    && "r" in s.db.records && s.db.records["r"].state == f.state
    && s.db.deliveries == (if f.isOpen then map["d" := DELIVERY] else map[])
    && EventLog(s, "d") == f.log
    && Rows(s, "d") == (if f.landed then map["c" := CHUNK] else map[])
    && s.procs == Procs(f)
  }

  ghost predicate At(s: State, f: Facts) { Reachable(s) && Known(s, f) }

  function Moved(f: Facts, p: nat, pc: Pc): Facts {
    if p == 0 then f.(pc0 := pc) else f.(pc1 := Some(pc))
  }

  lemma ProcsMoved(f: Facts, p: nat, pc: Pc)
    requires p in Procs(f)
    ensures Procs(f)[p := Procs(f)[p].(pc := pc)] == Procs(Moved(f, p, pc))
  {
  }

  lemma KnownMoved(s: State, f: Facts, p: nat, pc: Pc)
    requires Known(s, f) && p in Procs(f)
    ensures Known(Go(s, p, pc), Moved(f, p, pc))
  {
    ProcsMoved(f, p, pc);
    assert Rows(Go(s, p, pc), "d") == Rows(s, "d") && EventLog(Go(s, p, pc), "d") == EventLog(s, "d");
  }

  /** A step that only moves one call. */
  lemma Quietly(s: State, f: Facts, p: nat, a: Act, pc: Pc) returns (t: State)
    requires At(s, f) && p in Procs(f) && Admissible(a) && Step(s, p, a, NOW) == Some(Go(s, p, pc))
    ensures At(t, Moved(f, p, pc))
  {
    t := Go(s, p, pc);
    ReachesNext(s, t, p, a);
    KnownMoved(s, f, p, pc);
  }

  /** A read that only moves one call. */
  lemma Reading(s: State, f: Facts, p: nat, pc: Pc) returns (t: State)
    requires At(s, f) && p in Procs(f) && !s.procs[p].pc.Returned?
    requires ReadStep(s, p) == Some(Go(s, p, pc))
    ensures At(t, Moved(f, p, pc))
  {
    assert !s.procs[p].crashed;
    assert Step(s, p, Read, NOW) == ReadStep(s, p);
    t := Quietly(s, f, p, Read, pc);
  }

  /** A step that logs e for the delivery and moves one call. */
  lemma Logging(s: State, f: Facts, p: nat, a: Act, e: DeliveryEvent, t: State, g: Facts)
    requires At(s, f) && p in Procs(f) && Admissible(a) && Step(s, p, a, NOW) == Some(t)
    requires AppendEvent(s.db, "d", e, NOW) == Ok(t.db) && t.rows == s.rows && t.attempts == g.used && t.procs == Procs(g)
    requires !t.disturbed && g.log == f.log + [e] && g.state == f.state && g.isOpen == f.isOpen && g.landed == f.landed
    ensures At(t, g)
  {
    ReachesNext(s, t, p, a);
    AppendEffect(s, t, "d", e, NOW);
    assert EventLog(t, "d") == EventLog(s, "d") + [e];
    assert Rows(t, "d") == Rows(s, "d");
  }

  /** The read of the record's delivery rows. */
  lemma ReadingRows(s: State, f: Facts, p: nat) returns (t: State)
    requires At(s, f) && p in Procs(f) && s.procs[p].pc == RRows && f.isOpen
    ensures At(t, Moved(f, p, REvents(["d"], [])))
  {
    var a := ReadRows(["d"]);
    var pc := REvents(["d"], []);
    assert s.procs[p].rid == "r" && !s.procs[p].crashed;
    assert RetractStep(s, p, a, NOW) == Some(Go(s, p, pc));
    assert DispatchStep(s, p, a, NOW).None? && WriterStep(s, p, a, NOW).None?;
    t := Quietly(s, f, p, a, pc);
  }

  lemma AppendAllowed(db: Db, e: DeliveryEvent)
    requires db.deliveries == map["d" := DELIVERY] && (e.kind == Intent ==> BindsSame(EventsOf(db.events, "d"), e))
    ensures AppendEvent(db, "d", e, NOW).Ok?
  {
  }

  function IntentOfChunk(): DeliveryEvent { IntentEvent(1, ChunksDigestOf([CHUNK]), "a") }
  function RemovalStarted(): DeliveryEvent { RemovalEvent(RemovalIntent, Some(1), None, None) }
  function Received(): DeliveryEvent { DeliveryEvent(Receipt, None, None, Some(1), None, Some("a")) }
  function RemovalDone(): DeliveryEvent { RemovalEvent(RemovalReceipt, None, Some(0), None) }
  function FinalLog(): seq<DeliveryEvent> { [IntentOfChunk(), RemovalStarted(), Received(), RemovalDone()] }

  /** A sealed record on a new ledger. */
  lemma SealedRecord() returns (s: State)
    ensures Reachable(s) && !s.disturbed && s.attempts == {} && s.procs == map[] && s.rows == map[] && s.db.events == []
    ensures "r" in s.db.records && s.db.records["r"].state == Sealed && s.db.deliveries == map[]
  {
    FreshIsConsistent();
    var s0 := DeliveryProtocol.State.State(FRESH, map[], map[], {}, map[], {}, false);
    assert Init(s0) && After(s0, []) == Some(s0);
    var s1 := Step(s0, 0, Env(TxCreate("r", ROW)), NOW).value;
    ReachesNext(s0, s1, 0, Env(TxCreate("r", ROW)));
    assert s1.db.records["r"] == ROW;
    s := Step(s1, 0, Env(TxSeal("r")), NOW).value;
    ReachesNext(s1, s, 0, Env(TxSeal("r")));
  }

  // ---- The run, one step a lemma -----------------------------------------

  lemma Started() returns (s: State)
    ensures At(s, Facts(Sealed, false, [], false, DStart("kind", "target"), None, {}))
  {
    var s0 := SealedRecord();
    var a := Start("r", DispatchCall("kind", "target"));
    s := s0.(procs := s0.procs[0 := Proc("r", DStart("kind", "target"), false)]);
    assert Step(s0, 0, a, NOW) == Some(s);
    ReachesNext(s0, s, 0, a);
    assert EventLog(s, "d") == [];
  }

  lemma Checked() returns (s: State)
    ensures At(s, Facts(Sealed, false, [], false, DOpen("kind", "target"), None, {}))
  {
    var s0 := Started();
    s := Reading(s0, Facts(Sealed, false, [], false, DStart("kind", "target"), None, {}), 0, DOpen("kind", "target"));
  }

  lemma OpenedDelivery() returns (s: State)
    ensures At(s, Facts(Sealed, true, [], false, DGet("d"), None, {}))
  {
    var s0 := Checked();
    var db := OpenDelivery(s0.db, "d", DELIVERY, NOW).value;
    s := Go(s0.(db := db), 0, DGet("d"));
    assert DispatchStep(s0, 0, Open("d"), NOW) == Some(s);
    ReachesNext(s0, s, 0, Open("d"));
    assert EventLog(s, "d") == EventLog(s0, "d");
    assert s.procs == map[0 := Proc("r", DGet("d"), false)];
  }

  lemma NotDelivered() returns (s: State)
    ensures At(s, Facts(Sealed, true, [], false, DTransform("d"), None, {}))
  {
    var s0 := OpenedDelivery();
    s := Reading(s0, Facts(Sealed, true, [], false, DGet("d"), None, {}), 0, DTransform("d"));
  }

  lemma ReadyToWrite() returns (s: State)
    ensures At(s, Facts(Sealed, true, [], false, DIntent("d", [CHUNK]), None, {}))
  {
    var s0 := NotDelivered();
    assert ValidChunks([CHUNK]);
    assert DispatchStep(s0, 0, Transform([CHUNK]), NOW) == Some(Go(s0, 0, DIntent("d", [CHUNK])));
    s := Quietly(s0, Facts(Sealed, true, [], false, DTransform("d"), None, {}), 0, Transform([CHUNK]), DIntent("d", [CHUNK]));
  }

  const WRITING := DWriting("d", "a", [CHUNK], {})

  lemma Intended() returns (s: State)
    ensures At(s, Facts(Sealed, true, [IntentOfChunk()], false, WRITING, None, {"a"}))
  {
    var s0 := ReadyToWrite();
    var f := Facts(Sealed, true, [], false, DIntent("d", [CHUNK]), None, {});
    AppendAllowed(s0.db, IntentOfChunk());
    var db := AppendEvent(s0.db, "d", IntentOfChunk(), NOW).value;
    assert AppendIntent(s0.db, "d", [CHUNK], "a", NOW) == Ok(db);
    s := DispatchStep(s0, 0, LogIntent("a"), NOW).value;
    assert s.procs == map[0 := Proc("r", WRITING, false)];
    Logging(s0, f, 0, LogIntent("a"), IntentOfChunk(), s, Facts(Sealed, true, [IntentOfChunk()], false, WRITING, None, {"a"}));
  }

  /** The invalidation starts while the write is open. */
  lemma InvalidationStarts() returns (s: State)
    ensures At(s, Facts(Sealed, true, [IntentOfChunk()], false, WRITING, Some(IStart("why")), {"a"}))
  {
    var s0 := Intended();
    var a := Start("r", InvalidateCall("why"));
    s := s0.(procs := s0.procs[1 := Proc("r", IStart("why"), false)]);
    assert Step(s0, 1, a, NOW) == Some(s);
    ReachesNext(s0, s, 1, a);
    assert s.procs == Procs(Facts(Sealed, true, [IntentOfChunk()], false, WRITING, Some(IStart("why")), {"a"}));
    assert EventLog(s, "d") == EventLog(s0, "d") && Rows(s, "d") == Rows(s0, "d");
  }

  lemma Invalidating() returns (s: State)
    ensures At(s, Facts(Sealed, true, [IntentOfChunk()], false, WRITING, Some(ICommit("why")), {"a"}))
  {
    var s0 := InvalidationStarts();
    s := Reading(s0, Facts(Sealed, true, [IntentOfChunk()], false, WRITING, Some(IStart("why")), {"a"}), 1, ICommit("why"));
  }

  lemma InvalidatedRecord() returns (s: State)
    ensures At(s, Facts(Invalidated, true, [IntentOfChunk()], false, WRITING, Some(RStart), {"a"}))
  {
    var s0 := Invalidating();
    var db := Invalidate(s0.db, "r", "why", NOW).value;
    s := Go(s0.(db := db), 1, RStart);
    assert RetractStep(s0, 1, CommitInvalidation, NOW) == Some(s);
    ReachesNext(s0, s, 1, CommitInvalidation);
    assert EventLog(s, "d") == EventLog(s0, "d") && Rows(s, "d") == Rows(s0, "d");
    assert s.procs == Procs(Facts(Invalidated, true, [IntentOfChunk()], false, WRITING, Some(RStart), {"a"}));
  }

  lemma RowsRead() returns (s: State)
    ensures At(s, Facts(Invalidated, true, [IntentOfChunk()], false, WRITING, Some(REvents(["d"], [])), {"a"}))
  {
    var s0 := InvalidatedRecord();
    var f := Facts(Invalidated, true, [IntentOfChunk()], false, WRITING, Some(RStart), {"a"});
    var s1 := Reading(s0, f, 1, RRows);
    s := ReadingRows(s1, f.(pc1 := Some(RRows)), 1);
  }

  lemma EventsRead() returns (s: State)
    ensures At(s, Facts(Invalidated, true, [IntentOfChunk()], false, WRITING, Some(REvents([], [("d", 1)])), {"a"}))
  {
    var s0 := RowsRead();
    var f := Facts(Invalidated, true, [IntentOfChunk()], false, WRITING, Some(REvents(["d"], [])), {"a"});
    OpenIntentIsClaimed();
    assert [("d", 1)] == [] + [("d", 1)];
    assert ["d"][1..] == [];
    s := Reading(s0, f, 1, REvents([], [("d", 1)]));
  }

  lemma OpenIntentIsClaimed()
    ensures PossiblyWritten([IntentOfChunk()]) && PlannedOf([IntentOfChunk()]) == 1
  {
    var log := [IntentOfChunk()];
    assert log == [] + [IntentOfChunk()];
    ClaimAppend([], IntentOfChunk());
    assert "a" in ClaimOf(log).outstanding;
    FirstIntentAppend([], IntentOfChunk());
  }

  lemma ToRemove() returns (s: State)
    ensures At(s, Facts(Invalidated, true, [IntentOfChunk()], false, WRITING, Some(RLoop([("d", 1)])), {"a"}))
  {
    var s0 := EventsRead();
    s := Reading(s0, Facts(Invalidated, true, [IntentOfChunk()], false, WRITING, Some(REvents([], [("d", 1)])), {"a"}),
                 1, RLoop([("d", 1)]));
  }

  const STARTED := [IntentOfChunk(), RemovalStarted()]

  lemma RemovalAnnounced() returns (s: State)
    ensures At(s, Facts(Invalidated, true, STARTED, false, WRITING, Some(RCall("d", [])), {"a"}))
  {
    var s0 := ToRemove();
    var f := Facts(Invalidated, true, [IntentOfChunk()], false, WRITING, Some(RLoop([("d", 1)])), {"a"});
    var g := f.(log := STARTED, pc1 := Some(RCall("d", [])));
    AppendAllowed(s0.db, RemovalStarted());
    s := AnnouncedBy(s0, AppendEvent(s0.db, "d", RemovalStarted(), NOW).value);
    assert s.procs == Procs(g);
    Logging(s0, f, 1, LogRemovalIntent, RemovalStarted(), s, g);
  }

  lemma AnnouncedBy(s: State, db: Db) returns (t: State)
    requires 1 in s.procs && s.procs[1] == Proc("r", RLoop([("d", 1)]), false)
    requires AppendEvent(s.db, "d", RemovalStarted(), NOW) == Ok(db)
    ensures t == Go(s.(db := db), 1, RCall("d", []))
    ensures Step(s, 1, LogRemovalIntent, NOW) == Some(t)
  {
    t := Go(s.(db := db), 1, RCall("d", []));
    assert [("d", 1)][1..] == [];
    assert RetractStep(s, 1, LogRemovalIntent, NOW) == Some(t);
  }

  lemma RemovalBegun() returns (s: State)
    ensures At(s, Facts(Invalidated, true, STARTED, false, WRITING, Some(RRemove("d", {}, true, [])), {"a"}))
  {
    var s0 := RemovalAnnounced();
    var f := Facts(Invalidated, true, STARTED, false, WRITING, Some(RCall("d", [])), {"a"});
    assert Rows(s0, "d").Keys == {};
    assert RemovalStep(s0, 1, BeginRemove, NOW) == Some(Go(s0, 1, RRemove("d", {}, true, [])));
    s := Quietly(s0, f, 1, BeginRemove, RRemove("d", {}, true, []));
  }

  /** The target-side removal returns; nothing had landed yet. */
  lemma RemovedAtTarget() returns (s: State)
    ensures At(s, Facts(Invalidated, true, STARTED, false, WRITING, Some(RReceipt("d", Some(0), true, [])), {"a"}))
  {
    var s0 := RemovalBegun();
    var f := Facts(Invalidated, true, STARTED, false, WRITING, Some(RRemove("d", {}, true, [])), {"a"});
    assert RemovalStep(s0, 1, RemovalReturns(Some(0)), NOW) == Some(Go(s0, 1, RReceipt("d", Some(0), true, [])));
    s := Quietly(s0, f, 1, RemovalReturns(Some(0)), RReceipt("d", Some(0), true, []));
  }

  /** Only now does the write land. */
  lemma Landed() returns (s: State)
    ensures At(s, Facts(Invalidated, true, STARTED, true, DWriting("d", "a", [CHUNK], {0}),
                        Some(RReceipt("d", Some(0), true, [])), {"a"}))
  {
    var s0 := RemovedAtTarget();
    s := WriterStep(s0, 0, Land(0), NOW).value;
    ReachesNext(s0, s, 0, Land(0));
    assert [CHUNK][0] == CHUNK;
    assert Rows(s, "d") == map["c" := CHUNK];
    assert EventLog(s, "d") == EventLog(s0, "d");
    assert {} + {0} == {0};
    assert s.procs == Procs(Facts(Invalidated, true, STARTED, true, DWriting("d", "a", [CHUNK], {0}),
                        Some(RReceipt("d", Some(0), true, [])), {"a"}));
  }

  const RECEIVED := [IntentOfChunk(), RemovalStarted(), Received()]

  /** With its one chunk landed, the writer may return. */
  lemma WriterDone(s: State)
    requires 0 in s.procs && s.procs[0] == Proc("r", DWriting("d", "a", [CHUNK], {0}), false)
    ensures Step(s, 0, WriterReturns, NOW) == Some(Go(s, 0, DOutcome("d", "a", [CHUNK], {0}, Received())))
  {
    assert WriterStep(s, 0, WriterReturns, NOW) == Some(Go(s, 0, DOutcome("d", "a", [CHUNK], {0}, Received())));
  }

  lemma WriteReturned() returns (s: State)
    ensures At(s, Facts(Invalidated, true, STARTED, true, DOutcome("d", "a", [CHUNK], {0}, Received()),
                        Some(RReceipt("d", Some(0), true, [])), {"a"}))
  {
    var s0 := Landed();
    var f := Facts(Invalidated, true, STARTED, true, DWriting("d", "a", [CHUNK], {0}), Some(RReceipt("d", Some(0), true, [])), {"a"});
    var pc := DOutcome("d", "a", [CHUNK], {0}, Received());
    WriterDone(s0);
    s := Quietly(s0, f, 0, WriterReturns, pc);
  }

  /** Its receipt is logged inside the removal's window. */
  lemma ReceiptLogged() returns (s: State)
    ensures At(s, Facts(Invalidated, true, RECEIVED, true, DRecheck, Some(RReceipt("d", Some(0), false, [])), {"a"}))
  {
    var s0 := WriteReturned();
    var f := Facts(Invalidated, true, STARTED, true, DOutcome("d", "a", [CHUNK], {0}, Received()),
                   Some(RReceipt("d", Some(0), true, [])), {"a"});
    var g := Facts(Invalidated, true, RECEIVED, true, DRecheck, Some(RReceipt("d", Some(0), false, [])), {"a"});
    AppendAllowed(s0.db, Received());
    s := AfterReceipt(s0, g);
    assert DispatchStep(s0, 0, LogOutcome, NOW).None?;
    Logging(s0, f, 0, LogOutcome, Received(), s, g);
  }

  lemma AfterReceipt(s: State, g: Facts) returns (t: State)
    requires 0 in s.procs && s.procs == map[0 := Proc("r", DOutcome("d", "a", [CHUNK], {0}, Received()), false),
                                            1 := Proc("r", RReceipt("d", Some(0), true, []), false)]
    requires g.pc0 == DRecheck && g.pc1 == Some(RReceipt("d", Some(0), false, []))
    requires AppendEvent(s.db, "d", Received(), NOW).Ok?
    ensures WriterStep(s, 0, LogOutcome, NOW) == Some(t)
    ensures AppendEvent(s.db, "d", Received(), NOW) == Ok(t.db) && t.procs == Procs(g)
    ensures t.rows == s.rows && t.attempts == s.attempts && t.disturbed == s.disturbed
  {
    var db := AppendEvent(s.db, "d", Received(), NOW).value;
    t := OutcomeLogged(s, 0, db);
    OverlapOfBoth(s.procs);
    assert t.procs == Procs(g);
  }

  lemma OutcomeLogged(s: State, p: nat, db: Db) returns (t: State)
    requires p in s.procs && s.procs[p].pc == DOutcome("d", "a", [CHUNK], {0}, Received())
    requires AppendEvent(s.db, "d", Received(), NOW) == Ok(db)
    ensures t == Go(s.(db := db, procs := Overlap(s.procs, "d")), p, DRecheck)
    ensures WriterStep(s, p, LogOutcome, NOW) == Some(t)
  {
    t := Go(s.(db := db, procs := Overlap(s.procs, "d")), p, DRecheck);
    assert Received().MayHaveWritten();
  }

  lemma OverlapOfBoth(procs: map<nat, Proc>)
    requires 0 in procs && 1 in procs && procs.Keys == {0, 1}
    requires procs[1] == Proc("r", RReceipt("d", Some(0), true, []), false)
    ensures Overlap(procs, "d")[0 := procs[0].(pc := DRecheck)]
         == map[0 := procs[0].(pc := DRecheck), 1 := Proc("r", RReceipt("d", Some(0), false, []), false)]
  {
  }

  lemma RemovalReceiptLogged() returns (s: State)
    ensures At(s, Facts(Invalidated, true, FinalLog(), true, DRecheck, Some(RLoop([])), {"a"}))
  {
    var s0 := ReceiptLogged();
    var f := Facts(Invalidated, true, RECEIVED, true, DRecheck, Some(RReceipt("d", Some(0), false, [])), {"a"});
    var g := f.(log := FinalLog(), pc1 := Some(RLoop([])));
    AppendAllowed(s0.db, RemovalDone());
    s := RemovedBy(s0, AppendEvent(s0.db, "d", RemovalDone(), NOW).value);
    assert s.procs == Procs(g);
    Logging(s0, f, 1, LogRemovalReceipt, RemovalDone(), s, g);
  }

  lemma RemovedBy(s: State, db: Db) returns (t: State)
    requires 1 in s.procs && s.procs[1] == Proc("r", RReceipt("d", Some(0), false, []), false)
    requires AppendEvent(s.db, "d", RemovalDone(), NOW) == Ok(db)
    ensures t == Go(s.(db := db, overlapped := s.overlapped + {"d"}), 1, RLoop([]))
    ensures Step(s, 1, LogRemovalReceipt, NOW) == Some(t)
  {
    t := Go(s.(db := db, overlapped := s.overlapped + {"d"}), 1, RLoop([]));
    assert RemovalStep(s, 1, LogRemovalReceipt, NOW) == Some(t);
  }

  lemma FinalLogClaimsNothing()
    ensures !PossiblyWritten(FinalLog())
  {
    var l1 := [IntentOfChunk()];
    assert [] + [IntentOfChunk()] == l1;
    ClaimAppend([], IntentOfChunk());
    assert l1 + [RemovalStarted()] == STARTED;
    ClaimAppend(l1, RemovalStarted());
    assert STARTED + [Received()] == RECEIVED;
    ClaimAppend(STARTED, Received());
    assert RECEIVED + [RemovalDone()] == FinalLog();
    ClaimAppend(RECEIVED, RemovalDone());
    assert ClaimOf(l1).outstanding == {"a"};
    assert ClaimOf(RECEIVED).outstanding == {};
  }

  lemma InvalidationReturned() returns (s: State)
    ensures At(s, Facts(Invalidated, true, FinalLog(), true, DRecheck, Some(Returned), {"a"}))
  {
    var s0 := RemovalReceiptLogged();
    s := Reading(s0, Facts(Invalidated, true, FinalLog(), true, DRecheck, Some(RLoop([])), {"a"}), 1, Returned);
  }

  /** The dispatch re-checks the record, retracts, and skips the delivery. */
  lemma Rechecked() returns (s: State)
    ensures At(s, Facts(Invalidated, true, FinalLog(), true, RStart, Some(Returned), {"a"}))
  {
    var s0 := InvalidationReturned();
    s := Reading(s0, Facts(Invalidated, true, FinalLog(), true, DRecheck, Some(Returned), {"a"}), 0, RStart);
  }

  lemma RowsReadAgain() returns (s: State)
    ensures At(s, Facts(Invalidated, true, FinalLog(), true, REvents(["d"], []), Some(Returned), {"a"}))
  {
    var s0 := Rechecked();
    var f := Facts(Invalidated, true, FinalLog(), true, RStart, Some(Returned), {"a"});
    var s1 := Reading(s0, f, 0, RRows);
    s := ReadingRows(s1, f.(pc0 := RRows), 0);
  }

  lemma Skipped() returns (s: State)
    ensures At(s, Facts(Invalidated, true, FinalLog(), true, REvents([], []), Some(Returned), {"a"}))
  {
    var s0 := RowsReadAgain();
    FinalLogClaimsNothing();
    assert ["d"][1..] == [];
    s := Reading(s0, Facts(Invalidated, true, FinalLog(), true, REvents(["d"], []), Some(Returned), {"a"}), 0, REvents([], []));
  }

  lemma NothingToRemove() returns (s: State)
    ensures At(s, Facts(Invalidated, true, FinalLog(), true, RLoop([]), Some(Returned), {"a"}))
  {
    var s0 := Skipped();
    s := Reading(s0, Facts(Invalidated, true, FinalLog(), true, REvents([], []), Some(Returned), {"a"}), 0, RLoop([]));
  }

  lemma BothReturned() returns (s: State)
    ensures At(s, Facts(Invalidated, true, FinalLog(), true, Returned, Some(Returned), {"a"}))
  {
    var s0 := NothingToRemove();
    s := Reading(s0, Facts(Invalidated, true, FinalLog(), true, RLoop([]), Some(Returned), {"a"}), 0, Returned);
  }

  ghost predicate HiddenData(s: State, did: string) {
    && Reachable(s) && AllReturned(s) && !s.disturbed && Withdrawn(s, did)
    && !PossiblyWritten(EventLog(s, did)) && Rows(s, did) != map[]
  }

  /** Both calls return, nothing crashed or failed, the record is invalidated, the
      log claims nothing was written, and the chunk is still at the target. */
  lemma OverlapHidesData()
    ensures exists s :: HiddenData(s, "d")
  {
    var s := BothReturned();
    FinalLogClaimsNothing();
    assert "c" in Rows(s, "d");
    assert HiddenData(s, "d");
  }
}
