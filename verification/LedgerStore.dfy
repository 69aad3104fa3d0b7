/**
 The ledger database as the object its writers update in place
 (stele/ledger/store.py, stele/ledger/delivery.py), its verifier and its
 migration (stele/ledger/events.py, stele/ledger/migration.py).
 */
module LedgerStore {
  import opened Chunks
  import opened Delivery
  import opened Digests
  import opened EventChain
  import opened Ledger
  import opened LedgerView
  import opened Wrappers

  const SCHEMA_VERSION := 8

  class LedgerDatabase {
    var records: map<string, RecordRow>
    var deliveries: map<string, DeliveryRow>
    var events: seq<EventRow>
    var replays: map<string, ReplayRow>
    var chain: seq<ChainEvent>
    var userVersion: int

    ghost function Db(): Ledger.Db
      reads this
    {
      Ledger.Db.Db(records, deliveries, events, replays, chain)
    }

    /** A new database at the current schema. */
    constructor ()
      ensures Db() == FRESH && userVersion == SCHEMA_VERSION && Inv(Db())
    {
      records, deliveries, events, replays, chain := map[], map[], [], map[], [];
      userVersion := SCHEMA_VERSION;
    }

    /** append_event; the caller holds the write transaction. */
    method AppendChainEvent(kind: Kind, subject: string, body: Json, at: string)
      modifies this`chain
      ensures chain == Appended(old(chain), kind, subject, body, at)
    {
      var seqNo, prev := 1, Genesis;
      if chain != [] {
        var last := chain[|chain| - 1];
        seqNo, prev := last.seqNo + 1, last.hash;
      }
      var digest := Sha(EventContent(seqNo, kind, subject, Parsed(body), at, prev));
      chain := chain + [ChainEvent(seqNo, kind, subject, Parsed(body), at, prev, digest)];
    }

    method CreatePending(id: string, row: RecordRow, at: string) returns (r: Result<RecordRow, LedgerError>)
      modifies this
      ensures var done := Ledger.CreatePending(old(Db()), id, row, at);
        && Db() == (if done.Ok? then done.value else old(Db()))
        && userVersion == old(userVersion)
        && r == (if done.Ok? then Ok(row.(state := Pending)) else Err(done.error))
    {
      if id in records {
        return Err(DuplicateKey);
      }
      if RunTaken(Ledger.Db.Db(records, deliveries, events, replays, chain), row.runId) {
        return Err(DuplicateRun);
      }
      records := records[id := row.(state := Pending)];
      AppendChainEvent(RecordCreated, id, RecordBody(row, false), at);
      return Ok(records[id]);
    }

    /** _transition: update the row only if it is still in one of the states. */
    method Transition(id: string, from: set<RecordState>, row: RecordRow, kind: Kind, body: Json, at: string)
      returns (r: Result<RecordRow, LedgerError>)
      modifies this
      ensures var done := Ledger.Transition(old(Db()), id, from, row, kind, body, at);
        && Db() == (if done.Ok? then done.value else old(Db()))
        && userVersion == old(userVersion)
        && r == (if done.Ok? then Ok(row) else Err(done.error))
    {
      if id !in records {
        return Err(NotFound);
      }
      if records[id].state !in from {
        return Err(InvalidTransition);
      }
      records := records[id := row];
      AppendChainEvent(kind, id, body, at);
      return Ok(row);
    }

    /** seal: archiving the bundle either succeeds first, or the record stays as it is. */
    method Seal(id: string, archived: bool, at: string) returns (r: Result<RecordRow, LedgerError>)
      modifies this
      ensures var done := if archived then Ledger.Seal(old(Db()), id, at) else Err(InvalidTransition);
        && Db() == (if done.Ok? then done.value else old(Db()))
        && (r.Ok? <==> done.Ok?)
        && (r.Ok? ==> r.value.state == Sealed && r.value == records[id])
    {
      if id !in records {
        return Err(NotFound);
      }
      var record := records[id];
      if record.state != Pending || !archived {
        return Err(InvalidTransition);
      }
      r := Transition(id, {Pending}, record.(state := Sealed, finalizedAt := Some(at)), RecordSealed,
                      JObj(map[ArtifactHash := JStr(Hex(record.artifactHash))]), at);
    }

    method Fail(id: string, error: string, at: string) returns (r: Result<RecordRow, LedgerError>)
      modifies this
      ensures var done := Ledger.Fail(old(Db()), id, error, at);
        && Db() == (if done.Ok? then done.value else old(Db()))
        && (r.Ok? <==> done.Ok?)
        && (r.Ok? ==> r.value.state == RunFailed && r.value == records[id])
    {
      if id !in records {
        return Err(NotFound);
      }
      var record := records[id];
      if record.state == Sealed || record.state == Invalidated {
        return Err(InvalidTransition);
      }
      r := Transition(id, {Pending, RunFailed},
                      record.(state := RunFailed, finalizedAt := Some(at), error := Some(error)),
                      RecordFailed, JObj(map[Error := JStr(Plain(error))]), at);
    }

    method Invalidate(id: string, reason: string, at: string) returns (r: Result<RecordRow, LedgerError>)
      modifies this
      ensures var done := Ledger.Invalidate(old(Db()), id, reason, at);
        && Db() == (if done.Ok? then done.value else old(Db()))
        && (r.Ok? <==> done.Ok?)
        && (r.Ok? ==> r.value.state == Invalidated && r.value == records[id])
    {
      if id !in records {
        return Err(NotFound);
      }
      var record := records[id];
      if record.state == Invalidated || record.state == RunFailed {
        return Err(InvalidTransition);
      }
      r := Transition(id, {Pending, Sealed},
                      record.(state := Invalidated, finalizedAt := Some(at), error := Some("INVALIDATED: " + reason)),
                      RecordInvalidated, JObj(map[Reason := JStr(Plain(reason))]), at);
    }

    /** open_delivery: the delivery's id, new only if the (record, target) pair is. */
    method OpenDelivery(newId: string, row: DeliveryRow, at: string) returns (r: Result<string, LedgerError>)
      requires newId !in deliveries
      modifies this
      ensures var done := Ledger.OpenDelivery(old(Db()), newId, row, at);
        && Db() == (if done.Ok? then done.value else old(Db()))
        && (r.Ok? <==> done.Ok?)
        && (r.Ok? ==> r.value in deliveries && deliveries[r.value] == row)
    {
      if row.recordId !in records {
        return Err(ForeignKey);
      }
      if exists d | d in deliveries :: deliveries[d] == row {
        var d :| d in deliveries && deliveries[d] == row;
        return Ok(d);
      }
      deliveries := deliveries[newId := row];
      AppendChainEvent(DeliveryOpened, newId, DeliveryBody(row), at);
      return Ok(newId);
    }

    method Append(did: string, event: DeliveryEvent, at: string) returns (r: Result<(), LedgerError>)
      modifies this
      ensures var done := Ledger.AppendEvent(old(Db()), did, event, at);
        && Db() == (if done.Ok? then done.value else old(Db()))
        && r == (if done.Ok? then Ok(()) else Err(done.error))
    {
      if did !in deliveries {
        return Err(ForeignKey);
      }
      if event.kind == Intent && !BindsSame(EventsOf(events, did), event) {
        return Err(PayloadConflict);
      }
      events := events + [EventRow(did, event)];
      AppendChainEvent(DeliveryEventLogged, did, EventBody(event), at);
      return Ok(());
    }

    method AppendIntent(did: string, chunks: seq<Chunk>, attempt: string, at: string)
      returns (r: Result<string, LedgerError>)
      modifies this
      ensures var done := Ledger.AppendIntent(old(Db()), did, chunks, attempt, at);
        && Db() == (if done.Ok? then done.value else old(Db()))
        && r == (if done.Ok? then Ok(attempt) else Err(done.error))
    {
      var first := FirstIntent(EventsOf(events, did));
      var digest := ChunksDigestOf(chunks);
      if first.Some? {
        if first.value.planned != Some(|chunks|) {
          return Err(PayloadConflict);
        }
        if first.value.digest.None? {
          return Err(BadIntent);
        }
        if !PayloadMatches(first.value.digest.value, chunks) {
          return Err(PayloadConflict);
        }
        digest := first.value.digest.value;
      }
      var done := Append(did, IntentEvent(|chunks|, digest, attempt), at);
      return if done.Ok? then Ok(attempt) else Err(done.error);
    }

    /** append_unwritten_failure: an attempt of its own that wrote nothing. */
    method AppendUnwrittenFailure(did: string, error: string, attempt: string, at: string)
      returns (r: Result<(), LedgerError>)
      modifies this
      ensures did in old(deliveries) ==>
        && r.Ok? && events == old(events) + [EventRow(did, DeliveryEvent(Failure, None, None, Some(0), Some(error), Some(attempt)))]
        && (attempt !in ClaimOf(EventsOf(old(events), did)).outstanding ==>
              ClaimOf(EventsOf(events, did)) == ClaimOf(EventsOf(old(events), did)))
      ensures did !in old(deliveries) ==> r.Err? && Db() == old(Db())
    {
      var e := DeliveryEvent(Failure, None, None, Some(0), Some(error), Some(attempt));
      EventsOfAppend(events, EventRow(did, e), did);
      ClaimAppend(EventsOf(events, did), e);
      r := Append(did, e, at);
    }

    method LogReplay(id: string, row: ReplayRow, at: string) returns (r: Result<(), LedgerError>)
      modifies this
      ensures var done := Ledger.LogReplay(old(Db()), id, row, at);
        && Db() == (if done.Ok? then done.value else old(Db()))
        && r == (if done.Ok? then Ok(()) else Err(done.error))
    {
      if id in replays {
        return Err(DuplicateKey);
      }
      if row.recordId !in records {
        return Err(ForeignKey);
      }
      replays := replays[id := row];
      AppendChainEvent(ReplayLogged, id, ReplayBody(row), at);
      return Ok(());
    }

    // ---- Migration -------------------------------------------------------

    /** backfill: log the state found as *.imported events. The chain it builds is
        intact and rebuilds exactly the tables it found. */
    method Backfill(at: string)
      requires chain == [] && forall id :: id in records ==> HonestRow(records[id])
      modifies this`chain
      ensures Inv(Db())
    {
      BackfillRecords(at);
      BackfillDeliveries(at);
      BackfillEvents(at);
      BackfillReplays(at);
    }

    method BackfillRecords(at: string)
      requires chain == [] && forall id :: id in records ==> HonestRow(records[id])
      modifies this`chain
      ensures Inv(Ledger.Db.Db(records, map[], [], map[], chain))
    {
      var todo := records.Keys;
      ghost var done: map<string, RecordRow> := map[];
      while todo != {}
        invariant Copied(records, todo, done)
        invariant Inv(Ledger.Db.Db(done, map[], [], map[], chain))
      {
        var k :| k in todo;
        CopyOne(records, todo, done, k);
        todo := todo - {k};
        ImportRecord(k, done, at);
        done := done[k := records[k]];
      }
      AllCopied(records, done);
    }

    method ImportRecord(k: string, ghost done: map<string, RecordRow>, at: string)
      requires k in records && k !in done && Inv(Ledger.Db.Db(done, map[], [], map[], chain)) && HonestRow(records[k])
      modifies this`chain
      ensures Inv(Ledger.Db.Db(done[k := records[k]], map[], [], map[], chain))
    {
      ImportRecordKeeps(Ledger.Db.Db(done, map[], [], map[], chain), k, records[k], at);
      AppendChainEvent(RecordImported, k, RecordBody(records[k], true), at);
    }

    method BackfillDeliveries(at: string)
      requires Inv(Ledger.Db.Db(records, map[], [], map[], chain))
      modifies this`chain
      ensures Inv(Ledger.Db.Db(records, deliveries, [], map[], chain))
    {
      var todo := deliveries.Keys;
      ghost var done: map<string, DeliveryRow> := map[];
      while todo != {}
        invariant Copied(deliveries, todo, done)
        invariant Inv(Ledger.Db.Db(records, done, [], map[], chain))
      {
        var k :| k in todo;
        CopyOne(deliveries, todo, done, k);
        todo := todo - {k};
        ImportDelivery(k, done, at);
        done := done[k := deliveries[k]];
      }
      AllCopied(deliveries, done);
    }

    method ImportDelivery(k: string, ghost done: map<string, DeliveryRow>, at: string)
      requires k in deliveries && k !in done && Inv(Ledger.Db.Db(records, done, [], map[], chain))
      modifies this`chain
      ensures Inv(Ledger.Db.Db(records, done[k := deliveries[k]], [], map[], chain))
    {
      ImportDeliveryKeeps(Ledger.Db.Db(records, done, [], map[], chain), k, deliveries[k], at);
      AppendChainEvent(DeliveryImported, k, DeliveryBody(deliveries[k]), at);
    }

    method BackfillEvents(at: string)
      requires Inv(Ledger.Db.Db(records, deliveries, [], map[], chain))
      modifies this`chain
      ensures Inv(Ledger.Db.Db(records, deliveries, events, map[], chain))
    {
      assert events[..0] == [];
      for i := 0 to |events|
        invariant Inv(Ledger.Db.Db(records, deliveries, events[..i], map[], chain))
      {
        BackfillEvent(i, at);
      }
      assert events[..|events|] == events;
    }

    method BackfillEvent(i: nat, at: string)
      requires i < |events| && Inv(Ledger.Db.Db(records, deliveries, events[..i], map[], chain))
      modifies this`chain
      ensures Inv(Ledger.Db.Db(records, deliveries, events[..i + 1], map[], chain))
    {
      var e := events[i];
      ghost var before := Ledger.Db.Db(records, deliveries, events[..i], map[], chain);
      assert before.events + [e] == events[..i + 1];
      ghost var after := Log(before.(events := events[..i + 1]), DeliveryEventImported, e.dispatchId, EventBody(e.event), at);
      assert Inv(after) by { ImportEventKeeps(before, e, at); }
      AppendChainEvent(DeliveryEventImported, e.dispatchId, EventBody(e.event), at);
      assert after == Ledger.Db.Db(records, deliveries, events[..i + 1], map[], chain);
    }

    method BackfillReplays(at: string)
      requires Inv(Ledger.Db.Db(records, deliveries, events, map[], chain))
      modifies this`chain
      ensures Inv(Db())
    {
      var todo := replays.Keys;
      ghost var done: map<string, ReplayRow> := map[];
      while todo != {}
        invariant Copied(replays, todo, done)
        invariant Inv(Ledger.Db.Db(records, deliveries, events, done, chain))
      {
        var k :| k in todo;
        CopyOne(replays, todo, done, k);
        todo := todo - {k};
        ImportReplay(k, done, at);
        done := done[k := replays[k]];
      }
      AllCopied(replays, done);
    }

    method ImportReplay(k: string, ghost done: map<string, ReplayRow>, at: string)
      requires k in replays && k !in done && Inv(Ledger.Db.Db(records, deliveries, events, done, chain))
      modifies this`chain
      ensures Inv(Ledger.Db.Db(records, deliveries, events, done[k := replays[k]], chain))
    {
      ImportReplayKeeps(Ledger.Db.Db(records, deliveries, events, done, chain), k, replays[k], at);
      AppendChainEvent(ReplayImported, k, ImportedReplayBody(replays[k]), at);
    }

    /** migrate_to_current for versions 2 to 7: tables keep their rows; a ledger
        older than the event log gets a chain that covers it, and a version-7
        ledger keeps the one it has. Other versions are refused. */
    method Migrate(version: int, at: string) returns (r: Result<int, string>)
      requires 2 <= version < 7 ==> chain == [] && forall id :: id in records ==> HonestRow(records[id])
      modifies this`chain, this`userVersion
      ensures r.Ok? <==> 2 <= version <= 7
      ensures r.Ok? ==> userVersion == r.value == SCHEMA_VERSION
      ensures 2 <= version < 7 ==> Inv(Db())
      ensures !(2 <= version < 7) ==> chain == old(chain)
      ensures r.Err? ==> userVersion == old(userVersion)
    {
      if !(2 <= version <= 7) {
        return Err("no migration from this ledger schema version");
      }
      var createsEventLog := version < 7;
      var v := version;
      while 2 <= v <= 7
        invariant 2 <= v <= 8
        decreases 8 - v
      {
        v := v + 1;
      }
      if createsEventLog {
        Backfill(at);
      }
      userVersion := v;
      return Ok(v);
    }
  }

  /** done holds the rows no longer to do. */
  ghost predicate Copied<R>(rows: map<string, R>, todo: set<string>, done: map<string, R>) {
    && todo <= rows.Keys && done.Keys == rows.Keys - todo
    && forall k :: k in done ==> done[k] == rows[k]
  }

  lemma CopyOne<R>(rows: map<string, R>, todo: set<string>, done: map<string, R>, k: string)
    requires Copied(rows, todo, done) && k in todo
    ensures k in rows && k !in done && Copied(rows, todo - {k}, done[k := rows[k]])
  {
  }

  lemma AllCopied<R>(rows: map<string, R>, done: map<string, R>)
    requires Copied(rows, {}, done)
    ensures done == rows
  {
  }

  /** What replay.imported commits to. */
  function ImportedReplayBody(r: ReplayRow): Json {
    JObj(map[RecordId := JStr(Plain(r.recordId)), Outcome := JStr(Plain(r.outcome)), Reason := JStr(Plain(r.reason)),
             ReplayArtifactHash := OptHex(r.artifactHash)])
  }

  lemma RecordImportFolds(v: View, e: ChainEvent, row: RecordRow)
    requires HonestRow(row) && e.kind == RecordImported && e.body == Parsed(RecordBody(row, true))
    ensures RecordActual(row).Some? && Apply(v, e) == v.(records := v.records[e.subject := RecordActual(row).value])
  {
    RecordBodyReads(row, true);
  }

  lemma EventImportFolds(v: View, e: ChainEvent, event: DeliveryEvent)
    requires e.kind == DeliveryEventImported && e.body == Parsed(EventBody(event))
    ensures Apply(v, e) == v.(events := v.events[e.subject := v.EventsAt(e.subject) + [TupleOf(event)]])
  {
    EventBodyReads(event);
  }

  lemma ImportRecordKeeps(db: Db, id: string, row: RecordRow, at: string)
    requires Inv(db) && id !in db.records && HonestRow(row)
    ensures Inv(Log(db.(records := db.records[id := row]), RecordImported, id, RecordBody(row, true), at))
  {
    LogKeepsIntact(db, RecordImported, id, RecordBody(row, true), at);
    RecordImportFolds(FoldChain(db.chain), Log(db, RecordImported, id, RecordBody(row, true), at).chain[|db.chain|], row);
    RecordLogged(db, id, row, RecordImported, RecordBody(row, true), at, FoldChain(db.chain));
  }

  lemma ImportDeliveryKeeps(db: Db, d: string, row: DeliveryRow, at: string)
    requires Inv(db) && d !in db.deliveries
    ensures Inv(Log(db.(deliveries := db.deliveries[d := row]), DeliveryImported, d, DeliveryBody(row), at))
  {
    DeliveryBodyReads(row);
    LogKeepsIntact(db, DeliveryImported, d, DeliveryBody(row), at);
    DeliveryAdded(db, Log(db.(deliveries := db.deliveries[d := row]), DeliveryImported, d, DeliveryBody(row), at), d, row);
  }

  lemma ImportEventKeeps(db: Db, row: EventRow, at: string)
    requires Inv(db)
    ensures Inv(Log(db.(events := db.events + [row]), DeliveryEventImported, row.dispatchId, EventBody(row.event), at))
  {
    var after := Log(db.(events := db.events + [row]), DeliveryEventImported, row.dispatchId, EventBody(row.event), at);
    LogKeepsIntact(db, DeliveryEventImported, row.dispatchId, EventBody(row.event), at);
    EventImportFolds(FoldChain(db.chain), after.chain[|db.chain|], row.event);
    var v, w := FoldChain(db.chain), FoldChain(after.chain);
    forall d ensures w.EventsAt(d) == Tuples(after.events, d) {
      assert v.EventsAt(d) == Tuples(db.events, d);
      TuplesAppend(db.events, row, d);
    }
    assert RecordsMatch(after, w);
  }

  lemma ImportReplayKeeps(db: Db, id: string, row: ReplayRow, at: string)
    requires Inv(db) && id !in db.replays
    ensures Inv(Log(db.(replays := db.replays[id := row]), ReplayImported, id, ImportedReplayBody(row), at))
  {
    LogKeepsIntact(db, ReplayImported, id, ImportedReplayBody(row), at);
    ImportedReplayReads(row);
  }

  lemma ImportedReplayReads(r: ReplayRow)
    ensures ReplayWantOf(ImportedReplayBody(r).members) == ReplayActual(r)
  {
  }

  // ---- verify_ledger -----------------------------------------------------

  datatype LedgerProblem =
    | MalformedBody(seqNo: int)
    | OnlyInChain(id: string)
    | OnlyInTables(id: string)
    | MalformedColumn(id: string)
    | RecordDiffers(id: string)
    | ManifestDiffers(id: string)
    | DeliveryDiffers(id: string)
    | EventsDiffer(id: string)
    | ReplayDiffers(id: string)

  ghost predicate RecordOk(db: Db, v: View, id: string) {
    && id in db.records && id in v.records
    && RecordActual(db.records[id]) == Some(v.records[id]) && ManifestMatches(db.records[id])
  }

  ghost predicate DeliveryOk(db: Db, v: View, d: string) {
    d in db.deliveries && d in v.deliveries && DeliveryActual(db.deliveries[d]) == v.deliveries[d]
  }

  ghost predicate ReplayOk(db: Db, v: View, r: string) {
    r in db.replays && r in v.replays && ReplayActual(db.replays[r]) == v.replays[r]
  }

  method CheckRecords(db: Db, v: View) returns (problems: seq<LedgerProblem>)
    ensures problems == [] <==> RecordsMatch(db, v)
  {
    problems := [];
    ghost var bad := "";
    var ids := db.records.Keys + v.records.Keys;
    while ids != {}
      invariant ids <= db.records.Keys + v.records.Keys
      invariant problems == [] ==> forall id :: id in db.records.Keys + v.records.Keys && id !in ids ==> RecordOk(db, v, id)
      invariant problems != [] ==> bad in db.records.Keys + v.records.Keys && !RecordOk(db, v, bad)
    {
      var id :| id in ids;
      ids := ids - {id};
      if !RecordOk(db, v, id) { bad := id; }
      if id !in db.records {
        problems := problems + [OnlyInChain(id)];
      } else if id !in v.records {
        problems := problems + [OnlyInTables(id)];
      } else {
        var row, want := db.records[id], v.records[id];
        var actual := RecordActual(row);
        if actual.None? {
          problems := problems + [MalformedColumn(id)];
        } else {
          if actual.value != want {
            problems := problems + [RecordDiffers(id)];
          }
          if !ManifestMatches(row) {
            problems := problems + [ManifestDiffers(id)];
          }
        }
      }
    }
    if problems == [] {
      forall id ensures id in db.records <==> id in v.records {
        if id in db.records || id in v.records { assert RecordOk(db, v, id); }
      }
    }
  }

  method CheckDeliveries(db: Db, v: View) returns (problems: seq<LedgerProblem>)
    ensures problems == [] <==> DeliveriesMatch(db, v)
  {
    problems := [];
    ghost var bad := "";
    var ids := db.deliveries.Keys + v.deliveries.Keys;
    while ids != {}
      invariant ids <= db.deliveries.Keys + v.deliveries.Keys
      invariant problems == [] ==> forall d :: d in db.deliveries.Keys + v.deliveries.Keys && d !in ids ==> DeliveryOk(db, v, d)
      invariant problems != [] ==> bad in db.deliveries.Keys + v.deliveries.Keys && !DeliveryOk(db, v, bad)
    {
      var d :| d in ids;
      ids := ids - {d};
      if !DeliveryOk(db, v, d) { bad := d; }
      if d !in db.deliveries {
        problems := problems + [OnlyInChain(d)];
      } else if d !in v.deliveries {
        problems := problems + [OnlyInTables(d)];
      } else if DeliveryActual(db.deliveries[d]) != v.deliveries[d] {
        problems := problems + [DeliveryDiffers(d)];
      }
    }
    if problems == [] {
      forall d ensures d in db.deliveries <==> d in v.deliveries {
        if d in db.deliveries || d in v.deliveries { assert DeliveryOk(db, v, d); }
      }
    }
  }

  method CheckReplays(db: Db, v: View) returns (problems: seq<LedgerProblem>)
    ensures problems == [] <==> ReplaysMatch(db, v)
  {
    problems := [];
    ghost var bad := "";
    var ids := db.replays.Keys + v.replays.Keys;
    while ids != {}
      invariant ids <= db.replays.Keys + v.replays.Keys
      invariant problems == [] ==> forall r :: r in db.replays.Keys + v.replays.Keys && r !in ids ==> ReplayOk(db, v, r)
      invariant problems != [] ==> bad in db.replays.Keys + v.replays.Keys && !ReplayOk(db, v, bad)
    {
      var r :| r in ids;
      ids := ids - {r};
      if !ReplayOk(db, v, r) { bad := r; }
      if r !in db.replays {
        problems := problems + [OnlyInChain(r)];
      } else if r !in v.replays {
        problems := problems + [OnlyInTables(r)];
      } else if ReplayActual(db.replays[r]) != v.replays[r] {
        problems := problems + [ReplayDiffers(r)];
      }
    }
    if problems == [] {
      forall r ensures r in db.replays <==> r in v.replays {
        if r in db.replays || r in v.replays { assert ReplayOk(db, v, r); }
      }
    }
  }

  lemma {:induction false} NoTuplesElsewhere(events: seq<EventRow>, did: string)
    requires forall i :: 0 <= i < |events| ==> events[i].dispatchId != did
    ensures Tuples(events, did) == []
  {
    if events != [] { NoTuplesElsewhere(events[..|events| - 1], did); }
  }

  method CheckEvents(db: Db, v: View) returns (problems: seq<LedgerProblem>)
    ensures problems == [] <==> EventsMatch(db, v)
  {
    problems := [];
    var listed := set i | 0 <= i < |db.events| :: db.events[i].dispatchId;
    var ids := listed + v.events.Keys;
    while ids != {}
      invariant ids <= listed + v.events.Keys
      invariant problems == [] <==> forall d :: d in listed + v.events.Keys - ids ==> v.EventsAt(d) == Tuples(db.events, d)
    {
      var d :| d in ids;
      ids := ids - {d};
      if Tuples(db.events, d) != v.EventsAt(d) {
        problems := problems + [EventsDiffer(d)];
      }
    }
    forall d | d !in listed + v.events.Keys ensures v.EventsAt(d) == Tuples(db.events, d) {
      NoTuplesElsewhere(db.events, d);
    }
  }

  /** verify_ledger: the chain report, and a problem list that is empty exactly when
      the tables are what the chain says. */
  method VerifyLedger(db: Db, anchor: Option<Anchor>) returns (report: Report, problems: seq<LedgerProblem>)
    ensures report.problems == [] <==> Accepted(db.chain, anchor)
    ensures problems == [] <==> Consistent(db)
  {
    report := Verify(db.chain, anchor);
    var view := EMPTY;
    for i := 0 to |db.chain|
      invariant view == FoldChain(db.chain[..i])
    {
      assert db.chain[..i + 1][..i] == db.chain[..i];
      view := Apply(view, db.chain[i]);
    }
    assert db.chain[..|db.chain|] == db.chain;
    problems := seq(|view.malformed|, i requires 0 <= i < |view.malformed| => MalformedBody(view.malformed[i]));
    var recordProblems := CheckRecords(db, view);
    var deliveryProblems := CheckDeliveries(db, view);
    var eventProblems := CheckEvents(db, view);
    var replayProblems := CheckReplays(db, view);
    problems := problems + recordProblems + deliveryProblems + eventProblems + replayProblems;
  }

  /** After any run of honest transactions on a new ledger, without an anchor or with
      one taken from the chain itself, verify_ledger reports nothing. */
  method VerifyAfterRun(txs: seq<(Tx, string)>, anchor: Option<Anchor>) returns (report: Report, problems: seq<LedgerProblem>)
    requires forall i :: 0 <= i < |txs| ==> HonestTx(txs[i].0)
    ensures anchor.None? || Contains(Run(FRESH, txs).chain, anchor.value) ==> report.problems == []
    ensures problems == []
  {
    FreshIsConsistent();
    RunsKeepInv(FRESH, txs);
    report, problems := VerifyLedger(Run(FRESH, txs), anchor);
  }
}
