/**
 The ledger's tables and the write transactions that change them
 (stele/ledger/store.py, stele/ledger/delivery.py, stele/ledger/events.py).
 Each transaction commits its table change together with its chain event, or
 fails and changes nothing.
 */
module Ledger {
  import opened Chunks
  import opened Delivery
  import opened Digests
  import opened EventChain
  import opened Wrappers

  datatype RecordState = Pending | Sealed | RunFailed | Invalidated

  datatype ParserRow = ParserRow(name: string, version: string, image: Option<string>, mod: Option<Digest>)

  /** The artifact_manifest column: JSON of a manifest, or text that is not one. */
  datatype ManifestColumn = Manifest(files: map<string, Digest>) | BadManifest

  datatype RecordRow = RecordRow(
    runId: string, sourceId: Option<string>, sourceHash: Option<Digest>, sourceKind: Option<string>,
    parser: Option<ParserRow>, parserConfig: Option<Body>, backend: Option<string>,
    manifest: ManifestColumn, artifactHash: Digest, state: RecordState,
    finalizedAt: Option<string>, error: Option<string>, runConditions: Option<Body>)

  datatype DeliveryRow = DeliveryRow(recordId: string, targetKind: string, target: string)

  datatype EventRow = EventRow(dispatchId: string, event: DeliveryEvent)

  datatype ReplayRow = ReplayRow(
    recordId: string, outcome: string, reason: string, artifactHash: Option<Digest>,
    policy: Option<Json>, platform: string)

  datatype Db = Db(
    records: map<string, RecordRow>, deliveries: map<string, DeliveryRow>, events: seq<EventRow>,
    replays: map<string, ReplayRow>, chain: seq<ChainEvent>)

  datatype LedgerError =
    | DuplicateRun | NotFound | InvalidTransition | ForeignKey | PayloadConflict | BadIntent | DuplicateKey

  // ---- Bodies ------------------------------------------------------------

  function StateName(s: RecordState): Json {
    JStr(Plain(match s case Pending => "pending" case Sealed => "sealed" case RunFailed => "failed"
                       case Invalidated => "invalidated"))
  }

  function ParserJson(p: Option<ParserRow>): Json {
    if p.None? then JNull
    else JObj(map[Name := JStr(Plain(p.value.name)), Version := JStr(Plain(p.value.version)),
                  ImageDigest := OptPlain(p.value.image), ModuleSha256 := OptHex(p.value.mod)])
  }

  function ColumnJson(column: Option<Body>): Json {
    if column.Some? && column.value.Parsed? then column.value.json else JNull
  }

  predicate WellFormedColumn(column: Option<Body>) { column.Some? ==> column.value.Parsed? }

  function RecordMembers(r: RecordRow): map<Field, Json> {
    map[RunId := JStr(Plain(r.runId)), ArtifactHash := JStr(Hex(r.artifactHash)),
        SourceHash := OptHex(r.sourceHash), SourceKind := OptPlain(r.sourceKind), SourceId := OptPlain(r.sourceId),
        Parser := ParserJson(r.parser), ParserConfig := ColumnJson(r.parserConfig),
        Backend := OptPlain(r.backend), RunConditions := ColumnJson(r.runConditions)]
  }

  /** record_body: what record.created (and, with the state, record.imported) commits to. */
  function RecordBody(r: RecordRow, withState: bool): Json {
    if withState then JObj(RecordMembers(r)[State := StateName(r.state)][Error := OptPlain(r.error)])
    else JObj(RecordMembers(r))
  }

  function DeliveryBody(d: DeliveryRow): Json {
    JObj(map[RecordId := JStr(Plain(d.recordId)), TargetKind := JStr(Plain(d.targetKind)),
             Target := JStr(Plain(d.target))])
  }

  function KindName(k: EventKind): Json {
    JStr(Plain(match k case Intent => "intent" case Receipt => "receipt" case Failure => "failure"
                       case RemovalIntent => "removal_intent" case RemovalReceipt => "removal_receipt"
                       case RemovalFailure => "removal_failure"))
  }

  function EventBody(e: DeliveryEvent): Json {
    JObj(map[Event := KindName(e.kind), Planned := OptInt(e.planned), ChunksDigest := OptText(e.digest),
             Done := OptInt(e.done), Error := OptPlain(e.error), AttemptId := OptPlain(e.attempt)])
  }

  function ReplayBody(r: ReplayRow): Json {
    JObj(map[RecordId := JStr(Plain(r.recordId)), Outcome := JStr(Plain(r.outcome)), Reason := JStr(Plain(r.reason)),
             ReplayArtifactHash := OptHex(r.artifactHash), Policy := OptJson(r.policy),
             Platform := JStr(Plain(r.platform))])
  }

  // ---- Transactions ------------------------------------------------------

  function Log(db: Db, kind: Kind, subject: string, body: Json, at: string): Db {
    db.(chain := Appended(db.chain, kind, subject, body, at))
  }

  predicate RunTaken(db: Db, runId: string) {
    exists id | id in db.records :: db.records[id].runId == runId
  }

  function CreatePending(db: Db, id: string, row: RecordRow, at: string): Result<Db, LedgerError> {
    if id in db.records then Err(DuplicateKey)
    else if RunTaken(db, row.runId) then Err(DuplicateRun)
    else Ok(Log(db.(records := db.records[id := row.(state := Pending)]), RecordCreated, id, RecordBody(row, false), at))
  }

  /** _transition: one UPDATE guarded by the allowed states, and its event. */
  function Transition(db: Db, id: string, from: set<RecordState>, row: RecordRow, kind: Kind, body: Json, at: string)
    : Result<Db, LedgerError>
  {
    if id !in db.records then Err(NotFound)
    else if db.records[id].state !in from then Err(InvalidTransition)
    else Ok(Log(db.(records := db.records[id := row]), kind, id, body, at))
  }

  function Seal(db: Db, id: string, now: string): Result<Db, LedgerError> {
    if id !in db.records then Err(NotFound)
    else
      var r := db.records[id];
      Transition(db, id, {Pending}, r.(state := Sealed, finalizedAt := Some(now)), RecordSealed,
                 JObj(map[ArtifactHash := JStr(Hex(r.artifactHash))]), now)
  }

  function Fail(db: Db, id: string, error: string, now: string): Result<Db, LedgerError> {
    if id !in db.records then Err(NotFound)
    else
      Transition(db, id, {Pending, RunFailed},
                 db.records[id].(state := RunFailed, finalizedAt := Some(now), error := Some(error)),
                 RecordFailed, JObj(map[Error := JStr(Plain(error))]), now)
  }

  function Invalidate(db: Db, id: string, reason: string, now: string): Result<Db, LedgerError> {
    if id !in db.records then Err(NotFound)
    else
      Transition(db, id, {Pending, Sealed},
                 db.records[id].(state := Invalidated, finalizedAt := Some(now), error := Some("INVALIDATED: " + reason)),
                 RecordInvalidated, JObj(map[Reason := JStr(Plain(reason))]), now)
  }

  /** open_delivery: INSERT OR IGNORE under UNIQUE (record, kind, target). */
  function OpenDelivery(db: Db, newId: string, row: DeliveryRow, at: string): Result<Db, LedgerError> {
    if row.recordId !in db.records then Err(ForeignKey)
    else if newId in db.deliveries || (exists d | d in db.deliveries :: db.deliveries[d] == row) then Ok(db)
    else Ok(Log(db.(deliveries := db.deliveries[newId := row]), DeliveryOpened, newId, DeliveryBody(row), at))
  }

  function EventsOf(events: seq<EventRow>, did: string): seq<DeliveryEvent> {
    if events == [] then []
    else
      var last := events[|events| - 1];
      var front := EventsOf(events[..|events| - 1], did);
      if last.dispatchId == did then front + [last.event] else front
  }

  lemma EventsOfAppend(events: seq<EventRow>, row: EventRow, did: string)
    ensures EventsOf(events + [row], did) ==
      if row.dispatchId == did then EventsOf(events, did) + [row.event] else EventsOf(events, did)
  {
    assert (events + [row])[..|events|] == events;
  }

  /** The first intent of a delivery: it binds the payload. */
  function FirstIntent(events: seq<DeliveryEvent>): (e: Option<DeliveryEvent>)
    ensures e.Some? ==> e.value in events && e.value.kind == Intent
    ensures e.None? ==> forall i :: 0 <= i < |events| ==> events[i].kind != Intent
  {
    if events == [] then None
    else
      var front := FirstIntent(events[..|events| - 1]);
      if front.Some? then front
      else if events[|events| - 1].kind == Intent then Some(events[|events| - 1]) else None
  }

  /** It is the first intent of the log, and there is none exactly when the log has none. */
  lemma {:induction false} FirstIntentIsFirst(events: seq<DeliveryEvent>)
    ensures FirstIntent(events).None? <==> forall i :: 0 <= i < |events| ==> events[i].kind != Intent
    ensures FirstIntent(events).Some? ==> exists i ::
      0 <= i < |events| && events[i] == FirstIntent(events).value && events[i].kind == Intent
      && forall j :: 0 <= j < i ==> events[j].kind != Intent
  {
    if events != [] {
      var n, front := |events| - 1, events[..|events| - 1];
      FirstIntentIsFirst(front);
      if FirstIntent(front).Some? {
        var i :| 0 <= i < |front| && front[i] == FirstIntent(front).value && front[i].kind == Intent
          && forall j :: 0 <= j < i ==> front[j].kind != Intent;
        assert events[i] == front[i] && forall j :: 0 <= j < i ==> events[j] == front[j];
      } else if events[n].kind == Intent {
        assert forall j :: 0 <= j < n ==> events[j] == front[j];
      }
    }
  }

  /** The delivery_events_one_payload trigger lets this intent in. */
  predicate BindsSame(events: seq<DeliveryEvent>, e: DeliveryEvent) {
    && e.digest.Some? && e.planned.Some?
    && forall i | 0 <= i < |events| ::
         events[i].kind == Intent ==> events[i].digest == e.digest && events[i].planned == e.planned
  }

  function AppendEvent(db: Db, did: string, e: DeliveryEvent, at: string): Result<Db, LedgerError> {
    if did !in db.deliveries then Err(ForeignKey)
    else if e.kind == Intent && !BindsSame(EventsOf(db.events, did), e) then Err(PayloadConflict)
    else Ok(Log(db.(events := db.events + [EventRow(did, e)]), DeliveryEventLogged, did, EventBody(e), at))
  }

  function IntentEvent(count: int, digest: Text, attempt: string): DeliveryEvent {
    DeliveryEvent(Intent, Some(count), Some(digest), None, None, Some(attempt))
  }

  /** append_intent: bind the delivery to this payload, or refuse another one. */
  function AppendIntent(db: Db, did: string, chunks: seq<Chunk>, attempt: string, at: string): Result<Db, LedgerError> {
    match FirstIntent(EventsOf(db.events, did))
    case None => AppendEvent(db, did, IntentEvent(|chunks|, ChunksDigestOf(chunks), attempt), at)
    case Some(first) =>
      if first.planned != Some(|chunks|) then Err(PayloadConflict)
      else if first.digest.None? then Err(BadIntent)
      else if !PayloadMatches(first.digest.value, chunks) then Err(PayloadConflict)
      else AppendEvent(db, did, IntentEvent(|chunks|, first.digest.value, attempt), at)
  }

  function LogReplay(db: Db, id: string, row: ReplayRow, at: string): Result<Db, LedgerError> {
    if id in db.replays then Err(DuplicateKey)
    else if row.recordId !in db.records then Err(ForeignKey)
    else Ok(Log(db.(replays := db.replays[id := row]), ReplayLogged, id, ReplayBody(row), at))
  }

  /** Any write transaction the repository performs on a ledger. */
  datatype Tx =
    | TxCreate(id: string, row: RecordRow)
    | TxSeal(id: string)
    | TxFail(id: string, error: string)
    | TxInvalidate(id: string, reason: string)
    | TxOpen(did: string, delivery: DeliveryRow)
    | TxEvent(did: string, event: DeliveryEvent)
    | TxIntent(did: string, chunks: seq<Chunk>, attempt: string)
    | TxReplay(id: string, replay: ReplayRow)
    | TxSignOff(subject: string, kindName: string, body: Json)

  /** create_pending stores well-formed columns and the hash of its own manifest. */
  ghost predicate HonestTx(tx: Tx) { tx.TxCreate? ==> HonestRow(tx.row) }

  ghost predicate HonestRow(r: RecordRow) {
    && WellFormedColumn(r.parserConfig) && WellFormedColumn(r.runConditions)
    && r.manifest.Manifest? && r.artifactHash == Sha(ManifestContent(r.manifest.files))
  }

  function Perform(db: Db, tx: Tx, at: string): Result<Db, LedgerError> {
    match tx
    case TxCreate(id, row) => CreatePending(db, id, row, at)
    case TxSeal(id) => Seal(db, id, at)
    case TxFail(id, error) => Fail(db, id, error, at)
    case TxInvalidate(id, reason) => Invalidate(db, id, reason, at)
    case TxOpen(did, row) => OpenDelivery(db, did, row, at)
    case TxEvent(did, e) => AppendEvent(db, did, e, at)
    case TxIntent(did, chunks, attempt) => AppendIntent(db, did, chunks, attempt, at)
    case TxReplay(id, row) => LogReplay(db, id, row, at)
    case TxSignOff(subject, kindName, body) => Ok(Log(db, OtherKind(kindName), subject, body, at))
  }

  /** A transaction commits whole or rolls back whole. */
  function Commit(db: Db, tx: Tx, at: string): Db {
    var r := Perform(db, tx, at);
    if r.Ok? then r.value else db
  }
}
