/**
 Rebuilding the ledger's tables from its event chain (stele/ledger/events.py,
 verify_ledger and _apply), and the refinement: after every run of write
 transactions the tables are exactly what the chain says.
 */
module LedgerView {
  import opened Delivery
  import opened Digests
  import opened EventChain
  import opened Ledger
  import opened Wrappers

  datatype RecordWant = RecordWant(
    runId: Json, artifactHash: Json, sourceHash: Json, parser: Json, parserConfig: Json, runConditions: Json,
    state: Json)
  datatype DeliveryWant = DeliveryWant(recordId: Json, targetKind: Json, target: Json)
  datatype EventTuple = EventTuple(event: Json, planned: Json, digest: Json, done: Json, error: Json, attempt: Json)
  datatype ReplayWant = ReplayWant(recordId: Json, outcome: Json, artifactHash: Json)

  datatype View = View(
    records: map<string, RecordWant>, deliveries: map<string, DeliveryWant>,
    events: map<string, seq<EventTuple>>, replays: map<string, ReplayWant>, malformed: seq<int>)
  {
    function EventsAt(did: string): seq<EventTuple> {
      if did in events then events[did] else []
    }
  }

  const EMPTY := View(map[], map[], map[], map[], [])

  function Member(b: map<Field, Json>, f: Field): Json {
    if f in b then b[f] else JNull
  }

  function RecordWantOf(b: map<Field, Json>): Option<RecordWant> {
    if RunId !in b || ArtifactHash !in b then None
    else Some(RecordWant(
      b[RunId], b[ArtifactHash], Member(b, SourceHash), Member(b, Parser), Member(b, ParserConfig),
      Member(b, RunConditions), if State in b then b[State] else JStr(Plain("pending"))))
  }

  function DeliveryWantOf(b: map<Field, Json>): Option<DeliveryWant> {
    if RecordId !in b || TargetKind !in b || Target !in b then None
    else Some(DeliveryWant(b[RecordId], b[TargetKind], b[Target]))
  }

  function EventTupleOf(b: map<Field, Json>): Option<EventTuple> {
    if Event !in b || Planned !in b || ChunksDigest !in b || Done !in b || Error !in b then None
    else Some(EventTuple(b[Event], b[Planned], b[ChunksDigest], b[Done], b[Error], Member(b, AttemptId)))
  }

  function ReplayWantOf(b: map<Field, Json>): ReplayWant {
    ReplayWant(Member(b, RecordId), Member(b, Outcome), Member(b, ReplayArtifactHash))
  }

  function TargetState(k: Kind): Option<RecordState> {
    match k
    case RecordSealed => Some(Sealed)
    case RecordFailed => Some(RunFailed)
    case RecordInvalidated => Some(Invalidated)
    case _ => None
  }

  /** _apply: fold one event into the state the tables must hold. A body it cannot
      read is reported, not applied; state changes of unknown records and kinds
      it does not know are skipped. */
  function Apply(v: View, e: ChainEvent): View {
    if TargetState(e.kind).Some? then
      if e.body.NotJson? then Malformed(v, e)
      else if e.subject !in v.records then v
      else v.(records := v.records[e.subject := v.records[e.subject].(state := StateName(TargetState(e.kind).value))])
    else if e.body.NotJson? then Malformed(v, e)
    else if e.kind.OtherKind? then v
    else if !e.body.json.JObj? then Malformed(v, e)
    else ApplyMembers(v, e, e.body.json.members)
  }

  function Malformed(v: View, e: ChainEvent): View {
    v.(malformed := v.malformed + [e.seqNo])
  }

  function ApplyMembers(v: View, e: ChainEvent, b: map<Field, Json>): View {
    if e.kind == RecordCreated || e.kind == RecordImported then
      var want := RecordWantOf(b);
      if want.None? then Malformed(v, e) else v.(records := v.records[e.subject := want.value])
    else if e.kind == DeliveryOpened || e.kind == DeliveryImported then
      var want := DeliveryWantOf(b);
      if want.None? then Malformed(v, e) else v.(deliveries := v.deliveries[e.subject := want.value])
    else if e.kind == DeliveryEventLogged || e.kind == DeliveryEventImported then
      var t := EventTupleOf(b);
      if t.None? then Malformed(v, e) else v.(events := v.events[e.subject := v.EventsAt(e.subject) + [t.value]])
    else v.(replays := v.replays[e.subject := ReplayWantOf(b)])
  }

  function FoldChain(chain: seq<ChainEvent>): View {
    if chain == [] then EMPTY
    else Apply(FoldChain(chain[..|chain| - 1]), chain[|chain| - 1])
  }

  lemma FoldAppended(chain: seq<ChainEvent>, kind: Kind, subject: string, body: Json, at: string)
    ensures var more := Appended(chain, kind, subject, body, at);
      more != [] && FoldChain(more) == Apply(FoldChain(chain), more[|more| - 1])
  {
    assert Appended(chain, kind, subject, body, at)[..|chain|] == chain;
  }

  // ---- What the tables actually hold -------------------------------------

  /** One row as verify_ledger reads it; None if a JSON column does not parse. */
  function RecordActual(r: RecordRow): Option<RecordWant> {
    if !WellFormedColumn(r.parserConfig) || !WellFormedColumn(r.runConditions) || r.manifest.BadManifest? then None
    else Some(RecordWant(
      JStr(Plain(r.runId)), JStr(Hex(r.artifactHash)), OptHex(r.sourceHash), ParserJson(r.parser),
      ColumnJson(r.parserConfig), ColumnJson(r.runConditions), StateName(r.state)))
  }

  function ManifestMatches(r: RecordRow): bool {
    r.manifest.Manifest? && Sha(ManifestContent(r.manifest.files)) == r.artifactHash
  }

  function DeliveryActual(d: DeliveryRow): DeliveryWant {
    DeliveryWant(JStr(Plain(d.recordId)), JStr(Plain(d.targetKind)), JStr(Plain(d.target)))
  }

  function TupleOf(e: DeliveryEvent): EventTuple {
    EventTuple(KindName(e.kind), OptInt(e.planned), OptText(e.digest), OptInt(e.done), OptPlain(e.error),
               OptPlain(e.attempt))
  }

  function Tuples(events: seq<EventRow>, did: string): seq<EventTuple> {
    if events == [] then []
    else
      var front := Tuples(events[..|events| - 1], did);
      var last := events[|events| - 1];
      if last.dispatchId == did then front + [TupleOf(last.event)] else front
  }

  lemma TuplesAppend(events: seq<EventRow>, row: EventRow, did: string)
    ensures Tuples(events + [row], did) ==
      if row.dispatchId == did then Tuples(events, did) + [TupleOf(row.event)] else Tuples(events, did)
  {
    assert (events + [row])[..|events|] == events;
  }

  function ReplayActual(r: ReplayRow): ReplayWant {
    ReplayWant(JStr(Plain(r.recordId)), JStr(Plain(r.outcome)), OptHex(r.artifactHash))
  }

  // ---- The comparison ----------------------------------------------------

  ghost predicate RecordsMatch(db: Db, v: View) {
    && db.records.Keys == v.records.Keys
    && forall id :: id in db.records ==>
         RecordActual(db.records[id]) == Some(v.records[id]) && ManifestMatches(db.records[id])
  }

  ghost predicate DeliveriesMatch(db: Db, v: View) {
    && db.deliveries.Keys == v.deliveries.Keys
    && forall d :: d in db.deliveries ==> DeliveryActual(db.deliveries[d]) == v.deliveries[d]
  }

  ghost predicate EventsMatch(db: Db, v: View) {
    forall d: string {:trigger v.EventsAt(d)} {:trigger Tuples(db.events, d)} :: v.EventsAt(d) == Tuples(db.events, d)
  }

  ghost predicate ReplaysMatch(db: Db, v: View) {
    && db.replays.Keys == v.replays.Keys
    && forall r :: r in db.replays ==> ReplayActual(db.replays[r]) == v.replays[r]
  }

  /** The tables are what the chain says they are. */
  ghost predicate Consistent(db: Db) {
    var v := FoldChain(db.chain);
    && v.malformed == []
    && RecordsMatch(db, v) && DeliveriesMatch(db, v) && EventsMatch(db, v) && ReplaysMatch(db, v)
  }

  // ---- Refinement --------------------------------------------------------

  ghost predicate Inv(db: Db) { Intact(db.chain) && Consistent(db) }

  lemma LogKeepsIntact(db: Db, kind: Kind, subject: string, body: Json, at: string)
    requires Intact(db.chain)
    ensures Intact(Log(db, kind, subject, body, at).chain)
    ensures var more := Log(db, kind, subject, body, at).chain;
      more != [] && FoldChain(more) == Apply(FoldChain(db.chain), more[|more| - 1])
      && more[|more| - 1].kind == kind && more[|more| - 1].subject == subject && more[|more| - 1].body == Parsed(body)
  {
    AppendKeepsIntact(db.chain, kind, subject, body, at);
    FoldAppended(db.chain, kind, subject, body, at);
  }

  /** A created or imported record's body reads back as its row. */
  lemma RecordBodyReads(r: RecordRow, withState: bool)
    requires WellFormedColumn(r.parserConfig) && WellFormedColumn(r.runConditions) && r.manifest.Manifest?
    requires withState || r.state == Pending
    ensures RecordBody(r, withState).JObj?
    ensures RecordWantOf(RecordBody(r, withState).members) == RecordActual(r)
  {
  }

  lemma EventBodyReads(e: DeliveryEvent)
    ensures EventTupleOf(EventBody(e).members) == Some(TupleOf(e))
  {
  }

  lemma DeliveryBodyReads(d: DeliveryRow)
    ensures DeliveryWantOf(DeliveryBody(d).members) == Some(DeliveryActual(d))
  {
  }

  lemma ReplayBodyReads(r: ReplayRow)
    ensures ReplayWantOf(ReplayBody(r).members) == ReplayActual(r)
  {
  }

  /** A row written together with an event that the fold reads as that row. */
  lemma RecordLogged(db: Db, id: string, row: RecordRow, kind: Kind, body: Json, at: string, v: View)
    requires Inv(db) && v == FoldChain(db.chain) && RecordActual(row).Some? && ManifestMatches(row)
    requires var more := Log(db.(records := db.records[id := row]), kind, id, body, at).chain;
      more != [] && FoldChain(more) == v.(records := v.records[id := RecordActual(row).value])
    ensures Inv(Log(db.(records := db.records[id := row]), kind, id, body, at))
  {
    var after := Log(db.(records := db.records[id := row]), kind, id, body, at);
    AppendKeepsIntact(db.chain, kind, id, body, at);
    var w := FoldChain(after.chain);
    assert RecordsMatch(after, w);
    forall d ensures w.EventsAt(d) == Tuples(after.events, d) {
      assert v.EventsAt(d) == Tuples(db.events, d);
    }
  }

  lemma CreatedFolds(v: View, e: ChainEvent, row: RecordRow)
    requires HonestRow(row) && row.state == Pending && e.kind == RecordCreated && e.body == Parsed(RecordBody(row, false))
    ensures RecordActual(row).Some? && Apply(v, e) == v.(records := v.records[e.subject := RecordActual(row).value])
  {
    RecordBodyReads(row, false);
  }

  lemma CreateKeeps(db: Db, id: string, row: RecordRow, at: string)
    requires Inv(db) && HonestRow(row) && CreatePending(db, id, row, at).Ok?
    ensures Inv(CreatePending(db, id, row, at).value)
  {
    var pending := row.(state := Pending);
    assert RecordBody(row, false) == RecordBody(pending, false);
    LogKeepsIntact(db, RecordCreated, id, RecordBody(row, false), at);
    CreatedFolds(FoldChain(db.chain), Log(db, RecordCreated, id, RecordBody(row, false), at).chain[|db.chain|], pending);
    RecordLogged(db, id, pending, RecordCreated, RecordBody(row, false), at, FoldChain(db.chain));
  }

  lemma TransitionKeeps(db: Db, id: string, from: set<RecordState>, row: RecordRow, kind: Kind, body: Json, at: string)
    requires Inv(db) && Transition(db, id, from, row, kind, body, at).Ok?
    requires TargetState(kind) == Some(row.state)
    requires row.(state := Pending, finalizedAt := None, error := None)
      == db.records[id].(state := Pending, finalizedAt := None, error := None)
    ensures Inv(Transition(db, id, from, row, kind, body, at).value)
  {
    LogKeepsIntact(db, kind, id, body, at);
    var v := FoldChain(db.chain);
    assert id in v.records;
    assert RecordActual(row).Some? && RecordActual(row).value == v.records[id].(state := StateName(row.state));
  }

  /** One more delivery, in the table and in the view. */
  lemma DeliveryAdded(db: Db, after: Db, id: string, row: DeliveryRow)
    requires Inv(db) && Intact(after.chain) && after == db.(deliveries := db.deliveries[id := row], chain := after.chain)
    requires FoldChain(after.chain) ==
      FoldChain(db.chain).(deliveries := FoldChain(db.chain).deliveries[id := DeliveryActual(row)])
    ensures Inv(after)
  {
    var v, w := FoldChain(db.chain), FoldChain(after.chain);
    assert RecordsMatch(db, v) && DeliveriesMatch(db, v) && EventsMatch(db, v) && ReplaysMatch(db, v);
    forall d ensures w.EventsAt(d) == Tuples(after.events, d) {
      assert v.EventsAt(d) == Tuples(db.events, d);
    }
    assert RecordsMatch(after, w) && ReplaysMatch(after, w);
  }

  lemma OpenedKeeps(db: Db, newId: string, row: DeliveryRow, at: string)
    requires Inv(db) && newId !in db.deliveries
    ensures Inv(Log(db.(deliveries := db.deliveries[newId := row]), DeliveryOpened, newId, DeliveryBody(row), at))
  {
    LogKeepsIntact(db, DeliveryOpened, newId, DeliveryBody(row), at);
    DeliveryBodyReads(row);
    DeliveryAdded(db, Log(db.(deliveries := db.deliveries[newId := row]), DeliveryOpened, newId, DeliveryBody(row), at), newId, row);
  }

  lemma OpenKeeps(db: Db, newId: string, row: DeliveryRow, at: string)
    requires Inv(db) && OpenDelivery(db, newId, row, at).Ok?
    ensures Inv(OpenDelivery(db, newId, row, at).value)
  {
    if newId !in db.deliveries && !(exists d | d in db.deliveries :: db.deliveries[d] == row) {
      OpenedKeeps(db, newId, row, at);
    }
  }

  lemma EventFolds(v: View, e: ChainEvent, event: DeliveryEvent)
    requires e.kind == DeliveryEventLogged && e.body == Parsed(EventBody(event))
    ensures Apply(v, e) == v.(events := v.events[e.subject := v.EventsAt(e.subject) + [TupleOf(event)]])
  {
    EventBodyReads(event);
  }

  lemma EventKeeps(db: Db, did: string, e: DeliveryEvent, at: string)
    requires Inv(db) && AppendEvent(db, did, e, at).Ok?
    ensures Inv(AppendEvent(db, did, e, at).value)
  {
    var after := Log(db.(events := db.events + [EventRow(did, e)]), DeliveryEventLogged, did, EventBody(e), at);
    var v := FoldChain(db.chain);
    LogKeepsIntact(db, DeliveryEventLogged, did, EventBody(e), at);
    EventFolds(v, after.chain[|db.chain|], e);
    var w := FoldChain(after.chain);
    forall d ensures w.EventsAt(d) == Tuples(after.events, d) {
      assert v.EventsAt(d) == Tuples(db.events, d);
      TuplesAppend(db.events, EventRow(did, e), d);
    }
    assert RecordsMatch(after, w);
  }

  lemma ReplayFolds(v: View, e: ChainEvent, row: ReplayRow)
    requires e.kind == ReplayLogged && e.body == Parsed(ReplayBody(row))
    ensures Apply(v, e) == v.(replays := v.replays[e.subject := ReplayActual(row)])
  {
    ReplayBodyReads(row);
  }

  lemma ReplayKeeps(db: Db, id: string, row: ReplayRow, at: string)
    requires Inv(db) && LogReplay(db, id, row, at).Ok?
    ensures Inv(LogReplay(db, id, row, at).value)
  {
    LogKeepsIntact(db, ReplayLogged, id, ReplayBody(row), at);
    ReplayFolds(FoldChain(db.chain), Log(db, ReplayLogged, id, ReplayBody(row), at).chain[|db.chain|], row);
  }

  lemma SealKeeps(db: Db, id: string, at: string)
    requires Inv(db) && Seal(db, id, at).Ok?
    ensures Inv(Seal(db, id, at).value)
  {
    var r := db.records[id];
    TransitionKeeps(db, id, {Pending}, r.(state := Sealed, finalizedAt := Some(at)), RecordSealed,
                    JObj(map[ArtifactHash := JStr(Hex(r.artifactHash))]), at);
  }

  lemma FailKeeps(db: Db, id: string, error: string, at: string)
    requires Inv(db) && Fail(db, id, error, at).Ok?
    ensures Inv(Fail(db, id, error, at).value)
  {
    TransitionKeeps(db, id, {Pending, RunFailed},
                    db.records[id].(state := RunFailed, finalizedAt := Some(at), error := Some(error)),
                    RecordFailed, JObj(map[Error := JStr(Plain(error))]), at);
  }

  lemma InvalidateKeeps(db: Db, id: string, reason: string, at: string)
    requires Inv(db) && Invalidate(db, id, reason, at).Ok?
    ensures Inv(Invalidate(db, id, reason, at).value)
  {
    TransitionKeeps(db, id, {Pending, Sealed},
                    db.records[id].(state := Invalidated, finalizedAt := Some(at), error := Some("INVALIDATED: " + reason)),
                    RecordInvalidated, JObj(map[Reason := JStr(Plain(reason))]), at);
  }

  lemma IntentKeeps(db: Db, did: string, chunks: seq<Chunks.Chunk>, attempt: string, at: string)
    requires Inv(db) && AppendIntent(db, did, chunks, attempt, at).Ok?
    ensures Inv(AppendIntent(db, did, chunks, attempt, at).value)
  {
    var first := FirstIntent(EventsOf(db.events, did));
    var digest := if first.None? then Chunks.ChunksDigestOf(chunks) else first.value.digest.value;
    EventKeeps(db, did, IntentEvent(|chunks|, digest, attempt), at);
  }

  /** Every write transaction keeps the chain intact and the tables consistent with it. */
  lemma CommitKeeps(db: Db, tx: Tx, at: string)
    requires Inv(db) && HonestTx(tx)
    ensures Inv(Commit(db, tx, at))
  {
    if Perform(db, tx, at).Ok? {
      if tx.TxCreate? || tx.TxSeal? || tx.TxFail? || tx.TxInvalidate? {
        RecordTxKeeps(db, tx, at);
      } else {
        OtherTxKeeps(db, tx, at);
      }
    }
  }

  lemma RecordTxKeeps(db: Db, tx: Tx, at: string)
    requires Inv(db) && HonestTx(tx) && Perform(db, tx, at).Ok?
    requires tx.TxCreate? || tx.TxSeal? || tx.TxFail? || tx.TxInvalidate?
    ensures Inv(Perform(db, tx, at).value)
  {
    if tx.TxCreate? {
      CreateKeeps(db, tx.id, tx.row, at);
    } else if tx.TxSeal? {
      SealKeeps(db, tx.id, at);
    } else if tx.TxFail? {
      FailKeeps(db, tx.id, tx.error, at);
    } else {
      InvalidateKeeps(db, tx.id, tx.reason, at);
    }
  }

  /** Tables that did not change, under a chain that folds to the same view. */
  lemma SameTablesKeep(db: Db, after: Db)
    requires Inv(db) && Intact(after.chain) && FoldChain(after.chain) == FoldChain(db.chain)
    requires after.records == db.records && after.deliveries == db.deliveries
    requires after.events == db.events && after.replays == db.replays
    ensures Inv(after)
  {
    var v := FoldChain(db.chain);
    assert RecordsMatch(db, v) && DeliveriesMatch(db, v) && EventsMatch(db, v) && ReplaysMatch(db, v);
    forall d ensures v.EventsAt(d) == Tuples(after.events, d) {
      assert v.EventsAt(d) == Tuples(db.events, d);
    }
    assert RecordsMatch(after, v) && DeliveriesMatch(after, v) && ReplaysMatch(after, v);
  }

  lemma OtherFolds(db: Db, name: string, subject: string, body: Json, at: string)
    requires Intact(db.chain)
    ensures var after := Log(db, OtherKind(name), subject, body, at);
      Intact(after.chain) && FoldChain(after.chain) == FoldChain(db.chain)
  {
    LogKeepsIntact(db, OtherKind(name), subject, body, at);
  }

  lemma SignOffKeeps(db: Db, tx: Tx, at: string)
    requires Inv(db) && tx.TxSignOff?
    ensures Perform(db, tx, at).Ok? && Inv(Perform(db, tx, at).value)
  {
    OtherFolds(db, tx.kindName, tx.subject, tx.body, at);
    SameTablesKeep(db, Log(db, OtherKind(tx.kindName), tx.subject, tx.body, at));
  }

  lemma OtherTxKeeps(db: Db, tx: Tx, at: string)
    requires Inv(db) && Perform(db, tx, at).Ok?
    requires !(tx.TxCreate? || tx.TxSeal? || tx.TxFail? || tx.TxInvalidate?)
    ensures Inv(Perform(db, tx, at).value)
  {
    match tx
    case TxOpen(did, delivery) => OpenKeeps(db, did, delivery, at);
    case TxEvent(did, event) => EventKeeps(db, did, event, at);
    case TxIntent(did, chunks, attempt) => IntentKeeps(db, did, chunks, attempt, at);
    case TxReplay(id, replay) => ReplayKeeps(db, id, replay, at);
    case TxSignOff(_, _, _) => SignOffKeeps(db, tx, at);
    case _ =>
  }

  /** A run: what a sequence of transactions, of any processes in any order, leaves. */
  function Run(db: Db, txs: seq<(Tx, string)>): Db {
    if txs == [] then db else Commit(Run(db, txs[..|txs| - 1]), txs[|txs| - 1].0, txs[|txs| - 1].1)
  }

  const FRESH := Db(map[], map[], [], map[], [])

  /** Tables refine the chain over whole runs of a new ledger. */
  lemma {:induction false} RunsKeepInv(db: Db, txs: seq<(Tx, string)>)
    requires Inv(db) && forall i :: 0 <= i < |txs| ==> HonestTx(txs[i].0)
    ensures Inv(Run(db, txs))
  {
    if txs != [] {
      RunsKeepInv(db, txs[..|txs| - 1]);
      CommitKeeps(Run(db, txs[..|txs| - 1]), txs[|txs| - 1].0, txs[|txs| - 1].1);
    }
  }

  lemma FreshIsConsistent()
    ensures Inv(FRESH)
  {
  }

  // ---- The record state machine over runs --------------------------------

  /** What may follow a state: nothing leaves INVALIDATED, and FAILED stays failed. */
  predicate MayBecome(from: RecordState, to: RecordState) {
    match from
    case Pending => true
    case Sealed => to == Sealed || to == Invalidated
    case RunFailed => to == RunFailed
    case Invalidated => to == Invalidated
  }

  ghost predicate SameRecord(a: RecordRow, b: RecordRow) {
    a.(state := Pending, finalizedAt := None, error := None) == b.(state := Pending, finalizedAt := None, error := None)
  }

  lemma CommitMovesForward(db: Db, tx: Tx, at: string, id: string)
    requires id in db.records
    ensures var after := Commit(db, tx, at);
      && id in after.records
      && MayBecome(db.records[id].state, after.records[id].state)
      && SameRecord(after.records[id], db.records[id])
      && (db.records[id].state == Invalidated ==> after.records[id] == db.records[id])
  {
    match tx
    case TxCreate(_, _) =>
    case TxSeal(_) =>
    case TxFail(_, _) =>
    case TxInvalidate(_, _) =>
    case TxOpen(_, _) =>
    case TxEvent(_, _) =>
    case TxIntent(_, _, _) =>
    case TxReplay(_, _) =>
    case TxSignOff(_, _, _) =>
  }

  lemma CommitExtends(db: Db, tx: Tx, at: string)
    ensures var after := Commit(db, tx, at);
      && db.chain <= after.chain && db.events <= after.events
      && forall d :: d in db.deliveries ==> d in after.deliveries && after.deliveries[d] == db.deliveries[d]
  {
    match tx
    case TxCreate(_, _) =>
    case TxSeal(_) =>
    case TxFail(_, _) =>
    case TxInvalidate(_, _) =>
    case TxOpen(_, _) =>
    case TxEvent(_, _) =>
    case TxIntent(_, _, _) =>
    case TxReplay(_, _) =>
    case TxSignOff(_, _, _) =>
  }

  /** No run loses a record, changes what it identifies, or reverses its state. */
  lemma {:induction false} RecordsOnlyMoveForward(db: Db, txs: seq<(Tx, string)>, id: string)
    requires id in db.records
    ensures id in Run(db, txs).records
    ensures MayBecome(db.records[id].state, Run(db, txs).records[id].state)
    ensures SameRecord(Run(db, txs).records[id], db.records[id])
    ensures db.records[id].state == Invalidated ==> Run(db, txs).records[id] == db.records[id]
  {
    if txs != [] {
      RecordsOnlyMoveForward(db, txs[..|txs| - 1], id);
      CommitMovesForward(Run(db, txs[..|txs| - 1]), txs[|txs| - 1].0, txs[|txs| - 1].1, id);
    }
  }

  /** Logs are append-only: a run only extends the event tables. */
  lemma {:induction false} RunsOnlyExtend(db: Db, txs: seq<(Tx, string)>)
    ensures db.chain <= Run(db, txs).chain && db.events <= Run(db, txs).events
    ensures forall d :: d in db.deliveries ==> d in Run(db, txs).deliveries && Run(db, txs).deliveries[d] == db.deliveries[d]
  {
    if txs != [] {
      RunsOnlyExtend(db, txs[..|txs| - 1]);
      CommitExtends(Run(db, txs[..|txs| - 1]), txs[|txs| - 1].0, txs[|txs| - 1].1);
    }
  }

  // ---- What an edit to a row can hide ------------------------------------

  /** A JSON column reads the same: equal values, where an absent one reads as null. */
  predicate SameColumn(a: Option<Body>, b: Option<Body>) {
    WellFormedColumn(a) && WellFormedColumn(b) && ColumnJson(a) == ColumnJson(b)
  }

  /** The columns an edit must leave as they are. */
  predicate SameCovered(a: RecordRow, b: RecordRow) {
    && a.runId == b.runId && a.artifactHash == b.artifactHash && a.manifest == b.manifest && a.state == b.state
    && a.sourceHash == b.sourceHash && a.parser == b.parser
    && SameColumn(a.parserConfig, b.parserConfig) && SameColumn(a.runConditions, b.runConditions)
  }

  lemma CoveredIsCompared(a: RecordRow, b: RecordRow)
    requires RecordActual(a).Some? && ManifestMatches(a)
    ensures SameCovered(a, b) <==> RecordActual(b) == RecordActual(a) && ManifestMatches(b)
  {
    if RecordActual(b) == RecordActual(a) && ManifestMatches(b) {
      ParserTextsDiffer(a.parser, b.parser);
      assert Sha(ManifestContent(a.manifest.files)) == Sha(ManifestContent(b.manifest.files));
    }
  }

  lemma ParserTextsDiffer(a: Option<ParserRow>, b: Option<ParserRow>)
    ensures ParserJson(a) == ParserJson(b) ==> a == b
  {
    if a.Some? && b.Some? && ParserJson(a) == ParserJson(b) {
      assert ParserJson(a).members[Name] == ParserJson(b).members[Name];
      assert ParserJson(a).members[Version] == ParserJson(b).members[Version];
      assert ParserJson(a).members[ImageDigest] == ParserJson(b).members[ImageDigest];
      assert ParserJson(a).members[ModuleSha256] == ParserJson(b).members[ModuleSha256];
    }
  }

  /** An edit to one record row goes unreported exactly when it keeps the run id, the
      artifact hash, the manifest, the state, the source hash, the parser, and what the
      configuration and the run conditions read as. */
  lemma EditUnreportedIff(db: Db, id: string, row: RecordRow)
    requires Consistent(db) && id in db.records
    ensures Consistent(db.(records := db.records[id := row])) <==> SameCovered(db.records[id], row)
  {
    var edited, v := db.(records := db.records[id := row]), FoldChain(db.chain);
    assert edited.records.Keys == db.records.Keys && edited.records[id] == row;
    assert RecordActual(db.records[id]) == Some(v.records[id]);
    CoveredIsCompared(db.records[id], row);
    if SameCovered(db.records[id], row) {
      assert RecordsMatch(edited, v);
    }
  }

  /** So the backend, the source's kind and id, the error text and the time of
      finalization may all change unseen, to anything. */
  lemma UncoveredColumns(db: Db, id: string, row: RecordRow)
    requires Consistent(db) && id in db.records
    requires row == db.records[id].(backend := row.backend, sourceKind := row.sourceKind, sourceId := row.sourceId,
                                    error := row.error, finalizedAt := row.finalizedAt)
    ensures Consistent(db.(records := db.records[id := row]))
  {
    assert RecordActual(db.records[id]) == Some(FoldChain(db.chain).records[id]);
    EditUnreportedIff(db, id, row);
  }
}
