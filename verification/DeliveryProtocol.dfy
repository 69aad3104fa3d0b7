/**
 Concurrent delivery (stele/contracts/dispatcher.py): any number of dispatch,
 invalidate and retract calls interleave over one ledger database and one
 target store. Every log transaction is one step, a writer lands chunks one at
 a time, a removal deletes rows one at a time, and any call may crash between
 any two steps.

 `payload`, `overlapped`, `disturbed` and a remover's `clean` flag are history:
 no step reads them to decide what to do.
 */
module DeliveryProtocol {
  import opened Chunks
  import opened Delivery
  import opened Ledger
  import opened LedgerView
  import opened Wrappers

  datatype Call = DispatchCall(kind: string, target: string) | InvalidateCall(reason: string) | RetractCall

  /** Where a call stands; each constructor names the step that comes next. */
  datatype Pc =
    // dispatch
    | DStart(kind: string, target: string)              // read the record
    | DOpen(kind: string, target: string)               // verify the bundle, open the delivery
    | DGet(did: string)                                 // read the delivery's status
    | DTransform(did: string)                           // run the adapter
    | DUnwritten(did: string)                           // log a failure that wrote nothing
    | DIntent(did: string, chunks: seq<Chunk>)          // log the intent
    | DWriting(did: string, attempt: string, chunks: seq<Chunk>, landed: set<nat>)
    | DOutcome(did: string, attempt: string, chunks: seq<Chunk>, landed: set<nat>, outcome: DeliveryEvent)
    | DRecheck                                          // read the record again
    // invalidate
    | IStart(reason: string)
    | ICommit(reason: string)
    // retract
    | RStart                                            // read the record
    | RRows                                             // read the record's deliveries
    | REvents(unread: seq<string>, found: seq<(string, int)>)  // read each one's events
    | RLoop(todo: seq<(string, int)>)
    | RCall(did: string, todo: seq<(string, int)>)      // intent logged; call the writer
    | RRemove(did: string, left: set<string>, clean: bool, todo: seq<(string, int)>)
    | RReceipt(did: string, removed: Option<int>, clean: bool, todo: seq<(string, int)>)
    | RFail(did: string, todo: seq<(string, int)>)      // log the removal failure
    | Returned

  datatype Proc = Proc(rid: string, pc: Pc, crashed: bool)

  datatype State = State(
    db: Db,
    rows: map<string, map<string, Chunk>>,   // the target: dispatch_id -> chunk_id -> chunk
    procs: map<nat, Proc>,
    attempts: set<string>,                   // attempt ids handed out so far
    payload: map<string, seq<Chunk>>,        // history: the chunks of each first intent
    overlapped: set<string>,                 // history: see LogRemovalReceipt
    disturbed: bool)                         // history: a crash, a failed removal, or an invalidation outside invalidate()

  datatype Act =
    | Start(rid: string, call: Call)
    | Env(tx: Tx)
    | Crash
    | Read
    | Refuse
    | Open(did: string)
    | Transform(chunks: seq<Chunk>)
    | TransformFails
    | LogUnwritten(attempt: string, error: string)
    | LogIntent(attempt: string)
    | Land(i: nat)
    | WriterReturns
    | WriterRaises(done: Option<int>, error: string)
    | LogOutcome
    | CommitInvalidation
    | ReadRows(dids: seq<string>)
    | NoWriter(error: string)
    | LogRemovalIntent
    | BeginRemove
    | RemoveRow(key: string)
    | RemovalReturns(removed: Option<int>)
    | RemovalRaises
    | LogRemovalReceipt
    | LogRemovalFailure(error: string)

  function Rows(s: State, did: string): map<string, Chunk> {
    if did in s.rows then s.rows[did] else map[]
  }

  function EventLog(s: State, did: string): seq<DeliveryEvent> { EventsOf(s.db.events, did) }

  function ClaimAt(s: State, did: string): Claim { ClaimOf(EventLog(s, did)) }

  function RecState(s: State, rid: string): Option<RecordState> {
    if rid in s.db.records then Some(s.db.records[rid].state) else None
  }

  function Go(s: State, p: nat, pc: Pc): State
    requires p in s.procs
  {
    s.(procs := s.procs[p := s.procs[p].(pc := pc)])
  }

  function RemovalEvent(kind: EventKind, planned: Option<int>, done: Option<int>, error: Option<string>): DeliveryEvent {
    DeliveryEvent(kind, planned, None, done, error, None)
  }

  function InitialPc(call: Call): Pc {
    match call
    case DispatchCall(kind, target) => DStart(kind, target)
    case InvalidateCall(reason) => IStart(reason)
    case RetractCall => RStart
  }

  /** History: a write outcome was logged inside this removal's window. */
  function Unclean(pc: Pc, did: string): Pc {
    match pc
    case RRemove(d, left, clean, todo) => RRemove(d, left, clean && d != did, todo)
    case RReceipt(d, removed, clean, todo) => RReceipt(d, removed, clean && d != did, todo)
    case _ => pc
  }

  function Overlap(procs: map<nat, Proc>, did: string): map<nat, Proc> {
    map q | q in procs :: procs[q].(pc := Unclean(procs[q].pc, did))
  }

  // ---- Steps of dispatch -------------------------------------------------

  function ReadStep(s: State, p: nat): Option<State>
    requires p in s.procs
  {
    var pr := s.procs[p];
    match pr.pc
    case DStart(kind, target) =>
      Some(Go(s, p, if RecState(s, pr.rid) == Some(Sealed) then DOpen(kind, target) else Returned))
    case DGet(did) =>
      Some(Go(s, p, if StatusOf(EventLog(s, did)) == Delivered then Returned else DTransform(did)))
    case DRecheck =>
      Some(Go(s, p, if RecState(s, pr.rid) == Some(Invalidated) then RStart else Returned))
    case IStart(reason) =>
      Some(Go(s, p, if RecState(s, pr.rid) == None then Returned
                    else if RecState(s, pr.rid) == Some(Invalidated) then RStart else ICommit(reason)))
    case RStart =>
      Some(Go(s, p, if RecState(s, pr.rid) == Some(Invalidated) then RRows else Returned))
    case REvents(unread, found) =>
      if unread == [] then Some(Go(s, p, RLoop(found)))
      else
        var log := EventLog(s, unread[0]);
        Some(Go(s, p, REvents(unread[1..],
          if PossiblyWritten(log) then found + [(unread[0], PlannedOf(log))] else found)))
    case RLoop(todo) => if todo == [] then Some(Go(s, p, Returned)) else None
    case _ => None
  }

  function PlannedOf(log: seq<DeliveryEvent>): int {
    var first := FirstIntent(log);
    if first.Some? && first.value.planned.Some? then first.value.planned.value else 0
  }

  function DispatchStep(s: State, p: nat, a: Act, at: string): Option<State>
    requires p in s.procs
  {
    var pr := s.procs[p];
    match (pr.pc, a)
    case (DOpen(kind, target), Refuse) => Some(Go(s, p, Returned))
    case (DOpen(kind, target), Open(did)) =>
      var row := DeliveryRow(pr.rid, kind, target);
      var r := OpenDelivery(s.db, did, row, at);
      if r.Ok? && did in r.value.deliveries && r.value.deliveries[did] == row
      then Some(Go(s.(db := r.value), p, DGet(did))) else None
    case (DTransform(did), Transform(chunks)) => Some(Go(s, p, DIntent(did, chunks)))
    case (DTransform(did), TransformFails) => Some(Go(s, p, DUnwritten(did)))
    case (DUnwritten(did), LogUnwritten(attempt, error)) =>
      var r := AppendEvent(s.db, did, DeliveryEvent(Failure, None, None, Some(0), Some(error), Some(attempt)), at);
      if attempt !in s.attempts && r.Ok?
      then Some(Go(s.(db := r.value, attempts := s.attempts + {attempt}), p, Returned)) else None
    case (DIntent(did, chunks), LogIntent(attempt)) =>
      var r := AppendIntent(s.db, did, chunks, attempt, at);
      if attempt in s.attempts then None
      else if r.Err? then Some(Go(s, p, Returned))
      else Some(Go(s.(db := r.value, attempts := s.attempts + {attempt},
                      payload := if did in s.payload then s.payload else s.payload[did := chunks]),
                   p, DWriting(did, attempt, chunks, {})))
    case _ => None
  }

  /** The writer as the environment: it lands any chunk of its payload, returns only
      once all have landed, and reports a partial count truthfully. */
  function WriterStep(s: State, p: nat, a: Act, at: string): Option<State>
    requires p in s.procs
  {
    match (s.procs[p].pc, a)
    case (DWriting(did, attempt, chunks, landed), Land(i)) =>
      if i < |chunks|
      then Some(Go(s.(rows := s.rows[did := Rows(s, did)[chunks[i].id := chunks[i]]]), p,
                   DWriting(did, attempt, chunks, landed + {i})))
      else None
    case (DWriting(did, attempt, chunks, landed), WriterReturns) =>
      if forall i: nat | i < |chunks| :: i in landed
      then Some(Go(s, p, DOutcome(did, attempt, chunks, landed,
                                  DeliveryEvent(Receipt, None, None, Some(|chunks|), None, Some(attempt)))))
      else None
    case (DWriting(did, attempt, chunks, landed), WriterRaises(done, error)) =>
      if done.Some? && done.value != |landed| then None
      else Some(Go(s, p, DOutcome(did, attempt, chunks, landed,
                                  DeliveryEvent(Failure, None, None, done, Some(error), Some(attempt)))))
    case (DOutcome(did, attempt, chunks, landed, outcome), LogOutcome) =>
      var r := AppendEvent(s.db, did, outcome, at);
      if r.Ok?
      then Some(Go(s.(db := r.value,
                      procs := if outcome.MayHaveWritten() then Overlap(s.procs, did) else s.procs), p, DRecheck))
      else None
    case _ => None
  }

  // ---- Steps of invalidate and retract -----------------------------------

  function RetractStep(s: State, p: nat, a: Act, at: string): Option<State>
    requires p in s.procs
  {
    var pr := s.procs[p];
    match (pr.pc, a)
    case (ICommit(reason), CommitInvalidation) =>
      var r := Invalidate(s.db, pr.rid, reason, at);
      if r.Ok? then Some(Go(s.(db := r.value), p, RStart)) else Some(Go(s, p, Returned))
    case (RRows, ReadRows(dids)) =>
      if (forall d | d in s.db.deliveries.Keys + (set x | x in dids) ::
            d in dids <==> d in s.db.deliveries && s.db.deliveries[d].recordId == pr.rid)
      then Some(Go(s, p, REvents(dids, []))) else None
    case (RLoop(todo), NoWriter(error)) =>
      if todo == [] then None
      else
        var r := AppendEvent(s.db, todo[0].0, RemovalEvent(RemovalFailure, None, None, Some(error)), at);
        if r.Ok? then Some(Go(s.(db := r.value, disturbed := true), p, RLoop(todo[1..]))) else None
    case (RLoop(todo), LogRemovalIntent) =>
      if todo == [] then None
      else
        var r := AppendEvent(s.db, todo[0].0, RemovalEvent(RemovalIntent, Some(todo[0].1), None, None), at);
        if r.Ok? then Some(Go(s.(db := r.value), p, RCall(todo[0].0, todo[1..]))) else None
    case _ => None
  }

  /** The writer's remove_delivery, one row at a time, and its logged outcome. */
  function RemovalStep(s: State, p: nat, a: Act, at: string): Option<State>
    requires p in s.procs
  {
    match (s.procs[p].pc, a)
    case (RCall(did, todo), BeginRemove) => Some(Go(s, p, RRemove(did, Rows(s, did).Keys, true, todo)))
    case (RRemove(did, left, clean, todo), RemoveRow(key)) =>
      if key in left
      then Some(Go(s.(rows := s.rows[did := Rows(s, did) - {key}]), p, RRemove(did, left - {key}, clean, todo)))
      else None
    case (RRemove(did, left, clean, todo), RemovalReturns(removed)) =>
      if left == {} then Some(Go(s, p, RReceipt(did, removed, clean, todo))) else None
    case (RRemove(did, left, clean, todo), RemovalRaises) =>
      Some(Go(s.(disturbed := true), p, RFail(did, todo)))
    case (RReceipt(did, removed, clean, todo), LogRemovalReceipt) =>
      var r := AppendEvent(s.db, did, RemovalEvent(RemovalReceipt, None, removed, None), at);
      if r.Ok?
      then Some(Go(s.(db := r.value, overlapped := if clean then s.overlapped - {did} else s.overlapped + {did}),
                   p, RLoop(todo)))
      else None
    case (RFail(did, todo), LogRemovalFailure(error)) =>
      var r := AppendEvent(s.db, did, RemovalEvent(RemovalFailure, None, None, Some(error)), at);
      if r.Ok? then Some(Go(s.(db := r.value), p, RLoop(todo))) else None
    case _ => None
  }

  /** Transactions of the rest of the ledger; an invalidation that does not go
      through invalidate() leaves its removals to a later retract. */
  function EnvStep(s: State, tx: Tx, at: string): Option<State> {
    if tx.TxOpen? || tx.TxEvent? || tx.TxIntent? then None
    else Some(s.(db := Commit(s.db, tx, at), disturbed := s.disturbed || tx.TxInvalidate?))
  }

  function Step(s: State, p: nat, a: Act, at: string): Option<State> {
    if a.Start? then
      if p in s.procs then None else Some(s.(procs := s.procs[p := Proc(a.rid, InitialPc(a.call), false)]))
    else if a.Env? then EnvStep(s, a.tx, at)
    else if p !in s.procs || s.procs[p].crashed || s.procs[p].pc.Returned? then None
    else if a.Crash? then Some(s.(procs := s.procs[p := s.procs[p].(crashed := true)], disturbed := true))
    else if a.Read? then ReadStep(s, p)
    else if DispatchStep(s, p, a, at).Some? then DispatchStep(s, p, a, at)
    else if WriterStep(s, p, a, at).Some? then WriterStep(s, p, a, at)
    else if RetractStep(s, p, a, at).Some? then RetractStep(s, p, a, at)
    else RemovalStep(s, p, a, at)
  }

  /** What dispatch and the ledger check before a step: adapter output is validated,
      recorded rows are honest. */
  ghost predicate Admissible(a: Act) {
    && (a.Transform? ==> ValidChunks(a.chunks))
    && (a.Env? ==> HonestTx(a.tx))
  }

  /** A ledger with records and no deliveries yet, an empty target, no calls. */
  ghost predicate Init(s: State) {
    && LedgerView.Inv(s.db) && s.db.deliveries == map[] && s.db.events == []
    && s.rows == map[] && s.procs == map[] && s.attempts == {} && s.payload == map[]
    && s.overlapped == {} && !s.disturbed
  }

  datatype Move = Move(p: nat, act: Act, at: string)

  /** The state after a run of moves, if every one of them was enabled. */
  function After(s: State, moves: seq<Move>): Option<State> {
    if moves == [] then Some(s)
    else
      var before := After(s, moves[..|moves| - 1]);
      var m := moves[|moves| - 1];
      if before.Some? then Step(before.value, m.p, m.act, m.at) else None
  }

  ghost predicate Reachable(s: State) {
    exists init: State, moves: seq<Move> ::
      Init(init) && After(init, moves) == Some(s) && forall i :: 0 <= i < |moves| ==> Admissible(moves[i].act)
  }
}
