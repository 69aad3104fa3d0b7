/**
 What a removal's window hides, exactly. The dispatcher calls the writer's removal
 and logs its receipt later (stele/contracts/dispatcher.py, _remove). An attempt may
 land rows behind the removal and have its outcome logged before that receipt, which
 then clears them from the log's claim although they stay. The history of a run
 records these rows; where the log claims nothing they are all the target holds.
 */
module DeliveryWindows {
  import opened Chunks
  import opened Delivery
  import opened DeliveryConvergence
  import opened DeliveryProtocol
  import opened DeliverySafety
  import opened DeliveryTheorems
  import opened Ledger
  import opened Wrappers

  // ---- The history of a run ----------------------------------------------

  /** settled: per removal in progress, the rows whose attempt had its outcome logged
      inside the removal's window, less those removed since. hidden: per delivery, what
      was settled when its last removal receipt was logged, less those removed since. */
  datatype History = History(settled: map<nat, set<string>>, hidden: map<string, set<string>>)

  function Settled(h: History, q: nat): set<string> { if q in h.settled then h.settled[q] else {} }

  function Hidden(h: History, did: string): set<string> { if did in h.hidden then h.hidden[did] else {} }

  predicate InWindow(pc: Pc) { pc.RRemove? || pc.RReceipt? }

  predicate Removing(pc: Pc, did: string) { InWindow(pc) && pc.did == did }

  /** The rows an attempt landed that are at the target when its outcome is logged. */
  function Standing(s: State, did: string, chunks: seq<Chunk>, landed: set<nat>): set<string> {
    LandedIds(chunks, landed) * Rows(s, did).Keys
  }

  function AddSettled(h: History, s: State, did: string, keys: set<string>): map<nat, set<string>> {
    map q | q in s.procs :: if Removing(s.procs[q].pc, did) then Settled(h, q) + keys else Settled(h, q)
  }

  function DropSettled(h: History, s: State, did: string, key: string): map<nat, set<string>> {
    map q | q in s.procs :: if Removing(s.procs[q].pc, did) then Settled(h, q) - {key} else Settled(h, q)
  }

  /** What one step of call p adds to the history. */
  function Remember(h: History, s: State, p: nat, a: Act): History {
    if p !in s.procs then h
    else
      match (s.procs[p].pc, a)
      case (RCall(_, _), BeginRemove) => h.(settled := h.settled[p := {}])
      case (RRemove(did, _, _, _), RemoveRow(key)) =>
        History(DropSettled(h, s, did, key), h.hidden[did := Hidden(h, did) - {key}])
      case (DOutcome(did, _, chunks, landed, outcome), LogOutcome) =>
        if outcome.MayHaveWritten() then h.(settled := AddSettled(h, s, did, Standing(s, did, chunks, landed))) else h
      case (RReceipt(did, _, _, _), LogRemovalReceipt) => h.(hidden := h.hidden[did := Settled(h, p)])
      case (_, _) => h
  }

  function HistoryOf(init: State, moves: seq<Move>): History {
    if moves == [] then History(map[], map[])
    else
      var front, m := moves[..|moves| - 1], moves[|moves| - 1];
      var before := After(init, front);
      if before.Some? then Remember(HistoryOf(init, front), before.value, m.p, m.act) else HistoryOf(init, front)
  }

  // ---- The invariant -----------------------------------------------------

  function LeftOf(pc: Pc): set<string> { if pc.RRemove? then pc.left else {} }

  /** Inside a window every row is still to be removed, or settled in the window, or
      landed by an open attempt; and every settled row is there. */
  ghost predicate WindowTracked(h: History, s: State, q: nat)
    requires q in s.procs
  {
    var pc := s.procs[q].pc;
    InWindow(pc) ==>
      && Settled(h, q) <= Rows(s, pc.did).Keys
      && (pc.clean ==> Settled(h, q) == {})
      && forall key {:trigger Landing(s, pc.did, key)} :: key in Rows(s, pc.did) ==>
           key in LeftOf(pc) || key in Settled(h, q) || Landing(s, pc.did, key)
  }

  /** Once the log no longer says written, every row is hidden or of an open attempt. */
  ghost predicate HiddenTracked(h: History, s: State, did: string) {
    && Hidden(h, did) <= Rows(s, did).Keys
    && (did !in s.overlapped ==> Hidden(h, did) == {})
    && (!ClaimAt(s, did).written ==>
          forall key {:trigger Landing(s, did, key)} :: key in Rows(s, did) ==> key in Hidden(h, did) || Landing(s, did, key))
  }

  ghost predicate Tracked(h: History, s: State) {
    && (forall q {:trigger s.procs[q]} :: q in s.procs ==> WindowTracked(h, s, q))
    && (forall did :: HiddenTracked(h, s, did))
  }

  // ---- Steps that touch neither rows nor windows -------------------------

  ghost predicate SameWindow(s: State, t: State, q: nat)
    requires q in t.procs
  {
    InWindow(t.procs[q].pc) ==>
      && q in s.procs && InWindow(s.procs[q].pc)
      && t.procs[q].pc.did == s.procs[q].pc.did && t.procs[q].pc.clean == s.procs[q].pc.clean
      && LeftOf(t.procs[q].pc) == LeftOf(s.procs[q].pc)
  }

  ghost predicate Quiet(s: State, t: State) {
    && t.rows == s.rows && t.overlapped == s.overlapped
    && (forall d :: LandingGrows(s, t, d))
    && (forall d {:trigger ClaimAt(t, d)} :: ClaimAt(s, d).written ==> ClaimAt(t, d).written)
    && (forall q {:trigger t.procs[q]} :: q in t.procs ==> SameWindow(s, t, q))
  }

  lemma QuietTracks(h: History, s: State, t: State)
    requires Tracked(h, s) && Quiet(s, t)
    ensures Tracked(h, t)
  {
    forall d ensures Rows(t, d) == Rows(s, d) {}
    forall q | q in t.procs ensures WindowTracked(h, t, q) {
      assert SameWindow(s, t, q);
      if InWindow(t.procs[q].pc) {
        assert WindowTracked(h, s, q) && LandingGrows(s, t, t.procs[q].pc.did);
      }
    }
    forall d ensures HiddenTracked(h, t, d) {
      assert HiddenTracked(h, s, d) && LandingGrows(s, t, d);
      assert ClaimAt(s, d).written ==> ClaimAt(t, d).written;
    }
  }

  lemma OnlyProcIsQuiet(s: State, t: State, p: nat, pc: Pc)
    requires OnlyProc(s, t, p, pc) && SameWindow(s, t, p) && t.rows == s.rows && t.overlapped == s.overlapped
    requires forall d {:trigger ClaimAt(t, d)} :: ClaimAt(s, d).written ==> ClaimAt(t, d).written
    ensures Quiet(s, t)
  {
    SameLanders(s, t, p, pc);
  }

  lemma MovedIsQuiet(s: State, t: State, p: nat)
    requires Moved(s, t, p)
    ensures Quiet(s, t)
  {
    forall d ensures ClaimAt(t, d) == ClaimAt(s, d) {
      assert EventLog(t, d) == EventLog(s, d);
    }
    OnlyProcIsQuiet(s, t, p, t.procs[p].pc);
  }

  /** Logging anything but a removal receipt leaves `written` standing. */
  lemma LogIsQuiet(s: State, t: State, p: nat, did: string, e: DeliveryEvent, at: string)
    requires p in t.procs && OnlyProc(s, t, p, t.procs[p].pc) && SameWindow(s, t, p)
    requires t.rows == s.rows && t.overlapped == s.overlapped
    requires AppendEvent(s.db, did, e, at) == Ok(t.db) && e.kind != RemovalReceipt
    ensures Quiet(s, t)
  {
    AppendEffect(s, t, did, e, at);
    forall d ensures ClaimAt(s, d).written ==> ClaimAt(t, d).written {
      assert ClaimAt(t, d) == if d == did then ClaimAt(s, d).Add(e) else ClaimAt(s, d);
    }
    OnlyProcIsQuiet(s, t, p, t.procs[p].pc);
  }

  lemma IntentIsQuiet(s: State, t: State, p: nat, did: string, chunks: seq<Chunk>, attempt: string)
    requires p in s.procs && s.procs[p].pc == DIntent(did, chunks) && IntentLogged(s, t, p, did, chunks, attempt)
    ensures Quiet(s, t)
  {
    forall d ensures LandingGrows(s, t, d) && (ClaimAt(s, d).written ==> ClaimAt(t, d).written) {
      assert Rows(t, d) == Rows(s, d);
      IntentLanders(s, t, p, did, chunks, attempt, d);
    }
  }

  lemma DispatchIsQuiet(s: State, t: State, p: nat, a: Act, at: string)
    requires Safe(s) && p in s.procs && Admissible(a) && DispatchStep(s, p, a, at) == Some(t)
    ensures Quiet(s, t)
  {
    var pc := s.procs[p].pc;
    if a.LogUnwritten? {
      LogIsQuiet(s, t, p, pc.did, DeliveryEvent(Failure, None, None, Some(0), Some(a.error), Some(a.attempt)), at);
    } else if a.LogIntent? && AppendIntent(s.db, pc.did, pc.chunks, a.attempt, at).Ok? {
      IntentIsLogged(s, t, p, pc.did, pc.chunks, a.attempt, at);
      IntentIsQuiet(s, t, p, pc.did, pc.chunks, a.attempt);
    } else {
      DispatchMoves(s, t, p, a, at);
      MovedIsQuiet(s, t, p);
    }
  }

  lemma WriterCallIsQuiet(s: State, t: State, p: nat, a: Act, at: string)
    requires p in s.procs && WriterStep(s, p, a, at) == Some(t) && !a.Land? && !a.LogOutcome?
    ensures Quiet(s, t)
  {
    assert OnlyProc(s, t, p, t.procs[p].pc) && t.db == s.db;
    OnlyProcIsQuiet(s, t, p, t.procs[p].pc);
  }

  lemma RetractIsQuiet(s: State, t: State, p: nat, a: Act, at: string)
    requires p in s.procs && RetractStep(s, p, a, at) == Some(t)
    ensures Quiet(s, t)
  {
    var pc := s.procs[p].pc;
    if a.NoWriter? {
      LogIsQuiet(s, t, p, pc.todo[0].0, RemovalEvent(RemovalFailure, None, None, Some(a.error)), at);
    } else if a.LogRemovalIntent? {
      LogIsQuiet(s, t, p, pc.todo[0].0, RemovalEvent(RemovalIntent, Some(pc.todo[0].1), None, None), at);
    } else {
      RetractMoves(s, t, p, a, at);
      MovedIsQuiet(s, t, p);
    }
  }

  lemma RemovalEndIsQuiet(s: State, t: State, p: nat, a: Act, at: string)
    requires p in s.procs && RemovalStep(s, p, a, at) == Some(t)
    requires a.RemovalReturns? || a.RemovalRaises? || a.LogRemovalFailure?
    ensures Quiet(s, t)
  {
    if a.LogRemovalFailure? {
      LogIsQuiet(s, t, p, s.procs[p].pc.did, RemovalEvent(RemovalFailure, None, None, Some(a.error)), at);
    } else {
      assert OnlyProc(s, t, p, t.procs[p].pc) && t.db == s.db;
      OnlyProcIsQuiet(s, t, p, t.procs[p].pc);
    }
  }

  lemma EnvIsQuiet(s: State, t: State, tx: Tx, at: string)
    requires EnvStep(s, tx, at) == Some(t)
    ensures Quiet(s, t)
  {
    EnvLog(s, t, tx, at);
    forall d ensures LandingGrows(s, t, d) && ClaimAt(t, d) == ClaimAt(s, d) {
      assert EventLog(t, d) == EventLog(s, d);
    }
  }

  lemma EnvLog(s: State, t: State, tx: Tx, at: string)
    requires EnvStep(s, tx, at) == Some(t)
    ensures t.db.events == s.db.events && t.procs == s.procs && t.rows == s.rows && t.overlapped == s.overlapped
  {
  }

  // ---- The five steps that matter ----------------------------------------

  lemma LandTracks(h: History, s: State, t: State, p: nat, i: nat, at: string)
    requires Tracked(h, s) && p in s.procs && s.procs[p].pc.DWriting? && WriterStep(s, p, Land(i), at) == Some(t)
    ensures Tracked(h, t)
  {
    forall d ensures LandingGrows(s, t, d) && Rows(s, d).Keys <= Rows(t, d).Keys && ClaimAt(t, d) == ClaimAt(s, d)
      && forall key :: key in Rows(t, d) ==> key in Rows(s, d) || Landing(t, d, key)
    {
      LandGrows(s, t, p, i, at, d);
      assert EventLog(t, d) == EventLog(s, d);
    }
    forall q | q in t.procs ensures WindowTracked(h, t, q) {
      assert WindowTracked(h, s, q) && (InWindow(t.procs[q].pc) ==> t.procs[q] == s.procs[q]);
      if InWindow(t.procs[q].pc) { GrownIsTracked(s, t, t.procs[q].pc.did, LeftOf(t.procs[q].pc) + Settled(h, q)); }
    }
    forall d ensures HiddenTracked(h, t, d) {
      assert HiddenTracked(h, s, d);
      if !ClaimAt(t, d).written { GrownIsTracked(s, t, d, Hidden(h, d)); }
    }
  }

  lemma GrownIsTracked(s: State, t: State, d: string, keys: set<string>)
    requires LandingGrows(s, t, d)
    requires forall key {:trigger Landing(s, d, key)} :: key in Rows(s, d) ==> key in keys || Landing(s, d, key)
    requires forall key :: key in Rows(t, d) ==> key in Rows(s, d) || Landing(t, d, key)
    ensures forall key {:trigger Landing(t, d, key)} :: key in Rows(t, d) ==> key in keys || Landing(t, d, key)
  {
    forall key | key in Rows(t, d) ensures key in keys || Landing(t, d, key) {
      if key in Rows(s, d) { assert key in keys || Landing(s, d, key); }
    }
  }

  /** The rows a logged outcome takes from the open attempts are the ones it settles. */
  lemma OutcomeSettles(s: State, t: State, p: nat, d: string, key: string)
    requires Safe(s) && p in s.procs && s.procs[p].pc.DOutcome? && Concluded(s, t, p)
    requires key in Rows(s, d) && Landing(s, d, key) && !Landing(t, d, key)
    ensures var pc := s.procs[p].pc;
      d == pc.did && pc.outcome.MayHaveWritten() && key in Standing(s, d, pc.chunks, pc.landed)
  {
    assert ProcOk(s, s.procs[p].pc);
    OutcomeLanders(s, t, p);
    var q :| q in s.procs && HasLanded(s.procs[q], d, key);
    if q != p {
      assert q in t.procs && HasLanded(t.procs[q], d, key);
    }
  }

  lemma OutcomeMemory(h: History, s: State, p: nat, q: nat)
    requires p in s.procs && s.procs[p].pc.DOutcome? && q in s.procs
    ensures var pc, g := s.procs[p].pc, Remember(h, s, p, LogOutcome);
      && g.hidden == h.hidden
      && Settled(g, q) == if pc.outcome.MayHaveWritten() && Removing(s.procs[q].pc, pc.did)
                          then Settled(h, q) + Standing(s, pc.did, pc.chunks, pc.landed) else Settled(h, q)
  {
  }

  lemma OutcomeWindowTracked(h: History, s: State, t: State, p: nat, q: nat)
    requires Safe(s) && q in s.procs && WindowTracked(h, s, q) && p in s.procs && s.procs[p].pc.DOutcome?
    requires Concluded(s, t, p) && q in t.procs
    ensures WindowTracked(Remember(h, s, p, LogOutcome), t, q)
  {
    OutcomeMemory(h, s, p, q);
    if InWindow(t.procs[q].pc) { OutcomeWindow(h, Remember(h, s, p, LogOutcome), s, t, p, q); }
  }

  lemma OutcomeWindow(h: History, g: History, s: State, t: State, p: nat, q: nat)
    requires Safe(s) && q in s.procs && WindowTracked(h, s, q) && p in s.procs && s.procs[p].pc.DOutcome? && Concluded(s, t, p)
    requires q in t.procs && InWindow(t.procs[q].pc)
    requires var pc := s.procs[p].pc;
      Settled(g, q) == if pc.outcome.MayHaveWritten() && Removing(s.procs[q].pc, pc.did)
                       then Settled(h, q) + Standing(s, pc.did, pc.chunks, pc.landed) else Settled(h, q)
    ensures WindowTracked(g, t, q)
  {
    var pc := t.procs[q].pc;
    assert q != p && Rows(t, pc.did) == Rows(s, pc.did);
    assert Removing(s.procs[q].pc, pc.did) && LeftOf(pc) == LeftOf(s.procs[q].pc);
    forall key | key in Rows(t, pc.did) ensures key in LeftOf(pc) || key in Settled(g, q) || Landing(t, pc.did, key) {
      assert key in LeftOf(pc) || key in Settled(h, q) || Landing(s, pc.did, key);
      if Landing(s, pc.did, key) && !Landing(t, pc.did, key) { OutcomeSettles(s, t, p, pc.did, key); }
    }
  }

  lemma OutcomeHiddenTracked(h: History, s: State, t: State, p: nat, d: string)
    requires Safe(s) && Tracked(h, s) && p in s.procs && s.procs[p].pc.DOutcome? && Concluded(s, t, p)
    ensures HiddenTracked(Remember(h, s, p, LogOutcome), t, d)
  {
    var pc := s.procs[p].pc;
    assert ProcOk(s, pc) && HiddenTracked(h, s, d) && Rows(t, d) == Rows(s, d);
    assert ClaimAt(t, d) == if d == pc.did then ClaimAt(s, d).Add(pc.outcome) else ClaimAt(s, d);
    if !ClaimAt(t, d).written {
      forall key | key in Rows(t, d) ensures key in Hidden(h, d) || Landing(t, d, key) {
        assert key in Hidden(h, d) || Landing(s, d, key);
        if Landing(s, d, key) && !Landing(t, d, key) { OutcomeSettles(s, t, p, d, key); }
      }
    }
  }

  lemma BeginTracks(h: History, s: State, t: State, p: nat, at: string)
    requires Tracked(h, s) && p in s.procs && s.procs[p].pc.RCall? && RemovalStep(s, p, BeginRemove, at) == Some(t)
    ensures Tracked(Remember(h, s, p, BeginRemove), t)
  {
    var g := Remember(h, s, p, BeginRemove);
    SameLanders(s, t, p, t.procs[p].pc);
    forall q | q in t.procs ensures WindowTracked(g, t, q) {
      if q != p { assert WindowTracked(h, s, q) && Settled(g, q) == Settled(h, q); }
    }
    forall d ensures HiddenTracked(g, t, d) {
      assert HiddenTracked(h, s, d) && ClaimAt(t, d) == ClaimAt(s, d) && Rows(t, d) == Rows(s, d);
    }
  }

  /** t is s after call p removed one row of its delivery. */
  ghost predicate RowRemoved(s: State, t: State, p: nat, key: string) {
    && p in s.procs && p in t.procs && s.procs[p].pc.RRemove? && OnlyProc(s, t, p, t.procs[p].pc)
    && InWindow(t.procs[p].pc) && t.procs[p].pc == s.procs[p].pc.(left := s.procs[p].pc.left - {key})
    && t.db == s.db && t.overlapped == s.overlapped
    && (forall d {:trigger Rows(t, d)} :: Rows(t, d) == if d == s.procs[p].pc.did then Rows(s, d) - {key} else Rows(s, d))
  }

  lemma RemoveRowIs(s: State, t: State, p: nat, key: string, at: string)
    requires p in s.procs && s.procs[p].pc.RRemove? && RemovalStep(s, p, RemoveRow(key), at) == Some(t)
    ensures p in t.procs && RowRemoved(s, t, p, key)
  {
  }

  lemma RemoveMemory(h: History, s: State, p: nat, key: string, q: nat)
    requires p in s.procs && s.procs[p].pc.RRemove? && q in s.procs
    ensures var g := Remember(h, s, p, RemoveRow(key));
      Settled(g, q) == if Removing(s.procs[q].pc, s.procs[p].pc.did) then Settled(h, q) - {key} else Settled(h, q)
  {
  }

  lemma RowRemovedWindow(h: History, s: State, t: State, p: nat, key: string, q: nat)
    requires q in s.procs && WindowTracked(h, s, q) && p in t.procs && RowRemoved(s, t, p, key) && q in t.procs
    ensures WindowTracked(Remember(h, s, p, RemoveRow(key)), t, q)
  {
    var pc := t.procs[q].pc;
    RemoveMemory(h, s, p, key, q);
    if InWindow(pc) {
      SameLanders(s, t, p, t.procs[p].pc);
      assert Removing(s.procs[q].pc, pc.did) && s.procs[q].pc.clean == pc.clean;
      assert Rows(t, pc.did) == if pc.did == s.procs[p].pc.did then Rows(s, pc.did) - {key} else Rows(s, pc.did);
      assert LeftOf(s.procs[q].pc) <= LeftOf(pc) + {key} && (pc.did != s.procs[p].pc.did ==> LeftOf(pc) == LeftOf(s.procs[q].pc));
    }
  }

  lemma RowRemovedHidden(h: History, s: State, t: State, p: nat, key: string, d: string)
    requires HiddenTracked(h, s, d) && p in t.procs && RowRemoved(s, t, p, key)
    ensures HiddenTracked(Remember(h, s, p, RemoveRow(key)), t, d)
  {
    var g := Remember(h, s, p, RemoveRow(key));
    SameLanders(s, t, p, t.procs[p].pc);
    assert ClaimAt(t, d) == ClaimAt(s, d);
    assert Hidden(g, d) == if d == s.procs[p].pc.did then Hidden(h, d) - {key} else Hidden(h, d);
    assert Rows(t, d) == if d == s.procs[p].pc.did then Rows(s, d) - {key} else Rows(s, d);
  }

  lemma RemoveRowTracks(h: History, s: State, t: State, p: nat, key: string)
    requires Tracked(h, s) && RowRemoved(s, t, p, key)
    ensures Tracked(Remember(h, s, p, RemoveRow(key)), t)
  {
    forall q | q in t.procs ensures WindowTracked(Remember(h, s, p, RemoveRow(key)), t, q) {
      assert q in s.procs && WindowTracked(h, s, q);
      RowRemovedWindow(h, s, t, p, key, q);
    }
    forall d ensures HiddenTracked(Remember(h, s, p, RemoveRow(key)), t, d) {
      assert HiddenTracked(h, s, d);
      RowRemovedHidden(h, s, t, p, key, d);
    }
  }

  /** t is s after call p logged its removal receipt. */
  ghost predicate RemovalLogged(s: State, t: State, p: nat) {
    && p in s.procs && s.procs[p].pc.RReceipt? && OnlyProc(s, t, p, RLoop(s.procs[p].pc.todo))
    && t.rows == s.rows
    && t.overlapped == (if s.procs[p].pc.clean then s.overlapped - {s.procs[p].pc.did} else s.overlapped + {s.procs[p].pc.did})
    && (forall d {:trigger ClaimAt(t, d)} :: ClaimAt(t, d) ==
          if d == s.procs[p].pc.did then ClaimAt(s, d).(written := false) else ClaimAt(s, d))
  }

  lemma ReceiptIs(s: State, t: State, p: nat, at: string)
    requires p in s.procs && s.procs[p].pc.RReceipt? && RemovalStep(s, p, LogRemovalReceipt, at) == Some(t)
    ensures RemovalLogged(s, t, p)
  {
    var pc := s.procs[p].pc;
    var e := RemovalEvent(RemovalReceipt, None, pc.removed, None);
    AppendEffect(s, t, pc.did, e, at);
    forall d ensures ClaimAt(t, d) == if d == pc.did then ClaimAt(s, d).(written := false) else ClaimAt(s, d) {
      assert ClaimAt(t, d) == if d == pc.did then ClaimAt(s, d).Add(e) else ClaimAt(s, d);
    }
  }

  lemma ReceiptMemory(h: History, s: State, p: nat, d: string)
    requires p in s.procs && s.procs[p].pc.RReceipt?
    ensures var g := Remember(h, s, p, LogRemovalReceipt);
      g.settled == h.settled && Hidden(g, d) == if d == s.procs[p].pc.did then Settled(h, p) else Hidden(h, d)
  {
  }

  lemma ReceiptWindow(h: History, g: History, s: State, t: State, p: nat, q: nat)
    requires q in s.procs && WindowTracked(h, s, q) && RemovalLogged(s, t, p) && q in t.procs && g.settled == h.settled
    ensures WindowTracked(g, t, q)
  {
    SameLanders(s, t, p, RLoop(s.procs[p].pc.todo));
    if q != p && InWindow(t.procs[q].pc) { assert Rows(t, t.procs[q].pc.did) == Rows(s, t.procs[q].pc.did); }
  }

  lemma ReceiptHidden(h: History, s: State, t: State, p: nat, d: string)
    requires p in s.procs && WindowTracked(h, s, p) && HiddenTracked(h, s, d) && RemovalLogged(s, t, p)
    ensures HiddenTracked(Remember(h, s, p, LogRemovalReceipt), t, d)
  {
    ReceiptMemory(h, s, p, d);
    SameLanders(s, t, p, RLoop(s.procs[p].pc.todo));
    assert Rows(t, d) == Rows(s, d);
    assert ClaimAt(t, d) == if d == s.procs[p].pc.did then ClaimAt(s, d).(written := false) else ClaimAt(s, d);
  }

  lemma ReceiptTracks(h: History, s: State, t: State, p: nat)
    requires Tracked(h, s) && RemovalLogged(s, t, p)
    ensures Tracked(Remember(h, s, p, LogRemovalReceipt), t)
  {
    forall q | q in t.procs ensures WindowTracked(Remember(h, s, p, LogRemovalReceipt), t, q) {
      assert q in s.procs && WindowTracked(h, s, q);
      ReceiptMemory(h, s, p, "");
      ReceiptWindow(h, Remember(h, s, p, LogRemovalReceipt), s, t, p, q);
    }
    forall d ensures HiddenTracked(Remember(h, s, p, LogRemovalReceipt), t, d) {
      assert HiddenTracked(h, s, d) && WindowTracked(h, s, p);
      ReceiptHidden(h, s, t, p, d);
    }
  }

  // ---- Every step --------------------------------------------------------

  lemma WriterTracks(h: History, s: State, t: State, p: nat, a: Act, at: string)
    requires Safe(s) && Tracked(h, s) && p in s.procs && WriterStep(s, p, a, at) == Some(t)
    ensures Tracked(Remember(h, s, p, a), t)
  {
    if a.Land? {
      LandTracks(h, s, t, p, a.i, at);
    } else if a.LogOutcome? {
      AppendEffect(s, t, s.procs[p].pc.did, s.procs[p].pc.outcome, at);
      assert Concluded(s, t, p);
      forall q | q in t.procs ensures WindowTracked(Remember(h, s, p, a), t, q) {
        assert q in s.procs && WindowTracked(h, s, q);
        OutcomeWindowTracked(h, s, t, p, q);
      }
      forall d ensures HiddenTracked(Remember(h, s, p, a), t, d) { OutcomeHiddenTracked(h, s, t, p, d); }
    } else {
      WriterCallIsQuiet(s, t, p, a, at);
      QuietTracks(h, s, t);
    }
  }

  lemma RemovalTracks(h: History, s: State, t: State, p: nat, a: Act, at: string)
    requires Tracked(h, s) && p in s.procs && RemovalStep(s, p, a, at) == Some(t)
    ensures Tracked(Remember(h, s, p, a), t)
  {
    if a.BeginRemove? {
      BeginTracks(h, s, t, p, at);
    } else if a.RemoveRow? {
      RemoveRowIs(s, t, p, a.key, at);
      RemoveRowTracks(h, s, t, p, a.key);
    } else if a.LogRemovalReceipt? {
      ReceiptIs(s, t, p, at);
      ReceiptTracks(h, s, t, p);
    } else {
      RemovalEndIsQuiet(s, t, p, a, at);
      QuietTracks(h, s, t);
    }
  }

  lemma StartOrCrashIsQuiet(s: State, t: State, p: nat, a: Act, at: string)
    requires (a.Start? || a.Crash?) && Step(s, p, a, at) == Some(t)
    ensures Quiet(s, t)
  {
    assert OnlyProc(s, t, p, t.procs[p].pc) && t.db == s.db;
    OnlyProcIsQuiet(s, t, p, t.procs[p].pc);
  }

  predicate Remembered(a: Act) { a.BeginRemove? || a.RemoveRow? || a.LogOutcome? || a.LogRemovalReceipt? }

  lemma StepTracks(h: History, s: State, t: State, p: nat, a: Act, at: string)
    requires Safe(s) && Tracked(h, s) && Admissible(a) && Step(s, p, a, at) == Some(t)
    ensures Tracked(Remember(h, s, p, a), t)
  {
    assert !Remembered(a) ==> Remember(h, s, p, a) == h;
    if a.Env? {
      EnvIsQuiet(s, t, a.tx, at);
      QuietTracks(h, s, t);
    } else if a.Start? || a.Crash? {
      StartOrCrashIsQuiet(s, t, p, a, at);
      QuietTracks(h, s, t);
    } else {
      CallTracks(h, s, t, p, a, at);
    }
  }

  lemma CallTracks(h: History, s: State, t: State, p: nat, a: Act, at: string)
    requires Safe(s) && Tracked(h, s) && Admissible(a) && Step(s, p, a, at) == Some(t)
    requires !a.Env? && !a.Start? && !a.Crash?
    ensures Tracked(Remember(h, s, p, a), t)
  {
    if a.Read? {
      ReadMoves(s, t, p);
      MovedIsQuiet(s, t, p);
      QuietTracks(h, s, t);
    } else if DispatchStep(s, p, a, at).Some? {
      DispatchIsQuiet(s, t, p, a, at);
      QuietTracks(h, s, t);
    } else if WriterStep(s, p, a, at).Some? {
      WriterTracks(h, s, t, p, a, at);
    } else if RetractStep(s, p, a, at).Some? {
      RetractIsQuiet(s, t, p, a, at);
      QuietTracks(h, s, t);
    } else {
      RemovalTracks(h, s, t, p, a, at);
    }
  }

  ghost predicate IsRun(init: State, moves: seq<Move>, s: State) {
    Init(init) && After(init, moves) == Some(s) && forall i :: 0 <= i < |moves| ==> Admissible(moves[i].act)
  }

  lemma {:induction false} RunsAreTracked(init: State, moves: seq<Move>, s: State)
    requires IsRun(init, moves, s)
    ensures Tracked(HistoryOf(init, moves), s)
  {
    if moves == [] {
      forall d ensures HiddenTracked(HistoryOf(init, moves), s, d) {
        assert Rows(s, d) == map[];
      }
    } else {
      var front, m := moves[..|moves| - 1], moves[|moves| - 1];
      var before := After(init, front).value;
      RunsAreSafe(init, front, before);
      RunsAreTracked(init, front, before);
      StepTracks(HistoryOf(init, front), before, s, m.p, m.act, m.at);
    }
  }

  // ---- Theorems ----------------------------------------------------------

  /** Whenever the log claims nothing, what the target holds of a delivery is exactly
      what the last removal receipt hid: rows landed behind the removal by attempts
      whose outcome was logged before the receipt, and not removed since. */
  lemma LogSoundnessIff(init: State, moves: seq<Move>, s: State, did: string)
    requires IsRun(init, moves, s) && !PossiblyWritten(EventLog(s, did))
    ensures Rows(s, did).Keys == Hidden(HistoryOf(init, moves), did)
    ensures Rows(s, did) == map[] <==> Hidden(HistoryOf(init, moves), did) == {}
  {
    RunsAreSafe(init, moves, s);
    RunsAreTracked(init, moves, s);
    TrackedRows(HistoryOf(init, moves), s, did);
    assert Rows(s, did) == map[] <==> Rows(s, did).Keys == {};
  }

  lemma TrackedRows(h: History, s: State, did: string)
    requires Safe(s) && Tracked(h, s) && !PossiblyWritten(EventLog(s, did))
    ensures Rows(s, did).Keys == Hidden(h, did)
  {
    assert HiddenTracked(h, s, did);
    forall key | key in Rows(s, did) ensures key in Hidden(h, did) {
      if Landing(s, did, key) { LandingIsOpen(s, did, key); }
    }
  }

  lemma ReceiptAccounts(h: History, s: State, t: State, p: nat)
    requires p in s.procs && WindowTracked(h, s, p) && RemovalLogged(s, t, p)
    ensures Accounted(t, s.procs[p].pc.did) <==> forall key :: key in Settled(h, p) ==> Landing(s, s.procs[p].pc.did, key)
    ensures s.procs[p].pc.clean ==> Settled(h, p) == {}
  {
    var did := s.procs[p].pc.did;
    SameLanders(s, t, p, RLoop(s.procs[p].pc.todo));
    assert Rows(t, did) == Rows(s, did) && ClaimAt(t, did) == ClaimAt(s, did).(written := false);
    if forall key :: key in Settled(h, p) ==> Landing(s, did, key) {
      forall key | key in Rows(t, did) ensures Landing(t, did, key) {
        assert key in Settled(h, p) || Landing(s, did, key);
      }
    }
    if Accounted(t, did) {
      forall key | key in Settled(h, p) ensures Landing(s, did, key) {
        assert key in Rows(t, did) && Landing(t, did, key);
      }
    }
  }

  lemma NothingOpenAfter(s: State, t: State, p: nat)
    requires Safe(s) && RemovalLogged(s, t, p) && ClaimAt(s, s.procs[p].pc.did).outstanding == {}
    ensures !PossiblyWritten(EventLog(t, s.procs[p].pc.did))
  {
    var did := s.procs[p].pc.did;
    assert DidOk(s, did) && ClaimAt(t, did) == ClaimAt(s, did).(written := false);
  }

  /** The exact condition of one receipt, in terms of the run before it: logging it is
      sound (every row left at the target is of an attempt still open) if and only if
      each row settled inside its window has been landed by an open attempt as well.
      A window with no write outcome in it settles nothing. */
  lemma ReceiptIsSoundIff(init: State, moves: seq<Move>, s: State, t: State, p: nat, at: string)
    requires IsRun(init, moves, s) && p in s.procs && s.procs[p].pc.RReceipt?
    requires Step(s, p, LogRemovalReceipt, at) == Some(t)
    ensures var did, settled := s.procs[p].pc.did, Settled(HistoryOf(init, moves), p);
      && (Accounted(t, did) <==> forall key :: key in settled ==> Landing(s, did, key))
      && (s.procs[p].pc.clean ==> settled == {})
      && (ClaimAt(s, did).outstanding == {} ==> !PossiblyWritten(EventLog(t, did)) && Rows(t, did).Keys == settled)
  {
    var h, did := HistoryOf(init, moves), s.procs[p].pc.did;
    RunsAreSafe(init, moves, s);
    RunsAreTracked(init, moves, s);
    assert WindowTracked(h, s, p);
    ReceiptStep(s, t, p, at);
    ReceiptAccounts(h, s, t, p);
    if ClaimAt(s, did).outstanding == {} {
      NothingOpenAfter(s, t, p);
      ReceiptTracks(h, s, t, p);
      ReceiptMemory(h, s, p, did);
      StepKeeps(s, t, p, LogRemovalReceipt, at);
      TrackedRows(Remember(h, s, p, LogRemovalReceipt), t, did);
    }
  }

  lemma ReceiptStep(s: State, t: State, p: nat, at: string)
    requires p in s.procs && s.procs[p].pc.RReceipt? && Step(s, p, LogRemovalReceipt, at) == Some(t)
    ensures RemovalLogged(s, t, p)
  {
    assert RemovalStep(s, p, LogRemovalReceipt, at) == Some(t);
    ReceiptIs(s, t, p, at);
  }

  /** Invalidation, exactly: when every call has returned and none crashed or failed to
      remove, the log claims nothing of a withdrawn record's delivery, and the target
      holds exactly what the last removal receipt hid. */
  lemma InvalidationConvergesIff(init: State, moves: seq<Move>, s: State, did: string)
    requires IsRun(init, moves, s) && AllReturned(s) && !s.disturbed && Withdrawn(s, did)
    ensures !PossiblyWritten(EventLog(s, did))
    ensures Rows(s, did).Keys == Hidden(HistoryOf(init, moves), did)
  {
    RunsAreSafe(init, moves, s);
    RunsAreCovered(init, moves, s);
    NothingLeftOpen(s, did);
    LogSoundnessIff(init, moves, s, did);
  }
}
