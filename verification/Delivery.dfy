/**
 What a delivery's event log claims its target may hold
 (stele/ledger/delivery.py, Delivery.possibly_written).
 */
module Delivery {
  import opened Digests
  import opened Wrappers

  datatype EventKind = Intent | Receipt | Failure | RemovalIntent | RemovalReceipt | RemovalFailure

  datatype DeliveryEvent = DeliveryEvent(
    kind: EventKind, planned: Option<int>, digest: Option<Text>, done: Option<int>,
    error: Option<string>, attempt: Option<string>)
  {
    predicate Outcome() { kind == Receipt || kind == Failure }

    /** A receipt, or a failure that does not report zero chunks. */
    predicate MayHaveWritten() { kind == Receipt || (kind == Failure && done != Some(0)) }
  }

  datatype Status = NotAttempted | InFlight | Delivered | Failed | Removing | Removed | RemovalFailed

  function StatusOf(events: seq<DeliveryEvent>): Status {
    if events == [] then NotAttempted
    else match events[|events| - 1].kind
      case Intent => InFlight
      case Receipt => Delivered
      case Failure => Failed
      case RemovalIntent => Removing
      case RemovalReceipt => Removed
      case RemovalFailure => RemovalFailed
  }

  /** The loop variables of possibly_written. */
  datatype Claim = Claim(written: bool, outstanding: set<string>, legacyInFlight: bool) {
    predicate Holds() { written || legacyInFlight || outstanding != {} }

    function Add(e: DeliveryEvent): Claim {
      match e.kind
      case Intent =>
        if e.attempt.None? then Claim(written || legacyInFlight, outstanding, true)
        else Claim(written, outstanding + {e.attempt.value}, legacyInFlight)
      case Receipt => Conclude(true, e.attempt)
      case Failure => Conclude(e.done != Some(0), e.attempt)
      case RemovalReceipt => Claim(false, outstanding, legacyInFlight)
      case RemovalIntent => this
      case RemovalFailure => this
    }

    function Conclude(wrote: bool, attempt: Option<string>): Claim {
      if attempt.None? then Claim(written || wrote, outstanding, false)
      else Claim(written || wrote, outstanding - {attempt.value}, legacyInFlight)
    }
  }

  /** The claim after a whole log. */
  function ClaimOf(events: seq<DeliveryEvent>): Claim {
    if events == [] then Claim(false, {}, false)
    else ClaimOf(events[..|events| - 1]).Add(events[|events| - 1])
  }

  lemma ClaimAppend(events: seq<DeliveryEvent>, e: DeliveryEvent)
    ensures ClaimOf(events + [e]) == ClaimOf(events).Add(e)
  {
    assert (events + [e])[..|events|] == events;
  }

  predicate PossiblyWritten(events: seq<DeliveryEvent>) { ClaimOf(events).Holds() }

  method PossiblyWrittenLoop(events: seq<DeliveryEvent>) returns (held: bool)
    ensures held == PossiblyWritten(events)
  {
    var written := false;
    var outstanding: set<string> := {};
    var legacyInFlight := false;
    for i := 0 to |events|
      invariant Claim(written, outstanding, legacyInFlight) == ClaimOf(events[..i])
    {
      var e := events[i];
      assert events[..i + 1] == events[..i] + [e];
      ClaimAppend(events[..i], e);
      if e.kind == Intent {
        if e.attempt.None? {
          written := written || legacyInFlight;
          legacyInFlight := true;
        } else {
          outstanding := outstanding + {e.attempt.value};
        }
      } else if e.kind == Receipt || e.kind == Failure {
        if e.kind == Receipt || e.done != Some(0) {
          written := true;
        }
        if e.attempt.None? {
          legacyInFlight := false;
        } else {
          outstanding := outstanding - {e.attempt.value};
        }
      } else if e.kind == RemovalReceipt {
        written := false;
      }
    }
    assert events[..|events|] == events;
    held := written || legacyInFlight || outstanding != {};
  }

  // ---- What the claim means, without a fold ------------------------------

  /** Intent i has no later outcome of its own attempt before position n
      (events without an attempt id are one attempt at a time). */
  ghost predicate Open(es: seq<DeliveryEvent>, i: int, n: int) {
    && 0 <= i < n <= |es| && es[i].kind == Intent
    && forall j {:trigger es[j]} :: i < j < n ==> !(es[j].Outcome() && es[j].attempt == es[i].attempt)
  }

  /** Position i is where data may have landed for good: a receipt, a partial or
      unknown failure, or a legacy intent that superseded an open legacy one. */
  ghost predicate WroteAt(es: seq<DeliveryEvent>, i: int) {
    && 0 <= i < |es|
    && (es[i].MayHaveWritten()
        || (es[i].kind == Intent && es[i].attempt.None?
            && exists k :: Open(es, k, i) && es[k].attempt.None?))
  }

  ghost predicate WrittenSinceRemoval(es: seq<DeliveryEvent>, n: int) {
    exists i :: WroteAt(es, i) && i < n <= |es| && forall j :: i < j < n ==> es[j].kind != RemovalReceipt
  }

  /** possibly_written, declaratively: something was written after the last
      removal receipt, or some intent never got an outcome of its own. */
  lemma {:induction false} ClaimMeaning(es: seq<DeliveryEvent>, n: nat)
    requires n <= |es|
    ensures ClaimOf(es[..n]).written <==> WrittenSinceRemoval(es, n)
    ensures ClaimOf(es[..n]).legacyInFlight <==> exists i :: Open(es, i, n) && es[i].attempt.None?
    ensures forall a :: a in ClaimOf(es[..n]).outstanding <==> exists i :: Open(es, i, n) && es[i].attempt == Some(a)
  {
    if n > 0 {
      var m := n - 1;
      var e := es[m];
      ClaimMeaning(es, m);
      assert es[..n] == es[..m] + [e];
      ClaimAppend(es[..m], e);
      OpenStep(es, m);
      WrittenStep(es, m);
    }
  }

  lemma OpenStep(es: seq<DeliveryEvent>, m: nat)
    requires m < |es|
    ensures forall i :: Open(es, i, m + 1) <==>
      (i == m && es[m].kind == Intent)
      || (Open(es, i, m) && !(es[m].Outcome() && es[m].attempt == es[i].attempt))
  {
  }

  lemma WrittenStep(es: seq<DeliveryEvent>, m: nat)
    requires m < |es|
    ensures WrittenSinceRemoval(es, m + 1) <==>
      WroteAt(es, m) || (WrittenSinceRemoval(es, m) && es[m].kind != RemovalReceipt)
  {
    if WrittenSinceRemoval(es, m) && es[m].kind != RemovalReceipt {
      var i :| WroteAt(es, i) && i < m && forall j :: i < j < m ==> es[j].kind != RemovalReceipt;
      assert WroteAt(es, i) && forall j :: i < j < m + 1 ==> es[j].kind != RemovalReceipt;
    }
    if WrittenSinceRemoval(es, m + 1) && !WroteAt(es, m) {
      var i :| WroteAt(es, i) && i < m + 1 && forall j :: i < j < m + 1 ==> es[j].kind != RemovalReceipt;
      assert WroteAt(es, i) && i < m && forall j :: i < j < m ==> es[j].kind != RemovalReceipt;
    }
    if WroteAt(es, m) {
      assert WroteAt(es, m) && m < m + 1;
    }
  }

  lemma PossiblyWrittenMeaning(es: seq<DeliveryEvent>)
    ensures PossiblyWritten(es) <==> WrittenSinceRemoval(es, |es|) || exists i :: Open(es, i, |es|)
  {
    ClaimMeaning(es, |es|);
    assert es[..|es|] == es;
    var c := ClaimOf(es);
    if exists i :: Open(es, i, |es|) {
      var i :| Open(es, i, |es|);
      if es[i].attempt.Some? { assert es[i].attempt.value in c.outstanding; }
    }
    if c.outstanding != {} {
      var a :| a in c.outstanding;
    }
  }

  // ---- Events from before attempt ids ------------------------------------

  function Untagged(es: seq<DeliveryEvent>): (us: seq<DeliveryEvent>)
    ensures |us| == |es|
  {
    seq(|es|, i requires 0 <= i < |es| => es[i].(attempt := None))
  }

  /** The attempt of the latest intent. */
  function Current(es: seq<DeliveryEvent>): Option<string> {
    if es == [] then None
    else if es[|es| - 1].kind == Intent then es[|es| - 1].attempt
    else Current(es[..|es| - 1])
  }

  /** One attempt at a time: fresh attempt ids, and an outcome belongs to the latest
      intent or, reporting that nothing was written, to an attempt without one. */
  ghost predicate Sequential(es: seq<DeliveryEvent>) {
    forall i :: 0 <= i < |es| ==> InTurn(es, i)
  }

  ghost predicate InTurn(es: seq<DeliveryEvent>, i: int)
    requires 0 <= i < |es|
  {
    && (es[i].kind == Intent ==> es[i].attempt.Some? && forall j :: 0 <= j < i ==> es[j].attempt != es[i].attempt)
    && (es[i].Outcome() ==> es[i].attempt.Some? && (es[i].attempt == Current(es[..i]) || WroteNothingAlone(es, i)))
  }

  ghost predicate WroteNothingAlone(es: seq<DeliveryEvent>, i: int)
    requires 0 <= i < |es|
  {
    !es[i].MayHaveWritten() && forall j :: 0 <= j < i ==> es[j].attempt != es[i].attempt
  }

  ghost predicate Stuck(c: Claim, current: Option<string>) { exists a :: a in c.outstanding && Some(a) != current }

  lemma {:induction false} LegacyTracksTagged(es: seq<DeliveryEvent>)
    requires Sequential(es)
    ensures var t, l := ClaimOf(es), ClaimOf(Untagged(es));
      && l.outstanding == {} && !t.legacyInFlight
      && (l.written ==> t.written || Stuck(t, Current(es)))
      && (l.legacyInFlight ==> Current(es).Some? && Current(es).value in t.outstanding)
    ensures forall a :: a in ClaimOf(es).outstanding ==> exists j :: 0 <= j < |es| && es[j].attempt == Some(a)
  {
    if es != [] {
      var n := |es| - 1;
      var front, e := es[..n], es[n];
      forall i | 0 <= i < n ensures InTurn(front, i) {
        assert InTurn(es, i) && front[..i] == es[..i];
      }
      LegacyTracksTagged(front);
      assert InTurn(es, n);
      assert Untagged(es) == Untagged(front) + [e.(attempt := None)] && es == front + [e];
      ClaimAppend(front, e);
      ClaimAppend(Untagged(front), e.(attempt := None));
      var t := ClaimOf(front);
      if Stuck(t, Current(front)) {
        var a :| a in t.outstanding && Some(a) != Current(front);
        assert exists j :: 0 <= j < n && front[j].attempt == Some(a);
        assert a in ClaimOf(es).outstanding && Some(a) != Current(es);
      }
    }
  }

  /** On a log written one attempt at a time, reading it without attempt ids never
      claims more than reading it with them. */
  lemma LegacyReadingIsImplied(es: seq<DeliveryEvent>)
    requires Sequential(es)
    ensures PossiblyWritten(Untagged(es)) ==> PossiblyWritten(es)
  {
    LegacyTracksTagged(es);
  }
}
