/**
 The hash-chained event table (stele/ledger/events.py): appending, verifying,
 and what a published anchor proves.
 */
module EventChain {
  import opened Digests
  import opened Wrappers

  datatype ChainEvent = ChainEvent(
    seqNo: int, kind: Kind, subject: string, body: Body, at: string, prev: Digest, hash: Digest)

  function EventHash(e: ChainEvent): Digest {
    Sha(EventContent(e.seqNo, e.kind, e.subject, e.body, e.at, e.prev))
  }

  /** append_event: the next sequence number, linked to the current head. */
  function Appended(chain: seq<ChainEvent>, kind: Kind, subject: string, body: Json, at: string): seq<ChainEvent> {
    var last := |chain| - 1;
    var seqNo := if chain == [] then 1 else chain[last].seqNo + 1;
    var prev := if chain == [] then Genesis else chain[last].hash;
    var e := ChainEvent(seqNo, kind, subject, Parsed(body), at, prev, Genesis);
    chain + [e.(hash := EventHash(e))]
  }

  // ---- What an intact chain is -------------------------------------------

  /** Event i is number i + 1, follows its predecessor, and carries its own hash. */
  ghost predicate Linked(rows: seq<ChainEvent>, i: int)
    requires 0 <= i < |rows|
  {
    && rows[i].seqNo == i + 1
    && rows[i].prev == (if i == 0 then Genesis else rows[i - 1].hash)
    && rows[i].hash == EventHash(rows[i])
  }

  ghost predicate Intact(rows: seq<ChainEvent>) {
    forall i :: 0 <= i < |rows| ==> Linked(rows, i)
  }

  type Anchor = (int, Digest)

  /** The chain contains the anchored event: it has that number and that hash. */
  ghost predicate Contains(rows: seq<ChainEvent>, anchor: Anchor) {
    1 <= anchor.0 <= |rows| && rows[anchor.0 - 1].hash == anchor.1
  }

  /** The tables verify accepts. An anchor before event 1 names no event, and on a
      non-empty chain the loop never meets it and the final test does not miss it. */
  ghost predicate Accepted(rows: seq<ChainEvent>, anchor: Option<Anchor>) {
    && Intact(rows)
    && match anchor
       case None => true
       case Some(a) => if a.0 < 1 then rows != [] else Contains(rows, a)
  }

  datatype Problem =
    | Missing(expected: int, next: int)
    | DoesNotFollow(at: int)
    | Altered(at: int)
    | NotAnchored(at: int)
    | Truncated(anchor: int)

  datatype Report = Report(length: int, head: Option<(int, Digest)>, problems: seq<Problem>)

  /** EventLog.verify over the rows in sequence order. */
  method Verify(rows: seq<ChainEvent>, anchor: Option<Anchor>) returns (report: Report)
    ensures report.problems == [] <==> Accepted(rows, anchor)
    ensures report.problems == [] ==> report.length == |rows|
    ensures report.head == if rows == [] then None else Some((rows[|rows| - 1].seqNo, rows[|rows| - 1].hash))
  {
    var problems: seq<Problem> := [];
    var prev, expected := Genesis, 1;
    var head: Option<(int, Digest)> := None;
    var anchorSeen := anchor.None?;
    for i := 0 to |rows|
      invariant prev == if i == 0 then Genesis else rows[i - 1].hash
      invariant head == if i == 0 then None else Some((rows[i - 1].seqNo, rows[i - 1].hash))
      invariant problems == [] ==> expected == i + 1
      invariant problems == [] ==> Intact(rows[..i])
      invariant problems == [] && anchor.Some? ==>
        anchorSeen == (1 <= anchor.value.0 <= i && rows[anchor.value.0 - 1].hash == anchor.value.1)
      invariant problems == [] && anchor.Some? && 1 <= anchor.value.0 <= i ==> anchorSeen
      invariant anchor.None? ==> anchorSeen
      invariant problems != [] ==>
        !Intact(rows) || (anchor.Some? && anchor.value.0 >= 1 && !Contains(rows, anchor.value))
    {
      var row := rows[i];
      ghost var before := problems;
      if row.seqNo != expected {
        assert before == [] ==> !Linked(rows, i);
        problems := problems + [Missing(expected, row.seqNo)];
        expected := row.seqNo;
      }
      if row.prev != prev {
        assert !Linked(rows, i);
        problems := problems + [DoesNotFollow(row.seqNo)];
      }
      if EventHash(row) != row.hash {
        assert !Linked(rows, i);
        problems := problems + [Altered(row.seqNo)];
      }
      if anchor.Some? && row.seqNo == anchor.value.0 {
        anchorSeen := row.hash == anchor.value.1;
        if !anchorSeen {
          assert Intact(rows) ==> Linked(rows, i);
          problems := problems + [NotAnchored(row.seqNo)];
        }
      }
      if problems == [] {
        ghost var checked := rows[..i + 1];
        forall k | 0 <= k < |checked| ensures Linked(checked, k) {
          if k < i { assert Linked(rows[..i], k); }
        }
      }
      prev, head, expected := row.hash, Some((row.seqNo, row.hash)), expected + 1;
    }
    assert rows[..|rows|] == rows;
    if anchor.Some? && !anchorSeen && (head.None? || head.value.0 < anchor.value.0) {
      if Intact(rows) && rows != [] { assert Linked(rows, |rows| - 1); }
      problems := problems + [Truncated(anchor.value.0)];
    }
    if problems == [] && rows != [] { assert Linked(rows, |rows| - 1); }
    report := Report(if head.Some? then head.value.0 else 0, head, problems);
  }

  /** On one table the verdict is containment except for a non-empty intact chain and
      an anchor before event 1, which is accepted whatever its hash. */
  lemma AcceptedIsContainedIff(rows: seq<ChainEvent>, anchor: Anchor)
    ensures (Accepted(rows, Some(anchor)) <==> Intact(rows) && Contains(rows, anchor))
       <==> anchor.0 >= 1 || rows == [] || !Intact(rows)
  {
  }

  /** The documented promise: the tables accepted with this anchor are the intact
      chains that contain it. */
  ghost predicate AnchorIsRequired(anchor: Anchor) {
    forall rows: seq<ChainEvent> :: Accepted(rows, Some(anchor)) <==> Intact(rows) && Contains(rows, anchor)
  }

  /** It is kept exactly for the anchors that number an event. */
  lemma AnchorIsRequiredIff(anchor: Anchor)
    ensures AnchorIsRequired(anchor) <==> anchor.0 >= 1
  {
    if anchor.0 < 1 {
      var rows := EarlyAnchorIsIgnored(anchor);
    }
    forall rows: seq<ChainEvent> | anchor.0 >= 1
      ensures Accepted(rows, Some(anchor)) <==> Intact(rows) && Contains(rows, anchor)
    {
      AcceptedIsContainedIff(rows, anchor);
    }
  }

  /** The input that shows it: a ledger with one event, and any anchor numbered 0 or less. */
  lemma EarlyAnchorIsIgnored(anchor: Anchor) returns (rows: seq<ChainEvent>)
    requires anchor.0 < 1
    ensures |rows| == 1 && Intact(rows) && Accepted(rows, Some(anchor)) && !Contains(rows, anchor)
  {
    rows := Appended([], RecordCreated, "r", JObj(map[]), "now");
    AppendKeepsIntact([], RecordCreated, "r", JObj(map[]), "now");
  }

  lemma AppendKeepsIntact(chain: seq<ChainEvent>, kind: Kind, subject: string, body: Json, at: string)
    requires Intact(chain)
    ensures Intact(Appended(chain, kind, subject, body, at))
  {
    var more := Appended(chain, kind, subject, body, at);
    if chain != [] { assert Linked(chain, |chain| - 1); }
    forall i | 0 <= i < |more| ensures Linked(more, i) {
      if i < |chain| { assert Linked(chain, i); }
    }
  }

  /** Anchored tamper evidence: two tables that verify against one anchor agree on
      every field of every event up to it. */
  lemma {:induction false} AnchorFixesHistory(a: seq<ChainEvent>, b: seq<ChainEvent>, n: nat, h: Digest)
    requires Intact(a) && Intact(b) && Contains(a, (n, h)) && Contains(b, (n, h))
    ensures a[..n] == b[..n]
  {
    assert Linked(a, n - 1) && Linked(b, n - 1);
    if n > 1 {
      AnchorFixesHistory(a, b, n - 1, a[n - 2].hash);
      assert a[..n] == a[..n - 1] + [a[n - 1]];
      assert b[..n] == b[..n - 1] + [b[n - 1]];
    }
  }

  /** So a table that differs anywhere at or before the anchor of an intact chain
      (altered, deleted, reordered, truncated or rewritten) does not verify. */
  lemma TamperingIsReported(genuine: seq<ChainEvent>, table: seq<ChainEvent>, n: nat)
    requires Intact(genuine) && 1 <= n <= |genuine|
    requires |table| < n || table[..n] != genuine[..n]
    ensures !(Intact(table) && Contains(table, (n, genuine[n - 1].hash)))
  {
    if Intact(table) && Contains(table, (n, genuine[n - 1].hash)) {
      AnchorFixesHistory(genuine, table, n, genuine[n - 1].hash);
    }
  }

  /** The anchor one would publish for event i + 1. */
  function AnchorAt(chain: seq<ChainEvent>, i: nat): Anchor
    requires i < |chain|
  {
    (i + 1, chain[i].hash)
  }

  /** Event e again, as the next event of another chain. */
  function Relinked(chain: seq<ChainEvent>, e: ChainEvent): ChainEvent {
    var prev := if chain == [] then Genesis else chain[|chain| - 1].hash;
    var moved := e.(seqNo := |chain| + 1, prev := prev);
    moved.(hash := EventHash(moved))
  }

  /** A chain rebuilt from its start: the given events one after the other. */
  function Rebuilt(chain: seq<ChainEvent>, rest: seq<ChainEvent>): seq<ChainEvent>
    decreases |rest|
  {
    if rest == [] then chain else Rebuilt(chain + [Relinked(chain, rest[0])], rest[1..])
  }

  lemma {:induction false} RebuiltIsIntact(chain: seq<ChainEvent>, rest: seq<ChainEvent>)
    requires Intact(chain)
    ensures Intact(Rebuilt(chain, rest)) && |Rebuilt(chain, rest)| == |chain| + |rest| && chain <= Rebuilt(chain, rest)
    ensures forall i :: 0 <= i < |rest| ==> Rebuilt(chain, rest)[|chain| + i].body == rest[i].body
    decreases |rest|
  {
    if rest != [] {
      var next := chain + [Relinked(chain, rest[0])];
      forall i | 0 <= i < |next| ensures Linked(next, i) {
        if i < |chain| { assert Linked(chain, i); }
      }
      RebuiltIsIntact(next, rest[1..]);
      forall i | 0 <= i < |rest| ensures Rebuilt(chain, rest)[|chain| + i].body == rest[i].body {
        if i > 0 { assert rest[1..][i - 1] == rest[i]; }
      }
    }
  }

  /** Without an anchor a consistent rewrite is invisible: from any event of any intact
      chain on, the body can be replaced and the rest rebuilt so that the result
      verifies, and every anchor from there on, and no earlier one, tells them apart. */
  lemma RewriteNeedsAnchor(chain: seq<ChainEvent>, k: nat, body: Body) returns (other: seq<ChainEvent>)
    requires Intact(chain) && k < |chain| && body != chain[k].body
    ensures Accepted(other, None) && |other| == |chain| && other[..k] == chain[..k] && other[k].body == body
    ensures forall i :: k < i < |chain| ==> other[i].body == chain[i].body
    ensures forall i :: 0 <= i < |chain| ==> (Accepted(other, Some(AnchorAt(chain, i))) <==> i < k)
  {
    var rest := [chain[k].(body := body)] + chain[k + 1..];
    forall i | 0 <= i < |chain[..k]| ensures Linked(chain[..k], i) { assert Linked(chain, i); }
    RebuiltIsIntact(chain[..k], rest);
    other := Rebuilt(chain[..k], rest);
    forall i | k <= i < |chain| ensures other[i].body == if i == k then body else chain[i].body {
      assert other[|chain[..k]| + (i - k)].body == rest[i - k].body;
    }
    forall i | 0 <= i < |chain| ensures Accepted(other, Some(AnchorAt(chain, i))) <==> i < k {
      if i < k {
        assert other[i] == other[..k][i] == chain[..k][i];
      } else {
        RewriteIsSeen(chain, other, k, i);
      }
    }
  }

  lemma RewriteIsSeen(chain: seq<ChainEvent>, other: seq<ChainEvent>, k: nat, i: nat)
    requires Intact(chain) && Intact(other) && k <= i < |chain| == |other| && other[k].body != chain[k].body
    ensures other[i].hash != chain[i].hash
  {
    if other[i].hash == chain[i].hash {
      AnchorFixesHistory(chain, other, i + 1, chain[i].hash);
    }
  }
}
