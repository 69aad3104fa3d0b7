/**
 The extraction contract (stele/extraction/contract.py) and the sealed bundle an
 extraction is derived from. JSON text is abstracted: `Host` says how bytes
 parse and how a message renders.
 */
module Extraction {
  import opened Refs
  import opened Utf8
  import opened Wrappers

  /** A parsed JSON value; an object keeps its keys in document order. */
  datatype Json =
    | JNull
    | JBool(b: bool)
    | JNumber(text: string)
    | JString(s: string)
    | JArray(items: seq<Json>)
    | JObject(keys: seq<string>, members: map<string, Json>)

  function Member(doc: Json, key: string): Json {
    if doc.JObject? && key in doc.members then doc.members[key] else JNull
  }

  datatype Ident = Ident(name: string, version: string)

  /** A sealed record's artifacts. The archive serves a digest's verified bytes, or
      nothing when the blob is missing or corrupt. */
  datatype Bundle = Bundle(recordId: string, artifactHash: string, sourceHash: Option<string>, parser: Option<Ident>,
                           manifest: map<string, string>, archive: map<string, seq<Byte>>)

  datatype IndexEntry = IndexEntry(path: string, index: nat)

  /** json.loads, the trusted message renderer, the lines of index.jsonl, and the
      id a conversation is given. */
  datatype Host = Host(parse: seq<Byte> -> Option<Json>, render: Json -> string,
                       index: seq<Byte> -> Option<seq<IndexEntry>>, conversationId: (Json, nat) -> string)

  datatype Kind = Heading | Paragraph | List | Table | Code | Formula | Figure | Message

  datatype Unit = Unit(id: string, kind: Kind, text: string, order: nat, level: Option<nat>, parent: Option<string>, anchor: Anchor)

  datatype Extraction = Extraction(recordId: string, artifactHash: string, sourceHash: Option<string>, parser: Ident,
                                   normalizer: Ident, units: seq<Unit>)

  // ---- What the constructors check ---------------------------------------

  predicate ValidUnit(u: Unit) { u.id != "" && u.text != "" && ValidAnchor(u.anchor) }

  ghost predicate EarlierUnit(units: seq<Unit>, i: nat, id: string)
    requires i < |units|
  {
    exists j :: 0 <= j < i && units[j].id == id
  }

  ghost predicate ValidExtraction(e: Extraction) {
    && e.recordId != "" && IsDigest(e.artifactHash) && (e.sourceHash.Some? ==> IsDigest(e.sourceHash.value))
    && (forall i :: 0 <= i < |e.units| ==> ValidUnit(e.units[i]) && e.units[i].order == i)
    && (forall i, j :: 0 <= i < j < |e.units| ==> e.units[i].id != e.units[j].id)
    && (forall i :: 0 <= i < |e.units| && e.units[i].parent.Some? ==> EarlierUnit(e.units, i, e.units[i].parent.value))
  }

  /** Units form a forest: following parents ends. */
  lemma {:induction false} ParentsAreEarlier(e: Extraction, i: nat, j: nat)
    requires ValidExtraction(e) && i < |e.units| && j < |e.units| && e.units[i].parent == Some(e.units[j].id)
    ensures j < i
  {
    var k :| 0 <= k < i && e.units[k].id == e.units[i].parent.value;
    assert j == k;
  }

  /** Extraction.__post_init__'s checks on the unit list, as its loop makes them. */
  method CheckUnits(units: seq<Unit>) returns (ok: bool)
    ensures ok <==>
      && (forall i :: 0 <= i < |units| ==> units[i].order == i)
      && (forall i, j :: 0 <= i < j < |units| ==> units[i].id != units[j].id)
      && (forall i :: 0 <= i < |units| && units[i].parent.Some? ==> EarlierUnit(units, i, units[i].parent.value))
  {
    var orderOf: map<string, nat> := map[];
    for i := 0 to |units|
      invariant forall j :: 0 <= j < i ==> units[j].order == j && units[j].id in orderOf && orderOf[units[j].id] == j
      invariant forall id :: id in orderOf ==> orderOf[id] < i && units[orderOf[id]].id == id
      invariant forall j, k :: 0 <= j < k < i ==> units[j].id != units[k].id
    {
      if units[i].id in orderOf || units[i].order != i {
        assert units[i].id in orderOf ==> units[orderOf[units[i].id]].id == units[i].id;
        return false;
      }
      orderOf := orderOf[units[i].id := i];
    }
    for i := 0 to |units|
      invariant forall j :: 0 <= j < i && units[j].parent.Some? ==> EarlierUnit(units, j, units[j].parent.value)
    {
      var unit := units[i];
      if unit.parent.Some? && !(unit.parent.value in orderOf && orderOf[unit.parent.value] < i) {
        return false;
      }
      if unit.parent.Some? { assert units[orderOf[unit.parent.value]].id == unit.parent.value; }
    }
    return true;
  }

  // ---- Unit ids ----------------------------------------------------------

  function Padded(s: string, width: nat): (t: string)
    ensures |t| >= |s|
    decreases width - |s|
  {
    if |s| >= width then s else Padded("0" + s, width)
  }

  /** f"u{order + 1:06d}". */
  function UnitId(order: nat): string { "u" + Padded(Decimal(order + 1), 6) }

  lemma {:induction false} LeadingZero(s: string)
    requires AllDigits(s)
    ensures AllDigits("0" + s) && IntOf("0" + s) == IntOf(s)
  {
    var t := "0" + s;
    if s == "" {
      assert t[..0] == "" && IntOf(t[..0]) == 0;
    } else {
      assert t[..|t| - 1] == "0" + s[..|s| - 1] && t[|t| - 1] == s[|s| - 1];
      LeadingZero(s[..|s| - 1]);
    }
  }

  lemma {:induction false} PaddedValue(s: string, width: nat)
    requires AllDigits(s)
    ensures AllDigits(Padded(s, width)) && IntOf(Padded(s, width)) == IntOf(s)
    decreases width - |s|
  {
    if |s| < width {
      LeadingZero(s);
      PaddedValue("0" + s, width);
    }
  }

  lemma UnitIdValue(i: nat)
    ensures var digits := UnitId(i)[1..]; AllDigits(digits) && IntOf(digits) == i + 1
  {
    DecimalInverts(i + 1);
    PaddedValue(Decimal(i + 1), 6);
    assert UnitId(i)[1..] == Padded(Decimal(i + 1), 6);
  }

  lemma UnitIdsDiffer(i: nat, j: nat)
    requires UnitId(i) == UnitId(j)
    ensures i == j
  {
    UnitIdValue(i);
    UnitIdValue(j);
  }
}
