/**
 The names conversations get (stele/adapters/chatgpt.py, iter_chunks): an id the
 loop has seen before is followed by "#" and how often it has been seen. Whether
 that keeps names apart depends on the list of ids.
 */
module ConversationNames {
  import opened Refs

  /** How often id occurs in a list. */
  function Times(ids: seq<string>, id: string): nat {
    if ids == [] then 0 else Times(ids[..|ids| - 1], id) + if ids[|ids| - 1] == id then 1 else 0
  }

  function NumberedName(id: string, seen: nat): string { if seen > 1 then id + "#" + Decimal(seen) else id }

  /** The name given to conversation i of a list. */
  function NameAt(ids: seq<string>, i: nat): string
    requires i < |ids|
  {
    NumberedName(ids[i], Times(ids[..i + 1], ids[i]))
  }

  /** seen_ids: how often each id has occurred. */
  ghost predicate Counts(seenIds: map<string, nat>, ids: seq<string>) {
    forall id :: Times(ids, id) == if id in seenIds then seenIds[id] else 0
  }

  /** One turn of the naming loop. */
  method NameConversation(seenIds: map<string, nat>, id: string, ghost ids: seq<string>)
    returns (seenIds': map<string, nat>, name: string)
    requires Counts(seenIds, ids)
    ensures Counts(seenIds', ids + [id])
    ensures name == NameAt(ids + [id], |ids|)
  {
    var count := (if id in seenIds then seenIds[id] else 0) + 1;
    seenIds' := seenIds[id := count];
    name := id;
    if count > 1 {
      name := id + "#" + Decimal(count);
    }
    assert (ids + [id])[..|ids|] == ids && (ids + [id])[..|ids| + 1] == ids + [id];
  }

  // ---- When the names are distinct ---------------------------------------

  ghost predicate NamesDistinct(ids: seq<string>) {
    forall i, j :: 0 <= i < j < |ids| ==> NameAt(ids, i) != NameAt(ids, j)
  }

  /** x already looks like a later copy of y. */
  ghost predicate LooksNumbered(ids: seq<string>, x: string, y: string, n: nat) {
    x in ids && y in ids && 2 <= n <= Times(ids, y) && x == y + "#" + Decimal(n)
  }

  lemma {:induction false} TimesGrow(ids: seq<string>, id: string, i: nat, j: nat)
    requires i <= j <= |ids|
    ensures Times(ids[..i], id) <= Times(ids[..j], id)
    ensures i < j && ids[j - 1] == id ==> Times(ids[..i], id) < Times(ids[..j], id)
  {
    if i < j {
      assert ids[..j][..j - 1] == ids[..j - 1];
      TimesGrow(ids, id, i, j - 1);
    }
  }

  /** Each count up to the total is reached where the id occurs. */
  lemma {:induction false} CountReached(ids: seq<string>, id: string, n: nat) returns (j: nat)
    requires 1 <= n <= Times(ids, id)
    ensures j < |ids| && ids[j] == id && Times(ids[..j + 1], id) == n
  {
    var front := ids[..|ids| - 1];
    if n <= Times(front, id) {
      j := CountReached(front, id, n);
      assert front[..j + 1] == ids[..j + 1];
    } else {
      j := |ids| - 1;
      assert ids[..j + 1] == ids;
    }
  }

  lemma {:induction false} DecimalHasNoHash(n: nat)
    ensures '#' !in Decimal(n)
  {
    if n >= 10 { DecimalHasNoHash(n / 10); }
  }

  /** The last '#' of a numbered name is the one that was added. */
  lemma NumberedNamesDiffer(x: string, m: nat, y: string, n: nat)
    requires x + "#" + Decimal(m) == y + "#" + Decimal(n)
    ensures x == y && m == n
  {
    DecimalHasNoHash(m);
    DecimalHasNoHash(n);
    if |x| < |y| {
      LaterHash(x, Decimal(m), y, Decimal(n));
    } else if |y| < |x| {
      LaterHash(y, Decimal(n), x, Decimal(m));
    } else {
      var s := x + "#" + Decimal(m);
      assert x == s[..|x|] == y && Decimal(m) == s[|x| + 1..] == Decimal(n);
      DecimalInverts(m);
      DecimalInverts(n);
    }
  }

  lemma LaterHash(x: string, d: string, y: string, e: string)
    requires x + "#" + d == y + "#" + e && |x| < |y|
    ensures '#' in d
  {
    var s := x + "#" + d;
    assert s[|y|] == '#' && s[|y|] == d[|y| - |x| - 1];
  }

  lemma SameNameIsNumbered(ids: seq<string>, i: nat, j: nat)
    requires i < j < |ids| && NameAt(ids, i) == NameAt(ids, j)
    ensures exists x, y, n :: LooksNumbered(ids, x, y, n)
  {
    var m, n := Times(ids[..i + 1], ids[i]), Times(ids[..j + 1], ids[j]);
    TimesGrow(ids, ids[i], 0, i + 1);
    TimesGrow(ids, ids[j], i + 1, j + 1);
    TimesGrow(ids, ids[i], i + 1, |ids|);
    TimesGrow(ids, ids[j], j + 1, |ids|);
    assert ids[..|ids|] == ids;
    if m > 1 && n > 1 {
      NumberedNamesDiffer(ids[i], m, ids[j], n);
    } else if m > 1 {
      assert LooksNumbered(ids, ids[j], ids[i], m);
    } else if n > 1 {
      assert LooksNumbered(ids, ids[i], ids[j], n);
    }
  }

  lemma NumberedIsTaken(ids: seq<string>, x: string, y: string, n: nat)
    requires LooksNumbered(ids, x, y, n)
    ensures !NamesDistinct(ids)
  {
    var j := CountReached(ids, y, n);
    var k :| 0 <= k < |ids| && ids[k] == x;
    TimesGrow(ids, x, 0, k + 1);
    TimesGrow(ids, x, k + 1, |ids|);
    assert ids[..|ids|] == ids;
    var i := CountReached(ids, x, 1);
    assert NameAt(ids, i) == x == NameAt(ids, j) && i != j;
  }

  /** The numbering keeps every conversation's name its own exactly when no id in the
      list already is another listed id followed by "#" and a number from 2 to the
      count of that other id. */
  lemma NamesDistinctIff(ids: seq<string>)
    ensures NamesDistinct(ids) <==> !exists x, y, n :: LooksNumbered(ids, x, y, n)
  {
    if exists x, y, n :: LooksNumbered(ids, x, y, n) {
      var x, y, n :| LooksNumbered(ids, x, y, n);
      NumberedIsTaken(ids, x, y, n);
    } else {
      forall i, j | 0 <= i < j < |ids| ensures NameAt(ids, i) != NameAt(ids, j) {
        if NameAt(ids, i) == NameAt(ids, j) { SameNameIsNumbered(ids, i, j); }
      }
    }
  }

  /** The naming of a whole list of ids. */
  method NameAll(ids: seq<string>) returns (names: seq<string>)
    ensures |names| == |ids| && forall i :: 0 <= i < |ids| ==> names[i] == NameAt(ids, i)
  {
    var seenIds: map<string, nat> := map[];
    names := [];
    for i := 0 to |ids|
      invariant |names| == i && Counts(seenIds, ids[..i])
      invariant forall k :: 0 <= k < i ==> names[k] == NameAt(ids, k)
    {
      assert ids[..i] + [ids[i]] == ids[..i + 1] == ids[..i + 1][..i + 1];
      var name: string;
      seenIds, name := NameConversation(seenIds, ids[i], ids[..i]);
      names := names + [name];
    }
  }

  /** The input that shows it: run on "a#2", "a", "a", the loop names the first and the
      third conversation alike. */
  method NamesCanCollide() returns (names: seq<string>)
    ensures names == ["a#2", "a", "a#2"]
  {
    var ids := ["a#2", "a", "a"];
    names := NameAll(ids);
    var one, two := ["a#2"], ["a#2", "a"];
    assert ids[..1] == one && ids[..2] == two && ids[..3] == ids && two[..1] == one && one[..0] == [];
    assert Times(one, "a#2") == 1 && Times(one, "a") == 0;
    assert Times(two, "a") == 1 && Times(ids, "a") == 2 && Decimal(2) == "2";
    assert NameAt(ids, 0) == "a#2" && NameAt(ids, 1) == "a";
    assert NameAt(ids, 2) == "a" + "#" + "2" == "a#2";
    assert names == [names[0], names[1], names[2]];
  }
}
