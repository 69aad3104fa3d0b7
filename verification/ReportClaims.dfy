/**
 One record, one run (stele/verification/report.py, _RecordChecker.claimed). The
 checker tells runs apart by the text "<path> [<lane>]". Two runs can share that
 text, and this module proves exactly which campaigns let one ledger record pass as
 the result of two runs.
 */
module ReportClaims {
  import opened Report
  import opened Wrappers

  // ---- When two runs share a claimant text -------------------------------

  /** q's document is p's followed by " [" and z, and p's lane is z followed by " [" and q's. */
  predicate Splits(p: Pair, q: Pair, z: string) {
    q.0 == p.0 + " [" + z && p.1 == z + " [" + q.1
  }

  ghost predicate Overlap(p: Pair, q: Pair) { exists z: string :: Splits(p, q, z) }

  lemma LongerDocument(p: Pair, q: Pair)
    requires Claimant(p) == Claimant(q) && |p.0| < |q.0|
    ensures Overlap(p, q)
  {
    var s, n := Claimant(p), |Claimant(p)|;
    assert s[|p.0|] == ' ' && s[|p.0| + 1] == '[' && s[|q.0|] == ' ';
    assert s[..|q.0|] == q.0 && s[..|p.0|] == p.0;
    var z := q.0[|p.0| + 2..];
    assert q.0 == p.0 + " [" + z;
    assert p.1 == s[|p.0| + 2..n - 1] && q.1 == s[|q.0| + 2..n - 1];
    assert s[|p.0| + 2..n - 1] == s[|p.0| + 2..|q.0|] + s[|q.0|..|q.0| + 2] + s[|q.0| + 2..n - 1];
    assert z == s[|p.0| + 2..|q.0|] && " [" == s[|q.0|..|q.0| + 2];
    assert Splits(p, q, z);
  }

  lemma OverlapShares(p: Pair, q: Pair)
    requires Overlap(p, q)
    ensures Claimant(p) == Claimant(q) && p != q
  {
    var z: string :| Splits(p, q, z);
    assert p.0 + " [" + (z + " [" + q.1) + "]" == (p.0 + " [" + z) + " [" + q.1 + "]";
  }

  lemma SameClaimantIff(p: Pair, q: Pair)
    ensures Claimant(p) == Claimant(q) <==> p == q || Overlap(p, q) || Overlap(q, p)
  {
    if Overlap(p, q) { OverlapShares(p, q); }
    if Overlap(q, p) { OverlapShares(q, p); }
    if Claimant(p) == Claimant(q) {
      if |p.0| < |q.0| {
        LongerDocument(p, q);
      } else if |q.0| < |p.0| {
        LongerDocument(q, p);
      } else {
        var s := Claimant(p);
        assert p.0 == s[..|p.0|] == q.0;
        assert p.1 == s[|p.0| + 2..|s| - 1] == q.1;
      }
    }
  }

  // ---- Campaigns that keep their runs apart ------------------------------

  /** Two runs the checks cannot tell apart: their texts overlap, their lanes run on one
      backend, and their documents have one hash. */
  ghost predicate Confused(c: Campaign, p: Pair, q: Pair) {
    && IsRun(c, p) && IsRun(c, q) && Overlap(p, q)
    && BackendOf(c.lanes, p.1) == BackendOf(c.lanes, q.1) && ShaOf(c.corpus, p.0) == ShaOf(c.corpus, q.0)
  }

  /** A condition on the corpus and the lanes alone, before anything has run. */
  ghost predicate Ambiguous(c: Campaign) { exists p, q :: Confused(c, p, q) }

  ghost predicate Passes(c: Campaign, extractions: bool, latest: map<Pair, Observation>, g: Gates) {
    GatesMean(c, extractions, latest, g) && g.Passed()
  }

  ghost predicate CitedTwice(c: Campaign, latest: map<Pair, Observation>, p: Pair, q: Pair, id: string) {
    p != q && SealedWith(c, latest, p, id) && SealedWith(c, latest, q, id)
  }

  lemma CitedTwiceIsConfused(c: Campaign, extractions: bool, latest: map<Pair, Observation>, g: Gates, p: Pair, q: Pair, id: string)
    requires WellFormed(c) && Keyed(latest) && Passes(c, extractions, latest, g) && CitedTwice(c, latest, p, q, id)
    ensures Confused(c, p, q) || Confused(c, q, p)
  {
    PassingMeans(c, extractions, latest, g);
    assert RecordOk(c, extractions, latest[p], ShaOf(c.corpus, p.0)) && RecordOk(c, extractions, latest[q], ShaOf(c.corpus, q.0));
    OneRecordOneClaimant(c, extractions, latest, g, p, q, id);
    SameClaimantIff(p, q);
  }

  /** Where no two runs can be confused, the sealed runs of a passing report cite
      pairwise distinct records. */
  lemma OneRecordOneRun(c: Campaign, extractions: bool, latest: map<Pair, Observation>, g: Gates)
    requires WellFormed(c) && Keyed(latest) && Passes(c, extractions, latest, g) && !Ambiguous(c)
    ensures forall p, q, id :: SealedWith(c, latest, p, id) && SealedWith(c, latest, q, id) ==> p == q
  {
    forall p, q, id | SealedWith(c, latest, p, id) && SealedWith(c, latest, q, id) ensures p == q {
      if p != q { CitedTwiceIsConfused(c, extractions, latest, g, p, q, id); }
    }
  }

  // ---- Every other campaign has a passing report that cites a record twice --

  /** A record id of each run's own. */
  function Id(r: Pair): string { seq(|r.0|, i => 'a') + "b" + r.0 + r.1 }

  lemma IdShape(r: Pair)
    ensures |Id(r)| == 2 * |r.0| + 1 + |r.1| && Id(r)[|r.0|] == 'b'
    ensures forall k :: 0 <= k < |r.0| ==> Id(r)[k] == 'a'
    ensures Id(r)[|r.0| + 1..2 * |r.0| + 1] == r.0 && Id(r)[2 * |r.0| + 1..] == r.1
  {
  }

  lemma IdsDiffer(r: Pair, s: Pair)
    requires Id(r) == Id(s)
    ensures r == s
  {
    IdShape(r);
    IdShape(s);
    assert |r.0| == |s.0|;
  }

  function RecordOf(c: Campaign, r: Pair): Record {
    Record(Id(r), "hash", true, Some(c.parser), BackendOf(c.lanes, r.1), Some(c.configDigest), Some(ShaOf(c.corpus, r.0)), map[])
  }

  /** Every run sealed a record of its own, except that q cites p's. */
  function Seen(p: Pair, q: Pair, r: Pair): Observation {
    var id := Id(if r == q then p else r);
    Observation(r.0, r.1, SealedRun, Some(id), Some(id), Some("hash"), None)
  }

  ghost function Listed(pairs: set<Pair>): (ps: seq<Pair>)
    ensures forall p :: p in ps <==> p in pairs
  {
    if pairs == {} then [] else
      var p :| p in pairs;
      [p] + Listed(pairs - {p})
  }

  function Observations(p: Pair, q: Pair, ps: seq<Pair>): seq<Observation> {
    if ps == [] then [] else Observations(p, q, ps[..|ps| - 1]) + [Seen(p, q, ps[|ps| - 1])]
  }

  lemma {:induction false} LatestSeen(p: Pair, q: Pair, ps: seq<Pair>)
    ensures var latest := Latest(Observations(p, q, ps));
      forall r :: (r in latest <==> r in ps) && (r in latest ==> latest[r] == Seen(p, q, r))
  {
    if ps != [] {
      var front, last := ps[..|ps| - 1], ps[|ps| - 1];
      LatestSeen(p, q, front);
      var os := Observations(p, q, ps);
      assert os[..|os| - 1] == Observations(p, q, front) && ps == front + [last];
    }
  }

  ghost predicate SamePlan(c: Campaign, d: Campaign) {
    && d.corpus == c.corpus && d.lanes == c.lanes && d.baseline == c.baseline
    && d.parser == c.parser && d.configDigest == c.configDigest
  }

  ghost function Records(c: Campaign, runs: set<Pair>): (m: map<string, Record>)
    ensures forall r :: r in runs ==> Id(r) in m && m[Id(r)] == RecordOf(c, r)
  {
    assert forall r, s :: Id(r) == Id(s) ==> r == s by {
      forall r, s | Id(r) == Id(s) ensures r == s { IdsDiffer(r, s); }
    }
    map r | r in runs :: Id(r) := RecordOf(c, r)
  }

  ghost function Filled(c: Campaign): Campaign {
    c.(records := Records(c, PairsOf(c, Names(c), |c.corpus|)), verifies := (r: Record) => true, extracts := (r: Record) => true, waivers := [])
  }

  /** No two records of a ledger share a run id: the column is unique. */
  ghost predicate OneRecordPerRun(records: map<string, Record>) {
    forall i, j :: i in records && j in records && records[i].runId == records[j].runId ==> i == j
  }

  const ALL_PASS := Gates(true, true, true, true, true, true, true, true, true)

  /** What holds of the records and observations built for two runs. */
  ghost predicate Built(c: Campaign, d: Campaign, p: Pair, q: Pair, latest: map<Pair, Observation>) {
    && WellFormed(d) && SamePlan(c, d) && d.waivers == [] && d.verifies == ((r: Record) => true) && d.extracts == ((r: Record) => true)
    && OneRecordPerRun(d.records) && (forall r :: IsRun(d, r) <==> r in latest)
    && (forall r :: r in latest ==> latest[r] == Seen(p, q, r))
    && (forall r :: IsRun(d, r) ==> Id(r) in d.records && d.records[Id(r)] == RecordOf(c, r))
  }

  lemma FilledRuns(c: Campaign, r: Pair)
    ensures IsRun(Filled(c), r) <==> r in PairsOf(c, Names(c), |c.corpus|)
    ensures IsRun(Filled(c), r) ==> Id(r) in Filled(c).records && Filled(c).records[Id(r)] == RecordOf(c, r)
  {
    assert Names(Filled(c)) == Names(c);
  }

  lemma BuildCampaign(c: Campaign, p: Pair, q: Pair) returns (d: Campaign, os: seq<Observation>)
    requires WellFormed(c)
    ensures Built(c, d, p, q, Latest(os))
  {
    var ps := Listed(PairsOf(c, Names(c), |c.corpus|));
    d, os := Filled(c), Observations(p, q, ps);
    LatestSeen(p, q, ps);
    assert Names(d) == Names(c);
    forall r { FilledRuns(c, r); }
  }

  lemma BuiltRecordOk(c: Campaign, d: Campaign, p: Pair, q: Pair, latest: map<Pair, Observation>, r: Pair)
    requires Built(c, d, p, q, latest) && Confused(c, p, q) && IsRun(d, r)
    ensures RecordOk(d, true, latest[r], ShaOf(d.corpus, r.0))
    ensures CitedRecord(d, latest[r]) == Some(RecordOf(c, if r == q then p else r))
  {
    assert IsRun(d, p) && latest[r] == Seen(p, q, r);
    var cited := if r == q then p else r;
    assert IsRun(d, cited) && d.records[Id(cited)] == RecordOf(c, cited);
  }

  lemma BuiltAgrees(c: Campaign, d: Campaign, p: Pair, q: Pair, latest: map<Pair, Observation>, r: Pair)
    requires Built(c, d, p, q, latest) && Confused(c, p, q) && IsComparison(d, r)
    ensures OutcomeAt(d, latest, r) == Identical
  {
    var b := (r.0, d.baseline);
    assert IsRun(d, r) && IsRun(d, b);
    BuiltRecordOk(c, d, p, q, latest, r);
    BuiltRecordOk(c, d, p, q, latest, b);
    SameManifest(d, latest[b], latest[r]);
  }

  lemma SameManifest(d: Campaign, b: Observation, o: Observation)
    requires b.status == SealedRun && o.status == SealedRun
    requires CitedRecord(d, b).Some? && CitedRecord(d, o).Some? && CitedRecord(d, b).value.manifest == CitedRecord(d, o).value.manifest
    ensures Compare(d, Some(b), Some(o)) == Identical
  {
  }

  lemma BuiltDistinct(c: Campaign, d: Campaign, p: Pair, q: Pair, latest: map<Pair, Observation>, r: Pair, s: Pair)
    requires Built(c, d, p, q, latest) && Confused(c, p, q) && SameRecord(d, latest, r, s)
    ensures Claimant(r) == Claimant(s)
  {
    assert latest[r] == Seen(p, q, r) && latest[s] == Seen(p, q, s);
    IdsDiffer(if r == q then p else r, if s == q then p else s);
    OverlapShares(p, q);
  }

  lemma BuiltSealed(c: Campaign, d: Campaign, p: Pair, q: Pair, latest: map<Pair, Observation>)
    requires Built(c, d, p, q, latest) && Confused(c, p, q)
    ensures d.corpus != [] && BaselineSealed(d, latest, 0)
  {
    assert IsRun(c, p);
    var b := (d.corpus[0].path, d.baseline);
    assert IsRun(d, b);
  }

  lemma BuiltRunIsFine(c: Campaign, d: Campaign, p: Pair, q: Pair, latest: map<Pair, Observation>, r: Pair)
    requires Built(c, d, p, q, latest) && Confused(c, p, q) && IsRun(d, r)
    ensures r in latest && !Faulty(latest[r].status) && RecordOkAt(d, true, latest, r)
  {
    assert latest[r] == Seen(p, q, r);
    BuiltRecordOk(c, d, p, q, latest, r);
  }

  lemma BuiltPasses(c: Campaign, d: Campaign, p: Pair, q: Pair, latest: map<Pair, Observation>)
    requires Built(c, d, p, q, latest) && Confused(c, p, q)
    ensures Passes(d, true, latest, ALL_PASS)
  {
    BuiltSealed(c, d, p, q, latest);
    forall r | IsRun(d, r) ensures r in latest && !Faulty(latest[r].status) && RecordOkAt(d, true, latest, r) {
      BuiltRunIsFine(c, d, p, q, latest, r);
    }
    forall r, s | SameRecord(d, latest, r, s) ensures Claimant(r) == Claimant(s) { BuiltDistinct(c, d, p, q, latest, r, s); }
    forall r | IsComparison(d, r) ensures !Waivable(OutcomeAt(d, latest, r)) { BuiltAgrees(c, d, p, q, latest, r); }
    assert WaiverKeys(d) == {};
  }

  /** Given two runs that can be confused, a ledger and a journal for which the report
      passes every gate although both runs cite one record. */
  lemma ConfusedIsCitedTwice(c: Campaign, p: Pair, q: Pair) returns (d: Campaign, os: seq<Observation>)
    requires WellFormed(c) && Confused(c, p, q)
    ensures WellFormed(d) && SamePlan(c, d) && OneRecordPerRun(d.records)
    ensures Passes(d, true, Latest(os), ALL_PASS) && CitedTwice(d, Latest(os), p, q, Id(p))
  {
    d, os := BuildCampaign(c, p, q);
    BuiltPasses(c, d, p, q, Latest(os));
    OverlapShares(p, q);
    assert IsRun(d, p) && IsRun(d, q);
  }

  /** Some ledger, no run id in it twice, and some journal of this campaign's plan make a passing report cite one record twice. */
  ghost predicate CanCiteTwice(c: Campaign) {
    exists d: Campaign, os: seq<Observation>, extractions: bool, g: Gates, p: Pair, q: Pair, id: string ::
      SamePlan(c, d) && OneRecordPerRun(d.records) && Passes(d, extractions, Latest(os), g) && CitedTwice(d, Latest(os), p, q, id)
  }

  /** The exact condition: a passing report can cite one record for two runs if and only if
      the corpus and the lanes hold two runs that can be confused. */
  lemma OneRecordTwiceIff(c: Campaign)
    requires WellFormed(c)
    ensures CanCiteTwice(c) <==> Ambiguous(c)
  {
    if CanCiteTwice(c) { CitedTwiceNeedsConfusion(c); }
    if Ambiguous(c) {
      var p, q :| Confused(c, p, q);
      var d, os := ConfusedIsCitedTwice(c, p, q);
    }
  }

  lemma CitedTwiceNeedsConfusion(c: Campaign)
    requires WellFormed(c) && CanCiteTwice(c)
    ensures Ambiguous(c)
  {
    var d: Campaign, os: seq<Observation>, extractions: bool, g: Gates, p: Pair, q: Pair, id: string :|
      SamePlan(c, d) && OneRecordPerRun(d.records) && Passes(d, extractions, Latest(os), g) && CitedTwice(d, Latest(os), p, q, id);
    LatestIsKeyed(os);
    CitedTwiceIsConfused(d, extractions, Latest(os), g, p, q, id);
    if Confused(d, p, q) { SamePlanConfused(c, d, p, q); } else { SamePlanConfused(c, d, q, p); }
  }

  lemma SamePlanConfused(c: Campaign, d: Campaign, p: Pair, q: Pair)
    requires SamePlan(c, d) && Confused(d, p, q)
    ensures Confused(c, p, q)
  {
    assert Names(c) == Names(d);
  }

  /** The input that shows it: documents "a" and "a [b]" with one content, lanes "c" and
      "b] [c" on one backend. All nine gates pass and one record stands for two runs. */
  lemma OneRecordForTwoRuns(c: Campaign) returns (d: Campaign, os: seq<Observation>)
    requires c.corpus == [Entry("a", "h"), Entry("a [b]", "h")]
    requires c.lanes == [("c", "bubblewrap"), ("b] [c", "bubblewrap")] && c.baseline == "c"
    ensures WellFormed(d) && SamePlan(c, d) && OneRecordPerRun(d.records) && Passes(d, true, Latest(os), ALL_PASS)
    ensures CitedTwice(d, Latest(os), ("a", "b] [c"), ("a [b]", "c"), Id(("a", "b] [c")))
  {
    var p, q := ("a", "b] [c"), ("a [b]", "c");
    assert Names(c) == ["c", "b] [c"];
    assert c.corpus[0].path == "a" && c.corpus[1].path == "a [b]";
    assert "a [b]" == "a" + " [" + "b]" && "b] [c" == "b]" + " [" + "c";
    assert Splits(p, q, "b]");
    assert c.lanes[..1] == [("c", "bubblewrap")] && c.corpus[1..] == [Entry("a [b]", "h")];
    assert BackendOf(c.lanes, "c") == BackendOf(c.lanes[..1], "c") == Some("bubblewrap");
    assert ShaOf(c.corpus, "a [b]") == ShaOf(c.corpus[1..], "a [b]") == "h";
    assert p.1 in Names(c) && q.1 in Names(c) && IsRun(c, p) && IsRun(c, q);
    assert Confused(c, p, q);
    d, os := ConfusedIsCitedTwice(c, p, q);
  }
}
