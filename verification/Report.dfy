/**
 The verification report (stele/verification/report.py): what a campaign's journal
 claims, re-checked against the ledger, compared lane by lane, and gated. The
 archive checks of one record, the comparison policy, the re-hashed corpus, the
 ledger's own verification and the optional thresholds are inputs.
 */
module Report {
  import opened Wrappers

  datatype Status = SealedRun | FailedRun | NotApplicable | ContainmentError | StatusError

  datatype Observation = Observation(path: string, lane: string, status: Status, recordId: Option<string>,
                                     runId: Option<string>, artifactHash: Option<string>, reason: Option<string>)

  type Manifest = map<string, string>

  datatype Record = Record(runId: string, artifactHash: string, live: bool, parser: Option<(string, string)>,
                           backend: Option<string>, configDigest: Option<string>, sourceHash: Option<string>, manifest: Manifest)

  datatype Entry = Entry(path: string, sha256: string)

  datatype Outcome =
    | Identical | Equivalent | Diverged | Regression | Recovered | ConsistentFailure | FailureMismatch
    | Incomplete | Inapplicable | OutcomeError

  datatype Waiver = Waiver(path: string, lane: string, outcome: Outcome)

  /** A campaign as the report sees it. `verifies` and `extracts` stand for validate_artifact
      and the extraction check of one record; `accepts` for the comparison policy, if any. */
  datatype Campaign = Campaign(
    corpus: seq<Entry>, lanes: seq<(string, string)>, baseline: string, parser: (string, string), configDigest: string,
    records: map<string, Record>, verifies: Record -> bool, extracts: Record -> bool,
    accepts: Option<(Manifest, Manifest) -> bool>, waivers: seq<Waiver>)

  // ---- What each document and lane shows ---------------------------------

  type Pair = (string, string)

  predicate Waivable(o: Outcome) { o == Diverged || o == Regression || o == FailureMismatch }

  /** The latest observation of each pair. */
  function Latest(os: seq<Observation>): map<Pair, Observation> {
    if os == [] then map[]
    else
      var o := os[|os| - 1];
      Latest(os[..|os| - 1])[(o.path, o.lane) := o]
  }

  lemma {:induction false} LatestIsTheLast(os: seq<Observation>, p: Pair)
    ensures p in Latest(os) <==> exists i :: IsLast(os, p, i)
    ensures p in Latest(os) ==> exists i :: IsLast(os, p, i) && os[i] == Latest(os)[p]
  {
    if os != [] {
      var front, n := os[..|os| - 1], |os| - 1;
      LatestIsTheLast(front, p);
      if (os[n].path, os[n].lane) == p {
        assert IsLast(os, p, n);
      } else {
        if p in Latest(front) {
          var i :| IsLast(front, p, i) && front[i] == Latest(front)[p];
          assert IsLast(os, p, i);
        }
        if exists i :: IsLast(os, p, i) {
          var i :| IsLast(os, p, i);
          assert IsLast(front, p, i);
        }
      }
    }
  }

  ghost predicate IsLast(os: seq<Observation>, p: Pair, i: int) {
    && 0 <= i < |os| && (os[i].path, os[i].lane) == p
    && forall j :: i < j < |os| ==> (os[j].path, os[j].lane) != p
  }

  function Names(c: Campaign): (ns: seq<string>)
    ensures |ns| == |c.lanes|
  {
    seq(|c.lanes|, i requires 0 <= i < |c.lanes| => c.lanes[i].0)
  }

  function BackendOf(lanes: seq<(string, string)>, name: string): Option<string> {
    if lanes == [] then None
    else if lanes[|lanes| - 1].0 == name then Some(lanes[|lanes| - 1].1)
    else BackendOf(lanes[..|lanes| - 1], name)
  }

  /** f"{path} [{lane}]". */
  function Claimant(p: Pair): string { p.0 + " [" + p.1 + "]" }

  function CitedRecord(c: Campaign, o: Observation): Option<Record> {
    if o.recordId.Some? && o.recordId.value in c.records then Some(c.records[o.recordId.value]) else None
  }

  /** Everything check() asks of a sealed observation's record, but for its claim. */
  predicate RecordOk(c: Campaign, extractions: bool, o: Observation, sha256: string) {
    CitedRecord(c, o).Some? &&
    var r := CitedRecord(c, o).value;
    && r.live && o.runId == Some(r.runId) && o.artifactHash == Some(r.artifactHash)
    && r.parser == Some(c.parser) && r.backend == BackendOf(c.lanes, o.lane) && r.configDigest == Some(c.configDigest)
    && r.sourceHash == Some(sha256) && c.verifies(r) && (extractions ==> c.extracts(r))
  }

  predicate Faulty(s: Status) { s == StatusError || s == ContainmentError }

  /** _compare. */
  function Compare(c: Campaign, base: Option<Observation>, cand: Option<Observation>): Outcome {
    if base.None? || cand.None? then Incomplete
    else
      var b, d := base.value, cand.value;
      if Faulty(b.status) || Faulty(d.status) then OutcomeError
      else if b.status == NotApplicable && d.status == NotApplicable then Inapplicable
      else if b.status == NotApplicable || d.status == NotApplicable then FailureMismatch
      else if b.status == SealedRun && d.status == SealedRun then
        (if CitedRecord(c, b).None? || CitedRecord(c, d).None? then OutcomeError
         else
           var recorded, candidate := CitedRecord(c, b).value.manifest, CitedRecord(c, d).value.manifest;
           if recorded == candidate then Identical
           else if c.accepts.Some? && c.accepts.value(recorded, candidate) then Equivalent
           else Diverged)
      else if b.status == SealedRun then Regression
      else if d.status == SealedRun then Recovered
      else if b.reason == d.reason then ConsistentFailure
      else FailureMismatch
  }

  function At(latest: map<Pair, Observation>, p: Pair): Option<Observation> { if p in latest then Some(latest[p]) else None }

  function OutcomeAt(c: Campaign, latest: map<Pair, Observation>, p: Pair): Outcome {
    Compare(c, At(latest, (p.0, c.baseline)), At(latest, p))
  }

  // ---- The checker's claims ----------------------------------------------

  predicate Cites(c: Campaign, latest: map<Pair, Observation>, p: Pair) {
    p in latest && latest[p].status == SealedRun && CitedRecord(c, latest[p]).Some?
  }

  /** No two pairs looked at so far claim one record under different names. */
  ghost predicate OneClaim(c: Campaign, latest: map<Pair, Observation>, seen: set<Pair>) {
    forall p, q :: p in seen && q in seen && SameRecord(c, latest, p, q) ==> Claimant(p) == Claimant(q)
  }

  predicate SameRecord(c: Campaign, latest: map<Pair, Observation>, p: Pair, q: Pair) {
    Cites(c, latest, p) && Cites(c, latest, q) && latest[p].recordId == latest[q].recordId
  }

  class RecordChecker {
    var claimed: map<string, string>

    constructor ()
      ensures claimed == map[]
    {
      claimed := map[];
    }

    /** check: the record cited, if the ledger has it, and how many problems it has. */
    method Check(c: Campaign, extractions: bool, o: Observation, sha256: string) returns (problems: nat)
      modifies this
      ensures CitedRecord(c, o).None? ==> problems > 0 && claimed == old(claimed)
      ensures CitedRecord(c, o).Some? ==>
        var id, name := o.recordId.value, Claimant((o.path, o.lane));
        && claimed == (if id in old(claimed) then old(claimed) else old(claimed)[id := name])
        && (problems == 0 <==> RecordOk(c, extractions, o, sha256) && claimed[id] == name)
    {
      if o.recordId.None? || o.recordId.value !in c.records {
        return 1;
      }
      var id := o.recordId.value;
      var r := c.records[id];
      problems := 0;
      if !r.live {
        problems := problems + 1;
      }
      if Some(r.runId) != o.runId || Some(r.artifactHash) != o.artifactHash {
        problems := problems + 1;
      }
      if r.parser != Some(c.parser) {
        problems := problems + 1;
      }
      if r.backend != BackendOf(c.lanes, o.lane) {
        problems := problems + 1;
      }
      if r.configDigest != Some(c.configDigest) {
        problems := problems + 1;
      }
      var claimant := Claimant((o.path, o.lane));
      if id !in claimed {
        claimed := claimed[id := claimant];
      }
      if claimed[id] != claimant {
        problems := problems + 1;
      }
      if r.sourceHash != Some(sha256) {
        problems := problems + 1;
      }
      if !c.verifies(r) {
        return problems + 1;
      }
      if extractions && !c.extracts(r) {
        problems := problems + 1;
      }
    }
  }

  // ---- One document and lane at a time -----------------------------------

  function ShaOf(corpus: seq<Entry>, path: string): string {
    if corpus == [] then "" else if corpus[0].path == path then corpus[0].sha256 else ShaOf(corpus[1..], path)
  }

  datatype Tally = Tally(missing: nat, errors: nat, integrity: nat)

  /** What the three counters and the claims say of the pairs seen. */
  ghost predicate Tallied(c: Campaign, extractions: bool, latest: map<Pair, Observation>, seen: set<Pair>,
                          claimed: map<string, string>, t: Tally) {
    && (t.missing == 0 <==> AllObserved(latest, seen))
    && (t.errors == 0 <==> NoneFaulty(latest, seen))
    && (t.integrity == 0 <==> AllRecordsOk(c, extractions, latest, seen) && OneClaim(c, latest, seen))
    && Claims(c, latest, seen, claimed)
  }

  ghost predicate AllObserved(latest: map<Pair, Observation>, seen: set<Pair>) { forall p :: p in seen ==> p in latest }

  ghost predicate NoneFaulty(latest: map<Pair, Observation>, seen: set<Pair>) {
    forall p :: p in seen && p in latest ==> !Faulty(latest[p].status)
  }

  /** Every record cited is claimed, by one of the pairs that cite it. */
  ghost predicate Claims(c: Campaign, latest: map<Pair, Observation>, seen: set<Pair>, claimed: map<string, string>) {
    && (forall p :: p in seen && Cites(c, latest, p) ==> latest[p].recordId.value in claimed)
    && (forall id :: id in claimed ==> exists p :: p in seen && ClaimedBy(c, latest, p, id, claimed[id]))
  }

  predicate ClaimedBy(c: Campaign, latest: map<Pair, Observation>, p: Pair, id: string, name: string) {
    Cites(c, latest, p) && latest[p].recordId == Some(id) && Claimant(p) == name
  }

  ghost predicate AllRecordsOk(c: Campaign, extractions: bool, latest: map<Pair, Observation>, seen: set<Pair>) {
    forall p :: p in seen ==> RecordOkAt(c, extractions, latest, p)
  }

  predicate RecordOkAt(c: Campaign, extractions: bool, latest: map<Pair, Observation>, p: Pair) {
    p in latest && latest[p].status == SealedRun ==> RecordOk(c, extractions, latest[p], ShaOf(c.corpus, p.0))
  }

  ghost predicate Keyed(latest: map<Pair, Observation>) {
    forall p :: p in latest ==> (latest[p].path, latest[p].lane) == p
  }

  lemma {:induction false} LatestIsKeyed(os: seq<Observation>)
    ensures Keyed(Latest(os))
  {
    if os != [] { LatestIsKeyed(os[..|os| - 1]); }
  }

  lemma ClaimsStep(c: Campaign, latest: map<Pair, Observation>, seen: set<Pair>, before: map<string, string>,
                   after: map<string, string>, p: Pair)
    requires Claims(c, latest, seen, before) && Cites(c, latest, p)
    requires var id := latest[p].recordId.value; after == (if id in before then before else before[id := Claimant(p)])
    ensures Claims(c, latest, seen + {p}, after)
  {
    forall id | id in after ensures exists q :: q in seen + {p} && ClaimedBy(c, latest, q, id, after[id]) {
      if id in before {
        var q :| q in seen && ClaimedBy(c, latest, q, id, before[id]);
        assert q in seen + {p};
      } else {
        assert p in seen + {p} && ClaimedBy(c, latest, p, id, after[id]);
      }
    }
  }

  /** While claims agree, a record's claim is that of every pair citing it. */
  lemma FirstClaim(c: Campaign, latest: map<Pair, Observation>, seen: set<Pair>, claimed: map<string, string>, o: Pair)
    requires Claims(c, latest, seen, claimed) && OneClaim(c, latest, seen) && o in seen && Cites(c, latest, o)
    ensures latest[o].recordId.value in claimed && claimed[latest[o].recordId.value] == Claimant(o)
  {
    var id := latest[o].recordId.value;
    var q :| q in seen && ClaimedBy(c, latest, q, id, claimed[id]);
    assert SameRecord(c, latest, o, q);
  }

  /** A sealed pair's claim is the first for its record, or agrees with it, or is a problem. */
  lemma OneClaimStep(c: Campaign, latest: map<Pair, Observation>, seen: set<Pair>, before: map<string, string>,
                     after: map<string, string>, p: Pair)
    requires Claims(c, latest, seen, before) && Cites(c, latest, p)
    requires var id := latest[p].recordId.value; after == (if id in before then before else before[id := Claimant(p)])
    ensures OneClaim(c, latest, seen + {p}) <==> OneClaim(c, latest, seen) && after[latest[p].recordId.value] == Claimant(p)
  {
    var id, all := latest[p].recordId.value, seen + {p};
    if OneClaim(c, latest, all) {
      if id in before {
        var q :| q in seen && ClaimedBy(c, latest, q, id, before[id]);
        assert SameRecord(c, latest, p, q) && p in all && q in all;
      }
    }
    if OneClaim(c, latest, seen) && after[id] == Claimant(p) {
      forall x, y | x in all && y in all && SameRecord(c, latest, x, y) ensures Claimant(x) == Claimant(y) {
        if x in seen { FirstClaim(c, latest, seen, before, x); }
        if y in seen { FirstClaim(c, latest, seen, before, y); }
      }
    }
  }

  lemma RecordsStep(c: Campaign, extractions: bool, latest: map<Pair, Observation>, seen: set<Pair>, p: Pair)
    ensures AllRecordsOk(c, extractions, latest, seen + {p})
      <==> AllRecordsOk(c, extractions, latest, seen) && RecordOkAt(c, extractions, latest, p)
    ensures AllObserved(latest, seen + {p}) <==> AllObserved(latest, seen) && p in latest
    ensures NoneFaulty(latest, seen + {p}) <==> NoneFaulty(latest, seen) && (p in latest ==> !Faulty(latest[p].status))
  {
    var all := seen + {p};
    assert p in all && forall q :: q in seen ==> q in all;
  }

  /** A pair that cites no record changes no claim. */
  lemma NoClaim(c: Campaign, latest: map<Pair, Observation>, seen: set<Pair>, claimed: map<string, string>, p: Pair)
    requires Claims(c, latest, seen, claimed) && !Cites(c, latest, p)
    ensures Claims(c, latest, seen + {p}, claimed) && (OneClaim(c, latest, seen + {p}) <==> OneClaim(c, latest, seen))
  {
    var all := seen + {p};
    assert forall q :: q in seen ==> q in all;
    forall id | id in claimed ensures exists q :: q in all && ClaimedBy(c, latest, q, id, claimed[id]) {
      var q :| q in seen && ClaimedBy(c, latest, q, id, claimed[id]);
      assert q in all;
    }
  }

  method ObserveLane(c: Campaign, extractions: bool, latest: map<Pair, Observation>, checker: RecordChecker,
                     p: Pair, sha256: string, t: Tally, ghost seen: set<Pair>)
    returns (t': Tally)
    requires Tallied(c, extractions, latest, seen, checker.claimed, t) && Keyed(latest)
    requires p !in seen && sha256 == ShaOf(c.corpus, p.0)
    modifies checker
    ensures Tallied(c, extractions, latest, seen + {p}, checker.claimed, t')
  {
    RecordsStep(c, extractions, latest, seen, p);
    if p !in latest {
      NoClaim(c, latest, seen, checker.claimed, p);
      t' := t.(missing := t.missing + 1);
      return;
    }
    var o := latest[p];
    t' := if Faulty(o.status) then t.(errors := t.errors + 1) else t;
    if o.status != SealedRun {
      NoClaim(c, latest, seen, checker.claimed, p);
      return;
    }
    ghost var before := checker.claimed;
    var problems := checker.Check(c, extractions, o, sha256);
    if CitedRecord(c, o).Some? {
      ClaimsStep(c, latest, seen, before, checker.claimed, p);
      OneClaimStep(c, latest, seen, before, checker.claimed, p);
    } else {
      NoClaim(c, latest, seen, before, p);
    }
    t' := t'.(integrity := t'.integrity + problems);
  }

  // ---- Comparisons -------------------------------------------------------

  datatype Verdicts = Verdicts(used: set<(string, string, Outcome)>, unwaived: nat, counts: map<string, multiset<Outcome>>)

  function Key(c: Campaign, latest: map<Pair, Observation>, p: Pair): (string, string, Outcome) {
    (p.0, p.1, OutcomeAt(c, latest, p))
  }

  function WaiverKeys(c: Campaign): set<(string, string, Outcome)> {
    set w | w in c.waivers :: (w.path, w.lane, w.outcome)
  }

  /** What the waiver bookkeeping says of the comparisons made. */
  ghost predicate Judged(c: Campaign, latest: map<Pair, Observation>, made: set<Pair>, v: Verdicts) {
    && (v.unwaived == 0 <==> AllWaived(c, latest, made))
    && (forall k :: k in v.used <==> k in WaiverKeys(c) && Found(c, latest, made, k))
  }

  ghost predicate AllWaived(c: Campaign, latest: map<Pair, Observation>, made: set<Pair>) {
    forall p :: p in made && Waivable(OutcomeAt(c, latest, p)) ==> Key(c, latest, p) in WaiverKeys(c)
  }

  /** Some comparison made has this waivable outcome. */
  ghost predicate Found(c: Campaign, latest: map<Pair, Observation>, made: set<Pair>, k: (string, string, Outcome)) {
    Waivable(k.2) && (k.0, k.1) in made && OutcomeAt(c, latest, (k.0, k.1)) == k.2
  }

  lemma JudgedStep(c: Campaign, latest: map<Pair, Observation>, made: set<Pair>, v: Verdicts, v': Verdicts, p: Pair)
    requires Judged(c, latest, made, v)
    requires var key := Key(c, latest, p); var known := key in WaiverKeys(c);
      if !Waivable(key.2) then v' == v.(counts := v'.counts)
      else v' == v.(used := if known then v.used + {key} else v.used, unwaived := if known then v.unwaived else v.unwaived + 1, counts := v'.counts)
    ensures Judged(c, latest, made + {p}, v')
  {
    var all := made + {p};
    var key := Key(c, latest, p);
    assert p in all && forall q :: q in made ==> q in all;
    assert p == (p.0, p.1);
    assert AllWaived(c, latest, all) <==> AllWaived(c, latest, made) && (Waivable(key.2) ==> key in WaiverKeys(c));
    forall k ensures k in v'.used <==> k in WaiverKeys(c) && Found(c, latest, all, k) {
      assert Found(c, latest, all, k) <==> Found(c, latest, made, k) || (Waivable(key.2) && k == key);
    }
  }

  method CompareLane(c: Campaign, latest: map<Pair, Observation>, p: Pair, v: Verdicts, ghost made: set<Pair>)
    returns (v': Verdicts)
    requires Judged(c, latest, made, v) && p.1 in v.counts
    ensures Judged(c, latest, made + {p}, v')
    ensures v'.counts == v.counts[p.1 := v.counts[p.1] + multiset{OutcomeAt(c, latest, p)}]
  {
    var outcome := Compare(c, At(latest, (p.0, c.baseline)), At(latest, p));
    var key := (p.0, p.1, outcome);
    v' := v;
    if Waivable(outcome) {
      if key in WaiverKeys(c) {
        v' := v'.(used := v'.used + {key});
      } else {
        v' := v'.(unwaived := v'.unwaived + 1);
      }
    }
    v' := v'.(counts := v'.counts[p.1 := v'.counts[p.1] + multiset{outcome}]);
    JudgedStep(c, latest, made, v, v', p);
  }

  // ---- The whole report --------------------------------------------------

  ghost predicate WellFormed(c: Campaign) {
    && (forall i, j :: 0 <= i < j < |c.corpus| ==> c.corpus[i].path != c.corpus[j].path)
    && (forall i, j :: 0 <= i < j < |c.lanes| ==> c.lanes[i].0 != c.lanes[j].0)
    && c.baseline in Names(c)
  }

  /** The document-lane pairs of the first n documents. */
  ghost predicate InFirst(c: Campaign, lanes: seq<string>, n: nat, p: Pair)
    requires n <= |c.corpus|
  {
    p.1 in lanes && exists k :: 0 <= k < n && c.corpus[k].path == p.0
  }

  /** The pairs of the first n documents, each with every lane. */
  ghost function PairsOf(c: Campaign, lanes: seq<string>, n: nat): (pairs: set<Pair>)
    requires n <= |c.corpus|
    ensures forall p :: p in pairs <==> InFirst(c, lanes, n, p)
  {
    if n == 0 then {} else
      var before := PairsOf(c, lanes, n - 1);
      assert forall p :: InFirst(c, lanes, n, p) <==> InFirst(c, lanes, n - 1, p) || (p.1 in lanes && p.0 == c.corpus[n - 1].path);
      before + Row(c.corpus[n - 1].path, lanes)
  }

  ghost function Row(path: string, lanes: seq<string>): (pairs: set<Pair>)
    ensures forall p :: p in pairs <==> p.0 == path && p.1 in lanes
  {
    set l | l in lanes :: (path, l)
  }

  /** The pairs of document i with the first j lanes, on top of those before it. */
  ghost function PairsWith(c: Campaign, lanes: seq<string>, i: nat, j: nat): set<Pair>
    requires i < |c.corpus| && j <= |lanes|
  {
    PairsOf(c, lanes, i) + Row(c.corpus[i].path, lanes[..j])
  }

  lemma NextPair(c: Campaign, lanes: seq<string>, i: nat, j: nat)
    requires WellFormed(c) && i < |c.corpus| && j < |lanes|
    requires forall x, y :: 0 <= x < y < |lanes| ==> lanes[x] != lanes[y]
    ensures (c.corpus[i].path, lanes[j]) !in PairsWith(c, lanes, i, j)
    ensures PairsWith(c, lanes, i, j + 1) == PairsWith(c, lanes, i, j) + {(c.corpus[i].path, lanes[j])}
  {
    assert lanes[..j + 1] == lanes[..j] + [lanes[j]];
  }

  lemma RowEnds(c: Campaign, lanes: seq<string>, i: nat)
    requires i < |c.corpus|
    ensures PairsWith(c, lanes, i, 0) == PairsOf(c, lanes, i)
    ensures PairsWith(c, lanes, i, |lanes|) == PairsOf(c, lanes, i + 1)
  {
    assert lanes[..|lanes|] == lanes;
  }

  function Candidates(c: Campaign): (ns: seq<string>)
    ensures forall n :: n in ns <==> n in Names(c) && n != c.baseline
    ensures WellFormed(c) ==> forall i, j :: 0 <= i < j < |ns| ==> ns[i] != ns[j]
  {
    Others(Names(c), c.baseline)
  }

  function Others(names: seq<string>, base: string): (ns: seq<string>)
    ensures forall n :: n in ns <==> n in names && n != base
    ensures (forall i, j :: 0 <= i < j < |names| ==> names[i] != names[j]) ==> forall i, j :: 0 <= i < j < |ns| ==> ns[i] != ns[j]
  {
    if names == [] then []
    else
      var rest := Others(names[1..], base);
      assert names == [names[0]] + names[1..];
      if names[0] == base then rest
      else
        assert (forall i, j :: 0 <= i < j < |names| ==> names[i] != names[j]) ==> names[0] !in rest;
        [names[0]] + rest
  }

  lemma ShaOfEntry(corpus: seq<Entry>, i: nat)
    requires i < |corpus| && forall j, k :: 0 <= j < k < |corpus| ==> corpus[j].path != corpus[k].path
    ensures ShaOf(corpus, corpus[i].path) == corpus[i].sha256
  {
    if i > 0 { ShaOfEntry(corpus[1..], i - 1); }
  }

  /** What is known after n documents: of the runs, and of the comparisons. */
  ghost predicate Observed(c: Campaign, extractions: bool, latest: map<Pair, Observation>, n: nat,
                           claimed: map<string, string>, t: Tally)
    requires n <= |c.corpus|
  {
    Tallied(c, extractions, latest, PairsOf(c, Names(c), n), claimed, t)
  }

  ghost predicate ComparedTo(c: Campaign, latest: map<Pair, Observation>, n: nat, v: Verdicts)
    requires n <= |c.corpus|
  {
    Judged(c, latest, PairsOf(c, Candidates(c), n), v) && Counted(c, latest, v.counts, Candidates(c), n)
  }

  /** All lanes of one document. */
  method ObserveDocument(c: Campaign, extractions: bool, latest: map<Pair, Observation>, checker: RecordChecker, i: nat, t: Tally)
    returns (t': Tally)
    requires WellFormed(c) && Keyed(latest) && i < |c.corpus|
    requires Observed(c, extractions, latest, i, checker.claimed, t)
    modifies checker
    ensures Observed(c, extractions, latest, i + 1, checker.claimed, t')
  {
    var names := Names(c);
    RowEnds(c, names, i);
    t' := t;
    for j := 0 to |names|
      invariant Tallied(c, extractions, latest, PairsWith(c, names, i, j), checker.claimed, t')
    {
      t' := ObserveNext(c, extractions, latest, checker, i, j, t');
    }
  }

  /** One lane of one document, as the loop reaches it. */
  method ObserveNext(c: Campaign, extractions: bool, latest: map<Pair, Observation>, checker: RecordChecker, i: nat, j: nat, t: Tally)
    returns (t': Tally)
    requires WellFormed(c) && Keyed(latest) && i < |c.corpus| && j < |Names(c)|
    requires Tallied(c, extractions, latest, PairsWith(c, Names(c), i, j), checker.claimed, t)
    modifies checker
    ensures Tallied(c, extractions, latest, PairsWith(c, Names(c), i, j + 1), checker.claimed, t')
  {
    var entry := c.corpus[i];
    ShaOfEntry(c.corpus, i);
    NextPair(c, Names(c), i, j);
    t' := ObserveLane(c, extractions, latest, checker, (entry.path, Names(c)[j]), entry.sha256, t, PairsWith(c, Names(c), i, j));
  }

  /** A candidate's outcomes on the first n documents. */
  function Outcomes(c: Campaign, latest: map<Pair, Observation>, cand: string, n: nat): (os: seq<Outcome>)
    requires n <= |c.corpus|
    ensures |os| == n
  {
    seq(n, k requires 0 <= k < n => OutcomeAt(c, latest, (c.corpus[k].path, cand)))
  }

  ghost predicate Counted(c: Campaign, latest: map<Pair, Observation>, counts: map<string, multiset<Outcome>>, cands: seq<string>, n: nat)
    requires n <= |c.corpus|
  {
    forall cand :: cand in cands ==> cand in counts && counts[cand] == multiset(Outcomes(c, latest, cand, n))
  }

  lemma CountStep(c: Campaign, latest: map<Pair, Observation>, cand: string, n: nat)
    requires n < |c.corpus|
    ensures multiset(Outcomes(c, latest, cand, n + 1))
      == multiset(Outcomes(c, latest, cand, n)) + multiset{OutcomeAt(c, latest, (c.corpus[n].path, cand))}
  {
    assert Outcomes(c, latest, cand, n + 1) == Outcomes(c, latest, cand, n) + [OutcomeAt(c, latest, (c.corpus[n].path, cand))];
  }

  /** One more candidate counted for document i. */
  lemma CountedStep(c: Campaign, latest: map<Pair, Observation>, counts: map<string, multiset<Outcome>>, cands: seq<string>, j: nat, i: nat)
    requires i < |c.corpus| && j < |cands| && forall x, y :: 0 <= x < y < |cands| ==> cands[x] != cands[y]
    requires Counted(c, latest, counts, cands[..j], i + 1) && Counted(c, latest, counts, cands[j..], i)
    ensures cands[j] in counts
    ensures var o := OutcomeAt(c, latest, (c.corpus[i].path, cands[j]));
      var counts' := counts[cands[j] := counts[cands[j]] + multiset{o}];
      Counted(c, latest, counts', cands[..j + 1], i + 1) && Counted(c, latest, counts', cands[j + 1..], i)
  {
    assert cands[j] in cands[j..];
    CountStep(c, latest, cands[j], i);
    assert forall cand :: cand in cands[..j + 1] ==> cand in cands[..j] || cand == cands[j];
    assert forall cand :: cand in cands[j + 1..] ==> cand in cands[j..] && cand != cands[j];
  }

  /** All candidates of one document. */
  method CompareDocument(c: Campaign, latest: map<Pair, Observation>, i: nat, v: Verdicts)
    returns (v': Verdicts)
    requires WellFormed(c) && i < |c.corpus| && ComparedTo(c, latest, i, v)
    ensures ComparedTo(c, latest, i + 1, v')
  {
    var path, cands := c.corpus[i].path, Candidates(c);
    RowEnds(c, cands, i);
    v' := v;
    for j := 0 to |cands|
      invariant Judged(c, latest, PairsWith(c, cands, i, j), v')
      invariant Counted(c, latest, v'.counts, cands[..j], i + 1) && Counted(c, latest, v'.counts, cands[j..], i)
    {
      NextPair(c, cands, i, j);
      CountedStep(c, latest, v'.counts, cands, j, i);
      v' := CompareLane(c, latest, (path, cands[j]), v', PairsWith(c, cands, i, j));
    }
    assert cands[..|cands|] == cands;
  }

  datatype Gates = Gates(corpusUnchanged: bool, coverage: bool, baselineProducedOutput: bool, noErrors: bool, recordsVerified: bool,
                         ledgerVerified: bool, candidatesAgree: bool, waiversUsed: bool, thresholds: bool)
  {
    predicate Passed() {
      corpusUnchanged && coverage && baselineProducedOutput && noErrors && recordsVerified && ledgerVerified
      && candidatesAgree && waiversUsed && thresholds
    }
  }

  datatype Report = Report(gates: Gates, counts: map<string, multiset<Outcome>>, passed: bool)

  ghost predicate IsRun(c: Campaign, p: Pair) { InFirst(c, Names(c), |c.corpus|, p) }

  ghost predicate IsComparison(c: Campaign, p: Pair) { InFirst(c, Candidates(c), |c.corpus|, p) }

  /** What each gate says. */
  ghost predicate GatesMean(c: Campaign, extractions: bool, latest: map<Pair, Observation>, g: Gates) {
    && (g.coverage <==> c.corpus != [] && forall p :: IsRun(c, p) ==> p in latest)
    && (g.baselineProducedOutput <==> exists k :: 0 <= k < |c.corpus| && BaselineSealed(c, latest, k))
    && (g.noErrors <==> forall p :: IsRun(c, p) && p in latest ==> !Faulty(latest[p].status))
    && (g.recordsVerified <==>
         && (forall p :: IsRun(c, p) ==> RecordOkAt(c, extractions, latest, p))
         && (forall p, q :: IsRun(c, p) && IsRun(c, q) && SameRecord(c, latest, p, q) ==> Claimant(p) == Claimant(q)))
    && (g.candidatesAgree <==> forall p :: IsComparison(c, p) && Waivable(OutcomeAt(c, latest, p)) ==> Key(c, latest, p) in WaiverKeys(c))
    && (g.waiversUsed <==> forall k :: k in WaiverKeys(c) ==>
          Waivable(k.2) && IsComparison(c, (k.0, k.1)) && OutcomeAt(c, latest, (k.0, k.1)) == k.2)
  }

  predicate BaselineSealed(c: Campaign, latest: map<Pair, Observation>, k: int)
    requires 0 <= k < |c.corpus|
  {
    (c.corpus[k].path, c.baseline) in latest && latest[(c.corpus[k].path, c.baseline)].status == SealedRun
  }

  method ByPair(observations: seq<Observation>) returns (latest: map<Pair, Observation>)
    ensures latest == Latest(observations)
  {
    latest := map[];
    for i := 0 to |observations|
      invariant latest == Latest(observations[..i])
    {
      var o := observations[i];
      assert observations[..i + 1][..i] == observations[..i];
      latest := latest[(o.path, o.lane) := o];
    }
    assert observations[..|observations|] == observations;
  }

  method CountBaselineSealed(c: Campaign, latest: map<Pair, Observation>) returns (n: nat)
    ensures n > 0 <==> exists k :: 0 <= k < |c.corpus| && BaselineSealed(c, latest, k)
  {
    n := 0;
    for i := 0 to |c.corpus|
      invariant n > 0 <==> exists k :: 0 <= k < i && BaselineSealed(c, latest, k)
    {
      if BaselineSealed(c, latest, i) {
        n := n + 1;
      }
    }
  }

  function NoCounts(cands: seq<string>): map<string, multiset<Outcome>> { map n | n in cands :: multiset{} }

  lemma NothingYet(c: Campaign, extractions: bool, latest: map<Pair, Observation>)
    ensures Observed(c, extractions, latest, 0, map[], Tally(0, 0, 0))
    ensures ComparedTo(c, latest, 0, Verdicts({}, 0, NoCounts(Candidates(c))))
  {
    forall cand | cand in Candidates(c) ensures Outcomes(c, latest, cand, 0) == [] {}
  }

  /** The loop over the corpus. */
  method ReadCampaign(c: Campaign, extractions: bool, latest: map<Pair, Observation>)
    returns (t: Tally, v: Verdicts, claimed: map<string, string>)
    requires WellFormed(c) && Keyed(latest)
    ensures Observed(c, extractions, latest, |c.corpus|, claimed, t) && ComparedTo(c, latest, |c.corpus|, v)
  {
    var checker := new RecordChecker();
    t, v := Tally(0, 0, 0), Verdicts({}, 0, NoCounts(Candidates(c)));
    NothingYet(c, extractions, latest);
    for i := 0 to |c.corpus|
      invariant Observed(c, extractions, latest, i, checker.claimed, t)
      invariant ComparedTo(c, latest, i, v)
    {
      t := ObserveDocument(c, extractions, latest, checker, i, t);
      v := CompareDocument(c, latest, i, v);
    }
    claimed := checker.claimed;
  }

  /** build_report and _gates: every gate says exactly what it claims, and each
      candidate's outcomes are counted once a document. */
  method BuildReport(c: Campaign, observations: seq<Observation>, extractions: bool, corpusOk: bool, ledgerOk: bool, thresholds: bool)
    returns (r: Report)
    requires WellFormed(c)
    ensures GatesMean(c, extractions, Latest(observations), r.gates)
    ensures r.gates.corpusUnchanged == corpusOk && r.gates.ledgerVerified == ledgerOk && r.gates.thresholds == thresholds
    ensures r.passed <==> r.gates.Passed()
    ensures Counted(c, Latest(observations), r.counts, Candidates(c), |c.corpus|)
    ensures forall cand :: cand in Candidates(c) ==> cand in r.counts && |r.counts[cand]| == |c.corpus|
  {
    var latest := ByPair(observations);
    LatestIsKeyed(observations);
    var t, v, claimed := ReadCampaign(c, extractions, latest);
    var sealedByBaseline := CountBaselineSealed(c, latest);
    var unused := WaiverKeys(c) - v.used;
    var gates := Gates(corpusOk, t.missing == 0 && |c.corpus| > 0, sealedByBaseline > 0, t.errors == 0, t.integrity == 0,
                       ledgerOk, v.unwaived == 0, unused == {}, thresholds);
    GatesHold(c, extractions, latest, claimed, t, v, gates);
    return Report(gates, v.counts, gates.Passed());
  }

  lemma GatesHold(c: Campaign, extractions: bool, latest: map<Pair, Observation>, claimed: map<string, string>,
                  t: Tally, v: Verdicts, g: Gates)
    requires Observed(c, extractions, latest, |c.corpus|, claimed, t) && ComparedTo(c, latest, |c.corpus|, v)
    requires g.coverage == (t.missing == 0 && |c.corpus| > 0) && g.noErrors == (t.errors == 0) && g.recordsVerified == (t.integrity == 0)
    requires g.candidatesAgree == (v.unwaived == 0) && g.waiversUsed == (WaiverKeys(c) - v.used == {})
    requires g.baselineProducedOutput <==> exists k :: 0 <= k < |c.corpus| && BaselineSealed(c, latest, k)
    ensures GatesMean(c, extractions, latest, g)
  {
    assert forall p :: p in PairsOf(c, Names(c), |c.corpus|) <==> IsRun(c, p);
    assert forall p :: p in PairsOf(c, Candidates(c), |c.corpus|) <==> IsComparison(c, p);
    var unused := WaiverKeys(c) - v.used;
    if unused == {} {
      forall k | k in WaiverKeys(c) ensures k in v.used { assert k !in unused; }
    }
  }

  // ---- What a passing report proves --------------------------------------

  /** A sealed run of the campaign and the verified record it cites. */
  ghost predicate SealedWith(c: Campaign, latest: map<Pair, Observation>, p: Pair, id: string) {
    IsRun(c, p) && p in latest && latest[p].status == SealedRun && latest[p].recordId == Some(id)
  }

  /** Soundness of a passing report: full coverage, no comparison in error or incomplete,
      every finding waived, every sealed run backed by a live, verifying record of its
      lane's backend, parser, configuration and document. */
  lemma PassingMeans(c: Campaign, extractions: bool, latest: map<Pair, Observation>, g: Gates)
    requires WellFormed(c) && GatesMean(c, extractions, latest, g) && g.Passed()
    ensures forall p :: IsRun(c, p) ==> p in latest
    ensures forall p :: IsComparison(c, p) ==> OutcomeAt(c, latest, p) != OutcomeError && OutcomeAt(c, latest, p) != Incomplete
    ensures forall p :: IsComparison(c, p) && Waivable(OutcomeAt(c, latest, p)) ==> Key(c, latest, p) in WaiverKeys(c)
    ensures forall k :: k in WaiverKeys(c) ==> IsComparison(c, (k.0, k.1)) && OutcomeAt(c, latest, (k.0, k.1)) == k.2
    ensures forall p, id :: SealedWith(c, latest, p, id) ==> id in c.records && RecordOk(c, extractions, latest[p], ShaOf(c.corpus, p.0))
  {
    forall p | IsComparison(c, p) ensures OutcomeAt(c, latest, p) != OutcomeError && OutcomeAt(c, latest, p) != Incomplete {
      ComparedProperly(c, extractions, latest, g, p);
    }
    forall p, id | SealedWith(c, latest, p, id)
      ensures id in c.records && RecordOk(c, extractions, latest[p], ShaOf(c.corpus, p.0))
    {
      assert RecordOkAt(c, extractions, latest, p);
    }
  }

  lemma ComparedProperly(c: Campaign, extractions: bool, latest: map<Pair, Observation>, g: Gates, p: Pair)
    requires WellFormed(c) && GatesMean(c, extractions, latest, g) && g.Passed() && IsComparison(c, p)
    ensures OutcomeAt(c, latest, p) != OutcomeError && OutcomeAt(c, latest, p) != Incomplete
  {
    var k :| 0 <= k < |c.corpus| && c.corpus[k].path == p.0;
    var b := (p.0, c.baseline);
    assert IsRun(c, p) && IsRun(c, b);
    assert RecordOkAt(c, extractions, latest, p) && RecordOkAt(c, extractions, latest, b);
  }

  /** Two sealed runs of a passing report that cite one record have the same claimant text. */
  lemma OneRecordOneClaimant(c: Campaign, extractions: bool, latest: map<Pair, Observation>, g: Gates, p: Pair, q: Pair, id: string)
    requires WellFormed(c) && GatesMean(c, extractions, latest, g) && g.Passed()
    requires SealedWith(c, latest, p, id) && SealedWith(c, latest, q, id)
    ensures Claimant(p) == Claimant(q)
  {
    PassingMeans(c, extractions, latest, g);
    assert SameRecord(c, latest, p, q);
  }
}
