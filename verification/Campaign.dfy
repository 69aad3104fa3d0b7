/**
 A campaign over any number of runs (stele/verification/campaign.py): each run opens
 the journal, observes what is pending in order, and may stop or crash anywhere, also
 inside an append or inside the opening of the journal.
 */
module Campaign {
  import opened Journal

  datatype Plan = Plan(codec: Codec, header: Header, corpus: seq<string>, lanes: seq<string>)

  ghost predicate GoodPlan(plan: Plan) { GoodCodec(plan.codec) && Distinct(plan.corpus) && Distinct(plan.lanes) }

  /** The journal on disk; and, while a process has it open, the observations it holds
      in memory and the pairs its run has yet to observe. */
  datatype Session = Session(disk: Disk, seen: seq<Observation>, todo: seq<(string, string)>)

  datatype RunEvent =
    | Begin                                   // open the journal and start a run
    | Again                                   // another run on the journal already open
    | Observe(o: Observation)                 // the next pending pair's observation, appended
    | CrashInObserve(o: Observation, n: nat)  // n bytes of its line reached the file
    | CrashInBegin(truncated: bool, n: nat)
    | Stop                                    // a crash elsewhere, a limit, or the end

  function DoneOf(os: seq<Observation>): set<(string, string)> { set i | 0 <= i < |os| :: Pair(os[i]) }

  function PendingAfter(plan: Plan, os: seq<Observation>): seq<(string, string)> {
    Pending(plan.corpus, plan.lanes, DoneOf(os))
  }

  function Advance(plan: Plan, s: Session, e: RunEvent): Session {
    var c, h := plan.codec, plan.header;
    match e
    case Begin =>
      if s.disk.live || Opened(c, h, s.disk.data).Err? then s
      else
        var seen := Opened(c, h, s.disk.data).value.1;
        Session(Happen(c, h, s.disk, Open), seen, PendingAfter(plan, seen))
    case Again => if s.disk.live then s.(todo := PendingAfter(plan, s.seen)) else s
    case Observe(o) =>
      if s.disk.live && s.todo != [] && s.todo[0] == Pair(o)
      then Session(Happen(c, h, s.disk, Append(o)), s.seen + [o], s.todo[1..]) else s
    case CrashInObserve(o, n) =>
      if s.disk.live && s.todo != [] && s.todo[0] == Pair(o)
      then s.(disk := Happen(c, h, s.disk, CrashInAppend(o, n))) else s
    case CrashInBegin(truncated, n) => s.(disk := Happen(c, h, s.disk, CrashInOpen(truncated, n)))
    case Stop => s.(disk := Happen(c, h, s.disk, Crash))
  }

  function Campaigned(plan: Plan, es: seq<RunEvent>): Session {
    if es == [] then Session(Disk([], false, []), [], [])
    else Advance(plan, Campaigned(plan, es[..|es| - 1]), es[|es| - 1])
  }

  // ---- The invariant -----------------------------------------------------

  /** Still to observe: distinct pairs of the campaign that the journal does not hold. */
  ghost predicate FreshPairs(plan: Plan, os: seq<Observation>, todo: seq<(string, string)>) {
    && (forall i, j :: 0 <= i < j < |todo| ==> todo[i] != todo[j])
    && (forall i :: 0 <= i < |todo| ==> todo[i].0 in plan.corpus && todo[i].1 in plan.lanes && todo[i] !in DoneOf(os))
  }

  ghost predicate SessionOk(plan: Plan, s: Session) {
    && DiskOk(plan.codec, plan.header, s.disk)
    && OncePerPair(plan.corpus, plan.lanes, s.disk.written)
    && (s.disk.live ==> s.seen == s.disk.written && FreshPairs(plan, s.seen, s.todo))
  }

  lemma PendingIsFresh(plan: Plan, os: seq<Observation>)
    requires GoodPlan(plan)
    ensures FreshPairs(plan, os, PendingAfter(plan, os))
  {
    PendingMeaning(plan.corpus, plan.lanes, DoneOf(os));
    var todo := PendingAfter(plan, os);
    forall i | 0 <= i < |todo| ensures todo[i].0 in plan.corpus && todo[i].1 in plan.lanes && todo[i] !in DoneOf(os) {
      assert todo[i] in todo;
    }
  }

  /** Recording the first pending pair keeps the journal free of repeats. */
  lemma OneMorePair(plan: Plan, os: seq<Observation>, todo: seq<(string, string)>, o: Observation)
    requires OncePerPair(plan.corpus, plan.lanes, os) && FreshPairs(plan, os, todo) && todo != [] && todo[0] == Pair(o)
    ensures OncePerPair(plan.corpus, plan.lanes, os + [o]) && FreshPairs(plan, os + [o], todo[1..])
  {
    var all := os + [o];
    assert DoneOf(all) == DoneOf(os) + {Pair(o)} by { DoneGrows(os, o); }
    forall i, j | 0 <= i < j < |all| ensures Pair(all[i]) != Pair(all[j]) {
      if j == |os| { assert Pair(os[i]) in DoneOf(os); }
    }
  }

  lemma DoneGrows(os: seq<Observation>, o: Observation)
    ensures DoneOf(os + [o]) == DoneOf(os) + {Pair(o)}
  {
    var all := os + [o];
    forall p ensures p in DoneOf(all) <==> p in DoneOf(os) + {Pair(o)} {
      if p in DoneOf(os) {
        var i :| 0 <= i < |os| && Pair(os[i]) == p;
        assert all[i] == os[i];
      }
      if p == Pair(o) { assert all[|os|] == o; }
    }
  }

  lemma AdvanceKeeps(plan: Plan, s: Session, e: RunEvent)
    requires GoodPlan(plan) && SessionOk(plan, s)
    ensures SessionOk(plan, Advance(plan, s, e))
  {
    var c, h := plan.codec, plan.header;
    match e
    case Begin =>
      HappenKeeps(c, h, s.disk, Open);
      OpeningRecovers(c, h, s.disk.written, s.disk.data);
      PendingIsFresh(plan, s.disk.written);
    case Again => PendingIsFresh(plan, s.seen);
    case Observe(o) =>
      HappenKeeps(c, h, s.disk, Append(o));
      if s.disk.live && s.todo != [] && s.todo[0] == Pair(o) { OneMorePair(plan, s.seen, s.todo, o); }
    case CrashInObserve(o, n) =>
      HappenKeeps(c, h, s.disk, CrashInAppend(o, n));
      if s.disk.live && s.todo != [] && s.todo[0] == Pair(o) { OneMorePair(plan, s.seen, s.todo, o); }
    case CrashInBegin(truncated, n) => HappenKeeps(c, h, s.disk, CrashInOpen(truncated, n));
    case Stop => HappenKeeps(c, h, s.disk, Crash);
  }

  lemma {:induction false} CampaignsAreOk(plan: Plan, es: seq<RunEvent>)
    requires GoodPlan(plan)
    ensures SessionOk(plan, Campaigned(plan, es))
  {
    if es == [] {
      assert Holds(plan.codec, plan.header, [], []);
    } else {
      CampaignsAreOk(plan, es[..|es| - 1]);
      AdvanceKeeps(plan, Campaigned(plan, es[..|es| - 1]), es[|es| - 1]);
    }
  }

  // ---- Theorems ----------------------------------------------------------

  ghost predicate RecordedOnce(os: seq<Observation>, p: (string, string)) {
    exists k :: 0 <= k < |os| && Pair(os[k]) == p && forall j :: 0 <= j < |os| && Pair(os[j]) == p ==> j == k
  }

  /** After any runs, stops and crashes, no pair was recorded twice and only pairs of the
      campaign were; and the next opening reads exactly what was recorded. */
  lemma NoPairTwice(plan: Plan, es: seq<RunEvent>)
    requires GoodPlan(plan)
    ensures OncePerPair(plan.corpus, plan.lanes, Campaigned(plan, es).disk.written)
    ensures Opened(plan.codec, plan.header, Campaigned(plan, es).disk.data).Ok?
    ensures Opened(plan.codec, plan.header, Campaigned(plan, es).disk.data).value.1 == Campaigned(plan, es).disk.written
  {
    CampaignsAreOk(plan, es);
    OpeningRecovers(plan.codec, plan.header, Campaigned(plan, es).disk.written, Campaigned(plan, es).disk.data);
  }

  ghost predicate AllRecorded(plan: Plan, os: seq<Observation>) {
    forall path, lane :: path in plan.corpus && lane in plan.lanes ==> RecordedOnce(os, (path, lane))
  }

  lemma PendingNone(plan: Plan, os: seq<Observation>)
    requires GoodPlan(plan) && OncePerPair(plan.corpus, plan.lanes, os)
    ensures PendingAfter(plan, os) == [] <==> AllRecorded(plan, os)
  {
    PendingMeaning(plan.corpus, plan.lanes, DoneOf(os));
    var todo := PendingAfter(plan, os);
    if todo == [] {
      forall path, lane | path in plan.corpus && lane in plan.lanes ensures RecordedOnce(os, (path, lane)) {
        assert (path, lane) !in todo;
        var k :| 0 <= k < |os| && Pair(os[k]) == (path, lane);
      }
    } else {
      assert todo[0] in todo;
      assert !RecordedOnce(os, (todo[0].0, todo[0].1));
    }
  }

  /** Nothing is pending exactly when every document and lane has been recorded, once. */
  lemma NothingPendingIff(plan: Plan, es: seq<RunEvent>)
    requires GoodPlan(plan)
    ensures var written := Campaigned(plan, es).disk.written;
      PendingAfter(plan, written) == [] <==> AllRecorded(plan, written)
  {
    CampaignsAreOk(plan, es);
    PendingNone(plan, Campaigned(plan, es).disk.written);
  }

  // ---- One more run always finishes --------------------------------------

  function Continued(plan: Plan, s: Session, es: seq<RunEvent>): Session
    decreases |es|
  {
    if es == [] then s else Continued(plan, Advance(plan, s, es[0]), es[1..])
  }

  lemma {:induction false} ContinuedRuns(plan: Plan, es: seq<RunEvent>, more: seq<RunEvent>)
    ensures Campaigned(plan, es + more) == Continued(plan, Campaigned(plan, es), more)
    decreases |more|
  {
    if more == [] {
      assert es + more == es;
    } else {
      assert (es + [more[0]])[..|es|] == es;
      assert es + more == (es + [more[0]]) + more[1..];
      ContinuedRuns(plan, es + [more[0]], more[1..]);
    }
  }

  /** The rest of the run that is under way, observing with `observe`. */
  function Rest(todo: seq<(string, string)>, observe: (string, string) -> Observation): seq<RunEvent> {
    if todo == [] then [] else [Observe(observe(todo[0].0, todo[0].1))] + Rest(todo[1..], observe)
  }

  lemma {:induction false} RestEmpties(plan: Plan, s: Session, observe: (string, string) -> Observation)
    requires s.disk.live && forall path, lane :: Pair(observe(path, lane)) == (path, lane)
    ensures var t := Continued(plan, s, Rest(s.todo, observe));
      t.disk.live && t.todo == [] && DoneOf(t.seen) == DoneOf(s.seen) + set p | p in s.todo
    decreases |s.todo|
  {
    if s.todo != [] {
      var e := Observe(observe(s.todo[0].0, s.todo[0].1));
      DoneGrows(s.seen, e.o);
      RestEmpties(plan, Advance(plan, s, e), observe);
      assert s.todo == [s.todo[0]] + s.todo[1..];
      assert Rest(s.todo, observe)[1..] == Rest(s.todo[1..], observe);
    }
  }

  /** Stopping and beginning again puts every pair not recorded on the list. */
  lemma BegunAgain(plan: Plan, es: seq<RunEvent>)
    requires GoodPlan(plan)
    ensures var s := Campaigned(plan, es + [Stop, Begin]);
      s.disk.live && s.todo == PendingAfter(plan, s.seen)
  {
    CampaignsAreOk(plan, es + [Stop]);
    var begun := es + [Stop, Begin];
    assert begun[..|begun| - 1] == es + [Stop] && (es + [Stop])[..|es|] == es;
    var stopped := Campaigned(plan, es + [Stop]);
    OpeningRecovers(plan.codec, plan.header, stopped.disk.written, stopped.disk.data);
  }

  lemma HasMember(ps: seq<(string, string)>)
    requires ps != []
    ensures exists p :: p in ps
  {
    assert ps[0] in ps;
  }

  lemma NothingLeft(plan: Plan, before: seq<Observation>, after: seq<Observation>)
    requires GoodPlan(plan) && DoneOf(after) == DoneOf(before) + set p | p in PendingAfter(plan, before)
    ensures PendingAfter(plan, after) == []
  {
    PendingMeaning(plan.corpus, plan.lanes, DoneOf(before));
    PendingMeaning(plan.corpus, plan.lanes, DoneOf(after));
    var left := PendingAfter(plan, after);
    if left != [] { HasMember(left); }
  }

  /** From any history, one more run that is not interrupted records everything there is. */
  lemma OneMoreRunFinishes(plan: Plan, es: seq<RunEvent>, observe: (string, string) -> Observation)
    requires GoodPlan(plan) && forall path, lane :: Pair(observe(path, lane)) == (path, lane)
    ensures var begun := es + [Stop, Begin];
      AllRecorded(plan, Campaigned(plan, begun + Rest(Campaigned(plan, begun).todo, observe)).disk.written)
  {
    var begun := es + [Stop, Begin];
    var s := Campaigned(plan, begun);
    var all := begun + Rest(s.todo, observe);
    BegunAgain(plan, es);
    RestEmpties(plan, s, observe);
    ContinuedRuns(plan, begun, Rest(s.todo, observe));
    CampaignsAreOk(plan, all);
    NothingLeft(plan, s.seen, Campaigned(plan, all).seen);
    NothingPendingIff(plan, all);
  }
}
