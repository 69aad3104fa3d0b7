/**
 The JSON tolerance policy of replay (stele/replay/policy.py). Numbers are exact:
 a finite float is a real, and the rounding of floating-point arithmetic is not modelled.
 */
module Policy {
  import opened Seqs
  import opened Wrappers

  datatype Float = NaN | PosInf | NegInf | Finite(r: real)

  datatype Value =
    | Null
    | Bool(b: bool)
    | Int(n: int)
    | Number(f: Float)
    | Str(s: string)
    | Arr(items: seq<Value>)
    | Obj(members: map<string, Value>)

  datatype Tolerance = Tolerance(rel: real, abs: real)

  datatype JsonPolicy = JsonPolicy(default: Tolerance, ignoreKeys: set<string>, keyTolerances: map<string, Tolerance>)

  // ---- math.isclose ------------------------------------------------------

  function AsFloat(v: Value): Float
    requires v.Int? || v.Number?
  {
    if v.Int? then Finite(v.n as real) else v.f
  }

  function Abs(r: real): real { if r < 0.0 then -r else r }

  predicate IsClose(a: Float, b: Float, tol: Tolerance) {
    if a == b && a != NaN then true
    else if a.Finite? && b.Finite? then
      var diff := Abs(b.r - a.r);
      diff <= Abs(tol.rel * b.r) || diff <= Abs(tol.rel * a.r) || diff <= tol.abs
    else false
  }

  // ---- The relation ------------------------------------------------------

  predicate IsNumber(v: Value) { v.Int? || v.Number? }

  function Inner(p: JsonPolicy, key: string, tol: Tolerance): Tolerance {
    if key in p.keyTolerances then p.keyTolerances[key] else tol
  }

  function Compared(p: JsonPolicy, v: Value): set<string>
    requires v.Obj?
  {
    set k | k in v.members && k !in p.ignoreKeys
  }

  /** Same keys but for the ignored ones, same lengths, floats within the tolerance of
      the nearest enclosing keyed rule, everything else equal. */
  predicate Agrees(p: JsonPolicy, tol: Tolerance, a: Value, b: Value)
    decreases a
  {
    if a.Obj? && b.Obj? then
      && Compared(p, a) == Compared(p, b)
      && forall k | k in Compared(p, a) && k in b.members :: Agrees(p, Inner(p, k, tol), a.members[k], b.members[k])
    else if a.Arr? && b.Arr? then
      |a.items| == |b.items| && forall i | 0 <= i < |a.items| && i < |b.items| :: Agrees(p, tol, a.items[i], b.items[i])
    else if IsNumber(a) && IsNumber(b) && (a.Number? || b.Number?) then IsClose(AsFloat(a), AsFloat(b), tol)
    else a == b
  }

  // ---- The walk ----------------------------------------------------------

  datatype What = OneSide(key: string) | Length(left: nat, right: nat) | BeyondTolerance(tol: Tolerance) | Differs | NotJson | BytesDiffer | Missing | Extra
  datatype Finding = Finding(what: What, at: string)

  /** _walk: appends a finding exactly when the values do not agree. */
  method Walk(p: JsonPolicy, a: Value, b: Value, at: string, tol: Tolerance, findings: seq<Finding>) returns (r: seq<Finding>)
    ensures findings <= r && (r == findings <==> Agrees(p, tol, a, b))
    decreases a, 2
  {
    r := findings;
    if a.Obj? && b.Obj? {
      r := WalkKeys(p, a, b, at, tol, findings);
    } else if a.Arr? && b.Arr? {
      if |a.items| != |b.items| {
        r := r + [Finding(Length(|a.items|, |b.items|), at)];
        return;
      }
      for i := 0 to |a.items|
        invariant findings <= r
        invariant r == findings <==> forall j :: 0 <= j < i ==> Agrees(p, tol, a.items[j], b.items[j])
      {
        r := Walk(p, a.items[i], b.items[i], at + "[]", tol, r);
      }
    } else if IsNumber(a) && IsNumber(b) && (a.Number? || b.Number?) {
      if !IsClose(AsFloat(a), AsFloat(b), tol) {
        r := r + [Finding(BeyondTolerance(tol), at)];
      }
    } else if a != b {
      r := r + [Finding(Differs, at)];
    }
  }

  /** Both values are objects: keys on one side only, then the shared keys, in order. */
  method WalkKeys(p: JsonPolicy, a: Value, b: Value, at: string, tol: Tolerance, findings: seq<Finding>) returns (r: seq<Finding>)
    requires a.Obj? && b.Obj?
    ensures findings <= r && (r == findings <==> Agrees(p, tol, a, b))
    decreases a, 1
  {
    var left, right := Compared(p, a), Compared(p, b);
    var odd := SortKeys((left - right) + (right - left));
    OddKeys(left, right, odd);
    r := OneSided(odd, at, findings);
    var both := SortKeys(left * right);
    SharedKeys(p, tol, a, b, both);
    r := WalkShared(p, a, b, at, tol, both, r);
  }

  method OneSided(odd: seq<string>, at: string, findings: seq<Finding>) returns (r: seq<Finding>)
    ensures findings <= r && |r| == |findings| + |odd|
  {
    r := findings;
    for i := 0 to |odd|
      invariant findings <= r && |r| == |findings| + i
    {
      r := r + [Finding(OneSide(odd[i]), at)];
    }
  }

  /** The keys both objects are compared on, in order. */
  method WalkShared(p: JsonPolicy, a: Value, b: Value, at: string, tol: Tolerance, both: seq<string>, findings: seq<Finding>)
    returns (r: seq<Finding>)
    requires a.Obj? && b.Obj? && forall j :: 0 <= j < |both| ==> both[j] in a.members && both[j] in b.members
    ensures findings <= r
    ensures r == findings <==> forall j :: 0 <= j < |both| ==> AgreesAt(p, tol, a, b, both[j])
    decreases a, 0
  {
    r := findings;
    for i := 0 to |both|
      invariant findings <= r
      invariant r == findings <==> forall j :: 0 <= j < i ==> AgreesAt(p, tol, a, b, both[j])
    {
      var key := both[i];
      r := Walk(p, a.members[key], b.members[key], at + "/" + key, Inner(p, key, tol), r);
    }
  }

  predicate AgreesAt(p: JsonPolicy, tol: Tolerance, a: Value, b: Value, key: string)
    requires a.Obj? && b.Obj?
  {
    key in a.members && key in b.members && Agrees(p, Inner(p, key, tol), a.members[key], b.members[key])
  }

  lemma OddKeys(left: set<string>, right: set<string>, odd: seq<string>)
    requires odd == Sorted((left - right) + (right - left))
    ensures odd == [] <==> left == right
  {
    if odd == [] {
      forall k ensures k in left <==> k in right { assert k in odd <==> k in (left - right) + (right - left); }
    } else {
      assert odd[0] in odd;
    }
  }

  lemma SharedKeys(p: JsonPolicy, tol: Tolerance, a: Value, b: Value, both: seq<string>)
    requires a.Obj? && b.Obj? && both == Sorted(Compared(p, a) * Compared(p, b))
    ensures forall j :: 0 <= j < |both| ==> both[j] in a.members && both[j] in b.members
    ensures Compared(p, a) == Compared(p, b) ==>
      ((forall j :: 0 <= j < |both| ==> AgreesAt(p, tol, a, b, both[j])) <==> Agrees(p, tol, a, b))
  {
    forall j | 0 <= j < |both| ensures both[j] in Compared(p, a) && both[j] in Compared(p, b) { assert both[j] in both; }
    if Compared(p, a) == Compared(p, b) {
      if Agrees(p, tol, a, b) {
        forall j | 0 <= j < |both| ensures AgreesAt(p, tol, a, b, both[j]) { assert both[j] in both; }
      }
      if forall j :: 0 <= j < |both| ==> AgreesAt(p, tol, a, b, both[j]) {
        forall k | k in Compared(p, a) && k in b.members ensures Agrees(p, Inner(p, k, tol), a.members[k], b.members[k]) {
          assert k in both;
          var j :| 0 <= j < |both| && both[j] == k;
          assert AgreesAt(p, tol, a, b, both[j]);
        }
      }
    }
  }

  // ---- Symmetric and reflexive -------------------------------------------

  lemma {:induction false} AgreesIsSymmetric(p: JsonPolicy, tol: Tolerance, a: Value, b: Value)
    ensures Agrees(p, tol, a, b) <==> Agrees(p, tol, b, a)
    decreases a
  {
    if a.Obj? && b.Obj? {
      if Compared(p, a) == Compared(p, b) {
        forall k | k in Compared(p, a)
          ensures Agrees(p, Inner(p, k, tol), a.members[k], b.members[k]) <==> Agrees(p, Inner(p, k, tol), b.members[k], a.members[k])
        {
          AgreesIsSymmetric(p, Inner(p, k, tol), a.members[k], b.members[k]);
        }
      }
    } else if a.Arr? && b.Arr? {
      if |a.items| == |b.items| {
        forall i | 0 <= i < |a.items|
          ensures Agrees(p, tol, a.items[i], b.items[i]) <==> Agrees(p, tol, b.items[i], a.items[i])
        {
          AgreesIsSymmetric(p, tol, a.items[i], b.items[i]);
        }
      }
    }
  }

  /** No NaN outside ignored keys. */
  predicate NoNaN(p: JsonPolicy, v: Value)
    decreases v
  {
    match v
    case Obj(members) => forall k | k in members && k !in p.ignoreKeys :: NoNaN(p, members[k])
    case Arr(items) => forall i | 0 <= i < |items| :: NoNaN(p, items[i])
    case Number(f) => f != NaN
    case _ => true
  }

  /** A value agrees with itself exactly when it holds no NaN that is compared. */
  lemma {:induction false} AgreesWithItself(p: JsonPolicy, tol: Tolerance, v: Value)
    ensures Agrees(p, tol, v, v) <==> NoNaN(p, v)
    decreases v
  {
    if v.Obj? {
      forall k | k in Compared(p, v)
        ensures Agrees(p, Inner(p, k, tol), v.members[k], v.members[k]) <==> NoNaN(p, v.members[k])
      {
        AgreesWithItself(p, Inner(p, k, tol), v.members[k]);
      }
      assert forall k :: k in v.members && k !in p.ignoreKeys <==> k in Compared(p, v);
    } else if v.Arr? {
      forall i | 0 <= i < |v.items| ensures Agrees(p, tol, v.items[i], v.items[i]) <==> NoNaN(p, v.items[i]) {
        AgreesWithItself(p, tol, v.items[i]);
      }
    }
  }

  // ---- Whole bundles -----------------------------------------------------

  /** What a stored file parses to, by path and digest: a document, or for .jsonl the
      array of its lines. */
  type Loader = (string, string) -> Option<Value>

  predicate EndsWith(s: string, t: string) { |t| <= |s| && s[|s| - |t|..] == t }

  predicate IsJson(path: string) { EndsWith(path, ".json") || EndsWith(path, ".jsonl") }

  predicate FilesAgree(p: JsonPolicy, load: Loader, path: string, a: string, b: string) {
    a == b
    || (IsJson(path) && load(path, a).Some? && load(path, b).Some?
        && Agrees(p, p.default, load(path, a).value, load(path, b).value))
  }

  ghost predicate Accepts(p: JsonPolicy, load: Loader, recorded: map<string, string>, replayed: map<string, string>) {
    && recorded.Keys == replayed.Keys
    && forall path :: path in recorded && path in replayed ==> FilesAgree(p, load, path, recorded[path], replayed[path])
  }

  lemma VerdictIsSymmetric(p: JsonPolicy, load: Loader, recorded: map<string, string>, replayed: map<string, string>)
    ensures Accepts(p, load, recorded, replayed) <==> Accepts(p, load, replayed, recorded)
  {
    forall path | path in recorded && path in replayed
      ensures FilesAgree(p, load, path, recorded[path], replayed[path]) <==> FilesAgree(p, load, path, replayed[path], recorded[path])
    {
      var a, b := load(path, recorded[path]), load(path, replayed[path]);
      if a.Some? && b.Some? { AgreesIsSymmetric(p, p.default, a.value, b.value); }
    }
  }

  method CompareFile(p: JsonPolicy, load: Loader, path: string, a: string, b: string, findings: seq<Finding>) returns (r: seq<Finding>)
    ensures findings <= r && (r == findings <==> FilesAgree(p, load, path, a, b))
  {
    r := findings;
    if a == b {
      return;
    }
    if !IsJson(path) {
      r := r + [Finding(BytesDiffer, path)];
      return;
    }
    var left, right := load(path, a), load(path, b);
    if left.None? || right.None? {
      r := r + [Finding(NotJson, path)];
      return;
    }
    r := Walk(p, left.value, right.value, path, p.default, r);
  }

  /** compare: accepted exactly when both runs made the same files and each agrees. */
  method Compare(p: JsonPolicy, load: Loader, recorded: map<string, string>, replayed: map<string, string>)
    returns (accepted: bool, findings: seq<Finding>)
    ensures accepted <==> Accepts(p, load, recorded, replayed)
    ensures accepted <==> findings == []
  {
    var missing := SortKeys(recorded.Keys - replayed.Keys);
    var extra := SortKeys(replayed.Keys - recorded.Keys);
    findings := AddEach([], missing, Missing);
    findings := AddEach(findings, extra, Extra);
    SameKeys(recorded.Keys, replayed.Keys, missing, extra);
    var both := SortKeys(recorded.Keys * replayed.Keys);
    SharedFiles(p, load, recorded, replayed, both);
    findings := CompareShared(p, load, recorded, replayed, both, findings);
    accepted := findings == [];
  }

  /** One finding for each path on one side only. */
  method AddEach(findings: seq<Finding>, paths: seq<string>, what: What) returns (r: seq<Finding>)
    ensures |r| == |findings| + |paths|
  {
    r := findings;
    for i := 0 to |paths|
      invariant |r| == |findings| + i
    {
      r := r + [Finding(what, paths[i])];
    }
  }

  ghost predicate AgreeOn(p: JsonPolicy, load: Loader, recorded: map<string, string>, replayed: map<string, string>, path: string) {
    path in recorded && path in replayed && FilesAgree(p, load, path, recorded[path], replayed[path])
  }

  /** The files both runs made, in order. */
  method CompareShared(p: JsonPolicy, load: Loader, recorded: map<string, string>, replayed: map<string, string>,
                       both: seq<string>, findings: seq<Finding>)
    returns (r: seq<Finding>)
    requires forall j :: 0 <= j < |both| ==> both[j] in recorded && both[j] in replayed
    ensures findings <= r
    ensures r == findings <==> forall j :: 0 <= j < |both| ==> AgreeOn(p, load, recorded, replayed, both[j])
  {
    r := findings;
    for i := 0 to |both|
      invariant findings <= r
      invariant r == findings <==> forall j :: 0 <= j < i ==> AgreeOn(p, load, recorded, replayed, both[j])
    {
      var path := both[i];
      r := CompareFile(p, load, path, recorded[path], replayed[path], r);
    }
  }

  lemma SameKeys(left: set<string>, right: set<string>, missing: seq<string>, extra: seq<string>)
    requires missing == Sorted(left - right) && extra == Sorted(right - left)
    ensures missing == [] && extra == [] <==> left == right
  {
    if missing == [] && extra == [] {
      forall k ensures k in left <==> k in right {
        assert k in missing <==> k in left - right;
        assert k in extra <==> k in right - left;
      }
    }
    if missing != [] { assert missing[0] in missing; }
    if extra != [] { assert extra[0] in extra; }
  }

  lemma SharedFiles(p: JsonPolicy, load: Loader, recorded: map<string, string>, replayed: map<string, string>, both: seq<string>)
    requires both == Sorted(recorded.Keys * replayed.Keys)
    ensures forall j :: 0 <= j < |both| ==> both[j] in recorded && both[j] in replayed
    ensures recorded.Keys == replayed.Keys ==>
      ((forall j :: 0 <= j < |both| ==> AgreeOn(p, load, recorded, replayed, both[j])) <==> Accepts(p, load, recorded, replayed))
  {
    forall j | 0 <= j < |both| ensures both[j] in recorded && both[j] in replayed { assert both[j] in both; }
    if forall j :: 0 <= j < |both| ==> AgreeOn(p, load, recorded, replayed, both[j]) {
      forall path | path in recorded && path in replayed ensures FilesAgree(p, load, path, recorded[path], replayed[path]) {
        assert path in both;
        var j :| 0 <= j < |both| && both[j] == path;
        assert AgreeOn(p, load, recorded, replayed, both[j]);
      }
    }
  }
}
