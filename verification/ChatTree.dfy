/**
 The walk over one exported conversation (stele/adapters/chatgpt.py). A
 conversation is a mapping of nodes with parent and child links that may be
 inconsistent; the walk follows child links from the roots with an explicit
 stack. A message's rendered text is part of the node.
 */
module ChatTree {
  import opened Wrappers

  /** A node's children field; an item is None when it is not a string. */
  datatype Children = Absent | NotList | Listed(items: seq<Option<string>>)

  datatype Node = NotObject | Node(parent: Option<string>, children: Children, text: string)

  /** A JSON object of nodes: its keys in export order. */
  datatype Mapping = Mapping(order: seq<string>, nodes: map<string, Node>)

  /** current_node is None when null, Some(None) when it is not a string. */
  datatype Conversation = Conversation(mapping: MappingField, current: Option<Option<string>>)
  datatype MappingField = NoMapping | NotAnObject | Object(m: Mapping)

  datatype TreeError =
    | MappingNotObject
    | ChildrenNotList
    | NoCurrentNode
    | ReachedTwice(id: string)
    | Unreachable(count: nat)

  datatype TreeChunk = TreeChunk(
    nodeId: string, text: string, parentNodeId: Option<string>, depth: nat, siblingIndex: nat, siblingCount: nat,
    childCount: nat, isLeaf: bool, onCurrentBranch: bool, nodeCount: nat, branchCount: nat)

  /** What every parsed JSON object satisfies. */
  ghost predicate IsDict(m: Mapping) {
    && (forall i, j :: 0 <= i < j < |m.order| ==> m.order[i] != m.order[j])
    && (forall id :: id in m.order <==> id in m.nodes)
  }

  predicate InMapping(m: Mapping, id: Option<string>) { id.Some? && id.value in m.nodes }

  function Present(m: Mapping, items: seq<Option<string>>): (ids: seq<string>)
    ensures forall i :: 0 <= i < |ids| ==> ids[i] in m.nodes
  {
    if items == [] then []
    else if InMapping(m, items[0]) then [items[0].value] + Present(m, items[1..])
    else Present(m, items[1..])
  }

  function Kids(m: Mapping, id: string): (ids: seq<string>)
    ensures forall i :: 0 <= i < |ids| ==> ids[i] in m.nodes
  {
    if id in m.nodes && m.nodes[id].Node? && m.nodes[id].children.Listed? then Present(m, m.nodes[id].children.items) else []
  }

  predicate IsRoot(m: Mapping, id: string)
    requires id in m.nodes
  {
    m.nodes[id].NotObject? || !InMapping(m, m.nodes[id].parent)
  }

  function RootsAmong(m: Mapping, ids: seq<string>): (roots: seq<string>)
    ensures forall i :: 0 <= i < |roots| ==> roots[i] in m.nodes && IsRoot(m, roots[i])
  {
    if ids == [] then []
    else if ids[0] in m.nodes && IsRoot(m, ids[0]) then [ids[0]] + RootsAmong(m, ids[1..])
    else RootsAmong(m, ids[1..])
  }

  /** In export order; the source sorts them by that order once more. */
  function Roots(m: Mapping): seq<string> { RootsAmong(m, m.order) }

  function TextOf(m: Mapping, id: string): string {
    if id in m.nodes && m.nodes[id].Node? then m.nodes[id].text else ""
  }

  function SiblingCount(m: Mapping, id: string): nat {
    if id in m.nodes && m.nodes[id].Node? && InMapping(m, m.nodes[id].parent) && m.nodes[m.nodes[id].parent.value].Node?
    then |Kids(m, m.nodes[id].parent.value)| else 1
  }

  function Leaves(m: Mapping): set<string> { set id | id in m.nodes && Kids(m, id) == [] }

  // ---- Child paths -------------------------------------------------------

  /** A child path: the index of a root, then of a child of each node in turn. */
  type Path = seq<nat>

  /** The node a child path leads to, if it leads to one. */
  function NodeAt(m: Mapping, p: Path): (id: Option<string>)
    ensures id.Some? ==> id.value in m.nodes
  {
    if p == [] then None
    else if |p| == 1 then
      if p[0] < |Roots(m)| then Some(Roots(m)[p[0]]) else None
    else
      var up := NodeAt(m, p[..|p| - 1]);
      if up.Some? && p[|p| - 1] < |Kids(m, up.value)| then Some(Kids(m, up.value)[p[|p| - 1]]) else None
  }

  predicate Leads(m: Mapping, p: Path) { NodeAt(m, p).Some? }

  /** Every node is reached by exactly one child path. */
  ghost predicate ReachedOnce(m: Mapping) {
    && (forall id :: id in m.nodes ==> exists p :: NodeAt(m, p) == Some(id))
    && (forall p, q :: Leads(m, p) && NodeAt(m, p) == NodeAt(m, q) ==> p == q)
  }

  predicate Prefix(p: Path, q: Path) { |p| <= |q| && q[..|p|] == p }

  /** p turns off to the left of q. */
  ghost predicate LeftOf(p: Path, q: Path) {
    exists k :: 0 <= k < |p| && k < |q| && p[..k] == q[..k] && p[k] < q[k]
  }

  /** Preorder: an ancestor before its descendants, siblings in order. */
  ghost predicate Before(p: Path, q: Path) { (Prefix(p, q) && p != q) || LeftOf(p, q) }

  ghost predicate Ordered(ps: seq<Path>) { forall i, j :: 0 <= i < j < |ps| ==> Before(ps[i], ps[j]) }

  /** ps lists every child path that leads to a node, in preorder. */
  ghost predicate IsPreorder(m: Mapping, ps: seq<Path>) {
    Ordered(ps) && forall p :: p in ps <==> Leads(m, p)
  }

  predicate HasText(m: Mapping, p: Path) { Leads(m, p) && TextOf(m, NodeAt(m, p).value) != "" }

  /** The nearest node above p's that produced a chunk. */
  function ChunkParent(m: Mapping, p: Path): Option<string>
    requires Leads(m, p)
  {
    if |p| <= 1 then None
    else
      var up := p[..|p| - 1];
      if TextOf(m, NodeAt(m, up).value) != "" then NodeAt(m, up) else ChunkParent(m, up)
  }

  function ChunkFor(m: Mapping, branch: set<string>, p: Path): TreeChunk
    requires Leads(m, p)
  {
    var id := NodeAt(m, p).value;
    assert p != [];
    TreeChunk(id, TextOf(m, id), ChunkParent(m, p), |p| - 1, p[|p| - 1], SiblingCount(m, id),
              |Kids(m, id)|, Kids(m, id) == [], id in branch, |m.nodes|, |Leaves(m)|)
  }

  /** One chunk for each path whose node has text. */
  function ChunksAlong(m: Mapping, branch: set<string>, ps: seq<Path>): seq<TreeChunk>
    requires forall i :: 0 <= i < |ps| ==> Leads(m, ps[i])
  {
    if ps == [] then []
    else
      var p := ps[|ps| - 1];
      var front := ChunksAlong(m, branch, ps[..|ps| - 1]);
      if HasText(m, p) then front + [ChunkFor(m, branch, p)] else front
  }

  // ---- Facts about paths -------------------------------------------------

  lemma {:induction false} PrefixLeads(m: Mapping, p: Path, q: Path)
    requires Leads(m, q) && Prefix(p, q) && p != []
    ensures Leads(m, p)
    decreases |q|
  {
    if |p| == |q| {
      assert p == q;
    } else {
      var up := q[..|q| - 1];
      assert up[..|p|] == p;
      PrefixLeads(m, p, up);
    }
  }

  /** A path below p goes through one of its children. */
  lemma ThroughChild(m: Mapping, p: Path, q: Path)
    requires Leads(m, p) && Leads(m, q) && Prefix(p, q) && p != q
    ensures q[|p|] < |Kids(m, NodeAt(m, p).value)| && Prefix(p + [q[|p|]], q)
  {
    var child := q[..|p| + 1];
    PrefixLeads(m, child, q);
    assert child[..|child| - 1] == p;
    assert child == p + [q[|p|]];
  }

  lemma ChildLeads(m: Mapping, p: Path, i: nat)
    requires Leads(m, p) && i < |Kids(m, NodeAt(m, p).value)|
    ensures NodeAt(m, p + [i]) == Some(Kids(m, NodeAt(m, p).value)[i])
    ensures ChunkParent(m, p + [i]) ==
      if TextOf(m, NodeAt(m, p).value) != "" then NodeAt(m, p) else ChunkParent(m, p)
  {
    assert (p + [i])[..|p|] == p;
  }

  lemma LeftOfBelow(p: Path, q: Path, i: nat)
    ensures LeftOf(p, q) ==> LeftOf(p + [i], q) && LeftOf(p, q + [i])
    ensures Before(p, q) ==> Before(p, q + [i])
    ensures Before(p, p + [i])
  {
    assert (p + [i])[..|p|] == p;
    if LeftOf(p, q) {
      var k :| 0 <= k < |p| && k < |q| && p[..k] == q[..k] && p[k] < q[k];
      assert (p + [i])[..k] == p[..k] && (q + [i])[..k] == q[..k];
    }
    if Prefix(p, q) {
      assert (q + [i])[..|p|] == q[..|p|];
    }
  }

  lemma SiblingsLeft(p: Path, i: nat, j: nat)
    requires i < j
    ensures LeftOf(p + [i], p + [j])
  {
    assert (p + [i])[..|p|] == (p + [j])[..|p|];
    assert (p + [i])[|p|] < (p + [j])[|p|];
  }

  lemma LeftIsStrict(p: Path, q: Path, k: nat)
    requires k < |p| && k < |q| && p[..k] == q[..k] && p[k] < q[k]
    ensures !LeftOf(q, p) && !Prefix(p, q) && !Prefix(q, p)
  {
    forall l | 0 <= l < |q| && l < |p| ensures !(q[..l] == p[..l] && q[l] < p[l]) {
      if k < l {
        assert q[..l][k] == q[k] && p[..l][k] == p[k];
      } else if l < k {
        assert q[..k][l] == q[l] && p[..k][l] == p[l];
      }
    }
    if |p| <= |q| { assert q[..|p|][k] == q[k]; }
    if |q| <= |p| { assert p[..|q|][k] == p[k]; }
  }

  lemma BeforeIsStrict(p: Path, q: Path)
    requires Before(p, q)
    ensures p != q && !Before(q, p)
  {
    if LeftOf(p, q) {
      var k :| 0 <= k < |p| && k < |q| && p[..k] == q[..k] && p[k] < q[k];
      LeftIsStrict(p, q, k);
    } else {
      forall l | 0 <= l < |q| && l < |p| ensures !(q[..l] == p[..l] && q[l] < p[l]) {
        assert q[..|p|][l] == q[l];
      }
    }
  }

  /** The preorder of a mapping is one definite list. */
  lemma PreorderIsUnique(m: Mapping, ps: seq<Path>, qs: seq<Path>)
    requires IsPreorder(m, ps) && IsPreorder(m, qs)
    ensures ps == qs
  {
    OrderedListsAgree(ps, qs);
  }

  lemma {:induction false} OrderedListsAgree(ps: seq<Path>, qs: seq<Path>)
    requires Ordered(ps) && Ordered(qs) && forall p :: p in ps <==> p in qs
    ensures ps == qs
  {
    var probe := if qs != [] then qs[0] else [];
    if ps == [] {
    } else {
      assert ps[0] in qs;
      var j :| 0 <= j < |qs| && qs[j] == ps[0];
      assert probe in ps;
      var i :| 0 <= i < |ps| && ps[i] == qs[0];
      if i > 0 && j > 0 {
        BeforeIsStrict(ps[0], ps[i]);
        assert false;
      }
      forall p ensures p in ps[1..] <==> p in qs[1..] {
        RestOfOrdered(ps, p);
        RestOfOrdered(qs, p);
      }
      OrderedListsAgree(ps[1..], qs[1..]);
    }
  }

  lemma RestOfOrdered(ps: seq<Path>, p: Path)
    requires Ordered(ps) && ps != []
    ensures p in ps[1..] <==> p in ps && p != ps[0]
  {
    if p in ps[1..] {
      var i :| 1 <= i < |ps| && ps[i] == p;
      BeforeIsStrict(ps[0], ps[i]);
    }
    if p in ps && p != ps[0] {
      var i :| 0 <= i < |ps| && ps[i] == p;
      assert ps[1..][i - 1] == p;
    }
  }

  ghost predicate NearestText(m: Mapping, p: Path, k: int) {
    0 < k < |p| && HasText(m, p[..k]) && forall j :: k < j < |p| ==> !HasText(m, p[..j])
  }

  /** The nearest one: every node strictly between it and p's has no text. */
  lemma {:induction false} ChunkParentIsNearest(m: Mapping, p: Path)
    requires Leads(m, p)
    ensures ChunkParent(m, p).None? ==> forall k :: 0 < k < |p| ==> !HasText(m, p[..k])
    ensures ChunkParent(m, p).Some? ==> exists k :: NearestText(m, p, k) && NodeAt(m, p[..k]) == ChunkParent(m, p)
    decreases |p|
  {
    if |p| > 1 {
      var up := p[..|p| - 1];
      if HasText(m, up) {
        assert NearestText(m, p, |up|);
      } else {
        ChunkParentIsNearest(m, up);
        assert forall k :: 0 < k < |up| ==> up[..k] == p[..k];
        if ChunkParent(m, up).Some? {
          var k :| NearestText(m, up, k) && NodeAt(m, up[..k]) == ChunkParent(m, up);
          NearestBelow(m, p, k);
        }
      }
    }
  }

  lemma NearestBelow(m: Mapping, p: Path, k: int)
    requires |p| > 1 && NearestText(m, p[..|p| - 1], k) && !HasText(m, p[..|p| - 1])
    ensures NearestText(m, p, k) && p[..|p| - 1][..k] == p[..k]
  {
    var up := p[..|p| - 1];
    assert up[..k] == p[..k];
    forall j | k < j < |p| ensures !HasText(m, p[..j]) {
      if j < |up| { assert up[..j] == p[..j]; }
    }
  }

  // ---- The walk ----------------------------------------------------------

  /** A stack entry: a node, its chunk-producing ancestor, depth and position. */
  datatype Frame = Frame(id: string, chunkParent: Option<string>, depth: nat, siblingIndex: nat)

  predicate FrameFor(m: Mapping, f: Frame, p: Path) {
    && NodeAt(m, p) == Some(f.id) && ChunkParent(m, p) == f.chunkParent
    && f.depth == |p| - 1 && f.siblingIndex == p[|p| - 1]
  }

  ghost predicate StackInv(m: Mapping, stack: seq<Frame>, paths: seq<Path>) {
    && |stack| == |paths|
    && (forall i :: 0 <= i < |stack| ==> FrameFor(m, stack[i], paths[i]))
    && (forall i, j :: 0 <= i < j < |paths| ==> LeftOf(paths[j], paths[i]))
  }

  ghost predicate DoneInv(m: Mapping, done: seq<Path>, visited: set<string>) {
    && (forall i :: 0 <= i < |done| ==> Leads(m, done[i]) && NodeAt(m, done[i]).value in visited)
    && (forall i, j :: 0 <= i < j < |done| ==> NodeAt(m, done[i]) != NodeAt(m, done[j]))
    && (forall id :: id in visited ==> exists i :: 0 <= i < |done| && NodeAt(m, done[i]) == Some(id))
    && Ordered(done)
  }

  ghost predicate DoneFirst(done: seq<Path>, paths: seq<Path>) {
    forall i, j :: 0 <= i < |done| && 0 <= j < |paths| ==> Before(done[i], paths[j])
  }

  ghost predicate Pending(paths: seq<Path>, q: Path) { exists i :: 0 <= i < |paths| && Prefix(paths[i], q) }

  ghost predicate Covered(m: Mapping, paths: seq<Path>, done: seq<Path>) {
    forall q :: Leads(m, q) ==> q in done || Pending(paths, q)
  }

  /** The children of p pushed so far, last child first. */
  function ChildPaths(p: Path, from: nat, count: nat): (ps: seq<Path>)
    requires from <= count
    ensures |ps| == count - from
    ensures forall k :: 0 <= k < |ps| ==> ps[k] == p + [count - 1 - k]
    decreases count - from
  {
    if from == count then [] else ChildPaths(p, from + 1, count) + [p + [from]]
  }

  lemma PushKeepsOrder(paths: seq<Path>, p: Path, count: nat)
    requires forall i, j :: 0 <= i < j < |paths| ==> LeftOf(paths[j], paths[i])
    requires forall i :: 0 <= i < |paths| ==> LeftOf(p, paths[i])
    ensures var all := paths + ChildPaths(p, 0, count);
      forall i, j :: 0 <= i < j < |all| ==> LeftOf(all[j], all[i])
  {
    var kids := ChildPaths(p, 0, count);
    var all := paths + kids;
    forall i, j | 0 <= i < j < |all| ensures LeftOf(all[j], all[i]) {
      if j < |paths| {
      } else if i < |paths| {
        LeftOfBelow(p, paths[i], count - 1 - (j - |paths|));
      } else {
        SiblingsLeft(p, count - 1 - (j - |paths|), count - 1 - (i - |paths|));
      }
    }
  }

  lemma VisitKeepsOrder(paths: seq<Path>, done: seq<Path>, p: Path, count: nat)
    requires DoneFirst(done, paths + [p]) && forall i :: 0 <= i < |paths| ==> LeftOf(p, paths[i])
    ensures DoneFirst(done + [p], paths + ChildPaths(p, 0, count))
  {
    var kids := ChildPaths(p, 0, count);
    forall i, j | 0 <= i < |done| + 1 && 0 <= j < |paths| + count
      ensures Before((done + [p])[i], (paths + kids)[j])
    {
      assert (paths + [p])[|paths|] == p;
      if j < |paths| {
        assert (paths + [p])[j] == paths[j];
      } else {
        var c := count - 1 - (j - |paths|);
        LeftOfBelow(p, p, c);
        if i < |done| { LeftOfBelow(done[i], p, c); }
      }
    }
  }

  lemma VisitKeepsCover(m: Mapping, paths: seq<Path>, done: seq<Path>, p: Path)
    requires Leads(m, p) && Covered(m, paths + [p], done)
    ensures Covered(m, paths + ChildPaths(p, 0, |Kids(m, NodeAt(m, p).value)|), done + [p])
  {
    var count := |Kids(m, NodeAt(m, p).value)|;
    forall q | Leads(m, q) && q !in done + [p] ensures Pending(paths + ChildPaths(p, 0, count), q) {
      assert q !in done && q != (done + [p])[|done|];
      var i :| 0 <= i < |paths| + 1 && Prefix((paths + [p])[i], q);
      if i < |paths| {
        assert (paths + ChildPaths(p, 0, count))[i] == paths[i];
      } else {
        BelowIsPending(m, paths, p, q);
      }
    }
  }

  lemma BelowIsPending(m: Mapping, paths: seq<Path>, p: Path, q: Path)
    requires Leads(m, p) && Leads(m, q) && Prefix(p, q) && p != q
    ensures Pending(paths + ChildPaths(p, 0, |Kids(m, NodeAt(m, p).value)|), q)
  {
    var count := |Kids(m, NodeAt(m, p).value)|;
    ThroughChild(m, p, q);
    assert (paths + ChildPaths(p, 0, count))[|paths| + count - 1 - q[|p|]] == p + [q[|p|]];
  }

  /** Frames for the roots, or for a node's children, first one on top. */
  lemma RootsCovered(m: Mapping)
    ensures Covered(m, ChildPaths([], 0, |Roots(m)|), [])
  {
    var paths := ChildPaths([], 0, |Roots(m)|);
    forall q | Leads(m, q) ensures Pending(paths, q) {
      PrefixLeads(m, q[..1], q);
      assert paths[|Roots(m)| - 1 - q[0]] == [] + [q[0]];
      assert Prefix(paths[|Roots(m)| - 1 - q[0]], q);
    }
  }

  /** Push one frame for each id, the last id first. */
  method PushAll(m: Mapping, stack: seq<Frame>, ghost paths: seq<Path>, ghost p: Path, ids: seq<string>,
                 chunkParent: Option<string>, depth: nat)
    returns (r: seq<Frame>)
    requires |stack| == |paths| && forall i :: 0 <= i < |stack| ==> FrameFor(m, stack[i], paths[i])
    requires forall i :: 0 <= i < |ids| ==> FrameFor(m, Frame(ids[i], chunkParent, depth, i), p + [i])
    ensures |r| == |stack| + |ids|
    ensures forall i :: 0 <= i < |r| ==> FrameFor(m, r[i], (paths + ChildPaths(p, 0, |ids|))[i])
  {
    r := stack;
    var i := |ids|;
    while i > 0
      invariant 0 <= i <= |ids|
      invariant |r| == |stack| + |ids| - i
      invariant forall k :: 0 <= k < |r| ==> FrameFor(m, r[k], (paths + ChildPaths(p, i, |ids|))[k])
    {
      i := i - 1;
      r := r + [Frame(ids[i], chunkParent, depth, i)];
    }
  }

  lemma DoneGrows(m: Mapping, done: seq<Path>, visited: set<string>, p: Path)
    requires DoneInv(m, done, visited) && Leads(m, p) && NodeAt(m, p).value !in visited
    requires forall i :: 0 <= i < |done| ==> Before(done[i], p)
    ensures DoneInv(m, done + [p], visited + {NodeAt(m, p).value})
  {
    var more := done + [p];
    forall id | id in visited + {NodeAt(m, p).value} ensures exists i :: 0 <= i < |more| && NodeAt(m, more[i]) == Some(id) {
      if id in visited {
        var i :| 0 <= i < |done| && NodeAt(m, done[i]) == Some(id);
        assert more[i] == done[i];
      } else {
        assert more[|done|] == p;
      }
    }
    forall i, j | 0 <= i < j < |more| ensures NodeAt(m, more[i]) != NodeAt(m, more[j]) {
      DoneDiffers(m, done, visited, p, i, j);
    }
    OrderedGrows(done, p);
  }

  lemma DoneDiffers(m: Mapping, done: seq<Path>, visited: set<string>, p: Path, i: nat, j: nat)
    requires DoneInv(m, done, visited) && Leads(m, p) && NodeAt(m, p).value !in visited && i < j <= |done|
    ensures NodeAt(m, (done + [p])[i]) != NodeAt(m, (done + [p])[j])
  {
    assert (done + [p])[i] == done[i] && NodeAt(m, done[i]).value in visited;
    if j < |done| { assert (done + [p])[j] == done[j]; }
  }

  lemma OrderedGrows(done: seq<Path>, p: Path)
    requires Ordered(done) && forall i :: 0 <= i < |done| ==> Before(done[i], p)
    ensures Ordered(done + [p])
  {
  }

  lemma ChunksAlongAppend(m: Mapping, branch: set<string>, ps: seq<Path>, p: Path)
    requires Leads(m, p) && forall i :: 0 <= i < |ps| ==> Leads(m, ps[i])
    ensures ChunksAlong(m, branch, ps + [p]) ==
      ChunksAlong(m, branch, ps) + (if HasText(m, p) then [ChunkFor(m, branch, p)] else [])
  {
    assert (ps + [p])[..|ps|] == ps;
  }

  ghost predicate ReachedByTwo(m: Mapping, id: string) {
    exists p, q :: NodeAt(m, p) == Some(id) && NodeAt(m, q) == Some(id) && p != q
  }

  ghost predicate SomeReachedByTwo(m: Mapping) { exists id :: ReachedByTwo(m, id) }

  ghost predicate Reached(m: Mapping, id: string) { exists p :: NodeAt(m, p) == Some(id) }

  ghost function Lost(m: Mapping): set<string> { set id | id in m.nodes && !Reached(m, id) }

  ghost predicate MetBefore(m: Mapping, p: Path) { exists q :: Before(q, p) && Leads(m, p) && NodeAt(m, q) == NodeAt(m, p) }

  /** p is the first path in preorder that leads to a node an earlier path leads to. */
  ghost predicate FirstRepeat(m: Mapping, p: Path) { MetBefore(m, p) && AllNewBefore(m, p) }

  ghost predicate AllNewBefore(m: Mapping, p: Path) {
    forall q, r :: Before(q, p) && Before(r, p) && Leads(m, q) && NodeAt(m, q) == NodeAt(m, r) ==> q == r
  }

  lemma RepeatMeansTwice(m: Mapping, p: Path)
    requires MetBefore(m, p)
    ensures ReachedByTwo(m, NodeAt(m, p).value)
  {
    var q :| Before(q, p) && NodeAt(m, q) == NodeAt(m, p);
    BeforeIsStrict(q, p);
  }

  /** A path before the one on top of the stack has been walked. */
  lemma WalkedBefore(m: Mapping, paths: seq<Path>, done: seq<Path>, q: Path)
    requires paths != [] && (forall i, j :: 0 <= i < j < |paths| ==> LeftOf(paths[j], paths[i]))
    requires Covered(m, paths, done) && Leads(m, q) && Before(q, paths[|paths| - 1])
    ensures q in done
  {
    var top := paths[|paths| - 1];
    if Pending(paths, q) {
      var i :| 0 <= i < |paths| && Prefix(paths[i], q);
      if i < |paths| - 1 {
        LeftOfAll(top, paths[i], q);
      } else {
        BeforeIsStrict(q, top);
      }
      BeforeIsStrict(q, top);
    }
  }

  lemma LeftOfAll(p: Path, q: Path, below: Path)
    requires LeftOf(p, q) && Prefix(q, below)
    ensures Before(p, below)
  {
    var k :| 0 <= k < |p| && k < |q| && p[..k] == q[..k] && p[k] < q[k];
    assert below[..k] == q[..k] && below[k] == q[k] by { assert below[..|q|] == q; }
  }

  /** The first stack entry whose node was visited before is the first repeat. */
  lemma RevisitedIsFirst(m: Mapping, paths: seq<Path>, done: seq<Path>, visited: set<string>)
    requires paths != [] && (forall i, j :: 0 <= i < j < |paths| ==> LeftOf(paths[j], paths[i]))
    requires DoneInv(m, done, visited) && DoneFirst(done, paths) && Covered(m, paths, done)
    requires Leads(m, paths[|paths| - 1]) && NodeAt(m, paths[|paths| - 1]).value in visited
    ensures FirstRepeat(m, paths[|paths| - 1])
  {
    var p := paths[|paths| - 1];
    var i :| 0 <= i < |done| && NodeAt(m, done[i]) == NodeAt(m, p);
    assert Before(done[i], p) && MetBefore(m, p);
    forall q, r | Before(q, p) && Before(r, p) && Leads(m, q) && NodeAt(m, q) == NodeAt(m, r) ensures q == r {
      WalkedBefore(m, paths, done, q);
      WalkedBefore(m, paths, done, r);
      DoneOnce(m, done, visited, q, r);
    }
  }

  lemma DoneOnce(m: Mapping, done: seq<Path>, visited: set<string>, q: Path, r: Path)
    requires DoneInv(m, done, visited) && q in done && r in done && NodeAt(m, q) == NodeAt(m, r)
    ensures q == r
  {
    var i :| 0 <= i < |done| && done[i] == q;
    var j :| 0 <= j < |done| && done[j] == r;
    assert NodeAt(m, done[i]) == NodeAt(m, done[j]);
  }

  ghost predicate WalkInv(m: Mapping, branch: set<string>, stack: seq<Frame>, paths: seq<Path>, done: seq<Path>,
                          visited: set<string>, chunks: seq<TreeChunk>) {
    && StackInv(m, stack, paths) && DoneInv(m, done, visited)
    && DoneFirst(done, paths) && Covered(m, paths, done)
    && chunks == ChunksAlong(m, branch, done)
    && visited <= m.nodes.Keys
  }

  function EmittedAs(m: Mapping, frame: Frame): Option<string> {
    if TextOf(m, frame.id) != "" then Some(frame.id) else frame.chunkParent
  }

  /** Visiting the popped node p keeps the walk's invariant. */
  lemma VisitKeeps(m: Mapping, branch: set<string>, stack: seq<Frame>, paths: seq<Path>, done: seq<Path>,
                   visited: set<string>, chunks: seq<TreeChunk>, frame: Frame, p: Path, pushed: seq<Frame>)
    requires WalkInv(m, branch, stack + [frame], paths + [p], done, visited, chunks)
    requires |stack| == |paths| && frame.id !in visited && NodeAt(m, p) == Some(frame.id)
    requires |pushed| == |stack| + |Kids(m, frame.id)|
    requires forall i :: 0 <= i < |pushed| ==> FrameFor(m, pushed[i], (paths + ChildPaths(p, 0, |Kids(m, frame.id)|))[i])
    ensures WalkInv(m, branch, pushed, paths + ChildPaths(p, 0, |Kids(m, frame.id)|), done + [p], visited + {frame.id},
                    chunks + if HasText(m, p) then [ChunkFor(m, branch, p)] else [])
  {
    var all := paths + [p];
    assert all[|paths|] == p && forall i :: 0 <= i < |paths| ==> all[i] == paths[i];
    ChunksAlongAppend(m, branch, done, p);
    DoneGrows(m, done, visited, p);
    PushKeepsOrder(paths, p, |Kids(m, frame.id)|);
    VisitKeepsOrder(paths, done, p, |Kids(m, frame.id)|);
    VisitKeepsCover(m, paths, done, p);
  }

  lemma KidFrames(m: Mapping, frame: Frame, p: Path)
    requires FrameFor(m, frame, p)
    ensures forall i :: 0 <= i < |Kids(m, frame.id)| ==>
      FrameFor(m, Frame(Kids(m, frame.id)[i], EmittedAs(m, frame), frame.depth + 1, i), p + [i])
  {
    forall i | 0 <= i < |Kids(m, frame.id)|
      ensures FrameFor(m, Frame(Kids(m, frame.id)[i], EmittedAs(m, frame), frame.depth + 1, i), p + [i])
    {
      ChildLeads(m, p, i);
    }
  }

  /** One turn of the loop for a node not visited before: its chunk, then its children. */
  method Visit(m: Mapping, branch: set<string>, frame: Frame, stack: seq<Frame>, visited: set<string>,
               chunks: seq<TreeChunk>, ghost paths: seq<Path>, ghost done: seq<Path>, ghost p: Path)
    returns (stack': seq<Frame>, chunks': seq<TreeChunk>)
    requires WalkInv(m, branch, stack + [frame], paths + [p], done, visited, chunks)
    requires |stack| == |paths| && frame.id !in visited && FrameFor(m, frame, p)
    ensures WalkInv(m, branch, stack', paths + ChildPaths(p, 0, |Kids(m, frame.id)|), done + [p],
                    visited + {frame.id}, chunks')
  {
    var text := TextOf(m, frame.id);
    var kids := Kids(m, frame.id);
    var emittedAs := frame.chunkParent;
    chunks' := chunks;
    if text != "" {
      chunks' := chunks + [TreeChunk(frame.id, text, frame.chunkParent, frame.depth, frame.siblingIndex,
                                     SiblingCount(m, frame.id), |kids|, kids == [], frame.id in branch,
                                     |m.nodes|, |Leaves(m)|)];
      emittedAs := Some(frame.id);
    }
    KidFrames(m, frame, p);
    FramesBelow(m, stack, frame, paths, p);
    stack' := PushAll(m, stack, paths, p, kids, emittedAs, frame.depth + 1);
    VisitKeeps(m, branch, stack, paths, done, visited, chunks, frame, p, stack');
  }

  lemma FramesBelow(m: Mapping, stack: seq<Frame>, frame: Frame, paths: seq<Path>, p: Path)
    requires |stack| == |paths| && StackInv(m, stack + [frame], paths + [p])
    ensures forall i :: 0 <= i < |stack| ==> FrameFor(m, stack[i], paths[i])
  {
    forall i | 0 <= i < |stack| ensures FrameFor(m, stack[i], paths[i]) {
      assert (stack + [frame])[i] == stack[i] && (paths + [p])[i] == paths[i];
    }
  }

  lemma WalkStarts(m: Mapping, branch: set<string>, stack: seq<Frame>)
    requires |stack| == |Roots(m)|
    requires forall i :: 0 <= i < |stack| ==> FrameFor(m, stack[i], ([] + ChildPaths([], 0, |Roots(m)|))[i])
    ensures WalkInv(m, branch, stack, ChildPaths([], 0, |Roots(m)|), [], {}, [])
  {
    assert [] + ChildPaths([], 0, |Roots(m)|) == ChildPaths([], 0, |Roots(m)|);
    PushKeepsOrder([], [], |Roots(m)|);
    RootsCovered(m);
  }

  ghost predicate CompleteWalk(m: Mapping, branch: set<string>, ps: seq<Path>, chunks: seq<TreeChunk>) {
    ReachedOnce(m) && IsPreorder(m, ps) && chunks == ChunksAlong(m, branch, ps)
  }

  lemma Popped(m: Mapping, branch: set<string>, stack: seq<Frame>, paths: seq<Path>, done: seq<Path>,
               visited: set<string>, chunks: seq<TreeChunk>)
    requires WalkInv(m, branch, stack, paths, done, visited, chunks) && stack != []
    ensures |stack| == |paths|
    ensures var top, p := stack[|stack| - 1], paths[|paths| - 1];
      && FrameFor(m, top, p) && top.id in m.nodes
      && (top.id in visited ==> FirstRepeat(m, p))
      && WalkInv(m, branch, stack[..|stack| - 1] + [top], paths[..|paths| - 1] + [p], done, visited, chunks)
  {
    var top, p := stack[|stack| - 1], paths[|paths| - 1];
    assert paths[..|paths| - 1] + [p] == paths && stack[..|stack| - 1] + [top] == stack;
    if top.id in visited { RevisitedIsFirst(m, paths, done, visited); }
  }

  lemma Finished(m: Mapping, branch: set<string>, paths: seq<Path>, done: seq<Path>,
                 visited: set<string>, chunks: seq<TreeChunk>)
    requires WalkInv(m, branch, [], paths, done, visited, chunks)
    ensures m.nodes.Keys - visited == Lost(m) && !SomeReachedByTwo(m)
    ensures m.nodes.Keys - visited == {} ==> CompleteWalk(m, branch, done, chunks)
  {
    VisitedAreReached(m, done, visited);
    NoneTwice(m, done, visited);
    if m.nodes.Keys - visited == {} {
      assert forall id :: id in m.nodes && id !in visited ==> id in m.nodes.Keys - visited;
      AllOnce(m, done, visited);
    }
  }

  lemma NoneTwice(m: Mapping, done: seq<Path>, visited: set<string>)
    requires DoneInv(m, done, visited) && Covered(m, [], done)
    ensures !SomeReachedByTwo(m)
  {
    forall p, q | Leads(m, p) && NodeAt(m, p) == NodeAt(m, q) ensures p == q { OnePathPerNode(m, done, visited, p, q); }
  }

  /** The stack loop: every child path once, in preorder, or the error it meets. */
  method WalkTree(m: Mapping, branch: set<string>) returns (r: Result<seq<TreeChunk>, TreeError>, ghost done: seq<Path>)
    requires IsDict(m)
    ensures r.Ok? ==> CompleteWalk(m, branch, done, r.value)
    ensures r.Err? ==> r.error.ReachedTwice? || r.error.Unreachable?
    ensures r.Err? && r.error.ReachedTwice? ==> exists p :: FirstRepeat(m, p) && NodeAt(m, p) == Some(r.error.id)
    ensures r.Err? && r.error.Unreachable? ==> !SomeReachedByTwo(m) && r.error.count == |Lost(m)| > 0
  {
    done := [];
    var visited: set<string> := {};
    var chunks: seq<TreeChunk> := [];
    ghost var paths := ChildPaths([], 0, |Roots(m)|);
    var stack := PushAll(m, [], [], [], Roots(m), None, 0);
    WalkStarts(m, branch, stack);
    while stack != []
      invariant WalkInv(m, branch, stack, paths, done, visited, chunks)
      decreases m.nodes.Keys - visited
    {
      var frame := stack[|stack| - 1];
      ghost var p := paths[|paths| - 1];
      ghost var below := paths[..|paths| - 1];
      Popped(m, branch, stack, paths, done, visited, chunks);
      if frame.id in visited {
        return Err(ReachedTwice(frame.id)), done;
      }
      stack, chunks := Visit(m, branch, frame, stack[..|stack| - 1], visited, chunks, below, done, p);
      visited := visited + {frame.id};
      done, paths := done + [p], below + ChildPaths(p, 0, |Kids(m, frame.id)|);
    }
    Finished(m, branch, paths, done, visited, chunks);
    var unreached := m.nodes.Keys - visited;
    if unreached != {} {
      return Err(Unreachable(|unreached|)), done;
    }
    return Ok(chunks), done;
  }

  lemma VisitedAreReached(m: Mapping, done: seq<Path>, visited: set<string>)
    requires DoneInv(m, done, visited) && Covered(m, [], done) && visited <= m.nodes.Keys
    ensures m.nodes.Keys - visited == Lost(m)
  {
    forall id | id in m.nodes ensures id in visited <==> Reached(m, id) {
      if Reached(m, id) {
        var p :| NodeAt(m, p) == Some(id);
        assert Leads(m, p) && !Pending([], p);
      }
    }
  }

  lemma AllCovered(m: Mapping, done: seq<Path>, q: Path)
    requires Covered(m, [], done) && Leads(m, q)
    ensures q in done
  {
    assert !Pending([], q);
  }

  lemma DoneIsPreorder(m: Mapping, done: seq<Path>, visited: set<string>)
    requires DoneInv(m, done, visited) && Covered(m, [], done)
    ensures IsPreorder(m, done)
  {
    forall p ensures p in done <==> Leads(m, p) {
      if Leads(m, p) { AllCovered(m, done, p); }
    }
  }

  lemma OnePathPerNode(m: Mapping, done: seq<Path>, visited: set<string>, p: Path, q: Path)
    requires DoneInv(m, done, visited) && Covered(m, [], done) && Leads(m, p) && NodeAt(m, p) == NodeAt(m, q)
    ensures p == q
  {
    AllCovered(m, done, p);
    AllCovered(m, done, q);
    DoneOnce(m, done, visited, p, q);
  }

  lemma AllOnce(m: Mapping, done: seq<Path>, visited: set<string>)
    requires DoneInv(m, done, visited) && Covered(m, [], done) && visited == m.nodes.Keys
    ensures ReachedOnce(m) && IsPreorder(m, done)
  {
    DoneIsPreorder(m, done, visited);
    forall p, q | Leads(m, p) && NodeAt(m, p) == NodeAt(m, q) ensures p == q {
      OnePathPerNode(m, done, visited, p, q);
    }
    forall id | id in m.nodes ensures exists p :: NodeAt(m, p) == Some(id) {
      SomePathToIt(m, done, visited, id);
    }
  }

  lemma SomePathToIt(m: Mapping, done: seq<Path>, visited: set<string>, id: string)
    requires DoneInv(m, done, visited) && id in visited
    ensures exists p :: NodeAt(m, p) == Some(id)
  {
    var i :| 0 <= i < |done| && NodeAt(m, done[i]) == Some(id);
  }

  ghost predicate DistinctNodes(chunks: seq<TreeChunk>) {
    forall i, j :: 0 <= i < j < |chunks| ==> chunks[i].nodeId != chunks[j].nodeId
  }

  /** The chunks of a list of paths: those with text, each a copy of its node. */
  lemma {:induction false} ChunksAlongMembers(m: Mapping, branch: set<string>, ps: seq<Path>)
    requires Ordered(ps) && forall p :: p in ps ==> Leads(m, p)
    requires forall p, q :: p in ps && q in ps && NodeAt(m, p) == NodeAt(m, q) ==> p == q
    ensures forall c :: c in ChunksAlong(m, branch, ps) <==> exists p :: p in ps && HasText(m, p) && c == ChunkFor(m, branch, p)
    ensures DistinctNodes(ChunksAlong(m, branch, ps))
  {
    if ps != [] {
      var p := ps[|ps| - 1];
      var front := ps[..|ps| - 1];
      assert p in ps && Leads(m, p) && NodeAt(m, p).Some?;
      assert forall q :: q in ps <==> q in front || q == p;
      ChunksAlongMembers(m, branch, front);
      var before := ChunksAlong(m, branch, front);
      forall i | 0 <= i < |before| ensures before[i].nodeId != NodeAt(m, p).value {
        assert before[i] in before;
        var q :| q in front && HasText(m, q) && before[i] == ChunkFor(m, branch, q);
        LastIsAnother(ps, q);
      }
      if HasText(m, p) { OneMoreNode(before, ChunkFor(m, branch, p)); }
    }
  }

  /** The last of an ordered list of paths is none of the earlier ones. */
  lemma LastIsAnother(ps: seq<Path>, q: Path)
    requires ps != [] && Ordered(ps) && q in ps[..|ps| - 1]
    ensures q in ps && q != ps[|ps| - 1]
  {
    var k :| 0 <= k < |ps| - 1 && ps[..|ps| - 1][k] == q;
    assert Before(ps[k], ps[|ps| - 1]);
    BeforeIsStrict(q, ps[|ps| - 1]);
  }

  lemma OneMoreNode(before: seq<TreeChunk>, c: TreeChunk)
    requires DistinctNodes(before) && forall i :: 0 <= i < |before| ==> before[i].nodeId != c.nodeId
    ensures DistinctNodes(before + [c])
  {
  }

  /** A complete walk emits exactly one chunk for each node with text. */
  lemma OneChunkPerTextNode(m: Mapping, branch: set<string>, ps: seq<Path>, chunks: seq<TreeChunk>)
    requires CompleteWalk(m, branch, ps, chunks)
    ensures DistinctNodes(chunks)
    ensures forall id :: id in m.nodes ==> (TextOf(m, id) != "" <==> exists c :: c in chunks && c.nodeId == id)
    ensures forall c :: c in chunks ==> c.nodeId in m.nodes && c.text == TextOf(m, c.nodeId)
  {
    ChunksAlongMembers(m, branch, ps);
    forall id | id in m.nodes && TextOf(m, id) != "" ensures exists c :: c in chunks && c.nodeId == id {
      var p :| NodeAt(m, p) == Some(id);
      assert Leads(m, p) && HasText(m, p);
      assert ChunkFor(m, branch, p) in chunks;
    }
  }

  ghost predicate ParentsFirst(chunks: seq<TreeChunk>) {
    forall i :: 0 <= i < |chunks| && chunks[i].parentNodeId.Some? ==> EmittedBefore(chunks, i, chunks[i].parentNodeId.value)
  }

  ghost predicate EmittedBefore(chunks: seq<TreeChunk>, i: int, id: string)
    requires 0 <= i <= |chunks|
  {
    exists j :: 0 <= j < i && chunks[j].nodeId == id
  }

  ghost predicate PrefixClosed(ps: seq<Path>) {
    forall p, q :: q in ps && Prefix(p, q) && p != [] ==> p in ps
  }

  lemma FrontIsPrefixClosed(ps: seq<Path>)
    requires ps != [] && Ordered(ps) && PrefixClosed(ps)
    ensures PrefixClosed(ps[..|ps| - 1])
  {
    var last, front := ps[|ps| - 1], ps[..|ps| - 1];
    forall p, q | q in front && Prefix(p, q) && p != [] ensures p in front {
      var i :| 0 <= i < |front| && front[i] == q;
      assert Before(ps[i], last);
      BeforeIsStrict(q, last);
      assert p in ps && p != last;
    }
  }

  /** A chunk's parent is a chunk emitted before it. */
  lemma {:induction false} ChunkParentsFirst(m: Mapping, branch: set<string>, ps: seq<Path>)
    requires Ordered(ps) && PrefixClosed(ps) && forall p :: p in ps ==> Leads(m, p)
    requires forall p, q :: p in ps && q in ps && NodeAt(m, p) == NodeAt(m, q) ==> p == q
    ensures ParentsFirst(ChunksAlong(m, branch, ps))
  {
    if ps != [] {
      var p, front := ps[|ps| - 1], ps[..|ps| - 1];
      FrontIsPrefixClosed(ps);
      ChunkParentsFirst(m, branch, front);
      var before, cs := ChunksAlong(m, branch, front), ChunksAlong(m, branch, ps);
      forall i | 0 <= i < |cs| && cs[i].parentNodeId.Some? ensures EmittedBefore(cs, i, cs[i].parentNodeId.value) {
        if i < |before| {
          assert cs[i] == before[i];
          var j :| 0 <= j < i && before[j].nodeId == before[i].parentNodeId.value;
          assert cs[j] == before[j];
        } else {
          LastParentEmitted(m, branch, ps);
          var j :| 0 <= j < |before| && before[j].nodeId == ChunkParent(m, p).value;
          assert cs[j] == before[j];
        }
      }
    }
  }

  lemma LastParentEmitted(m: Mapping, branch: set<string>, ps: seq<Path>)
    requires ps != [] && Ordered(ps) && PrefixClosed(ps) && forall p :: p in ps ==> Leads(m, p)
    requires forall p, q :: p in ps && q in ps && NodeAt(m, p) == NodeAt(m, q) ==> p == q
    ensures var p, before := ps[|ps| - 1], ChunksAlong(m, branch, ps[..|ps| - 1]);
      Leads(m, p) && (ChunkParent(m, p).Some? ==> EmittedBefore(before, |before|, ChunkParent(m, p).value))
  {
    var p, front := ps[|ps| - 1], ps[..|ps| - 1];
    assert p in ps;
    if ChunkParent(m, p).Some? {
      ChunkParentIsNearest(m, p);
      var k :| NearestText(m, p, k) && NodeAt(m, p[..k]) == ChunkParent(m, p);
      var up := p[..k];
      assert Prefix(up, p) && up in ps && up != p;
      assert up in front;
      ChunksAlongMembers(m, branch, front);
      assert ChunkFor(m, branch, up) in ChunksAlong(m, branch, front);
    }
  }

  lemma CompleteWalkParentsFirst(m: Mapping, branch: set<string>, ps: seq<Path>, chunks: seq<TreeChunk>)
    requires CompleteWalk(m, branch, ps, chunks)
    ensures ParentsFirst(chunks)
  {
    forall p, q | q in ps && Prefix(p, q) && p != [] ensures p in ps { PrefixLeads(m, p, q); }
    ChunkParentsFirst(m, branch, ps);
  }

  // ---- The displayed branch ----------------------------------------------

  /** The k-th step from a node along its raw parent links. */
  function Up(m: Mapping, id: Option<string>, k: nat): Option<string> {
    if k == 0 then id
    else
      var below := Up(m, id, k - 1);
      if InMapping(m, below) && m.nodes[below.value].Node? then m.nodes[below.value].parent else None
  }

  /** id is on the chain of in-mapping parents from start, before it leaves the mapping. */
  ghost predicate Ancestor(m: Mapping, start: Option<string>, id: string) {
    exists k: nat :: Up(m, start, k) == Some(id) && id in m.nodes
  }

  ghost predicate StepBefore(m: Mapping, start: Option<string>, k: nat, id: string) {
    exists j: nat :: j < k && Up(m, start, j) == Some(id)
  }

  method Ancestors(m: Mapping, start: Option<string>) returns (seen: set<string>)
    ensures forall id :: id in seen <==> Ancestor(m, start, id)
  {
    seen := {};
    var node := start;
    ghost var k: nat := 0;
    while InMapping(m, node) && node.value !in seen
      invariant node == Up(m, start, k) && seen <= m.nodes.Keys
      invariant forall id :: id in seen ==> Ancestor(m, start, id)
      invariant forall j: nat :: j < k ==> Up(m, start, j).Some? && Up(m, start, j).value in seen
      invariant forall id :: id in seen ==> StepBefore(m, start, k, id)
      decreases m.nodes.Keys - seen
    {
      seen := seen + {node.value};
      assert Up(m, start, k) == node;
      node := if m.nodes[node.value].Node? then m.nodes[node.value].parent else None;
      k := k + 1;
    }
    forall id | Ancestor(m, start, id) ensures id in seen {
      var n: nat :| Up(m, start, n) == Some(id) && id in m.nodes;
      ChainStaysInside(m, start, seen, k, n);
    }
  }

  /** Once the chain leaves the mapping or meets a seen node, it yields no new node. */
  lemma {:induction false} ChainStaysInside(m: Mapping, start: Option<string>, seen: set<string>, k: nat, n: nat)
    requires forall j: nat :: j < k ==> Up(m, start, j).Some? && Up(m, start, j).value in seen
    requires forall id :: id in seen ==> StepBefore(m, start, k, id)
    requires InMapping(m, Up(m, start, k)) ==> Up(m, start, k).value in seen
    ensures InMapping(m, Up(m, start, n)) ==> Up(m, start, n).value in seen
  {
    if n > k {
      ChainStaysInside(m, start, seen, k, n - 1);
      var below := Up(m, start, n - 1);
      if InMapping(m, below) {
        var j: nat :| j < k && Up(m, start, j) == Some(below.value);
        assert Up(m, start, j + 1) == Up(m, start, n);
        if j + 1 < k { assert Up(m, start, j + 1).value in seen; }
      }
    }
  }

  // ---- One conversation --------------------------------------------------

  function MappingOf(c: Conversation): Mapping {
    if c.mapping.Object? then c.mapping.m else Mapping([], map[])
  }

  ghost predicate ListsOnly(m: Mapping) {
    forall id :: id in m.nodes && m.nodes[id].Node? ==> !m.nodes[id].children.NotList?
  }

  ghost predicate CurrentExists(c: Conversation) { c.current.Some? ==> InMapping(MappingOf(c), c.current.value) }

  ghost predicate OnBranch(c: Conversation, id: string) { c.current.Some? && Ancestor(MappingOf(c), c.current.value, id) }

  ghost predicate IsBranch(c: Conversation, branch: set<string>) { forall id :: id in branch <==> OnBranch(c, id) }

  ghost predicate Walkable(c: Conversation) { !c.mapping.NotAnObject? && ListsOnly(MappingOf(c)) && CurrentExists(c) }

  lemma OnceOrNot(m: Mapping)
    ensures ReachedOnce(m) <==> !SomeReachedByTwo(m) && Lost(m) == {}
  {
    if !SomeReachedByTwo(m) && Lost(m) == {} {
      forall p, q | Leads(m, p) && NodeAt(m, p) == NodeAt(m, q) ensures p == q {
        assert !ReachedByTwo(m, NodeAt(m, p).value);
      }
      forall id | id in m.nodes ensures exists p :: NodeAt(m, p) == Some(id) { assert id !in Lost(m); }
    }
  }

  /** _conversation_chunks: succeeds exactly for a conversation whose every node is
      reached by one child path; its chunks are the text-bearing nodes in preorder. It
      fails on the first node in preorder that is reached again, and counts the nodes no
      path reaches only where no node is reached twice. */
  method ConversationChunks(c: Conversation) returns (r: Result<seq<TreeChunk>, TreeError>)
    requires c.mapping.Object? ==> IsDict(c.mapping.m)
    ensures r.Ok? <==> Walkable(c) && ReachedOnce(MappingOf(c))
    ensures r.Ok? ==> exists ps, branch :: CompleteWalk(MappingOf(c), branch, ps, r.value) && IsBranch(c, branch)
    ensures r == Err(MappingNotObject) <==> c.mapping.NotAnObject?
    ensures r == Err(ChildrenNotList) <==> !c.mapping.NotAnObject? && !ListsOnly(MappingOf(c))
    ensures r == Err(NoCurrentNode) <==> !c.mapping.NotAnObject? && ListsOnly(MappingOf(c)) && !CurrentExists(c)
    ensures r.Err? && r.error.ReachedTwice? <==> Walkable(c) && SomeReachedByTwo(MappingOf(c))
    ensures r.Err? && r.error.ReachedTwice? ==> exists p :: FirstRepeat(MappingOf(c), p) && NodeAt(MappingOf(c), p) == Some(r.error.id)
    ensures r.Err? && r.error.Unreachable? <==> Walkable(c) && !SomeReachedByTwo(MappingOf(c)) && Lost(MappingOf(c)) != {}
    ensures r.Err? && r.error.Unreachable? ==> r.error.count == |Lost(MappingOf(c))|
  {
    if c.mapping.NotAnObject? {
      return Err(MappingNotObject);
    }
    var m := MappingOf(c);
    for i := 0 to |m.order|
      invariant forall j :: 0 <= j < i && m.nodes[m.order[j]].Node? ==> !m.nodes[m.order[j]].children.NotList?
    {
      var node := m.nodes[m.order[i]];
      if node.Node? && node.children.NotList? {
        return Err(ChildrenNotList);
      }
    }
    assert ListsOnly(m);
    var branch: set<string> := {};
    if c.current.Some? {
      if !InMapping(m, c.current.value) {
        return Err(NoCurrentNode);
      }
      branch := Ancestors(m, c.current.value);
    }
    OnceOrNot(m);
    ghost var ps;
    r, ps := WalkTree(m, branch);
    if r.Ok? {
      assert CompleteWalk(m, branch, ps, r.value) && IsBranch(c, branch);
    } else if r.error.ReachedTwice? {
      ghost var p :| FirstRepeat(m, p) && NodeAt(m, p) == Some(r.error.id);
      RepeatMeansTwice(m, p);
    }
  }
}
