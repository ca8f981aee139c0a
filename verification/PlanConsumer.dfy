/**
 * The renderer's side of the plan events: a patch is merged into every node with the given id, and
 * a replan rebuilds the tree from the flat node list of the diff.
 */
module PlanConsumer {
  import opened Options
  import opened PlanTree

  function Merge(node: PlanNode, patch: PlanPatch): PlanNode {
    node.(status := if patch.status.Some? then patch.status.value else node.status,
          startedAt := OrElse(patch.startedAt, node.startedAt),
          completedAt := OrElse(patch.completedAt, node.completedAt),
          reasoningRefs := if patch.reasoningRefs.Some? then patch.reasoningRefs.value else node.reasoningRefs)
  }

  /** `applyPlanNodePatch`. */
  function PatchNode(node: PlanNode, nodeId: string, patch: PlanPatch): PlanNode
    decreases node, 1
  {
    var next := node.(children := PatchAll(node.children, nodeId, patch));
    if node.id == nodeId then Merge(next, patch) else next
  }

  function PatchAll(nodes: seq<PlanNode>, nodeId: string, patch: PlanPatch): (r: seq<PlanNode>)
    ensures |r| == |nodes|
    ensures forall k :: 0 <= k < |nodes| ==> r[k] == PatchNode(nodes[k], nodeId, patch)
    decreases nodes, 0
  {
    if nodes == [] then [] else [PatchNode(nodes[0], nodeId, patch)] + PatchAll(nodes[1..], nodeId, patch)
  }

  // ---- rebuilding a tree from a flat list ----

  /** The JavaScript `Map` from id to snapshot: `order` lists ids by first insertion, values are last-wins. */
  datatype Index = Index(order: seq<string>, byId: map<string, PlanNode>) {
    ghost predicate Valid() {
      (forall id :: id in order <==> id in byId) && forall id :: id in byId ==> byId[id].id == id
    }
  }

  function BuildIndex(nodes: seq<PlanNode>, removed: set<string>): (r: Index)
    ensures r.Valid()
  {
    if nodes == [] then Index([], map[])
    else
      var n := nodes[|nodes| - 1];
      var sofar := BuildIndex(nodes[..|nodes| - 1], removed);
      if n.id in removed then sofar
      else Index(if n.id in sofar.byId then sofar.order else sofar.order + [n.id], sofar.byId[n.id := n])
  }

  /** Some indexed snapshot has this id among its children, or it names an indexed parent itself. */
  predicate ReferencedAsChild(index: Index, id: string)
    requires index.Valid()
  {
    (exists p :: p in index.byId && exists c :: c in index.byId[p].children && c.id == id)
    || (id in index.byId && index.byId[id].parentId.Some? && index.byId[id].parentId.value != ""
        && index.byId[id].parentId.value in index.byId)
  }

  function FirstUnreferenced(index: Index, order: seq<string>): Option<string>
    requires index.Valid()
  {
    if order == [] then None
    else if !ReferencedAsChild(index, order[0]) then Some(order[0])
    else FirstUnreferenced(index, order[1..])
  }

  /** Every nested child is itself in the list (so looking a child up by id always succeeds). */
  ghost predicate Closed(index: Index)
    requires index.Valid()
  {
    forall p, c :: p in index.byId && c in index.byId[p].children ==> c.id in index.byId
  }

  function ResolveChildren(index: Index, children: seq<PlanNode>): (r: seq<string>)
    requires index.Valid() && forall c :: c in children ==> c.id in index.byId
    ensures forall id :: id in r ==> id in index.byId
    ensures |r| == |children| && forall k :: 0 <= k < |r| ==> r[k] == children[k].id
  {
    seq(|children|, k requires 0 <= k < |children| => children[k].id)
  }

  /** Parent-link fallback, used for a snapshot whose `children` is empty. */
  function LinkedChildren(index: Index, order: seq<string>, id: string): (r: seq<string>)
    requires index.Valid() && forall x :: x in order ==> x in index.byId
    ensures forall x :: x in r ==> x in order && index.byId[x].parentId == Some(id)
  {
    if order == [] then []
    else
      var rest := LinkedChildren(index, order[1..], id);
      if index.byId[order[0]].parentId == Some(id) && order[0] != id then [order[0]] + rest else rest
  }

  /** The ids a snapshot's children are built from. */
  function KidsOf(index: Index, id: string): (r: seq<string>)
    requires index.Valid() && Closed(index) && id in index.byId
    ensures forall kid :: kid in r ==> kid in index.byId
  {
    if index.byId[id].children != [] then ResolveChildren(index, index.byId[id].children)
    else LinkedChildren(index, index.order, id)
  }

  lemma {:induction false} NoLargerSet(a: set<string>, b: set<string>)
    requires a <= b
    ensures |a| <= |b|
    decreases a
  {
    if a != {} {
      var x :| x in a;
      NoLargerSet(a - {x}, b - {x});
    }
  }

  lemma {:induction false} SmallerSet(a: set<string>, b: set<string>)
    requires a < b
    ensures |a| < |b|
  {
    assert b - a != {};
    var x :| x in b - a;
    NoLargerSet(a, b - {x});
  }

  /** The inner function `build`, with its shared `visited` set threaded through. */
  function Build(index: Index, id: string, visited: set<string>): (r: (PlanNode, set<string>))
    requires index.Valid() && Closed(index) && id in index.byId
    ensures visited <= r.1
    decreases |index.byId.Keys - visited|, 0
  {
    var snapshot := index.byId[id];
    if id in visited then (snapshot.(children := []), visited)
    else
      assert index.byId.Keys - (visited + {id}) < index.byId.Keys - visited;
      SmallerSet(index.byId.Keys - (visited + {id}), index.byId.Keys - visited);
      var (children, seen) := BuildAll(index, KidsOf(index, id), visited + {id});
      (snapshot.(children := children), seen)
  }

  function BuildAll(index: Index, ids: seq<string>, visited: set<string>): (r: (seq<PlanNode>, set<string>))
    requires index.Valid() && Closed(index) && forall id :: id in ids ==> id in index.byId
    ensures visited <= r.1
    decreases |index.byId.Keys - visited|, |ids| + 1
  {
    if ids == [] then ([], visited)
    else
      var (first, seen) := Build(index, ids[0], visited);
      NoLargerSet(index.byId.Keys - seen, index.byId.Keys - visited);
      var (rest, all) := BuildAll(index, ids[1..], seen);
      ([first] + rest, all)
  }

  lemma {:induction false} FirstUnreferencedIn(index: Index, order: seq<string>)
    requires index.Valid()
    ensures FirstUnreferenced(index, order).Some? ==> FirstUnreferenced(index, order).value in order
  {
    if order != [] && ReferencedAsChild(index, order[0]) {
      FirstUnreferencedIn(index, order[1..]);
    }
  }

  lemma {:induction false} IndexHasFirst(nodes: seq<PlanNode>, removed: set<string>)
    requires nodes != [] && nodes[0].id !in removed
    ensures nodes[0].id in BuildIndex(nodes, removed).byId
    ensures BuildIndex(nodes, removed).order[0] == nodes[0].id
  {
    if |nodes| > 1 {
      IndexHasFirst(nodes[..|nodes| - 1], removed);
    } else {
      assert nodes[..0] == [];
    }
  }

  /** `buildTreeFromSnapshots`: the first snapshot nobody refers to is the root, failing that the first. */
  function Rebuild(nodes: seq<PlanNode>, removed: set<string>): Option<PlanNode>
    requires Closed(BuildIndex(nodes, removed))
    requires nodes != [] ==> nodes[0].id !in removed
  {
    if nodes == [] then None
    else
      var index := BuildIndex(nodes, removed);
      IndexHasFirst(nodes, removed);
      FirstUnreferencedIn(index, index.order);
      var root := FirstUnreferenced(index, index.order);
      Some(Build(index, if root.Some? then root.value else nodes[0].id, {}).0)
  }

  // ---- the round trip ----

  lemma {:induction false} IndexOfDistinct(nodes: seq<PlanNode>)
    requires DistinctIds(nodes)
    ensures forall n :: n in nodes ==> n.id in BuildIndex(nodes, {}).byId && BuildIndex(nodes, {}).byId[n.id] == n
    ensures forall id :: id in BuildIndex(nodes, {}).byId ==> BuildIndex(nodes, {}).byId[id] in nodes
  {
    if nodes != [] {
      var front := nodes[..|nodes| - 1];
      IndexOfDistinct(front);
      assert nodes == front + [nodes[|nodes| - 1]];
    }
  }

  /** Children of listed nodes are looked up by id in the listing, and none of them is the root. */
  lemma {:induction false} ChildIndexed(root: PlanNode, index: Index, p: PlanNode, c: PlanNode)
    requires DistinctIds(Flatten(root)) && p in Flatten(root) && c in p.children
    ensures c in Flatten(root) && c.id != root.id
  {
    ChildListed(root, p, c);
    var k :| 0 <= k < |FlattenAll(root.children)| && FlattenAll(root.children)[k] == c;
    assert Flatten(root)[0] == root && Flatten(root)[k + 1] == c;
  }

  /** Nobody refers to the root of a well-formed tree, and looking its children up always succeeds. */
  lemma {:induction false} RootUnreferenced(root: PlanNode, index: Index)
    requires WellFormed(root) && index == BuildIndex(Flatten(root), {})
    ensures Closed(index) && !ReferencedAsChild(index, root.id)
  {
    IndexOfDistinct(Flatten(root));
    forall p, c | p in index.byId && c in index.byId[p].children
      ensures c.id in index.byId && c.id != root.id
    {
      ChildIndexed(root, index, index.byId[p], c);
    }
    assert root in Flatten(root);
  }

  function IdsOf(nodes: seq<PlanNode>): (r: seq<string>)
    ensures |r| == |nodes| && forall k :: 0 <= k < |r| ==> r[k] == nodes[k].id
  {
    seq(|nodes|, k requires 0 <= k < |nodes| => nodes[k].id)
  }

  /** The index knows these nodes, all but their children, and finds the ids of those. */
  ghost predicate Faithful(index: Index, nodes: seq<PlanNode>)
    requires index.Valid() && Closed(index)
  {
    forall n :: n in nodes ==>
      && n.id in index.byId && index.byId[n.id].(children := n.children) == n
      && KidsOf(index, n.id) == IdsOf(n.children)
  }

  lemma {:induction false} DistinctParts(a: seq<PlanNode>, b: seq<PlanNode>)
    requires DistinctIds(a + b)
    ensures DistinctIds(a) && DistinctIds(b) && Ids(a) !! Ids(b) && Ids(a + b) == Ids(a) + Ids(b)
  {
    var ab := a + b;
    forall i, j | 0 <= i < j < |a| ensures a[i].id != a[j].id {
      assert ab[i] == a[i] && ab[j] == a[j];
    }
    forall i, j | 0 <= i < j < |b| ensures b[i].id != b[j].id {
      assert ab[|a| + i] == b[i] && ab[|a| + j] == b[j];
    }
    forall i, j | 0 <= i < |a| && 0 <= j < |b| ensures a[i].id != b[j].id {
      assert ab[i] == a[i] && ab[|a| + j] == b[j];
    }
  }

  /** Build returns the very subtree whose id it is given, and visits exactly that subtree's ids. */
  lemma {:induction false} BuildRestores(index: Index, node: PlanNode, visited: set<string>)
    requires index.Valid() && Closed(index) && Faithful(index, Flatten(node))
    requires DistinctIds(Flatten(node)) && Ids(Flatten(node)) !! visited
    ensures node.id in index.byId
    ensures Build(index, node.id, visited) == (node, visited + Ids(Flatten(node)))
    decreases node, 1
  {
    DistinctParts([node], FlattenAll(node.children));
    assert node in Flatten(node);
    assert Ids([node]) == {node.id} by { assert node in [node]; }
    assert Faithful(index, FlattenAll(node.children));
    BuildAllRestores(index, node.children, KidsOf(index, node.id), visited + {node.id});
    assert Build(index, node.id, visited)
      == (index.byId[node.id].(children := node.children), visited + {node.id} + Ids(FlattenAll(node.children)));
    assert visited + {node.id} + Ids(FlattenAll(node.children)) == visited + Ids(Flatten(node));
  }

  lemma {:induction false} BuildAllRestores(index: Index, nodes: seq<PlanNode>, ids: seq<string>, visited: set<string>)
    requires index.Valid() && Closed(index) && Faithful(index, FlattenAll(nodes))
    requires forall id :: id in ids ==> id in index.byId
    requires |ids| == |nodes| && forall k :: 0 <= k < |ids| ==> ids[k] == nodes[k].id
    requires DistinctIds(FlattenAll(nodes)) && Ids(FlattenAll(nodes)) !! visited
    ensures BuildAll(index, ids, visited) == (nodes, visited + Ids(FlattenAll(nodes)))
    decreases nodes, 0
  {
    hide Build, Flatten, KidsOf, Closed;
    if nodes == [] {
      assert ids == [] && visited + Ids(FlattenAll(nodes)) == visited;
    } else {
      var head, tail := Flatten(nodes[0]), FlattenAll(nodes[1..]);
      DistinctParts(head, tail);
      assert Faithful(index, head) && Faithful(index, tail);
      BuildRestores(index, nodes[0], visited);
      BuildAllRestores(index, nodes[1..], ids[1..], visited + Ids(head));
      assert visited + Ids(head) + Ids(tail) == visited + Ids(FlattenAll(nodes));
      assert nodes == [nodes[0]] + nodes[1..];
    }
  }

  lemma {:induction false} NoLinkedChildren(root: PlanNode, index: Index, leaf: PlanNode)
    requires WellFormed(root) && index.Valid()
    requires forall id :: id in index.byId ==> index.byId[id] in Flatten(root)
    requires leaf in Flatten(root) && leaf.children == []
    ensures LinkedChildren(index, index.order, leaf.id) == []
  {
    var linked := LinkedChildren(index, index.order, leaf.id);
    if linked != [] {
      var n := index.byId[linked[0]];
      assert linked[0] in linked;
      assert n != root;
      var p := ParentOf(root, n);
      SameIdSameNode(Flatten(root), p, leaf);
      assert false;
    }
  }

  /** A well-formed plan tree of any shape survives being flattened, sent and rebuilt. */
  lemma {:induction false} FlattenRebuildRoundTrip(root: PlanNode)
    requires WellFormed(root)
    ensures Closed(BuildIndex(Flatten(root), {}))
    ensures Rebuild(Flatten(root), {}) == Some(root)
  {
    var index := BuildIndex(Flatten(root), {});
    IndexOfDistinct(Flatten(root));
    RootUnreferenced(root, index);
    IndexHasFirst(Flatten(root), {});
    assert FirstUnreferenced(index, index.order) == Some(root.id);
    forall n | n in Flatten(root) ensures KidsOf(index, n.id) == IdsOf(n.children) {
      if n.children == [] { NoLinkedChildren(root, index, n); }
    }
    BuildRestores(index, root, {});
  }
}
