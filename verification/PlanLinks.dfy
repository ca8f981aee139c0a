/**
 * Rebuilding from parent links: a flat list whose nodes leave their children out is rebuilt into the same tree, and
 * what the index and the choice of the root come to for any list.
 */
module PlanLinks {
  import opened Options
  import opened PlanTree
  import opened PlanConsumer

  // ---- the index of any list ----

  /** Node `k` is the last one that carries this id, which is not removed. */
  ghost predicate LastKept(nodes: seq<PlanNode>, removed: set<string>, id: string, k: int) {
    0 <= k < |nodes| && nodes[k].id == id && id !in removed && forall j :: k < j < |nodes| ==> nodes[j].id != id
  }

  ghost predicate NoRepetition(ids: seq<string>) {
    forall i, j :: 0 <= i < j < |ids| ==> ids[i] != ids[j]
  }

  lemma {:induction false} LastKeptStep(front: seq<PlanNode>, n: PlanNode, removed: set<string>, id: string, k: int)
    ensures LastKept(front + [n], removed, id, k) <==>
      if k == |front| then n.id == id && id !in removed else LastKept(front, removed, id, k) && n.id != id
  {
    var nodes := front + [n];
    assert nodes[|front|] == n && forall j :: 0 <= j < |front| ==> nodes[j] == front[j];
  }

  lemma {:induction false} OrderOnce(nodes: seq<PlanNode>, removed: set<string>)
    ensures NoRepetition(BuildIndex(nodes, removed).order)
  {
    if nodes != [] {
      var front, n := nodes[..|nodes| - 1], nodes[|nodes| - 1];
      OrderOnce(front, removed);
      var order := BuildIndex(front, removed).order;
      assert n.id in BuildIndex(front, removed).byId <==> n.id in order;
      assert n.id !in order ==> NoRepetition(order + [n.id]);
    }
  }

  lemma {:induction false} KeptIs(nodes: seq<PlanNode>, removed: set<string>, id: string, k: int)
    requires LastKept(nodes, removed, id, k)
    ensures id in BuildIndex(nodes, removed).byId && BuildIndex(nodes, removed).byId[id] == nodes[k]
  {
    var front, n := nodes[..|nodes| - 1], nodes[|nodes| - 1];
    assert nodes == front + [n];
    LastKeptStep(front, n, removed, id, k);
    if k < |front| { KeptIs(front, removed, id, k); }
  }

  lemma {:induction false} KeptOf(nodes: seq<PlanNode>, removed: set<string>, id: string) returns (k: int)
    ensures id in BuildIndex(nodes, removed).byId ==> LastKept(nodes, removed, id, k)
  {
    k := |nodes| - 1;
    if nodes != [] && id in BuildIndex(nodes, removed).byId {
      var front, n := nodes[..|nodes| - 1], nodes[|nodes| - 1];
      assert nodes == front + [n];
      if n.id != id || id in removed { k := KeptOf(front, removed, id); }
      LastKeptStep(front, n, removed, id, k);
    }
  }

  /** For every list: the index holds, once each, the ids that are not removed, each with its last node. */
  lemma {:induction false} IndexIsLastWins(nodes: seq<PlanNode>, removed: set<string>)
    ensures var index := BuildIndex(nodes, removed);
      && NoRepetition(index.order)
      && (forall id :: id in index.byId <==> exists k :: LastKept(nodes, removed, id, k))
      && (forall id, k :: LastKept(nodes, removed, id, k) ==> index.byId[id] == nodes[k])
  {
    OrderOnce(nodes, removed);
    forall id ensures id in BuildIndex(nodes, removed).byId <==> exists k :: LastKept(nodes, removed, id, k) {
      var k := KeptOf(nodes, removed, id);
      if i :| LastKept(nodes, removed, id, i) { KeptIs(nodes, removed, id, i); }
    }
    forall id, k | LastKept(nodes, removed, id, k) ensures BuildIndex(nodes, removed).byId[id] == nodes[k] {
      KeptIs(nodes, removed, id, k);
    }
  }

  /** No indexed node lists the id among its children, and its own node names no indexed parent. */
  ghost predicate Free(index: Index, id: string) {
    && (forall p, c :: p in index.byId && c in index.byId[p].children ==> c.id != id)
    && (id in index.byId ==>
          forall parent :: index.byId[id].parentId == Some(parent) && parent != "" ==> parent !in index.byId)
  }

  lemma {:induction false} FirstFree(index: Index, order: seq<string>) returns (k: nat)
    requires index.Valid()
    ensures k <= |order| && (forall j :: 0 <= j < k ==> !Free(index, order[j]))
    ensures k < |order| ==> Free(index, order[k]) && FirstUnreferenced(index, order) == Some(order[k])
    ensures k == |order| ==> FirstUnreferenced(index, order) == None
  {
    k := 0;
    if order != [] {
      assert ReferencedAsChild(index, order[0]) <==> !Free(index, order[0]);
      if ReferencedAsChild(index, order[0]) {
        k := FirstFree(index, order[1..]);
        k := k + 1;
      }
    }
  }

  lemma {:induction false} BuiltId(index: Index, id: string)
    requires index.Valid() && Closed(index) && id in index.byId
    ensures Build(index, id, {}).0.id == id
  {
    hide Closed, KidsOf;
  }

  /** For every list: the root is the first free id in the order of the index, or failing that the list's first node. */
  lemma {:induction false} RootIsFirstFree(nodes: seq<PlanNode>, removed: set<string>) returns (k: nat)
    requires Closed(BuildIndex(nodes, removed)) && nodes != [] && nodes[0].id !in removed
    ensures var (order, root) := (BuildIndex(nodes, removed).order, Rebuild(nodes, removed));
      && k <= |order| && (forall j :: 0 <= j < k ==> !Free(BuildIndex(nodes, removed), order[j]))
      && (k < |order| ==> Free(BuildIndex(nodes, removed), order[k]))
      && root.Some? && root.value.id == if k < |order| then order[k] else nodes[0].id
  {
    var index := BuildIndex(nodes, removed);
    IndexHasFirst(nodes, removed);
    FirstUnreferencedIn(index, index.order);
    k := FirstFree(index, index.order);
    hide FirstUnreferenced, Free, BuildIndex, Closed;
    var root := FirstUnreferenced(index, index.order);
    BuiltId(index, if root.Some? then root.value else nodes[0].id);
  }

  /** A node as it is sent without its children. */
  function Bare(n: PlanNode): PlanNode {
    n.(children := [])
  }

  /** An id that was built already, as in a cycle of parent links, becomes a leaf and ends the descent. */
  lemma {:induction false} RevisitIsLeaf(index: Index, id: string, visited: set<string>)
    requires index.Valid() && Closed(index) && id in index.byId && id in visited
    ensures Build(index, id, visited) == (Bare(index.byId[id]), visited)
  {
  }

  // ---- a list with parent links alone ----

  function BareAll(nodes: seq<PlanNode>): (r: seq<PlanNode>)
    ensures |r| == |nodes| && forall k :: 0 <= k < |r| ==> r[k] == Bare(nodes[k])
  {
    seq(|nodes|, k requires 0 <= k < |nodes| => Bare(nodes[k]))
  }

  /** The ids of the other nodes in the list that name `id` as their parent. */
  function Linked(nodes: seq<PlanNode>, id: string): seq<string> {
    if nodes == [] then []
    else (if nodes[0].parentId == Some(id) && nodes[0].id != id then [nodes[0].id] else []) + Linked(nodes[1..], id)
  }

  lemma {:induction false} LinkedConcat(a: seq<PlanNode>, b: seq<PlanNode>, id: string)
    ensures Linked(a + b, id) == Linked(a, id) + Linked(b, id)
  {
    if a == [] {
      assert a + b == b;
    } else {
      assert (a + b)[1..] == a[1..] + b;
      LinkedConcat(a[1..], b, id);
    }
  }

  /** The children of listed nodes, at every level, name their parents. */
  ghost predicate LinkedUp(nodes: seq<PlanNode>) {
    forall n, c :: n in nodes && c in n.children ==> c.parentId == Some(n.id)
  }

  /** Outside the subtree only its root can be linked. */
  lemma {:induction false} LinkedOutside(node: PlanNode, id: string)
    requires LinkedUp(Flatten(node)) && id !in Ids(Flatten(node))
    ensures Linked(Flatten(node), id) == if node.parentId == Some(id) then [node.id] else []
    decreases node, 1
  {
    assert node in Flatten(node) && Flatten(node)[1..] == FlattenAll(node.children);
    assert forall n :: n in FlattenAll(node.children) ==> n in Flatten(node);
    assert forall c :: c in node.children ==> c.parentId == Some(node.id) && node.id != id;
    LinkedOutsideAll(node.children, id);
  }

  lemma {:induction false} IdInside(nodes: seq<PlanNode>, n: PlanNode)
    requires n in nodes
    ensures n.id in Ids(nodes)
  {
  }

  lemma {:induction false} LinkedParts(a: seq<PlanNode>, b: seq<PlanNode>, id: string)
    requires LinkedUp(a + b)
    ensures LinkedUp(a) && LinkedUp(b) && (id !in Ids(a + b) ==> id !in Ids(a) && id !in Ids(b))
  {
    assert forall n :: n in a || n in b ==> n in a + b;
    if id !in Ids(a + b) {
      forall n | n in a + b ensures n.id != id { IdInside(a + b, n); }
    }
  }

  lemma {:induction false} NothingLinked(id: string)
    ensures Linked([], id) == []
  {
  }

  lemma {:induction false} LinkedOutsideAll(nodes: seq<PlanNode>, id: string)
    requires LinkedUp(FlattenAll(nodes)) && id !in Ids(FlattenAll(nodes))
    requires forall n :: n in nodes ==> n.parentId != Some(id)
    ensures Linked(FlattenAll(nodes), id) == []
    decreases nodes, 0
  {
    hide Linked, Flatten, LinkedUp, Ids;
    if nodes == [] {
      NothingLinked(id);
    } else {
      var head, tail := Flatten(nodes[0]), FlattenAll(nodes[1..]);
      assert FlattenAll(nodes) == head + tail;
      LinkedParts(head, tail, id);
      LinkedOutside(nodes[0], id);
      LinkedOutsideAll(nodes[1..], id);
      LinkedConcat(head, tail, id);
    }
  }

  lemma {:induction false} LinkedSiblings(nodes: seq<PlanNode>, id: string)
    requires LinkedUp(FlattenAll(nodes)) && id !in Ids(FlattenAll(nodes))
    requires forall n :: n in nodes ==> n.parentId == Some(id)
    ensures Linked(FlattenAll(nodes), id) == IdsOf(nodes)
  {
    hide Linked, Flatten, LinkedUp, Ids;
    if nodes == [] {
      NothingLinked(id);
    } else {
      var head, tail := Flatten(nodes[0]), FlattenAll(nodes[1..]);
      assert FlattenAll(nodes) == head + tail;
      LinkedParts(head, tail, id);
      LinkedOutside(nodes[0], id);
      LinkedSiblings(nodes[1..], id);
      LinkedConcat(head, tail, id);
      assert IdsOf(nodes) == [nodes[0].id] + IdsOf(nodes[1..]);
    }
  }

  lemma {:induction false} LinkedInside(root: PlanNode, node: PlanNode)
    requires LinkedUp(Flatten(root)) && DistinctIds(Flatten(root)) && node in Flatten(root)
    requires root.parentId.Some? ==> root.parentId.value !in Ids(Flatten(root))
    ensures Linked(Flatten(root), node.id) == IdsOf(node.children)
    decreases root, 1
  {
    var rest := FlattenAll(root.children);
    DistinctParts([root], rest);
    IdInside(Flatten(root), node);
    IdInside([root], root);
    assert Flatten(root) == [root] + rest && [root][1..] == [];
    assert forall n :: n in rest ==> n in Flatten(root);
    LinkedConcat([root], rest, node.id);
    assert Linked([root], node.id) == [];
    assert root in Flatten(root) && forall c :: c in root.children ==> c.parentId == Some(root.id);
    hide Linked, Flatten, FlattenAll;
    if node == root {
      LinkedSiblings(root.children, root.id);
    } else {
      IdInside(rest, node);
      LinkedInsideAll(root, root.children, node);
    }
  }

  lemma {:induction false} LinkedInsideAll(parent: PlanNode, nodes: seq<PlanNode>, node: PlanNode)
    requires LinkedUp(FlattenAll(nodes)) && DistinctIds(FlattenAll(nodes)) && node in FlattenAll(nodes)
    requires parent.id !in Ids(FlattenAll(nodes)) && forall n :: n in nodes ==> n.parentId == Some(parent.id)
    ensures Linked(FlattenAll(nodes), node.id) == IdsOf(node.children)
    decreases nodes, 0
  {
    hide Linked, Flatten;
    var head, tail := Flatten(nodes[0]), FlattenAll(nodes[1..]);
    DistinctParts(head, tail);
    assert forall n :: n in head || n in tail ==> n in head + tail;
    assert nodes[0] in nodes && forall n :: n in nodes[1..] ==> n in nodes;
    IdInside(FlattenAll(nodes), node);
    LinkedConcat(head, tail, node.id);
    if node in head {
      IdInside(head, node);
      LinkedInside(nodes[0], node);
      LinkedOutsideAll(nodes[1..], node.id);
    } else {
      IdInside(tail, node);
      LinkedOutside(nodes[0], node.id);
      LinkedInsideAll(parent, nodes[1..], node);
    }
  }

  // ---- the index of such a list ----

  lemma {:induction false} BareIndexStep(front: seq<PlanNode>, last: PlanNode)
    requires last.id !in IdsOf(front)
    requires forall id :: id in BuildIndex(BareAll(front), {}).byId <==> id in IdsOf(front)
    ensures var (was, now) := (BuildIndex(BareAll(front), {}), BuildIndex(BareAll(front + [last]), {}));
      now.order == was.order + [last.id] && now.byId == was.byId[last.id := Bare(last)]
  {
    hide IdsOf;
    var bare := BareAll(front + [last]);
    assert bare[..|bare| - 1] == BareAll(front) && bare[|bare| - 1] == Bare(last);
  }

  lemma {:induction false} NotAmong(front: seq<PlanNode>, last: PlanNode)
    requires DistinctIds(front + [last])
    ensures DistinctIds(front) && last.id !in IdsOf(front)
  {
    DistinctParts(front, [last]);
    var nodes := front + [last];
    forall i | 0 <= i < |front| ensures IdsOf(front)[i] != last.id {
      assert nodes[i] == front[i] && nodes[|front|] == last;
    }
  }

  lemma {:induction false} BareIndex(nodes: seq<PlanNode>)
    requires DistinctIds(nodes)
    ensures var index := BuildIndex(BareAll(nodes), {});
      index.order == IdsOf(nodes) && forall id :: id in index.byId <==> id in IdsOf(nodes)
  {
    if nodes == [] {
      assert BareAll(nodes) == [] && IdsOf(nodes) == [];
    } else {
      hide DistinctIds, BuildIndex;
      var front, last := nodes[..|nodes| - 1], nodes[|nodes| - 1];
      assert nodes == front + [last];
      NotAmong(front, last);
      BareIndex(front);
      BareIndexStep(front, last);
      assert IdsOf(nodes) == IdsOf(front) + [last.id];
    }
  }

  lemma {:induction false} BareLookup(nodes: seq<PlanNode>, k: nat)
    requires DistinctIds(nodes) && k < |nodes|
    ensures var index := BuildIndex(BareAll(nodes), {});
      nodes[k].id in index.byId && index.byId[nodes[k].id] == Bare(nodes[k])
  {
    hide DistinctIds, BuildIndex;
    var front, last := nodes[..|nodes| - 1], nodes[|nodes| - 1];
    assert nodes == front + [last];
    NotAmong(front, last);
    BareIndex(front);
    BareIndexStep(front, last);
    if k < |front| {
      BareLookup(front, k);
      assert IdsOf(front)[k] == nodes[k].id;
    }
  }

  lemma {:induction false} BareLookups(nodes: seq<PlanNode>)
    requires DistinctIds(nodes)
    ensures var index := BuildIndex(BareAll(nodes), {});
      forall n :: n in nodes ==> n.id in index.byId && index.byId[n.id] == Bare(n)
  {
    hide DistinctIds, BuildIndex;
    forall n | n in nodes
      ensures n.id in BuildIndex(BareAll(nodes), {}).byId && BuildIndex(BareAll(nodes), {}).byId[n.id] == Bare(n)
    {
      var k :| 0 <= k < |nodes| && nodes[k] == n;
      BareLookup(nodes, k);
    }
  }

  lemma {:induction false} LinkedChildrenAre(index: Index, nodes: seq<PlanNode>, order: seq<string>, id: string)
    requires index.Valid() && order == IdsOf(nodes) && forall x :: x in order ==> x in index.byId
    requires forall n :: n in nodes ==> n.id in index.byId && index.byId[n.id] == Bare(n)
    ensures LinkedChildren(index, order, id) == Linked(nodes, id)
  {
    if nodes != [] {
      assert order[1..] == IdsOf(nodes[1..]) && nodes[0] in nodes;
      LinkedChildrenAre(index, nodes[1..], order[1..], id);
    }
  }

  lemma {:induction false} NoNestedChildren(nodes: seq<PlanNode>)
    requires DistinctIds(nodes)
    ensures Closed(BuildIndex(BareAll(nodes), {}))
    ensures forall id :: id in BuildIndex(BareAll(nodes), {}).byId ==>
      BuildIndex(BareAll(nodes), {}).byId[id].children == []
  {
    hide BuildIndex, DistinctIds;
    BareIndex(nodes);
    forall id | id in BuildIndex(BareAll(nodes), {}).byId
      ensures BuildIndex(BareAll(nodes), {}).byId[id].children == []
    {
      var k :| 0 <= k < |nodes| && IdsOf(nodes)[k] == id;
      BareLookup(nodes, k);
    }
  }

  lemma {:induction false} WellFormedIsLinked(root: PlanNode)
    requires WellFormed(root)
    ensures LinkedUp(Flatten(root))
  {
  }

  lemma {:induction false} BareIsFaithful(root: PlanNode, index: Index)
    requires WellFormed(root) && index == BuildIndex(BareAll(Flatten(root)), {}) && Closed(index)
    ensures Faithful(index, Flatten(root))
  {
    hide BuildIndex, Closed, Linked, LinkedChildren, Flatten;
    var nodes := Flatten(root);
    BareIndex(nodes);
    BareLookups(nodes);
    NoNestedChildren(nodes);
    WellFormedIsLinked(root);
    forall n | n in nodes ensures KidsOf(index, n.id) == IdsOf(n.children) {
      LinkedInside(root, n);
      LinkedChildrenAre(index, nodes, index.order, n.id);
    }
  }

  lemma {:induction false} BareRootIsFree(root: PlanNode, index: Index)
    requires WellFormed(root) && index == BuildIndex(BareAll(Flatten(root)), {})
    ensures index.order != [] && index.order[0] == root.id && !ReferencedAsChild(index, root.id)
  {
    hide BuildIndex;
    BareIndex(Flatten(root));
    BareLookups(Flatten(root));
    NoNestedChildren(Flatten(root));
    assert Flatten(root)[0] == root && root in Flatten(root);
  }

  /** Without any children in the list, the parent links alone give back every well-formed tree. */
  lemma {:induction false} LinkedRebuildRoundTrip(root: PlanNode)
    requires WellFormed(root)
    ensures Closed(BuildIndex(BareAll(Flatten(root)), {}))
    ensures Rebuild(BareAll(Flatten(root)), {}) == Some(root)
  {
    var nodes := Flatten(root);
    var index := BuildIndex(BareAll(nodes), {});
    NoNestedChildren(nodes);
    BareIsFaithful(root, index);
    BareRootIsFree(root, index);
    IndexHasFirst(BareAll(nodes), {});
    hide BuildIndex, Closed, Faithful, ReferencedAsChild, Build, KidsOf;
    assert Flatten(root)[0] == root;
    assert FirstUnreferenced(index, index.order) == Some(root.id);
    BuildRestores(index, root, {});
  }
}
