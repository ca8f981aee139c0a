/** Plan nodes, the flat listing the tracker publishes, and the patches it sends for one node. */
module PlanTree {
  import opened Options

  datatype PlanStatus = Pending | Running | Completed | Failed | Skipped

  datatype PlanNode = PlanNode(
    id: string,
    parentId: Option<string>,
    nodeLabel: string,
    description: string,
    status: PlanStatus,
    estimatedDurationSec: Option<real>,
    startedAt: Option<int>,
    completedAt: Option<int>,
    reasoningRefs: seq<string>,
    children: seq<PlanNode>)

  /** The `updates` of a `plan.updated` event: only the keys that are present are merged. */
  datatype PlanPatch = PlanPatch(
    status: Option<PlanStatus>,
    startedAt: Option<int>,
    completedAt: Option<int>,
    reasoningRefs: Option<seq<string>>)

  /** `_flatten_plan_tree`: the node itself, then its children's listings in order. */
  function Flatten(node: PlanNode): seq<PlanNode>
    decreases node, 1
  {
    [node] + FlattenAll(node.children)
  }

  function FlattenAll(nodes: seq<PlanNode>): seq<PlanNode>
    decreases nodes, 0
  {
    if nodes == [] then [] else Flatten(nodes[0]) + FlattenAll(nodes[1..])
  }

  ghost function Ids(nodes: seq<PlanNode>): set<string> {
    set n | n in nodes :: n.id
  }

  ghost predicate DistinctIds(nodes: seq<PlanNode>) {
    forall i, j :: 0 <= i < j < |nodes| ==> nodes[i].id != nodes[j].id
  }

  /** Every child names its parent, at every level. */
  ghost predicate ParentLinked(node: PlanNode) {
    forall p, c :: p in Flatten(node) && c in p.children ==> c.parentId == Some(p.id)
  }

  /** A tree as the tracker builds it: ids are unique and parent links agree with nesting. */
  ghost predicate WellFormed(root: PlanNode) {
    DistinctIds(Flatten(root)) && ParentLinked(root) && root.parentId == None
  }

  /** The listing of one child is a contiguous block of its siblings' listing. */
  lemma {:induction false} ChildBlock(nodes: seq<PlanNode>, k: nat)
    returns (before: seq<PlanNode>, after: seq<PlanNode>)
    requires k < |nodes|
    ensures FlattenAll(nodes) == before + Flatten(nodes[k]) + after
    ensures before == FlattenAll(nodes[..k])
  {
    if k == 0 {
      before, after := [], FlattenAll(nodes[1..]);
      assert nodes[..0] == [];
    } else {
      before, after := ChildBlock(nodes[1..], k - 1);
      before := Flatten(nodes[0]) + before;
      assert nodes[..k][0] == nodes[0] && nodes[..k][1..] == nodes[1..][..k - 1];
    }
  }

  /** Listing order is depth-first: each subtree's listing stands inside its ancestors' listings, whole. */
  lemma {:induction false} SubtreeInside(node: PlanNode, sub: PlanNode)
    requires sub in Flatten(node)
    ensures forall n :: n in Flatten(sub) ==> n in Flatten(node)
    decreases node, 1
  {
    if sub != node {
      assert sub in FlattenAll(node.children);
      SubtreeInsideAll(node.children, sub);
    }
  }

  lemma {:induction false} SubtreeInsideAll(nodes: seq<PlanNode>, sub: PlanNode)
    requires sub in FlattenAll(nodes)
    ensures forall n :: n in Flatten(sub) ==> n in FlattenAll(nodes)
    decreases nodes, 0
  {
    if sub in Flatten(nodes[0]) {
      SubtreeInside(nodes[0], sub);
    } else {
      SubtreeInsideAll(nodes[1..], sub);
    }
  }

  /** Everything listed after the root is the child of a listed node. */
  lemma {:induction false} ParentOf(node: PlanNode, n: PlanNode) returns (p: PlanNode)
    requires n in FlattenAll(node.children)
    ensures p in Flatten(node) && n in p.children
    decreases node, 1
  {
    p := ParentOfAll(node, node.children, n);
  }

  lemma {:induction false} ParentOfAll(parent: PlanNode, nodes: seq<PlanNode>, n: PlanNode) returns (p: PlanNode)
    requires n in FlattenAll(nodes)
    requires forall c :: c in nodes ==> c in parent.children
    ensures p in [parent] + FlattenAll(nodes) && n in p.children
    decreases nodes, 0
  {
    if n == nodes[0] {
      p := parent;
    } else if n in Flatten(nodes[0]) {
      p := ParentOf(nodes[0], n);
    } else {
      p := ParentOfAll(parent, nodes[1..], n);
    }
  }

  /** Children of listed nodes are listed, after the root. */
  lemma {:induction false} ChildListed(node: PlanNode, p: PlanNode, c: PlanNode)
    requires p in Flatten(node) && c in p.children
    ensures c in FlattenAll(node.children)
    decreases node, 1
  {
    if p == node {
      var k :| 0 <= k < |p.children| && p.children[k] == c;
      var before, after := ChildBlock(p.children, k);
      assert c in Flatten(c);
    } else {
      ChildListedAll(node.children, p, c);
    }
  }

  lemma {:induction false} ChildListedAll(nodes: seq<PlanNode>, p: PlanNode, c: PlanNode)
    requires p in FlattenAll(nodes) && c in p.children
    ensures c in FlattenAll(nodes)
    decreases nodes, 0
  {
    if p in Flatten(nodes[0]) {
      ChildListed(nodes[0], p, c);
    } else {
      ChildListedAll(nodes[1..], p, c);
    }
  }

  /** Nodes without children list as themselves. */
  lemma {:induction false} FlattenLeaves(nodes: seq<PlanNode>)
    requires forall n :: n in nodes ==> n.children == []
    ensures FlattenAll(nodes) == nodes
  {
    if nodes != [] {
      FlattenLeaves(nodes[1..]);
      assert Flatten(nodes[0]) == [nodes[0]];
    }
  }

  /** With unique ids, a listed node is determined by its id. */
  lemma {:induction false} SameIdSameNode(nodes: seq<PlanNode>, a: PlanNode, b: PlanNode)
    requires DistinctIds(nodes) && a in nodes && b in nodes && a.id == b.id
    ensures a == b
  {
    var i :| 0 <= i < |nodes| && nodes[i] == a;
    var j :| 0 <= j < |nodes| && nodes[j] == b;
  }
}
