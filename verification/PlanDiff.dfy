/** `_compute_plan_diff`: which node ids were added, removed or modified between two flat plan listings. */
module PlanDiff {
  import opened Options
  import opened PlanTree
  import opened StringOrder

  datatype IdDiff = IdDiff(added: seq<string>, removed: seq<string>, modified: seq<string>)

  /** The fields whose change makes a node count as modified. */
  datatype Signature = Signature(
    nodeLabel: string, description: string, status: PlanStatus, estimatedDurationSec: Option<real>)

  function SignatureOf(node: PlanNode): Signature {
    Signature(node.nodeLabel, node.description, node.status, node.estimatedDurationSec)
  }

  /** The dictionary from id to node that the listing fills in order. */
  function ById(nodes: seq<PlanNode>): map<string, PlanNode> {
    if nodes == [] then map[]
    else ById(nodes[..|nodes| - 1])[nodes[|nodes| - 1].id := nodes[|nodes| - 1]]
  }

  /** An id belongs to the last node that carries it. */
  ghost predicate LastWithId(nodes: seq<PlanNode>, id: string, k: int) {
    0 <= k < |nodes| && nodes[k].id == id && forall j :: k < j < |nodes| ==> nodes[j].id != id
  }

  lemma {:induction false} ByIdIsLastWins(nodes: seq<PlanNode>, id: string)
    ensures id in ById(nodes) <==> exists k :: LastWithId(nodes, id, k)
    ensures forall k :: LastWithId(nodes, id, k) ==> ById(nodes)[id] == nodes[k]
  {
    if nodes != [] {
      var front, last := nodes[..|nodes| - 1], |nodes| - 1;
      ByIdIsLastWins(front, id);
      if nodes[last].id == id {
        assert LastWithId(nodes, id, last);
      } else {
        assert forall k :: LastWithId(nodes, id, k) <==> LastWithId(front, id, k);
      }
    }
  }

  ghost predicate Differs(oldById: map<string, PlanNode>, newById: map<string, PlanNode>, id: string) {
    id in oldById && id in newById && SignatureOf(oldById[id]) != SignatureOf(newById[id])
  }

  ghost function ModifiedIds(oldById: map<string, PlanNode>, newById: map<string, PlanNode>): set<string> {
    set id | id in oldById && Differs(oldById, newById, id)
  }

  ghost function DiffOf(oldNodes: seq<PlanNode>, newNodes: seq<PlanNode>): IdDiff {
    var (o, n) := (ById(oldNodes), ById(newNodes));
    IdDiff(Sorted(n.Keys - o.Keys), Sorted(o.Keys - n.Keys), Sorted(ModifiedIds(o, n)))
  }

  method IndexById(nodes: seq<PlanNode>) returns (byId: map<string, PlanNode>)
    ensures byId == ById(nodes)
  {
    byId := map[];
    for k := 0 to |nodes|
      invariant byId == ById(nodes[..k])
    {
      assert nodes[..k + 1][..k] == nodes[..k];
      byId := byId[nodes[k].id := nodes[k]];
    }
    assert nodes[..|nodes|] == nodes;
  }

  /** The ids among `seen` whose signature changed, in order. */
  ghost predicate Collected(
    modified: seq<string>, seen: seq<string>, o: map<string, PlanNode>, n: map<string, PlanNode>)
  {
    Ascending(modified) && forall id :: id in modified <==> id in seen && Differs(o, n, id)
  }

  lemma {:induction false} NothingCollected(o: map<string, PlanNode>, n: map<string, PlanNode>)
    ensures Collected([], [], o, n)
  {
  }

  lemma {:induction false} CollectOne(
    modified: seq<string>, shared: seq<string>, k: nat, o: map<string, PlanNode>, n: map<string, PlanNode>)
    requires k < |shared| && Ascending(shared) && Collected(modified, shared[..k], o, n)
    requires shared[k] in o && shared[k] in n
    ensures Collected(modified + if SignatureOf(o[shared[k]]) != SignatureOf(n[shared[k]]) then [shared[k]] else [],
                      shared[..k + 1], o, n)
    ensures Collected(modified, shared[..k + 1], o, n) || SignatureOf(o[shared[k]]) != SignatureOf(n[shared[k]])
  {
    hide Leq, SignatureOf;
    var id := shared[k];
    assert shared[..k + 1] == shared[..k] + [id];
    if Differs(o, n, id) {
      var longer := modified + [id];
      forall i, j | 0 <= i < j < |longer| ensures Leq(longer[i], longer[j]) && longer[i] != longer[j] {
        assert longer[i] == modified[i];
        if j == |modified| {
          assert modified[i] in modified;
          assert modified[i] in shared[..k];
        }
      }
    } else {
      assert modified + [] == modified;
    }
  }

  lemma {:induction false} CollectedAll(modified: seq<string>, o: map<string, PlanNode>, n: map<string, PlanNode>)
    requires Collected(modified, Sorted(o.Keys * n.Keys), o, n)
    ensures modified == Sorted(ModifiedIds(o, n))
  {
    hide SignatureOf, Sorted;
    var shared := Sorted(o.Keys * n.Keys);
    forall id ensures id in Elements(modified) <==> id in ModifiedIds(o, n) {
      assert id in shared <==> id in Elements(shared);
    }
    AscendingUnique(modified, Sorted(ModifiedIds(o, n)));
  }

  method ComputePlanDiff(oldNodes: seq<PlanNode>, newNodes: seq<PlanNode>) returns (diff: IdDiff)
    ensures diff == DiffOf(oldNodes, newNodes)
  {
    var oldById := IndexById(oldNodes);
    var newById := IndexById(newNodes);
    var added := Sorted(newById.Keys - oldById.Keys);
    var removed := Sorted(oldById.Keys - newById.Keys);
    var shared := Sorted(oldById.Keys * newById.Keys);
    var modified: seq<string> := [];
    assert forall k :: 0 <= k < |shared| ==> shared[k] in Elements(shared);
    hide Collected, Sorted, SignatureOf;
    NothingCollected(oldById, newById);
    for k := 0 to |shared|
      invariant Collected(modified, shared[..k], oldById, newById)
    {
      CollectOne(modified, shared, k, oldById, newById);
      if SignatureOf(oldById[shared[k]]) != SignatureOf(newById[shared[k]]) {
        modified := modified + [shared[k]];
      }
    }
    assert shared[..|shared|] == shared;
    CollectedAll(modified, oldById, newById);
    diff := IdDiff(added, removed, modified);
  }

  // ---- the algebra of the diff ----

  lemma {:induction false} DiffIsPartition(a: seq<PlanNode>, b: seq<PlanNode>)
    ensures var d := DiffOf(a, b);
      && Ascending(d.added) && Ascending(d.removed) && Ascending(d.modified)
      && Elements(d.added) !! Elements(d.removed) !! Elements(d.modified)
      && (forall id :: id in d.added <==> id in ById(b) && id !in ById(a))
      && (forall id :: id in d.removed <==> id in ById(a) && id !in ById(b))
      && (forall id :: id in d.modified <==> Differs(ById(a), ById(b), id))
  {
    var d := DiffOf(a, b);
    forall id
      ensures id in d.added <==> id in ById(b) && id !in ById(a)
      ensures id in d.removed <==> id in ById(a) && id !in ById(b)
      ensures id in d.modified <==> Differs(ById(a), ById(b), id)
    {
      assert id in d.added <==> id in Elements(d.added);
      assert id in d.removed <==> id in Elements(d.removed);
      assert id in d.modified <==> id in Elements(d.modified);
    }
  }

  /** Reading a diff backwards swaps additions with removals and keeps the modifications. */
  lemma {:induction false} DiffReverses(a: seq<PlanNode>, b: seq<PlanNode>)
    ensures DiffOf(b, a) == IdDiff(DiffOf(a, b).removed, DiffOf(a, b).added, DiffOf(a, b).modified)
  {
    assert ModifiedIds(ById(a), ById(b)) == ModifiedIds(ById(b), ById(a));
  }

  lemma {:induction false} EmptyDifference(a: set<string>, b: set<string>)
    ensures a - b == {} <==> a <= b
  {
    if a - b == {} {
      forall x | x in a ensures x in b { assert x !in a - b; }
    }
  }

  /** The diff is empty exactly for listings with the same ids and, id by id, the same signatures. */
  lemma {:induction false} DiffEmptyIff(a: seq<PlanNode>, b: seq<PlanNode>)
    ensures DiffOf(a, b) == IdDiff([], [], []) <==>
      ById(a).Keys == ById(b).Keys
      && forall id :: id in ById(a) && id in ById(b) ==> SignatureOf(ById(a)[id]) == SignatureOf(ById(b)[id])
  {
    var d := DiffOf(a, b);
    EmptyElements(d.added);
    EmptyElements(d.removed);
    EmptyElements(d.modified);
    var modified := ModifiedIds(ById(a), ById(b));
    forall id | Differs(ById(a), ById(b), id) ensures id in modified {}
    if modified != {} {
      var id :| id in modified;
      assert Differs(ById(a), ById(b), id);
    }
    EmptyDifference(ById(a).Keys, ById(b).Keys);
    EmptyDifference(ById(b).Keys, ById(a).Keys);
  }

  lemma {:induction false} DistinctFront(nodes: seq<PlanNode>)
    requires nodes != [] && DistinctIds(nodes)
    ensures var (front, last) := (nodes[..|nodes| - 1], nodes[|nodes| - 1]);
      && DistinctIds(front) && (forall n :: n in front ==> n.id != last.id)
      && (forall n :: n in nodes <==> n in front || n == last)
      && Ids(nodes) == Ids(front) + {last.id}
  {
    var front, last := nodes[..|nodes| - 1], nodes[|nodes| - 1];
    assert nodes == front + [last];
    assert forall n :: n in nodes <==> n in front || n == last;
  }

  /** Listings without repeated ids: the dictionary holds every node under its own id. */
  lemma {:induction false} ByIdOfDistinct(nodes: seq<PlanNode>)
    requires DistinctIds(nodes)
    ensures forall n :: n in nodes ==> n.id in ById(nodes) && ById(nodes)[n.id] == n
    ensures ById(nodes).Keys == Ids(nodes)
  {
    if nodes == [] {
      assert Ids(nodes) == {};
    } else {
      var front, last := nodes[..|nodes| - 1], nodes[|nodes| - 1];
      DistinctFront(nodes);
      hide DistinctIds;
      ByIdOfDistinct(front);
    }
  }
}
