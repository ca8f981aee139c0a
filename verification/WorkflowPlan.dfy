/** The eight analysis stages, what the tracker records about each, and the plan tree built from that record. */
module WorkflowPlan {
  import opened Options
  import opened PlanTree

  datatype Stage = Scoping | DataLoading | Profiling | Eda | FeatureEng | Modeling | Evaluation | Reporting

  const ORDERED_STAGES: seq<Stage> :=
    [Scoping, DataLoading, Profiling, Eda, FeatureEng, Modeling, Evaluation, Reporting]

  const PLAN_ROOT_ID := "ds_workflow_plan"

  function StageId(stage: Stage): string {
    match stage
    case Scoping => "scoping"
    case DataLoading => "data_loading"
    case Profiling => "profiling"
    case Eda => "eda"
    case FeatureEng => "feature_eng"
    case Modeling => "modeling"
    case Evaluation => "evaluation"
    case Reporting => "reporting"
  }

  /** Lookup in the dictionaries that are keyed by stage id. */
  function StageOfId(id: string): Option<Stage> {
    if id == "scoping" then Some(Scoping)
    else if id == "data_loading" then Some(DataLoading)
    else if id == "profiling" then Some(Profiling)
    else if id == "eda" then Some(Eda)
    else if id == "feature_eng" then Some(FeatureEng)
    else if id == "modeling" then Some(Modeling)
    else if id == "evaluation" then Some(Evaluation)
    else if id == "reporting" then Some(Reporting)
    else None
  }

  /** `TOOL_TO_STAGE.get(tool_name)`: only these tools move a stage. */
  function StageOfTool(tool: string): Option<Stage> {
    if tool == "create_task_contract" then Some(Scoping)
    else if tool == "data_loader" then Some(DataLoading)
    else if tool == "data_profiler" then Some(Profiling)
    else if tool == "run_eda" then Some(Eda)
    else if tool == "feature_engineer" then Some(FeatureEng)
    else if tool == "train_model" then Some(Modeling)
    else if tool == "evaluate_model" then Some(Evaluation)
    else if tool == "generate_report" then Some(Reporting)
    else None
  }

  datatype StageMeta = StageMeta(title: string, description: string, estimatedDurationSec: real)

  function StageMetadata(stage: Stage): StageMeta {
    match stage
    case Scoping =>
      StageMeta("Scope mission", "Clarify the objective, success metric, constraints, and delivery target.", 120.0)
    case DataLoading => StageMeta("Load data", "Ingest workspace datasets and verify they can be used safely.", 90.0)
    case Profiling =>
      StageMeta("Profile data", "Inspect shape, missingness, schema quality, and obvious defects.", 180.0)
    case Eda => StageMeta("Explore data", "Check distributions, relationships, and early hypotheses.", 240.0)
    case FeatureEng =>
      StageMeta("Engineer features", "Prepare transformations and derived signals for modeling.", 240.0)
    case Modeling => StageMeta("Train model", "Fit baseline and candidate models against the prepared data.", 300.0)
    case Evaluation =>
      StageMeta("Evaluate model", "Measure generalization, error modes, and decision readiness.", 180.0)
    case Reporting => StageMeta("Report findings", "Summarize outcomes, risks, and next actions for delivery.", 120.0)
  }

  datatype StageStatus = Idle | Active | Done | Error

  /** The four dictionaries of the tracker, each with an entry for every stage. */
  datatype StageBook = StageBook(
    status: map<Stage, StageStatus>,
    startedAt: map<Stage, Option<int>>,
    completedAt: map<Stage, Option<int>>,
    reasoningRefs: map<Stage, seq<string>>)
  {
    ghost predicate Total() {
      && (forall s: Stage :: s in status)
      && (forall s: Stage :: s in startedAt)
      && (forall s: Stage :: s in completedAt)
      && (forall s: Stage :: s in reasoningRefs)
    }
  }

  lemma {:induction false} StageIndex(stage: Stage) returns (k: nat)
    ensures k < |ORDERED_STAGES| && ORDERED_STAGES[k] == stage
    ensures forall j :: 0 <= j < |ORDERED_STAGES| && j != k ==> ORDERED_STAGES[j] != stage
  {
    k := match stage
      case Scoping => 0
      case DataLoading => 1
      case Profiling => 2
      case Eda => 3
      case FeatureEng => 4
      case Modeling => 5
      case Evaluation => 6
      case Reporting => 7;
  }

  lemma {:induction false} AllStagesOrdered()
    ensures forall s: Stage :: s in ORDERED_STAGES
  {
    forall s: Stage ensures s in ORDERED_STAGES { var k := StageIndex(s); }
  }

  function EmptyBook(): (b: StageBook)
    ensures b.Total()
  {
    AllStagesOrdered();
    StageBook(map s | s in ORDERED_STAGES :: Idle, map s | s in ORDERED_STAGES :: None,
              map s | s in ORDERED_STAGES :: None, map s | s in ORDERED_STAGES :: [])
  }

  type Book = b: StageBook | b.Total() witness EmptyBook()

  /** `_stage_status_to_plan_status`. */
  function PlanStatusOf(status: StageStatus): PlanStatus {
    match status
    case Idle => PlanStatus.Pending
    case Active => PlanStatus.Running
    case Done => PlanStatus.Completed
    case Error => PlanStatus.Failed
  }

  /** `_root_plan_status`. */
  function RootPlanStatus(statuses: seq<PlanStatus>): PlanStatus {
    if Running in statuses then Running
    else if Failed in statuses then Failed
    else if statuses != [] && forall k :: 0 <= k < |statuses| ==> statuses[k] == Completed then Completed
    else if Completed in statuses || Skipped in statuses then Running
    else if statuses != [] && forall k :: 0 <= k < |statuses| ==> statuses[k] == Skipped then Skipped
    else Pending
  }

  function StageStatuses(book: Book): seq<PlanStatus> {
    seq(|ORDERED_STAGES|, k requires 0 <= k < |ORDERED_STAGES| => PlanStatusOf(book.status[ORDERED_STAGES[k]]))
  }

  function Times(times: map<Stage, Option<int>>): seq<Option<int>>
    requires forall s: Stage :: s in times
  {
    seq(|ORDERED_STAGES|, k requires 0 <= k < |ORDERED_STAGES| => times[ORDERED_STAGES[k]])
  }

  /** The least present value, if any is present. */
  function Earliest(times: seq<Option<int>>): (r: Option<int>)
    ensures r.None? <==> forall k :: 0 <= k < |times| ==> times[k].None?
    ensures r.Some? ==> r in times && forall k :: 0 <= k < |times| && times[k].Some? ==> r.value <= times[k].value
  {
    if times == [] then None
    else
      var rest := Earliest(times[1..]);
      if times[0].None? then rest
      else if rest.None? || times[0].value <= rest.value then times[0]
      else rest
  }

  /** The greatest present value, if any is present. */
  function Latest(times: seq<Option<int>>): (r: Option<int>)
    ensures r.None? <==> forall k :: 0 <= k < |times| ==> times[k].None?
    ensures r.Some? ==> r in times && forall k :: 0 <= k < |times| && times[k].Some? ==> times[k].value <= r.value
  {
    if times == [] then None
    else
      var rest := Latest(times[1..]);
      if times[0].None? then rest
      else if rest.None? || rest.value <= times[0].value then times[0]
      else rest
  }

  function RootStartedAt(book: Book): Option<int> {
    Earliest(Times(book.startedAt))
  }

  function RootCompletedAt(book: Book, status: PlanStatus): Option<int> {
    if status != Completed && status != Failed then None else Latest(Times(book.completedAt))
  }

  /** `_build_stage_node`. */
  function StageNode(book: Book, stage: Stage): PlanNode {
    var meta := StageMetadata(stage);
    PlanNode(StageId(stage), Some(PLAN_ROOT_ID), meta.title, meta.description, PlanStatusOf(book.status[stage]),
             Some(meta.estimatedDurationSec), book.startedAt[stage], book.completedAt[stage],
             book.reasoningRefs[stage], [])
  }

  function StageNodes(book: Book): seq<PlanNode> {
    seq(|ORDERED_STAGES|, k requires 0 <= k < |ORDERED_STAGES| => StageNode(book, ORDERED_STAGES[k]))
  }

  /** `_build_plan_tree`. */
  function PlanTreeOf(book: Book): (root: PlanNode)
    ensures root.id == PLAN_ROOT_ID && root.parentId == None && root.children == StageNodes(book)
  {
    var status := RootPlanStatus(StageStatuses(book));
    PlanNode(PLAN_ROOT_ID, None, "Data Science Workflow",
             "Stage-based execution plan emitted by the workflow tracker.",
             status, None, RootStartedAt(book), RootCompletedAt(book, status), [], StageNodes(book))
  }

  /** `_build_root_patch`. */
  function RootPatch(book: Book): PlanPatch {
    var status := RootPlanStatus(StageStatuses(book));
    PlanPatch(Some(status), RootStartedAt(book), RootCompletedAt(book, status), None)
  }

  // ---- what tree and root patch show of the record ----

  /** Some stage has this status. */
  ghost predicate Any(book: Book, status: StageStatus) {
    exists s: Stage :: book.status[s] == status
  }

  lemma {:induction false} StatusListed(book: Book, s: Stage)
    ensures PlanStatusOf(book.status[s]) in StageStatuses(book)
  {
    var k := StageIndex(s);
    assert StageStatuses(book)[k] == PlanStatusOf(book.status[s]);
  }

  lemma {:induction false} ListedIsAny(book: Book, status: StageStatus)
    requires PlanStatusOf(status) in StageStatuses(book)
    ensures Any(book, status)
  {
    hide ORDERED_STAGES;
    var k :| 0 <= k < |ORDERED_STAGES| && StageStatuses(book)[k] == PlanStatusOf(status);
    assert book.status[ORDERED_STAGES[k]] == status;
  }

  lemma {:induction false} AnyIsListed(book: Book, status: StageStatus)
    ensures PlanStatusOf(status) in StageStatuses(book) <==> Any(book, status)
  {
    hide ORDERED_STAGES, StageStatuses;
    if s: Stage :| book.status[s] == status { StatusListed(book, s); }
    if PlanStatusOf(status) in StageStatuses(book) { ListedIsAny(book, status); }
  }

  lemma {:induction false} RootStatusOfListed(statuses: seq<PlanStatus>)
    requires statuses != [] && Skipped !in statuses
    ensures var root := RootPlanStatus(statuses);
      && (root == Running <==>
            Running in statuses || (Failed !in statuses && Completed in statuses && Pending in statuses))
      && (root == Failed <==> Running !in statuses && Failed in statuses)
      && (root == Completed <==> Running !in statuses && Failed !in statuses && Pending !in statuses)
      && (root == Pending <==> Running !in statuses && Failed !in statuses && Completed !in statuses)
      && root != Skipped
  {
    assert statuses[0] in statuses;
    if Running !in statuses && Failed !in statuses && Pending !in statuses {
      forall k | 0 <= k < |statuses| ensures statuses[k] == Completed { assert statuses[k] in statuses; }
    }
  }

  lemma {:induction false} NoneSkipped(book: Book)
    ensures Skipped !in StageStatuses(book) && StageStatuses(book) != []
  {
    assert ORDERED_STAGES[0] == Scoping;
  }

  /** The root's status for every record, in the tree and in the patch. */
  lemma {:induction false} RootShowsProgress(book: Book)
    ensures var status := PlanTreeOf(book).status;
      && (status == Running <==>
            || Any(book, Active)
            || (!Any(book, Error) && Any(book, Done) && exists s: Stage :: book.status[s] != Done))
      && (status == Failed <==> !Any(book, Active) && Any(book, Error))
      && (status == Completed <==> forall s: Stage :: book.status[s] == Done)
      && (status == Pending <==> forall s: Stage :: book.status[s] == Idle)
      && status != Skipped && RootPatch(book).status == Some(status)
  {
    hide StageNodes, StageStatuses, RootPlanStatus, RootStartedAt, RootCompletedAt;
    AnyIsListed(book, Active);
    AnyIsListed(book, Error);
    AnyIsListed(book, Done);
    AnyIsListed(book, Idle);
    NoneSkipped(book);
    RootStatusOfListed(StageStatuses(book));
    assert Any(book, book.status[Scoping]);
  }

  lemma {:induction false} TimesListed(times: map<Stage, Option<int>>, t: Option<int>)
    requires forall s: Stage :: s in times
    ensures t in Times(times) <==> exists s: Stage :: times[s] == t
  {
    hide ORDERED_STAGES;
    if s: Stage :| times[s] == t {
      var k := StageIndex(s);
      assert Times(times)[k] == t;
    }
  }

  lemma {:induction false} EarliestStage(times: map<Stage, Option<int>>)
    requires forall s: Stage :: s in times
    ensures var r := Earliest(Times(times));
      && (r.None? <==> forall s: Stage :: times[s].None?)
      && (r.Some? ==>
            && (exists s: Stage :: times[s] == r)
            && forall s: Stage :: times[s].Some? ==> r.value <= times[s].value)
  {
    hide Earliest, Times;
    forall s: Stage ensures times[s] in Times(times) { TimesListed(times, times[s]); }
    TimesListed(times, Earliest(Times(times)));
  }

  lemma {:induction false} LatestStage(times: map<Stage, Option<int>>)
    requires forall s: Stage :: s in times
    ensures var r := Latest(Times(times));
      && (r.None? <==> forall s: Stage :: times[s].None?)
      && (r.Some? ==>
            && (exists s: Stage :: times[s] == r)
            && forall s: Stage :: times[s].Some? ==> times[s].value <= r.value)
  {
    hide Latest, Times;
    forall s: Stage ensures times[s] in Times(times) { TimesListed(times, times[s]); }
    TimesListed(times, Latest(Times(times)));
  }

  /** The root starts with its first stage; once it is over, it completes with its last one. */
  lemma {:induction false} RootShowsTimes(book: Book)
    ensures var root := PlanTreeOf(book);
      && (root.startedAt.None? <==> forall s: Stage :: book.startedAt[s].None?)
      && (root.startedAt.Some? ==>
            && (exists s: Stage :: book.startedAt[s] == root.startedAt)
            && forall s: Stage :: book.startedAt[s].Some? ==> root.startedAt.value <= book.startedAt[s].value)
      && (root.completedAt.None? <==>
            (root.status != Completed && root.status != Failed) || forall s: Stage :: book.completedAt[s].None?)
      && (root.completedAt.Some? ==>
            && (exists s: Stage :: book.completedAt[s] == root.completedAt)
            && forall s: Stage :: book.completedAt[s].Some? ==> book.completedAt[s].value <= root.completedAt.value)
      && RootPatch(book) == PlanPatch(Some(root.status), root.startedAt, root.completedAt, None)
  {
    hide RootPlanStatus, StageStatuses, StageNodes, Earliest, Latest, Times;
    EarliestStage(book.startedAt);
    LatestStage(book.completedAt);
  }

  /** Each child shows what is recorded of its stage, in workflow order. */
  lemma {:induction false} ChildrenShowRecord(book: Book, k: nat)
    requires k < |ORDERED_STAGES|
    ensures var (stage, nodes) := (ORDERED_STAGES[k], PlanTreeOf(book).children);
      && |nodes| == |ORDERED_STAGES| && nodes[k].id == StageId(stage) && nodes[k].children == []
      && nodes[k].startedAt == book.startedAt[stage] && nodes[k].completedAt == book.completedAt[stage]
      && nodes[k].reasoningRefs == book.reasoningRefs[stage]
      && nodes[k].nodeLabel == StageMetadata(stage).title && nodes[k].description == StageMetadata(stage).description
      && nodes[k].estimatedDurationSec == Some(StageMetadata(stage).estimatedDurationSec)
      && (nodes[k].status == Pending <==> book.status[stage] == Idle)
      && (nodes[k].status == Running <==> book.status[stage] == Active)
      && (nodes[k].status == Completed <==> book.status[stage] == Done)
      && (nodes[k].status == Failed <==> book.status[stage] == Error)
  {
    hide StageId, StageMetadata, RootPlanStatus, RootStartedAt, RootCompletedAt;
    assert StageNodes(book)[k] == StageNode(book, ORDERED_STAGES[k]);
  }

  // ---- the tree is well formed whatever the record ----

  lemma {:induction false} StageIdInvertible(stage: Stage)
    ensures StageOfId(StageId(stage)) == Some(stage)
    ensures StageId(stage) != PLAN_ROOT_ID
  {
    match stage
    case Scoping => assert |StageId(stage)| == 7;
    case DataLoading => assert |StageId(stage)| == 12;
    case Profiling => assert StageId(stage)[0] == 'p';
    case Eda => assert |StageId(stage)| == 3;
    case FeatureEng => assert |StageId(stage)| == 11;
    case Modeling => assert |StageId(stage)| == 8;
    case Evaluation => assert StageId(stage)[0] == 'e';
    case Reporting => assert StageId(stage)[0] == 'r';
  }

  lemma {:induction false} StageIdInjective(a: Stage, b: Stage)
    ensures StageId(a) == StageId(b) <==> a == b
  {
    StageIdInvertible(a);
    StageIdInvertible(b);
  }

  lemma {:induction false} PlanTreeListing(book: Book)
    ensures Flatten(PlanTreeOf(book)) == [PlanTreeOf(book)] + StageNodes(book)
  {
    hide PlanTreeOf, StageId, StageMetadata;
    FlattenLeaves(StageNodes(book));
  }

  lemma {:induction false} StageIdsDistinct(i: nat, j: nat)
    requires i < j < |ORDERED_STAGES|
    ensures StageId(ORDERED_STAGES[i]) != StageId(ORDERED_STAGES[j])
  {
    var k := StageIndex(ORDERED_STAGES[j]);
    StageIdInjective(ORDERED_STAGES[i], ORDERED_STAGES[j]);
  }

  lemma {:induction false} PlanTreeIdsDistinct(book: Book)
    ensures DistinctIds([PlanTreeOf(book)] + StageNodes(book))
  {
    hide PlanTreeOf, StageId, StageMetadata;
    var listing := [PlanTreeOf(book)] + StageNodes(book);
    forall i, j | 0 <= i < j < |listing| ensures listing[i].id != listing[j].id {
      if i == 0 {
        StageIdInvertible(ORDERED_STAGES[j - 1]);
      } else {
        StageIdsDistinct(i - 1, j - 1);
      }
    }
  }

  lemma {:induction false} PlanTreeWellFormed(book: Book)
    ensures WellFormed(PlanTreeOf(book))
  {
    hide PlanTreeOf, StageId, StageMetadata;
    var root := PlanTreeOf(book);
    PlanTreeListing(book);
    PlanTreeIdsDistinct(book);
    forall p, c | p in Flatten(root) && c in p.children ensures c.parentId == Some(p.id) {
      assert forall k :: 0 <= k < |StageNodes(book)| ==> StageNodes(book)[k].children == [];
      assert p == root;
    }
  }
}
