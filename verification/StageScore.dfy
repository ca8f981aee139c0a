/** Stage quality: the score of one stage, and the weighted overall score with its grade. */
module StageScore {
  import opened Options
  import opened TextTools

  const CRITICAL_PENALTY := 30

  /** One entry of a stage's rubric. */
  datatype Item = Item(name: string, keywords: seq<string>, points: nat, critical: bool)

  const LEAKAGE_CHECK := "leakage_check"

  const PROFILING_RUBRIC := [
    Item("missing_analysis", ["missing", "null", "isnull"], 25, false),
    Item("distribution_analysis", ["mean", "std", "describe"], 25, false),
    Item("outlier_detection", ["outlier", "iqr", "z-score", "boxplot"], 25, false),
    Item("quality_grade", ["quality_grade", "grade"], 25, false)]

  const EDA_RUBRIC := [
    Item("statistical_test", ["ttest", "chi2", "pearsonr", "spearmanr", "f_oneway", "pvalue"], 30, false),
    Item("visualization", ["savefig", "plt.save", "plot"], 20, false),
    Item("hypothesis", ["hypothesis", "hypothes", "expect", "predict"], 20, false),
    Item("correlation", ["corr()", "heatmap", "pearson"], 15, false),
    Item("outlier_analysis", ["outlier", "iqr", "z-score"], 15, false)]

  const FEATURE_RUBRIC := [
    Item("train_test_split", ["train_test_split", "x_train"], 40, true),
    Item("encoding", ["labelencoder", "onehotencoder", "targetencoder", "get_dummies"], 20, false),
    Item("scaling", ["standardscaler", "minmaxscaler", "robustscaler"], 20, false),
    Item(LEAKAGE_CHECK, [], 20, true)]

  const MODELING_RUBRIC := [
    Item("baseline", ["dummyclassifier", "dummyregressor", "baseline", "majority_class"], 30, true),
    Item("cross_validation", ["cross_val_score", "stratifiedkfold", "kfold", "cross_validate"], 25, false),
    Item("multiple_models", ["randomforest", "lightgbm", "xgboost", "logistic", "linear"], 20, false),
    Item("hyperparameter_tuning", ["optuna", "gridsearchcv", "randomizedsearchcv"], 15, false),
    Item("class_imbalance", ["class_weight", "smote", "balanced"], 10, false)]

  const EVALUATION_RUBRIC := [
    Item("test_set_eval", ["x_test", "test_data", "holdout"], 30, true),
    Item("multiple_metrics", ["accuracy", "f1", "auc", "rmse", "mae", "precision", "recall"], 20, false),
    Item("error_analysis", ["confusion_matrix", "residual", "worst_pred", "misclassif"], 20, false),
    Item("feature_importance", ["shap", "permutation_importance", "feature_importances_"], 15, false),
    Item("fairness", ["demographic_parity", "equal_opportunity", "protected"], 15, false)]

  const REPORTING_RUBRIC := [
    Item("summary", ["summary", "conclusion", "executive"], 25, false),
    Item("limitations", ["limitation", "caveat", "risk", "weakness"], 25, false),
    Item("recommendations", ["recommend", "suggestion", "next_step"], 25, false),
    Item("model_card", ["model_card", "model card"], 25, false)]

  function Rubric(stage: string): seq<Item> {
    if stage == "profiling" then PROFILING_RUBRIC
    else if stage == "eda" then EDA_RUBRIC
    else if stage == "feature_eng" then FEATURE_RUBRIC
    else if stage == "modeling" then MODELING_RUBRIC
    else if stage == "evaluation" then EVALUATION_RUBRIC
    else if stage == "reporting" then REPORTING_RUBRIC
    else []
  }

  /** The stage a tool's result is scored for. */
  function QualityStage(tool: string): Option<string> {
    if tool == "data_profiler" then Some("profiling")
    else if tool == "run_eda" then Some("eda")
    else if tool == "feature_engineer" then Some("feature_eng")
    else if tool == "train_model" then Some("modeling")
    else if tool == "evaluate_model" then Some("evaluation")
    else if tool == "generate_report" then Some("reporting")
    else None
  }

  /** Code and result hold a keyword; for leakage, they do not speak of it or say it was checked. */
  predicate Passes(item: Item, text: string) {
    if item.name == LEAKAGE_CHECK then !Contains(text, "leakage") || Contains(text, "leakage check")
    else exists k :: 0 <= k < |item.keywords| && Contains(text, item.keywords[k])
  }

  /** One rubric entry with its verdict. */
  datatype Check = Check(name: string, points: nat, critical: bool, passed: bool)

  function Judged(items: seq<Item>, text: string): (checks: seq<Check>) {
    seq(|items|, i requires 0 <= i < |items| =>
      Check(items[i].name, items[i].points, items[i].critical, Passes(items[i], text)))
  }

  function PassedPoints(checks: seq<Check>): nat {
    if checks == [] then 0
    else PassedPoints(checks[..|checks| - 1]) + if checks[|checks| - 1].passed then checks[|checks| - 1].points else 0
  }

  function FailedCritical(checks: seq<Check>): nat {
    if checks == [] then 0
    else
      var last := checks[|checks| - 1];
      FailedCritical(checks[..|checks| - 1]) + if last.critical && !last.passed then 1 else 0
  }

  function Min(a: int, b: int): int {
    if a <= b then a else b
  }

  function Max(a: int, b: int): int {
    if a >= b then a else b
  }

  /** Points for what passed, less a penalty for every failed critical entry, from 0 to 100. */
  function StageScoreOf(checks: seq<Check>): (score: int)
    ensures 0 <= score <= 100
  {
    Min(100, Max(0, PassedPoints(checks) - CRITICAL_PENALTY * FailedCritical(checks)))
  }

  lemma {:induction false} JudgedStep(items: seq<Item>, text: string, k: nat)
    requires k < |items|
    ensures var check := Check(items[k].name, items[k].points, items[k].critical, Passes(items[k], text));
      var before := Judged(items[..k], text);
      && Judged(items[..k + 1], text) == before + [check]
      && PassedPoints(before + [check]) == PassedPoints(before) + if check.passed then check.points else 0
  {
    hide Passes;
    var before := Judged(items[..k], text);
    var check := Judged(items[..k + 1], text)[k];
    assert Judged(items[..k + 1], text) == before + [check];
    assert (before + [check])[..|before|] == before;
  }

  lemma {:induction false} PenaltyStep(checks: seq<Check>, k: nat)
    requires k < |checks|
    ensures FailedCritical(checks[..k + 1])
      == FailedCritical(checks[..k]) + if checks[k].critical && !checks[k].passed then 1 else 0
  {
    assert checks[..k + 1][..k] == checks[..k];
  }

  lemma {:induction false} NothingJudged(items: seq<Item>, text: string)
    ensures Judged(items[..0], text) == [] && PassedPoints([]) == 0 && FailedCritical([]) == 0
  {
  }

  /** Points first, then one penalty at a time, never below zero: the same as all penalties at once. */
  method ScoreStage(stage: string, text: string) returns (score: int, checks: seq<Check>)
    ensures checks == Judged(Rubric(stage), text) && score == StageScoreOf(checks)
  {
    hide Rubric, Passes, Judged, PassedPoints, FailedCritical;
    var items := Rubric(stage);
    checks, score := [], 0;
    NothingJudged(items, text);
    for k := 0 to |items|
      invariant checks == Judged(items[..k], text) && score == PassedPoints(checks)
    {
      var check := Check(items[k].name, items[k].points, items[k].critical, Passes(items[k], text));
      JudgedStep(items, text, k);
      checks := checks + [check];
      if check.passed {
        score := score + items[k].points;
      }
    }
    assert items[..|items|] == items;
    ghost var points := score;
    for k := 0 to |checks|
      invariant score == Max(0, points - CRITICAL_PENALTY * FailedCritical(checks[..k]))
    {
      PenaltyStep(checks, k);
      if checks[k].critical && !checks[k].passed {
        score := Max(0, score - CRITICAL_PENALTY);
      }
    }
    assert checks[..|checks|] == checks;
    score := Min(100, score);
  }

  function TotalPoints(items: seq<Item>): nat {
    if items == [] then 0 else items[0].points + TotalPoints(items[1..])
  }

  function AllPoints(checks: seq<Check>): nat {
    if checks == [] then 0 else AllPoints(checks[..|checks| - 1]) + checks[|checks| - 1].points
  }

  lemma {:induction false} TotalSnoc(items: seq<Item>, last: Item)
    ensures TotalPoints(items + [last]) == TotalPoints(items) + last.points
  {
    if items == [] {
      assert items + [last] == [last];
    } else {
      assert (items + [last])[1..] == items[1..] + [last];
      TotalSnoc(items[1..], last);
    }
  }

  lemma {:induction false} JudgedPoints(items: seq<Item>, text: string)
    ensures AllPoints(Judged(items, text)) == TotalPoints(items)
  {
    hide Passes;
    if items != [] {
      var n := |items| - 1;
      assert items == items[..n] + [items[n]] && Judged(items, text)[..n] == Judged(items[..n], text);
      JudgedPoints(items[..n], text);
      TotalSnoc(items[..n], items[n]);
    }
  }

  lemma {:induction false} FourEntries(items: seq<Item>, a: nat, b: nat, c: nat, d: nat)
    requires |items| == 4 && items[0].points == a && items[1].points == b
    requires items[2].points == c && items[3].points == d
    ensures TotalPoints(items) == a + b + c + d
  {
    assert items[1..][1..] == items[2..] && items[2..][1..] == items[3..] && items[3..][1..] == [];
    assert TotalPoints(items[3..]) == d;
    assert TotalPoints(items[2..]) == c + d;
  }

  lemma {:induction false} FiveEntries(items: seq<Item>, a: nat, b: nat, c: nat, d: nat, e: nat)
    requires |items| == 5 && items[0].points == a
    requires items[1].points == b && items[2].points == c && items[3].points == d && items[4].points == e
    ensures TotalPoints(items) == a + b + c + d + e
  {
    FourEntries(items[1..], b, c, d, e);
  }

  /** The entries earn exactly 100 points together, and each earns some. */
  ghost predicate Earns100(items: seq<Item>) {
    TotalPoints(items) == 100 && forall i :: 0 <= i < |items| ==> items[i].points > 0
  }

  lemma {:induction false} ProfilingTotals()
    ensures Earns100(PROFILING_RUBRIC)
  {
    FourEntries(PROFILING_RUBRIC, 25, 25, 25, 25);
  }

  lemma {:induction false} EdaTotals()
    ensures Earns100(EDA_RUBRIC)
  {
    FiveEntries(EDA_RUBRIC, 30, 20, 20, 15, 15);
  }

  lemma {:induction false} FeatureTotals()
    ensures Earns100(FEATURE_RUBRIC)
  {
    FourEntries(FEATURE_RUBRIC, 40, 20, 20, 20);
  }

  lemma {:induction false} ModelingTotals()
    ensures Earns100(MODELING_RUBRIC)
  {
    FiveEntries(MODELING_RUBRIC, 30, 25, 20, 15, 10);
  }

  lemma {:induction false} EvaluationTotals()
    ensures Earns100(EVALUATION_RUBRIC)
  {
    FiveEntries(EVALUATION_RUBRIC, 30, 20, 20, 15, 15);
  }

  lemma {:induction false} ReportingTotals()
    ensures Earns100(REPORTING_RUBRIC)
  {
    FourEntries(REPORTING_RUBRIC, 25, 25, 25, 25);
  }

  lemma {:induction false} RubricTotals(stage: string)
    ensures Rubric(stage) == [] || Earns100(Rubric(stage))
  {
    hide PROFILING_RUBRIC, EDA_RUBRIC, FEATURE_RUBRIC, MODELING_RUBRIC, EVALUATION_RUBRIC, REPORTING_RUBRIC;
    hide Earns100;
    ProfilingTotals();
    EdaTotals();
    FeatureTotals();
    ModelingTotals();
    EvaluationTotals();
    ReportingTotals();
  }

  /** Entries all pass, or points are missing. */
  lemma {:induction false} MissingPoints(checks: seq<Check>)
    requires forall i :: 0 <= i < |checks| ==> checks[i].points > 0
    ensures PassedPoints(checks) <= AllPoints(checks)
    ensures PassedPoints(checks) == AllPoints(checks) <==> forall i :: 0 <= i < |checks| ==> checks[i].passed
    ensures (forall i :: 0 <= i < |checks| ==> checks[i].passed) ==> FailedCritical(checks) == 0
  {
    if checks != [] {
      var front := checks[..|checks| - 1];
      assert forall i :: 0 <= i < |front| ==> front[i] == checks[i];
      MissingPoints(front);
    }
  }

  /** A stage scores 100 exactly when every entry of its rubric passes; the upper bound never cuts anything off. */
  lemma {:induction false} PerfectIffAllPass(stage: string, text: string)
    requires Rubric(stage) != []
    ensures var (items, checks) := (Rubric(stage), Judged(Rubric(stage), text));
      && (StageScoreOf(checks) == 100 <==> forall i :: 0 <= i < |items| ==> Passes(items[i], text))
      && StageScoreOf(checks) == Max(0, PassedPoints(checks) - CRITICAL_PENALTY * FailedCritical(checks))
  {
    hide Rubric, Passes;
    var items, checks := Rubric(stage), Judged(Rubric(stage), text);
    RubricTotals(stage);
    JudgedPoints(items, text);
    assert forall i :: 0 <= i < |items| ==> checks[i].points == items[i].points;
    MissingPoints(checks);
    assert (forall i :: 0 <= i < |checks| ==> checks[i].passed) <==>
      forall i :: 0 <= i < |items| ==> Passes(items[i], text);
  }

  // ---- what an entry looks for ----

  ghost predicate OccursAt(text: string, part: string, i: int) {
    0 <= i <= |text| - |part| && forall j :: 0 <= j < |part| ==> text[i + j] == part[j]
  }

  ghost predicate Occurs(text: string, part: string) {
    exists i :: OccursAt(text, part, i)
  }

  lemma {:induction false} ContainsIff(text: string, part: string)
    ensures Contains(text, part) <==> Occurs(text, part)
  {
    if i :| OccursAt(text, part, i) {
      assert text[i..][..|part|] == part;
      assert part <= text[i..];
    }
    if i :| 0 <= i <= |text| && part <= text[i..] {
      assert forall j :: 0 <= j < |part| ==> text[i + j] == text[i..][j];
      assert OccursAt(text, part, i);
    }
  }

  /** An entry passes iff one of its keywords occurs; the leakage entry fails iff leakage occurs and no check of it. */
  lemma {:induction false} PassesIff(item: Item, text: string)
    ensures item.name != LEAKAGE_CHECK ==>
      (Passes(item, text) <==> exists k :: 0 <= k < |item.keywords| && Occurs(text, item.keywords[k]))
    ensures item.name == LEAKAGE_CHECK ==>
      (!Passes(item, text) <==> Occurs(text, "leakage") && !Occurs(text, "leakage check"))
  {
    hide Contains, Occurs;
    forall k | 0 <= k < |item.keywords|
      ensures Contains(text, item.keywords[k]) <==> Occurs(text, item.keywords[k])
    {
      ContainsIff(text, item.keywords[k]);
    }
    ContainsIff(text, "leakage");
    ContainsIff(text, "leakage check");
  }

  lemma {:induction false} OccursInMore(a: string, text: string, b: string, part: string)
    requires Occurs(text, part)
    ensures Occurs(a + text + b, part)
  {
    var i :| OccursAt(text, part, i);
    assert OccursAt(a + text + b, part, |a| + i);
  }

  lemma {:induction false} PassesInMore(item: Item, a: string, text: string, b: string)
    requires item.name != LEAKAGE_CHECK && Passes(item, text)
    ensures Passes(item, a + text + b)
  {
    PassesIff(item, text);
    PassesIff(item, a + text + b);
    hide Passes, Occurs, LEAKAGE_CHECK;
    var k :| 0 <= k < |item.keywords| && Occurs(text, item.keywords[k]);
    OccursInMore(a, text, b, item.keywords[k]);
  }

  /** The same entries, some of which fail in the first list and pass in the second. */
  ghost predicate NoWorse(checks: seq<Check>, others: seq<Check>) {
    && |checks| == |others|
    && forall i :: 0 <= i < |checks| ==>
      && others[i].points == checks[i].points && others[i].critical == checks[i].critical
      && (checks[i].passed ==> others[i].passed)
  }

  lemma {:induction false} NoWorseScore(checks: seq<Check>, others: seq<Check>)
    requires NoWorse(checks, others)
    ensures PassedPoints(checks) <= PassedPoints(others) && FailedCritical(checks) >= FailedCritical(others)
  {
    if checks != [] {
      var n := |checks| - 1;
      assert forall i :: 0 <= i < n ==> checks[..n][i] == checks[i] && others[..n][i] == others[i];
      NoWorseScore(checks[..n], others[..n]);
    }
  }

  /** Around more text the score never falls, for a rubric without the leakage entry. */
  lemma {:induction false} MoreTextScoresMore(items: seq<Item>, a: string, text: string, b: string)
    requires forall i :: 0 <= i < |items| ==> items[i].name != LEAKAGE_CHECK
    ensures StageScoreOf(Judged(items, text)) <= StageScoreOf(Judged(items, a + text + b))
  {
    hide Passes, LEAKAGE_CHECK;
    var checks, others := Judged(items, text), Judged(items, a + text + b);
    forall i | 0 <= i < |items| && checks[i].passed ensures others[i].passed {
      PassesInMore(items[i], a, text, b);
    }
    NoWorseScore(checks, others);
  }

  // ---- the overall score ----

  datatype Weight = Weight(stage: string, weight: real)

  const WEIGHTS: seq<Weight> := [
    Weight("profiling", 0.10), Weight("eda", 0.15), Weight("feature_eng", 0.15),
    Weight("modeling", 0.25), Weight("evaluation", 0.25), Weight("reporting", 0.10)]

  /** Python's `round`: to the nearest integer, ties to the even one. */
  function Round(x: real): int {
    var down := x.Floor;
    var rest := x - down as real;
    if rest < 0.5 then down
    else if rest > 0.5 then down + 1
    else if down % 2 == 0 then down else down + 1
  }

  lemma {:induction false} RoundStaysBetween(x: real, low: int, high: int)
    requires low as real <= x <= high as real
    ensures low <= Round(x) <= high
  {
  }

  function WeightedSum(weights: seq<Weight>, scores: map<string, int>): real {
    if weights == [] then 0.0
    else
      var last := weights[|weights| - 1];
      WeightedSum(weights[..|weights| - 1], scores)
        + if last.stage in scores then scores[last.stage] as real * last.weight else 0.0
  }

  function WeightSum(weights: seq<Weight>, scores: map<string, int>): real {
    if weights == [] then 0.0
    else
      var last := weights[|weights| - 1];
      WeightSum(weights[..|weights| - 1], scores) + if last.stage in scores then last.weight else 0.0
  }

  function Overall(weights: seq<Weight>, scores: map<string, int>): int {
    if WeightSum(weights, scores) > 0.0 then Round(WeightedSum(weights, scores) / WeightSum(weights, scores)) else 0
  }

  datatype Grade = A | B | C | D | F

  function GradeOf(score: int): Grade {
    if score >= 85 then A else if score >= 70 then B else if score >= 55 then C else if score >= 40 then D else F
  }

  datatype QualityUpdate = QualityUpdate(stage: string, score: int, checks: seq<Check>)

  class StageQualityHook {
    var scores: map<string, int>
    var checks: map<string, seq<Check>>

    constructor ()
      ensures scores == map[] && checks == map[]
    {
      scores, checks := map[], map[];
    }

    /**
     * A successful tool of a rubric stage replaces that stage's score and verdicts, and reports them. `text` is the
     * code and the result, in lower case.
     */
    method PostToolUse(tool: string, text: string, isError: bool) returns (event: Option<QualityUpdate>)
      modifies this
      ensures event == if QualityStage(tool).None? || isError then None
        else var verdicts := Judged(Rubric(QualityStage(tool).value), text);
          Some(QualityUpdate(QualityStage(tool).value, StageScoreOf(verdicts), verdicts))
      ensures scores == if event.None? then old(scores) else old(scores)[event.value.stage := event.value.score]
      ensures checks == if event.None? then old(checks) else old(checks)[event.value.stage := event.value.checks]
    {
      var stage := QualityStage(tool);
      if stage.None? || isError {
        return None;
      }
      var score, verdicts := ScoreStage(stage.value, text);
      scores, checks := scores[stage.value := score], checks[stage.value := verdicts];
      event := Some(QualityUpdate(stage.value, score, verdicts));
    }

    method GetOverallScore() returns (overall: int, grade: Grade)
      ensures overall == Overall(WEIGHTS, scores) && grade == GradeOf(overall)
    {
      hide WEIGHTS, Round;
      var total, weightSum := 0.0, 0.0;
      for k := 0 to |WEIGHTS|
        invariant total == WeightedSum(WEIGHTS[..k], scores) && weightSum == WeightSum(WEIGHTS[..k], scores)
      {
        assert WEIGHTS[..k + 1][..k] == WEIGHTS[..k];
        var w := WEIGHTS[k];
        if w.stage in scores {
          total := total + scores[w.stage] as real * w.weight;
          weightSum := weightSum + w.weight;
        }
      }
      assert WEIGHTS[..|WEIGHTS|] == WEIGHTS;
      overall := if weightSum > 0.0 then Round(total / weightSum) else 0;
      grade := GradeOf(overall);
    }
  }

  ghost predicate Positive(weights: seq<Weight>) {
    forall i :: 0 <= i < |weights| ==> weights[i].weight > 0.0
  }

  /** Every recorded stage that has a weight scored between `low` and `high`. */
  ghost predicate Within(weights: seq<Weight>, scores: map<string, int>, low: int, high: int) {
    forall i :: 0 <= i < |weights| && weights[i].stage in scores ==> low <= scores[weights[i].stage] <= high
  }

  /** The two sums are between `low` and `high` times each other. */
  ghost predicate Bounded(total: real, sum: real, low: real, high: real) {
    low * sum <= total <= high * sum
  }

  lemma {:induction false} TimesWeight(a: real, b: real, w: real)
    requires a <= b && w > 0.0
    ensures a * w <= b * w
  {
  }

  lemma {:induction false} AddTerm(total: real, sum: real, low: real, high: real, s: real, w: real)
    requires Bounded(total, sum, low, high) && low <= s <= high && w > 0.0
    ensures Bounded(total + s * w, sum + w, low, high)
  {
    TimesWeight(low, s, w);
    TimesWeight(s, high, w);
    assert low * (sum + w) == low * sum + low * w && high * (sum + w) == high * sum + high * w;
  }

  lemma {:induction false} NothingIsBounded(weights: seq<Weight>, scores: map<string, int>, low: real, high: real)
    requires weights == []
    ensures Bounded(WeightedSum(weights, scores), WeightSum(weights, scores), low, high)
  {
    assert low * 0.0 == 0.0 && high * 0.0 == 0.0;
  }

  lemma {:induction false} SumStep(weights: seq<Weight>, scores: map<string, int>, low: int, high: int)
    requires weights != [] && Positive(weights) && Within(weights, scores, low, high)
    ensures var (front, last) := (weights[..|weights| - 1], weights[|weights| - 1]);
      && Positive(front) && Within(front, scores, low, high) && last.weight > 0.0
      && (last.stage in scores ==>
          && low <= scores[last.stage] <= high
          && WeightedSum(weights, scores) == WeightedSum(front, scores) + scores[last.stage] as real * last.weight
          && WeightSum(weights, scores) == WeightSum(front, scores) + last.weight)
      && (last.stage !in scores ==>
          && WeightedSum(weights, scores) == WeightedSum(front, scores)
          && WeightSum(weights, scores) == WeightSum(front, scores))
  {
    var front := weights[..|weights| - 1];
    assert forall i :: 0 <= i < |front| ==> front[i] == weights[i];
  }

  lemma {:induction false} SumsStayBetween(weights: seq<Weight>, scores: map<string, int>, low: int, high: int)
    requires Positive(weights) && Within(weights, scores, low, high)
    ensures Bounded(WeightedSum(weights, scores), WeightSum(weights, scores), low as real, high as real)
  {
    hide Bounded, WeightedSum, WeightSum, Within, Positive;
    if weights == [] {
      NothingIsBounded(weights, scores, low as real, high as real);
    } else {
      var front, last := weights[..|weights| - 1], weights[|weights| - 1];
      SumStep(weights, scores, low, high);
      SumsStayBetween(front, scores, low, high);
      if last.stage in scores {
        AddTerm(WeightedSum(front, scores), WeightSum(front, scores), low as real, high as real,
                scores[last.stage] as real, last.weight);
      }
    }
  }

  lemma {:induction false} WeightOfRecorded(weights: seq<Weight>, scores: map<string, int>)
    requires Positive(weights)
    ensures WeightSum(weights, scores) >= 0.0
    ensures WeightSum(weights, scores) == 0.0 <==> forall i :: 0 <= i < |weights| ==> weights[i].stage !in scores
  {
    if weights != [] {
      var front := weights[..|weights| - 1];
      assert forall i :: 0 <= i < |front| ==> front[i] == weights[i];
      WeightOfRecorded(front, scores);
    }
  }

  lemma {:induction false} TimesStrictly(a: real, b: real, w: real)
    requires a < b && w > 0.0
    ensures a * w < b * w
  {
  }

  lemma {:induction false} MeanStaysBetween(total: real, sum: real, low: real, high: real)
    requires sum > 0.0 && low * sum <= total <= high * sum
    ensures low <= total / sum <= high
  {
    var mean := total / sum;
    assert mean * sum == total;
    if mean < low { TimesStrictly(mean, low, sum); }
    if mean > high { TimesStrictly(high, mean, sum); }
  }

  lemma {:induction false} WeightsArePositive()
    ensures Positive(WEIGHTS)
  {
  }

  lemma {:induction false} RoundedMean(total: real, sum: real, low: int, high: int)
    requires sum > 0.0 && Bounded(total, sum, low as real, high as real)
    ensures low <= Round(total / sum) <= high
  {
    hide Round;
    MeanStaysBetween(total, sum, low as real, high as real);
    RoundStaysBetween(total / sum, low, high);
  }

  /** Whatever weighted stages are recorded, the rounded overall score lies between their lowest and highest score. */
  lemma {:induction false} OverallStaysBetween(scores: map<string, int>, low: int, high: int)
    requires Within(WEIGHTS, scores, low, high) && exists i :: 0 <= i < |WEIGHTS| && WEIGHTS[i].stage in scores
    ensures low <= Overall(WEIGHTS, scores) <= high
  {
    WeightsArePositive();
    hide WEIGHTS, Round, Bounded, WeightedSum, WeightSum, Within, Positive;
    SumsStayBetween(WEIGHTS, scores, low, high);
    WeightOfRecorded(WEIGHTS, scores);
    RoundedMean(WeightedSum(WEIGHTS, scores), WeightSum(WEIGHTS, scores), low, high);
  }

  /** Without a recorded weighted stage the overall score is zero and the grade the lowest. */
  lemma {:induction false} NothingRecorded(scores: map<string, int>)
    requires forall i :: 0 <= i < |WEIGHTS| ==> WEIGHTS[i].stage !in scores
    ensures Overall(WEIGHTS, scores) == 0 && GradeOf(Overall(WEIGHTS, scores)) == F
  {
    WeightsArePositive();
    hide WEIGHTS, Round;
    WeightOfRecorded(WEIGHTS, scores);
  }

  // ---- the rounded mean ----

  lemma {:induction false} RoundIsNearest(x: real)
    ensures -0.5 <= Round(x) as real - x <= 0.5
    ensures Round(x) as real - x == 0.5 || Round(x) as real - x == -0.5 ==> Round(x) % 2 == 0
  {
  }

  function Part(scores: map<string, int>, stage: string, weight: real): real {
    if stage in scores then scores[stage] as real * weight else 0.0
  }

  function Share(scores: map<string, int>, stage: string, weight: real): real {
    if stage in scores then weight else 0.0
  }

  lemma {:induction false} SumsGrow(weights: seq<Weight>, n: nat, scores: map<string, int>)
    requires n < |weights|
    ensures WeightedSum(weights[..n + 1], scores)
      == WeightedSum(weights[..n], scores) + Part(scores, weights[n].stage, weights[n].weight)
    ensures WeightSum(weights[..n + 1], scores)
      == WeightSum(weights[..n], scores) + Share(scores, weights[n].stage, weights[n].weight)
  {
    assert weights[..n + 1][..n] == weights[..n] && weights[..n + 1][n] == weights[n];
  }

  lemma {:induction false} SumsOfNone(scores: map<string, int>)
    ensures WeightedSum([], scores) == 0.0 && WeightSum([], scores) == 0.0
  {
  }

  /** The two sums of the mean, stage by stage. */
  lemma {:induction false} SixStages(scores: map<string, int>)
    ensures WeightedSum(WEIGHTS, scores)
      == Part(scores, "profiling", 0.10) + Part(scores, "eda", 0.15) + Part(scores, "feature_eng", 0.15)
        + Part(scores, "modeling", 0.25) + Part(scores, "evaluation", 0.25) + Part(scores, "reporting", 0.10)
    ensures WeightSum(WEIGHTS, scores)
      == Share(scores, "profiling", 0.10) + Share(scores, "eda", 0.15) + Share(scores, "feature_eng", 0.15)
        + Share(scores, "modeling", 0.25) + Share(scores, "evaluation", 0.25) + Share(scores, "reporting", 0.10)
  {
    hide WeightedSum, WeightSum, Part, Share;
    SumsOfNone(scores);
    assert WEIGHTS[..6] == WEIGHTS && WEIGHTS[..0] == [];
    SumsGrow(WEIGHTS, 0, scores);
    SumsGrow(WEIGHTS, 1, scores);
    SumsGrow(WEIGHTS, 2, scores);
    SumsGrow(WEIGHTS, 3, scores);
    SumsGrow(WEIGHTS, 4, scores);
    SumsGrow(WEIGHTS, 5, scores);
  }

  /** The nearest integer to a mean, without dividing; ties go to the even one. */
  ghost predicate Nearest(score: int, total: real, sum: real) {
    var missed := score as real * sum - total;
    && -0.5 * sum <= missed <= 0.5 * sum
    && (sum != 0.0 && (missed == 0.5 * sum || missed == -0.5 * sum) ==> score % 2 == 0)
  }

  lemma {:induction false} NearestTimes(r: real, mean: real, sum: real)
    requires sum > 0.0 && -0.5 <= r - mean <= 0.5
    ensures -0.5 * sum <= r * sum - mean * sum <= 0.5 * sum
    ensures r * sum - mean * sum == 0.5 * sum ==> r - mean == 0.5
    ensures r * sum - mean * sum == -0.5 * sum ==> r - mean == -0.5
  {
    var d := r - mean;
    assert d * sum == r * sum - mean * sum;
    TimesWeight(d, 0.5, sum);
    TimesWeight(-0.5, d, sum);
    if d < 0.5 { TimesStrictly(d, 0.5, sum); }
    if d > -0.5 { TimesStrictly(-0.5, d, sum); }
  }

  lemma {:induction false} NearestMean(total: real, sum: real)
    requires sum > 0.0
    ensures Nearest(Round(total / sum), total, sum)
  {
    hide Round;
    var mean := total / sum;
    assert mean * sum == total;
    RoundIsNearest(mean);
    NearestTimes(Round(mean) as real, mean, sum);
  }

  lemma {:induction false} NothingSummed(weights: seq<Weight>, scores: map<string, int>)
    requires forall i :: 0 <= i < |weights| ==> weights[i].stage !in scores
    ensures WeightedSum(weights, scores) == 0.0
  {
    if weights != [] {
      assert forall i :: 0 <= i < |weights| - 1 ==> weights[..|weights| - 1][i] == weights[i];
      NothingSummed(weights[..|weights| - 1], scores);
    }
  }

  lemma {:induction false} SharesAreWeights(scores: map<string, int>)
    ensures WeightSum(WEIGHTS, scores) >= 0.0
    ensures WeightSum(WEIGHTS, scores) == 0.0 ==> WeightedSum(WEIGHTS, scores) == 0.0
  {
    WeightsArePositive();
    hide WEIGHTS;
    WeightOfRecorded(WEIGHTS, scores);
    if WeightSum(WEIGHTS, scores) == 0.0 { NothingSummed(WEIGHTS, scores); }
  }

  /** The overall score is the nearest integer to the mean of the recorded stages, under their weights. */
  lemma {:induction false} OverallIsNearest(scores: map<string, int>)
    ensures var total := Part(scores, "profiling", 0.10) + Part(scores, "eda", 0.15)
        + Part(scores, "feature_eng", 0.15) + Part(scores, "modeling", 0.25) + Part(scores, "evaluation", 0.25)
        + Part(scores, "reporting", 0.10);
      var sum := Share(scores, "profiling", 0.10) + Share(scores, "eda", 0.15)
        + Share(scores, "feature_eng", 0.15) + Share(scores, "modeling", 0.25) + Share(scores, "evaluation", 0.25)
        + Share(scores, "reporting", 0.10);
      Nearest(Overall(WEIGHTS, scores), total, sum)
  {
    SixStages(scores);
    SharesAreWeights(scores);
    hide WEIGHTS, WeightedSum, WeightSum, Part, Share, Round;
    var total, sum := WeightedSum(WEIGHTS, scores), WeightSum(WEIGHTS, scores);
    if sum > 0.0 { NearestMean(total, sum); }
    assert Nearest(Overall(WEIGHTS, scores), total, sum);
  }

  /** The grade tells how many of the four thresholds are reached. */
  lemma {:induction false} GradeBands(score: int)
    ensures GradeOf(score) == A <==> 85 <= score
    ensures GradeOf(score) == B <==> 70 <= score < 85
    ensures GradeOf(score) == C <==> 55 <= score < 70
    ensures GradeOf(score) == D <==> 40 <= score < 55
    ensures GradeOf(score) == F <==> score < 40
  {
  }
}
