/**
 * The query cost guard inside the hook pipeline, over runs of dispatches: what each dispatch charges, when the caps
 * bound it, and what they say about the sum of the charges.
 */
module QuerySpending {
  import opened Options
  import opened HookPipeline
  import opened QueryCostGuard

  /** One dispatch: the other hooks as they answer at that time, the call, and what the outside answers. */
  datatype Step = Step(
    before: seq<Hook>, after: seq<Hook>, call: ToolRequest, services: Services,
    tool: (string, Args) -> Reply<string>, isToolError: string -> bool)

  /** The guard as a hook of the pipeline; its post hook changes no result. */
  function AsHook(g: Guard, s: Services): Hook {
    Hook("query_cost_guard", 15,
      (tool, args) => GuardPre(g, s, tool, args),
      (tool, args, result, isError) => Returned(PostToolUseResult(None, false)),
      response => Returned(FinalResponseResult(None, false, None)))
  }

  function Hooks(g: Guard, step: Step): seq<Hook> {
    step.before + [AsHook(g, step.services)] + step.after
  }

  function Outcome(g: Guard, step: Step): Dispatched {
    Dispatch(Hooks(g, step), step.call, step.tool, step.isToolError)
  }

  /** What one dispatch charges: nothing when it is denied or crashes, as the post hooks are then skipped. */
  function Charged(g: Guard, step: Step): real {
    var d := Outcome(g, step);
    if d.Completed? then Charge(step.call.name, d.arguments, d.isError) else 0.0
  }

  function After(g: Guard, steps: seq<Step>): Guard {
    if steps == [] then g
    else
      var before := After(g, steps[..|steps| - 1]);
      before.(sessionCost := before.sessionCost + Charged(before, steps[|steps| - 1]))
  }

  // ---- one dispatch ----

  /** The SQL query reaches the tool and succeeds. */
  predicate Succeeds(g: Guard, step: Step) {
    step.call.name == SQL_TOOL && Outcome(g, step).Completed? && !Outcome(g, step).isError
  }

  /** The arguments the guard is shown when the hooks before it let the call pass. */
  function Seen(step: Step): Args {
    ArgsAt(step.before, SQL_TOOL, step.call.arguments, |step.before|)
  }

  /** The amount the guard compares with the caps; none when one of its services raises and the guard is skipped. */
  function Checked(step: Step): Option<real> {
    var args := Seen(step);
    if SQL_KEY !in args || step.services.validate(args[SQL_KEY]).Raised? then None
    else if EstimateIn(args).None?
      && step.services.estimate(args[SQL_KEY], Connector(args), TimeoutOverride(args)).Raised? then None
    else Some(EstimateFor(step.services, args))
  }

  predicate WithinCaps(g: Guard, amount: real) {
    amount <= g.maxPerQuery && g.sessionCost + amount <= g.maxPerSession
  }

  /** A guard that lets a call pass hands on the same arguments whatever its caps are. */
  lemma {:induction false} GuardPasses(g: Guard, step: Step)
    requires !Denies(AsHook(g, step.services), SQL_TOOL, Seen(step))
    ensures Checked(step).Some? ==> WithinCaps(g, Checked(step).value)
    ensures Rewritten(AsHook(g, step.services), SQL_TOOL, Seen(step)) != map[]
    ensures forall other: Guard :: (Checked(step).Some? ==> WithinCaps(other, Checked(step).value)) ==>
      !Denies(AsHook(other, step.services), SQL_TOOL, Seen(step))
      && Rewritten(AsHook(other, step.services), SQL_TOOL, Seen(step))
        == Rewritten(AsHook(g, step.services), SQL_TOOL, Seen(step))
  {
    hide Connector, TimeoutOverride, ArgsAt;
    assert SQL_KEY in Seen(step) && Truthy(Seen(step)[SQL_KEY]);
  }

  lemma {:induction false} ThroughGuard(g: Guard, step: Step)
    requires step.call.name == SQL_TOOL && !RunPre(Hooks(g, step), SQL_TOOL, step.call.arguments).action.Deny?
    ensures !RunPre(step.before, SQL_TOOL, step.call.arguments).action.Deny?
    ensures !Denies(AsHook(g, step.services), SQL_TOOL, Seen(step))
    ensures RunPre(Hooks(g, step), SQL_TOOL, step.call.arguments)
      == RunPre(step.after, SQL_TOOL, Rewritten(AsHook(g, step.services), SQL_TOOL, Seen(step)))
  {
    hide AsHook;
    var guard := AsHook(g, step.services);
    PreComposes(step.before + [guard], step.after, SQL_TOOL, step.call.arguments);
    PreComposes(step.before, [guard], SQL_TOOL, step.call.arguments);
    var n := PreVerdict(step.before, SQL_TOOL, step.call.arguments);
    OneHook(guard, SQL_TOOL, Seen(step));
  }

  lemma {:induction false} IntoGuard(g: Guard, step: Step)
    requires !RunPre(step.before, SQL_TOOL, step.call.arguments).action.Deny?
    requires !Denies(AsHook(g, step.services), SQL_TOOL, Seen(step))
    ensures RunPre(Hooks(g, step), SQL_TOOL, step.call.arguments)
      == RunPre(step.after, SQL_TOOL, Rewritten(AsHook(g, step.services), SQL_TOOL, Seen(step)))
  {
    hide AsHook;
    var guard := AsHook(g, step.services);
    PreComposes(step.before + [guard], step.after, SQL_TOOL, step.call.arguments);
    PreComposes(step.before, [guard], SQL_TOOL, step.call.arguments);
    var n := PreVerdict(step.before, SQL_TOOL, step.call.arguments);
    OneHook(guard, SQL_TOOL, Seen(step));
  }

  /** A dispatch that is let through runs its tool on arguments that the pre hooks' verdict determines. */
  lemma {:induction false} DispatchedOn(hooks: seq<Hook>, step: Step)
    requires step.call.name == SQL_TOOL && !RunPre(hooks, SQL_TOOL, step.call.arguments).action.Deny?
    ensures var last := RunPre(hooks, SQL_TOOL, step.call.arguments).modifiedArguments;
      && last.Some?
      && var arguments := if last.value == map[] then step.call.arguments else last.value;
         var (d, reply) := (Dispatch(hooks, step.call, step.tool, step.isToolError), step.tool(SQL_TOOL, arguments));
         if reply.Raised? then d == Crashed(arguments)
         else d.Completed? && d.arguments == arguments && d.isError == step.isToolError(reply.result)
  {
    var n := PreVerdict(hooks, SQL_TOOL, step.call.arguments);
  }

  /** Two guards that let a query pass dispatch it alike. */
  lemma {:induction false} SameDispatch(g: Guard, other: Guard, step: Step)
    requires Succeeds(g, step)
    requires Checked(step).Some? ==> WithinCaps(other, Checked(step).value)
    ensures Succeeds(other, step) && Outcome(other, step).arguments == Outcome(g, step).arguments
  {
    hide Hooks, AsHook, Denies, Rewritten, RunPre, Seen, Checked, WithinCaps;
    ThroughGuard(g, step);
    GuardPasses(g, step);
    assert !Denies(AsHook(other, step.services), SQL_TOOL, Seen(step));
    IntoGuard(other, step);
    DispatchedOn(Hooks(g, step), step);
    DispatchedOn(Hooks(other, step), step);
  }

  lemma {:induction false} SuccessPassesHooks(g: Guard, step: Step)
    requires Succeeds(g, step)
    ensures !RunPre(Hooks(g, step), SQL_TOOL, step.call.arguments).action.Deny?
  {
  }

  /** What a successful query carries when its tool has run. */
  function Carried(g: Guard, step: Step): Option<real>
    requires Succeeds(g, step)
  {
    EstimateIn(Outcome(g, step).arguments)
  }

  /** Every guard that lets the query pass finds what is charged within its caps. */
  ghost predicate CapsHold(step: Step) {
    forall g: Guard :: Succeeds(g, step) && Carried(g, step).Some? ==> WithinCaps(g, Carried(g, step).value)
  }

  /**
   * For a query that some guard lets succeed, the caps bound what is charged, whatever they are, if and only if it
   * carries no estimate in the end, or the guard answered and the estimate is at most the amount it checked. So they
   * fail exactly when a service of the guard raised or something raised the estimate after the check.
   */
  lemma {:induction false} CapsHoldIff(g: Guard, step: Step)
    requires Succeeds(g, step)
    ensures CapsHold(step) <==>
      (Carried(g, step).Some? ==> Checked(step).Some? && Carried(g, step).value <= Checked(step).value)
  {
    hide Hooks, AsHook, Dispatch, Checked, EstimateIn;
    forall other: Guard | Succeeds(other, step) ensures Carried(other, step) == Carried(g, step)
      ensures Checked(step).Some? ==> WithinCaps(other, Checked(step).value)
    {
      SuccessPassesHooks(other, step);
      ThroughGuard(other, step);
      GuardPasses(other, step);
      SameDispatch(g, other, step);
    }
    if Carried(g, step).Some? {
      var e := Carried(g, step).value;
      var cap := if Checked(step).Some? then Checked(step).value else e - 1.0;
      var tight := Guard(cap, cap, 0.0);
      SameDispatch(g, tight, step);
      assert Succeeds(tight, step) && Carried(tight, step) == Some(e);
    }
  }

  /**
   * Emptied by the last rewrite, the dictionary falls back to the original arguments: the caps hold if and only if
   * these carry no estimate or at most the amount the guard checked in the arguments it was shown.
   */
  lemma {:induction false} EmptiedRewriteLiftsCaps(g: Guard, step: Step)
    requires Succeeds(g, step) && ArgsAt(Hooks(g, step), SQL_TOOL, step.call.arguments, |Hooks(g, step)|) == map[]
    ensures Carried(g, step) == EstimateIn(step.call.arguments)
    ensures CapsHold(step) <==>
      (EstimateIn(step.call.arguments).Some? ==>
        Checked(step).Some? && EstimateIn(step.call.arguments).value <= Checked(step).value)
  {
    hide ArgsAt, AsHook, EstimateIn, Checked, CapsHold;
    var n := PreVerdict(Hooks(g, step), SQL_TOOL, step.call.arguments);
    CapsHoldIff(g, step);
  }

  // ---- a query that passes the caps ----

  /** A query with an estimate of 1000, which one hook lowers to 1 for the guard and a later one removes. */
  const LIFTED_ARGUMENTS: Args := map[SQL_KEY := Text("SELECT 1"), ESTIMATE_KEY := Float(1000.0)]
  const LOWERED_ARGUMENTS: Args := map[SQL_KEY := Text("SELECT 1"), ESTIMATE_KEY := Float(1.0)]

  /** A hook that replaces the arguments of every call. */
  function Replacing(args: Args): Hook {
    Hook("replacing", 0,
      (tool, before) => Returned(PreToolUseResult(Modify, Some(args), None)),
      (tool, before, result, isError) => Returned(PostToolUseResult(None, false)),
      response => Returned(FinalResponseResult(None, false, None)))
  }

  const LIFTED := Step(
    [Replacing(LOWERED_ARGUMENTS)], [Replacing(map[])], ToolRequest(SQL_TOOL, LIFTED_ARGUMENTS),
    Services((sql: Value) => Returned(Safe),
      (sql: Value, connector: string, timeout: Option<int>) => Returned(Some(1.0))),
    (tool: string, args: Args) => Returned("ok"), (result: string) => false)

  lemma {:induction false} OneHookAt(h: Hook, args: Args)
    ensures ArgsAt([h], SQL_TOOL, args, 1) == Rewritten(h, SQL_TOOL, args)
    ensures RunPre([h], SQL_TOOL, args) == if Denies(h, SQL_TOOL, args) then h.pre(SQL_TOOL, args).result
      else PreToolUseResult(Allow, Some(Rewritten(h, SQL_TOOL, args)), None)
  {
    assert ArgsAt([h], SQL_TOOL, args, 0) == args && [h][1..] == [];
  }

  lemma {:induction false} LoweredIsPassed()
    ensures Seen(LIFTED) == LOWERED_ARGUMENTS && Checked(LIFTED) == Some(1.0)
    ensures !Denies(AsHook(Guard(10.0, 100.0, 0.0), LIFTED.services), SQL_TOOL, LOWERED_ARGUMENTS)
    ensures !RunPre(LIFTED.before, SQL_TOOL, LIFTED.call.arguments).action.Deny?
  {
    OneHookAt(Replacing(LOWERED_ARGUMENTS), LIFTED_ARGUMENTS);
    hide ArgsAt, RunPre;
  }

  /** One dispatch that charges 1000 under a cap of 10 a query and 100 a session. */
  lemma {:induction false} LiftedCapsWitness()
    ensures var g := Guard(10.0, 100.0, 0.0);
      Succeeds(g, LIFTED) && Carried(g, LIFTED) == Some(1000.0) && Charged(g, LIFTED) == 1000.0
    ensures Checked(LIFTED) == Some(1.0) && !CapsHold(LIFTED)
  {
    var g := Guard(10.0, 100.0, 0.0);
    LoweredIsPassed();
    IntoGuard(g, LIFTED);
    OneHookAt(Replacing(map[]), Rewritten(AsHook(g, LIFTED.services), SQL_TOOL, LOWERED_ARGUMENTS));
    hide ArgsAt, RunPre, AsHook, Hooks, CapsHold;
    DispatchedOn(Hooks(g, LIFTED), LIFTED);
    CapsHoldIff(g, LIFTED);
  }

  // ---- runs ----

  /** The SQL tool validates its query itself, so it errs where the validator raises. */
  ghost predicate ToolChecksSql(step: Step) {
    forall args: Args :: SQL_KEY in args && step.services.validate(args[SQL_KEY]).Raised? ==>
      var reply := step.tool(SQL_TOOL, args);
      reply.Raised? || step.isToolError(reply.result)
  }

  predicate SameQuery(after: Args, before: Args) {
    after != map[] && EstimateIn(after) == EstimateIn(before) && Lookup(after, SQL_KEY) == Lookup(before, SQL_KEY)
  }

  /** A hook leaves query and estimate as it finds them and never empties the dictionary. */
  ghost predicate KeepsQuery(h: Hook) {
    forall args: Args :: Rewritten(h, SQL_TOOL, args) == args || SameQuery(Rewritten(h, SQL_TOOL, args), args)
  }

  ghost predicate Faithful(step: Step) {
    ToolChecksSql(step) && forall h :: h in step.after ==> KeepsQuery(h)
  }

  lemma {:induction false} LaterHooksKeepQuery(hooks: seq<Hook>, args: Args)
    requires forall h :: h in hooks ==> KeepsQuery(h)
    requires args != map[] && !RunPre(hooks, SQL_TOOL, args).action.Deny?
    ensures var r := RunPre(hooks, SQL_TOOL, args).modifiedArguments; r.Some? && SameQuery(r.value, args)
  {
    if hooks != [] {
      assert hooks[0] in hooks && KeepsQuery(hooks[0]);
      assert forall h :: h in hooks[1..] ==> h in hooks;
      hide EstimateIn, Lookup, Denies;
      LaterHooksKeepQuery(hooks[1..], Rewritten(hooks[0], SQL_TOOL, args));
    }
  }

  /** What the guard hands on carries the checked amount or none, with the query it was shown. */
  lemma {:induction false} HandsOnChecked(g: Guard, step: Step)
    requires !Denies(AsHook(g, step.services), SQL_TOOL, Seen(step))
    ensures var handedOn := Rewritten(AsHook(g, step.services), SQL_TOOL, Seen(step));
      && SQL_KEY in Seen(step) && Lookup(handedOn, SQL_KEY) == Some(Seen(step)[SQL_KEY])
      && (EstimateIn(handedOn).Some? ==>
          || step.services.validate(Seen(step)[SQL_KEY]).Raised?
          || Checked(step) == EstimateIn(handedOn))
  {
    hide Connector, TimeoutOverride, ArgsAt;
    var args := Seen(step);
    assert SQL_KEY in args && Truthy(args[SQL_KEY]);
    if ESTIMATE_KEY in args {
      assert EstimateIn(args).Some? <==> args[ESTIMATE_KEY].Int? || args[ESTIMATE_KEY].Float?;
    }
  }

  /** Under hooks that keep the query, what a successful query carries was checked against the caps. */
  lemma {:induction false} DispatchedEstimate(g: Guard, step: Step)
    requires Faithful(step) && Succeeds(g, step)
    ensures Carried(g, step).Some? ==> WithinCaps(g, Carried(g, step).value)
  {
    hide Hooks, AsHook, Denies, Rewritten, RunPre, Seen, Checked, WithinCaps, EstimateIn, KeepsQuery;
    ThroughGuard(g, step);
    GuardPasses(g, step);
    HandsOnChecked(g, step);
    var handedOn := Rewritten(AsHook(g, step.services), SQL_TOOL, Seen(step));
    LaterHooksKeepQuery(step.after, handedOn);
    DispatchedOn(Hooks(g, step), step);
  }

  function Max0(r: real): real {
    if r > 0.0 then r else 0.0
  }

  lemma {:induction false} StepStaysWithinCaps(g: Guard, step: Step)
    requires Faithful(step)
    ensures Charged(g, step) <= Max0(g.maxPerQuery)
    ensures Charged(g, step) != 0.0 ==> g.sessionCost + Charged(g, step) <= g.maxPerSession
  {
    hide Outcome, Faithful, SQL_TOOL, EstimateIn;
    if Succeeds(g, step) { DispatchedEstimate(g, step); }
  }

  ghost predicate AllFaithful(steps: seq<Step>) {
    forall i :: 0 <= i < |steps| ==> Faithful(steps[i])
  }

  /** The dispatches of a run, as they ended. */
  datatype Done = Done(tool: string, outcome: Dispatched)

  function Log(g: Guard, steps: seq<Step>): seq<Done> {
    if steps == [] then []
    else
      var n := |steps| - 1;
      Log(g, steps[..n]) + [Done(steps[n].call.name, Outcome(After(g, steps[..n]), steps[n]))]
  }

  /** The numeric estimates carried by the arguments of the successful SQL queries of a log, added up. */
  function EstimatesIn(log: seq<Done>): real {
    if log == [] then 0.0
    else
      var last := log[|log| - 1];
      var counts := last.tool == SQL_TOOL && last.outcome.Completed? && !last.outcome.isError;
      EstimatesIn(log[..|log| - 1]) + if counts then GetOr(EstimateIn(last.outcome.arguments), 0.0) else 0.0
  }

  /** The accumulated cost is what the log of the run says, whatever the hooks and services did. */
  lemma {:induction false} CostIsLogged(g: Guard, steps: seq<Step>)
    ensures After(g, steps).sessionCost == g.sessionCost + EstimatesIn(Log(g, steps))
    ensures After(g, steps).maxPerQuery == g.maxPerQuery && After(g, steps).maxPerSession == g.maxPerSession
  {
    hide Outcome, EstimateIn;
    if steps != [] {
      var n := |steps| - 1;
      CostIsLogged(g, steps[..n]);
      var log := Log(g, steps);
      assert log[..|log| - 1] == Log(g, steps[..n]);
    }
  }

  /** Over any run the accumulated estimates never pass the session cap, nor any charge the per-query cap. */
  lemma {:induction false} SpendingStaysWithinCaps(g: Guard, steps: seq<Step>)
    requires g.sessionCost == 0.0 && AllFaithful(steps)
    ensures EstimatesIn(Log(g, steps)) == After(g, steps).sessionCost <= Max0(g.maxPerSession)
    ensures forall i :: 0 <= i < |steps| ==> Charged(After(g, steps[..i]), steps[i]) <= Max0(g.maxPerQuery)
  {
    hide Charged, Faithful, Log, EstimatesIn;
    CostIsLogged(g, steps);
    if steps != [] {
      var n := |steps| - 1;
      var front, step := steps[..n], steps[n];
      assert forall i :: 0 <= i < n ==> front[i] == steps[i];
      SpendingStaysWithinCaps(g, front);
      var before := After(g, front);
      CostIsLogged(g, front);
      StepStaysWithinCaps(before, step);
      forall i | 0 <= i < |steps| ensures Charged(After(g, steps[..i]), steps[i]) <= Max0(g.maxPerQuery) {
        if i < n { assert front[..i] == steps[..i] && front[i] == steps[i]; }
      }
    }
  }

  // ---- the positive charges alone ----

  /** What is charged in all, not counting charges that lower the session cost. */
  ghost function Spent(g: Guard, steps: seq<Step>): real {
    if steps == [] then 0.0
    else Spent(g, steps[..|steps| - 1]) + Max0(Charged(After(g, steps[..|steps| - 1]), steps[|steps| - 1]))
  }

  /** By how much charges lower the session cost. */
  ghost function Refunded(g: Guard, steps: seq<Step>): real {
    if steps == [] then 0.0
    else Refunded(g, steps[..|steps| - 1]) + Max0(-Charged(After(g, steps[..|steps| - 1]), steps[|steps| - 1]))
  }

  lemma {:induction false} SpentMinusRefunded(g: Guard, steps: seq<Step>)
    ensures After(g, steps).sessionCost == g.sessionCost + Spent(g, steps) - Refunded(g, steps)
  {
    hide Charged;
    if steps != [] { SpentMinusRefunded(g, steps[..|steps| - 1]); }
  }

  /** What is really spent passes the session cap by no more than what negative estimates refunded. */
  lemma {:induction false} SpentStaysWithinCapAndRefunds(g: Guard, steps: seq<Step>)
    requires g.sessionCost == 0.0 && AllFaithful(steps)
    ensures Spent(g, steps) <= Max0(g.maxPerSession) + Refunded(g, steps)
  {
    hide Charged, Faithful, Log, EstimatesIn;
    SpendingStaysWithinCaps(g, steps);
    SpentMinusRefunded(g, steps);
  }

  /** No charge of the run is below `floor`. */
  ghost predicate NoChargeBelow(g: Guard, steps: seq<Step>, floor: real) {
    forall i :: 0 <= i < |steps| ==> Charged(After(g, steps[..i]), steps[i]) >= floor
  }

  lemma {:induction false} NothingRefunded(g: Guard, steps: seq<Step>)
    requires NoChargeBelow(g, steps, 0.0)
    ensures Refunded(g, steps) == 0.0
  {
    hide Charged, After;
    if steps != [] {
      var n := |steps| - 1;
      assert steps[..n] == steps[..n];
      assert forall i :: 0 <= i < n ==> steps[..n][..i] == steps[..i] && steps[..n][i] == steps[i];
      NothingRefunded(g, steps[..n]);
    }
  }

  /** A query with no other hooks, an estimate of its own, and a tool that succeeds. */
  function PlainQuery(amount: real): Step {
    Step([], [], ToolRequest(SQL_TOOL, map[SQL_KEY := Text("SELECT 1"), ESTIMATE_KEY := Float(amount)]),
      Services(sql => Returned(Safe), (sql, connector, timeout) => Returned(None)),
      (tool, args) => Returned("rows"), result => false)
  }

  lemma {:induction false} PlainQueryCharged(g: Guard, amount: real)
    requires WithinCaps(g, amount)
    ensures Charged(g, PlainQuery(amount)) == amount && Faithful(PlainQuery(amount))
  {
    var step := PlainQuery(amount);
    var args := step.call.arguments;
    assert SQL_KEY != ESTIMATE_KEY;
    assert EstimateIn(args) == Some(amount);
    var guard := AsHook(g, step.services);
    assert Hooks(g, step) == [guard];
    assert GuardPre(g, step.services, SQL_TOOL, args) == UNCHANGED;
    hide GuardPre, EstimateIn;
    OneHook(guard, SQL_TOOL, args);
    DispatchedOn([guard], step);
  }

  /** A query that refunds `-floor`, then `n` queries of `amount`. */
  function RefundThenSpend(floor: real, amount: real, n: nat): seq<Step> {
    if n == 0 then [PlainQuery(floor)] else RefundThenSpend(floor, amount, n - 1) + [PlainQuery(amount)]
  }

  lemma {:induction false} OneMoreStep(g: Guard, front: seq<Step>, step: Step, floor: real)
    requires AllFaithful(front) && NoChargeBelow(g, front, floor)
    requires Faithful(step) && Charged(After(g, front), step) >= floor
    ensures var steps := front + [step];
      && AllFaithful(steps) && NoChargeBelow(g, steps, floor)
      && After(g, steps)
        == After(g, front).(sessionCost := After(g, front).sessionCost + Charged(After(g, front), step))
      && Spent(g, steps) == Spent(g, front) + Max0(Charged(After(g, front), step))
  {
    hide Charged, Faithful;
    var steps := front + [step];
    assert steps[..|front|] == front;
    forall i | 0 <= i < |steps| ensures Charged(After(g, steps[..i]), steps[i]) >= floor && Faithful(steps[i]) {
      if i < |front| { assert steps[..i] == front[..i] && steps[i] == front[i]; }
    }
  }

  lemma {:induction false} Distribute(n: nat, amount: real)
    requires n > 0
    ensures n as real * amount == (n - 1) as real * amount + amount
  {
    assert n as real == (n - 1) as real + 1.0;
  }

  lemma {:induction false} NoSteps(g: Guard, floor: real)
    ensures After(g, []) == g && Spent(g, []) == 0.0 && AllFaithful([]) && NoChargeBelow(g, [], floor)
  {
  }

  lemma {:induction false} RefundThenSpendRuns(g: Guard, floor: real, amount: real, n: nat)
    requires g.sessionCost == 0.0 && floor < 0.0 < amount <= g.maxPerQuery && 0.0 <= g.maxPerSession
    requires n as real * amount <= g.maxPerSession - floor
    ensures var steps := RefundThenSpend(floor, amount, n);
      && After(g, steps) == g.(sessionCost := floor + n as real * amount)
      && Spent(g, steps) == n as real * amount
      && AllFaithful(steps) && NoChargeBelow(g, steps, floor)
  {
    hide Charged, Faithful, After, Spent, AllFaithful, NoChargeBelow, PlainQuery;
    if n == 0 {
      assert [] + [PlainQuery(floor)] == [PlainQuery(floor)];
      NoSteps(g, floor);
      PlainQueryCharged(g, floor);
      OneMoreStep(g, [], PlainQuery(floor), floor);
    } else {
      var front := RefundThenSpend(floor, amount, n - 1);
      Distribute(n, amount);
      RefundThenSpendRuns(g, floor, amount, n - 1);
      PlainQueryCharged(After(g, front), amount);
      OneMoreStep(g, front, PlainQuery(amount), floor);
    }
  }

  lemma {:induction false} Commute(a: real, b: real)
    ensures a * b == b * a
  {
  }

  lemma {:induction false} LargerFactor(a: real, b: real, c: real)
    requires a < b && c > 0.0
    ensures a * c < b * c
  {
  }

  lemma {:induction false} SignOfFactor(a: real, b: real)
    requires a * b > 0.0 && b > 0.0
    ensures a > 0.0
  {
  }

  lemma {:induction false} SmallPart(total: real, limit: real, ratio: real, count: real, part: real)
    requires ratio * limit == total == part * count && 0.0 < ratio < count && limit > 0.0
    ensures part <= limit
  {
    if limit < part {
      LargerFactor(ratio, count, limit);
      LargerFactor(limit, part, count);
      Commute(limit, count);
    }
  }

  /** Equal parts of `total`, none larger than `limit`. */
  lemma {:induction false} EqualParts(total: real, limit: real) returns (n: nat, part: real)
    requires total > 0.0 && limit > 0.0
    ensures n as real * part == total && 0.0 < part <= limit
  {
    var ratio := total / limit;
    n := ratio.Floor + 1;
    var count := n as real;
    part := total / count;
    assert ratio * limit == total && part * count == total;
    assert count == ratio.Floor as real + 1.0 > ratio;
    Commute(part, count);
    SignOfFactor(part, count);
    SmallPart(total, limit, ratio, count, part);
  }

  /** Every faithful run whose charges are at least `floor` spends no more than the session cap. */
  ghost predicate SpendingBounded(g: Guard, floor: real) {
    forall steps: seq<Step> :: AllFaithful(steps) && NoChargeBelow(g, steps, floor) ==>
      Spent(g, steps) <= g.maxPerSession
  }

  /** The session cap bounds what is spent if and only if no negative estimate is charged. */
  lemma {:induction false} SpendingBoundedIff(g: Guard, floor: real)
    requires g.sessionCost == 0.0 && g.maxPerQuery > 0.0 && g.maxPerSession >= 0.0
    ensures SpendingBounded(g, floor) <==> floor >= 0.0
  {
    hide Charged, AllFaithful;
    if floor >= 0.0 {
      forall steps: seq<Step> | AllFaithful(steps) && NoChargeBelow(g, steps, floor)
        ensures Spent(g, steps) <= g.maxPerSession
      {
        assert NoChargeBelow(g, steps, 0.0);
        NothingRefunded(g, steps);
        SpentStaysWithinCapAndRefunds(g, steps);
      }
    } else {
      var n, amount := EqualParts(g.maxPerSession - floor, g.maxPerQuery);
      RefundThenSpendRuns(g, floor, amount, n);
      assert Spent(g, RefundThenSpend(floor, amount, n)) > g.maxPerSession;
    }
  }
}
