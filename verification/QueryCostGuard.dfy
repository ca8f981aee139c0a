/**
 * The query cost guard: a pre hook that refuses SQL queries over a per-query or a per-session estimate, and a
 * post hook that adds up the estimates of the queries that succeeded. It runs inside the hook pipeline, between
 * whatever hooks come before and after it.
 */
module QueryCostGuard {
  import opened Options
  import opened HookPipeline

  const SQL_TOOL := "sql_query"
  const SQL_KEY := "sql"
  const ESTIMATE_KEY := "estimated_cost_usd"

  /** What the SQL validator and the warehouse's estimator answer; both may raise. */
  datatype Validation = Safe | Unsafe(violations: string)

  datatype Services = Services(
    validate: Value -> Reply<Validation>,
    estimate: (Value, string, Option<int>) -> Reply<Option<real>>)

  datatype Guard = Guard(maxPerQuery: real, maxPerSession: real, sessionCost: real)

  /** Python's truth value. */
  predicate Truthy(v: Value) {
    match v
    case Null => false
    case Flag(b) => b
    case Int(n) => n != 0
    case Float(r) => r != 0.0
    case Text(t) => t != ""
    case Compound(empty) => !empty
  }

  /** Python compares a boolean with a number as 0 or 1. */
  predicate EqualsFloat(v: Value, amount: real) {
    match v
    case Flag(b) => amount == if b then 1.0 else 0.0
    case Int(n) => n as real == amount
    case Float(r) => r == amount
    case _ => false
  }

  function Lookup(args: Args, key: string): Option<Value> {
    if key in args then Some(args[key]) else None
  }

  /** The estimate a dictionary carries: an integer or a float, but not a boolean. */
  function EstimateIn(args: Args): Option<real> {
    match Lookup(args, ESTIMATE_KEY)
    case Some(Int(n)) => Some(n as real)
    case Some(Float(r)) => Some(r)
    case _ => None
  }

  function Connector(args: Args): string {
    match Lookup(args, "connector_name")
    case Some(Text(name)) => if name == "" then "default" else name
    case _ => "default"
  }

  function TimeoutOverride(args: Args): Option<int> {
    match Lookup(args, "timeout")
    case Some(Int(n)) => Some(n)
    case _ => None
  }

  const DENIED := Returned(PreToolUseResult(Deny, None, Some("refused by the query cost guard")))
  const UNCHANGED := Returned(PreToolUseResult(Allow, None, None))

  /** Deny when either cap would be passed, otherwise hand on the arguments with the estimate filled in. */
  function Verdict(g: Guard, args: Args, modified: Args, estimate: real): Reply<PreToolUseResult> {
    if estimate > g.maxPerQuery || g.sessionCost + estimate > g.maxPerSession then DENIED
    else if modified == args then UNCHANGED
    else Returned(PreToolUseResult(Modify, Some(modified), None))
  }

  function GuardPre(g: Guard, s: Services, tool: string, args: Args): Reply<PreToolUseResult> {
    if tool != SQL_TOOL then UNCHANGED
    else if SQL_KEY !in args || !Truthy(args[SQL_KEY]) then DENIED
    else
      var validation := s.validate(args[SQL_KEY]);
      if validation.Raised? then Raised
      else if validation.result.Unsafe? then DENIED
      else if EstimateIn(args).Some? then Verdict(g, args, args, EstimateIn(args).value)
      else
        var estimate := s.estimate(args[SQL_KEY], Connector(args), TimeoutOverride(args));
        if estimate.Raised? then Raised
        else if estimate.result.None? then Verdict(g, args, args, 0.0)
        else
          var amount := estimate.result.value;
          // A flag equal to the estimate compares equal, so it is not replaced.
          var same := ESTIMATE_KEY in args && EqualsFloat(args[ESTIMATE_KEY], amount);
          Verdict(g, args, if same then args else args[ESTIMATE_KEY := Float(amount)], amount)
  }

  /** What a finished dispatch adds to the session cost. */
  function Charge(tool: string, args: Args, isError: bool): real {
    if tool == SQL_TOOL && !isError then GetOr(EstimateIn(args), 0.0) else 0.0
  }

  class QueryCostGuardHook {
    const maxPerQuery: real
    const maxPerSession: real
    var sessionCost: real

    constructor (maxPerQuery: real := 10.0, maxPerSession: real := 100.0)
      ensures State() == Guard(maxPerQuery, maxPerSession, 0.0)
    {
      this.maxPerQuery, this.maxPerSession, sessionCost := maxPerQuery, maxPerSession, 0.0;
    }

    function State(): Guard
      reads this
    {
      Guard(maxPerQuery, maxPerSession, sessionCost)
    }

    method PreToolUse(tool: string, args: Args, s: Services) returns (r: Reply<PreToolUseResult>)
      ensures r == GuardPre(State(), s, tool, args)
    {
      if tool != SQL_TOOL {
        return UNCHANGED;
      }
      var sql := if SQL_KEY in args then args[SQL_KEY] else Text("");
      if !Truthy(sql) {
        return DENIED;
      }
      var validation := s.validate(sql);
      if validation.Raised? {
        return Raised;
      }
      if validation.result.Unsafe? {
        return DENIED;
      }
      var estimated, modified := 0.0, args;
      var carried := EstimateIn(args);
      if carried.Some? {
        estimated := carried.value;
      } else {
        var estimate := s.estimate(sql, Connector(args), TimeoutOverride(args));
        if estimate.Raised? {
          return Raised;
        }
        if estimate.result.Some? {
          estimated := estimate.result.value;
          if !(ESTIMATE_KEY in args && EqualsFloat(args[ESTIMATE_KEY], estimated)) {
            modified := args[ESTIMATE_KEY := Float(estimated)];
          }
        }
      }
      if estimated > maxPerQuery {
        return DENIED;
      }
      if sessionCost + estimated > maxPerSession {
        return DENIED;
      }
      if modified != args {
        return Returned(PreToolUseResult(Modify, Some(modified), None));
      }
      r := UNCHANGED;
    }

    method PostToolUse(tool: string, args: Args, isError: bool)
      modifies this
      ensures State() == old(State()).(sessionCost := old(sessionCost) + Charge(tool, args, isError))
    {
      if tool == SQL_TOOL && !isError {
        var cost := if ESTIMATE_KEY in args then args[ESTIMATE_KEY] else Float(0.0);
        match cost {
          case Int(n) => sessionCost := sessionCost + n as real;
          case Float(r) => sessionCost := sessionCost + r;
          case _ =>
        }
      }
    }
  }

  /** Arguments that leave the guard carry either no estimate or one within both caps. */
  lemma {:induction false} GuardChecksEstimate(g: Guard, s: Services, args: Args)
    requires GuardPre(g, s, SQL_TOOL, args).Returned? && !GuardPre(g, s, SQL_TOOL, args).result.action.Deny?
    ensures var r := GuardPre(g, s, SQL_TOOL, args).result;
      var handedOn := if r.action.Modify? && r.modifiedArguments.Some? then r.modifiedArguments.value else args;
      && handedOn != map[]
      && (EstimateIn(handedOn).Some? ==>
          EstimateIn(handedOn).value <= g.maxPerQuery && g.sessionCost + EstimateIn(handedOn).value <= g.maxPerSession)
  {
    assert SQL_KEY in args;
  }

  /** An empty query is one of six values, and no other. */
  lemma {:induction false} EmptyIff(v: Value)
    ensures !Truthy(v) <==> v in {Null, Flag(false), Int(0), Float(0.0), Text(""), Compound(true)}
  {
    assert v.Text? && !Truthy(v) ==> v.text == "";
  }

  /** Other tools pass as they are, and neither they nor failed queries are charged. */
  lemma {:induction false} OthersPass(g: Guard, s: Services, tool: string, args: Args, isError: bool)
    ensures tool != "sql_query" ==> GuardPre(g, s, tool, args) == Returned(PreToolUseResult(Allow, None, None))
    ensures tool != "sql_query" || isError ==> Charge(tool, args, isError) == 0.0
  {
    assert SQL_TOOL == "sql_query";
    hide SQL_TOOL;
  }

  /** The amount the guard goes by: the carried estimate, else the estimator's, else nothing. */
  function EstimateFor(s: Services, args: Args): real
    requires SQL_KEY in args
  {
    var estimate := s.estimate(args[SQL_KEY], Connector(args), TimeoutOverride(args));
    if EstimateIn(args).Some? then EstimateIn(args).value
    else if estimate.Returned? then GetOr(estimate.result, 0.0) else 0.0
  }

  /**
   * With services that answer, a query is denied iff it is empty, unsafe or over a cap; a query that passes is
   * handed on with the amount filled in, unless there is none or a flag of the same value stands in its place.
   */
  lemma {:induction false} GuardDecides(g: Guard, s: Services, args: Args)
    requires SQL_KEY in args && s.validate(args[SQL_KEY]).Returned?
    requires s.estimate(args[SQL_KEY], Connector(args), TimeoutOverride(args)).Returned?
    ensures var (r, amount) := (GuardPre(g, s, SQL_TOOL, args), EstimateFor(s, args));
      && r.Returned?
      && (r.result.action.Deny? <==>
          || !Truthy(args[SQL_KEY]) || s.validate(args[SQL_KEY]).result.Unsafe?
          || amount > g.maxPerQuery || g.sessionCost + amount > g.maxPerSession)
      && (r.result.action.Modify? ==>
          r.result.modifiedArguments == Some(args[ESTIMATE_KEY := Float(amount)]))
      && (r.result.action.Allow? && EstimateIn(args).None? ==>
          || s.estimate(args[SQL_KEY], Connector(args), TimeoutOverride(args)).result.None?
          || (ESTIMATE_KEY in args && args[ESTIMATE_KEY] == Flag(true) && amount == 1.0)
          || (ESTIMATE_KEY in args && args[ESTIMATE_KEY] == Flag(false) && amount == 0.0))
  {
    hide Connector, TimeoutOverride;
    if ESTIMATE_KEY in args {
      assert EstimateIn(args).Some? <==> args[ESTIMATE_KEY].Int? || args[ESTIMATE_KEY].Float?;
    }
  }

  /** The connector and the time limit the arguments ask for; a flag is no number, and an empty name none at all. */
  ghost predicate AsksFor(args: Args, connector: string, timeout: Option<int>) {
    && connector != ""
    && (connector != "default" ==> "connector_name" in args && args["connector_name"] == Text(connector))
    && ("connector_name" in args && args["connector_name"].Text? ==> args["connector_name"].text in ["", connector])
    && (timeout.Some? ==> "timeout" in args && args["timeout"] == Int(timeout.value))
    && ("timeout" in args && args["timeout"].Int? ==> timeout.Some?)
  }

  /** Of the estimator the guard knows only what it answers for the query on that connector with that time limit. */
  lemma {:induction false} GuardAsks(
    g: Guard, s: Services, t: Services, args: Args, connector: string, timeout: Option<int>)
    requires AsksFor(args, connector, timeout) && s.validate == t.validate
    requires SQL_KEY in args ==>
      s.estimate(args[SQL_KEY], connector, timeout) == t.estimate(args[SQL_KEY], connector, timeout)
    ensures GuardPre(g, s, SQL_TOOL, args) == GuardPre(g, t, SQL_TOOL, args)
    ensures connector == Connector(args) && timeout == TimeoutOverride(args)
  {
    assert connector == Connector(args);
    assert timeout == TimeoutOverride(args);
    hide Connector, TimeoutOverride, AsksFor;
  }

  /** The arguments the guard hands on when it does not deny. */
  function HandedOn(g: Guard, s: Services, args: Args): Args {
    var reply := GuardPre(g, s, SQL_TOOL, args);
    if reply.Returned? && reply.result.action.Modify? && reply.result.modifiedArguments.Some?
    then reply.result.modifiedArguments.value else args
  }

  /** The flag `true` stands where an amount of exactly 1 should be filled in. */
  predicate MaskedByFlag(args: Args, amount: real) {
    ESTIMATE_KEY in args && args[ESTIMATE_KEY] == Flag(true) && amount == 1.0
  }

  /** A query that passes is charged the amount the guard went by, exactly unless a flag masks that amount. */
  lemma {:induction false} ChargedAsEstimatedIff(g: Guard, s: Services, args: Args)
    requires SQL_KEY in args && s.validate(args[SQL_KEY]).Returned?
    requires s.estimate(args[SQL_KEY], Connector(args), TimeoutOverride(args)).Returned?
    requires !GuardPre(g, s, SQL_TOOL, args).result.action.Deny?
    ensures Charge(SQL_TOOL, HandedOn(g, s, args), false) == EstimateFor(s, args)
      <==> !MaskedByFlag(args, EstimateFor(s, args))
  {
    hide Connector, TimeoutOverride;
    if ESTIMATE_KEY in args {
      assert EstimateIn(args).Some? <==> args[ESTIMATE_KEY].Int? || args[ESTIMATE_KEY].Float?;
    }
  }

  /** A query whose estimate is the flag `true` while the warehouse estimates exactly 1. */
  const FLAGGED_ARGUMENTS: Args := map[SQL_KEY := Text("SELECT 1"), ESTIMATE_KEY := Flag(true)]
  const ONE_DOLLAR := Services((sql: Value) => Returned(Safe),
    (sql: Value, connector: string, timeout: Option<int>) => Returned(Some(1.0)))

  /** It passes, and nothing is charged. */
  lemma {:induction false} FlagMasksWitness()
    ensures var g := Guard(10.0, 100.0, 0.0);
      && !GuardPre(g, ONE_DOLLAR, SQL_TOOL, FLAGGED_ARGUMENTS).result.action.Deny?
      && EstimateFor(ONE_DOLLAR, FLAGGED_ARGUMENTS) == 1.0
      && Charge(SQL_TOOL, HandedOn(g, ONE_DOLLAR, FLAGGED_ARGUMENTS), false) == 0.0
  {
    hide Connector, TimeoutOverride;
    ChargedAsEstimatedIff(Guard(10.0, 100.0, 0.0), ONE_DOLLAR, FLAGGED_ARGUMENTS);
  }
}
