/**
 * The iteration budget of one run: iterations, tokens, cost and wall time against a policy, with threshold
 * events. Percentages are exact reals.
 */
module IterationBudget {
  import opened Options

  datatype Policy = Policy(
    maxIterations: int, maxTotalTokens: int, maxCostUsd: real, maxWallTimeSeconds: real,
    warningThresholdPct: real, criticalThresholdPct: real)

  const DEFAULT_POLICY := Policy(100, 2_000_000, 10.0, 7200.0, 80.0, 95.0)

  datatype BudgetState = BudgetState(
    iterationsUsed: int, totalTokensUsed: int, totalCostUsd: real, wallTimeElapsed: real,
    warningIssued: bool, criticalIssued: bool)

  const FRESH := BudgetState(0, 0, 0.0, 0.0, false, false)

  datatype Dimension = Iterations | Tokens | Cost | WallTime
  datatype Level = Warning | Critical | Exhausted

  datatype ThresholdEvent = ThresholdEvent(dimension: Dimension, level: Level, used: real, limit: real, pct: real)

  /** One usage record: tokens, their price, and the clock when it is booked. */
  datatype Usage = Usage(totalTokens: int, cost: real, now: real)

  predicate IsExhausted(p: Policy, s: BudgetState) {
    || s.iterationsUsed >= p.maxIterations
    || s.totalTokensUsed >= p.maxTotalTokens
    || s.totalCostUsd >= p.maxCostUsd
    || s.wallTimeElapsed >= p.maxWallTimeSeconds
  }

  // ---- one pass over the four dimensions ----

  datatype Check = Check(dimension: Dimension, used: real, limit: real)

  function Checks(p: Policy, s: BudgetState): seq<Check> {
    [Check(Iterations, s.iterationsUsed as real, p.maxIterations as real),
     Check(Tokens, s.totalTokensUsed as real, p.maxTotalTokens as real),
     Check(Cost, s.totalCostUsd, p.maxCostUsd),
     Check(WallTime, s.wallTimeElapsed, p.maxWallTimeSeconds)]
  }

  function Pct(c: Check): real
    requires c.limit > 0.0
  {
    c.used / c.limit * 100.0
  }

  /** The dimension has a limit, has reached `threshold` percent of it, and is not used up. */
  predicate InBand(c: Check, threshold: real) {
    c.limit > 0.0 && threshold <= Pct(c) < 100.0
  }

  predicate UsedUp(c: Check) {
    c.limit > 0.0 && c.used >= c.limit
  }

  datatype Scan = Scan(events: seq<ThresholdEvent>, warned: bool, critical: bool)

  function EventFor(c: Check, level: Level): ThresholdEvent
    requires c.limit > 0.0
  {
    ThresholdEvent(c.dimension, level, c.used, c.limit, Pct(c))
  }

  function ScanOne(p: Policy, c: Check, s: Scan): Scan {
    if c.limit <= 0.0 then s
    else if Pct(c) >= 100.0 then s.(events := s.events + [EventFor(c, Exhausted)])
    else if Pct(c) >= p.criticalThresholdPct && !s.critical then
      s.(events := s.events + [EventFor(c, Critical)], critical := true)
    else if Pct(c) >= p.warningThresholdPct && !s.warned then
      s.(events := s.events + [EventFor(c, Warning)], warned := true)
    else s
  }

  function ScanAll(p: Policy, checks: seq<Check>, warned: bool, critical: bool): Scan {
    if checks == [] then Scan([], warned, critical)
    else ScanOne(p, checks[|checks| - 1], ScanAll(p, checks[..|checks| - 1], warned, critical))
  }

  /** Booking one usage record, before the thresholds are looked at. */
  function Booked(s: BudgetState, u: Usage, startTime: real): BudgetState {
    s.(iterationsUsed := s.iterationsUsed + 1, totalTokensUsed := s.totalTokensUsed + u.totalTokens,
       totalCostUsd := s.totalCostUsd + u.cost, wallTimeElapsed := u.now - startTime)
  }

  datatype Consumed = Consumed(state: BudgetState, events: seq<ThresholdEvent>)

  function Spend(p: Policy, s: BudgetState, u: Usage, startTime: real): Consumed {
    var booked := Booked(s, u, startTime);
    var scan := ScanAll(p, Checks(p, booked), s.warningIssued, s.criticalIssued);
    Consumed(booked.(warningIssued := scan.warned, criticalIssued := scan.critical), scan.events)
  }

  class Budget {
    var policy: Policy
    var state: BudgetState
    var startTime: real

    constructor (policy: Policy, now: real)
      ensures this.policy == policy && state == FRESH && startTime == now
    {
      this.policy, state, startTime := policy, FRESH, now;
    }

    method Consume(u: Usage) returns (events: seq<ThresholdEvent>)
      modifies this`state
      ensures Consumed(state, events) == Spend(policy, old(state), u, startTime)
    {
      state := state.(iterationsUsed := state.iterationsUsed + 1);
      state := state.(totalTokensUsed := state.totalTokensUsed + u.totalTokens);
      state := state.(totalCostUsd := state.totalCostUsd + u.cost);
      state := state.(wallTimeElapsed := u.now - startTime);
      events := CheckThresholds();
    }

    method CheckThresholds() returns (events: seq<ThresholdEvent>)
      modifies this`state
      ensures var (was, checks) := (old(state), Checks(policy, old(state)));
        var scan := ScanAll(policy, checks, was.warningIssued, was.criticalIssued);
        && events == scan.events
        && state == was.(warningIssued := scan.warned, criticalIssued := scan.critical)
    {
      var checks := Checks(policy, state);
      events := [];
      for k := 0 to |checks|
        invariant checks == Checks(policy, old(state))
        invariant state == old(state).(warningIssued := state.warningIssued, criticalIssued := state.criticalIssued)
        invariant Scan(events, state.warningIssued, state.criticalIssued)
          == ScanAll(policy, checks[..k], old(state).warningIssued, old(state).criticalIssued)
      {
        assert checks[..k + 1][..k] == checks[..k];
        var c := checks[k];
        if c.limit <= 0.0 {
          continue;
        }
        var pct := c.used / c.limit * 100.0;
        if pct >= 100.0 {
          events := events + [ThresholdEvent(c.dimension, Exhausted, c.used, c.limit, pct)];
        } else if pct >= policy.criticalThresholdPct && !state.criticalIssued {
          state := state.(criticalIssued := true);
          events := events + [ThresholdEvent(c.dimension, Critical, c.used, c.limit, pct)];
        } else if pct >= policy.warningThresholdPct && !state.warningIssued {
          state := state.(warningIssued := true);
          events := events + [ThresholdEvent(c.dimension, Warning, c.used, c.limit, pct)];
        }
      }
      assert checks[..|checks|] == checks;
    }

    method Reset(newPolicy: Option<Policy>, now: real)
      modifies this
      ensures policy == GetOr(newPolicy, old(policy)) && state == FRESH && startTime == now
    {
      if newPolicy.Some? {
        policy := newPolicy.value;
      }
      state, startTime := FRESH, now;
    }
  }

  // ---- what the events of one pass say ----

  function CountLevel(events: seq<ThresholdEvent>, level: Level): nat {
    if events == [] then 0
    else CountLevel(events[..|events| - 1], level) + if events[|events| - 1].level == level then 1 else 0
  }

  lemma {:induction false} CountConcat(a: seq<ThresholdEvent>, b: seq<ThresholdEvent>, level: Level)
    ensures CountLevel(a + b, level) == CountLevel(a, level) + CountLevel(b, level)
  {
    if b == [] {
      assert a + b == a;
    } else {
      assert (a + b)[..|a + b| - 1] == a + b[..|b| - 1];
      CountConcat(a, b[..|b| - 1], level);
    }
  }

  /** A pass issues a warning (a critical event) exactly when it sets the flag, and then exactly one. */
  lemma {:induction false} OnePerFlag(p: Policy, checks: seq<Check>, warned: bool, critical: bool)
    ensures var r := ScanAll(p, checks, warned, critical);
      && (warned ==> r.warned) && (critical ==> r.critical)
      && CountLevel(r.events, Warning) == (if r.warned && !warned then 1 else 0)
      && CountLevel(r.events, Critical) == (if r.critical && !critical then 1 else 0)
  {
    if checks != [] {
      OnePerFlag(p, checks[..|checks| - 1], warned, critical);
      var before, after := ScanAll(p, checks[..|checks| - 1], warned, critical), ScanAll(p, checks, warned, critical);
      if after.events != before.events {
        assert after.events[..|after.events| - 1] == before.events;
      }
    }
  }

  lemma {:induction false} PctReachesHundred(c: Check)
    requires c.limit > 0.0
    ensures Pct(c) >= 100.0 <==> c.used >= c.limit
  {
    var q := c.used / c.limit;
    assert q * c.limit == c.used;
    if q >= 1.0 {
      assert q * c.limit >= 1.0 * c.limit;
    } else {
      assert q * c.limit < 1.0 * c.limit;
    }
  }

  ghost predicate Justified(checks: seq<Check>, e: ThresholdEvent) {
    exists c :: c in checks && UsedUp(c) && e == EventFor(c, Exhausted)
  }

  /** The used-up dimensions are exactly those reported as exhausted. */
  lemma {:induction false} ExhaustedEventsAreUsedUp(p: Policy, checks: seq<Check>, warned: bool, critical: bool)
    ensures var events := ScanAll(p, checks, warned, critical).events;
      && (forall c :: c in checks && UsedUp(c) ==> EventFor(c, Exhausted) in events)
      && forall e :: e in events && e.level == Exhausted ==> Justified(checks, e)
  {
    if checks != [] {
      var front, last := checks[..|checks| - 1], checks[|checks| - 1];
      ExhaustedEventsAreUsedUp(p, front, warned, critical);
      assert checks == front + [last];
      if last.limit > 0.0 { PctReachesHundred(last); }
    }
  }

  /** Position `i` is the first of the checks in the critical band. */
  ghost predicate FirstCritical(p: Policy, checks: seq<Check>, i: int) {
    && 0 <= i < |checks| && InBand(checks[i], p.criticalThresholdPct)
    && forall j :: 0 <= j < i ==> !InBand(checks[j], p.criticalThresholdPct)
  }

  /** The check is in the warning band and is not the one the critical event is spent on. */
  ghost predicate Warns(p: Policy, checks: seq<Check>, critical: bool, i: int) {
    && 0 <= i < |checks| && InBand(checks[i], p.warningThresholdPct)
    && (critical || !FirstCritical(p, checks, i))
  }

  lemma {:induction false} FirstCriticalPrefix(p: Policy, checks: seq<Check>, n: nat, i: int)
    requires n <= |checks| && i < n
    ensures FirstCritical(p, checks[..n], i) <==> FirstCritical(p, checks, i)
  {
    if 0 <= i {
      assert checks[..n][i] == checks[i] && forall j :: 0 <= j < i ==> checks[..n][j] == checks[j];
    }
  }

  /** Exactly when a pass sets each flag. A warning needs a check besides the one the critical event is spent on. */
  lemma {:induction false} WhenFlagsAreSet(p: Policy, checks: seq<Check>, warned: bool, critical: bool)
    ensures ScanAll(p, checks, warned, critical).critical <==>
      critical || exists i :: 0 <= i < |checks| && InBand(checks[i], p.criticalThresholdPct)
    ensures ScanAll(p, checks, warned, critical).warned <==>
      warned || exists i :: Warns(p, checks, critical, i)
  {
    if checks != [] {
      var n := |checks| - 1;
      var front, last := checks[..n], checks[n];
      WhenFlagsAreSet(p, front, warned, critical);
      var before := ScanAll(p, front, warned, critical);
      assert forall i :: 0 <= i < n ==> front[i] == checks[i];
      forall i | 0 <= i < n ensures Warns(p, checks, critical, i) <==> Warns(p, front, critical, i) {
        FirstCriticalPrefix(p, checks, n, i);
      }
      assert before.critical <==> critical || exists j :: 0 <= j < n && InBand(checks[j], p.criticalThresholdPct);
      assert Warns(p, checks, critical, n) <==>
        (InBand(last, p.warningThresholdPct) && !(InBand(last, p.criticalThresholdPct) && !before.critical));
      assert (exists i :: Warns(p, checks, critical, i)) <==>
        ((exists i :: Warns(p, front, critical, i)) || Warns(p, checks, critical, n));
    }
  }

  // ---- whole runs ----

  /** The state after a run of calls under one policy. */
  function After(p: Policy, startTime: real, from: BudgetState, usages: seq<Usage>): BudgetState {
    if usages == [] then from
    else Spend(p, After(p, startTime, from, usages[..|usages| - 1]), usages[|usages| - 1], startTime).state
  }

  function AllEvents(p: Policy, startTime: real, from: BudgetState, usages: seq<Usage>): seq<ThresholdEvent> {
    if usages == [] then []
    else
      var (front, u) := (usages[..|usages| - 1], usages[|usages| - 1]);
      AllEvents(p, startTime, from, front) + Spend(p, After(p, startTime, from, front), u, startTime).events
  }

  function TokensOf(usages: seq<Usage>): int {
    if usages == [] then 0 else usages[0].totalTokens + TokensOf(usages[1..])
  }

  function CostOf(usages: seq<Usage>): real {
    if usages == [] then 0.0 else usages[0].cost + CostOf(usages[1..])
  }

  lemma {:induction false} SumsSnoc(front: seq<Usage>, last: Usage)
    ensures TokensOf(front + [last]) == TokensOf(front) + last.totalTokens
    ensures CostOf(front + [last]) == CostOf(front) + last.cost
  {
    if front == [] {
      assert front + [last] == [last];
    } else {
      assert (front + [last])[1..] == front[1..] + [last];
      SumsSnoc(front[1..], last);
    }
  }

  /** What a run adds up: one iteration a call, all tokens and all costs; the wall time is that of the last call. */
  lemma {:induction false} RunTotals(p: Policy, startTime: real, from: BudgetState, usages: seq<Usage>)
    ensures var after := After(p, startTime, from, usages);
      && after.iterationsUsed == from.iterationsUsed + |usages|
      && after.totalTokensUsed == from.totalTokensUsed + TokensOf(usages)
      && after.totalCostUsd == from.totalCostUsd + CostOf(usages)
      && after.wallTimeElapsed
        == if usages == [] then from.wallTimeElapsed else usages[|usages| - 1].now - startTime
  {
    hide ScanAll, Checks;
    if usages != [] {
      var front, last := usages[..|usages| - 1], usages[|usages| - 1];
      RunTotals(p, startTime, from, front);
      SumsSnoc(front, last);
      assert usages == front + [last];
    }
  }

  /** From any state, a run issues each flag's event exactly when it sets the flag, and then exactly once. */
  lemma {:induction false} AtMostOneOfEach(p: Policy, startTime: real, from: BudgetState, usages: seq<Usage>)
    ensures var (events, after) := (AllEvents(p, startTime, from, usages), After(p, startTime, from, usages));
      && (from.warningIssued ==> after.warningIssued) && (from.criticalIssued ==> after.criticalIssued)
      && CountLevel(events, Warning) == (if after.warningIssued && !from.warningIssued then 1 else 0)
      && CountLevel(events, Critical) == (if after.criticalIssued && !from.criticalIssued then 1 else 0)
  {
    if usages != [] {
      hide ScanAll, Checks, CountLevel;
      var front, u := usages[..|usages| - 1], usages[|usages| - 1];
      AtMostOneOfEach(p, startTime, from, front);
      var before := After(p, startTime, from, front);
      OnePerFlag(p, Checks(p, Booked(before, u, startTime)), before.warningIssued, before.criticalIssued);
      CountConcat(AllEvents(p, startTime, from, front), Spend(p, before, u, startTime).events, Warning);
      CountConcat(AllEvents(p, startTime, from, front), Spend(p, before, u, startTime).events, Critical);
    } else {
      assert CountLevel([], Warning) == 0 && CountLevel([], Critical) == 0;
    }
  }

  /** The event reports this use of this limit, at the level its percentage calls for. */
  ghost predicate Reports(p: Policy, e: ThresholdEvent, used: real, limit: real) {
    && e.used == used && e.limit == limit > 0.0 && e.pct * limit == used * 100.0
    && (e.level == Exhausted <==> used >= limit)
    && (e.level == Critical ==> p.criticalThresholdPct <= e.pct)
    && (e.level == Warning ==> p.warningThresholdPct <= e.pct)
  }

  lemma {:induction false} EventReports(p: Policy, c: Check, level: Level)
    requires c.limit > 0.0 && (level == Exhausted <==> Pct(c) >= 100.0)
    requires level == Critical ==> Pct(c) >= p.criticalThresholdPct
    requires level == Warning ==> Pct(c) >= p.warningThresholdPct
    ensures Reports(p, EventFor(c, level), c.used, c.limit)
  {
    PctReachesHundred(c);
    var q := c.used / c.limit;
    assert q * c.limit == c.used && Pct(c) == q * 100.0;
    assert Pct(c) * c.limit == (q * c.limit) * 100.0;
  }

  lemma {:induction false} ScanReports(p: Policy, checks: seq<Check>, warned: bool, critical: bool, e: ThresholdEvent)
    returns (i: nat)
    requires e in ScanAll(p, checks, warned, critical).events
    ensures i < |checks| && e.dimension == checks[i].dimension && Reports(p, e, checks[i].used, checks[i].limit)
  {
    hide Reports, Pct;
    i := |checks| - 1;
    var before := ScanAll(p, checks[..i], warned, critical);
    if e in before.events {
      i := ScanReports(p, checks[..i], warned, critical, e);
    } else {
      EventReports(p, checks[i], e.level);
    }
  }

  /** Every event of a call shows what is used of its dimension and the limit the policy sets. */
  lemma {:induction false} EventsShowUsage(
    p: Policy, s: BudgetState, u: Usage, startTime: real, e: ThresholdEvent)
    requires e in Spend(p, s, u, startTime).events
    ensures var after := Spend(p, s, u, startTime).state;
      match e.dimension
      case Iterations => Reports(p, e, after.iterationsUsed as real, p.maxIterations as real)
      case Tokens => Reports(p, e, after.totalTokensUsed as real, p.maxTotalTokens as real)
      case Cost => Reports(p, e, after.totalCostUsd, p.maxCostUsd)
      case WallTime => Reports(p, e, after.wallTimeElapsed, p.maxWallTimeSeconds)
  {
    hide ScanAll, Reports;
    var i := ScanReports(p, Checks(p, Booked(s, u, startTime)), s.warningIssued, s.criticalIssued, e);
  }

  predicate AllLimited(p: Policy) {
    p.maxIterations > 0 && p.maxTotalTokens > 0 && p.maxCostUsd > 0.0 && p.maxWallTimeSeconds > 0.0
  }

  predicate ReportsExhaustion(events: seq<ThresholdEvent>) {
    exists i :: 0 <= i < |events| && events[i].level == Exhausted
  }

  /** A call reports exhaustion iff some limited dimension is used up; with every limit positive, iff the budget is. */
  lemma {:induction false} ExhaustionIsReported(p: Policy, s: BudgetState, u: Usage, startTime: real)
    ensures var r := Spend(p, s, u, startTime);
      && (ReportsExhaustion(r.events) <==> exists c :: c in Checks(p, r.state) && UsedUp(c))
      && (AllLimited(p) ==> (ReportsExhaustion(r.events) <==> IsExhausted(p, r.state)))
  {
    var r := Spend(p, s, u, startTime);
    var checks := Checks(p, r.state);
    assert checks == Checks(p, Booked(s, u, startTime));
    ExhaustedEventsAreUsedUp(p, checks, s.warningIssued, s.criticalIssued);
    hide ScanAll;
    if c :| c in checks && UsedUp(c) {
      assert EventFor(c, Exhausted) in r.events;
    }
    if AllLimited(p) {
      assert UsedUp(checks[0]) <==> s.iterationsUsed + 1 >= p.maxIterations;
      assert UsedUp(checks[1]) <==> s.totalTokensUsed + u.totalTokens >= p.maxTotalTokens;
      assert UsedUp(checks[2]) || UsedUp(checks[3]) || UsedUp(checks[0]) || UsedUp(checks[1])
        <==> IsExhausted(p, r.state);
      assert checks[0] in checks && checks[1] in checks && checks[2] in checks && checks[3] in checks;
    }
  }

  /** Usage is not negative and the clock does not run backwards. */
  predicate Monotone(usages: seq<Usage>, startTime: real) {
    usages == [] ||
    var (front, u) := (usages[..|usages| - 1], usages[|usages| - 1]);
    && Monotone(front, startTime) && u.totalTokens >= 0 && u.cost >= 0.0
    && u.now >= if front == [] then startTime else front[|front| - 1].now
  }

  /** The wall time is that of the last call. */
  lemma {:induction false} RunCounts(p: Policy, startTime: real, from: BudgetState, usages: seq<Usage>)
    requires Monotone(usages, startTime)
    ensures var after := After(p, startTime, from, usages);
      && after.iterationsUsed == from.iterationsUsed + |usages|
      && after.totalTokensUsed >= from.totalTokensUsed && after.totalCostUsd >= from.totalCostUsd
      && (usages != [] ==> after.wallTimeElapsed == usages[|usages| - 1].now - startTime >= 0.0)
  {
    hide ScanAll, Checks;
    if usages != [] { RunCounts(p, startTime, from, usages[..|usages| - 1]); }
  }

  /** Once a call has been booked, an exhausted budget stays exhausted until it is reset. */
  lemma {:induction false} ExhaustionIsAbsorbing(
    p: Policy, startTime: real, from: BudgetState, usages: seq<Usage>, n: nat)
    requires 1 <= n <= |usages| && Monotone(usages, startTime)
    requires IsExhausted(p, After(p, startTime, from, usages[..n]))
    ensures IsExhausted(p, After(p, startTime, from, usages))
    decreases |usages|
  {
    hide ScanAll, Checks;
    if n == |usages| {
      assert usages[..n] == usages;
    } else {
      var front := usages[..|usages| - 1];
      assert front[..n] == usages[..n];
      ExhaustionIsAbsorbing(p, startTime, from, front, n);
      RunCounts(p, startTime, from, front);
      RunCounts(p, startTime, from, usages);
    }
  }

  /** What a seeded state needs besides its wall time, which the next call overwrites. */
  predicate ExhaustedAnyway(p: Policy, s: BudgetState) {
    || s.iterationsUsed + 1 >= p.maxIterations
    || s.totalTokensUsed >= p.maxTotalTokens
    || s.totalCostUsd >= p.maxCostUsd
    || p.maxWallTimeSeconds <= 0.0
  }

  /** A call without tokens and cost, at the start time. */
  lemma {:induction false} FreeCall(p: Policy, startTime: real, from: BudgetState)
    ensures var free := [Usage(0, 0.0, startTime)];
      && free != [] && Monotone(free, startTime)
      && (IsExhausted(p, After(p, startTime, from, free)) <==> ExhaustedAnyway(p, from))
  {
    hide ScanAll, Checks;
    var free := [Usage(0, 0.0, startTime)];
    assert free[..0] == [] && Monotone([], startTime);
    assert After(p, startTime, from, free[..0]) == from;
    assert After(p, startTime, from, free) == Spend(p, from, free[0], startTime).state;
  }

  lemma {:induction false} StaysExhausted(p: Policy, startTime: real, from: BudgetState, usages: seq<Usage>)
    requires ExhaustedAnyway(p, from) && usages != [] && Monotone(usages, startTime)
    ensures IsExhausted(p, After(p, startTime, from, usages))
  {
    hide ScanAll, Checks, After;
    RunCounts(p, startTime, from, usages);
  }

  /** Exactly when a state that was put into the budget leaves it exhausted after every run of one or more calls. */
  lemma {:induction false} SeededExhaustionIff(p: Policy, startTime: real, from: BudgetState)
    ensures ExhaustedAnyway(p, from) <==>
      forall usages :: usages != [] && Monotone(usages, startTime) ==>
        IsExhausted(p, After(p, startTime, from, usages))
  {
    hide After, Monotone, IsExhausted, ExhaustedAnyway;
    FreeCall(p, startTime, from);
    if ExhaustedAnyway(p, from) {
      forall usages | usages != [] && Monotone(usages, startTime)
        ensures IsExhausted(p, After(p, startTime, from, usages))
      {
        StaysExhausted(p, startTime, from, usages);
      }
    }
  }

  // ---- the order of warning and critical event ----

  /** A critical event stands before a warning. */
  ghost predicate WarnsLate(events: seq<ThresholdEvent>) {
    exists a, b :: 0 <= a < b < |events| && events[a].level == Critical && events[b].level == Warning
  }

  ghost predicate Has(events: seq<ThresholdEvent>, level: Level) {
    exists i :: 0 <= i < |events| && events[i].level == level
  }

  lemma {:induction false} HasOne(e: ThresholdEvent, level: Level)
    ensures Has([e], level) <==> e.level == level
  {
    assert [e][0] == e;
  }

  lemma {:induction false} HasConcat(a: seq<ThresholdEvent>, b: seq<ThresholdEvent>, level: Level)
    ensures Has(a + b, level) <==> Has(a, level) || Has(b, level)
  {
    var c := a + b;
    assert forall i :: 0 <= i < |a| ==> c[i] == a[i];
    assert forall i :: 0 <= i < |b| ==> c[|a| + i] == b[i];
    if Has(b, level) {
      var i :| 0 <= i < |b| && b[i].level == level;
      assert c[|a| + i].level == level;
    }
  }

  lemma {:induction false} NothingHas(level: Level)
    ensures !Has([], level)
  {
  }

  lemma {:induction false} HasCounts(events: seq<ThresholdEvent>, level: Level)
    ensures Has(events, level) <==> CountLevel(events, level) > 0
  {
    hide Has;
    if events != [] {
      var n := |events| - 1;
      HasCounts(events[..n], level);
      assert events == events[..n] + [events[n]];
      HasConcat(events[..n], [events[n]], level);
      HasOne(events[n], level);
    } else {
      NothingHas(level);
    }
  }

  lemma {:induction false} WarnsLateConcat(a: seq<ThresholdEvent>, b: seq<ThresholdEvent>)
    ensures WarnsLate(a + b) <==> WarnsLate(a) || WarnsLate(b) || (Has(a, Critical) && Has(b, Warning))
  {
    var c := a + b;
    assert forall i :: 0 <= i < |a| ==> c[i] == a[i];
    assert forall i :: |a| <= i < |c| ==> c[i] == b[i - |a|];
    if WarnsLate(b) {
      var i, j :| 0 <= i < j < |b| && b[i].level == Critical && b[j].level == Warning;
      assert c[|a| + i].level == Critical && c[|a| + j].level == Warning;
    }
    if Has(a, Critical) && Has(b, Warning) {
      var i :| 0 <= i < |a| && a[i].level == Critical;
      var j :| 0 <= j < |b| && b[j].level == Warning;
      assert c[i].level == Critical && c[|a| + j].level == Warning;
    }
    if WarnsLate(c) {
      var i, j :| 0 <= i < j < |c| && c[i].level == Critical && c[j].level == Warning;
      if j < |a| {
        assert a[i].level == Critical && a[j].level == Warning;
      } else if i < |a| {
        assert a[i].level == Critical && b[j - |a|].level == Warning;
      } else {
        assert b[i - |a|].level == Critical && b[j - |a|].level == Warning;
      }
    }
  }

  /** The first critical check comes before one in the warning band, and after none. */
  ghost predicate CriticalBeforeWarning(p: Policy, checks: seq<Check>, i: int, j: int) {
    && FirstCritical(p, checks, i) && i < j < |checks| && InBand(checks[j], p.warningThresholdPct)
    && forall k :: 0 <= k < i ==> !InBand(checks[k], p.warningThresholdPct)
  }

  lemma {:induction false} NotLateAlone(e: ThresholdEvent)
    ensures !WarnsLate([e])
  {
  }

  /** The last check adds a late warning when a critical event of the same pass stands before it. */
  lemma {:induction false} LastWarnsLate(p: Policy, front: seq<Check>, last: Check, warned: bool, critical: bool)
    ensures var (before, after) := (ScanAll(p, front, warned, critical), ScanAll(p, front + [last], warned, critical));
      WarnsLate(after.events) <==>
        WarnsLate(before.events)
        || (before.critical && !critical && !before.warned && InBand(last, p.warningThresholdPct))
  {
    hide WarnsLate, Has, CountLevel;
    assert (front + [last])[..|front + [last]| - 1] == front;
    var before, after := ScanAll(p, front, warned, critical), ScanAll(p, front + [last], warned, critical);
    OnePerFlag(p, front, warned, critical);
    HasCounts(before.events, Critical);
    if after.events != before.events {
      var e := after.events[|before.events|];
      assert after.events == before.events + [e];
      WarnsLateConcat(before.events, [e]);
      NotLateAlone(e);
      HasOne(e, Warning);
    }
  }

  lemma {:induction false} FirstCriticalExists(p: Policy, checks: seq<Check>, i: int)
    requires 0 <= i < |checks| && InBand(checks[i], p.criticalThresholdPct)
    ensures exists j :: j <= i && FirstCritical(p, checks, j)
  {
    if j :| 0 <= j < i && InBand(checks[j], p.criticalThresholdPct) {
      FirstCriticalExists(p, checks, j);
    } else {
      assert FirstCritical(p, checks, i);
    }
  }

  /** A late warning is due at the check behind `front`, or a pair inside `front` had it before. */
  lemma {:induction false} LateInFront(p: Policy, front: seq<Check>, last: Check)
    requires InBand(last, p.warningThresholdPct) && !(exists i, j :: CriticalBeforeWarning(p, front, i, j))
    ensures (exists i :: CriticalBeforeWarning(p, front + [last], i, |front|)) <==>
      ScanAll(p, front, false, false).critical && !ScanAll(p, front, false, false).warned
  {
    hide ScanAll, InBand;
    var checks, n := front + [last], |front|;
    WhenFlagsAreSet(p, front, false, false);
    assert checks[..n] == front && forall k :: 0 <= k < n ==> checks[k] == front[k];
    if i :| CriticalBeforeWarning(p, checks, i, n) {
      FirstCriticalPrefix(p, checks, n, i);
      assert forall k :: Warns(p, front, false, k) ==> CriticalBeforeWarning(p, front, i, k);
    }
    if i :| 0 <= i < n && InBand(front[i], p.criticalThresholdPct) && !(exists k :: Warns(p, front, false, k)) {
      FirstCriticalExists(p, front, i);
      var j :| j <= i && FirstCritical(p, front, j);
      FirstCriticalPrefix(p, checks, n, j);
      assert forall k :: 0 <= k < j && InBand(front[k], p.warningThresholdPct) ==> Warns(p, front, false, k);
      assert CriticalBeforeWarning(p, checks, j, n);
    }
  }

  lemma {:induction false} CriticalPrefix(p: Policy, front: seq<Check>, last: Check, i: int, j: int)
    ensures CriticalBeforeWarning(p, front, i, j) ==> CriticalBeforeWarning(p, front + [last], i, j)
    ensures CriticalBeforeWarning(p, front + [last], i, j) && j < |front| ==> CriticalBeforeWarning(p, front, i, j)
  {
    hide InBand;
    var checks, n := front + [last], |front|;
    assert checks[..n] == front && forall k :: 0 <= k < n ==> checks[k] == front[k];
    if i < n { FirstCriticalPrefix(p, checks, n, i); }
  }

  lemma {:induction false} NothingIsLate(p: Policy, warned: bool, critical: bool)
    ensures !WarnsLate(ScanAll(p, [], warned, critical).events)
  {
  }

  lemma {:induction false} FlagsStay(p: Policy, checks: seq<Check>, warned: bool, critical: bool)
    ensures warned ==> ScanAll(p, checks, warned, critical).warned
  {
    hide CountLevel, ScanAll;
    OnePerFlag(p, checks, warned, critical);
  }

  lemma {:induction false} LatePairs(p: Policy, front: seq<Check>, last: Check)
    ensures var checks := front + [last];
      (exists i, j :: CriticalBeforeWarning(p, checks, i, j)) <==>
        (exists i, j :: CriticalBeforeWarning(p, front, i, j))
        || exists i :: CriticalBeforeWarning(p, checks, i, |front|)
    ensures forall i :: CriticalBeforeWarning(p, front + [last], i, |front|) ==> InBand(last, p.warningThresholdPct)
  {
    hide InBand, FirstCritical;
    var checks := front + [last];
    if i, j :| CriticalBeforeWarning(p, front, i, j) { CriticalPrefix(p, front, last, i, j); }
    if i, j :| CriticalBeforeWarning(p, checks, i, j) {
      CriticalPrefix(p, front, last, i, j);
      assert j == |front| || CriticalBeforeWarning(p, front, i, j);
    }
  }

  /** Exactly when one pass issues a warning after a critical event. */
  lemma {:induction false} PassWarnsLateIff(p: Policy, checks: seq<Check>, warned: bool, critical: bool)
    ensures WarnsLate(ScanAll(p, checks, warned, critical).events) <==>
      !warned && !critical && exists i, j :: CriticalBeforeWarning(p, checks, i, j)
  {
    hide ScanAll, InBand, WarnsLate;
    if checks == [] {
      NothingIsLate(p, warned, critical);
    } else {
      var n := |checks| - 1;
      var front, last := checks[..n], checks[n];
      assert checks == front + [last];
      PassWarnsLateIff(p, front, warned, critical);
      LastWarnsLate(p, front, last, warned, critical);
      FlagsStay(p, front, warned, critical);
      LatePairs(p, front, last);
      if !warned && !critical && InBand(last, p.warningThresholdPct)
        && !(exists i, j :: CriticalBeforeWarning(p, front, i, j)) {
        LateInFront(p, front, last);
      }
    }
  }

  /** The checks of call `k` of a run, and the state before it. */
  function ChecksOf(p: Policy, startTime: real, from: BudgetState, usages: seq<Usage>, k: nat): seq<Check>
    requires k < |usages|
  {
    Checks(p, Booked(After(p, startTime, from, usages[..k]), usages[k], startTime))
  }

  /**
   * At call `k` the warning is still to be issued, and the critical event was issued by an earlier call of the run
   * or comes first in the same pass.
   */
  ghost predicate LateAt(p: Policy, startTime: real, from: BudgetState, usages: seq<Usage>, k: nat)
    requires k < |usages|
  {
    var (before, checks) := (After(p, startTime, from, usages[..k]), ChecksOf(p, startTime, from, usages, k));
    && !before.warningIssued
    && if before.criticalIssued
       then !from.criticalIssued && exists j :: 0 <= j < |checks| && InBand(checks[j], p.warningThresholdPct)
       else exists i, j :: CriticalBeforeWarning(p, checks, i, j)
  }

  lemma {:induction false} NoEventsNotLate()
    ensures !WarnsLate([])
  {
  }

  lemma {:induction false} LatePrefix(
    p: Policy, startTime: real, from: BudgetState, usages: seq<Usage>, n: nat, k: nat)
    requires k < n <= |usages|
    ensures LateAt(p, startTime, from, usages[..n], k) <==> LateAt(p, startTime, from, usages, k)
  {
    hide InBand, Checks, CriticalBeforeWarning, Spend;
    assert usages[..n][..k] == usages[..k];
  }

  /** Once the critical event is spent, every check in the warning band can warn. */
  lemma {:induction false} WarnsWhenSpent(p: Policy, checks: seq<Check>)
    ensures (exists i :: Warns(p, checks, true, i)) <==>
      exists j :: 0 <= j < |checks| && InBand(checks[j], p.warningThresholdPct)
  {
    hide InBand, FirstCritical;
    if j :| 0 <= j < |checks| && InBand(checks[j], p.warningThresholdPct) { assert Warns(p, checks, true, j); }
  }

  lemma {:induction false} LastCallWarnsLate(p: Policy, startTime: real, from: BudgetState, usages: seq<Usage>)
    requires usages != []
    ensures WarnsLate(AllEvents(p, startTime, from, usages)) <==>
      WarnsLate(AllEvents(p, startTime, from, usages[..|usages| - 1]))
      || LateAt(p, startTime, from, usages, |usages| - 1)
  {
    hide WarnsLate, Has, ScanAll, InBand, Checks, FirstCritical, CountLevel;
    var front, u := usages[..|usages| - 1], usages[|usages| - 1];
    var before := After(p, startTime, from, front);
    var checks := Checks(p, Booked(before, u, startTime));
    var earlier, now := AllEvents(p, startTime, from, front), Spend(p, before, u, startTime).events;
    WarnsLateConcat(earlier, now);
    AtMostOneOfEach(p, startTime, from, front);
    HasCounts(earlier, Critical);
    OnePerFlag(p, checks, before.warningIssued, before.criticalIssued);
    HasCounts(now, Warning);
    PassWarnsLateIff(p, checks, before.warningIssued, before.criticalIssued);
    WhenFlagsAreSet(p, checks, before.warningIssued, before.criticalIssued);
    if before.criticalIssued { WarnsWhenSpent(p, checks); }
  }

  /** Exactly when a run, from any state, issues a warning after a critical event. */
  lemma {:induction false} RunWarnsLateIff(p: Policy, startTime: real, from: BudgetState, usages: seq<Usage>)
    ensures WarnsLate(AllEvents(p, startTime, from, usages)) <==>
      exists k: nat :: k < |usages| && LateAt(p, startTime, from, usages, k)
  {
    hide WarnsLate, Has, ScanAll, InBand, Checks, CriticalBeforeWarning, CountLevel, LateAt;
    if usages == [] {
      NoEventsNotLate();
    } else {
      var n := |usages| - 1;
      var front := usages[..n];
      RunWarnsLateIff(p, startTime, from, front);
      LastCallWarnsLate(p, startTime, from, usages);
      forall k: nat | k < n
        ensures LateAt(p, startTime, from, front, k) <==> LateAt(p, startTime, from, usages, k)
      {
        LatePrefix(p, startTime, from, usages, n, k);
      }
    }
  }

  /** For instance when iterations and tokens reach the critical band in one call. */
  lemma {:induction false} WarningCanFollowCritical(p: Policy, s: BudgetState, u: Usage, startTime: real)
    requires !s.warningIssued && !s.criticalIssued && p.warningThresholdPct <= p.criticalThresholdPct
    requires var checks := Checks(p, Booked(s, u, startTime));
      InBand(checks[0], p.criticalThresholdPct) && InBand(checks[1], p.criticalThresholdPct)
    ensures WarnsLate(Spend(p, s, u, startTime).events)
  {
    hide ScanAll, WarnsLate;
    var checks := Checks(p, Booked(s, u, startTime));
    assert CriticalBeforeWarning(p, checks, 0, 1);
    PassWarnsLateIff(p, checks, false, false);
  }
}
