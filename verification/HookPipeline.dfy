/**
 * The hook registry: hooks sorted by priority, folded over a tool call's arguments, a tool's result and the
 * final response. A hook is described by what it answers; one that raises is skipped.
 */
module HookPipeline {
  import opened Options

  /** A value in a tool call's argument dictionary. */
  datatype Value =
    | Null
    | Flag(b: bool)
    | Int(n: int)
    | Float(r: real)
    | Text(text: string)
    | Compound(empty: bool)

  type Args = map<string, Value>

  datatype HookAction = Allow | Deny | Modify

  datatype PreToolUseResult = PreToolUseResult(
    action: HookAction, modifiedArguments: Option<Args>, denyReason: Option<string>)

  datatype PostToolUseResult = PostToolUseResult(modifiedResult: Option<string>, triggerLearning: bool)

  datatype FinalResponseResult = FinalResponseResult(
    modifiedResponse: Option<string>, requiresFollowup: bool, followupReason: Option<string>)

  /** A hook call returns a result or raises. */
  datatype Reply<T> = Returned(result: T) | Raised

  datatype Hook = Hook(
    name: string,
    priority: int,
    pre: (string, Args) -> Reply<PreToolUseResult>,
    post: (string, Args, string, bool) -> Reply<PostToolUseResult>,
    final: string -> Reply<FinalResponseResult>)

  // ---- registration ----

  ghost predicate Ordered(hooks: seq<Hook>) {
    forall i, j :: 0 <= i < j < |hooks| ==> hooks[i].priority <= hooks[j].priority
  }

  ghost function OfPriority(hooks: seq<Hook>, p: int): seq<Hook> {
    if hooks == [] then []
    else if hooks[0].priority == p then [hooks[0]] + OfPriority(hooks[1..], p)
    else OfPriority(hooks[1..], p)
  }

  /** `out` is sorted by priority, and hooks of one priority stand in the order of `hooks`. */
  ghost predicate StablySorted(out: seq<Hook>, hooks: seq<Hook>) {
    Ordered(out) && forall p :: OfPriority(out, p) == OfPriority(hooks, p)
  }

  function Insert(hooks: seq<Hook>, hook: Hook): seq<Hook> {
    if hooks == [] then [hook]
    else
      var n := |hooks| - 1;
      if hooks[n].priority <= hook.priority then hooks + [hook]
      else Insert(hooks[..n], hook) + [hooks[n]]
  }

  /** `list.sort(key=priority)`. */
  function StableSort(hooks: seq<Hook>): seq<Hook> {
    if hooks == [] then [] else Insert(StableSort(hooks[..|hooks| - 1]), hooks[|hooks| - 1])
  }

  lemma {:induction false} OfPriorityMembers(hooks: seq<Hook>, p: int)
    ensures forall h :: h in OfPriority(hooks, p) <==> h in hooks && h.priority == p
  {
    if hooks != [] {
      OfPriorityMembers(hooks[1..], p);
      assert hooks == [hooks[0]] + hooks[1..];
    }
  }

  lemma {:induction false} OfPriorityConcat(a: seq<Hook>, b: seq<Hook>, p: int)
    ensures OfPriority(a + b, p) == OfPriority(a, p) + OfPriority(b, p)
  {
    if a == [] {
      assert a + b == b;
    } else {
      assert (a + b)[1..] == a[1..] + b;
      OfPriorityConcat(a[1..], b, p);
    }
  }

  lemma {:induction false} InsertIsOrdered(hooks: seq<Hook>, hook: Hook)
    requires Ordered(hooks)
    ensures Ordered(Insert(hooks, hook))
    ensures forall h :: h in Insert(hooks, hook) ==> h in hooks || h == hook
  {
    var n := |hooks| - 1;
    if hooks != [] && hooks[n].priority > hook.priority {
      InsertIsOrdered(hooks[..n], hook);
      var r := Insert(hooks[..n], hook);
      forall i | 0 <= i < |r| ensures r[i].priority <= hooks[n].priority { assert r[i] in r; }
    }
  }

  lemma {:induction false} SwapEmpty(s: seq<Hook>, a: seq<Hook>, b: seq<Hook>)
    requires a == [] || b == []
    ensures (s + a) + b == (s + b) + a
  {
  }

  lemma {:induction false} InsertKeepsOrderOfEquals(hooks: seq<Hook>, hook: Hook, p: int)
    ensures OfPriority(Insert(hooks, hook), p) == OfPriority(hooks + [hook], p)
  {
    var n := |hooks| - 1;
    if hooks == [] {
      assert hooks + [hook] == [hook];
    } else if hooks[n].priority > hook.priority {
      var front, last := hooks[..n], hooks[n];
      InsertKeepsOrderOfEquals(front, hook, p);
      assert Insert(hooks, hook) == Insert(front, hook) + [last] && hooks == front + [last];
      assert OfPriority([hook], p) == [] || OfPriority([last], p) == [];
      hide Insert, OfPriority;
      OfPriorityConcat(Insert(front, hook), [last], p);
      OfPriorityConcat(front, [hook], p);
      OfPriorityConcat(front, [last], p);
      OfPriorityConcat(hooks, [hook], p);
      SwapEmpty(OfPriority(front, p), OfPriority([hook], p), OfPriority([last], p));
    }
  }

  lemma {:induction false} SnocKeepsStable(sorted: seq<Hook>, hooks: seq<Hook>, hook: Hook)
    requires StablySorted(sorted, hooks)
    ensures StablySorted(Insert(sorted, hook), hooks + [hook])
  {
    hide Insert;
    InsertIsOrdered(sorted, hook);
    forall p ensures OfPriority(Insert(sorted, hook), p) == OfPriority(hooks + [hook], p) {
      InsertKeepsOrderOfEquals(sorted, hook, p);
      OfPriorityConcat(sorted, [hook], p);
      OfPriorityConcat(hooks, [hook], p);
    }
  }

  lemma {:induction false} EmptyIsStable()
    ensures StablySorted([], [])
  {
  }

  lemma {:induction false} StableSortIsStable(hooks: seq<Hook>)
    ensures StablySorted(StableSort(hooks), hooks)
  {
    hide Insert, StablySorted;
    if hooks == [] {
      EmptyIsStable();
    } else {
      var front, last := hooks[..|hooks| - 1], hooks[|hooks| - 1];
      StableSortIsStable(front);
      SnocKeepsStable(StableSort(front), front, last);
      assert front + [last] == hooks;
    }
  }

  lemma {:induction false} FirstOfLowest(a: seq<Hook>, b: seq<Hook>)
    requires Ordered(a) && Ordered(b) && a != [] && forall p :: OfPriority(a, p) == OfPriority(b, p)
    ensures b != [] && a[0] == b[0]
    ensures forall p :: OfPriority(a[1..], p) == OfPriority(b[1..], p)
  {
    OfPriorityMembers(a, a[0].priority);
    OfPriorityMembers(b, a[0].priority);
    assert a[0] in OfPriority(b, a[0].priority);
    OfPriorityMembers(a, b[0].priority);
    OfPriorityMembers(b, b[0].priority);
    assert b[0] in OfPriority(a, b[0].priority);
    assert OfPriority(a, a[0].priority)[0] == a[0];
    assert OfPriority(b, b[0].priority)[0] == b[0];
    forall p ensures OfPriority(a[1..], p) == OfPriority(b[1..], p) {
      assert OfPriority(a, p) == OfPriority(b, p);
      if p == a[0].priority {
        assert OfPriority(a, p)[1..] == OfPriority(a[1..], p);
        assert OfPriority(b, p)[1..] == OfPriority(b[1..], p);
      }
    }
  }

  /** There is only one stable sort of a list. */
  lemma {:induction false} StableSortIsUnique(a: seq<Hook>, b: seq<Hook>)
    requires Ordered(a) && Ordered(b) && forall p :: OfPriority(a, p) == OfPriority(b, p)
    ensures a == b
  {
    if a != [] {
      FirstOfLowest(a, b);
      StableSortIsUnique(a[1..], b[1..]);
    } else if b != [] {
      FirstOfLowest(b, a);
    }
  }

  /** What is left after a sequence of registrations, each of which appends and sorts the whole list. */
  function Registered(hooks: seq<Hook>): seq<Hook> {
    if hooks == [] then [] else StableSort(Registered(hooks[..|hooks| - 1]) + [hooks[|hooks| - 1]])
  }

  lemma {:induction false} ResortIsStable(sorted: seq<Hook>, hooks: seq<Hook>, hook: Hook)
    requires StablySorted(sorted, hooks)
    ensures StablySorted(StableSort(sorted + [hook]), hooks + [hook])
  {
    StableSortIsStable(sorted + [hook]);
    hide StableSort;
    forall p ensures OfPriority(StableSort(sorted + [hook]), p) == OfPriority(hooks + [hook], p) {
      OfPriorityConcat(sorted, [hook], p);
      OfPriorityConcat(hooks, [hook], p);
    }
  }

  /** However hooks are registered, the list is the one stable sort of the registration sequence. */
  lemma {:induction false} RegistrationIsOneStableSort(hooks: seq<Hook>)
    ensures StablySorted(Registered(hooks), hooks)
    ensures forall other :: StablySorted(other, hooks) ==> other == Registered(hooks)
  {
    if hooks == [] {
      EmptyIsStable();
    } else {
      var front, last := hooks[..|hooks| - 1], hooks[|hooks| - 1];
      RegistrationIsOneStableSort(front);
      ResortIsStable(Registered(front), front, last);
      assert front + [last] == hooks;
    }
    forall other | StablySorted(other, hooks) ensures other == Registered(hooks) {
      StableSortIsUnique(other, Registered(hooks));
    }
  }

  // ---- before a tool runs ----

  predicate Denies(h: Hook, tool: string, args: Args) {
    var reply := h.pre(tool, args);
    reply.Returned? && reply.result.action.Deny?
  }

  /** The arguments after a hook that does not deny them. */
  function Rewritten(h: Hook, tool: string, args: Args): Args {
    var reply := h.pre(tool, args);
    if reply.Returned? && reply.result.action.Modify? && reply.result.modifiedArguments.Some?
    then reply.result.modifiedArguments.value else args
  }

  function RunPre(hooks: seq<Hook>, tool: string, args: Args): PreToolUseResult {
    if hooks == [] then PreToolUseResult(Allow, Some(args), None)
    else if Denies(hooks[0], tool, args) then hooks[0].pre(tool, args).result
    else RunPre(hooks[1..], tool, Rewritten(hooks[0], tool, args))
  }

  /** The arguments hook `i` is shown when no hook before it denies. */
  function ArgsAt(hooks: seq<Hook>, tool: string, args: Args, i: nat): Args
    requires i <= |hooks|
  {
    if i == 0 then args else Rewritten(hooks[i - 1], tool, ArgsAt(hooks, tool, args, i - 1))
  }

  ghost predicate DeniesAt(hooks: seq<Hook>, tool: string, args: Args, i: nat)
    requires i < |hooks|
  {
    Denies(hooks[i], tool, ArgsAt(hooks, tool, args, i))
  }

  /** Hook `n` is the first that denies the arguments rewritten so far; `n == |hooks|` when none does. */
  ghost predicate StopsAt(hooks: seq<Hook>, tool: string, args: Args, n: int) {
    && 0 <= n <= |hooks| && (n < |hooks| ==> DeniesAt(hooks, tool, args, n))
    && forall j :: 0 <= j < n ==> !DeniesAt(hooks, tool, args, j)
  }

  lemma {:induction false} ArgsAtShift(hooks: seq<Hook>, tool: string, args: Args, i: nat)
    requires 0 < i <= |hooks|
    ensures ArgsAt(hooks, tool, args, i) == ArgsAt(hooks[1..], tool, Rewritten(hooks[0], tool, args), i - 1)
  {
    if i > 1 {
      ArgsAtShift(hooks, tool, args, i - 1);
      assert hooks[1..][i - 2] == hooks[i - 1];
    }
  }

  /** The verdict belongs to the first denying hook; without one the last rewrite is allowed. */
  lemma {:induction false} PreVerdict(hooks: seq<Hook>, tool: string, args: Args) returns (n: nat)
    ensures StopsAt(hooks, tool, args, n)
    ensures RunPre(hooks, tool, args).action.Deny? <==> n < |hooks|
    ensures RunPre(hooks, tool, args) ==
      if n < |hooks| then hooks[n].pre(tool, ArgsAt(hooks, tool, args, n)).result
      else PreToolUseResult(Allow, Some(ArgsAt(hooks, tool, args, n)), None)
  {
    if hooks == [] {
      n := 0;
    } else if Denies(hooks[0], tool, args) {
      n := 0;
    } else {
      var rest, next := hooks[1..], Rewritten(hooks[0], tool, args);
      var m := PreVerdict(rest, tool, next);
      n := m + 1;
      ArgsAtShift(hooks, tool, args, n);
      forall j | 0 <= j < n ensures !DeniesAt(hooks, tool, args, j) {
        if j > 0 {
          ArgsAtShift(hooks, tool, args, j);
          assert !DeniesAt(rest, tool, next, j - 1);
        }
      }
    }
  }

  /** The hook answers the call with other arguments. */
  ghost predicate Replaces(reply: Reply<PreToolUseResult>, args: Args) {
    reply.Returned? && reply.result.action == Modify && reply.result.modifiedArguments == Some(args)
  }

  /** Behind any number of hooks, none of which denies, stand the arguments of the last one that replaced them. */
  lemma {:induction false} ArgumentsAreLatest(hooks: seq<Hook>, tool: string, args: Args, i: nat) returns (k: int)
    requires i <= |hooks|
    ensures -1 <= k < i
    ensures ArgsAt(hooks, tool, args, i) == args || k >= 0
    ensures k >= 0 ==> Replaces(hooks[k].pre(tool, ArgsAt(hooks, tool, args, k)), ArgsAt(hooks, tool, args, i))
    ensures forall j, other :: k < j < i ==> !Replaces(hooks[j].pre(tool, ArgsAt(hooks, tool, args, j)), other)
  {
    k := -1;
    if i > 0 {
      k := ArgumentsAreLatest(hooks, tool, args, i - 1);
      var reply := hooks[i - 1].pre(tool, ArgsAt(hooks, tool, args, i - 1));
      if Replaces(reply, ArgsAt(hooks, tool, args, i)) { k := i - 1; }
    }
  }

  /** Running two groups of hooks is running the first, and the second on what the first lets through. */
  lemma {:induction false} PreComposes(a: seq<Hook>, b: seq<Hook>, tool: string, args: Args)
    ensures var first := RunPre(a, tool, args);
      if first.action.Deny? then RunPre(a + b, tool, args) == first
      else first.modifiedArguments.Some? && RunPre(a + b, tool, args) == RunPre(b, tool, first.modifiedArguments.value)
  {
    if a == [] {
      assert a + b == b;
    } else {
      assert (a + b)[1..] == a[1..] + b;
      if !Denies(a[0], tool, args) { PreComposes(a[1..], b, tool, Rewritten(a[0], tool, args)); }
    }
  }

  lemma {:induction false} OneHook(h: Hook, tool: string, args: Args)
    ensures RunPre([h], tool, args).action.Deny? <==> Denies(h, tool, args)
    ensures !Denies(h, tool, args) ==>
      RunPre([h], tool, args) == PreToolUseResult(Allow, Some(Rewritten(h, tool, args)), None)
  {
    assert [h][1..] == [];
  }

  /** A hook amid hooks that all let the call pass: what it is shown, and what the later hooks start from. */
  lemma {:induction false} MiddleHook(a: seq<Hook>, h: Hook, b: seq<Hook>, tool: string, args: Args)
    returns (seen: Args)
    requires !RunPre(a + [h] + b, tool, args).action.Deny?
    ensures !Denies(h, tool, seen) && RunPre(a + [h] + b, tool, args) == RunPre(b, tool, Rewritten(h, tool, seen))
  {
    PreComposes(a + [h], b, tool, args);
    PreComposes(a, [h], tool, args);
    seen := RunPre(a, tool, args).modifiedArguments.value;
    OneHook(h, tool, seen);
  }

  /** A hook that raises on the arguments that reach it might as well not be there. */
  lemma {:induction false} RaisingHookIsSkipped(a: seq<Hook>, h: Hook, b: seq<Hook>, tool: string, args: Args)
    requires RunPre(a, tool, args).action.Deny? || h.pre(tool, ArgsAt(a, tool, args, |a|)).Raised?
    ensures RunPre(a + [h] + b, tool, args) == RunPre(a + b, tool, args)
  {
    var n := PreVerdict(a, tool, args);
    PreComposes(a, [h] + b, tool, args);
    PreComposes(a, b, tool, args);
    assert a + [h] + b == a + ([h] + b);
    assert ([h] + b)[1..] == b;
  }

  // ---- after a tool ran ----

  function ResultAt(hooks: seq<Hook>, tool: string, args: Args, result: string, isError: bool, i: nat): string
    requires i <= |hooks|
  {
    if i == 0 then result
    else
      var before := ResultAt(hooks, tool, args, result, isError, i - 1);
      var reply := hooks[i - 1].post(tool, args, before, isError);
      if reply.Returned? && reply.result.modifiedResult.Some? then reply.result.modifiedResult.value else before
  }

  predicate AsksToLearn(h: Hook, tool: string, args: Args, result: string, isError: bool) {
    var reply := h.post(tool, args, result, isError);
    reply.Returned? && reply.result.triggerLearning
  }

  /** A hook asks to learn whether or not it modifies the result. */
  lemma {:induction false} AsksToLearnIff(h: Hook, tool: string, args: Args, result: string, isError: bool)
    ensures AsksToLearn(h, tool, args, result, isError) <==>
      exists modified :: h.post(tool, args, result, isError) == Returned(PostToolUseResult(modified, true))
  {
    var reply := h.post(tool, args, result, isError);
    if reply.Returned? {
      assert reply.result == PostToolUseResult(reply.result.modifiedResult, reply.result.triggerLearning);
    }
  }

  predicate Modifies(h: Hook, tool: string, args: Args, result: string, isError: bool) {
    var reply := h.post(tool, args, result, isError);
    reply.Returned? && reply.result.modifiedResult.Some?
  }

  /**
   * Of the first `n` hooks, each shown its entry of `shown`, hook `i` is the last to modify the result; -1 when none
   * does.
   */
  ghost predicate LastChange(
    hooks: seq<Hook>, tool: string, args: Args, isError: bool, shown: seq<string>, n: int, i: int)
  {
    && -1 <= i < n <= |hooks| <= |shown|
    && (i >= 0 ==> Modifies(hooks[i], tool, args, shown[i], isError))
    && forall j :: i < j < n ==> !Modifies(hooks[j], tool, args, shown[j], isError)
  }

  /** The modification of hook `i`, or the tool's own result. */
  function ChangeOf(
    hooks: seq<Hook>, tool: string, args: Args, result: string, isError: bool, shown: seq<string>, i: int): string
    requires i < |hooks| && i < |shown|
    requires i >= 0 ==> Modifies(hooks[i], tool, args, shown[i], isError)
  {
    if i >= 0 then hooks[i].post(tool, args, shown[i], isError).result.modifiedResult.value else result
  }

  /** `text` is the latest modification by the first `n` hooks, or the tool's own result if there is none. */
  ghost predicate IsLatest(
    hooks: seq<Hook>, tool: string, args: Args, result: string, isError: bool, shown: seq<string>, n: int, text: string)
  {
    exists i :: LastChange(hooks, tool, args, isError, shown, n, i)
      && text == ChangeOf(hooks, tool, args, result, isError, shown, i)
  }

  /** Every hook is shown the latest modification of the hooks before it. */
  ghost predicate Chained(
    hooks: seq<Hook>, tool: string, args: Args, result: string, isError: bool, shown: seq<string>)
  {
    |shown| == |hooks|
    && forall n :: 0 <= n < |hooks| ==> IsLatest(hooks, tool, args, result, isError, shown, n, shown[n])
  }

  /** What the first `n` hooks are shown. */
  ghost function ShownResults(
    hooks: seq<Hook>, tool: string, args: Args, result: string, isError: bool, n: nat): (shown: seq<string>)
    requires n <= |hooks|
    ensures |shown| == n
    ensures forall i :: 0 <= i < n ==> shown[i] == ResultAt(hooks, tool, args, result, isError, i)
  {
    if n == 0 then []
    else ShownResults(hooks, tool, args, result, isError, n - 1) + [ResultAt(hooks, tool, args, result, isError, n - 1)]
  }

  /** One more hook takes over, or leaves the latest modification in place. */
  lemma {:induction false} LatestStep(
    hooks: seq<Hook>, tool: string, args: Args, result: string, isError: bool, shown: seq<string>, n: nat)
    requires n < |hooks| == |shown| && IsLatest(hooks, tool, args, result, isError, shown, n, shown[n])
    ensures var reply := hooks[n].post(tool, args, shown[n], isError);
      IsLatest(hooks, tool, args, result, isError, shown, n + 1,
        if Modifies(hooks[n], tool, args, shown[n], isError) then reply.result.modifiedResult.value else shown[n])
  {
    var i :| LastChange(hooks, tool, args, isError, shown, n, i)
      && shown[n] == ChangeOf(hooks, tool, args, result, isError, shown, i);
    var last := if Modifies(hooks[n], tool, args, shown[n], isError) then n else i;
    assert LastChange(hooks, tool, args, isError, shown, n + 1, last);
  }

  lemma {:induction false} NothingChanged(
    hooks: seq<Hook>, tool: string, args: Args, result: string, isError: bool, shown: seq<string>)
    requires |shown| == |hooks|
    ensures IsLatest(hooks, tool, args, result, isError, shown, 0, result)
  {
    assert LastChange(hooks, tool, args, isError, shown, 0, -1);
  }

  lemma {:induction false} ResultIsLatest(
    hooks: seq<Hook>, tool: string, args: Args, result: string, isError: bool, n: nat)
    requires n <= |hooks|
    ensures var shown := ShownResults(hooks, tool, args, result, isError, |hooks|);
      IsLatest(hooks, tool, args, result, isError, shown, n, ResultAt(hooks, tool, args, result, isError, n))
  {
    hide IsLatest, ShownResults;
    var shown := ShownResults(hooks, tool, args, result, isError, |hooks|);
    if n == 0 {
      NothingChanged(hooks, tool, args, result, isError, shown);
    } else {
      ResultIsLatest(hooks, tool, args, result, isError, n - 1);
      assert shown[n - 1] == ResultAt(hooks, tool, args, result, isError, n - 1);
      LatestStep(hooks, tool, args, result, isError, shown, n - 1);
    }
  }

  /** Every hook is shown, and the whole chain comes to, the latest modification. */
  lemma {:induction false} ResultsAreChained(
    hooks: seq<Hook>, tool: string, args: Args, result: string, isError: bool)
    ensures var shown := ShownResults(hooks, tool, args, result, isError, |hooks|);
      && Chained(hooks, tool, args, result, isError, shown)
      && IsLatest(hooks, tool, args, result, isError, shown, |hooks|,
           ResultAt(hooks, tool, args, result, isError, |hooks|))
  {
    hide IsLatest, ResultAt, ShownResults;
    var shown := ShownResults(hooks, tool, args, result, isError, |hooks|);
    forall n: nat | n <= |hooks|
      ensures IsLatest(hooks, tool, args, result, isError, shown, n, ResultAt(hooks, tool, args, result, isError, n))
    {
      ResultIsLatest(hooks, tool, args, result, isError, n);
    }
  }

  /** Whether one of the first `n` hooks modifies what it is shown. */
  predicate ModifiedBy(hooks: seq<Hook>, tool: string, args: Args, result: string, isError: bool, n: nat)
    requires n <= |hooks|
  {
    n > 0
    && (ModifiedBy(hooks, tool, args, result, isError, n - 1)
        || Modifies(hooks[n - 1], tool, args, ResultAt(hooks, tool, args, result, isError, n - 1), isError))
  }

  /** Whether one of the first `n` hooks asks to learn from what it is shown. */
  predicate LearnedBy(hooks: seq<Hook>, tool: string, args: Args, result: string, isError: bool, n: nat)
    requires n <= |hooks|
  {
    n > 0
    && (LearnedBy(hooks, tool, args, result, isError, n - 1)
        || AsksToLearn(hooks[n - 1], tool, args, ResultAt(hooks, tool, args, result, isError, n - 1), isError))
  }

  lemma {:induction false} LearnedByIff(
    hooks: seq<Hook>, tool: string, args: Args, result: string, isError: bool, n: nat)
    requires n <= |hooks|
    ensures var shown := ShownResults(hooks, tool, args, result, isError, n);
      LearnedBy(hooks, tool, args, result, isError, n) <==>
        exists i :: 0 <= i < n && AsksToLearn(hooks[i], tool, args, shown[i], isError)
  {
    hide AsksToLearn, ResultAt;
    if n > 0 {
      LearnedByIff(hooks, tool, args, result, isError, n - 1);
      var shown := ShownResults(hooks, tool, args, result, isError, n);
      assert forall i :: 0 <= i < n - 1 ==> ShownResults(hooks, tool, args, result, isError, n - 1)[i] == shown[i];
    }
  }

  lemma {:induction false} ModifiedByIff(
    hooks: seq<Hook>, tool: string, args: Args, result: string, isError: bool, n: nat)
    requires n <= |hooks|
    ensures var shown := ShownResults(hooks, tool, args, result, isError, n);
      ModifiedBy(hooks, tool, args, result, isError, n) <==>
        exists i :: 0 <= i < n && Modifies(hooks[i], tool, args, shown[i], isError)
  {
    hide Modifies, ResultAt;
    if n > 0 {
      ModifiedByIff(hooks, tool, args, result, isError, n - 1);
      var shown := ShownResults(hooks, tool, args, result, isError, n);
      assert forall i :: 0 <= i < n - 1 ==> ShownResults(hooks, tool, args, result, isError, n - 1)[i] == shown[i];
    }
  }

  lemma {:induction false} PostPrefix(
    a: seq<Hook>, b: seq<Hook>, tool: string, args: Args, result: string, isError: bool, n: nat)
    requires n <= |a|
    ensures ResultAt(a + b, tool, args, result, isError, n) == ResultAt(a, tool, args, result, isError, n)
  {
    if n > 0 {
      PostPrefix(a, b, tool, args, result, isError, n - 1);
      assert (a + b)[n - 1] == a[n - 1];
    }
  }

  /** Two groups of post hooks run as the first group, then the second on what the first makes of the result. */
  lemma {:induction false} PostComposes(
    a: seq<Hook>, b: seq<Hook>, tool: string, args: Args, result: string, isError: bool, n: nat)
    requires n <= |b|
    ensures ResultAt(a + b, tool, args, result, isError, |a| + n)
      == ResultAt(b, tool, args, ResultAt(a, tool, args, result, isError, |a|), isError, n)
  {
    if n == 0 {
      PostPrefix(a, b, tool, args, result, isError, |a|);
    } else {
      PostComposes(a, b, tool, args, result, isError, n - 1);
      assert (a + b)[|a| + n - 1] == b[n - 1];
    }
  }

  // ---- the final response ----

  function ResponseAt(hooks: seq<Hook>, response: string, i: nat): string
    requires i <= |hooks|
  {
    if i == 0 then response
    else
      var before := ResponseAt(hooks, response, i - 1);
      var reply := hooks[i - 1].final(before);
      if reply.Returned? && reply.result.modifiedResponse.Some? then reply.result.modifiedResponse.value else before
  }

  function FinalReplyAt(hooks: seq<Hook>, response: string, i: nat): Reply<FinalResponseResult>
    requires i < |hooks|
  {
    hooks[i].final(ResponseAt(hooks, response, i))
  }

  lemma {:induction false} ResponseStep(hooks: seq<Hook>, response: string, k: nat)
    requires k < |hooks|
    ensures ResponseAt(hooks, response, 0) == response
    ensures ResponseAt(hooks, response, k + 1) ==
      var reply := FinalReplyAt(hooks, response, k);
      if reply.Returned? && reply.result.modifiedResponse.Some? then reply.result.modifiedResponse.value
      else ResponseAt(hooks, response, k)
  {
  }

  ghost predicate ChangesResponse(hooks: seq<Hook>, response: string, i: nat)
    requires i < |hooks|
  {
    var reply := FinalReplyAt(hooks, response, i);
    reply.Returned? && reply.result.modifiedResponse.Some?
  }

  ghost predicate AsksFollowup(hooks: seq<Hook>, response: string, i: nat)
    requires i < |hooks|
  {
    var reply := FinalReplyAt(hooks, response, i);
    reply.Returned? && reply.result.requiresFollowup
  }

  /** Hook `i` asks for a follow-up and says why. */
  ghost predicate GivesReason(hooks: seq<Hook>, response: string, i: nat)
    requires i < |hooks|
  {
    && AsksFollowup(hooks, response, i)
    && var reason := FinalReplyAt(hooks, response, i).result.followupReason;
       reason.Some? && reason.value != ""
  }

  /** Hook `i` is the last of the first `n` hooks to give a reason; -1 when none does. */
  ghost predicate LastReason(hooks: seq<Hook>, response: string, n: nat, i: int)
    requires n <= |hooks|
  {
    && -1 <= i < n && (i >= 0 ==> GivesReason(hooks, response, i))
    && forall j :: i < j < n ==> !GivesReason(hooks, response, j)
  }

  /** Hook `i` gave this reason; -1 stands for no hook and no reason. */
  ghost predicate IsReasonOf(hooks: seq<Hook>, response: string, i: int, reason: Option<string>)
    requires i < |hooks|
  {
    if i < 0 then reason == None
    else FinalReplyAt(hooks, response, i).Returned? && FinalReplyAt(hooks, response, i).result.followupReason == reason
  }

  lemma {:induction false} LastReasonStep(hooks: seq<Hook>, response: string, k: nat, giver: int)
    requires k < |hooks| && LastReason(hooks, response, k, giver)
    ensures LastReason(hooks, response, k + 1, if GivesReason(hooks, response, k) then k else giver)
  {
  }

  datatype ToolRequest = ToolRequest(name: string, arguments: Args)

  /** A dispatch ends with a denial, with an exception of the tool, or with a result text. */
  datatype Dispatched =
    | Denied(reason: Option<string>)
    | Crashed(arguments: Args)
    | Completed(arguments: Args, isError: bool, result: string)

  /** The arguments a tool is run with: rewritten ones, unless they are empty. */
  function DispatchArguments(hooks: seq<Hook>, call: ToolRequest): Args {
    var rewritten := ArgsAt(hooks, call.name, call.arguments, |hooks|);
    if rewritten == map[] then call.arguments else rewritten
  }

  function Dispatch(hooks: seq<Hook>, call: ToolRequest, tool: (string, Args) -> Reply<string>,
    isToolError: string -> bool): Dispatched
  {
    var pre := RunPre(hooks, call.name, call.arguments);
    if pre.action.Deny? then Denied(pre.denyReason)
    else
      var arguments := DispatchArguments(hooks, call);
      var reply := tool(call.name, arguments);
      if reply.Raised? then Crashed(arguments)
      else
        var isError := isToolError(reply.result);
        Completed(arguments, isError, ResultAt(hooks, call.name, arguments, reply.result, isError, |hooks|))
  }

  /** A completed dispatch comes to the latest modification of the tool's own result, on the arguments it ran with. */
  lemma {:induction false} CompletedResult(hooks: seq<Hook>, call: ToolRequest, tool: (string, Args) -> Reply<string>,
    isToolError: string -> bool)
    returns (shown: seq<string>)
    requires Dispatch(hooks, call, tool, isToolError).Completed?
    ensures var d := Dispatch(hooks, call, tool, isToolError);
      var own := tool(call.name, d.arguments);
      && own.Returned? && d.isError == isToolError(own.result)
      && Chained(hooks, call.name, d.arguments, own.result, d.isError, shown)
      && IsLatest(hooks, call.name, d.arguments, own.result, d.isError, shown, |hooks|, d.result)
  {
    hide Chained, IsLatest, RunPre, DispatchArguments;
    var d := Dispatch(hooks, call, tool, isToolError);
    var own := tool(call.name, d.arguments).result;
    shown := ShownResults(hooks, call.name, d.arguments, own, d.isError, |hooks|);
    ResultsAreChained(hooks, call.name, d.arguments, own, d.isError);
  }

  class HookRegistry {
    var hooks: seq<Hook>

    constructor ()
      ensures hooks == []
    {
      hooks := [];
    }

    method Register(hook: Hook)
      modifies this
      ensures hooks == StableSort(old(hooks) + [hook])
    {
      hooks := hooks + [hook];
      hooks := StableSort(hooks);
    }

    /** `asked` lists the arguments shown to each hook that was called: no hook after the first that denies. */
    method RunPreHooks(tool: string, args: Args) returns (r: PreToolUseResult, ghost asked: seq<Args>)
      ensures r == RunPre(hooks, tool, args)
      ensures |asked| <= |hooks| && forall i :: 0 <= i < |asked| ==> asked[i] == ArgsAt(hooks, tool, args, i)
      ensures StopsAt(hooks, tool, args, if r.action.Deny? then |asked| - 1 else |asked|)
    {
      var current := args;
      asked := [];
      for k := 0 to |hooks|
        invariant current == ArgsAt(hooks, tool, args, k)
        invariant RunPre(hooks, tool, args) == RunPre(hooks[k..], tool, current)
        invariant |asked| == k && forall i :: 0 <= i < k ==> asked[i] == ArgsAt(hooks, tool, args, i)
        invariant forall i :: 0 <= i < k ==> !DeniesAt(hooks, tool, args, i)
      {
        assert hooks[k..][1..] == hooks[k + 1..];
        asked := asked + [current];
        var reply := hooks[k].pre(tool, current);
        if reply.Returned? {
          if reply.result.action.Deny? {
            assert DeniesAt(hooks, tool, args, k);
            return reply.result, asked;
          }
          if reply.result.action.Modify? && reply.result.modifiedArguments.Some? {
            current := reply.result.modifiedArguments.value;
          }
        }
      }
      r := PreToolUseResult(Allow, Some(current), None);
    }

    /** `shown` lists the results shown to the hooks, all of which are called. */
    method RunPostHooks(tool: string, args: Args, result: string, isError: bool)
      returns (r: PostToolUseResult, ghost shown: seq<string>)
      ensures Chained(hooks, tool, args, result, isError, shown)
      ensures IsLatest(hooks, tool, args, result, isError, shown, |hooks|, GetOr(r.modifiedResult, result))
      ensures r.modifiedResult.Some? <==>
        exists i :: 0 <= i < |hooks| && Modifies(hooks[i], tool, args, shown[i], isError)
      ensures GetOr(r.modifiedResult, result) == ResultAt(hooks, tool, args, result, isError, |hooks|)
      ensures r.triggerLearning <==>
        exists i :: 0 <= i < |hooks| && AsksToLearn(hooks[i], tool, args, shown[i], isError)
    {
      hide Chained, IsLatest;
      var current := result;
      r, shown := PostToolUseResult(None, false), [];
      for k := 0 to |hooks|
        invariant current == ResultAt(hooks, tool, args, result, isError, k)
        invariant current == GetOr(r.modifiedResult, result)
        invariant shown == ShownResults(hooks, tool, args, result, isError, k)
        invariant r.modifiedResult.Some? <==> ModifiedBy(hooks, tool, args, result, isError, k)
        invariant r.triggerLearning <==> LearnedBy(hooks, tool, args, result, isError, k)
      {
        var reply := hooks[k].post(tool, args, current, isError);
        shown := shown + [current];
        if reply.Returned? {
          if reply.result.modifiedResult.Some? {
            current := reply.result.modifiedResult.value;
            r := r.(modifiedResult := Some(current));
          }
          if reply.result.triggerLearning {
            r := r.(triggerLearning := true);
          }
        }
      }
      ResultsAreChained(hooks, tool, args, result, isError);
      ModifiedByIff(hooks, tool, args, result, isError, |hooks|);
      LearnedByIff(hooks, tool, args, result, isError, |hooks|);
    }

    method RunFinalResponseHooks(response: string) returns (r: FinalResponseResult)
      ensures r.modifiedResponse.Some? <==> exists i :: 0 <= i < |hooks| && ChangesResponse(hooks, response, i)
      ensures GetOr(r.modifiedResponse, response) == ResponseAt(hooks, response, |hooks|)
      ensures r.requiresFollowup <==> exists i :: 0 <= i < |hooks| && AsksFollowup(hooks, response, i)
      ensures exists i :: LastReason(hooks, response, |hooks|, i) && IsReasonOf(hooks, response, i, r.followupReason)
    {
      var current := response;
      assert ResponseAt(hooks, response, 0) == response;
      assert LastReason(hooks, response, 0, -1);
      hide ResponseAt, LastReason;
      r := FinalResponseResult(None, false, None);
      ghost var giver := -1;
      for k := 0 to |hooks|
        invariant current == ResponseAt(hooks, response, k) == GetOr(r.modifiedResponse, response)
        invariant r.modifiedResponse.Some? <==> exists i :: 0 <= i < k && ChangesResponse(hooks, response, i)
        invariant r.requiresFollowup <==> exists i :: 0 <= i < k && AsksFollowup(hooks, response, i)
        invariant giver < k && LastReason(hooks, response, k, giver)
        invariant IsReasonOf(hooks, response, giver, r.followupReason)
      {
        ResponseStep(hooks, response, k);
        LastReasonStep(hooks, response, k, giver);
        var reply := hooks[k].final(current);
        assert reply == FinalReplyAt(hooks, response, k);
        if reply.Returned? {
          if reply.result.modifiedResponse.Some? {
            current := reply.result.modifiedResponse.value;
            r := r.(modifiedResponse := Some(current));
            assert ChangesResponse(hooks, response, k);
          }
          if reply.result.requiresFollowup {
            r := r.(requiresFollowup := true);
            assert AsksFollowup(hooks, response, k);
            if reply.result.followupReason.Some? && reply.result.followupReason.value != "" {
              r := r.(followupReason := reply.result.followupReason);
              giver := k;
            }
          }
        }
      }
    }

    /** Dispatch of one tool call between the hooks; `tool` may raise. */
    method DispatchSingleTool(call: ToolRequest, tool: (string, Args) -> Reply<string>, isToolError: string -> bool)
      returns (r: Dispatched)
      ensures r == Dispatch(hooks, call, tool, isToolError)
    {
      var pre, _ := RunPreHooks(call.name, call.arguments);
      ghost var n := PreVerdict(hooks, call.name, call.arguments);
      if pre.action.Deny? {
        return Denied(pre.denyReason);
      }
      var arguments := if pre.modifiedArguments.Some? && pre.modifiedArguments.value != map[]
        then pre.modifiedArguments.value else call.arguments;
      var reply := tool(call.name, arguments);
      if reply.Raised? {
        return Crashed(arguments);
      }
      var isError := isToolError(reply.result);
      var post, _ := RunPostHooks(call.name, arguments, reply.result, isError);
      r := Completed(arguments, isError, GetOr(post.modifiedResult, reply.result));
    }
  }

  // ---- one dispatch ----

  /** A tool that the hooks let through runs on their last rewrite exactly when that is not an emptied dictionary. */
  lemma {:induction false} RunsOnRewrittenArguments(hooks: seq<Hook>, call: ToolRequest,
    tool: (string, Args) -> Reply<string>, isToolError: string -> bool)
    ensures Dispatch(hooks, call, tool, isToolError).Denied? <==>
      exists i :: 0 <= i < |hooks| && DeniesAt(hooks, call.name, call.arguments, i)
    ensures var r, rewritten := Dispatch(hooks, call, tool, isToolError),
        ArgsAt(hooks, call.name, call.arguments, |hooks|);
      !r.Denied? ==> (r.arguments == rewritten <==> rewritten != map[] || call.arguments == map[])
  {
    var n := PreVerdict(hooks, call.name, call.arguments);
    assert n < |hooks| ==> DeniesAt(hooks, call.name, call.arguments, n);
  }
}
