/**
 * The automatic verifier hook: it runs the verifier on a final response of an active task and
 * remembers the outcome of the 64 most recently used (run, task, response) keys.
 */
module VerdictCache {
  import opened Options
  import opened HookPipeline

  /** The cache key is a digest of session, run, task, mode and response; only its identity matters. */
  type Key = string

  const MAX_RECENT_RESULTS: nat := 64

  const NO_CHANGE := FinalResponseResult(None, false, None)

  /** What a run of the verifier comes to; `blocking` is the remediation a blocking verdict asks for. */
  datatype Outcome =
    | TimedOut(fallbackVerdict: string)
    | Failed(fallbackVerdict: string)
    | Judged(verdict: string, blocking: Option<FinalResponseResult>)

  /** One final response: the facts the eligibility tests look at, the key, and what the verifier would say. */
  datatype Call = Call(
    hasVerifier: bool, hasContract: bool, contractInProgress: bool, runId: string, key: Key, outcome: Outcome)

  predicate Eligible(c: Call) {
    c.hasVerifier && c.hasContract && c.contractInProgress && c.runId != ""
  }

  /** The verdict a verifier run puts on record: on a timeout or a crash, the fallback verdict. */
  function VerdictOf(o: Outcome): string {
    match o
    case TimedOut(v) => v
    case Failed(v) => v
    case Judged(v, _) => v
  }

  /** The result a verifier run leads to: anything but a blocking verdict leaves the response alone. */
  function ResultOf(o: Outcome): FinalResponseResult {
    if o.Judged? && o.blocking.Some? then o.blocking.value else NO_CHANGE
  }

  // ---- recency ----

  ghost predicate Distinct(s: seq<Key>) {
    forall i, j :: 0 <= i < j < |s| ==> s[i] != s[j]
  }

  ghost function KeySet(s: seq<Key>): set<Key> {
    set k | k in s
  }

  function Without(s: seq<Key>, k: Key): (r: seq<Key>)
    ensures |r| <= |s|
    ensures forall x :: x in r <==> x in s && x != k
    ensures k !in s ==> r == s
  {
    if s == [] then []
    else if s[0] == k then Without(s[1..], k)
    else [s[0]] + Without(s[1..], k)
  }

  function LastN(s: seq<Key>, n: nat): seq<Key> {
    if |s| <= n then s else s[|s| - n..]
  }

  /** The distinct keys of an access history, least recently used first. */
  function Recency(history: seq<Key>): (r: seq<Key>)
    ensures forall k :: k in r <==> k in history
  {
    if history == [] then []
    else
      var (front, last) := (history[..|history| - 1], history[|history| - 1]);
      assert history == front + [last];
      Without(Recency(front), last) + [last]
  }

  lemma {:induction false} WithoutDistinct(s: seq<Key>, k: Key)
    requires Distinct(s)
    ensures Distinct(Without(s, k))
    ensures |Without(s, k)| == |s| - if k in s then 1 else 0
  {
    if s != [] {
      WithoutDistinct(s[1..], k);
      assert s[0] !in s[1..];
      var r := Without(s, k);
      if s[0] != k {
        forall j | 0 < j < |r| ensures r[j] != s[0] { assert r[j] in Without(s[1..], k); }
      }
    }
  }

  lemma {:induction false} RecencyDistinct(history: seq<Key>)
    ensures Distinct(Recency(history))
  {
    if history != [] {
      RecencyDistinct(history[..|history| - 1]);
      WithoutDistinct(Recency(history[..|history| - 1]), history[|history| - 1]);
      var kept := Without(Recency(history[..|history| - 1]), history[|history| - 1]);
      assert forall i :: 0 <= i < |kept| ==> kept[i] in kept;
    }
  }

  /** Position of the last access to a key. */
  ghost predicate LastAccess(history: seq<Key>, k: Key, at: int) {
    0 <= at < |history| && history[at] == k && forall j :: at < j < |history| ==> history[j] != k
  }

  /** The distinct keys accessed after position `at`. */
  ghost function AccessedSince(history: seq<Key>, at: int): set<Key>
    requires 0 <= at < |history|
  {
    KeySet(history[at + 1..])
  }

  lemma {:induction false} WithoutConcat(a: seq<Key>, b: seq<Key>, k: Key)
    ensures Without(a + b, k) == Without(a, k) + Without(b, k)
  {
    if a == [] {
      assert a + b == b;
    } else {
      assert (a + b)[1..] == a[1..] + b;
      WithoutConcat(a[1..], b, k);
    }
  }

  lemma {:induction false} PlacedOnce(t: seq<Key>, i: nat, j: nat)
    requires Distinct(t) && i < |t| && j < |t| && t[i] == t[j]
    ensures i == j
  {
  }

  lemma {:induction false} WithoutAround(a: seq<Key>, x: Key, b: seq<Key>, k: Key)
    requires x != k
    ensures Without(a + [x] + b, k) == Without(a, k) + [x] + Without(b, k)
  {
    assert Without([x], k) == [x] by { assert [x][1..] == []; }
    hide Without;
    WithoutConcat(a + [x], b, k);
    WithoutConcat(a, [x], k);
  }

  /** What follows a kept key after a removal is what followed it before, without the removed key. */
  lemma {:induction false} FollowersWithout(s: seq<Key>, k: Key, i: nat, j: nat)
    requires Distinct(s) && i < |s| && s[i] != k && j < |Without(s, k)| && Without(s, k)[j] == s[i]
    ensures KeySet(Without(s, k)[j + 1..]) == KeySet(s[i + 1..]) - {k}
  {
    hide Without, Distinct;
    var a, b := s[..i], s[i + 1..];
    WithoutDistinct(s, k);
    assert s == a + [s[i]] + b;
    WithoutAround(a, s[i], b, k);
    PlacedOnce(Without(s, k), j, |Without(a, k)|);
    assert Without(s, k)[j + 1..] == Without(b, k);
  }

  lemma {:induction false} RecencySnoc(history: seq<Key>, k: Key)
    ensures Recency(history + [k]) == Without(Recency(history), k) + [k]
  {
    assert (history + [k])[..|history|] == history;
  }

  /** The key accessed last is followed by nothing. */
  lemma {:induction false} LastIsLast(r: seq<Key>, k: Key, pos: nat)
    requires Distinct(r + [k]) && pos < |r| + 1 && (r + [k])[pos] == k
    ensures pos == |r| && (r + [k])[pos + 1..] == []
  {
    PlacedOnce(r + [k], pos, |r|);
  }

  lemma {:induction false} LastAccessPrefix(front: seq<Key>, last: Key, k: Key, at: int)
    requires LastAccess(front + [last], k, at) && at < |front|
    ensures LastAccess(front, k, at) && k != last
  {
    var all := front + [last];
    assert forall j :: 0 <= j < |front| ==> all[j] == front[j];
    assert all[|front|] == last;
  }

  lemma {:induction false} KeySetSnoc(s: seq<Key>, k: Key)
    ensures KeySet(s + [k]) == KeySet(s) + {k}
  {
  }

  lemma {:induction false} TailSnoc(s: seq<Key>, k: Key, from: nat)
    requires from <= |s|
    ensures KeySet((s + [k])[from..]) == KeySet(s[from..]) + {k}
  {
    assert (s + [k])[from..] == s[from..] + [k];
    KeySetSnoc(s[from..], k);
  }

  lemma {:induction false} FollowersStep(front: seq<Key>, at: nat, r: seq<Key>, i: nat, last: Key, pos: nat)
    requires at < |front| && i < |r| && r[i] != last && Distinct(r)
    requires KeySet(r[i + 1..]) == KeySet(front[at + 1..])
    requires pos < |Without(r, last)| + 1 && (Without(r, last) + [last])[pos] == r[i]
    ensures KeySet((Without(r, last) + [last])[pos + 1..]) == KeySet((front + [last])[at + 1..])
  {
    FollowersWithout(r, last, i, pos);
    TailSnoc(Without(r, last), last, pos + 1);
    TailSnoc(front, last, at + 1);
  }

  /** The keys after `k` in the recency order are the keys accessed since `k`. */
  lemma {:induction false} FollowersAreSince(history: seq<Key>, k: Key, at: int, pos: nat)
    requires LastAccess(history, k, at) && pos < |Recency(history)| && Recency(history)[pos] == k
    ensures KeySet(Recency(history)[pos + 1..]) == AccessedSince(history, at)
  {
    hide Recency, Without, Distinct, KeySet;
    var front, last := history[..|history| - 1], history[|history| - 1];
    assert history == front + [last];
    RecencyDistinct(history);
    RecencySnoc(front, last);
    if at == |front| {
      LastIsLast(Without(Recency(front), last), k, pos);
      assert history[at + 1..] == [];
    } else {
      LastAccessPrefix(front, last, k, at);
      assert front[at] in Recency(front);
      var i :| 0 <= i < |Recency(front)| && Recency(front)[i] == k;
      RecencyDistinct(front);
      FollowersAreSince(front, k, at, i);
      FollowersStep(front, at, Recency(front), i, last, pos);
    }
  }

  lemma {:induction false} DistinctSize(s: seq<Key>)
    requires Distinct(s)
    ensures |KeySet(s)| == |s|
  {
    if s == [] {
      assert KeySet(s) == {};
    } else {
      DistinctSize(s[1..]);
      assert s == [s[0]] + s[1..];
      assert KeySet(s) == {s[0]} + KeySet(s[1..]);
      assert s[0] !in s[1..];
    }
  }

  /** The position of a key in the recency order, counted from the end, is its stack distance. */
  lemma {:induction false} RecencyIsStackDistance(history: seq<Key>, k: Key, at: int, pos: nat)
    requires LastAccess(history, k, at) && pos < |Recency(history)| && Recency(history)[pos] == k
    ensures |Recency(history)| - 1 - pos == |AccessedSince(history, at)|
  {
    RecencyDistinct(history);
    FollowersAreSince(history, k, at, pos);
    DistinctSize(Recency(history)[pos + 1..]);
  }

  // ---- one final response ----

  /** The hook's state: the ordered dictionary, and what the verifier and the verdict record have seen. */
  datatype Memory = Memory(
    order: seq<Key>, results: map<Key, FinalResponseResult>, verifierRuns: nat, persisted: seq<string>)

  const EMPTY: Memory := Memory([], map[], 0, [])

  datatype Reply = Reply(memory: Memory, result: FinalResponseResult)

  function Touch(m: Memory, k: Key): Memory {
    m.(order := Without(m.order, k) + [k])
  }

  function Restrict(results: map<Key, FinalResponseResult>, kept: seq<Key>): map<Key, FinalResponseResult> {
    map k | k in results && k in kept :: results[k]
  }

  /** Keep the newest entries only. */
  function Evict(m: Memory): Memory {
    var kept := LastN(m.order, MAX_RECENT_RESULTS);
    m.(order := kept, results := Restrict(m.results, kept))
  }

  /** The two halves of the ordered dictionary agree and every key has one place. */
  ghost predicate Coherent(m: Memory) {
    Distinct(m.order) && forall k :: k in m.order <==> k in m.results
  }

  /** `popitem(last=False)`. */
  function PopOldest(m: Memory): (r: Memory)
    requires m.order != []
    ensures |r.order| == |m.order| - 1
  {
    m.(order := m.order[1..], results := m.results - {m.order[0]})
  }

  lemma {:induction false} RestDistinct(s: seq<Key>)
    requires Distinct(s) && s != []
    ensures Distinct(s[1..]) && s[0] !in s[1..] && s == [s[0]] + s[1..]
  {
    assert forall i :: 0 <= i < |s| - 1 ==> s[1..][i] == s[i + 1];
  }

  lemma {:induction false} PopKeepsCoherent(m: Memory)
    requires Coherent(m) && m.order != []
    ensures Coherent(PopOldest(m))
  {
    var rest := m.order[1..];
    RestDistinct(m.order);
    hide Distinct;
    forall k ensures k in rest <==> k in m.results && k != m.order[0] {
      assert k in m.order <==> k in rest || k == m.order[0];
    }
  }

  /** The newest entries of a recency order, as a suffix of it. */
  lemma {:induction false} TailSplits(r: seq<Key>, n: nat) returns (head: seq<Key>)
    requires Distinct(r)
    ensures r == head + LastN(r, n)
    ensures Distinct(LastN(r, n)) && forall k :: k in LastN(r, n) ==> k !in head
    ensures |r| > n ==> |LastN(r, n)| == n
    ensures |r| <= n ==> head == []
  {
    var tail := LastN(r, n);
    head := r[..|r| - |tail|];
    assert forall i :: 0 <= i < |tail| ==> tail[i] == r[|head| + i];
    assert forall i :: 0 <= i < |head| ==> head[i] == r[i];
  }

  lemma {:induction false} EvictKeepsCoherent(m: Memory)
    requires Coherent(m)
    ensures Coherent(Evict(m))
  {
    var head := TailSplits(m.order, MAX_RECENT_RESULTS);
  }

  lemma {:induction false} RestrictSkips(results: map<Key, FinalResponseResult>, k: Key, kept: seq<Key>)
    requires k !in kept
    ensures Restrict(results - {k}, kept) == Restrict(results, kept)
  {
  }

  lemma {:induction false} LastNOfConcat(a: seq<Key>, b: seq<Key>, n: nat)
    ensures |b| >= n || a == [] ==> LastN(a + b, n) == LastN(b, n)
  {
    if a == [] {
      assert a + b == b;
    } else if |b| >= n {
      assert (a + b)[|a + b| - n..] == b[|b| - n..];
    }
  }

  /** Popping the oldest entry of an overfull dictionary does not change what eviction leaves. */
  lemma {:induction false} PopThenEvict(m: Memory)
    requires Coherent(m) && |m.order| > MAX_RECENT_RESULTS
    ensures Coherent(PopOldest(m)) && Evict(PopOldest(m)) == Evict(m)
  {
    PopKeepsCoherent(m);
    var p := PopOldest(m);
    var kept := LastN(p.order, MAX_RECENT_RESULTS);
    assert m.order == [m.order[0]] + p.order;
    LastNOfConcat([m.order[0]], p.order, MAX_RECENT_RESULTS);
    var head := TailSplits(p.order, MAX_RECENT_RESULTS);
    assert m.order[0] !in p.order;
    RestrictSkips(m.results, m.order[0], kept);
  }

  lemma {:induction false} EvictNothing(m: Memory)
    requires Coherent(m) && |m.order| <= MAX_RECENT_RESULTS
    ensures Evict(m) == m
  {
    assert Evict(m).results == m.results;
  }

  function Store(m: Memory, k: Key, r: FinalResponseResult): Memory {
    Evict(Touch(m.(results := m.results[k := r]), k))
  }

  function Respond(m: Memory, c: Call): Reply {
    if !Eligible(c) then Reply(m, NO_CHANGE)
    else if c.key in m.results then Reply(Touch(m, c.key), m.results[c.key])
    else
      var judged := m.(verifierRuns := m.verifierRuns + 1, persisted := m.persisted + [VerdictOf(c.outcome)]);
      Reply(Store(judged, c.key, ResultOf(c.outcome)), ResultOf(c.outcome))
  }

  function Run(calls: seq<Call>): Memory {
    if calls == [] then EMPTY else Respond(Run(calls[..|calls| - 1]), calls[|calls| - 1]).memory
  }

  lemma {:induction false} WithoutAppended(s: seq<Key>, k: Key)
    requires Distinct(s) && k !in s
    ensures Without(s + [k], k) == s == Without(s, k)
    ensures Distinct(s + [k])
  {
    WithoutConcat(s, [k], k);
    assert forall i :: 0 <= i < |s| ==> s[i] in s;
  }

  lemma {:induction false} TouchKeepsCoherent(m: Memory, k: Key)
    requires Coherent(m) && k in m.results
    ensures Coherent(Touch(m, k))
  {
    WithoutDistinct(m.order, k);
  }

  lemma {:induction false} AlikeIsCoherent(m: Memory, other: Memory)
    requires Coherent(m) && other.order == m.order && other.results == m.results
    ensures Coherent(other)
  {
  }

  class AutoVerifierHook {
    var order: seq<Key>
    var results: map<Key, FinalResponseResult>
    var verifierRuns: nat
    var persisted: seq<string>

    function State(): Memory
      reads this
    {
      Memory(order, results, verifierRuns, persisted)
    }

    ghost predicate Valid()
      reads this
    {
      Coherent(State())
    }

    constructor ()
      ensures State() == EMPTY && Valid()
    {
      order, results, verifierRuns, persisted := [], map[], 0, [];
    }

    /** `_recent_results.move_to_end(key)`. */
    method MoveToEnd(key: Key)
      modifies this`order
      ensures State() == Touch(old(State()), key)
    {
      order := Without(order, key) + [key];
    }

    /** `_recent_results.popitem(last=False)`. */
    method PopItem()
      requires order != []
      modifies this`order, this`results
      ensures State() == PopOldest(old(State()))
    {
      var oldest := order[0];
      order, results := order[1..], results - {oldest};
    }

    /** `_store_cached_result`: assign, move to the end, then pop oldest entries while there are too many. */
    method StoreCachedResult(key: Key, result: FinalResponseResult) returns (r: FinalResponseResult)
      requires Valid() && key !in results
      modifies this`order, this`results
      ensures State() == Store(old(State()), key, result) && r == result && Valid()
    {
      hide Evict, Without, PopOldest;
      order, results := order + [key], results[key := result];
      WithoutAppended(old(order), key);
      MoveToEnd(key);
      ghost var full := State();
      while |order| > MAX_RECENT_RESULTS
        invariant Coherent(State()) && Evict(State()) == Evict(full)
        decreases |order|
      {
        PopThenEvict(State());
        PopItem();
      }
      EvictNothing(State());
      r := result;
    }

    method OnFinalResponse(c: Call) returns (r: FinalResponseResult)
      requires Valid()
      modifies this
      ensures Valid() && State() == Respond(old(State()), c).memory && r == Respond(old(State()), c).result
    {
      hide Evict, Without, Touch, Store, Coherent;
      if !c.hasVerifier || !c.hasContract {
        return NO_CHANGE;
      }
      if !c.contractInProgress || c.runId == "" {
        return NO_CHANGE;
      }
      if c.key in results {
        r := results[c.key];
        TouchKeepsCoherent(State(), c.key);
        MoveToEnd(c.key);
        return;
      }
      verifierRuns := verifierRuns + 1;
      AlikeIsCoherent(old(State()), State().(persisted := persisted + [VerdictOf(c.outcome)]));
      match c.outcome {
        case TimedOut(fallback) =>
          persisted := persisted + [fallback];
          r := StoreCachedResult(c.key, NO_CHANGE);
        case Failed(fallback) =>
          persisted := persisted + [fallback];
          r := StoreCachedResult(c.key, NO_CHANGE);
        case Judged(verdict, blocking) =>
          persisted := persisted + [verdict];
          if blocking.Some? {
            r := StoreCachedResult(c.key, blocking.value);
          } else {
            r := StoreCachedResult(c.key, NO_CHANGE);
          }
      }
    }
  }

  // ---- the cache is the tail of the recency order ----

  function Accesses(calls: seq<Call>): seq<Key> {
    if calls == [] then []
    else
      var c := calls[|calls| - 1];
      Accesses(calls[..|calls| - 1]) + if Eligible(c) then [c.key] else []
  }

  lemma {:induction false} LastNShort(s: seq<Key>, r: seq<Key>, n: nat)
    requires |s| == |LastN(r, n)|
    ensures LastN(s, n) == s
  {
  }

  /** Touching a key that is among the newest `n` moves it to the end of them. */
  lemma {:induction false} TailHit(r: seq<Key>, n: nat, k: Key)
    requires Distinct(r) && k in LastN(r, n)
    ensures LastN(Without(r, k) + [k], n) == Without(LastN(r, n), k) + [k]
  {
    hide Without, LastN;
    var tail := LastN(r, n);
    var head := TailSplits(r, n);
    WithoutConcat(head, tail, k);
    WithoutDistinct(tail, k);
    assert Without(r, k) + [k] == head + (Without(tail, k) + [k]);
    LastNOfConcat(head, Without(tail, k) + [k], n);
    LastNShort(Without(tail, k) + [k], r, n);
  }

  /** Adding a key that is not among the newest `n` pushes the oldest of them out. */
  lemma {:induction false} TailMiss(r: seq<Key>, n: nat, k: Key)
    requires Distinct(r) && n >= 1 && k !in LastN(r, n)
    ensures LastN(Without(r, k) + [k], n) == LastN(LastN(r, n) + [k], n)
  {
    hide Without, LastN;
    var tail := LastN(r, n);
    var head := TailSplits(r, n);
    WithoutConcat(head, tail, k);
    assert Without(tail, k) == tail;
    assert Without(r, k) + [k] == Without(head, k) + (tail + [k]);
    LastNOfConcat(Without(head, k), tail + [k], n);
  }

  /** The state holds the newest entries of the recency order of a history. */
  ghost predicate HoldsTail(m: Memory, history: seq<Key>) {
    Coherent(m) && m.order == LastN(Recency(history), MAX_RECENT_RESULTS)
  }

  lemma {:induction false} SnocDistinct(s: seq<Key>, k: Key)
    requires Distinct(s) && k !in s
    ensures Distinct(s + [k])
  {
  }

  lemma {:induction false} TouchKeepsTail(m: Memory, history: seq<Key>, k: Key)
    requires HoldsTail(m, history) && k in m.results
    ensures HoldsTail(Touch(m, k), history + [k])
  {
    hide Recency, LastN, Without;
    RecencyDistinct(history);
    RecencySnoc(history, k);
    TailHit(Recency(history), MAX_RECENT_RESULTS, k);
    WithoutDistinct(m.order, k);
    SnocDistinct(Without(m.order, k), k);
  }

  lemma {:induction false} StoreKeepsTail(m: Memory, history: seq<Key>, k: Key, r: FinalResponseResult)
    requires HoldsTail(m, history) && k !in m.results
    ensures HoldsTail(Store(m, k, r), history + [k])
  {
    hide Recency, LastN, Without;
    RecencyDistinct(history);
    RecencySnoc(history, k);
    TailMiss(Recency(history), MAX_RECENT_RESULTS, k);
    assert Without(m.order, k) == m.order;
    SnocDistinct(m.order, k);
    EvictKeepsCoherent(Touch(m.(results := m.results[k := r]), k));
  }

  lemma {:induction false} EmptyHoldsTail()
    ensures HoldsTail(EMPTY, [])
  {
  }

  lemma {:induction false} CountingKeepsTail(m: Memory, other: Memory, history: seq<Key>)
    requires HoldsTail(m, history) && other.order == m.order && other.results == m.results
    ensures HoldsTail(other, history)
  {
  }

  /** The cached keys, in order, are exactly the last 64 distinct keys of the access history. */
  lemma {:induction false} CacheIsRecencyTail(calls: seq<Call>)
    ensures HoldsTail(Run(calls), Accesses(calls))
  {
    hide HoldsTail, Touch, Store;
    if calls == [] {
      EmptyHoldsTail();
    } else {
      var front, c := calls[..|calls| - 1], calls[|calls| - 1];
      var m, h := Run(front), Accesses(front);
      CacheIsRecencyTail(front);
      if !Eligible(c) {
        assert Accesses(calls) == h;
      } else if c.key in m.results {
        TouchKeepsTail(m, h, c.key);
      } else {
        var judged := m.(verifierRuns := m.verifierRuns + 1, persisted := m.persisted + [VerdictOf(c.outcome)]);
        CountingKeepsTail(m, judged, h);
        StoreKeepsTail(judged, h, c.key, ResultOf(c.outcome));
      }
    }
  }

  /** A call is answered from the cache. */
  ghost predicate IsHit(calls: seq<Call>, i: nat)
    requires i < |calls|
  {
    Eligible(calls[i]) && calls[i].key in Run(calls[..i]).results
  }

  /** The key was used before, and fewer than 64 other keys have been used since. */
  ghost predicate RecentlyUsed(history: seq<Key>, k: Key) {
    exists at :: LastAccess(history, k, at) && |AccessedSince(history, at)| < MAX_RECENT_RESULTS
  }

  lemma {:induction false} LastAccessExists(history: seq<Key>, k: Key) returns (at: nat)
    requires k in history
    ensures LastAccess(history, k, at)
  {
    if history[|history| - 1] == k {
      at := |history| - 1;
    } else {
      assert history == history[..|history| - 1] + [history[|history| - 1]];
      at := LastAccessExists(history[..|history| - 1], k);
    }
  }

  /** A key is among the newest `n` entries exactly when fewer than `n` entries come after it. */
  lemma {:induction false} InTail(r: seq<Key>, n: nat, k: Key, pos: nat)
    requires Distinct(r) && pos < |r| && r[pos] == k
    ensures k in LastN(r, n) <==> |r| - 1 - pos < n
  {
    var tail := LastN(r, n);
    var offset := |r| - |tail|;
    assert forall i :: 0 <= i < |tail| ==> tail[i] == r[offset + i];
    if |r| - 1 - pos < n { assert tail[pos - offset] == k; }
  }

  lemma {:induction false} LastAccessUnique(history: seq<Key>, k: Key, at: nat)
    requires LastAccess(history, k, at)
    ensures forall other :: LastAccess(history, k, other) ==> other == at
  {
  }

  /** A response is answered from the cache if and only if its key's stack distance is below 64. */
  lemma {:induction false} HitIffRecentlyUsed(calls: seq<Call>, i: nat)
    requires i < |calls| && Eligible(calls[i])
    ensures IsHit(calls, i) <==> RecentlyUsed(Accesses(calls[..i]), calls[i].key)
  {
    hide Run, Accesses, LastN, AccessedSince;
    var k, h := calls[i].key, Accesses(calls[..i]);
    var r := Recency(h);
    CacheIsRecencyTail(calls[..i]);
    RecencyDistinct(h);
    hide Recency;
    if k in h {
      var at := LastAccessExists(h, k);
      var pos :| 0 <= pos < |r| && r[pos] == k;
      RecencyIsStackDistance(h, k, at, pos);
      InTail(r, MAX_RECENT_RESULTS, k, pos);
      LastAccessUnique(h, k, at);
    } else {
      var head := TailSplits(r, MAX_RECENT_RESULTS);
      assert k !in r;
    }
  }

  // ---- what a hit returns ----

  /** The verifier ran on call `j`. */
  ghost predicate IsMiss(calls: seq<Call>, j: nat)
    requires j < |calls|
  {
    Eligible(calls[j]) && !IsHit(calls, j)
  }

  ghost predicate LatestMiss(calls: seq<Call>, k: Key, j: nat) {
    && j < |calls| && calls[j].key == k && IsMiss(calls, j)
    && forall i :: j < i < |calls| && calls[i].key == k ==> !IsMiss(calls, i)
  }

  lemma {:induction false} MissPrefix(calls: seq<Call>, n: nat, j: nat)
    requires j < n <= |calls|
    ensures IsMiss(calls, j) <==> IsMiss(calls[..n], j)
  {
    assert calls[..n][..j] == calls[..j];
  }

  /** A call changes no cached result but the one it stores when the verifier runs. */
  lemma {:induction false} ResultsAfter(m: Memory, c: Call, k: Key)
    requires k in Respond(m, c).memory.results
    ensures Eligible(c) && c.key !in m.results && c.key == k
      ==> Respond(m, c).memory.results[k] == ResultOf(c.outcome)
    ensures !(Eligible(c) && c.key !in m.results && c.key == k)
      ==> k in m.results && Respond(m, c).memory.results[k] == m.results[k]
  {
  }

  lemma {:induction false} LatestMissExtends(calls: seq<Call>, k: Key, j: nat)
    requires calls != [] && LatestMiss(calls[..|calls| - 1], k, j)
    requires calls[|calls| - 1].key == k ==> !IsMiss(calls, |calls| - 1)
    ensures LatestMiss(calls, k, j)
  {
    hide IsMiss;
    var n := |calls| - 1;
    MissPrefix(calls, n, j);
    forall i | j < i < |calls| && calls[i].key == k ensures !IsMiss(calls, i) {
      if i < n {
        MissPrefix(calls, n, i);
        assert calls[..n][i].key == k;
      }
    }
  }

  /** Every cached result is the one produced by the latest run of the verifier for that key. */
  lemma {:induction false} CachedResultIsLatestMiss(calls: seq<Call>, k: Key) returns (j: nat)
    requires k in Run(calls).results
    ensures LatestMiss(calls, k, j) && Run(calls).results[k] == ResultOf(calls[j].outcome)
  {
    hide Respond, Eligible, ResultOf;
    var n := |calls| - 1;
    var front, c := calls[..n], calls[n];
    ResultsAfter(Run(front), c, k);
    if IsMiss(calls, n) && c.key == k {
      j := n;
    } else {
      j := CachedResultIsLatestMiss(front, k);
      LatestMissExtends(calls, k, j);
    }
  }

  /** A hit returns the result of the key's latest verifier run and neither runs nor records anything. */
  lemma {:induction false} HitReusesLatestMiss(calls: seq<Call>, i: nat) returns (j: nat)
    requires i < |calls| && IsHit(calls, i)
    ensures j < i && LatestMiss(calls[..i], calls[i].key, j)
    ensures var (before, reply) := (Run(calls[..i]), Respond(Run(calls[..i]), calls[i]));
      && reply.result == ResultOf(calls[j].outcome)
      && reply.memory.verifierRuns == before.verifierRuns && reply.memory.persisted == before.persisted
  {
    j := CachedResultIsLatestMiss(calls[..i], calls[i].key);
  }

  // ---- what each kind of call is answered ----

  /** What a run of the verifier answers: the remediation if it judged and blocked, and otherwise no change. */
  ghost predicate Answers(outcome: Outcome, r: FinalResponseResult) {
    && (outcome.Judged? && outcome.blocking.Some? ==> r == outcome.blocking.value)
    && (!outcome.Judged? || outcome.blocking.None? ==> r == FinalResponseResult(None, false, None))
  }

  /** A call without verifier, contract in progress or run changes neither memory nor response. */
  lemma {:induction false} IneligibleChangesNothing(m: Memory, c: Call)
    ensures !(c.hasVerifier && c.hasContract && c.contractInProgress && c.runId != "")
      <==> !Eligible(c)
    ensures !Eligible(c) ==> Respond(m, c) == Reply(m, FinalResponseResult(None, false, None))
  {
  }

  lemma {:induction false} StoreKeepsRecord(m: Memory, k: Key, r: FinalResponseResult)
    ensures Store(m, k, r).verifierRuns == m.verifierRuns && Store(m, k, r).persisted == m.persisted
  {
  }

  /** A miss answers what its own verifier run comes to, and records that run's verdict or fallback. */
  lemma {:induction false} MissAnswers(calls: seq<Call>, i: nat)
    requires i < |calls| && IsMiss(calls, i)
    ensures var (before, reply) := (Run(calls[..i]), Respond(Run(calls[..i]), calls[i]));
      && Answers(calls[i].outcome, reply.result)
      && reply.memory.verifierRuns == before.verifierRuns + 1
      && reply.memory.persisted == before.persisted + [match calls[i].outcome
           case TimedOut(fallback) => fallback
           case Failed(fallback) => fallback
           case Judged(verdict, _) => verdict]
  {
    hide Run, Store;
    var c := calls[i];
    var m := Run(calls[..i]);
    var judged := m.(verifierRuns := m.verifierRuns + 1, persisted := m.persisted + [VerdictOf(c.outcome)]);
    StoreKeepsRecord(judged, c.key, ResultOf(c.outcome));
  }

  /** A hit answers what the key's latest verifier run came to. */
  lemma {:induction false} HitAnswers(calls: seq<Call>, i: nat) returns (j: nat)
    requires i < |calls| && IsHit(calls, i)
    ensures j < i && LatestMiss(calls[..i], calls[i].key, j)
    ensures Answers(calls[j].outcome, Respond(Run(calls[..i]), calls[i]).result)
  {
    j := HitReusesLatestMiss(calls, i);
  }

  /** The verdicts of the calls the verifier ran on, in order. */
  ghost function MissVerdicts(calls: seq<Call>, n: nat): seq<string>
    requires n <= |calls|
  {
    if n == 0 then []
    else MissVerdicts(calls, n - 1) + if IsMiss(calls, n - 1) then [VerdictOf(calls[n - 1].outcome)] else []
  }

  /** Exactly one verdict goes on record per verifier run, and the verifier runs exactly on the misses. */
  lemma {:induction false} OneVerdictPerMiss(calls: seq<Call>, n: nat)
    requires n <= |calls|
    ensures Run(calls[..n]).persisted == MissVerdicts(calls, n)
    ensures Run(calls[..n]).verifierRuns == |MissVerdicts(calls, n)|
  {
    if n > 0 {
      OneVerdictPerMiss(calls, n - 1);
      assert calls[..n][..n - 1] == calls[..n - 1];
    }
  }
}
