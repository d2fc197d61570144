/** The fix-task chain counter of packages/workflows/src/activities/rollback.ts:
    a Redis counter per root task, keyed `task:chain:<rootId>`, incremented
    each time a fix task is created for that root and read by the loop guard.
    The Redis store is a map from key to counter; INCR is atomic, so any
    interleaving of concurrent creations is one of the sequential orders
    modelled here. */
module FixChain {
  import opened Wrappers
  import opened Strings

  /** Expiry re-applied to a chain key on every increment: seven days. */
  const ChainTtlSeconds: nat := 7 * 24 * 60 * 60

  /** Chain depth from which a fix run counts as a loop. */
  const LoopThreshold: nat := 2

  /** A stored counter and the expiry last set on it. */
  datatype Counter = Counter(value: nat, ttlSeconds: nat)

  type Store = map<string, Counter>

  datatype FixTaskRequest = FixTaskRequest(
    originalTaskId: string,
    originalTaskTitle: string,
    error: string,
    commitSha: Option<string>)

  datatype FixTaskResult = FixTaskResult(fixTaskId: string, chainDepth: nat)

  datatype LoopCheck = LoopCheck(isLoop: bool, chainDepth: nat)

  function ChainKey(rootId: string): string {
    "task:chain:" + rootId
  }

  /** Different roots never share a counter. */
  lemma ChainKeyInjective(a: string, b: string)
    requires ChainKey(a) == ChainKey(b)
    ensures a == b
  {
    assert a == ChainKey(a)[11..];
    assert b == ChainKey(b)[11..];
  }

  /** The depth recorded for a root; an absent key reads as 0. */
  function Depth(store: Store, rootId: string): nat {
    var key := ChainKey(rootId);
    if key in store then store[key].value else 0
  }

  function FixTaskId(rootId: string, depth: nat): string {
    "fix-" + rootId + "-" + NatToString(depth)
  }

  /** For one root, different depths give different fix-task ids. */
  lemma FixTaskIdInjective(rootId: string, a: nat, b: nat)
    requires FixTaskId(rootId, a) == FixTaskId(rootId, b)
    ensures a == b
  {
    var prefix := "fix-" + rootId + "-";
    assert FixTaskId(rootId, a) == prefix + NatToString(a);
    assert FixTaskId(rootId, b) == prefix + NatToString(b);
    assert NatToString(a) == FixTaskId(rootId, a)[|prefix|..];
    assert NatToString(b) == FixTaskId(rootId, b)[|prefix|..];
    NatToStringInjective(a, b);
  }

  /** `createFixTask`: INCR the root's key, set its expiry to seven days, and
      name the fix task after the new depth. */
  function CreateFixTask(store: Store, request: FixTaskRequest): (r: (Store, FixTaskResult))
    ensures r.1.chainDepth == Depth(store, request.originalTaskId) + 1
    ensures Depth(r.0, request.originalTaskId) == r.1.chainDepth
    ensures ChainKey(request.originalTaskId) in r.0
    ensures r.0[ChainKey(request.originalTaskId)].ttlSeconds == ChainTtlSeconds
    ensures r.0.Keys == store.Keys + {ChainKey(request.originalTaskId)}
    ensures forall k | k in store && k != ChainKey(request.originalTaskId) :: r.0[k] == store[k]
    ensures r.1.fixTaskId == FixTaskId(request.originalTaskId, r.1.chainDepth)
  {
    var key := ChainKey(request.originalTaskId);
    var depth := Depth(store, request.originalTaskId) + 1;
    (store[key := Counter(depth, ChainTtlSeconds)], FixTaskResult(FixTaskId(request.originalTaskId, depth), depth))
  }

  /** `checkFixTaskLoop`: read the root's depth (0 when absent) and report a
      loop from depth 2 on. It takes the store and returns none: it is
      read-only. */
  function CheckFixTaskLoop(store: Store, rootId: string): (r: LoopCheck)
    ensures r.chainDepth == Depth(store, rootId)
    ensures ChainKey(rootId) !in store ==> r.chainDepth == 0 && !r.isLoop
    ensures r.isLoop <==> r.chainDepth >= LoopThreshold
  {
    var depth := Depth(store, rootId);
    LoopCheck(depth >= LoopThreshold, depth)
  }

  /** Creating a fix task for one root leaves every other root's depth and
      loop check as they were. */
  lemma CreateFixTaskIsolated(store: Store, request: FixTaskRequest, other: string)
    requires other != request.originalTaskId
    ensures Depth(CreateFixTask(store, request).0, other) == Depth(store, other)
    ensures CheckFixTaskLoop(CreateFixTask(store, request).0, other) == CheckFixTaskLoop(store, other)
  {
    if ChainKey(other) == ChainKey(request.originalTaskId) {
      ChainKeyInjective(other, request.originalTaskId);
    }
  }

  /** Two fix tasks created for a root, from any prior state, make the next
      loop check for that root report a loop; a single one from a fresh root
      does not. */
  lemma SecondFixTaskTripsGuard(store: Store, first: FixTaskRequest, second: FixTaskRequest)
    requires first.originalTaskId == second.originalTaskId
    ensures var s1 := CreateFixTask(store, first).0;
            var s2 := CreateFixTask(s1, second).0;
            CheckFixTaskLoop(s2, first.originalTaskId).isLoop
    ensures Depth(store, first.originalTaskId) == 0 ==>
              !CheckFixTaskLoop(CreateFixTask(store, first).0, first.originalTaskId).isLoop
  {
  }

  /** `n` successive fix-task creations for one root: the depths run
      d+1, d+2, ..., d+n from the starting depth d, and the ids are pairwise
      distinct. */
  method CreateFixTasks(store: Store, request: FixTaskRequest, n: nat)
    returns (final: Store, results: seq<FixTaskResult>)
    ensures |results| == n
    ensures Depth(final, request.originalTaskId) == Depth(store, request.originalTaskId) + n
    ensures forall i | 0 <= i < n ::
              results[i].chainDepth == Depth(store, request.originalTaskId) + i + 1
    ensures forall i, j | 0 <= i < j < n :: results[i].fixTaskId != results[j].fixTaskId
  {
    var d0 := Depth(store, request.originalTaskId);
    final := store;
    results := [];
    while |results| < n
      invariant |results| <= n
      invariant Depth(final, request.originalTaskId) == d0 + |results|
      invariant forall i | 0 <= i < |results| :: results[i].chainDepth == d0 + i + 1
      invariant forall i | 0 <= i < |results| ::
                  results[i].fixTaskId == FixTaskId(request.originalTaskId, results[i].chainDepth)
    {
      var step := CreateFixTask(final, request);
      final := step.0;
      results := results + [step.1];
    }
    forall i, j | 0 <= i < j < n
      ensures results[i].fixTaskId != results[j].fixTaskId
    {
      if results[i].fixTaskId == results[j].fixTaskId {
        FixTaskIdInjective(request.originalTaskId, results[i].chainDepth, results[j].chainDepth);
      }
    }
  }
}
