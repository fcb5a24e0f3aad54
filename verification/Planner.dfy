/** Pruning: the least set of requests that holds every replayable one and is closed under send dependencies. */
module RequiredRequests {
  import opened AscendingIds
  import opened Indexing
  import opened ReplaySchema

  function RequestKey(): Request -> Key { (q: Request) => q.key }

  ghost predicate DistinctRequests(requests: seq<Request>) {
    DistinctBy(requests, RequestKey())
  }

  function ByKey(requests: seq<Request>): map<Key, Request> {
    IndexBy(requests, RequestKey())
  }

  lemma ByKeyFacts(requests: seq<Request>)
    requires DistinctRequests(requests)
    ensures forall i | 0 <= i < |requests| ::
      requests[i].key in ByKey(requests) && ByKey(requests)[requests[i].key] == requests[i]
    ensures forall k | k in ByKey(requests) :: exists i :: 0 <= i < |requests| && requests[i].key == k
  {
    IndexByFacts(requests, RequestKey());
    forall k | k in ByKey(requests) ensures exists i :: 0 <= i < |requests| && requests[i].key == k {
      var i :| 0 <= i < |requests| && RequestKey()(requests[i]) == k;
      assert requests[i].key == k;
    }
  }

  /** Every send reference names a request of the session. */
  ghost predicate SendsResolve(byKey: map<Key, Request>) {
    forall k | k in byKey && byKey[k].sendAfter.Some? :: byKey[k].sendAfter.value in byKey
  }

  ghost predicate HoldsRequests(byKey: map<Key, Request>, s: set<Key>) {
    forall k | k in byKey && byKey[k].isRequest :: k in s
  }

  ghost predicate ClosedUnderSend(byKey: map<Key, Request>, s: set<Key>) {
    forall k | k in s && k in byKey && byKey[k].sendAfter.Some? :: byKey[k].sendAfter.value in s
  }

  /** `s` is the least closed set that holds every replayable request. */
  ghost predicate IsRequired(byKey: map<Key, Request>, s: set<Key>) {
    && s <= byKey.Keys && HoldsRequests(byKey, s) && ClosedUnderSend(byKey, s)
    && forall t: set<Key> | HoldsRequests(byKey, t) && ClosedUnderSend(byKey, t) :: s <= t
  }

  method RequiredKeys(requests: seq<Request>) returns (required: set<Key>)
    requires DistinctRequests(requests) && SendsResolve(ByKey(requests))
    ensures IsRequired(ByKey(requests), required)
  {
    var byKey := ByKey(requests);
    required := set k | k in byKey && byKey[k].isRequest;
    var frontier := required;
    forall t: set<Key> | HoldsRequests(byKey, t) ensures required <= t {
      forall k | k in required ensures k in t { assert byKey[k].isRequest; }
    }
    while frontier != {}
      invariant frontier <= required <= byKey.Keys && HoldsRequests(byKey, required)
      invariant ClosedBut(byKey, required, frontier)
      invariant forall t: set<Key> | HoldsRequests(byKey, t) && ClosedUnderSend(byKey, t) :: required <= t
      decreases byKey.Keys - required, frontier
    {
      var k := PickAny(frontier);
      frontier := frontier - {k};
      var predecessor := byKey[k].sendAfter;
      if predecessor.Some? && predecessor.value !in required {
        required := required + {predecessor.value};
        frontier := frontier + {predecessor.value};
      }
    }
  }

  /** Closed under send dependencies, except for the keys still on the frontier. */
  ghost predicate ClosedBut(byKey: map<Key, Request>, s: set<Key>, frontier: set<Key>) {
    forall k | k in s && k in byKey && k !in frontier && byKey[k].sendAfter.Some? :: byKey[k].sendAfter.value in s
  }
}

/** Task plans: context modes, intervals, and the nodes they are stored in. */
module TaskPlanning {
  import opened Wrappers
  import opened Arithmetic
  import opened Sequences
  import opened ReplaySchema
  import opened SessionMeaning
  import opened RequiredRequests

  type RuntimeId = int

  datatype Shape = AGENTINFER | INFERACT | TRACELAB | AGENTX

  datatype ContextMode = NO_CONTEXT | INDEPENDENT | APPEND | TRIM | RESET

  /** The configuration fields the structural planner reads. The extra system tokens of a request are a
      deterministic function of its key and role. */
  datatype Config = Config(
    shape: Shape, strict: bool, usesTokenIds: bool, gapScale: real, gapOffset: real,
    microTrimTokens: nat, microTrimRatio: real, extraSystemTokens: (Key, Role) -> nat)

  datatype Node = Node(
    runtimeId: RuntimeId, key: Key, status: Status, recipeKey: Key, isRequest: bool, promptKind: PromptKind,
    actor: ActorId, sendAfter: Option<Key>, contextAfter: Option<Key>, mode: ContextMode,
    interval: real, duration: Option<int>, input: Option<int>, output: Option<int>, prefix: Option<int>)

  datatype PlanError = MISSING_INTERVAL | MISSING_TARGET

  type Targets = map<Key, (Option<int>, Option<int>)>

  /** Microseconds as seconds. */
  function Seconds(us: int): real {
    us as real / 1000000.0
  }

  function Ceiling(x: real): int {
    -((-x).Floor)
  }

  function MicroTrimLimit(c: Config, target: int): int {
    Max(c.microTrimTokens, Ceiling(target as real * c.microTrimRatio))
  }

  function ContextPlan(c: Config, q: Request, targets: Targets): Result<(Option<Key>, ContextMode), PlanError> {
    if !q.isRequest then Ok((q.contextAfter, NO_CONTEXT))
    else if c.shape in {INFERACT, TRACELAB} then
      Ok(if q.contextAfter.None? then (None, INDEPENDENT) else (q.contextAfter, APPEND))
    else if q.contextAfter.None? || ContextFree(q.promptKind) then Ok((None, INDEPENDENT))
    else if c.strict then Ok((q.contextAfter, APPEND))
    else
      var k := q.contextAfter.value;
      if q.key !in targets || k !in targets then Err(MISSING_TARGET)
      else
        var target, context := targets[q.key].0, targets[k];
        if target.None? || context.0.None? || context.1.None? then Err(MISSING_TARGET)
        else
          var extra := if c.usesTokenIds then c.extraSystemTokens(q.key, q.role) else 0;
          var deficit := Max(0, context.0.value + context.1.value + extra - target.value);
          if deficit == 0 then Ok((q.contextAfter, APPEND))
          else if deficit <= MicroTrimLimit(c, target.value) then Ok((q.contextAfter, TRIM))
          else Ok((None, RESET))
  }

  /** `effective_interval_seconds` in trace mode. */
  function EffectiveInterval(c: Config, q: Request): Result<real, PlanError> {
    if q.sendAfter.None? && q.delay == 0 then Ok(0.0)
    else if q.dependency != SAME_AGENT then Ok(Seconds(q.delay))
    else if q.sameAgentGap.None? then Err(MISSING_INTERVAL)
    else
      var scaled := Seconds(q.sameAgentGap.value) * c.gapScale + c.gapOffset;
      Ok(if scaled < 0.0 then 0.0 else scaled)
  }

  function TargetsOf(requests: seq<Request>): Targets {
    var byKey := ByKey(requests);
    map k | k in byKey :: (byKey[k].input, byKey[k].output)
  }

  /** A hash snapshot without recorded output still generates one token. */
  function PlannedOutput(c: Config, q: Request): Option<int> {
    if c.shape == AGENTX && q.output == Some(0) then Some(1) else q.output
  }

  function NodeOf(c: Config, q: Request, targets: Targets, runtimeId: RuntimeId): Result<Node, PlanError> {
    match ContextPlan(c, q, targets)
    case Err(e) => Err(e)
    case Ok((context, mode)) =>
      match EffectiveInterval(c, q)
      case Err(e) => Err(e)
      case Ok(interval) =>
        Ok(Node(runtimeId, q.key, q.status, q.recipeKey, q.isRequest, q.promptKind, q.actor, q.sendAfter, context, mode,
                interval, if q.isRequest then None else Some(q.finished - q.started), q.input, PlannedOutput(c, q),
                if c.shape == TRACELAB then q.cached else None))
  }

  function InKeys(keys: set<Key>): Request -> bool {
    (q: Request) => q.key in keys
  }

  /** One sampled session becomes one node per required request, in session order. */
  method TaskPlan(c: Config, requests: seq<Request>, runtimeId: Key -> RuntimeId)
    returns (r: Result<seq<Node>, PlanError>)
    requires DistinctRequests(requests) && SendsResolve(ByKey(requests))
    ensures exists keys ::
      IsRequired(ByKey(requests), keys) && PlannedAs(c, Filter(requests, InKeys(keys)), runtimeId, r)
  {
    var keys := RequiredKeys(requests);
    var kept := Filter(requests, InKeys(keys));
    var targets := TargetsOf(kept);
    var nodes: seq<Node> := [];
    for n := 0 to |kept|
      invariant |nodes| == n
      invariant forall i | 0 <= i < n :: NodeOf(c, kept[i], targets, runtimeId(kept[i].key)) == Ok(nodes[i])
    {
      var node := NodeOf(c, kept[n], targets, runtimeId(kept[n].key));
      if node.Err? {
        assert PlannedAs(c, kept, runtimeId, Err(node.error));
        return Err(node.error);
      }
      nodes := nodes + [node.value];
    }
    r := Ok(nodes);
    assert PlannedAs(c, kept, runtimeId, r);
  }

  /** The outcome is the node list, or the first error met. */
  ghost predicate PlannedAs(c: Config, kept: seq<Request>, runtimeId: Key -> RuntimeId,
                            r: Result<seq<Node>, PlanError>) {
    match r
    case Ok(nodes) =>
      |nodes| == |kept|
      && forall i | 0 <= i < |kept| :: NodeOf(c, kept[i], TargetsOf(kept), runtimeId(kept[i].key)) == Ok(nodes[i])
    case Err(e) =>
      exists i :: 0 <= i < |kept| && NodeOf(c, kept[i], TargetsOf(kept), runtimeId(kept[i].key)) == Err(e)
        && forall j | 0 <= j < i :: NodeOf(c, kept[j], TargetsOf(kept), runtimeId(kept[j].key)).Ok?
  }

  // ---- what pruning keeps of an analyzed session

  /** Every present reference of `ref` names an earlier request. */
  ghost predicate BackRefs(requests: seq<Request>, ref: Request -> Option<Key>) {
    forall i | 0 <= i < |requests| && ref(requests[i]).Some? :: RefersBack(requests, i, ref(requests[i]).value)
  }

  function SendRef(): Request -> Option<Key> { (q: Request) => q.sendAfter }

  function ContextRef(): Request -> Option<Key> { (q: Request) => q.contextAfter }

  /** Order-preserving pruning keeps backward references backward, provided their targets survive. */
  lemma {:induction false} PruneKeepsOrder(requests: seq<Request>, keys: set<Key>, ref: Request -> Option<Key>)
    requires BackRefs(requests, ref)
    requires forall i | 0 <= i < |requests| && requests[i].key in keys && ref(requests[i]).Some? ::
      ref(requests[i]).value in keys
    ensures BackRefs(Filter(requests, InKeys(keys)), ref)
  {
    if requests != [] {
      var init, last := requests[..|requests| - 1], requests[|requests| - 1];
      forall i | 0 <= i < |init| && ref(init[i]).Some? ensures RefersBack(init, i, ref(init[i]).value) {
        assert init[i] == requests[i];
        var j :| 0 <= j < i && j < |requests| && requests[j].key == ref(requests[i]).value;
        assert init[j] == requests[j];
      }
      assert forall i | 0 <= i < |init| :: init[i] == requests[i];
      PruneKeepsOrder(init, keys, ref);
      var head, kept := Filter(init, InKeys(keys)), Filter(requests, InKeys(keys));
      assert head <= kept;
      forall i | 0 <= i < |kept| && ref(kept[i]).Some? ensures RefersBack(kept, i, ref(kept[i]).value) {
        if i < |head| {
          assert head[i] == kept[i];
          var j :| 0 <= j < i && j < |head| && head[j].key == ref(head[i]).value;
          assert kept[j] == head[j];
        } else {
          var j :| 0 <= j < |init| && requests[j].key == ref(last).value;
          FilterMembers(init, InKeys(keys));
          assert init[j] in init && InKeys(keys)(init[j]);
          var m :| 0 <= m < |head| && head[m] == init[j];
          assert kept[m] == head[m];
        }
      }
    }
  }
}
