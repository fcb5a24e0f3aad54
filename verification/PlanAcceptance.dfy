/** The validator accepts whatever the planner makes of an analyzed session. */
module PlanAcceptance {
  import opened Wrappers
  import opened Sequences
  import opened Indexing
  import opened ReplaySchema
  import opened SessionMeaning
  import opened RequiredRequests
  import opened TaskPlanning
  import opened AcyclicCheck
  import opened PlanValidation

  // ---- pruning keeps a session well formed

  lemma SessionIsIndexed(requests: seq<Request>)
    requires SessionOk(requests)
    ensures DistinctRequests(requests) && SendsResolve(ByKey(requests))
  {
    assert DistinctRequests(requests);
    ByKeyFacts(requests);
    forall k | k in ByKey(requests) && ByKey(requests)[k].sendAfter.Some?
      ensures ByKey(requests)[k].sendAfter.value in ByKey(requests) {
      var i :| 0 <= i < |requests| && requests[i].key == k;
      assert SessionRequestOk(requests, i);
      var j :| 0 <= j < i && requests[j].key == requests[i].sendAfter.value;
    }
  }

  /** The position of a kept request, and that no other position carries its key. */
  lemma KeptPosition(requests: seq<Request>, keys: set<Key>, j: nat) returns (m: nat)
    requires DistinctRequests(requests) && j < |requests| && requests[j].key in keys
    ensures var kept := Filter(requests, InKeys(keys));
      m < |kept| && kept[m] == requests[j] && forall n | 0 <= n < |kept| && kept[n].key == requests[j].key :: n == m
  {
    var kept := Filter(requests, InKeys(keys));
    FilterMembers(requests, InKeys(keys));
    FilterDistinctBy(requests, RequestKey(), InKeys(keys));
    assert requests[j] in requests && InKeys(keys)(requests[j]);
    m :| 0 <= m < |kept| && kept[m] == requests[j];
    forall n | 0 <= n < |kept| && kept[n].key == requests[j].key ensures n == m {
      assert RequestKey()(kept[n]) == RequestKey()(kept[m]);
    }
  }

  /** Send and context targets are never pruned. */
  lemma TargetsSurvive(requests: seq<Request>, keys: set<Key>, i: nat)
    requires SessionOk(requests) && IsRequired(ByKey(requests), keys) && i < |requests| && requests[i].key in keys
    ensures requests[i].sendAfter.Some? ==> requests[i].sendAfter.value in keys
    ensures requests[i].contextAfter.Some? ==> requests[i].contextAfter.value in keys
    ensures requests[i].recipeKey in keys
  {
    SessionIsIndexed(requests);
    ByKeyFacts(requests);
    var q := requests[i];
    assert ByKey(requests)[q.key] == q && SessionRequestOk(requests, i);
    if q.contextAfter.Some? {
      var j :| 0 <= j < |requests| && ContextTarget(requests, i, j, q.contextAfter.value);
      assert ByKey(requests)[requests[j].key].isRequest;
    }
    if q.recipeKey != q.key {
      var j :| 0 <= j < |requests| && requests[j].key == q.recipeKey && requests[j].isRequest;
      assert ByKey(requests)[requests[j].key].isRequest;
    }
  }

  lemma KeptRequestOk(requests: seq<Request>, keys: set<Key>, m: nat)
    requires SessionOk(requests) && IsRequired(ByKey(requests), keys)
    requires BackRefs(Filter(requests, InKeys(keys)), SendRef())
      && BackRefs(Filter(requests, InKeys(keys)), ContextRef())
    requires m < |Filter(requests, InKeys(keys))|
    ensures SessionRequestOk(Filter(requests, InKeys(keys)), m)
  {
    var kept := Filter(requests, InKeys(keys));
    var q := kept[m];
    SessionIsIndexed(requests);
    FilterMembers(requests, InKeys(keys));
    assert q in kept && q in requests && InKeys(keys)(q);
    var i :| 0 <= i < |requests| && requests[i] == q;
    assert SessionRequestOk(requests, i);
    TargetsSurvive(requests, keys, i);
    hide SessionOk, IsRequired, Filter, ByKey;
    assert q.sendAfter.Some? ==> RefersBack(kept, m, SendRef()(q).value);
    assert q.contextAfter.Some? ==> RefersBack(kept, m, ContextRef()(q).value);
    hide BackRefs, RefersBack, DistinctRequests, ContextTarget;
    if q.contextAfter.Some? { KeptContext(requests, keys, i, m); }
    if q.recipeKey != q.key { KeptRecipe(requests, keys, q.recipeKey); }
  }

  lemma KeptRecipe(requests: seq<Request>, keys: set<Key>, k: Key)
    requires DistinctRequests(requests) && k in keys
    requires exists j :: 0 <= j < |requests| && requests[j].key == k && requests[j].isRequest
    ensures var kept := Filter(requests, InKeys(keys));
      exists n :: 0 <= n < |kept| && kept[n].key == k && kept[n].isRequest
  {
    hide Filter, DistinctRequests;
    var j :| 0 <= j < |requests| && requests[j].key == k && requests[j].isRequest;
    var n := KeptPosition(requests, keys, j);
    assert Filter(requests, InKeys(keys))[n].key == k;
  }

  lemma KeptContext(requests: seq<Request>, keys: set<Key>, i: nat, m: nat)
    requires DistinctRequests(requests) && i < |requests| && m < |Filter(requests, InKeys(keys))|
    requires Filter(requests, InKeys(keys))[m] == requests[i] && requests[i].contextAfter.Some?
    requires exists j :: 0 <= j < |requests| && ContextTarget(requests, i, j, requests[i].contextAfter.value)
    requires requests[i].contextAfter.value in keys
    requires RefersBack(Filter(requests, InKeys(keys)), m, requests[i].contextAfter.value)
    ensures var kept := Filter(requests, InKeys(keys));
      exists n :: 0 <= n < |kept| && ContextTarget(kept, m, n, requests[i].contextAfter.value)
  {
    hide Filter, DistinctRequests;
    var j :| 0 <= j < |requests| && ContextTarget(requests, i, j, requests[i].contextAfter.value);
    var n := KeptPosition(requests, keys, j);
    assert ContextTarget(Filter(requests, InKeys(keys)), m, n, requests[i].contextAfter.value);
  }

  lemma PrunedSessionOk(requests: seq<Request>, keys: set<Key>)
    requires SessionOk(requests) && IsRequired(ByKey(requests), keys)
    ensures SessionOk(Filter(requests, InKeys(keys)))
  {
    var kept := Filter(requests, InKeys(keys));
    forall i | 0 <= i < |requests| && requests[i].key in keys ensures TargetsKept(requests, keys, i) {
      TargetsSurvive(requests, keys, i);
    }
    BackwardReferences(requests);
    PruneKeepsOrder(requests, keys, SendRef());
    PruneKeepsOrder(requests, keys, ContextRef());
    SessionIsIndexed(requests);
    FilterDistinctBy(requests, RequestKey(), InKeys(keys));
    forall m | 0 <= m < |kept| ensures SessionRequestOk(kept, m) {
      KeptRequestOk(requests, keys, m);
    }
    forall i, j | 0 <= i < j < |kept| ensures kept[i].key != kept[j].key {
      assert RequestKey()(kept[i]) != RequestKey()(kept[j]);
    }
  }

  ghost predicate TargetsKept(requests: seq<Request>, keys: set<Key>, i: nat)
    requires i < |requests|
  {
    && (requests[i].sendAfter.Some? ==> requests[i].sendAfter.value in keys)
    && (requests[i].contextAfter.Some? ==> requests[i].contextAfter.value in keys)
  }

  lemma BackwardReferences(requests: seq<Request>)
    requires SessionOk(requests)
    ensures BackRefs(requests, SendRef()) && BackRefs(requests, ContextRef())
  {
    forall i | 0 <= i < |requests|
      ensures requests[i].sendAfter.Some? ==> RefersBack(requests, i, requests[i].sendAfter.value)
      ensures requests[i].contextAfter.Some? ==> RefersBack(requests, i, requests[i].contextAfter.value)
    {
      assert SessionRequestOk(requests, i);
      if requests[i].contextAfter.Some? {
        var j :| 0 <= j < |requests| && ContextTarget(requests, i, j, requests[i].contextAfter.value);
      }
    }
  }

  // ---- planning never fails

  lemma TargetsFacts(requests: seq<Request>)
    requires DistinctRequests(requests)
    ensures forall i | 0 <= i < |requests| ::
      requests[i].key in TargetsOf(requests)
        && TargetsOf(requests)[requests[i].key] == (requests[i].input, requests[i].output)
  {
    ByKeyFacts(requests);
  }

  /** The node a request becomes; in particular no interval and no token target is ever missing. */
  lemma NodePlanned(c: Config, requests: seq<Request>, i: nat, id: RuntimeId)
    requires SessionOk(requests) && i < |requests|
    ensures NodeOf(c, requests[i], TargetsOf(requests), id).Ok?
    ensures var n := NodeOf(c, requests[i], TargetsOf(requests), id).value;
      && n.interval >= 0.0
      && (n.contextAfter.Some? ==> n.contextAfter == requests[i].contextAfter)
      && (n.mode in {INDEPENDENT, RESET} ==> n.contextAfter.None?)
      && (n.mode in {APPEND, TRIM} ==> n.contextAfter.Some?)
      && (n.isRequest ==> n.mode != NO_CONTEXT)
  {
    ContextPlanned(c, requests, i);
    IntervalPlanned(c, requests, i);
    hide SessionOk, ContextPlan, EffectiveInterval, TargetsOf;
  }

  lemma IntervalPlanned(c: Config, requests: seq<Request>, i: nat)
    requires SessionOk(requests) && i < |requests|
    ensures EffectiveInterval(c, requests[i]).Ok? && EffectiveInterval(c, requests[i]).value >= 0.0
  {
    assert SessionRequestOk(requests, i);
  }

  lemma ContextPlanned(c: Config, requests: seq<Request>, i: nat)
    requires SessionOk(requests) && i < |requests|
    ensures var r := ContextPlan(c, requests[i], TargetsOf(requests));
      && r.Ok?
      && (r.value.0.Some? ==> r.value.0 == requests[i].contextAfter)
      && (r.value.1 in {INDEPENDENT, RESET} ==> r.value.0.None?)
      && (r.value.1 in {APPEND, TRIM} ==> r.value.0.Some?)
      && (requests[i].isRequest ==> r.value.1 != NO_CONTEXT)
  {
    var q := requests[i];
    assert SessionRequestOk(requests, i);
    SessionIsIndexed(requests);
    TargetsFacts(requests);
    if q.contextAfter.Some? {
      var j :| 0 <= j < |requests| && ContextTarget(requests, i, j, q.contextAfter.value);
      assert SessionRequestOk(requests, j);
      assert TargetsOf(requests)[q.contextAfter.value] == (requests[j].input, requests[j].output);
    }
    hide TargetsOf, MicroTrimLimit, SessionOk;
  }

  /** With the default scale and offset, every interval is exactly the recorded delay. */
  lemma DefaultIntervalsAreDelays(c: Config, requests: seq<Request>, i: nat)
    requires SessionOk(requests) && i < |requests| && c.gapScale == 1.0 && c.gapOffset == 0.0
    ensures EffectiveInterval(c, requests[i]) == Ok(Seconds(requests[i].delay))
  {
    assert SessionRequestOk(requests, i);
  }

  // ---- what the executor relies on

  ghost predicate NodeRefersBack(nodes: seq<Node>, i: nat, k: Key) {
    exists j :: 0 <= j < i && j < |nodes| && nodes[j].key == k
  }

  /** Send and context references both point strictly earlier in plan order. */
  ghost predicate PlanOrdered(nodes: seq<Node>) {
    && (forall i | 0 <= i < |nodes| && nodes[i].sendAfter.Some? :: NodeRefersBack(nodes, i, nodes[i].sendAfter.value))
    && (forall i | 0 <= i < |nodes| && nodes[i].contextAfter.Some? ::
        NodeRefersBack(nodes, i, nodes[i].contextAfter.value))
  }

  lemma {:induction false} OrderedReachesRoot(nodes: seq<Node>, i: nat)
    requires DistinctBy(nodes, NodeKey()) && PlanOrdered(nodes) && i < |nodes|
    ensures ReachesRoot(SendLinks(nodes), nodes[i].key)
    decreases i
  {
    IndexByFacts(nodes, NodeKey());
    assert NodeMap(nodes)[NodeKey()(nodes[i])] == nodes[i];
    assert SendLinks(nodes)[nodes[i].key] == nodes[i].sendAfter;
    if nodes[i].sendAfter.Some? {
      var j :| 0 <= j < i && j < |nodes| && nodes[j].key == nodes[i].sendAfter.value;
      OrderedReachesRoot(nodes, j);
      RootThroughNext(SendLinks(nodes), nodes[i].key);
    } else {
      assert RootWithin(SendLinks(nodes), nodes[i].key, 0);
    }
  }

  /** Orderedness is more than the validator asks for: it implies that every send chain ends. */
  lemma OrderedIsAcyclic(nodes: seq<Node>)
    requires DistinctBy(nodes, NodeKey()) && PlanOrdered(nodes)
    ensures AllReach(SendLinks(nodes), SendLinks(nodes).Keys)
  {
    IndexByFacts(nodes, NodeKey());
    forall k | k in SendLinks(nodes) ensures ReachesRoot(SendLinks(nodes), k) {
      var i :| 0 <= i < |nodes| && NodeKey()(nodes[i]) == k;
      OrderedReachesRoot(nodes, i);
    }
  }

  /** Distinct keys get distinct runtime ids: what the name-based identifiers are relied on for. */
  ghost predicate Injective(runtimeId: Key -> RuntimeId) {
    forall a, b | runtimeId(a) == runtimeId(b) :: a == b
  }

  ghost predicate NodesOf(c: Config, kept: seq<Request>, runtimeId: Key -> RuntimeId, nodes: seq<Node>) {
    && |nodes| == |kept|
    && forall i | 0 <= i < |kept| :: NodeOf(c, kept[i], TargetsOf(kept), runtimeId(kept[i].key)) == Ok(nodes[i])
  }

  lemma NodesDistinct(c: Config, kept: seq<Request>, runtimeId: Key -> RuntimeId, nodes: seq<Node>)
    requires SessionOk(kept) && NodesOf(c, kept, runtimeId, nodes) && Injective(runtimeId)
    ensures DistinctBy(nodes, NodeKey()) && DistinctBy(nodes, NodeId())
    ensures forall i | 0 <= i < |nodes| :: nodes[i].key in NodeMap(nodes) && NodeMap(nodes)[nodes[i].key] == nodes[i]
  {
    forall i | 0 <= i < |nodes| ensures nodes[i].key == kept[i].key && nodes[i].runtimeId == runtimeId(kept[i].key) {
      NodePlanned(c, kept, i, runtimeId(kept[i].key));
    }
    IndexByFacts(nodes, NodeKey());
    forall i | 0 <= i < |nodes| ensures nodes[i].key in NodeMap(nodes) && NodeMap(nodes)[nodes[i].key] == nodes[i] {
      assert NodeKey()(nodes[i]) == nodes[i].key;
    }
  }

  /** What a node copies from its request. */
  lemma NodeFields(c: Config, kept: seq<Request>, runtimeId: Key -> RuntimeId, nodes: seq<Node>, j: nat)
    requires NodesOf(c, kept, runtimeId, nodes) && j < |nodes|
    ensures var n, q := nodes[j], kept[j];
      && NodeOf(c, q, TargetsOf(kept), runtimeId(q.key)) == Ok(n)
      && n.key == q.key && n.actor == q.actor && n.status == q.status && n.isRequest == q.isRequest
      && n.sendAfter == q.sendAfter && n.recipeKey == q.recipeKey && n.input == q.input
        && n.output == PlannedOutput(c, q)
      && (c.shape != TRACELAB ==> n.prefix == None)
  {
    assert NodeOf(c, kept[j], TargetsOf(kept), runtimeId(kept[j].key)) == Ok(nodes[j]);
  }

  lemma NodeAccepted(c: Config, kept: seq<Request>, runtimeId: Key -> RuntimeId, nodes: seq<Node>, i: nat,
                     decimal: Key -> bool)
    requires SessionFits(c.shape, decimal, kept) && NodesOf(c, kept, runtimeId, nodes) && i < |nodes|
    requires forall j | 0 <= j < |nodes| :: nodes[j].key in NodeMap(nodes) && NodeMap(nodes)[nodes[j].key] == nodes[j]
    ensures NodeValid(NodeMap(nodes), nodes[i], ChecksOf(c.shape, decimal))
    ensures nodes[i].sendAfter.Some? ==> NodeRefersBack(nodes, i, nodes[i].sendAfter.value)
    ensures nodes[i].contextAfter.Some? ==> NodeRefersBack(nodes, i, nodes[i].contextAfter.value)
  {
    var q := kept[i];
    assert SessionRequestOk(kept, i);
    NodePlanned(c, kept, i, runtimeId(q.key));
    NodeFields(c, kept, runtimeId, nodes, i);
    CopiedFields(c, kept, runtimeId, nodes);
    hide NodeOf, NodesOf, TargetsOf, SessionOk, NodeMap, ContextPlan, EffectiveInterval, NodeRefersBack;
    ReferencesAccepted(kept, nodes, i);
    hide SessionRequestOk, Copied;
  }

  /** Nodes keep the key, actor, status and recipe of their requests. */
  ghost predicate Copied(kept: seq<Request>, nodes: seq<Node>) {
    && |nodes| == |kept|
    && (forall j | 0 <= j < |nodes| :: nodes[j].key in NodeMap(nodes) && NodeMap(nodes)[nodes[j].key] == nodes[j])
    && forall j | 0 <= j < |nodes| ::
         && nodes[j].key == kept[j].key && nodes[j].actor == kept[j].actor && nodes[j].status == kept[j].status
         && nodes[j].sendAfter == kept[j].sendAfter && nodes[j].recipeKey == kept[j].recipeKey
  }

  lemma CopiedFields(c: Config, kept: seq<Request>, runtimeId: Key -> RuntimeId, nodes: seq<Node>)
    requires NodesOf(c, kept, runtimeId, nodes)
    requires forall j | 0 <= j < |nodes| :: nodes[j].key in NodeMap(nodes) && NodeMap(nodes)[nodes[j].key] == nodes[j]
    ensures Copied(kept, nodes)
  {
    hide NodeMap, NodeOf;
    forall j | 0 <= j < |nodes|
      ensures nodes[j].key == kept[j].key && nodes[j].actor == kept[j].actor && nodes[j].status == kept[j].status
      ensures nodes[j].sendAfter == kept[j].sendAfter && nodes[j].recipeKey == kept[j].recipeKey
    {
      NodeFields(c, kept, runtimeId, nodes, j);
    }
  }

  /** What the references of a request name among the nodes. */
  lemma ReferencesAccepted(kept: seq<Request>, nodes: seq<Node>, i: nat)
    requires Copied(kept, nodes) && i < |kept| && SessionRequestOk(kept, i)
    ensures kept[i].recipeKey in NodeMap(nodes)
    ensures var send := kept[i].sendAfter;
      send.Some? ==> send.value in NodeMap(nodes) && NodeRefersBack(nodes, i, send.value)
    ensures var context := kept[i].contextAfter;
      context.Some? ==>
        && context.value in NodeMap(nodes) && NodeRefersBack(nodes, i, context.value)
        && NodeMap(nodes)[context.value].actor == kept[i].actor && NodeMap(nodes)[context.value].status == SUCCESS
  {
    hide NodeMap;
    var q := kept[i];
    assert nodes[i].key == q.key;
    if q.sendAfter.Some? {
      var j :| 0 <= j < i && j < |kept| && kept[j].key == q.sendAfter.value;
      assert nodes[j].key == q.sendAfter.value;
    }
    if q.contextAfter.Some? {
      var j :| 0 <= j < |kept| && ContextTarget(kept, i, j, q.contextAfter.value);
      assert nodes[j].key == q.contextAfter.value;
    }
    if q.recipeKey != q.key {
      var j :| 0 <= j < |kept| && kept[j].key == q.recipeKey && kept[j].isRequest;
      assert nodes[j].key == q.recipeKey;
    }
  }

  /** An analyzed session that a shape can replay; where recipes are offsets, each has to be one. */
  ghost predicate SessionFits(shape: Shape, decimal: Key -> bool, requests: seq<Request>) {
    && SessionOk(requests) && shape != TRACELAB
    && (shape == AGENTX ==> forall i | 0 <= i < |requests| :: decimal(requests[i].recipeKey))
  }

  lemma PrunedSessionFits(shape: Shape, decimal: Key -> bool, requests: seq<Request>, keys: set<Key>)
    requires SessionFits(shape, decimal, requests) && IsRequired(ByKey(requests), keys)
    ensures SessionFits(shape, decimal, Filter(requests, InKeys(keys)))
  {
    PrunedSessionOk(requests, keys);
    FilterMembers(requests, InKeys(keys));
    var kept := Filter(requests, InKeys(keys));
    forall i | 0 <= i < |kept| ensures kept[i] in requests { assert kept[i] in kept; }
  }

  /** Every analyzed session plans without error into a task the validator accepts, whose references all point
      backward. */
  lemma AnalyzedSessionAccepted(c: Config, requests: seq<Request>, keys: set<Key>, runtimeId: Key -> RuntimeId,
                                decimal: Key -> bool, r: Result<seq<Node>, PlanError>)
    requires SessionFits(c.shape, decimal, requests) && IsRequired(ByKey(requests), keys) && Injective(runtimeId)
    requires PlannedAs(c, Filter(requests, InKeys(keys)), runtimeId, r)
    ensures r.Ok? && TaskValid(r.value, ChecksOf(c.shape, decimal)) && PlanOrdered(r.value)
  {
    var kept := Filter(requests, InKeys(keys));
    PrunedSessionFits(c.shape, decimal, requests, keys);
    forall i | 0 <= i < |kept| ensures NodeOf(c, kept[i], TargetsOf(kept), runtimeId(kept[i].key)).Ok? {
      NodePlanned(c, kept, i, runtimeId(kept[i].key));
    }
    var nodes := r.value;
    assert NodesOf(c, kept, runtimeId, nodes);
    NodesDistinct(c, kept, runtimeId, nodes);
    forall i | 0 <= i < |nodes|
      ensures NodeValid(NodeMap(nodes), nodes[i], ChecksOf(c.shape, decimal))
      ensures nodes[i].sendAfter.Some? ==> NodeRefersBack(nodes, i, nodes[i].sendAfter.value)
      ensures nodes[i].contextAfter.Some? ==> NodeRefersBack(nodes, i, nodes[i].contextAfter.value)
    {
      NodeAccepted(c, kept, runtimeId, nodes, i, decimal);
    }
    OrderedIsAcyclic(nodes);
  }

  /** From unordered rows to a validated task: neither planning nor validation can fail. */
  method PlanSession(c: Config, source: seq<Row>, kinds: Kinds, runtimeId: Key -> RuntimeId, decimal: Key -> bool)
    returns (nodes: seq<Node>)
    requires DistinctKeys(source) && (forall i | 0 <= i < |source| :: RowOk(source[i])) && KindsCover(source, kinds)
    requires Injective(runtimeId) && c.shape !in {TRACELAB, AGENTX}
    ensures TaskValid(nodes, ChecksOf(c.shape, decimal)) && PlanOrdered(nodes)
  {
    hide *;
    var rows, requests := BuildSession(source, kinds);
    SessionIsIndexed(requests);
    AnalyzedFits(c.shape, decimal, requests);
    var planned := TaskPlan(c, requests, runtimeId);
    ghost var keys :| IsRequired(ByKey(requests), keys)
      && PlannedAs(c, Filter(requests, InKeys(keys)), runtimeId, planned);
    AnalyzedSessionAccepted(c, requests, keys, runtimeId, decimal, planned);
    var fault := ValidateTask(planned.value, ChecksOf(c.shape, decimal));
    assert fault.None?;
    nodes := planned.value;
  }

  lemma AnalyzedFits(shape: Shape, decimal: Key -> bool, requests: seq<Request>)
    requires SessionOk(requests) && shape !in {TRACELAB, AGENTX}
    ensures SessionFits(shape, decimal, requests)
  {
  }
}
