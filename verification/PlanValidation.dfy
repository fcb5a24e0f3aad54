/** `_validate_acyclic`: depth-first search along send dependencies, where every node has at most one predecessor. */
module AcyclicCheck {
  import opened Wrappers
  import opened AscendingIds
  import opened ReplaySchema

  type Links = map<Key, Option<Key>>

  ghost predicate Closed(next: Links) {
    forall k | k in next && next[k].Some? :: next[k].value in next
  }

  /** At most `n` predecessor links lead from `k` to a key without predecessor. */
  ghost predicate RootWithin(next: Links, k: Key, n: nat)
    decreases n
  {
    k in next && (next[k].None? || (n > 0 && RootWithin(next, next[k].value, n - 1)))
  }

  ghost predicate ReachesRoot(next: Links, k: Key) {
    exists n: nat :: RootWithin(next, k, n)
  }

  /** Exactly `n` predecessor links lead from `a` to `b`. */
  ghost predicate Path(next: Links, a: Key, b: Key, n: nat)
    decreases n
  {
    if n == 0 then a == b else a in next && next[a].Some? && Path(next, next[a].value, b, n - 1)
  }

  lemma {:induction false} PathSnoc(next: Links, a: Key, b: Key, n: nat)
    requires Path(next, a, b, n) && b in next && next[b].Some?
    ensures Path(next, a, next[b].value, n + 1)
    decreases n
  {
    if n > 0 { PathSnoc(next, next[a].value, b, n - 1); }
  }

  lemma {:induction false} PathTowardsRoot(next: Links, a: Key, b: Key, n: nat, m: nat)
    requires Path(next, a, b, n) && RootWithin(next, a, m)
    ensures m >= n && RootWithin(next, b, m - n)
    decreases n
  {
    if n > 0 { PathTowardsRoot(next, next[a].value, b, n - 1, m - 1); }
  }

  lemma {:induction false} CycleWithin(next: Links, k: Key, n: nat, m: nat)
    requires Path(next, k, k, n) && n >= 1
    ensures !RootWithin(next, k, m)
    decreases m
  {
    if RootWithin(next, k, m) {
      PathTowardsRoot(next, k, k, n, m);
      CycleWithin(next, k, n, m - n);
    }
  }

  /** A key on a cycle never reaches a root. */
  lemma CycleNoRoot(next: Links, k: Key, n: nat)
    requires Path(next, k, k, n) && n >= 1
    ensures !ReachesRoot(next, k)
  {
    forall m: nat ensures !RootWithin(next, k, m) { CycleWithin(next, k, n, m); }
  }

  /** A key reaches a root exactly when its predecessor does. */
  lemma RootThroughNext(next: Links, k: Key)
    requires k in next && next[k].Some?
    ensures ReachesRoot(next, k) <==> ReachesRoot(next, next[k].value)
  {
    if ReachesRoot(next, k) {
      var n: nat :| RootWithin(next, k, n);
      assert RootWithin(next, next[k].value, n - 1);
    }
    if ReachesRoot(next, next[k].value) {
      var n: nat :| RootWithin(next, next[k].value, n);
      assert RootWithin(next, k, n + 1);
    }
  }

  ghost predicate LeadsTo(next: Links, a: Key, b: Key) {
    exists n: nat :: n >= 1 && Path(next, a, b, n)
  }

  ghost predicate AllReach(next: Links, s: set<Key>) {
    forall k | k in s :: ReachesRoot(next, k)
  }

  method Visit(next: Links, key: Key, visiting: set<Key>, visited: set<Key>) returns (ok: bool, seen: set<Key>)
    requires Closed(next) && key in next && visiting <= next.Keys && visited <= next.Keys
    requires AllReach(next, visited)
    requires forall v | v in visiting :: LeadsTo(next, v, key)
    ensures ok <==> ReachesRoot(next, key)
    ensures ok ==> visited + {key} <= seen <= next.Keys && AllReach(next, seen)
    decreases next.Keys - visiting
  {
    if key in visited { return true, visited; }
    if key in visiting {
      ghost var n: nat :| n >= 1 && Path(next, key, key, n);
      CycleNoRoot(next, key, n);
      return false, visited;
    }
    var predecessor := next[key];
    seen := visited;
    ok := true;
    if predecessor.Some? {
      RootThroughNext(next, key);
      forall v | v in visiting + {key} ensures LeadsTo(next, v, predecessor.value) {
        if v == key {
          assert Path(next, key, predecessor.value, 1);
        } else {
          var n: nat :| n >= 1 && Path(next, v, key, n);
          PathSnoc(next, v, key, n);
        }
      }
      ok, seen := Visit(next, predecessor.value, visiting + {key}, visited);
      if !ok { return; }
    } else {
      assert RootWithin(next, key, 0);
    }
    seen := seen + {key};
  }

  /** Accepts exactly when every send chain reaches a root. */
  method ValidateAcyclic(next: Links) returns (ok: bool)
    requires Closed(next)
    ensures ok <==> AllReach(next, next.Keys)
  {
    var todo, visited: set<Key> := next.Keys, {};
    while todo != {}
      invariant todo <= next.Keys && visited <= next.Keys
      invariant AllReach(next, visited) && next.Keys - todo <= visited
      decreases todo
    {
      var key := PickAny(todo);
      ok, visited := Visit(next, key, {}, visited);
      if !ok { return; }
      todo := todo - {key};
    }
    assert visited == next.Keys;
    ok := true;
  }
}

/** `_validate_task` and `_validate_plan`. */
module PlanValidation {
  import opened Wrappers
  import opened Sequences
  import opened Indexing
  import opened ReplaySchema
  import opened TaskPlanning
  import opened AcyclicCheck

  type SessionId = int

  datatype Task = Task(sessionId: SessionId, nodes: seq<Node>)

  datatype Fault =
    | DUPLICATE_KEY | DUPLICATE_RUNTIME_ID | MISSING_REFERENCE | BAD_OFFSET | BAD_INPUT | BAD_OUTPUT | BAD_PREFIX
    | BAD_INTERVAL
    | FOREIGN_CONTEXT | UNSUCCESSFUL_CONTEXT | MODE_WITHOUT_CONTEXT | MODE_NEEDS_CONTEXT | SEND_CYCLE
    | DUPLICATE_SESSION

  /** A prompt recipe names a request of the task, or is a decimal byte offset into a snapshot file. */
  datatype RecipeCheck = AS_KEYS | AS_OFFSETS(decimal: Key -> bool)

  /** What the prompt shape of a plan lets the validator accept. */
  datatype Checks = Checks(allowUnknown: bool, recipes: RecipeCheck)

  function ChecksOf(shape: Shape, decimal: Key -> bool): Checks {
    Checks(shape == TRACELAB, if shape == AGENTX then AS_OFFSETS(decimal) else AS_KEYS)
  }

  predicate RecipeOk(byKey: map<Key, Node>, recipe: Key, recipes: RecipeCheck) {
    match recipes
    case AS_KEYS => recipe in byKey
    case AS_OFFSETS(decimal) => decimal(recipe)
  }

  function NodeKey(): Node -> Key { (n: Node) => n.key }

  function NodeId(): Node -> RuntimeId { (n: Node) => n.runtimeId }

  function Column(nodes: seq<Node>, f: Node -> int): (c: seq<int>)
    ensures |c| == |nodes| && forall i | 0 <= i < |nodes| :: c[i] == f(nodes[i])
  {
    seq(|nodes|, i requires 0 <= i < |nodes| => f(nodes[i]))
  }

  function NodeMap(nodes: seq<Node>): map<Key, Node> {
    IndexBy(nodes, NodeKey())
  }

  function SendLinks(nodes: seq<Node>): Links {
    var byKey := NodeMap(nodes);
    map k | k in byKey :: byKey[k].sendAfter
  }

  predicate Present(byKey: map<Key, Node>, ref: Option<Key>) {
    ref.Some? ==> ref.value in byKey
  }

  predicate SourceSuccess(s: Status, checks: Checks) {
    s == SUCCESS || (checks.allowUnknown && s == UNKNOWN)
  }

  /** Everything the validator asks of one node. */
  ghost predicate NodeValid(byKey: map<Key, Node>, n: Node, checks: Checks) {
    && Present(byKey, n.sendAfter) && Present(byKey, n.contextAfter) && RecipeOk(byKey, n.recipeKey, checks.recipes)
    && (n.isRequest ==> (
         && n.input.Some? && n.input.value > 0
         && n.output.Some? && (if checks.allowUnknown then n.output.value >= 0 else n.output.value > 0)
         && (n.prefix.Some? ==> 0 <= n.prefix.value <= n.input.value)))
    && n.interval >= 0.0
    && (n.contextAfter.Some? ==> (
         && byKey[n.contextAfter.value].actor == n.actor
         && SourceSuccess(byKey[n.contextAfter.value].status, checks)))
    && (n.mode in {INDEPENDENT, RESET} ==> n.contextAfter.None?)
    && (n.mode in {APPEND, TRIM} ==> n.contextAfter.Some?)
  }

  ghost predicate TaskValid(nodes: seq<Node>, checks: Checks) {
    && DistinctBy(nodes, NodeKey()) && DistinctBy(nodes, NodeId())
    && (forall i | 0 <= i < |nodes| :: NodeValid(NodeMap(nodes), nodes[i], checks))
    && AllReach(SendLinks(nodes), SendLinks(nodes).Keys)
  }

  /** The per-node checks, in source order. */
  method CheckNode(byKey: map<Key, Node>, n: Node, checks: Checks) returns (fault: Option<Fault>)
    ensures fault.None? <==> NodeValid(byKey, n, checks)
    ensures fault == Some(MISSING_REFERENCE) <==>
      || !Present(byKey, n.sendAfter) || !Present(byKey, n.contextAfter)
      || (checks.recipes.AS_KEYS? && n.recipeKey !in byKey)
    ensures fault == Some(BAD_OFFSET) <==>
      && Present(byKey, n.sendAfter) && Present(byKey, n.contextAfter)
      && checks.recipes.AS_OFFSETS? && !checks.recipes.decimal(n.recipeKey)
    ensures fault != Some(SEND_CYCLE)
  {
    if !Present(byKey, n.sendAfter) || !Present(byKey, n.contextAfter) { return Some(MISSING_REFERENCE); }
    match checks.recipes {
      case AS_KEYS =>
        if n.recipeKey !in byKey { return Some(MISSING_REFERENCE); }
      case AS_OFFSETS(decimal) =>
        if !decimal(n.recipeKey) { return Some(BAD_OFFSET); }
    }
    if n.isRequest {
      if n.input.None? || n.input.value <= 0 { return Some(BAD_INPUT); }
      var minimumOutput := if checks.allowUnknown then 0 else 1;
      if n.output.None? || n.output.value < minimumOutput { return Some(BAD_OUTPUT); }
      if n.prefix.Some? && (n.prefix.value < 0 || n.prefix.value > n.input.value) { return Some(BAD_PREFIX); }
    }
    if n.interval < 0.0 { return Some(BAD_INTERVAL); }
    if n.contextAfter.Some? {
      var context := byKey[n.contextAfter.value];
      if context.actor != n.actor { return Some(FOREIGN_CONTEXT); }
      if !SourceSuccess(context.status, checks) { return Some(UNSUCCESSFUL_CONTEXT); }
    }
    if n.mode in {INDEPENDENT, RESET} && n.contextAfter.Some? { return Some(MODE_WITHOUT_CONTEXT); }
    if n.mode in {APPEND, TRIM} && n.contextAfter.None? { return Some(MODE_NEEDS_CONTEXT); }
    fault := None;
  }

  lemma ColumnDistinct(nodes: seq<Node>, f: Node -> int)
    ensures |Elems(Column(nodes, f))| == |nodes| <==> DistinctBy(nodes, f)
  {
    var c := Column(nodes, f);
    CountsDistinct(c);
    if NoDup(c) {
      forall i, j | 0 <= i < j < |nodes| ensures f(nodes[i]) != f(nodes[j]) { assert c[i] != c[j]; }
    }
    if DistinctBy(nodes, f) {
      forall i, j | 0 <= i < j < |c| ensures c[i] != c[j] { assert f(nodes[i]) != f(nodes[j]); }
    }
  }

  method ValidateTask(nodes: seq<Node>, checks: Checks) returns (fault: Option<Fault>)
    ensures fault.None? <==> TaskValid(nodes, checks)
    ensures fault == Some(SEND_CYCLE) ==> exists k :: k in SendLinks(nodes) && !ReachesRoot(SendLinks(nodes), k)
  {
    hide NodeValid;
    ColumnDistinct(nodes, NodeKey());
    ColumnDistinct(nodes, NodeId());
    var keys := Column(nodes, NodeKey());
    if |keys| != |Elems(keys)| { return Some(DUPLICATE_KEY); }
    var runtimeIds := Column(nodes, NodeId());
    if |runtimeIds| != |Elems(runtimeIds)| { return Some(DUPLICATE_RUNTIME_ID); }
    var byKey := NodeMap(nodes);
    for i := 0 to |nodes|
      invariant forall j | 0 <= j < i :: NodeValid(byKey, nodes[j], checks)
    {
      fault := CheckNode(byKey, nodes[i], checks);
      if fault.Some? { return; }
    }
    SendsPresent(nodes, checks);
    var ok := ValidateAcyclic(SendLinks(nodes));
    fault := if ok then None else Some(SEND_CYCLE);
  }

  lemma SendsPresent(nodes: seq<Node>, checks: Checks)
    requires DistinctBy(nodes, NodeKey()) && forall i | 0 <= i < |nodes| :: NodeValid(NodeMap(nodes), nodes[i], checks)
    ensures Closed(SendLinks(nodes))
  {
    IndexByFacts(nodes, NodeKey());
    forall k | k in SendLinks(nodes) && SendLinks(nodes)[k].Some?
      ensures SendLinks(nodes)[k].value in SendLinks(nodes) {
      var i :| 0 <= i < |nodes| && NodeKey()(nodes[i]) == k;
      assert NodeValid(NodeMap(nodes), nodes[i], checks);
    }
  }

  ghost predicate PlanValid(tasks: seq<Task>, checks: Checks) {
    && (forall i, j | 0 <= i < j < |tasks| :: tasks[i].sessionId != tasks[j].sessionId)
    && (forall i | 0 <= i < |tasks| :: TaskValid(tasks[i].nodes, checks))
  }

  method ValidatePlan(tasks: seq<Task>, checks: Checks) returns (fault: Option<Fault>)
    ensures fault.None? <==> PlanValid(tasks, checks)
  {
    hide TaskValid;
    var runtimeSessions: set<SessionId> := {};
    for i := 0 to |tasks|
      invariant PlanValid(tasks[..i], checks)
      invariant forall s :: s in runtimeSessions <==> exists j :: 0 <= j < i && tasks[j].sessionId == s
    {
      var task := tasks[i];
      if task.sessionId in runtimeSessions { return Some(DUPLICATE_SESSION); }
      runtimeSessions := runtimeSessions + {task.sessionId};
      fault := ValidateTask(task.nodes, checks);
      if fault.Some? { return; }
      assert tasks[..i + 1] == tasks[..i] + [task];
    }
    assert tasks[..|tasks|] == tasks;
    fault := None;
  }
}
