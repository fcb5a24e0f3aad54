/** Finite graphs: the edges can be ranked exactly when they have no cycle. */
module Acyclicity {
  import opened Sequences
  import opened AscendingIds
  import opened Indexing

  type Edge = (int, int)

  ghost predicate Within(nodes: set<int>, edges: set<Edge>) {
    forall e | e in edges :: e.0 in nodes && e.1 in nodes
  }

  /** A walk along edges, from its first node to its last. */
  predicate Walk(edges: set<Edge>, walk: seq<int>) {
    walk != [] && forall i | 0 <= i < |walk| - 1 :: (walk[i], walk[i + 1]) in edges
  }

  ghost predicate Cyclic(edges: set<Edge>) {
    exists walk :: Cycle(edges, walk)
  }

  predicate Cycle(edges: set<Edge>, walk: seq<int>) {
    |walk| >= 2 && Walk(edges, walk) && walk[0] == walk[|walk| - 1]
  }

  /** Every edge leads to a smaller rank. */
  ghost predicate Ranks(nodes: set<int>, edges: set<Edge>, rank: map<int, nat>) {
    && rank.Keys == nodes
    && forall e | e in edges :: e.0 in rank && e.1 in rank && rank[e.1] < rank[e.0]
  }

  lemma {:induction false} RankFalls(nodes: set<int>, edges: set<Edge>, rank: map<int, nat>, walk: seq<int>)
    requires Ranks(nodes, edges, rank) && Walk(edges, walk) && |walk| >= 2
    ensures walk[0] in rank && walk[|walk| - 1] in rank && rank[walk[|walk| - 1]] < rank[walk[0]]
  {
    assert (walk[0], walk[1]) in edges;
    if |walk| > 2 {
      forall i | 0 <= i < |walk| - 2 ensures (walk[1..][i], walk[1..][i + 1]) in edges {
        assert (walk[i + 1], walk[i + 2]) in edges;
      }
      RankFalls(nodes, edges, rank, walk[1..]);
    }
  }

  /** Every node of the set has an edge to another one of the set. */
  ghost predicate Endless(edges: set<Edge>, nodes: set<int>) {
    forall k | k in nodes :: Continues(edges, nodes, k)
  }

  ghost predicate Continues(edges: set<Edge>, nodes: set<int>, k: int) {
    exists w :: w in nodes && (k, w) in edges
  }

  lemma {:induction false} LongWalk(edges: set<Edge>, nodes: set<int>, k: int, n: nat) returns (walk: seq<int>)
    requires Endless(edges, nodes) && k in nodes
    ensures Walk(edges, walk) && |walk| == n + 1 && walk[0] == k && forall i | 0 <= i < |walk| :: walk[i] in nodes
    decreases n
  {
    walk := [k];
    if n > 0 {
      assert Continues(edges, nodes, k);
      var w :| w in nodes && (k, w) in edges;
      var rest := LongWalk(edges, nodes, w, n - 1);
      walk := [k] + rest;
      forall i | 0 <= i < |walk| - 1 ensures (walk[i], walk[i + 1]) in edges {
        if i > 0 { assert (rest[i - 1], rest[i]) in edges; }
      }
    }
  }

  /** A walk longer than its set of nodes passes one of them twice. */
  lemma EndlessCyclic(edges: set<Edge>, nodes: set<int>)
    requires Endless(edges, nodes) && nodes != {}
    ensures Cyclic(edges)
  {
    var walk := LongWalk(edges, nodes, Largest(nodes), |nodes|);
    forall x | x in Elems(walk) ensures x in nodes { }
    FewerMembers(Elems(walk), nodes);
    CountsDistinct(walk);
    var i, j :| 0 <= i < j < |walk| && walk[i] == walk[j];
    var cycle := walk[i..j + 1];
    forall m | 0 <= m < |cycle| - 1 ensures (cycle[m], cycle[m + 1]) in edges {
      assert (walk[i + m], walk[i + m + 1]) in edges;
    }
    assert Cycle(edges, cycle);
  }

  lemma {:induction false} RankInside(edges: set<Edge>, nodes: set<int>) returns (rank: map<int, nat>)
    requires !Cyclic(edges)
    ensures rank.Keys == nodes
    ensures forall e | e in edges && e.0 in nodes && e.1 in nodes :: rank[e.1] < rank[e.0]
    decreases |nodes|
  {
    rank := map[];
    if nodes != {} {
      if Endless(edges, nodes) { EndlessCyclic(edges, nodes); }
      var k :| k in nodes && !Continues(edges, nodes, k);
      var rest := RankInside(edges, nodes - {k});
      rank := map j | j in nodes :: if j == k then 0 else rest[j] + 1;
      forall e | e in edges && e.0 in nodes && e.1 in nodes ensures rank[e.1] < rank[e.0] {
        assert e == (e.0, e.1);
      }
    }
  }

  /** A finite graph can be ranked exactly when it has no cycle. */
  lemma RanksIffAcyclic(nodes: set<int>, edges: set<Edge>)
    requires Within(nodes, edges)
    ensures (exists rank :: Ranks(nodes, edges, rank)) <==> !Cyclic(edges)
  {
    if Cyclic(edges) {
      var walk :| Cycle(edges, walk);
      forall rank ensures !Ranks(nodes, edges, rank) {
        if Ranks(nodes, edges, rank) { RankFalls(nodes, edges, rank, walk); }
      }
    } else {
      var rank := RankInside(edges, nodes);
      assert Ranks(nodes, edges, rank);
    }
  }
}

/** Deadlock freedom: which plans every interleaving can still finish, and which deadlock. */
module ExecutorProgress {
  import opened Wrappers
  import opened Arithmetic
  import opened Sequences
  import opened AscendingIds
  import opened Indexing
  import opened ReplaySchema
  import opened TaskPlanning
  import opened AcyclicCheck
  import opened PlanValidation
  import opened PlanAcceptance
  import opened ExecutorSteps
  import opened ExecutorSafety
  import opened Acyclicity

  // ---- which edges can hold a node up

  /** The node fails whatever the environment does: its root prompt could not be built, or its context ends without an
      exchange. `n` bounds the length of the context chain. */
  ghost predicate DoomedWithin(s: Setup, k: Key, n: nat)
    decreases n
  {
    && k in s.nodes && NeedsPrompt(s, k)
    && match s.nodes[k].contextAfter
       case None => k in s.badRoots
       case Some(c) => c in s.nodes && (!NeedsPrompt(s, c) || (n > 0 && DoomedWithin(s, c, n - 1)))
  }

  ghost predicate Doomed(s: Setup, k: Key) {
    exists n: nat :: DoomedWithin(s, k, n)
  }

  /** Doom passes exactly from a context to its dependents. */
  lemma DoomedStep(s: Setup, k: Key)
    requires k in s.nodes && NeedsPrompt(s, k)
    ensures ContextOf(s, k).None? ==> (Doomed(s, k) <==> k in s.badRoots)
    ensures ContextOf(s, k).Some? && ContextOf(s, k).value in s.nodes ==>
      (Doomed(s, k) <==> !NeedsPrompt(s, ContextOf(s, k).value) || Doomed(s, ContextOf(s, k).value))
  {
    if Doomed(s, k) {
      var n: nat :| DoomedWithin(s, k, n);
      if ContextOf(s, k).Some? && NeedsPrompt(s, ContextOf(s, k).value) {
        assert DoomedWithin(s, ContextOf(s, k).value, n - 1);
      }
    }
    if ContextOf(s, k).None? {
      if k in s.badRoots { assert DoomedWithin(s, k, 0); }
    } else {
      var c := ContextOf(s, k).value;
      if c in s.nodes && !NeedsPrompt(s, c) { assert DoomedWithin(s, k, 0); }
      if c in s.nodes && Doomed(s, c) {
        var n: nat :| DoomedWithin(s, c, n);
        assert DoomedWithin(s, k, n + 1);
      }
    }
  }

  /** A doomed node gives up on its context alone; every other node is held up by both its predecessors. */
  ghost predicate Binds(s: Setup, k: Key, w: Key) {
    Awaits(s, k, w) && (ContextOf(s, k) == Some(w) || !Doomed(s, k))
  }

  /** The binding edges can be ranked, hence have no cycle. */
  ghost predicate OrderedBy(s: Setup, rank: map<Key, nat>) {
    && rank.Keys == s.nodes.Keys
    && (forall k, w | Binds(s, k, w) :: w in rank && rank[w] < rank[k])
  }

  /** The union of all send and awaited context edges can be ranked. */
  ghost predicate RankedBy(s: Setup, rank: map<Key, nat>) {
    && rank.Keys == s.nodes.Keys
    && (forall k, w | Awaits(s, k, w) :: w in rank && rank[w] < rank[k])
  }

  /** The edges that bind, and all edges awaited, as pairs of a node and what it waits for. */
  ghost function BindingEdges(s: Setup): set<Edge> {
    set k, w | k in s.nodes && w in s.nodes && Binds(s, k, w) :: (k, w)
  }

  function AwaitedEdges(s: Setup): set<Edge> {
    (set k | k in s.nodes && s.nodes[k].sendAfter.Some? :: (k, s.nodes[k].sendAfter.value))
    + set k | k in s.nodes && ContextOf(s, k).Some? :: (k, ContextOf(s, k).value)
  }

  /** The binding edges can be ranked exactly when they have no cycle. */
  lemma OrderedIffAcyclic(s: Setup)
    requires ReferencesPresent(s)
    ensures (exists rank :: OrderedBy(s, rank)) <==> !Cyclic(BindingEdges(s))
  {
    var nodes, edges := s.nodes.Keys, BindingEdges(s);
    forall k, w | Binds(s, k, w) ensures (k, w) in edges { }
    forall rank ensures OrderedBy(s, rank) <==> Ranks(nodes, edges, rank) {
      if Ranks(nodes, edges, rank) {
        forall k, w | Binds(s, k, w) ensures w in rank && k in rank && rank[w] < rank[k] { assert (k, w) in edges; }
      }
      if OrderedBy(s, rank) {
        forall e | e in edges ensures e.0 in rank && e.1 in rank && rank[e.1] < rank[e.0] { assert Binds(s, e.0, e.1); }
      }
    }
    RanksIffAcyclic(nodes, edges);
  }

  lemma RankedIffAcyclic(s: Setup)
    requires ReferencesPresent(s)
    ensures (exists rank :: RankedBy(s, rank)) <==> !Cyclic(AwaitedEdges(s))
  {
    var nodes, edges := s.nodes.Keys, AwaitedEdges(s);
    forall rank ensures RankedBy(s, rank) <==> Ranks(nodes, edges, rank) {
      if Ranks(nodes, edges, rank) {
        forall k, w | Awaits(s, k, w) ensures w in rank && k in rank && rank[w] < rank[k] { assert (k, w) in edges; }
      }
      if RankedBy(s, rank) {
        forall e | e in edges ensures e.0 in rank && e.1 in rank && rank[e.1] < rank[e.0] {
          assert Awaits(s, e.0, e.1);
        }
      }
    }
    RanksIffAcyclic(nodes, edges);
  }

  lemma RankedIsOrdered(s: Setup, rank: map<Key, nat>)
    requires RankedBy(s, rank)
    ensures OrderedBy(s, rank)
  {
  }

  /** Doomed nodes never get past waiting for their prompt. */
  ghost predicate DoomedStays(s: Setup, x: Exec) {
    forall k | k in s.nodes && k in x.phases && Doomed(s, k) ::
      x.phases[k] == WAITING(NEEDED) || (x.phases[k].DONE? && x.phases[k].completion.outcome != SUCCEEDED)
  }

  lemma StartDoomed(s: Setup, now: real)
    ensures DoomedStays(s, Start(s, now))
  {
  }

  lemma StepDoomed(s: Setup, x: Exec, a: Action)
    requires Inv(s, x) && DoomedStays(s, x) && Next(s, x, a).Some?
    ensures DoomedStays(s, Next(s, x, a).value)
  {
    hide ResultsInv, RecordOrder, Doomed;
    if a.NODE? && Doomed(s, a.key) {
      hide Doomed;
      DoomedStep(s, a.key);
      if ContextOf(s, a.key).Some? && ContextOf(s, a.key).value in s.nodes {
        assert NodeInv(s, x, ContextOf(s, a.key).value);
      }
    }
  }

  lemma {:induction false} RunDoomed(s: Setup, x: Exec, actions: seq<Action>, y: Exec)
    requires Inv(s, x) && DoomedStays(s, x) && Runs(s, x, actions, y)
    ensures DoomedStays(s, y)
    decreases |actions|
  {
    hide Inv, DoomedStays;
    if actions != [] {
      InvKeys(s, x);
      StepInv(s, x, actions[0]);
      StepDoomed(s, x, actions[0]);
      RunDoomed(s, Next(s, x, actions[0]).value, actions[1..], y);
    }
  }

  ghost predicate AllDone(x: Exec) {
    forall k | k in x.phases :: x.phases[k].DONE?
  }

  // ---- every run makes finitely many moves

  function PhaseRank(p: Phase): nat {
    match p
    case WAITING(NEEDED) => 6
    case WAITING(BUILDING) => 5
    case WAITING(_) => 4
    case RELEASED(_) => 3
    case LASTING(_, _) => 2
    case RENDERING(_) => 2
    case SENT(_, _) => 1
    case DONE(_, _, _) => 0
  }

  function Remaining(keys: seq<Key>, phases: map<Key, Phase>): nat {
    if keys == [] then 0
    else
      var k := keys[|keys| - 1];
      Remaining(keys[..|keys| - 1], phases) + (if k in phases then PhaseRank(phases[k]) else 0)
  }

  function Work(x: Exec): nat {
    Remaining(Ascending(x.phases.Keys), x.phases)
  }

  lemma {:induction false} RemainingUpdate(keys: seq<Key>, phases: map<Key, Phase>, k: Key, p: Phase)
    requires NoDup(keys) && k in phases
    ensures Remaining(keys, phases[k := p])
      == Remaining(keys, phases) + (if k in keys then PhaseRank(p) - PhaseRank(phases[k]) else 0)
  {
    if keys != [] {
      var init, last := keys[..|keys| - 1], keys[|keys| - 1];
      RemainingUpdate(init, phases, k, p);
      assert keys == init + [last];
      assert last !in init;
    }
  }

  lemma MovedLowersRank(s: Setup, x: Exec, k: Key, move: Move)
    requires k in s.nodes && k in x.phases && Moved(s, x, k, move).Some?
    ensures PhaseRank(Moved(s, x, k, move).value) < PhaseRank(x.phases[k])
  {
  }

  /** Every move lowers the remaining work; only the clock does not. */
  lemma MoveLowersWork(s: Setup, x: Exec, k: Key, move: Move)
    requires x.phases.Keys == s.nodes.Keys && Next(s, x, NODE(k, move)).Some?
    ensures Work(Next(s, x, NODE(k, move)).value) < Work(x)
  {
    hide Moved, PhaseRank;
    MovedLowersRank(s, x, k, move);
    var p := Moved(s, x, k, move).value;
    assert Become(x, k, p).phases.Keys == x.phases.Keys;
    RemainingUpdate(Ascending(x.phases.Keys), x.phases, k, p);
  }

  function Moves(actions: seq<Action>): nat {
    if actions == [] then 0 else (if actions[0].NODE? then 1 else 0) + Moves(actions[1..])
  }

  /** No run makes more moves than the work it starts with. */
  lemma {:induction false} RunsAreFinite(s: Setup, x: Exec, actions: seq<Action>, y: Exec)
    requires x.phases.Keys == s.nodes.Keys && Runs(s, x, actions, y)
    ensures Moves(actions) + Work(y) <= Work(x)
    decreases |actions|
  {
    if actions != [] {
      var z := Next(s, x, actions[0]).value;
      if actions[0].NODE? { MoveLowersWork(s, x, actions[0].key, actions[0].move); }
      RunsAreFinite(s, z, actions[1..], y);
    }
  }

  // ---- progress

  /** An unfinished node with everything that binds it finished, found by descending the ranking. */
  lemma {:induction false} Unblocked(s: Setup, x: Exec, rank: map<Key, nat>, k: Key) returns (j: Key)
    requires x.phases.Keys == s.nodes.Keys && OrderedBy(s, rank) && k in s.nodes && !x.phases[k].DONE?
    ensures j in s.nodes && !x.phases[j].DONE? && forall w | Binds(s, j, w) :: IsDone(x, w)
    decreases rank[k]
  {
    if w :| Binds(s, k, w) && !IsDone(x, w) {
      j := Unblocked(s, x, rank, w);
    } else {
      j := k;
    }
  }

  /** Steps that do not choose failure. */
  predicate Benign(a: Action) {
    match a
    case TICK(_) => true
    case NODE(_, END_BUILD(ok)) => ok
    case NODE(_, END_RENDER(ok)) => ok
    case NODE(_, RESPOND(ok, _)) => ok
    case NODE(_, RAISE) => false
    case NODE(_, _) => true
  }

  /** The move of an unblocked node once the clock has advanced far enough; only a full set of slots can delay it. */
  lemma UnblockedMove(s: Setup, x: Exec, j: Key) returns (to: real, move: Move)
    requires Inv(s, x) && DoomedStays(s, x) && j in s.nodes && !x.phases[j].DONE?
    requires forall w | Binds(s, j, w) :: IsDone(x, w)
    requires x.phases[j].RELEASED? && s.snapshots ==> |Holders(s, x)| < s.slots
    ensures to >= x.now && Benign(NODE(j, move)) && Moved(s, x.(now := to), j, move).Some?
  {
    hide ResultsInv, RecordOrder, Doomed;
    assert NodeInv(s, x, j);
    if s.nodes[j].sendAfter.Some? && !Doomed(s, j) { assert Binds(s, j, s.nodes[j].sendAfter.value); }
    if ContextOf(s, j).Some? { assert Binds(s, j, ContextOf(s, j).value); }
    to := x.now;
    match x.phases[j] {
      case WAITING(prompt) =>
        if prompt == NEEDED {
          if ContextOf(s, j).Some? {
            move := if Usable(x, ContextOf(s, j).value) then START_BUILD else FAIL_EARLY;
          } else {
            move := if j in s.badRoots then FAIL_EARLY else TAKE_ROOT;
          }
        } else if prompt == BUILDING {
          move := END_BUILD(true);
        } else {
          move := RELEASE;
        }
      case RELEASED(release) =>
        to, move := MaxReal(x.now, release), WAKE;
        assert Holders(s, x.(now := to)) == Holders(s, x);
      case LASTING(release, until) => to, move := MaxReal(x.now, until), ELAPSE;
      case RENDERING(release) => move := END_RENDER(true);
      case SENT(release, at) => move := RESPOND(true, x.now);
    }
  }

  /** In every reachable unfinished state of a plan whose binding edges are ordered, some node can move, at the
      latest after waiting. */
  lemma Progress(s: Setup, x: Exec, rank: map<Key, nat>, k: Key) returns (to: real, a: Action)
    requires Inv(s, x) && DoomedStays(s, x) && OrderedBy(s, rank) && s.slots >= 1 && k in s.nodes && !x.phases[k].DONE?
    ensures to >= x.now && a.NODE? && Benign(a) && Next(s, x.(now := to), a).Some?
  {
    hide NodeInv, ResultsInv, RecordOrder, Moved, DoomedStays, OrderedBy, Binds;
    var j := Unblocked(s, x, rank, k);
    var full := s.snapshots && |Holders(s, x)| >= s.slots;
    if full && Holders(s, x) != {} {
      var h := Largest(Holders(s, x));
      HolderUnblocked(s, x, h);
      BindsOnlyAwaited(s, x, h);
      var move;
      to, move := UnblockedMove(s, x, h);
      a := NODE(h, move);
    } else {
      var move;
      to, move := UnblockedMove(s, x, j);
      a := NODE(j, move);
    }
  }

  lemma BindsOnlyAwaited(s: Setup, x: Exec, h: Key)
    requires forall w | Awaits(s, h, w) :: IsDone(x, w)
    ensures forall w | Binds(s, h, w) :: IsDone(x, w)
  {
  }

  /** Whoever holds a slot awaits nothing more. */
  lemma HolderUnblocked(s: Setup, x: Exec, h: Key)
    requires Inv(s, x) && h in Holders(s, x)
    ensures h in s.nodes && !x.phases[h].DONE? && !x.phases[h].RELEASED?
    ensures forall w | Awaits(s, h, w) :: IsDone(x, w)
  {
    hide ResultsInv, RecordOrder;
    assert NodeInv(s, x, h);
  }

  // ---- every reachable state can be driven to completion

  /** Only doomed nodes have failed or been skipped. */
  ghost predicate OnlyDoomedFail(s: Setup, x: Exec) {
    forall k | k in x.phases && x.phases[k].DONE? :: x.phases[k].completion.outcome == SUCCEEDED || Doomed(s, k)
  }

  lemma BenignMoveSucceeds(s: Setup, x: Exec, k: Key, move: Move)
    requires Inv(s, x) && OnlyDoomedFail(s, x) && ReferencesPresent(s)
    requires Benign(NODE(k, move)) && Next(s, x, NODE(k, move)).Some?
    ensures OnlyDoomedFail(s, Next(s, x, NODE(k, move)).value)
  {
    hide ResultsInv, RecordOrder, Doomed;
    if NeedsPrompt(s, k) { DoomedStep(s, k); }
    if ContextOf(s, k).Some? { assert NodeInv(s, x, ContextOf(s, k).value); }
  }

  /** From any reachable state a plan with ordered binding edges can be run to completion, and no node fails from
      then on but the doomed ones. */
  lemma {:induction false} Completes(s: Setup, x: Exec, rank: map<Key, nat>) returns (actions: seq<Action>, y: Exec)
    requires Inv(s, x) && DoomedStays(s, x) && OrderedBy(s, rank) && s.slots >= 1
    ensures Runs(s, x, actions, y) && AllDone(y)
    ensures OnlyDoomedFail(s, x) && ReferencesPresent(s) ==> OnlyDoomedFail(s, y)
    decreases Work(x)
  {
    hide NodeInv, ResultsInv, RecordOrder, Moved, Work, OnlyDoomedFail, DoomedStays, ReferencesPresent, OrderedBy,
      Benign;
    if k :| k in s.nodes && !x.phases[k].DONE? {
      var to, a := Progress(s, x, rank, k);
      var z := x.(now := to);
      assert Next(s, x, TICK(to)) == Some(z);
      StepInv(s, x, TICK(to));
      StepDoomed(s, x, TICK(to));
      StepInv(s, z, a);
      StepDoomed(s, z, a);
      MoveLowersWork(s, z, a.key, a.move);
      SameWork(x, to);
      var w := Next(s, z, a).value;
      if OnlyDoomedFail(s, x) && ReferencesPresent(s) {
        FailuresTick(s, x, to);
        BenignMoveSucceeds(s, z, a.key, a.move);
      }
      var rest;
      rest, y := Completes(s, w, rank);
      assert ([a] + rest)[1..] == rest;
      assert Runs(s, z, [a] + rest, y);
      actions := [TICK(to)] + ([a] + rest);
      assert actions[1..] == [a] + rest;
    } else {
      actions, y := [], x;
    }
  }

  lemma SameWork(x: Exec, to: real)
    ensures Work(x.(now := to)) == Work(x)
  {
  }

  lemma FailuresTick(s: Setup, x: Exec, to: real)
    requires OnlyDoomedFail(s, x)
    ensures OnlyDoomedFail(s, x.(now := to))
  {
  }

  // ---- exactly the plans with ordered binding edges never deadlock

  function RecordKey(): Record -> Key { (r: Record) => r.key }

  /** The order of completion of a run in which only doomed nodes failed orders the binding edges. */
  lemma CompletionOrders(s: Setup, y: Exec) returns (rank: map<Key, nat>)
    requires Inv(s, y) && ReferencesPresent(s) && AllDone(y) && OnlyDoomedFail(s, y)
    ensures OrderedBy(s, rank)
  {
    hide NodeInv, Doomed;
    rank := map k | k in s.nodes :: PositionOf(y.results, RecordKey(), k);
    forall k, w | Binds(s, k, w) ensures w in rank && rank[w] < rank[k] {
      assert y.phases[k].DONE? && Recorded(y.results, k);
      FoundRecord(y.results, k);
      var i := PositionOf(y.results, RecordKey(), k);
      assert RecordMatches(y, y.results[i]) && MustFollow(s, y.results[i], w) && Recorded(y.results[..i], w);
      var j :| 0 <= j < i && y.results[..i][j].key == w;
      assert y.results[j].key == w;
      FoundRecord(y.results, w);
    }
  }

  lemma FoundRecord(results: seq<Record>, k: Key)
    requires Recorded(results, k)
    ensures PositionOf(results, RecordKey(), k) < |results| && results[PositionOf(results, RecordKey(), k)].key == k
  {
    var i :| 0 <= i < |results| && results[i].key == k;
    assert RecordKey()(results[i]) == k;
    PositionFinds(results, RecordKey(), k);
  }

  ghost predicate CanFinish(s: Setup, x: Exec)
    requires x.phases.Keys == s.nodes.Keys
  {
    exists more, y :: Runs(s, x, more, y) && AllDone(y)
  }

  /** No interleaving and no choice of failures leads to a state from which the graph cannot be finished. */
  ghost predicate NeverDeadlocks(s: Setup, now: real) {
    forall actions: seq<Action>, x: Exec | x.phases.Keys == s.nodes.Keys && Runs(s, Start(s, now), actions, x) ::
      CanFinish(s, x)
  }

  /** A finishing run of an unfinished state contains a first move. */
  lemma {:induction false} FirstMove(s: Setup, x: Exec, actions: seq<Action>, y: Exec)
    returns (to: real, k: Key, move: Move)
    requires Inv(s, x) && Runs(s, x, actions, y) && AllDone(y) && !AllDone(x)
    ensures to >= x.now && Next(s, x.(now := to), NODE(k, move)).Some?
    decreases |actions|
  {
    hide Inv, AllDone, Moved;
    InvKeys(s, x);
    assert actions != [];
    match actions[0] {
      case TICK(t) =>
        StepInv(s, x, actions[0]);
        StillUnfinished(x, t);
        to, k, move := FirstMove(s, x.(now := t), actions[1..], y);
        assert x.(now := t).(now := to) == x.(now := to);
      case NODE(j, m) =>
        to, k, move := x.now, j, m;
        assert x.(now := to) == x;
    }
  }

  lemma StillUnfinished(x: Exec, to: real)
    ensures AllDone(x.(now := to)) == AllDone(x)
  {
  }

  /** Wherever a node can move it can also move without choosing failure. */
  lemma Softened(s: Setup, x: Exec, k: Key, move: Move) returns (soft: Move)
    requires Inv(s, x) && Next(s, x, NODE(k, move)).Some?
    ensures Benign(NODE(k, soft)) && Next(s, x, NODE(k, soft)).Some?
  {
    hide ResultsInv, RecordOrder;
    assert NodeInv(s, x, k);
    soft := match move
      case END_BUILD(_) => END_BUILD(true)
      case END_RENDER(_) => END_RENDER(true)
      case RESPOND(_, at) => RESPOND(true, at)
      case RAISE => RESPOND(true, x.now)
      case _ => move;
  }

  /** Where no state is a deadlock, benign moves alone lead to the end. */
  lemma {:induction false} BenignRun(s: Setup, now: real, actions: seq<Action>, x: Exec) returns (y: Exec)
    requires ReferencesPresent(s) && NeverDeadlocks(s, now)
    requires Runs(s, Start(s, now), actions, x) && Inv(s, x) && OnlyDoomedFail(s, x)
    ensures Inv(s, y) && AllDone(y) && OnlyDoomedFail(s, y)
    decreases Work(x)
  {
    hide NodeInv, ResultsInv, RecordOrder, Moved, Work, OnlyDoomedFail, ReferencesPresent, Benign, AllDone, Inv;
    InvKeys(s, x);
    if AllDone(x) {
      y := x;
    } else {
      assert CanFinish(s, x);
      var more, end :| Runs(s, x, more, end) && AllDone(end);
      var to, k, move := FirstMove(s, x, more, end);
      var z := x.(now := to);
      assert Next(s, x, TICK(to)) == Some(z);
      StepInv(s, x, TICK(to));
      InvKeys(s, z);
      var soft := Softened(s, z, k, move);
      var w := Next(s, z, NODE(k, soft)).value;
      StepInv(s, z, NODE(k, soft));
      InvKeys(s, w);
      FailuresTick(s, x, to);
      BenignMoveSucceeds(s, z, k, soft);
      SameWork(x, to);
      MoveLowersWork(s, z, k, soft);
      RunsSnoc(s, Start(s, now), actions, x, TICK(to), z);
      RunsSnoc(s, Start(s, now), actions + [TICK(to)], z, NODE(k, soft), w);
      y := BenignRun(s, now, actions + [TICK(to)] + [NODE(k, soft)], w);
    }
  }

  /** Deadlock freedom, exactly: every state that any interleaving with any failures can reach can still be
      finished if and only if the binding edges have no cycle. The validator checks the send edges alone. */
  lemma NeverDeadlocksIffOrdered(s: Setup, now: real)
    requires ReferencesPresent(s) && s.slots >= 1
    ensures NeverDeadlocks(s, now) <==> exists rank :: OrderedBy(s, rank)
    ensures NeverDeadlocks(s, now) <==> !Cyclic(BindingEdges(s))
  {
    OrderedIffAcyclic(s);
    StartInv(s, now);
    StartDoomed(s, now);
    assert OnlyDoomedFail(s, Start(s, now));
    hide Inv, NodeInv, OrderedBy, OnlyDoomedFail, DoomedStays, ReferencesPresent, AllDone;
    if NeverDeadlocks(s, now) {
      assert Runs(s, Start(s, now), [], Start(s, now));
      var y := BenignRun(s, now, [], Start(s, now));
      var rank := CompletionOrders(s, y);
    }
    if exists rank :: OrderedBy(s, rank) {
      var rank :| OrderedBy(s, rank);
      forall actions: seq<Action>, x: Exec | x.phases.Keys == s.nodes.Keys && Runs(s, Start(s, now), actions, x)
        ensures CanFinish(s, x) {
        RunInv(s, Start(s, now), actions, x);
        RunDoomed(s, Start(s, now), actions, x);
        var more, y := Completes(s, x, rank);
      }
    }
  }

  // ---- when nothing is doomed

  /** Root prompts exist and contexts are requests. */
  ghost predicate Sound(s: Setup) {
    && s.badRoots == {}
    && forall k | k in s.nodes && ContextOf(s, k).Some? ::
         ContextOf(s, k).value in s.nodes && s.nodes[ContextOf(s, k).value].isRequest
  }

  lemma {:induction false} SoundWithin(s: Setup, k: Key, n: nat)
    requires Sound(s)
    ensures !DoomedWithin(s, k, n)
    decreases n
  {
    if k in s.nodes && NeedsPrompt(s, k) && s.nodes[k].contextAfter.Some? && n > 0 {
      SoundWithin(s, s.nodes[k].contextAfter.value, n - 1);
    }
  }

  lemma SoundNotDoomed(s: Setup)
    requires Sound(s)
    ensures forall k :: !Doomed(s, k)
    ensures forall rank :: OrderedBy(s, rank) <==> RankedBy(s, rank)
  {
    forall k ensures !Doomed(s, k) {
      forall n: nat ensures !DoomedWithin(s, k, n) { SoundWithin(s, k, n); }
    }
  }

  /** No node has failed or been skipped. */
  ghost predicate NoFailure(x: Exec) {
    forall k | k in x.phases && x.phases[k].DONE? :: x.phases[k].completion.outcome == SUCCEEDED
  }

  ghost predicate CanSucceed(s: Setup, now: real) {
    exists actions, y :: Runs(s, Start(s, now), actions, y) && AllDone(y) && NoFailure(y)
  }

  /** With root prompts and request contexts, a plan can finish with every node successful exactly when it never
      deadlocks, and both exactly when send and context edges together have no cycle. */
  lemma SucceedsIffRanked(s: Setup, now: real)
    requires ReferencesPresent(s) && Sound(s) && s.slots >= 1
    ensures CanSucceed(s, now) <==> exists rank :: RankedBy(s, rank)
    ensures NeverDeadlocks(s, now) <==> exists rank :: RankedBy(s, rank)
    ensures CanSucceed(s, now) <==> !Cyclic(AwaitedEdges(s))
  {
    RankedIffAcyclic(s);
    StartInv(s, now);
    StartDoomed(s, now);
    SoundNotDoomed(s);
    NeverDeadlocksIffOrdered(s, now);
    hide Inv, NodeInv, Doomed, RankedBy, OrderedBy, NeverDeadlocks;
    assert OnlyDoomedFail(s, Start(s, now));
    if CanSucceed(s, now) {
      var actions, y :| Runs(s, Start(s, now), actions, y) && AllDone(y) && NoFailure(y);
      RunInv(s, Start(s, now), actions, y);
      assert OnlyDoomedFail(s, y);
      var rank := CompletionOrders(s, y);
      assert RankedBy(s, rank);
    }
    if exists rank :: RankedBy(s, rank) {
      var rank :| RankedBy(s, rank);
      assert OrderedBy(s, rank);
      var actions, y := Completes(s, Start(s, now), rank);
      assert NoFailure(y);
    }
  }

  // ---- planned tasks never deadlock

  function SetupOf(nodes: seq<Node>, badRoots: set<Key>, snapshots: bool, slots: nat, started: real): Setup {
    Setup(NodeMap(nodes), badRoots, snapshots, slots, started)
  }

  /** Plan order ranks every analyzed task. */
  lemma OrderRanks(nodes: seq<Node>, badRoots: set<Key>, snapshots: bool, slots: nat, started: real)
    returns (rank: map<Key, nat>)
    requires DistinctBy(nodes, NodeKey()) && PlanOrdered(nodes)
    ensures RankedBy(SetupOf(nodes, badRoots, snapshots, slots, started), rank)
  {
    var s := SetupOf(nodes, badRoots, snapshots, slots, started);
    IndexByFacts(nodes, NodeKey());
    rank := map k | k in s.nodes :: PositionOf(nodes, NodeKey(), k);
    forall k, w | Awaits(s, k, w) ensures w in rank && rank[w] < rank[k] {
      var i :| 0 <= i < |nodes| && NodeKey()(nodes[i]) == k;
      PlanPosition(nodes, i);
      assert NodeMap(nodes)[NodeKey()(nodes[i])] == nodes[i];
      assert NodeRefersBack(nodes, i, w);
      var j :| 0 <= j < i && j < |nodes| && nodes[j].key == w;
      PlanPosition(nodes, j);
      assert NodeKey()(nodes[j]) in NodeMap(nodes);
    }
  }

  lemma PlanPosition(nodes: seq<Node>, i: nat)
    requires DistinctBy(nodes, NodeKey()) && i < |nodes|
    ensures PositionOf(nodes, NodeKey(), nodes[i].key) == i
  {
    assert NodeKey()(nodes[i]) == nodes[i].key;
    PositionFinds(nodes, NodeKey(), nodes[i].key);
  }

  /** In every interleaving of a planned task, whatever fails, the run so far extends to one that finishes every
      node. */
  lemma PlannedNeverDeadlocks(nodes: seq<Node>, badRoots: set<Key>, snapshots: bool, slots: nat, started: real,
                              actions: seq<Action>, x: Exec) returns (more: seq<Action>, y: Exec)
    requires DistinctBy(nodes, NodeKey()) && PlanOrdered(nodes) && slots >= 1
    requires var s := SetupOf(nodes, badRoots, snapshots, slots, started); Runs(s, Start(s, started), actions, x)
    ensures x.phases.Keys == NodeMap(nodes).Keys
    ensures var s := SetupOf(nodes, badRoots, snapshots, slots, started); Runs(s, x, more, y) && AllDone(y)
  {
    var s := SetupOf(nodes, badRoots, snapshots, slots, started);
    StartInv(s, started);
    StartDoomed(s, started);
    hide Inv, NodeInv, PlanOrdered, DoomedStays;
    RunInv(s, Start(s, started), actions, x);
    RunDoomed(s, Start(s, started), actions, x);
    InvKeys(s, x);
    var rank := OrderRanks(nodes, badRoots, snapshots, slots, started);
    RankedIsOrdered(s, rank);
    more, y := Completes(s, x, rank);
  }

  lemma InvKeys(s: Setup, x: Exec)
    requires Inv(s, x)
    ensures x.phases.Keys == s.nodes.Keys
  {
  }

  // ---- a valid plan that deadlocks

  /** Request 1 continues the conversation of request 2, which is sent after request 1. */
  function MixedCycle(): seq<Node> {
    [Node(1, 1, SUCCESS, 1, true, CONTINUATION, 7, None, Some(2), APPEND, 0.0, None, Some(10), Some(1), None),
     Node(2, 2, SUCCESS, 2, true, CONTINUATION, 7, Some(1), None, INDEPENDENT, 0.0, None, Some(5), Some(1), None)]
  }

  lemma MixedCycleMap()
    ensures NodeMap(MixedCycle()) == map[1 := MixedCycle()[0], 2 := MixedCycle()[1]]
    ensures DistinctBy(MixedCycle(), NodeKey()) && DistinctBy(MixedCycle(), NodeId())
  {
    var nodes := MixedCycle();
    assert nodes[..1] == [nodes[0]] && nodes[..1][..0] == [];
    assert IndexBy(nodes[..1], NodeKey()) == map[1 := nodes[0]];
  }

  /** Each of the two waits for the other. */
  ghost predicate Stuck(x: Exec) {
    && 1 in x.phases && 2 in x.phases && x.phases[1] == WAITING(NEEDED)
    && x.phases[2] in {WAITING(NEEDED), WAITING(BUILT)}
  }

  lemma {:induction false} StaysStuck(s: Setup, x: Exec, actions: seq<Action>, y: Exec)
    requires s.nodes == map[1 := MixedCycle()[0], 2 := MixedCycle()[1]] && !s.snapshots && s.badRoots == {}
    requires x.phases.Keys == s.nodes.Keys && Runs(s, x, actions, y) && Stuck(x)
    ensures Stuck(y)
    decreases |actions|
  {
    if actions != [] {
      var z := Next(s, x, actions[0]).value;
      assert Stuck(z);
      StaysStuck(s, z, actions[1..], y);
    }
  }

  /** The validator accepts the mixed cycle, yet no run of it ever finishes either node. */
  lemma MixedCycleDeadlocks(slots: nat, now: real, actions: seq<Action>, y: Exec)
    ensures TaskValid(MixedCycle(), Checks(false, AS_KEYS))
    ensures var s := SetupOf(MixedCycle(), {}, false, slots, now);
      Runs(s, Start(s, now), actions, y) ==> !IsDone(y, 1) && !IsDone(y, 2)
  {
    var nodes, s := MixedCycle(), SetupOf(MixedCycle(), {}, false, slots, now);
    MixedCycleMap();
    var next := SendLinks(nodes);
    assert RootWithin(next, 1, 0) && RootWithin(next, 2, 1);
    assert TaskValid(nodes, Checks(false, AS_KEYS));
    if Runs(s, Start(s, now), actions, y) { StaysStuck(s, Start(s, now), actions, y); }
  }
}
