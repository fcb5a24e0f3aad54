/** The replay executor as a step system over node futures. One node is one coroutine; every await that another
    coroutine or the environment can interleave with is a step of its own. */
module ExecutorSteps {
  import opened Wrappers
  import opened ReplaySchema
  import opened TaskPlanning

  datatype Outcome = SUCCEEDED | FAILED_RUN | SKIPPED

  /** What a node's future resolves to. */
  datatype Completion = Completion(finished: real, exchange: bool, outcome: Outcome)

  datatype Prompt = UNUSED | NEEDED | BUILDING | BUILT

  datatype Phase =
    | WAITING(prompt: Prompt)
    | RELEASED(release: real)
    | LASTING(release: real, until: real)
    | RENDERING(release: real)
    | SENT(release: real, at: real)
    | DONE(completion: Completion, releasedAt: Option<real>, sentAt: Option<real>)

  datatype Record = Record(key: Key, outcome: Outcome, release: Option<real>, sent: Option<real>)

  /** `badRoots`: requests without context whose prompt could not be built before the graph started. */
  datatype Setup = Setup(nodes: map<Key, Node>, badRoots: set<Key>, snapshots: bool, slots: nat, started: real)

  datatype Exec = Exec(now: real, phases: map<Key, Phase>, results: seq<Record>)

  datatype Move =
    | FAIL_EARLY | TAKE_ROOT | START_BUILD | END_BUILD(ok: bool) | RELEASE | WAKE | END_RENDER(ok: bool)
    | ELAPSE | RESPOND(ok: bool, at: real) | RAISE

  datatype Action = TICK(to: real) | NODE(key: Key, move: Move)

  predicate NeedsPrompt(s: Setup, k: Key)
    requires k in s.nodes
  {
    s.nodes[k].isRequest && !s.snapshots
  }

  /** The context a node awaits; snapshot prompts await none. */
  function ContextOf(s: Setup, k: Key): Option<Key>
    requires k in s.nodes
  {
    if NeedsPrompt(s, k) then s.nodes[k].contextAfter else None
  }

  predicate IsDone(x: Exec, k: Key) {
    k in x.phases && x.phases[k].DONE?
  }

  /** The context exchange a dependent prompt can be built on. */
  predicate Usable(x: Exec, k: Key) {
    IsDone(x, k) && x.phases[k].completion.outcome == SUCCEEDED && x.phases[k].completion.exchange
  }

  predicate SendDone(s: Setup, x: Exec, k: Key)
    requires k in s.nodes
  {
    s.nodes[k].sendAfter.Some? ==> IsDone(x, s.nodes[k].sendAfter.value)
  }

  /** Predecessor finish, or the start of the graph, plus the interval. */
  function ReleaseClock(s: Setup, x: Exec, k: Key): real
    requires k in s.nodes && SendDone(s, x, k)
  {
    (if s.nodes[k].sendAfter.Some? then x.phases[s.nodes[k].sendAfter.value].completion.finished else s.started)
    + s.nodes[k].interval
  }

  /** Nodes that hold one of the inflight slots. */
  function Holders(s: Setup, x: Exec): set<Key> {
    set k | k in x.phases && (x.phases[k].RENDERING? || (s.snapshots && x.phases[k].SENT?))
  }

  function Failure(x: Exec, outcome: Outcome): Phase {
    DONE(Completion(x.now, false, outcome), None, None)
  }

  function Duration(n: Node): real {
    if n.duration.Some? then Seconds(n.duration.value) else 0.0
  }

  /** The phase one move leads to, if the move is possible now. */
  function Moved(s: Setup, x: Exec, k: Key, move: Move): Option<Phase>
    requires k in s.nodes && k in x.phases
  {
    var n := s.nodes[k];
    match (x.phases[k], move)
    case (WAITING(NEEDED), FAIL_EARLY) =>
      if ContextOf(s, k).Some? then
        var context := ContextOf(s, k).value;
        if IsDone(x, context) && !Usable(x, context) then Some(Failure(x, SKIPPED)) else None
      else if k in s.badRoots then Some(Failure(x, FAILED_RUN)) else None
    case (WAITING(NEEDED), TAKE_ROOT) =>
      if ContextOf(s, k).None? && k !in s.badRoots then Some(WAITING(BUILT)) else None
    case (WAITING(NEEDED), START_BUILD) =>
      if ContextOf(s, k).Some? && Usable(x, ContextOf(s, k).value) then Some(WAITING(BUILDING)) else None
    case (WAITING(BUILDING), END_BUILD(ok)) => Some(if ok then WAITING(BUILT) else Failure(x, FAILED_RUN))
    case (WAITING(prompt), RELEASE) =>
      if prompt in {UNUSED, BUILT} && SendDone(s, x, k) then Some(RELEASED(ReleaseClock(s, x, k))) else None
    case (RELEASED(release), WAKE) =>
      if x.now < release then None
      else if !n.isRequest then Some(LASTING(release, x.now + Duration(n)))
      else if !s.snapshots then Some(SENT(release, x.now))
      else if |Holders(s, x)| < s.slots then Some(RENDERING(release)) else None
    case (RENDERING(release), END_RENDER(ok)) => Some(if ok then SENT(release, x.now) else Failure(x, FAILED_RUN))
    case (LASTING(release, until), ELAPSE) =>
      if x.now < until then None else Some(DONE(Completion(x.now, false, SUCCEEDED), Some(release), None))
    case (SENT(release, at), RESPOND(ok, finished)) =>
      if at <= finished <= x.now then
        var completion := Completion(finished, ok && !s.snapshots, if ok then SUCCEEDED else FAILED_RUN);
        Some(DONE(completion, Some(release), Some(at)))
      else None
    case (SENT(release, at), RAISE) => Some(Failure(x, FAILED_RUN))
    case _ => None
  }

  /** A finishing node resolves its future and appends its record without an await in between. */
  function Become(x: Exec, k: Key, p: Phase): Exec {
    Exec(x.now, x.phases[k := p],
         if p.DONE? then x.results + [Record(k, p.completion.outcome, p.releasedAt, p.sentAt)] else x.results)
  }

  function Next(s: Setup, x: Exec, a: Action): Option<Exec>
    requires x.phases.Keys == s.nodes.Keys
  {
    match a
    case TICK(to) => if to >= x.now then Some(x.(now := to)) else None
    case NODE(k, move) =>
      if k !in s.nodes then None
      else match Moved(s, x, k, move)
        case None => None
        case Some(p) => Some(Become(x, k, p))
  }

  function Start(s: Setup, now: real): Exec {
    Exec(now, map k | k in s.nodes :: WAITING(if NeedsPrompt(s, k) then NEEDED else UNUSED), [])
  }

  /** `y` is reached from `x` by these actions, each possible in turn. */
  ghost predicate Runs(s: Setup, x: Exec, actions: seq<Action>, y: Exec)
    requires x.phases.Keys == s.nodes.Keys
    decreases |actions|
  {
    if actions == [] then y == x
    else
      var z := Next(s, x, actions[0]);
      z.Some? && z.value.phases.Keys == s.nodes.Keys && Runs(s, z.value, actions[1..], y)
  }

  lemma {:induction false} RunsSnoc(s: Setup, x: Exec, actions: seq<Action>, y: Exec, a: Action, z: Exec)
    requires x.phases.Keys == s.nodes.Keys && Runs(s, x, actions, y)
    requires y.phases.Keys == s.nodes.Keys && Next(s, y, a) == Some(z) && z.phases.Keys == s.nodes.Keys
    ensures Runs(s, x, actions + [a], z)
    decreases |actions|
  {
    if actions == [] {
      assert Runs(s, z, [], z);
      assert (actions + [a])[1..] == [];
    } else {
      RunsSnoc(s, Next(s, x, actions[0]).value, actions[1..], y, a, z);
      assert (actions + [a])[1..] == actions[1..] + [a];
    }
  }
}

/** What every interleaving keeps. */
module ExecutorSafety {
  import opened Wrappers
  import opened Sequences
  import opened ReplaySchema
  import opened ExecutorSteps

  /** Every reference names a node of the task. */
  ghost predicate ReferencesPresent(s: Setup) {
    forall k | k in s.nodes ::
      && (s.nodes[k].sendAfter.Some? ==> s.nodes[k].sendAfter.value in s.nodes)
      && (s.nodes[k].contextAfter.Some? ==> s.nodes[k].contextAfter.value in s.nodes)
  }

  ghost predicate ContextUsable(s: Setup, x: Exec, k: Key)
    requires k in s.nodes
  {
    ContextOf(s, k).Some? ==> Usable(x, ContextOf(s, k).value)
  }

  /** The context finished without an exchange to build on. */
  ghost predicate Spoiled(s: Setup, x: Exec, k: Key)
    requires k in s.nodes
  {
    ContextOf(s, k).Some? && IsDone(x, ContextOf(s, k).value) && !Usable(x, ContextOf(s, k).value)
  }

  /** Released with everything awaited resolved, at exactly predecessor finish plus interval. */
  ghost predicate ReleasedAt(s: Setup, x: Exec, k: Key, release: real)
    requires k in s.nodes
  {
    ContextUsable(s, x, k) && SendDone(s, x, k) && release == ReleaseClock(s, x, k)
  }

  ghost predicate NodeInv(s: Setup, x: Exec, k: Key)
    requires k in s.nodes && k in x.phases
  {
    match x.phases[k]
    case WAITING(prompt) =>
      && (prompt == UNUSED <==> !NeedsPrompt(s, k))
      && (prompt in {BUILDING, BUILT} ==> ContextUsable(s, x, k))
    case RELEASED(release) => ReleasedAt(s, x, k, release)
    case LASTING(release, until) => !s.nodes[k].isRequest && ReleasedAt(s, x, k, release) && release <= x.now
    case RENDERING(release) => s.nodes[k].isRequest && s.snapshots && ReleasedAt(s, x, k, release) && release <= x.now
    case SENT(release, at) => s.nodes[k].isRequest && ReleasedAt(s, x, k, release) && release <= at <= x.now
    case DONE(c, release, sent) =>
      && c.finished <= x.now
      && (ContextOf(s, k).Some? ==> IsDone(x, ContextOf(s, k).value))
      && (c.outcome == SKIPPED <==> Spoiled(s, x, k))
      && (c.outcome == SUCCEEDED ==> release.Some? && sent.Some? == s.nodes[k].isRequest)
      && (c.outcome == SKIPPED ==> release.None?)
      && (c.exchange <==> c.outcome == SUCCEEDED && NeedsPrompt(s, k))
      && (release.Some? ==> ReleasedAt(s, x, k, release.value) && release.value <= c.finished)
      && (sent.Some? ==> release.Some? && release.value <= sent.value <= c.finished)
  }

  /** One record per finished node. */
  ghost predicate ResultsInv(s: Setup, x: Exec) {
    && (forall i, j | 0 <= i < j < |x.results| :: x.results[i].key != x.results[j].key)
    && (forall i | 0 <= i < |x.results| :: RecordMatches(x, x.results[i]))
    && (forall k | k in x.phases && x.phases[k].DONE? :: Recorded(x.results, k))
  }

  ghost predicate RecordMatches(x: Exec, r: Record) {
    && IsDone(x, r.key)
    && r == Record(r.key, x.phases[r.key].completion.outcome, x.phases[r.key].releasedAt, x.phases[r.key].sentAt)
  }

  ghost predicate Recorded(results: seq<Record>, k: Key) {
    exists i :: 0 <= i < |results| && results[i].key == k
  }

  /** What a node waits for before it may be released. */
  ghost predicate Awaits(s: Setup, k: Key, w: Key) {
    k in s.nodes && (s.nodes[k].sendAfter == Some(w) || ContextOf(s, k) == Some(w))
  }

  /** Nothing is recorded before its context; a success is not recorded before its send predecessor either. */
  ghost predicate MustFollow(s: Setup, r: Record, w: Key) {
    Awaits(s, r.key, w) && (r.outcome == SUCCEEDED || ContextOf(s, r.key) == Some(w))
  }

  ghost predicate RecordOrder(s: Setup, results: seq<Record>) {
    forall i, w | 0 <= i < |results| && MustFollow(s, results[i], w) :: Recorded(results[..i], w)
  }

  ghost predicate Inv(s: Setup, x: Exec) {
    && x.phases.Keys == s.nodes.Keys
    && (forall k | k in s.nodes :: NodeInv(s, x, k))
    && ResultsInv(s, x) && RecordOrder(s, x.results)
    && |Holders(s, x)| <= s.slots
  }

  lemma StartInv(s: Setup, now: real)
    ensures Inv(s, Start(s, now))
  {
    assert Holders(s, Start(s, now)) == {};
  }

  /** Time moves forward and resolved futures never change. */
  ghost predicate Extends(x: Exec, y: Exec) {
    && x.now <= y.now && x.phases.Keys == y.phases.Keys
    && forall k | k in x.phases && x.phases[k].DONE? :: y.phases[k] == x.phases[k]
  }

  lemma NodeInvStable(s: Setup, x: Exec, y: Exec, k: Key)
    requires k in s.nodes && k in x.phases && NodeInv(s, x, k) && Extends(x, y) && y.phases[k] == x.phases[k]
    ensures NodeInv(s, y, k)
  {
  }

  lemma MoveExtends(s: Setup, x: Exec, k: Key, move: Move)
    requires k in s.nodes && k in x.phases && Moved(s, x, k, move).Some?
    ensures !x.phases[k].DONE? && Extends(x, Become(x, k, Moved(s, x, k, move).value))
  {
  }

  /** The moving node's own invariant. */
  lemma MovedInv(s: Setup, x: Exec, k: Key, move: Move)
    requires k in s.nodes && k in x.phases && NodeInv(s, x, k) && Moved(s, x, k, move).Some?
    requires forall j | j in s.nodes && j in x.phases :: NodeInv(s, x, j)
    ensures NodeInv(s, Become(x, k, Moved(s, x, k, move).value), k)
  {
    MoveExtends(s, x, k, move);
  }

  lemma HoldersMove(s: Setup, x: Exec, k: Key, move: Move)
    requires k in s.nodes && k in x.phases && NodeInv(s, x, k) && Moved(s, x, k, move).Some?
    requires |Holders(s, x)| <= s.slots
    ensures |Holders(s, Become(x, k, Moved(s, x, k, move).value))| <= s.slots
  {
    var y := Become(x, k, Moved(s, x, k, move).value);
    if move == WAKE && y.phases[k].RENDERING? {
      assert Holders(s, y) == Holders(s, x) + {k};
    } else {
      assert Holders(s, y) <= Holders(s, x);
      FewerMembers(Holders(s, y), Holders(s, x));
    }
  }

  lemma ResultsMove(s: Setup, x: Exec, k: Key, move: Move)
    requires x.phases.Keys == s.nodes.Keys && k in s.nodes && NodeInv(s, x, k) && Moved(s, x, k, move).Some?
    requires ResultsInv(s, x) && RecordOrder(s, x.results)
    ensures ResultsInv(s, Become(x, k, Moved(s, x, k, move).value))
    ensures RecordOrder(s, Become(x, k, Moved(s, x, k, move).value).results)
  {
    var p := Moved(s, x, k, move).value;
    MoveExtends(s, x, k, move);
    if p.DONE? { OrderMove(s, x, k, move); }
    hide RecordOrder, Moved, NodeInv, ResultsInv;
    RecordAppended(s, x, k, p);
  }

  /** A node that changes phase, and is recorded if that finishes it, leaves one record per finished node. */
  lemma RecordAppended(s: Setup, x: Exec, k: Key, p: Phase)
    requires ResultsInv(s, x) && k in x.phases && !x.phases[k].DONE?
    ensures ResultsInv(s, Become(x, k, p))
  {
    var y := Become(x, k, p);
    forall i | 0 <= i < |x.results| ensures x.results[i].key != k && RecordMatches(y, x.results[i]) {
      MatchKept(x, k, p, x.results[i]);
    }
    hide RecordMatches, Recorded;
    if p.DONE? {
      var r := Record(k, p.completion.outcome, p.releasedAt, p.sentAt);
      assert y.results == x.results + [r];
      assert RecordMatches(y, r) by { NewMatches(x, k, p); }
      forall j | j in y.phases && y.phases[j].DONE? ensures Recorded(y.results, j) {
        assert j != k ==> Recorded(x.results, j);
        RecordedMore(x.results, r, j);
      }
    }
  }

  lemma MatchKept(x: Exec, k: Key, p: Phase, r: Record)
    requires RecordMatches(x, r) && k in x.phases && !x.phases[k].DONE?
    ensures r.key != k && RecordMatches(Become(x, k, p), r)
  {
  }

  lemma NewMatches(x: Exec, k: Key, p: Phase)
    requires k in x.phases && p.DONE?
    ensures RecordMatches(Become(x, k, p), Record(k, p.completion.outcome, p.releasedAt, p.sentAt))
  {
  }

  lemma RecordedMore(results: seq<Record>, r: Record, j: Key)
    requires Recorded(results, j) || j == r.key
    ensures Recorded(results + [r], j)
  {
    assert (results + [r])[|results|] == r;
    if Recorded(results, j) {
      var i :| 0 <= i < |results| && results[i].key == j;
      assert (results + [r])[i].key == j;
    }
  }

  /** A node records itself after all that it had to follow. */
  lemma OrderMove(s: Setup, x: Exec, k: Key, move: Move)
    requires x.phases.Keys == s.nodes.Keys && k in s.nodes && NodeInv(s, x, k) && Moved(s, x, k, move).Some?
    requires Moved(s, x, k, move).value.DONE? && ResultsInv(s, x) && RecordOrder(s, x.results)
    ensures RecordOrder(s, Become(x, k, Moved(s, x, k, move).value).results)
  {
    var y := Become(x, k, Moved(s, x, k, move).value);
    assert x.results == y.results[..|x.results|];
    forall i, w | 0 <= i < |y.results| && MustFollow(s, y.results[i], w)
      ensures Recorded(y.results[..i], w)
    {
      if i < |x.results| {
        assert y.results[..i] == x.results[..i];
      } else {
        assert IsDone(x, w);
      }
    }
  }

  /** Every step of every node, and every passage of time, keeps the invariant. */
  lemma StepInv(s: Setup, x: Exec, a: Action)
    requires Inv(s, x) && Next(s, x, a).Some?
    ensures Inv(s, Next(s, x, a).value) && Extends(x, Next(s, x, a).value)
  {
    hide NodeInv, ResultsInv, RecordOrder, Moved;
    var y := Next(s, x, a).value;
    match a {
      case TICK(to) =>
        assert Extends(x, y) && Holders(s, y) == Holders(s, x);
        forall k | k in s.nodes ensures NodeInv(s, y, k) { NodeInvStable(s, x, y, k); }
        ResultsTick(s, x, to);
      case NODE(k, move) =>
        MoveExtends(s, x, k, move);
        forall j | j in s.nodes ensures NodeInv(s, y, j) {
          if j == k { MovedInv(s, x, k, move); } else { NodeInvStable(s, x, y, j); }
        }
        HoldersMove(s, x, k, move);
        ResultsMove(s, x, k, move);
    }
  }

  lemma ResultsTick(s: Setup, x: Exec, to: real)
    requires ResultsInv(s, x)
    ensures ResultsInv(s, x.(now := to))
  {
    forall i | 0 <= i < |x.results| ensures RecordMatches(x.(now := to), x.results[i]) {
      assert RecordMatches(x, x.results[i]);
    }
  }

  lemma {:induction false} RunInv(s: Setup, x: Exec, actions: seq<Action>, y: Exec)
    requires Inv(s, x) && Runs(s, x, actions, y)
    ensures Inv(s, y) && Extends(x, y)
    decreases |actions|
  {
    if actions != [] {
      var z := Next(s, x, actions[0]).value;
      StepInv(s, x, actions[0]);
      RunInv(s, z, actions[1..], y);
    }
  }

  // ---- what the invariant says of whole runs

  /** In every interleaving each finished node is recorded exactly once and no other node is. */
  lemma RecordedOnce(s: Setup, now: real, actions: seq<Action>, y: Exec, k: Key)
    requires Runs(s, Start(s, now), actions, y) && k in s.nodes
    ensures y.phases.Keys == s.nodes.Keys
    ensures y.phases[k].DONE? <==> exists i :: 0 <= i < |y.results| && y.results[i].key == k
    ensures forall i, j | 0 <= i < j < |y.results| :: y.results[i].key != y.results[j].key
  {
    StartInv(s, now);
    RunInv(s, Start(s, now), actions, y);
    if exists i :: 0 <= i < |y.results| && y.results[i].key == k {
      var i :| 0 <= i < |y.results| && y.results[i].key == k;
      assert RecordMatches(y, y.results[i]);
    }
    if y.phases[k].DONE? { assert Recorded(y.results, k); }
  }

  /** A finished request was skipped exactly when the context it awaits had not succeeded; a failed send
      predecessor alone never causes a skip. */
  lemma SkippedExactly(s: Setup, now: real, actions: seq<Action>, y: Exec, k: Key)
    requires Runs(s, Start(s, now), actions, y) && k in s.nodes && ReferencesPresent(s)
    ensures IsDone(y, k) ==>
      (y.phases[k].completion.outcome == SKIPPED <==>
         ContextOf(s, k).Some? && IsDone(y, ContextOf(s, k).value)
         && !(y.phases[ContextOf(s, k).value].completion.outcome == SUCCEEDED && NeedsPrompt(s, ContextOf(s, k).value)))
  {
    StartInv(s, now);
    RunInv(s, Start(s, now), actions, y);
    assert NodeInv(s, y, k);
    if ContextOf(s, k).Some? { assert NodeInv(s, y, ContextOf(s, k).value); }
  }

  /** A send at this time came after the predecessor's finish and the interval, and after the context's success. */
  ghost predicate SentAfter(s: Setup, y: Exec, k: Key, sent: real)
    requires k in s.nodes
  {
    var n := s.nodes[k];
    && (n.sendAfter.Some? ==>
          IsDone(y, n.sendAfter.value) && sent >= y.phases[n.sendAfter.value].completion.finished + n.interval)
    && (n.sendAfter.None? ==> sent >= s.started + n.interval)
    && (ContextOf(s, k).Some? ==> Usable(y, ContextOf(s, k).value))
  }

  /** Every send, as soon as it is in flight and whatever becomes of it later, came after all that it waits for; so did
      every recorded one. */
  lemma SentInOrder(s: Setup, now: real, actions: seq<Action>, x: Exec, more: seq<Action>, y: Exec)
    requires Runs(s, Start(s, now), actions, x) && x.phases.Keys == s.nodes.Keys && Runs(s, x, more, y)
    ensures forall k | k in s.nodes && x.phases[k].SENT? ::
      SentAfter(s, x, k, x.phases[k].at) && SentAfter(s, y, k, x.phases[k].at)
    ensures forall i | 0 <= i < |x.results| && x.results[i].sent.Some? ::
      x.results[i].key in s.nodes && SentAfter(s, x, x.results[i].key, x.results[i].sent.value)
  {
    StartInv(s, now);
    hide Start, Inv;
    RunInv(s, Start(s, now), actions, x);
    RunInv(s, x, more, y);
    hide Runs, SentAfter, Extends;
    forall k | k in s.nodes && x.phases[k].SENT?
      ensures SentAfter(s, x, k, x.phases[k].at) && SentAfter(s, y, k, x.phases[k].at)
    {
      SentNow(s, x, k);
      SentLater(s, x, y, k, x.phases[k].at);
    }
    forall i | 0 <= i < |x.results| && x.results[i].sent.Some?
      ensures x.results[i].key in s.nodes && SentAfter(s, x, x.results[i].key, x.results[i].sent.value)
    {
      SentRecorded(s, x, i);
    }
  }

  lemma SentNow(s: Setup, x: Exec, k: Key)
    requires Inv(s, x) && k in s.nodes && k in x.phases && x.phases[k].SENT?
    ensures SentAfter(s, x, k, x.phases[k].at)
  {
    hide ResultsInv, RecordOrder;
    assert NodeInv(s, x, k);
  }

  lemma SentLater(s: Setup, x: Exec, y: Exec, k: Key, sent: real)
    requires k in s.nodes && Extends(x, y) && SentAfter(s, x, k, sent)
    ensures SentAfter(s, y, k, sent)
  {
  }

  lemma SentRecorded(s: Setup, x: Exec, i: nat)
    requires Inv(s, x) && i < |x.results| && x.results[i].sent.Some?
    ensures x.results[i].key in s.nodes && SentAfter(s, x, x.results[i].key, x.results[i].sent.value)
  {
    hide RecordOrder;
    assert RecordMatches(x, x.results[i]);
    assert NodeInv(s, x, x.results[i].key);
  }

  /** Snapshot requests never exceed the inflight limit. */
  lemma InflightBounded(s: Setup, now: real, actions: seq<Action>, y: Exec)
    requires Runs(s, Start(s, now), actions, y)
    ensures |Holders(s, y)| <= s.slots
  {
    StartInv(s, now);
    RunInv(s, Start(s, now), actions, y);
  }

  /** Two outcomes of a send predecessor with the same finish time allow a node the same moves: a failed predecessor
      neither blocks nor skips. */
  lemma SendOutcomeIrrelevant(s: Setup, x: Exec, k: Key, p: Key, other: Phase, move: Move)
    requires x.phases.Keys == s.nodes.Keys && k in s.nodes && IsDone(x, p) && k != p
    requires other.DONE? && other.completion.finished == x.phases[p].completion.finished
    requires ContextOf(s, k) != Some(p)
    ensures Moved(s, x.(phases := x.phases[p := other]), k, move) == Moved(s, x, k, move)
  {
    var y := x.(phases := x.phases[p := other]);
    assert Holders(s, y) == Holders(s, x);
  }
}
