/** `sample_replay_sessions`: whole shuffled cycles over the replayable sessions, cut to the number of tasks. */
module Sampler {
  import opened Wrappers
  import opened Sequences
  import opened Arithmetic
  import opened Sorting
  import opened Indexing
  import opened ReplaySchema

  type SourceId = int
  type RuntimeSession = int

  datatype Session = Session(id: SourceId, requests: seq<Request>) {
    predicate Replayable() {
      exists i :: 0 <= i < |requests| && requests[i].isRequest
    }
  }

  datatype Sampled = Sampled(taskIndex: nat, ordinal: nat, runtimeSession: RuntimeSession, source: Session)

  /** Digests that order a cycle, and the name-based identifier of a (session, ordinal) pair. */
  datatype Digests = Digests(cycle: (nat, SourceId) -> int, uuid: (SourceId, nat) -> RuntimeSession)

  function SourceKey(): Session -> SourceId { (s: Session) => s.id }

  function IsReplayable(): Session -> bool { (s: Session) => s.Replayable() }

  function ById(): (Session, Session) -> bool { (a: Session, b: Session) => a.id <= b.id }

  /** Cycle order: by digest, ties by id. */
  function ByDigest(d: Digests, cycle: nat): (Session, Session) -> bool {
    (a: Session, b: Session) =>
      d.cycle(cycle, a.id) < d.cycle(cycle, b.id) || (d.cycle(cycle, a.id) == d.cycle(cycle, b.id) && a.id <= b.id)
  }

  function Replayables(sessions: seq<Session>): seq<Session> {
    Sort(Filter(sessions, IsReplayable()), ById())
  }

  /** The first `n` whole cycles. */
  function Cycles(d: Digests, replayable: seq<Session>, n: nat): seq<Session> {
    if n == 0 then [] else Cycles(d, replayable, n - 1) + Sort(replayable, ByDigest(d, n - 1))
  }

  /** How often a session was drawn. */
  function Draws(drawn: seq<Session>, id: SourceId): nat {
    if drawn == [] then 0
    else Draws(drawn[..|drawn| - 1], id) + (if drawn[|drawn| - 1].id == id then 1 else 0)
  }

  lemma {:induction false} DrawsConcat(s: seq<Session>, t: seq<Session>, id: SourceId)
    ensures Draws(s + t, id) == Draws(s, id) + Draws(t, id)
  {
    if t == [] {
      assert s + t == s;
    } else {
      var init, last := t[..|t| - 1], t[|t| - 1];
      DrawsConcat(s, init, id);
      assert (s + t)[..|s + t| - 1] == s + init;
    }
  }

  /** Among distinct sessions each is drawn once if present and never otherwise. */
  lemma {:induction false} DrawsDistinct(s: seq<Session>, id: SourceId)
    requires DistinctBy(s, SourceKey())
    ensures Draws(s, id) == if exists i :: 0 <= i < |s| && s[i].id == id then 1 else 0
  {
    if s != [] {
      var init, last := s[..|s| - 1], s[|s| - 1];
      DrawsDistinct(init, id);
      assert forall i | 0 <= i < |init| :: init[i] == s[i] && SourceKey()(s[i]) != SourceKey()(last);
      if exists i :: 0 <= i < |s| && s[i].id == id {
        var i :| 0 <= i < |s| && s[i].id == id;
        if i < |init| { assert init[i].id == id; }
      }
    }
  }

  /** Each cycle is a reordering of the replayable sessions. */
  lemma CycleShape(d: Digests, replayable: seq<Session>, n: nat)
    requires DistinctBy(replayable, SourceKey())
    ensures var cycle := Sort(replayable, ByDigest(d, n));
      && |cycle| == |replayable| && multiset(cycle) == multiset(replayable) && DistinctBy(cycle, SourceKey())
  {
    var leq := ByDigest(d, n);
    assert TotalPreorder(leq);
    SortSorts(replayable, leq);
    PermutedDistinct(replayable, Sort(replayable, leq), SourceKey());
  }

  /** Between `t / m` rounded down and up, with `m` the number of replayable sessions. */
  ghost predicate Fair(count: nat, t: nat, m: nat) {
    count * m < t + m && t < (count + 1) * m
  }

  /** Draws of one session from a prefix of one cycle. */
  lemma CyclePrefix(d: Digests, replayable: seq<Session>, n: nat, u: nat, id: SourceId)
    requires DistinctBy(replayable, SourceKey()) && u <= |replayable|
    requires exists i :: 0 <= i < |replayable| && replayable[i].id == id
    ensures |Sort(replayable, ByDigest(d, n))| == |replayable|
    ensures Draws(Sort(replayable, ByDigest(d, n))[..u], id) <= 1
    ensures u == |replayable| ==> Draws(Sort(replayable, ByDigest(d, n))[..u], id) == 1
    ensures u == 0 ==> Draws(Sort(replayable, ByDigest(d, n))[..u], id) == 0
  {
    CycleShape(d, replayable, n);
    var cycle := Sort(replayable, ByDigest(d, n));
    assert forall i | 0 <= i < u :: cycle[..u][i] == cycle[i];
    DrawsDistinct(cycle[..u], id);
    if u == |replayable| {
      assert cycle[..u] == cycle;
      var i :| 0 <= i < |replayable| && replayable[i].id == id;
      assert replayable[i] in multiset(cycle);
      var j :| 0 <= j < |cycle| && cycle[j] == replayable[i];
    }
  }

  lemma {:induction false} CyclesLength(d: Digests, replayable: seq<Session>, n: nat)
    requires DistinctBy(replayable, SourceKey())
    ensures |Cycles(d, replayable, n)| == n * |replayable|
  {
    if n > 0 {
      CyclesLength(d, replayable, n - 1);
      CycleAdds(d, replayable, n);
      TimesPrevious(n, |replayable|);
    }
  }

  lemma CycleAdds(d: Digests, replayable: seq<Session>, n: nat)
    requires DistinctBy(replayable, SourceKey()) && n > 0
    ensures |Cycles(d, replayable, n)| == |Cycles(d, replayable, n - 1)| + |replayable|
  {
    hide Sort, DistinctBy;
    CycleShape(d, replayable, n - 1);
  }

  /** Every prefix of the cycles draws every replayable session fairly. */
  lemma {:induction false} CyclesFair(d: Digests, replayable: seq<Session>, n: nat, t: nat, id: SourceId)
    requires DistinctBy(replayable, SourceKey()) && t <= |Cycles(d, replayable, n)|
    requires exists i :: 0 <= i < |replayable| && replayable[i].id == id
    ensures Fair(Draws(Cycles(d, replayable, n)[..t], id), t, |replayable|)
    ensures t == n * |replayable| ==> Draws(Cycles(d, replayable, n)[..t], id) == n
  {
    hide Sort, DistinctBy, Draws, Fair;
    var m := |replayable|;
    CyclesLength(d, replayable, n);
    if n == 0 {
      FairStart(replayable, id);
    } else {
      var before, cycle := Cycles(d, replayable, n - 1), Sort(replayable, ByDigest(d, n - 1));
      CyclesLength(d, replayable, n - 1);
      if t <= |before| {
        CyclesFair(d, replayable, n - 1, t, id);
        assert Cycles(d, replayable, n)[..t] == before[..t];
      } else {
        var u := t - |before|;
        TimesPrevious(n, m);
        CyclesFair(d, replayable, n - 1, |before|, id);
        CyclePrefix(d, replayable, n - 1, u, id);
        assert before[..|before|] == before;
        assert Cycles(d, replayable, n)[..t] == before + cycle[..u];
        DrawsConcat(before, cycle[..u], id);
        FairStep(n - 1, Draws(cycle[..u], id), u, m);
      }
    }
  }

  lemma FairStart(replayable: seq<Session>, id: SourceId)
    requires exists i :: 0 <= i < |replayable| && replayable[i].id == id
    ensures Draws([], id) == 0 && Fair(0, 0, |replayable|)
  {
  }

  lemma FairStep(whole: nat, part: nat, u: nat, m: nat)
    requires part <= 1 && u <= m && 0 < u && (u == m ==> part == 1)
    ensures Fair(whole + part, whole * m + u, m)
  {
    assert (whole + 1) * m == whole * m + m;
    assert (whole + 2) * m == whole * m + m + m;
  }

  /** What a sample promises: positions, ordinals, identities, and the order of draws. */
  ghost predicate SampledOk(d: Digests, sessions: seq<Session>, total: int, r: seq<Sampled>) {
    && |r| == (if total < 0 then 0 else total)
    && (exists n: nat ::
          |r| <= |Cycles(d, Replayables(sessions), n)| && Sources(r) == Cycles(d, Replayables(sessions), n)[..|r|])
    && (forall i | 0 <= i < |r| ::
          && r[i].taskIndex == i && r[i].ordinal == Draws(Sources(r)[..i], r[i].source.id)
          && r[i].runtimeSession == d.uuid(r[i].source.id, r[i].ordinal))
  }

  function Sources(r: seq<Sampled>): (s: seq<Session>)
    ensures |s| == |r| && forall i | 0 <= i < |r| :: s[i] == r[i].source
  {
    seq(|r|, i requires 0 <= i < |r| => r[i].source)
  }

  method SampleSessions(d: Digests, sessions: seq<Session>, total: int) returns (r: Option<seq<Sampled>>)
    requires DistinctBy(sessions, SourceKey())
    ensures r.None? <==> forall i | 0 <= i < |sessions| :: !sessions[i].Replayable()
    ensures r.Some? ==> SampledOk(d, sessions, total, r.value)
  {
    hide *;
    var replayable := Replayables(sessions);
    ReplayableFacts(sessions);
    if replayable == [] { return None; }
    var selected, cycles := SelectCycles(d, replayable, total);
    var kept := if total < 0 then [] else selected[..total];
    var sampled := NumberDraws(d, kept);
    SampledAs(d, sessions, total, sampled, kept, cycles);
    r := Some(sampled);
  }

  /** Whole cycles until there are enough draws. */
  method SelectCycles(d: Digests, replayable: seq<Session>, total: int)
    returns (selected: seq<Session>, ghost cycles: nat)
    requires DistinctBy(replayable, SourceKey()) && replayable != []
    ensures selected == Cycles(d, replayable, cycles) && |selected| >= total
  {
    hide Sort, DistinctBy;
    selected := [];
    var cycle := 0;
    while |selected| < total
      invariant selected == Cycles(d, replayable, cycle)
      decreases total - |selected|
    {
      CycleShape(d, replayable, cycle);
      selected := selected + Sort(replayable, ByDigest(d, cycle));
      cycle := cycle + 1;
    }
    cycles := cycle;
  }

  lemma SampledAs(d: Digests, sessions: seq<Session>, total: int, r: seq<Sampled>, kept: seq<Session>, cycles: nat)
    requires |r| == |kept| == (if total < 0 then 0 else total)
    requires |kept| <= |Cycles(d, Replayables(sessions), cycles)|
      && kept == Cycles(d, Replayables(sessions), cycles)[..|kept|]
    requires forall i | 0 <= i < |r| :: r[i] == Sampled(i, Draws(kept[..i], kept[i].id),
      d.uuid(kept[i].id, Draws(kept[..i], kept[i].id)), kept[i])
    ensures SampledOk(d, sessions, total, r)
  {
    hide Draws, Cycles, Replayables;
    assert Sources(r) == kept;
  }

  /** Draw counters number the samples of each session from zero. */
  method NumberDraws(d: Digests, kept: seq<Session>) returns (r: seq<Sampled>)
    ensures |r| == |kept|
    ensures forall i | 0 <= i < |r| :: r[i] == Sampled(i, Draws(kept[..i], kept[i].id),
      d.uuid(kept[i].id, Draws(kept[..i], kept[i].id)), kept[i])
  {
    r := [];
    hide Draws;
    NoDraws(kept);
    var ordinals: map<SourceId, nat> := map[];
    for n := 0 to |kept|
      invariant |r| == n
      invariant forall id :: (if id in ordinals then ordinals[id] else 0) == Draws(kept[..n], id)
      invariant forall i | 0 <= i < n :: r[i] == Sampled(i, Draws(kept[..i], kept[i].id),
        d.uuid(kept[i].id, Draws(kept[..i], kept[i].id)), kept[i])
    {
      var id := kept[n].id;
      var ordinal := if id in ordinals then ordinals[id] else 0;
      ordinals := ordinals[id := ordinal + 1];
      r := r + [Sampled(n, ordinal, d.uuid(id, ordinal), kept[n])];
      NextDraw(kept, n);
    }
  }

  lemma NoDraws(kept: seq<Session>)
    ensures forall id :: Draws(kept[..0], id) == 0
  {
  }

  lemma NextDraw(kept: seq<Session>, n: nat)
    requires n < |kept|
    ensures forall id :: Draws(kept[..n + 1], id) == Draws(kept[..n], id) + (if kept[n].id == id then 1 else 0)
  {
    assert kept[..n + 1][..n] == kept[..n] && kept[..n + 1][n] == kept[n];
  }

  lemma ReplayableFacts(sessions: seq<Session>)
    requires DistinctBy(sessions, SourceKey())
    ensures DistinctBy(Replayables(sessions), SourceKey())
    ensures forall s :: s in Replayables(sessions) <==> s in sessions && s.Replayable()
    ensures Replayables(sessions) == [] <==> forall i | 0 <= i < |sessions| :: !sessions[i].Replayable()
  {
    ReplayablesSorted(sessions);
    FilterMembers(sessions, IsReplayable());
    hide Replayables, DistinctBy, Filter;
    if Replayables(sessions) == [] {
      forall i | 0 <= i < |sessions| ensures !sessions[i].Replayable() { assert sessions[i] !in Replayables(sessions); }
    } else {
      assert Replayables(sessions)[0] in Replayables(sessions);
    }
  }

  lemma ReplayablesSorted(sessions: seq<Session>)
    requires DistinctBy(sessions, SourceKey())
    ensures DistinctBy(Replayables(sessions), SourceKey())
    ensures forall s :: s in Replayables(sessions) <==> s in Filter(sessions, IsReplayable())
  {
    var chosen := Filter(sessions, IsReplayable());
    FilterDistinctBy(sessions, SourceKey(), IsReplayable());
    assert TotalPreorder(ById());
    SortSorts(chosen, ById());
    assert Replayables(sessions) == Sort(chosen, ById());
    hide Replayables, Sort, Filter, TotalPreorder, SortedBy, DistinctBy;
    PermutedDistinct(chosen, Replayables(sessions), SourceKey());
    forall s ensures s in Replayables(sessions) <==> s in chosen {
      assert s in Replayables(sessions) <==> s in multiset(Replayables(sessions));
    }
  }

  /** Any two replayable sessions are drawn equally often, give or take one. */
  lemma SamplesBalanced(d: Digests, sessions: seq<Session>, total: int, r: seq<Sampled>, a: Session, b: Session)
    requires DistinctBy(sessions, SourceKey()) && SampledOk(d, sessions, total, r)
    requires a in sessions && b in sessions && a.Replayable() && b.Replayable()
    ensures Draws(Sources(r), a.id) <= Draws(Sources(r), b.id) + 1
  {
    var replayable := Replayables(sessions);
    ReplayableFacts(sessions);
    assert a in replayable && b in replayable;
    var n: nat :| |r| <= |Cycles(d, replayable, n)| && Sources(r) == Cycles(d, replayable, n)[..|r|];
    CyclesFair(d, replayable, n, |r|, a.id);
    CyclesFair(d, replayable, n, |r|, b.id);
    FairClose(Draws(Sources(r), a.id), Draws(Sources(r), b.id), |r|, |replayable|);
  }

  lemma FairClose(x: nat, y: nat, t: nat, m: nat)
    requires Fair(x, t, m) && Fair(y, t, m)
    ensures x <= y + 1
  {
    LeTimes(y + 2, x, m);
    assert (y + 2) * m == (y + 1) * m + m;
  }

  lemma {:induction false} DrawsGrow(drawn: seq<Session>, i: nat, j: nat)
    requires i < j <= |drawn|
    ensures Draws(drawn[..i], drawn[i].id) < Draws(drawn[..j], drawn[i].id)
    decreases j
  {
    var id := drawn[i].id;
    assert drawn[..j][..j - 1] == drawn[..j - 1];
    if i < j - 1 { DrawsGrow(drawn, i, j - 1); }
  }

  /** No (session, ordinal) pair is sampled twice, so runtime sessions differ whenever the identifier keeps pairs
      apart. */
  lemma SamplesDistinct(d: Digests, sessions: seq<Session>, total: int, r: seq<Sampled>, i: nat, j: nat)
    requires SampledOk(d, sessions, total, r) && i < j < |r|
    ensures r[i].source.id != r[j].source.id || r[i].ordinal < r[j].ordinal
    ensures PairsApart(d) ==> r[i].runtimeSession != r[j].runtimeSession
  {
    if r[i].source.id == r[j].source.id {
      assert Sources(r)[i] == r[i].source;
      DrawsGrow(Sources(r), i, j);
    }
  }

  ghost predicate PairsApart(d: Digests) {
    forall a, m, b, n | d.uuid(a, m) == d.uuid(b, n) :: a == b && m == n
  }

  /** The ordinals of one session are exactly 0, 1, ..., draws - 1. */
  lemma {:induction false} OrdinalsContiguous(drawn: seq<Session>, id: SourceId, k: nat)
    requires k < Draws(drawn, id)
    ensures exists i :: 0 <= i < |drawn| && drawn[i].id == id && Draws(drawn[..i], id) == k
  {
    var init, last := drawn[..|drawn| - 1], drawn[|drawn| - 1];
    if k < Draws(init, id) {
      OrdinalsContiguous(init, id, k);
      var i :| 0 <= i < |init| && init[i].id == id && Draws(init[..i], id) == k;
      assert drawn[..i] == init[..i] && drawn[i] == init[i];
    } else {
      assert last.id == id && Draws(drawn[..|drawn| - 1], id) == k;
    }
  }

  lemma SourcesReplayable(d: Digests, sessions: seq<Session>, total: int, r: seq<Sampled>)
    requires DistinctBy(sessions, SourceKey()) && SampledOk(d, sessions, total, r)
    ensures forall i | 0 <= i < |r| :: r[i].source in sessions && r[i].source.Replayable()
  {
    var replayable := Replayables(sessions);
    var n: nat :| |r| <= |Cycles(d, replayable, n)| && Sources(r) == Cycles(d, replayable, n)[..|r|];
    ReplayableFacts(sessions);
    CyclesMembers(d, replayable, n);
    forall i | 0 <= i < |r| ensures r[i].source in replayable {
      assert Sources(r)[i] == Cycles(d, replayable, n)[i];
    }
  }

  lemma {:induction false} CyclesMembers(d: Digests, replayable: seq<Session>, n: nat)
    requires DistinctBy(replayable, SourceKey())
    ensures forall s | s in Cycles(d, replayable, n) :: s in replayable
  {
    hide DistinctBy, Sort;
    if n > 0 {
      CyclesMembers(d, replayable, n - 1);
      CycleMembers(d, replayable, n - 1);
    }
  }

  lemma CycleMembers(d: Digests, replayable: seq<Session>, n: nat)
    requires DistinctBy(replayable, SourceKey())
    ensures forall s | s in Sort(replayable, ByDigest(d, n)) :: s in replayable
  {
    hide Sort;
    CycleShape(d, replayable, n);
    forall s | s in Sort(replayable, ByDigest(d, n)) ensures s in replayable {
      assert s in multiset(Sort(replayable, ByDigest(d, n)));
    }
  }
}

/** `build_replay_plan`: sample, plan and validate. */
module ReplayPlanning {
  import opened Wrappers
  import opened Sequences
  import opened Indexing
  import opened ReplaySchema
  import opened RequiredRequests
  import opened TaskPlanning
  import opened PlanValidation
  import opened PlanAcceptance
  import opened Sampler

  /** The identifier of one request within one runtime session. */
  type RequestIds = RuntimeSession -> (Key -> RuntimeId)

  ghost predicate EachInjective(ids: RequestIds) {
    forall s :: Injective(ids(s))
  }

  /** The prompt source a unified trace declares. */
  datatype PromptSource = TEXT_TURNS | TOKEN_RECIPE | HASH_SNAPSHOT

  datatype Refusal =
    | TRACE_REQUIRED | TRACE_UNEXPECTED | NO_TASKS | WRONG_SOURCE | NOTHING_REPLAYABLE
    | UNPLANNABLE(error: PlanError) | INVALID(fault: Fault)

  /** The refusals that the configuration, the trace and the sample count decide, in source order. */
  function Refused(shape: Shape, trace: Option<PromptSource>, total: int): Option<Refusal> {
    if shape != AGENTINFER && trace.None? then Some(TRACE_REQUIRED)
    else if shape == AGENTINFER && trace.Some? then Some(TRACE_UNEXPECTED)
    else if total <= 0 then Some(NO_TASKS)
    else if shape == TRACELAB && trace != Some(TOKEN_RECIPE) then Some(WRONG_SOURCE)
    else if shape == AGENTX && trace != Some(HASH_SNAPSHOT) then Some(WRONG_SOURCE)
    else None
  }

  ghost predicate Indexed(requests: seq<Request>) {
    DistinctRequests(requests) && SendsResolve(ByKey(requests))
  }

  /** Sessions, digests and identifiers as analysis and hashing deliver them. */
  ghost predicate InputsFit(shape: Shape, decimal: Key -> bool, d: Digests, ids: RequestIds, sessions: seq<Session>) {
    && (forall i | 0 <= i < |sessions| :: SessionFits(shape, decimal, sessions[i].requests))
    && PairsApart(d) && EachInjective(ids)
  }

  ghost predicate Ordered(tasks: seq<Task>) {
    forall i | 0 <= i < |tasks| :: PlanOrdered(tasks[i].nodes)
  }

  /** A plan that is built is valid. Over analyzed sessions it is refused only by the configuration or for want of a
      replayable session: planning and validation never fail. */
  method BuildPlan(c: Config, trace: Option<PromptSource>, decimal: Key -> bool, d: Digests, ids: RequestIds,
                   sessions: seq<Session>, total: int)
    returns (r: Result<seq<Task>, Refusal>)
    requires DistinctBy(sessions, SourceKey()) && (forall i | 0 <= i < |sessions| :: Indexed(sessions[i].requests))
    ensures r.Ok? ==> PlanValid(r.value, ChecksOf(c.shape, decimal)) && |r.value| == total
    ensures Refused(c.shape, trace, total).Some? ==> r == Err(Refused(c.shape, trace, total).value)
    ensures r == Err(NOTHING_REPLAYABLE) <==>
      Refused(c.shape, trace, total).None? && forall i | 0 <= i < |sessions| :: !sessions[i].Replayable()
    ensures InputsFit(c.shape, decimal, d, ids, sessions) ==>
      && (r.Ok? <==> Refused(c.shape, trace, total).None? && r != Err(NOTHING_REPLAYABLE))
      && (r.Ok? ==> Ordered(r.value))
  {
    hide Indexed, SessionFits, TaskValid, PlanOrdered, Sources, Cycles, EachInjective, Replayables, PairsApart, Ordered,
         ChecksOf, PlanValid;
    if Refused(c.shape, trace, total).Some? { return Err(Refused(c.shape, trace, total).value); }
    var sampled := SampleSessions(d, sessions, total);
    if sampled.None? { return Err(NOTHING_REPLAYABLE); }
    SourcesReplayable(d, sessions, total, sampled.value);
    var planned := PlanTasks(c, decimal, ids, sampled.value);
    if planned.Err? { return Err(UNPLANNABLE(planned.error)); }
    var tasks := planned.value;
    if InputsFit(c.shape, decimal, d, ids, sessions) {
      TasksApart(d, sessions, total, sampled.value, tasks);
      PlanIsValid(tasks, ChecksOf(c.shape, decimal));
    }
    var fault := ValidatePlan(tasks, ChecksOf(c.shape, decimal));
    r := if fault.Some? then Err(INVALID(fault.value)) else Ok(tasks);
  }

  /** One task per sample, in sample order. */
  method PlanTasks(c: Config, decimal: Key -> bool, ids: RequestIds, sampled: seq<Sampled>)
    returns (r: Result<seq<Task>, PlanError>)
    requires forall i | 0 <= i < |sampled| :: Indexed(sampled[i].source.requests)
    ensures r.Ok? ==>
      |r.value| == |sampled| && forall i | 0 <= i < |sampled| :: r.value[i].sessionId == sampled[i].runtimeSession
    ensures
      && EachInjective(ids)
      && (forall i | 0 <= i < |sampled| :: SessionFits(c.shape, decimal, sampled[i].source.requests))
      ==>
      && r.Ok? && Ordered(r.value)
      && forall i | 0 <= i < |r.value| :: TaskValid(r.value[i].nodes, ChecksOf(c.shape, decimal))
  {
    hide Indexed, SessionFits, TaskValid, PlanOrdered, EachInjective, ChecksOf;
    ghost var fits :=
      EachInjective(ids) && forall i | 0 <= i < |sampled| :: SessionFits(c.shape, decimal, sampled[i].source.requests);
    var tasks: seq<Task> := [];
    for n := 0 to |sampled|
      invariant |tasks| == n && forall i | 0 <= i < n :: tasks[i].sessionId == sampled[i].runtimeSession
      invariant fits ==> forall i | 0 <= i < n :: TaskValid(tasks[i].nodes, ChecksOf(c.shape, decimal))
      invariant fits ==> Ordered(tasks)
    {
      var sample := sampled[n];
      var planned := PlanSample(c, sample.source.requests, ids(sample.runtimeSession), decimal);
      if fits { EachIs(ids, sample.runtimeSession); }
      if planned.Err? { return Err(planned.error); }
      tasks := tasks + [Task(sample.runtimeSession, planned.value)];
    }
    r := Ok(tasks);
  }

  lemma PlanIsValid(tasks: seq<Task>, checks: Checks)
    requires forall i, j | 0 <= i < j < |tasks| :: tasks[i].sessionId != tasks[j].sessionId
    requires forall i | 0 <= i < |tasks| :: TaskValid(tasks[i].nodes, checks)
    ensures PlanValid(tasks, checks)
  {
  }

  lemma TasksApart(d: Digests, sessions: seq<Session>, total: int, sampled: seq<Sampled>, tasks: seq<Task>)
    requires DistinctBy(sessions, SourceKey()) && SampledOk(d, sessions, total, sampled) && PairsApart(d)
    requires |tasks| == |sampled| && forall i | 0 <= i < |tasks| :: tasks[i].sessionId == sampled[i].runtimeSession
    ensures forall i, j | 0 <= i < j < |tasks| :: tasks[i].sessionId != tasks[j].sessionId
  {
    hide SampledOk, PairsApart, DistinctBy;
    forall i, j | 0 <= i < j < |tasks| ensures tasks[i].sessionId != tasks[j].sessionId {
      SamplesDistinct(d, sessions, total, sampled, i, j);
    }
  }

  lemma EachIs(ids: RequestIds, s: RuntimeSession)
    requires EachInjective(ids)
    ensures Injective(ids(s))
  {
  }

  method PlanSample(c: Config, requests: seq<Request>, runtimeId: Key -> RuntimeId, decimal: Key -> bool)
    returns (r: Result<seq<Node>, PlanError>)
    requires Indexed(requests)
    ensures exists keys ::
      IsRequired(ByKey(requests), keys) && PlannedAs(c, Filter(requests, InKeys(keys)), runtimeId, r)
    ensures SessionFits(c.shape, decimal, requests) && Injective(runtimeId) ==>
      r.Ok? && TaskValid(r.value, ChecksOf(c.shape, decimal)) && PlanOrdered(r.value)
  {
    hide IsRequired, PlannedAs, SessionFits, Injective, TaskValid, PlanOrdered, SendsResolve, DistinctRequests;
    r := TaskPlan(c, requests, runtimeId);
    ghost var keys :| IsRequired(ByKey(requests), keys) && PlannedAs(c, Filter(requests, InKeys(keys)), runtimeId, r);
    if SessionFits(c.shape, decimal, requests) && Injective(runtimeId) {
      AnalyzedSessionAccepted(c, requests, keys, runtimeId, decimal, r);
    }
  }
}
