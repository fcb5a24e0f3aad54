/** The scheduler's entry points as functions, and what every run of them keeps. */
module SchedulerOps {
  import opened Wrappers
  import opened Arithmetic
  import opened Sequences
  import opened Domain
  import opened RegistrySpec
  import opened RequestPoolSpec
  import opened Transitions
  import opened SchedulerSpec

  type Bindings = map<RequestId, Binding>
  type Requests = map<ProgramRef, set<RequestId>>

  // ---- arrival

  function Busy(requests: Requests, ref: ProgramRef): set<RequestId> {
    if ref in requests then requests[ref] else {}
  }

  /** The record of an arriving request's Program, before the hook runs. */
  function Arrived(reg: Registry, m: AgentIdentity, prompt: int): Program {
    var next := Materialized(reg, m, PAUSED);
    var p := next.programs[m.programId];
    p.(tokens := p.tokens.(estimatedContext := Max(p.tokens.estimatedContext, Max(0, prompt))), status := REASONING)
  }

  /** Materialize, bind and retain; admission has not been asked yet. */
  function Bound(s: Sched, id: RequestId, m: AgentIdentity, prompt: int, now: Time): Sched {
    var created := m.programId !in s.reg.programs;
    var p := Arrived(s.reg, m, prompt);
    s.(reg := WithRecord(Materialized(s.reg, m, PAUSED), p),
       pool := Added(s.pool, Waiting(id, p.ref, now)),
       bindings := s.bindings[id := Binding(p.ref, Max(0, prompt), created || p.state == PAUSED, NO_HITS)],
       requests := s.requests[p.ref := Busy(s.requests, p.ref) + {id}],
       anchors := if created then s.anchors[p.ref := now] else s.anchors)
  }

  predicate Refused(s: Sched, id: RequestId, m: AgentIdentity) {
    id in s.bindings || TaskConflict(s.reg, m)
  }

  /** Admission answered at once: the attempt is admitted if it still waits, and handed over. */
  function Granted(s: Sched, id: RequestId): Sched {
    s.(pool := Dropped(Admitted(s.pool, id, s.target), {id}))
  }

  function AfterArrival(s: Sched, id: RequestId, m: AgentIdentity, prompt: int, now: Time,
                        hook: seq<HookStep>, admitted: bool): Sched
  {
    if Refused(s, id, m) then s
    else
      var t := RunHook(Bound(s, id, m, prompt, now), hook);
      if admitted then Granted(t, id) else t
  }

  // ---- completion, cancellation, response, observation

  function Unbound(s: Sched, id: RequestId): Sched
    requires id in s.bindings
  {
    var ref := s.bindings[id].program;
    var rest := Busy(s.requests, ref) - {id};
    s.(bindings := s.bindings - {id},
       requests := if rest == {} then s.requests - {ref} else s.requests[ref := rest])
  }

  function StatusOf(requests: Requests, ref: ProgramRef): ProgramStatus {
    if Busy(requests, ref) != {} then REASONING else ACTING
  }

  function Finished(p: Program, total: int, status: ProgramStatus): Program {
    p.(tokens := p.tokens.(estimatedContext := Max(0, total)), stepCount := p.stepCount + 1, status := status)
  }

  /** Final accounting of one request, before any pause or hook. */
  function Accounted(s: Sched, id: RequestId, total: int, now: Time): Sched
    requires id in s.bindings
  {
    var ref := s.bindings[id].program;
    var u := Unbound(s, id);
    if !Live(u.reg, ref) then u
    else u.(reg := WithRecord(u.reg, Finished(Record(u, ref), total, StatusOf(u.requests, ref))),
            lastFinished := u.lastFinished[ref := now])
  }

  function Request(kind: TransitionKind, ref: ProgramRef, reason: string): TransitionRequest {
    TransitionRequest(kind, ref, reason, None)
  }

  function AfterCompletion(s: Sched, id: RequestId, total: int, now: Time, hook: seq<HookStep>): Sched {
    if id !in s.bindings then s
    else
      var ref := s.bindings[id].program;
      var t := Accounted(s, id, total, now);
      if !Live(t.reg, ref) then t
      else if Record(t, ref).marked && Record(t, ref).status == ACTING
      then Applied(t, Request(PAUSE, ref, "marked_pause_completion"), now)
      else RunHook(t, hook)
  }

  lemma CompletionOfBound(s: Sched, id: RequestId, total: int, now: Time, hook: seq<HookStep>)
    requires id in s.bindings && Live(Accounted(s, id, total, now).reg, s.bindings[id].program)
    ensures var ref := s.bindings[id].program;
      var t := Accounted(s, id, total, now);
      var p := RecordOf(t.reg, ref);
      AfterCompletion(s, id, total, now, hook) ==
        if p.marked && p.status == ACTING then Applied(t, Request(PAUSE, ref, "marked_pause_completion"), now)
        else RunHook(t, hook)
  {
  }

  /** Unbinding without accounting, as a cancellation does. */
  function Withdrawn(s: Sched, id: RequestId): Sched
    requires id in s.bindings
  {
    var ref := s.bindings[id].program;
    var u := Unbound(s, id);
    if !Live(u.reg, ref) then u
    else u.(reg := WithRecord(u.reg, Record(u, ref).(status := StatusOf(u.requests, ref))))
  }

  function AfterCancel(s: Sched, id: RequestId, now: Time): Sched {
    var t := s.(pool := Dropped(s.pool, {id}));
    if id !in s.bindings then t
    else
      var ref := s.bindings[id].program;
      var u := Withdrawn(t, id);
      if Live(u.reg, ref) && !HasRequests(u, ref) && Record(u, ref).state == PAUSED && Record(u, ref).stepCount == 0
      then Applied(u, Request(RELEASE, ref, "cancelled_before_admission"), now)
      else u
  }

  function AfterResponse(s: Sched, id: ProgramId, terminal: bool, now: Time): Sched {
    if !terminal || id !in s.reg.programs then s
    else
      var p := s.reg.programs[id];
      if HasRequests(s, p.ref) || p.status != ACTING then s
      else Applied(s, Request(RELEASE, p.ref, "api_terminal_response"), now)
  }

  predicate ObservationDue(anchors: map<ProgramRef, Time>, p: Program, now: Time) {
    p.ref !in anchors || p.tokens.freshUntil.None? || p.tokens.freshUntil.value <= now
  }

  /** What the backend reports about one attempt's cache hit. */
  datatype Report = Report(cached: int, shared: Option<int>, local: Option<int>, unreferenced: Option<int>)

  function Clamped(x: int, limit: int): int {
    Min(limit, Max(0, x))
  }

  function Noted(h: Hits, prompt: nat, r: Report): Hits {
    var cached := Clamped(r.cached, prompt);
    var local := if r.local.Some? then Some(Clamped(r.local.value, prompt)) else h.local;
    Hits(
      if r.shared.Some? then Some(cached) else h.cached,
      if r.shared.Some? then Some(Clamped(r.shared.value, cached)) else h.shared,
      local,
      if r.unreferenced.Some? then Some(Clamped(r.unreferenced.value, if local.Some? then local.value else 0))
      else h.unreferenced)
  }

  function NotedState(s: Sched, id: RequestId, r: Report): Sched
    requires id in s.bindings
  {
    var b := s.bindings[id];
    s.(bindings := s.bindings[id := b.(hits := Noted(b.hits, b.promptTokens, r))])
  }

  /** A prefix-cache observation is accounted to its attempt. It also refreshes the Program's shared-prefix estimate,
      when that is due, and sets its deadline from the pause anchor. */
  function AfterObservation(s: Sched, id: RequestId, r: Report, freshness: Option<Time>, now: Time): Sched {
    if id !in s.bindings then s
    else
      var t, b := NotedState(s, id, r), s.bindings[id];
      if !b.trackSegmentShare || !Live(s.reg, b.program) || !ObservationDue(s.anchors, Record(s, b.program), now) then t
      else t.(reg := WithRecord(s.reg, Observed(s.anchors, Record(s, b.program), b, r, freshness)))
  }

  lemma ObservationOf(s: Sched, id: RequestId, r: Report, freshness: Option<Time>, now: Time)
    requires Inv(s)
    ensures id !in s.bindings ==> AfterObservation(s, id, r, freshness, now) == s
    ensures id in s.bindings ==>
      var t, b := NotedState(s, id, r), s.bindings[id];
      && Live(s.reg, b.program) && RecordOf(s.reg, b.program).state != TERMINATED
      && var p := RecordOf(s.reg, b.program);
         AfterObservation(s, id, r, freshness, now) ==
           if b.trackSegmentShare && ObservationDue(s.anchors, p, now)
           then t.(reg := WithRecord(s.reg, Observed(s.anchors, p, b, r, freshness)))
           else t
  {
    if id in s.bindings {
      assert s.bindings[id].program in s.requests;
      RecordFacts(s, s.bindings[id].program);
      hide Inv, Noted, Observed, ObservationDue, WithRecord;
    }
  }

  function Observed(anchors: map<ProgramRef, Time>, p: Program, b: Binding, r: Report,
                    freshness: Option<Time>): Program {
    var hit := Clamped(r.cached, b.promptTokens);
    var observed := if r.shared.Some? then Clamped(r.shared.value, hit) else hit;
    var until := if p.ref in anchors && freshness.Some? then Some(anchors[p.ref] + Max(0, freshness.value)) else None;
    p.(tokens := p.tokens.(sharedPrefix := observed, freshUntil := until))
  }

  function AfterTransfer(s: Sched): Sched {
    s.(pool := Dropped(s.pool, s.pool.recent.at.Keys))
  }

  // ---- arrival keeps the invariant

  lemma MaterializedLive(reg: Registry, m: AgentIdentity, prompt: int)
    requires WellFormed(reg)
    ensures var p := Arrived(reg, m, prompt);
      var next := WithRecord(Materialized(reg, m, PAUSED), p);
      && WellFormed(next)
      && p.ref.programId == m.programId && Live(next, p.ref) && next.programs[m.programId] == p
      && (forall ref :: Live(next, ref) <==> Live(reg, ref) || ref == p.ref)
      && (m.programId in reg.programs <==> Live(reg, p.ref))
      && (forall id | id in reg.programs && id != m.programId ::
          id in next.programs && next.programs[id] == reg.programs[id])
      && next.programs.Keys == reg.programs.Keys + {m.programId}
  {
    ArrivedWellFormed(reg, m, prompt);
    var p := Arrived(reg, m, prompt);
    var next := WithRecord(Materialized(reg, m, PAUSED), p);
    assert next.programs == reg.programs[m.programId := p];
    assert p.ref.programId == m.programId && (m.programId in reg.programs ==> p.ref == reg.programs[m.programId].ref);
    hide WithRecord, Materialized, Arrived;
  }

  lemma ArrivedWellFormed(reg: Registry, m: AgentIdentity, prompt: int)
    requires WellFormed(reg)
    ensures WellFormed(WithRecord(Materialized(reg, m, PAUSED), Arrived(reg, m, prompt)))
  {
    MaterializedWellFormed(reg, m, PAUSED);
    StoredWellFormed(Materialized(reg, m, PAUSED), Arrived(reg, m, prompt));
  }

  lemma BoundInverse(bindings: Bindings, requests: Requests, id: RequestId, b: Binding)
    requires Inverse(bindings, requests) && id !in bindings
    ensures Inverse(bindings[id := b], requests[b.program := Busy(requests, b.program) + {id}])
  {
  }

  lemma BoundRecords(reg: Registry, m: AgentIdentity, prompt: int, requests: Requests, anchors: map<ProgramRef, Time>,
                     ids: set<RequestId>, now: Time)
    requires WellFormed(reg) && RecordsOk(reg.programs, requests.Keys, anchors) && AllLive(reg, requests.Keys)
    ensures var p := Arrived(reg, m, prompt);
      RecordsOk(WithRecord(Materialized(reg, m, PAUSED), p).programs, requests[p.ref := ids].Keys,
                if m.programId !in reg.programs then anchors[p.ref := now] else anchors)
  {
    MaterializedLive(reg, m, prompt);
    var p := Arrived(reg, m, prompt);
    var ps := WithRecord(Materialized(reg, m, PAUSED), p).programs;
    var anchors' := if m.programId !in reg.programs then anchors[p.ref := now] else anchors;
    forall x | x in ps ensures RecordOk(requests[p.ref := ids].Keys, anchors', ps[x]) {
      if x != m.programId {
        assert RecordOk(requests.Keys, anchors, reg.programs[x]);
        assert ps[x].ref.programId == x;
      } else if x in reg.programs {
        assert RecordOk(requests.Keys, anchors, reg.programs[x]);
      }
    }
  }

  lemma BoundInv(s: Sched, id: RequestId, m: AgentIdentity, prompt: int, now: Time)
    requires Inv(s) && !Refused(s, id, m)
    ensures Inv(Bound(s, id, m, prompt, now))
  {
    InvFacts(s);
    assert id !in s.bindings;
    hide *;
    BoundTables(s, id, m, prompt, now);
    BoundLive(s, id, m, prompt, now);
    IsInv(Bound(s, id, m, prompt, now));
  }

  lemma BoundTables(s: Sched, id: RequestId, m: AgentIdentity, prompt: int, now: Time)
    requires WellFormed(s.reg) && PoolInv(s.pool) && Inverse(s.bindings, s.requests) && id !in s.bindings
    requires RetainedBound(s.pool.entries.at, s.bindings) && RecordsOk(s.reg.programs, s.requests.Keys, s.anchors)
    requires AllLive(s.reg, s.requests.Keys)
    ensures var t := Bound(s, id, m, prompt, now);
      && PoolInv(t.pool) && Inverse(t.bindings, t.requests) && RetainedBound(t.pool.entries.at, t.bindings)
      && RecordsOk(t.reg.programs, t.requests.Keys, t.anchors)
  {
    var p := Arrived(s.reg, m, prompt);
    var b := Binding(p.ref, Max(0, prompt), m.programId !in s.reg.programs || p.state == PAUSED, NO_HITS);
    BoundRetained(s.pool, s.bindings, Waiting(id, p.ref, now), b);
    hide Inverse, RecordsOk, Materialized, WithRecord, Arrived, PoolInv, RetainedBound, Added, AllLive, Busy,
      WellFormed;
    BoundInverse(s.bindings, s.requests, id, b);
    BoundRecords(s.reg, m, prompt, s.requests, s.anchors, Busy(s.requests, p.ref) + {id}, now);
    AddedInv(s.pool, Waiting(id, p.ref, now));
  }

  lemma BoundLive(s: Sched, id: RequestId, m: AgentIdentity, prompt: int, now: Time)
    requires WellFormed(s.reg)
    requires AllLive(s.reg, s.requests.Keys) && AllLive(s.reg, s.anchors.Keys) && AllLive(s.reg, s.lastFinished.Keys)
    ensures var t := Bound(s, id, m, prompt, now);
      && WellFormed(t.reg)
      && AllLive(t.reg, t.requests.Keys) && AllLive(t.reg, t.anchors.Keys) && AllLive(t.reg, t.lastFinished.Keys)
  {
    var t, p := Bound(s, id, m, prompt, now), Arrived(s.reg, m, prompt);
    hide Materialized, WithRecord, Arrived, AllLive, Busy, WellFormed;
    BoundAllLive(s.reg, m, prompt, s.requests.Keys);
    BoundAllLive(s.reg, m, prompt, s.anchors.Keys);
    BoundAllLive(s.reg, m, prompt, s.lastFinished.Keys);
    assert t.requests.Keys == s.requests.Keys + {p.ref};
    assert t.anchors.Keys == s.anchors.Keys || t.anchors.Keys == s.anchors.Keys + {p.ref};
  }

  lemma BoundAllLive(reg: Registry, m: AgentIdentity, prompt: int, refs: set<ProgramRef>)
    requires WellFormed(reg) && AllLive(reg, refs)
    ensures var p := Arrived(reg, m, prompt);
      var next := WithRecord(Materialized(reg, m, PAUSED), p);
      WellFormed(next) && AllLive(next, refs) && AllLive(next, refs + {p.ref})
  {
    MaterializedLive(reg, m, prompt);
    hide WellFormed, Materialized, WithRecord, Arrived, Live;
  }

  lemma BoundRetained(pool: Pool, bindings: Bindings, e: Entry, b: Binding)
    requires RetainedBound(pool.entries.at, bindings) && e.id !in bindings && e.program == b.program
    ensures e.id !in pool.entries.at
    ensures RetainedBound(Added(pool, e).entries.at, bindings[e.id := b])
  {
  }

  /** After binding, the attempt waits for its Program, which is live and reasoning. */
  lemma BoundFacts(s: Sched, id: RequestId, m: AgentIdentity, prompt: int, now: Time)
    requires Inv(s) && !Refused(s, id, m)
    ensures var t := Bound(s, id, m, prompt, now);
      var p := Arrived(s.reg, m, prompt);
      && Live(t.reg, p.ref) && RecordOf(t.reg, p.ref) == p
      && t.pool.entries.at == s.pool.entries.at[id := Waiting(id, p.ref, now)]
      && HasRequests(t, p.ref) && id !in s.pool.entries.at
  {
    MaterializedLive(s.reg, m, prompt);
    assert id !in s.pool.entries.at;
    hide WellFormed, Inverse, RecordsOk, Materialized, WithRecord, PoolInv, Arrived, RetainedBound;
  }

  lemma GrantedInv(s: Sched, id: RequestId)
    requires Inv(s)
    ensures Inv(Granted(s, id))
  {
    AdmittedInv(s.pool, id, s.target);
    DroppedInv(Admitted(s.pool, id, s.target), {id});
    assert RetainedBound(Granted(s, id).pool.entries.at, s.bindings);
    hide WellFormed, Inverse, RecordsOk, PoolInv, AllLive, Admitted, Dropped, RetainedBound;
  }

  /** The hook of an arrival leaves the candidate's attempt decided or waiting, never lost: the immediate
      hand-over always finds it. */
  lemma ImmediateGrantFindsAttempt(s: Sched, id: RequestId, m: AgentIdentity, prompt: int, now: Time,
                                   hook: seq<HookStep>)
    requires Inv(s) && !Refused(s, id, m) && StepsOk(hook)
    ensures var t := RunHook(Bound(s, id, m, prompt, now), hook);
      id in Admitted(t.pool, id, t.target).recent.at
  {
    var u := Bound(s, id, m, prompt, now);
    BoundInv(s, id, m, prompt, now);
    BoundFacts(s, id, m, prompt, now);
    hide Bound, RunHook, Inv, StepsOk, Refused, PoolInv, Admitted, Arrived;
    HookKeepsAttempts(u, hook);
    HookInv(u, hook);
    InvParts(RunHook(u, hook));
    AdmittedDecided(RunHook(u, hook).pool, id, s.target);
  }

  lemma AdmittedDecided(p: Pool, id: RequestId, target: Target)
    requires PoolInv(p) && id in p.entries.at
    ensures id in Admitted(p, id, target).recent.at
  {
  }

  // ---- removal of a binding keeps the invariant

  lemma UnboundInverse(s: Sched, id: RequestId)
    requires Inverse(s.bindings, s.requests) && id in s.bindings
    ensures Inverse(Unbound(s, id).bindings, Unbound(s, id).requests)
    ensures var ref := s.bindings[id].program;
      && Unbound(s, id).requests.Keys + {ref} == s.requests.Keys
      && (ref in Unbound(s, id).requests <==> StatusOf(Unbound(s, id).requests, ref) == REASONING)
      && (ref in Unbound(s, id).requests <==> HasRequests(Unbound(s, id), ref))
  {
  }

  /** Unbinding one attempt and rewriting its Program's record with the recomputed status. */
  lemma UnboundInv(s: Sched, id: RequestId, p: Program)
    requires Inv(s) && id in s.bindings && id !in s.pool.entries.at
    requires var ref := s.bindings[id].program;
      && p.ref == ref && Live(s.reg, ref) && p.state == Record(s, ref).state && p.backend == Record(s, ref).backend
      && p.marked == Record(s, ref).marked && p.tokens.freshUntil == Record(s, ref).tokens.freshUntil
      && p.parent == Record(s, ref).parent && p.blocksParent == Record(s, ref).blocksParent
      && p.status == StatusOf(Unbound(s, id).requests, ref)
    ensures Inv(Unbound(s, id).(reg := WithRecord(s.reg, p)))
  {
    InvFacts(s);
    hide Inv;
    RecordInv(s, p.ref);
    UnboundInverse(s, id);
    UnboundRetained(s, id);
    hide PoolInv, Inverse, RecordsOk, RetainedBound, AllLive;
    StoredWellFormed(s.reg, p);
    hide WithRecord, WellFormed;
    UnboundRecords(s.reg, p, s.requests.Keys, Unbound(s, id).requests.Keys, s.anchors);
    hide Live, StatusOf;
    FewerLive(s.reg, s.requests.Keys, Unbound(s, id).requests.Keys);
    StoredAllLive(s.reg, p, Unbound(s, id).requests.Keys);
    StoredAllLive(s.reg, p, s.anchors.Keys);
    StoredAllLive(s.reg, p, s.lastFinished.Keys);
    IsInv(Unbound(s, id).(reg := WithRecord(s.reg, p)));
  }

  lemma RecordInv(s: Sched, ref: ProgramRef)
    requires WellFormed(s.reg) && Live(s.reg, ref)
    ensures Record(s, ref).state != TERMINATED
  {
  }

  lemma UnboundRetained(s: Sched, id: RequestId)
    requires RetainedBound(s.pool.entries.at, s.bindings) && id in s.bindings && id !in s.pool.entries.at
    ensures RetainedBound(s.pool.entries.at, Unbound(s, id).bindings)
  {
  }

  lemma FewerLive(reg: Registry, refs: set<ProgramRef>, fewer: set<ProgramRef>)
    requires AllLive(reg, refs) && fewer <= refs
    ensures AllLive(reg, fewer)
  {
  }

  lemma UnboundRecords(reg: Registry, p: Program, busy: set<ProgramRef>, busy': set<ProgramRef>,
                       anchors: map<ProgramRef, Time>)
    requires WellFormed(reg) && Live(reg, p.ref) && RecordsOk(reg.programs, busy, anchors)
    requires busy' + {p.ref} == busy && (p.status == REASONING <==> p.ref in busy')
    requires var q := RecordOf(reg, p.ref);
      p.state == q.state && p.backend == q.backend && p.marked == q.marked && p.tokens.freshUntil == q.tokens.freshUntil
    ensures RecordsOk(WithRecord(reg, p).programs, busy', anchors)
  {
    var ps := WithRecord(reg, p).programs;
    forall x | x in ps ensures RecordOk(busy', anchors, ps[x]) {
      assert RecordOk(busy, anchors, reg.programs[x]);
      assert x != p.ref.programId ==> ps[x].ref != p.ref;
    }
  }

  lemma AccountedInv(s: Sched, id: RequestId, total: int, now: Time)
    requires Inv(s) && id in s.bindings && id !in s.pool.entries.at
    ensures Inv(Accounted(s, id, total, now)) && Live(Accounted(s, id, total, now).reg, s.bindings[id].program)
  {
    var ref := s.bindings[id].program;
    assert ref in s.requests && Live(s.reg, ref);
    var p := Finished(Record(s, ref), total, StatusOf(Unbound(s, id).requests, ref));
    UnboundInv(s, id, p);
    StoredLive(s.reg, p);
    hide PoolInv, Inverse, Live, RecordsOk, WellFormed, RetainedBound;
  }

  lemma WithdrawnInv(s: Sched, id: RequestId)
    requires Inv(s) && id in s.bindings && id !in s.pool.entries.at
    ensures Inv(Withdrawn(s, id)) && Live(s.reg, s.bindings[id].program)
  {
    var ref := s.bindings[id].program;
    assert ref in s.requests && Live(s.reg, ref);
    UnboundInv(s, id, Record(s, ref).(status := StatusOf(Unbound(s, id).requests, ref)));
  }

  lemma DropInv(s: Sched, ids: set<RequestId>)
    requires Inv(s)
    ensures Inv(s.(pool := Dropped(s.pool, ids))) && forall r | r in ids :: r !in Dropped(s.pool, ids).entries.at
  {
    DroppedInv(s.pool, ids);
    assert RetainedBound(Dropped(s.pool, ids).entries.at, s.bindings);
    hide PoolInv, Inverse, RecordsOk, WellFormed, RetainedBound, AllLive;
  }

  /** Accounting a hit leaves what the tables say about Programs as it is. */
  lemma NotedInv(s: Sched, id: RequestId, r: Report)
    requires Inv(s) && id in s.bindings
    ensures Inv(NotedState(s, id, r))
  {
    var t := NotedState(s, id, r);
    assert Inverse(t.bindings, t.requests) && RetainedBound(t.pool.entries.at, t.bindings);
    hide Inverse, RetainedBound, RecordsOk, WellFormed, PoolInv, AllLive;
  }

  lemma ObservedOk(s: Sched, p: Program, b: Binding, r: Report, freshness: Option<Time>)
    requires RecordOk(s.requests.Keys, s.anchors, p)
    ensures var next := Observed(s.anchors, p, b, r, freshness);
      && RecordOk(s.requests.Keys, s.anchors, next) && next.ref == p.ref && next.state == p.state
      && next.parent == p.parent && next.blocksParent == p.blocksParent
  {
  }

  lemma ObservationInv(s: Sched, id: RequestId, report: Report, freshness: Option<Time>, now: Time)
    requires Inv(s)
    ensures Inv(AfterObservation(s, id, report, freshness, now))
  {
    var u := AfterObservation(s, id, report, freshness, now);
    if id in s.bindings {
      var t := NotedState(s, id, report);
      NotedInv(s, id, report);
      if u != t {
        var p := Record(s, s.bindings[id].program);
        RecordFacts(s, p.ref);
        ObservedOk(s, p, s.bindings[id], report, freshness);
        assert u == t.(reg := WithRecord(s.reg, Observed(s.anchors, p, s.bindings[id], report, freshness)));
        hide Inv, WithRecord, Observed, RecordOk, AfterObservation, Noted, ObservationDue;
        StoredInv(t, Observed(s.anchors, p, s.bindings[id], report, freshness), s.anchors);
      }
    }
  }

  // ---- runs

  datatype Op =
    | Arrive(id: RequestId, identity: AgentIdentity, prompt: int, now: Time, hook: seq<HookStep>, admitted: bool)
    | Cycle(hook: seq<HookStep>)
    | Transfer
    | Complete(id: RequestId, total: int, now: Time, hook: seq<HookStep>)
    | Respond(programId: ProgramId, terminal: bool, now: Time)
    | Cancel(id: RequestId, now: Time)
    | Observe(id: RequestId, report: Report, freshness: Option<Time>, now: Time)

  function Step(s: Sched, op: Op): Sched {
    match op
    case Arrive(id, m, prompt, now, hook, admitted) => AfterArrival(s, id, m, prompt, now, hook, admitted)
    case Cycle(hook) => RunHook(s, hook)
    case Transfer => AfterTransfer(s)
    case Complete(id, total, now, hook) => AfterCompletion(s, id, total, now, hook)
    case Respond(id, terminal, now) => AfterResponse(s, id, terminal, now)
    case Cancel(id, now) => AfterCancel(s, id, now)
    case Observe(id, report, freshness, now) => AfterObservation(s, id, report, freshness, now)
  }

  /** Strategies issue well-formed requests; the host completes only attempts it was handed. */
  ghost predicate Allowed(s: Sched, op: Op) {
    match op
    case Arrive(_, _, _, _, hook, _) => StepsOk(hook)
    case Cycle(hook) => StepsOk(hook)
    case Complete(id, _, _, hook) => StepsOk(hook) && id !in s.pool.entries.at
    case _ => true
  }

  lemma CompletionInv(s: Sched, id: RequestId, total: int, now: Time, hook: seq<HookStep>)
    requires Inv(s) && StepsOk(hook) && id !in s.pool.entries.at
    ensures Inv(AfterCompletion(s, id, total, now, hook))
  {
    hide Inv, Accounted, RunHook, Applied, Live, StepsOk;
    if id in s.bindings {
      AccountedInv(s, id, total, now);
      var t := Accounted(s, id, total, now);
      var q := Request(PAUSE, s.bindings[id].program, "marked_pause_completion");
      CompletionOfBound(s, id, total, now, hook);
      assert RequestOk(q);
      hide *;
      AppliedInv(t, q, now);
      HookInv(t, hook);
    }
  }

  lemma CancelInv(s: Sched, id: RequestId, now: Time)
    requires Inv(s)
    ensures Inv(AfterCancel(s, id, now))
  {
    hide Inv, Applied, Withdrawn, WellFormed, PoolInv;
    DropInv(s, {id});
    if id in s.bindings {
      var t := s.(pool := Dropped(s.pool, {id}));
      WithdrawnInv(t, id);
      AppliedInv(Withdrawn(t, id), Request(RELEASE, s.bindings[id].program, "cancelled_before_admission"), now);
    }
  }

  /** Every operation of every run keeps the scheduler's tables consistent. */
  lemma StepInv(s: Sched, op: Op)
    requires Inv(s) && Allowed(s, op)
    ensures Inv(Step(s, op))
  {
    hide Inv, Applied, Granted, AfterObservation, AfterCancel, AfterCompletion, Bound;
    match op {
      case Arrive(id, m, prompt, now, hook, admitted) =>
        if !Refused(s, id, m) {
          BoundInv(s, id, m, prompt, now);
          HookInv(Bound(s, id, m, prompt, now), hook);
          GrantedInv(RunHook(Bound(s, id, m, prompt, now), hook), id);
        }
      case Cycle(hook) => HookInv(s, hook);
      case Transfer => DropInv(s, s.pool.recent.at.Keys);
      case Complete(id, total, now, hook) => CompletionInv(s, id, total, now, hook);
      case Respond(id, terminal, now) =>
        if id in s.reg.programs {
          AppliedInv(s, Request(RELEASE, s.reg.programs[id].ref, "api_terminal_response"), now);
        }
      case Cancel(id, now) => CancelInv(s, id, now);
      case Observe(id, report, freshness, now) => ObservationInv(s, id, report, freshness, now);
    }
  }

  /** A pause moves the deadline and its anchor together: the length of the freshness period never changes,
      because the clamp to zero cannot bite in a reachable state. */
  lemma PauseKeepsPeriod(s: Sched, q: TransitionRequest, now: Time)
    requires Inv(s) && Accepts(s, q) && q.kind == PAUSE && Record(s, q.program).tokens.freshUntil.Some?
    ensures var t := Applied(s, q, now);
      && Live(t.reg, q.program) && Record(t, q.program).tokens.freshUntil.Some?
      && q.program in s.anchors && q.program in t.anchors && t.anchors[q.program] == now
      && Record(t, q.program).tokens.freshUntil.value - t.anchors[q.program]
         == Record(s, q.program).tokens.freshUntil.value - s.anchors[q.program]
  {
    assert RecordOk(s.requests.Keys, s.anchors, s.reg.programs[q.program.programId]);
  }

  // ---- conservation of attempts

  /** How often each request id has arrived, been handed to the host, and been cancelled before that. */
  datatype History = History(arrived: multiset<RequestId>, transferred: multiset<RequestId>,
                             cancelled: multiset<RequestId>)

  /** What the host observes of one operation. */
  function Log(s: Sched, h: History, op: Op): History {
    match op
    case Arrive(id, m, _, _, _, admitted) =>
      if Refused(s, id, m) then h
      else h.(arrived := h.arrived + multiset{id},
              transferred := h.transferred + (if admitted then multiset{id} else multiset{}))
    case Transfer => h.(transferred := h.transferred + multiset(s.pool.recent.order))
    case Cancel(id, _) => if id in s.pool.entries.at then h.(cancelled := h.cancelled + multiset{id}) else h
    case _ => h
  }

  /** Every arrival is retained, was handed over, or was cancelled first: exactly one of the three. */
  ghost predicate Conserved(s: Sched, h: History) {
    forall id :: h.arrived[id] == h.transferred[id] + h.cancelled[id] + (if id in s.pool.entries.at then 1 else 0)
  }

  function KeysAfter(s: Sched, op: Op): set<RequestId> {
    var keys := s.pool.entries.at.Keys;
    match op
    case Arrive(id, m, _, _, _, admitted) => if Refused(s, id, m) || admitted then keys else keys + {id}
    case Transfer => keys - s.pool.recent.at.Keys
    case Cancel(id, _) => keys - {id}
    case _ => keys
  }

  lemma AppliedKeys(s: Sched, q: TransitionRequest, now: Time)
    requires Inv(s)
    ensures Applied(s, q, now).pool.entries.at.Keys == s.pool.entries.at.Keys
  {
    AppliedKeepsAttempts(s, q, now);
  }

  lemma StepKeys(s: Sched, op: Op)
    requires Inv(s) && Allowed(s, op)
    ensures Step(s, op).pool.entries.at.Keys == KeysAfter(s, op)
  {
    hide Inv, Applied, Bound, RunHook, AfterCompletion, AfterCancel, Live, StepsOk, Accepts;
    match op {
      case Arrive(id, m, prompt, now, hook, admitted) =>
        if !Refused(s, id, m) {
          var u := Bound(s, id, m, prompt, now);
          BoundInv(s, id, m, prompt, now);
          BoundFacts(s, id, m, prompt, now);
          HookKeepsAttempts(u, hook);
        }
      case Cycle(hook) => HookKeepsAttempts(s, hook);
      case Transfer =>
      case Complete(id, total, now, hook) => CompletionKeys(s, id, total, now, hook);
      case Respond(id, terminal, now) =>
        if id in s.reg.programs {
          AppliedKeys(s, Request(RELEASE, s.reg.programs[id].ref, "api_terminal_response"), now);
        }
      case Cancel(id, now) => CancelKeys(s, id, now);
      case Observe(id, report, freshness, now) =>
    }
  }

  lemma CompletionKeys(s: Sched, id: RequestId, total: int, now: Time, hook: seq<HookStep>)
    requires Inv(s) && StepsOk(hook) && id !in s.pool.entries.at
    ensures AfterCompletion(s, id, total, now, hook).pool.entries.at.Keys == s.pool.entries.at.Keys
  {
    if id in s.bindings {
      AccountedInv(s, id, total, now);
      CompletionOfBound(s, id, total, now, hook);
      var t := Accounted(s, id, total, now);
      assert t.pool == s.pool;
      hide Inv, Applied, Accounted, AfterCompletion, RunHook, Live, StepsOk;
      AppliedKeys(t, Request(PAUSE, s.bindings[id].program, "marked_pause_completion"), now);
      HookKeepsAttempts(t, hook);
    }
  }

  lemma WithdrawnPool(s: Sched, id: RequestId)
    requires id in s.bindings
    ensures Withdrawn(s, id).pool == s.pool
  {
  }

  lemma CancelKeys(s: Sched, id: RequestId, now: Time)
    requires Inv(s)
    ensures AfterCancel(s, id, now).pool.entries.at.Keys == s.pool.entries.at.Keys - {id}
  {
    hide Inv, Applied, Withdrawn, Live, HasRequests;
    DropInv(s, {id});
    if id in s.bindings {
      var t := s.(pool := Dropped(s.pool, {id}));
      WithdrawnInv(t, id);
      WithdrawnPool(t, id);
      AppliedKeys(Withdrawn(t, id), Request(RELEASE, s.bindings[id].program, "cancelled_before_admission"), now);
    }
  }

  /** No operation loses or duplicates an attempt. */
  lemma StepConserves(s: Sched, h: History, op: Op)
    requires Inv(s) && Allowed(s, op) && Conserved(s, h)
    ensures Conserved(Step(s, op), Log(s, h, op))
  {
    hide Inv, Step, Allowed, Refused, TaskConflict, Log, KeysAfter;
    StepKeys(s, op);
    ArrivalIsFresh(s, op);
    DecidedOnce(s);
    forall id ensures
      var h' := Log(s, h, op);
      h'.arrived[id] == h'.transferred[id] + h'.cancelled[id] + (if id in KeysAfter(s, op) then 1 else 0)
    {
      OneConserved(s, h, op, id);
    }
  }

  /** The history of one attempt. */
  lemma OneConserved(s: Sched, h: History, op: Op, id: RequestId)
    requires h.arrived[id] == h.transferred[id] + h.cancelled[id] + (if id in s.pool.entries.at then 1 else 0)
    requires op.Arrive? && !Refused(s, op.id, op.identity) ==> op.id !in s.pool.entries.at
    requires multiset(s.pool.recent.order)[id] == if id in s.pool.recent.at then 1 else 0
    requires id in s.pool.recent.at ==> id in s.pool.entries.at
    ensures var h' := Log(s, h, op);
      h'.arrived[id] == h'.transferred[id] + h'.cancelled[id] + (if id in KeysAfter(s, op) then 1 else 0)
  {
    hide Refused;
  }

  lemma ArrivalIsFresh(s: Sched, op: Op)
    requires Inv(s)
    ensures op.Arrive? && !Refused(s, op.id, op.identity) ==> op.id !in s.pool.entries.at
  {
  }

  /** The decisions awaiting transfer name distinct retained attempts. */
  lemma DecidedOnce(s: Sched)
    requires Inv(s)
    ensures forall id :: multiset(s.pool.recent.order)[id] == if id in s.pool.recent.at then 1 else 0
    ensures forall id | id in s.pool.recent.at :: id in s.pool.entries.at
  {
    InvParts(s);
    NoDupMultiset(s.pool.recent.order);
  }

  lemma {:induction false} NoDupMultiset(ids: seq<RequestId>)
    requires NoDup(ids)
    ensures forall id :: multiset(ids)[id] == if id in ids then 1 else 0
  {
    if ids != [] {
      var init := ids[..|ids| - 1];
      NoDupMultiset(init);
      assert ids == init + [ids[|ids| - 1]];
      assert ids[|ids| - 1] !in init;
    }
  }

  // ---- waiting attempts and paused Programs

  predicate CandidateActive(s: Sched, m: AgentIdentity) {
    m.programId in s.reg.programs && s.reg.programs[m.programId].state == ACTIVE
  }

  /** A busy active Program can be neither paused nor released by a hook, and its waiting attempts are not admitted. */
  lemma {:induction false} BusyActiveStays(s: Sched, steps: seq<HookStep>, ref: ProgramRef, id: RequestId)
    requires Inv(s) && StepsOk(steps) && Live(s.reg, ref) && HasRequests(s, ref)
    requires Record(s, ref).state == ACTIVE && IsWaiting(s.pool, id) && s.pool.entries.at[id].program == ref
    ensures var t := RunHook(s, steps);
      && Live(t.reg, ref) && HasRequests(t, ref) && Record(t, ref).state == ACTIVE
      && IsWaiting(t.pool, id) && t.pool.entries.at[id].program == ref
  {
    if steps != [] {
      var init, last := steps[..|steps| - 1], steps[|steps| - 1];
      BusyActiveStays(s, init, ref, id);
      HookInv(s, init);
      hide Inv, Applied;
      BusyActiveKept(RunHook(s, init), last.request, last.now, ref, id);
    }
  }

  lemma BusyActiveKept(s: Sched, q: TransitionRequest, now: Time, ref: ProgramRef, id: RequestId)
    requires Inv(s) && Live(s.reg, ref) && HasRequests(s, ref)
    requires Record(s, ref).state == ACTIVE && IsWaiting(s.pool, id) && s.pool.entries.at[id].program == ref
    ensures var t := Applied(s, q, now);
      && Live(t.reg, ref) && HasRequests(t, ref) && Record(t, ref).state == ACTIVE
      && IsWaiting(t.pool, id) && t.pool.entries.at[id].program == ref
  {
    RejectedKeeps(s, q, now);
    if Accepts(s, q) {
      BusyRejects(s, q, now, ref);
      InvParts(s);
      AppliedPool(s, q, now);
      AppliedReg(s, q, now);
      hide Inv, AdmitAll, WellFormed, PoolInv, Applied, Accepts, Rejection, Live, IsWaiting, Released, WithRecord,
           Changed, Anchor;
      if q.kind in {ADMIT, RESUME} {
        OthersKeepWaiting(s.pool, q.program, s.target, id);
      }
      if q.kind == RELEASE {
        ReleasedOther(s.reg, q.program, ref);
      } else if q.kind != QUEUE {
        StoredOther(s.reg, Changed(Record(s, q.program), q, Anchor(s, q.program), now), ref);
      }
    }
  }

  /** A busy active Program is reasoning, so that it accepts nothing but a mark. */
  lemma BusyRejects(s: Sched, q: TransitionRequest, now: Time, ref: ProgramRef)
    requires Inv(s) && Live(s.reg, ref) && HasRequests(s, ref) && Record(s, ref).state == ACTIVE && Accepts(s, q)
    ensures Live(s.reg, q.program)
    ensures q.program == ref ==> q.kind == MARK_FOR_PAUSE
    ensures var next := Changed(Record(s, q.program), q, Anchor(s, q.program), now);
      next.ref == q.program && (q.program == ref ==> next.state == ACTIVE)
  {
    RecordFacts(s, ref);
    hide Inv;
  }

  lemma ReleasedOther(reg: Registry, ref: ProgramRef, other: ProgramRef)
    requires WellFormed(reg) && Live(reg, other) && other != ref
    ensures Live(Released(reg, ref), other) && RecordOf(Released(reg, ref), other).state == RecordOf(reg, other).state
  {
    ReleaseKillsOne(reg, ref, other);
  }

  lemma StoredOther(reg: Registry, p: Program, other: ProgramRef)
    requires Live(reg, p.ref) && Live(reg, other)
    ensures Live(WithRecord(reg, p), other)
    ensures RecordOf(WithRecord(reg, p), other) == if other == p.ref then p else RecordOf(reg, other)
  {
  }

  /** Exactly when an arrival leaves a waiting attempt with a Program that is not paused: the Program was
      already active and the strategy nevertheless answered that the request must queue. */
  lemma ArrivalStrandsIff(s: Sched, id: RequestId, m: AgentIdentity, prompt: int, now: Time,
                          hook: seq<HookStep>, admitted: bool)
    requires Inv(s) && StepsOk(hook) && !Refused(s, id, m) && WaitingPaused(s.reg, s.pool, {})
    ensures var t := AfterArrival(s, id, m, prompt, now, hook, admitted);
      WaitingPaused(t.reg, t.pool, {}) <==> admitted || !CandidateActive(s, m)
  {
    var u := Bound(s, id, m, prompt, now);
    var ref := Arrived(s.reg, m, prompt).ref;
    BoundInv(s, id, m, prompt, now);
    BoundFacts(s, id, m, prompt, now);
    BoundWaiting(s, id, m, prompt, now);
    hide Inv, PoolInv, WellFormed, Bound, RunHook, Arrived, Refused, StepsOk;
    HookWaiting(u, hook, {id});
    HookInv(u, hook);
    var t := RunHook(u, hook);
    InvParts(t);
    if admitted {
      hide CandidateActive, Granted, WaitingPaused;
      GrantedWaiting(t, id);
    } else if CandidateActive(s, m) {
      hide CandidateActive, WaitingPaused, HasRequests, Live;
      StrandedStays(u, hook, ref, id);
    } else {
      hide CandidateActive, WaitingPaused;
      HookWaiting(u, hook, {});
    }
  }

  /** A waiting attempt of a busy active Program is still stranded after the hook. */
  lemma StrandedStays(u: Sched, hook: seq<HookStep>, ref: ProgramRef, id: RequestId)
    requires Inv(u) && StepsOk(hook) && Live(u.reg, ref) && HasRequests(u, ref)
    requires RecordOf(u.reg, ref).state == ACTIVE && IsWaiting(u.pool, id) && u.pool.entries.at[id].program == ref
    ensures var t := RunHook(u, hook); !WaitingPaused(t.reg, t.pool, {})
  {
    hide Inv, RunHook, StepsOk;
    BusyActiveStays(u, hook, ref, id);
    var t := RunHook(u, hook);
    assert IsWaiting(t.pool, id) && !PausedRef(t.reg, ref);
  }

  lemma BoundWaiting(s: Sched, id: RequestId, m: AgentIdentity, prompt: int, now: Time)
    requires Inv(s) && !Refused(s, id, m) && WaitingPaused(s.reg, s.pool, {})
    ensures var t := Bound(s, id, m, prompt, now);
      && WaitingPaused(t.reg, t.pool, {id})
      && (!CandidateActive(s, m) ==> WaitingPaused(t.reg, t.pool, {}))
      && (Arrived(s.reg, m, prompt).state == ACTIVE <==> CandidateActive(s, m))
  {
    var t := Bound(s, id, m, prompt, now);
    var p := Arrived(s.reg, m, prompt);
    BoundFacts(s, id, m, prompt, now);
    InvParts(s);
    ArrivedState(s.reg, m, prompt);
    forall ref | PausedRef(s.reg, ref) ensures PausedRef(t.reg, ref) {
      PausedKept(s.reg, m, prompt, ref);
    }
    assert t.reg == WithRecord(Materialized(s.reg, m, PAUSED), p);
    hide *;
    EntryWaits(s, t, Waiting(id, p.ref, now));
    if !CandidateActive(s, m) { NobodySkipped(t.reg, t.pool, id); }
  }

  /** A newly retained waiting attempt is the only one whose Program may not be paused. */
  lemma EntryWaits(s: Sched, t: Sched, e: Entry)
    requires WaitingPaused(s.reg, s.pool, {}) && (forall ref | PausedRef(s.reg, ref) :: PausedRef(t.reg, ref))
    requires t.pool.entries.at == s.pool.entries.at[e.id := e] && e.status == WAITING
    ensures WaitingPaused(t.reg, t.pool, {e.id})
    ensures IsWaiting(t.pool, e.id) && t.pool.entries.at[e.id].program == e.program
  {
    hide PausedRef;
    forall r | IsWaiting(t.pool, r) && r != e.id ensures PausedRef(t.reg, t.pool.entries.at[r].program) {
      assert IsWaiting(s.pool, r);
    }
  }

  lemma NobodySkipped(reg: Registry, pool: Pool, id: RequestId)
    requires WaitingPaused(reg, pool, {id}) && IsWaiting(pool, id) && PausedRef(reg, pool.entries.at[id].program)
    ensures WaitingPaused(reg, pool, {})
  {
    hide PausedRef;
  }

  lemma ArrivedState(reg: Registry, m: AgentIdentity, prompt: int)
    requires WellFormed(reg)
    ensures var p := Arrived(reg, m, prompt);
      var active := m.programId in reg.programs && reg.programs[m.programId].state == ACTIVE;
      && (p.state == ACTIVE <==> active)
      && (!active ==> PausedRef(WithRecord(Materialized(reg, m, PAUSED), p), p.ref))
  {
    MaterializedLive(reg, m, prompt);
  }

  lemma PausedKept(reg: Registry, m: AgentIdentity, prompt: int, ref: ProgramRef)
    requires WellFormed(reg) && PausedRef(reg, ref)
    ensures PausedRef(WithRecord(Materialized(reg, m, PAUSED), Arrived(reg, m, prompt)), ref)
  {
    MaterializedLive(reg, m, prompt);
  }

  lemma GrantedWaiting(s: Sched, id: RequestId)
    requires PoolInv(s.pool) && WaitingPaused(s.reg, s.pool, {id})
    ensures WaitingPaused(Granted(s, id).reg, Granted(s, id).pool, {})
  {
    forall r | IsWaiting(Granted(s, id).pool, r) ensures PausedRef(s.reg, Granted(s, id).pool.entries.at[r].program) {
      assert r != id && IsWaiting(s.pool, r);
    }
  }

  /** Every operation except such an arrival keeps waiting attempts with paused Programs. */
  lemma StepWaiting(s: Sched, op: Op)
    requires Inv(s) && Allowed(s, op) && WaitingPaused(s.reg, s.pool, {})
    requires op.Arrive? && !Refused(s, op.id, op.identity) ==> op.admitted || !CandidateActive(s, op.identity)
    ensures WaitingPaused(Step(s, op).reg, Step(s, op).pool, {})
  {
    hide Inv, Applied, WaitingPaused, Bound;
    match op {
      case Arrive(id, m, prompt, now, hook, admitted) =>
        if !Refused(s, id, m) { ArrivalStrandsIff(s, id, m, prompt, now, hook, admitted); }
      case Cycle(hook) => HookWaiting(s, hook, {});
      case Transfer => DroppedWaiting(s.reg, s.pool, s.pool.recent.at.Keys);
      case Complete(id, total, now, hook) =>
        if id in s.bindings {
          AccountedInv(s, id, total, now);
          var t := Accounted(s, id, total, now);
          var ref := s.bindings[id].program;
          StoredPaused(s.reg, s.pool, Finished(RecordOf(s.reg, ref), total, StatusOf(Unbound(s, id).requests, ref)),
                       {});
          HookWaiting(t, hook, {});
          AppliedWaiting(t, Request(PAUSE, ref, "marked_pause_completion"), now, {});
        }
      case Respond(id, terminal, now) =>
        if id in s.reg.programs {
          AppliedWaiting(s, Request(RELEASE, s.reg.programs[id].ref, "api_terminal_response"), now, {});
        }
      case Cancel(id, now) =>
        DropInv(s, {id});
        DroppedWaiting(s.reg, s.pool, {id});
        if id in s.bindings {
          var t := s.(pool := Dropped(s.pool, {id}));
          var ref := s.bindings[id].program;
          WithdrawnInv(t, id);
          StoredPaused(t.reg, t.pool, RecordOf(t.reg, ref).(status := StatusOf(Unbound(t, id).requests, ref)), {});
          AppliedWaiting(Withdrawn(t, id), Request(RELEASE, ref, "cancelled_before_admission"), now, {});
        }
      case Observe(id, report, freshness, now) =>
        var t := Step(s, op);
        if t.reg != s.reg {
          StoredPaused(s.reg, s.pool, t.reg.programs[s.bindings[id].program.programId], {});
        }
    }
  }

  lemma DroppedWaiting(reg: Registry, pool: Pool, ids: set<RequestId>)
    requires WaitingPaused(reg, pool, {})
    ensures WaitingPaused(reg, Dropped(pool, ids), {})
  {
    forall r | IsWaiting(Dropped(pool, ids), r) ensures PausedRef(reg, Dropped(pool, ids).entries.at[r].program) {
      assert IsWaiting(pool, r);
    }
  }

  // ---- every run from the empty scheduler

  function Initial(target: Target): Sched {
    Sched(target, Registry(map[], map[]), EMPTY_POOL, map[], map[], map[], map[])
  }

  const NO_HISTORY := History(multiset{}, multiset{}, multiset{})

  function Run(target: Target, ops: seq<Op>): (Sched, History) {
    if ops == [] then (Initial(target), NO_HISTORY)
    else
      var (s, h) := Run(target, ops[..|ops| - 1]);
      var op := ops[|ops| - 1];
      (Step(s, op), Log(s, h, op))
  }

  ghost predicate AllowedRun(target: Target, ops: seq<Op>) {
    forall n | 0 <= n < |ops| :: Allowed(Run(target, ops[..n]).0, ops[n])
  }

  /** The strategy queues no request of a Program that is already active. */
  ghost predicate QueuesOnlyInactive(target: Target, ops: seq<Op>) {
    forall n | 0 <= n < |ops| && ops[n].Arrive? ::
      var s := Run(target, ops[..n]).0;
      Refused(s, ops[n].id, ops[n].identity) || ops[n].admitted || !CandidateActive(s, ops[n].identity)
  }

  /** Safety over whole runs: consistent tables, conserved attempts, and, for such a strategy, no stranded attempt. */
  lemma {:induction false} RunSafety(target: Target, ops: seq<Op>)
    requires AllowedRun(target, ops)
    ensures var (s, h) := Run(target, ops);
      && Inv(s) && Conserved(s, h)
      && (QueuesOnlyInactive(target, ops) ==> WaitingPaused(s.reg, s.pool, {}))
  {
    if ops == [] {
      InitialSafe(target);
    } else {
      var init, op := ops[..|ops| - 1], ops[|ops| - 1];
      RunSnoc(target, ops);
      if QueuesOnlyInactive(target, ops) { QueuesPrefix(target, ops); }
      hide *;
      RunSafety(target, init);
      var (s, h) := Run(target, init);
      StepInv(s, op);
      StepConserves(s, h, op);
      if QueuesOnlyInactive(target, ops) { StepWaiting(s, op); }
    }
  }

  /** The last operation of a run, and the run before it. */
  lemma RunSnoc(target: Target, ops: seq<Op>)
    requires ops != []
    ensures var init, op := ops[..|ops| - 1], ops[|ops| - 1];
      && Run(target, ops) == (Step(Run(target, init).0, op), Log(Run(target, init).0, Run(target, init).1, op))
      && (AllowedRun(target, ops) ==> AllowedRun(target, init) && Allowed(Run(target, init).0, op))
  {
    var init := ops[..|ops| - 1];
    hide Step, Log, Allowed, Initial;
    assert forall n | 0 <= n < |init| :: init[n] == ops[n] && init[..n] == ops[..n];
  }

  lemma QueuesPrefix(target: Target, ops: seq<Op>)
    requires ops != [] && QueuesOnlyInactive(target, ops)
    ensures var init, op := ops[..|ops| - 1], ops[|ops| - 1];
      var s := Run(target, init).0;
      && QueuesOnlyInactive(target, init)
      && (op.Arrive? && !Refused(s, op.id, op.identity) ==> op.admitted || !CandidateActive(s, op.identity))
  {
    var init := ops[..|ops| - 1];
    hide Run, Refused, CandidateActive;
    assert forall n | 0 <= n < |init| :: init[n] == ops[n] && init[..n] == ops[..n];
  }

  lemma InitialSafe(target: Target)
    ensures Inv(Initial(target)) && Conserved(Initial(target), NO_HISTORY)
    ensures WaitingPaused(Initial(target).reg, Initial(target).pool, {})
  {
    assert PoolInv(EMPTY_POOL);
  }
}
