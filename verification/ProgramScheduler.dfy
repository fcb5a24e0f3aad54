/** Strategy-requested transitions, their results, and when both are well-formed. */
module Transitions {
  import opened Wrappers
  import opened Domain

  datatype TransitionKind = ADMIT | QUEUE | PAUSE | MARK_FOR_PAUSE | RESUME | RELEASE

  datatype TransitionRequest = TransitionRequest(
    kind: TransitionKind, program: ProgramRef, reason: string, backend: Option<BackendId>)

  datatype EventKind =
    | REQUEST_ADMITTED | REQUEST_PENDING | PROGRAM_PAUSED | PROGRAM_MARKED_FOR_PAUSE | PROGRAM_RESUMED
    | PROGRAM_RELEASED

  datatype Event = Event(
    kind: EventKind, program: ProgramRef, reason: string,
    previousState: ProgramState, currentState: ProgramState, status: ProgramStatus)

  datatype TransitionResult = TransitionResult(
    kind: TransitionKind, program: ProgramRef, applied: bool, reason: string, event: Option<Event>)

  /** What the constructor of a transition request checks. */
  predicate RequestOk(q: TransitionRequest) {
    q.reason != "" && (q.backend.Some? <==> q.kind in {ADMIT, RESUME})
  }

  function EventKindOf(k: TransitionKind): EventKind {
    match k
    case ADMIT => REQUEST_ADMITTED
    case QUEUE => REQUEST_PENDING
    case PAUSE => PROGRAM_PAUSED
    case MARK_FOR_PAUSE => PROGRAM_MARKED_FOR_PAUSE
    case RESUME => PROGRAM_RESUMED
    case RELEASE => PROGRAM_RELEASED
  }

  /** What the constructor of a transition result checks. */
  predicate ResultOk(r: TransitionResult) {
    && r.reason != ""
    && (r.applied <==> r.event.Some?)
    && (r.event.Some? ==> r.event.value.program == r.program && r.event.value.kind == EventKindOf(r.kind))
  }
}

/** The scheduler's tables as one value, its operations as functions, and the invariant they keep. */
module SchedulerSpec {
  import opened Wrappers
  import opened Arithmetic
  import opened Domain
  import opened ProgramIndex
  import opened RegistrySpec
  import opened RequestPoolSpec
  import opened Transitions

  /** Cache hits accounted to one attempt: the pair of whole and shared hit, and the hit in local memory with its part
      that no other request referenced. */
  datatype Hits = Hits(cached: Option<int>, shared: Option<int>, local: Option<int>, unreferenced: Option<int>)

  const NO_HITS := Hits(None, None, None, None)

  datatype Binding = Binding(program: ProgramRef, promptTokens: nat, trackSegmentShare: bool, hits: Hits)

  datatype Sched = Sched(
    target: Target,
    reg: Registry,
    pool: Pool,
    bindings: map<RequestId, Binding>,
    requests: map<ProgramRef, set<RequestId>>,
    lastFinished: map<ProgramRef, Time>,
    anchors: map<ProgramRef, Time>)

  predicate HasRequests(s: Sched, ref: ProgramRef) {
    ref in s.requests && s.requests[ref] != {}
  }

  function Record(s: Sched, ref: ProgramRef): Program
    requires Live(s.reg, ref)
  {
    s.reg.programs[ref.programId]
  }

  // ---- the invariant

  /** The per-Program request sets are the exact inverse of the bindings, with no empty set. */
  ghost predicate Inverse(bindings: map<RequestId, Binding>, requests: map<ProgramRef, set<RequestId>>) {
    && (forall ref | ref in requests :: requests[ref] != {})
    && (forall r | r in bindings :: bindings[r].program in requests && r in requests[bindings[r].program])
    && (forall ref, r | ref in requests && r in requests[ref] :: r in bindings && bindings[r].program == ref)
  }

  ghost predicate RecordOk(busy: set<ProgramRef>, anchors: map<ProgramRef, Time>, p: Program) {
    && (p.status == REASONING <==> p.ref in busy)
    && (p.marked ==> p.state == ACTIVE)
    && (p.state == ACTIVE <==> p.backend.Some?)
    && p.ref in anchors
    && (p.tokens.freshUntil.Some? ==> anchors[p.ref] <= p.tokens.freshUntil.value)
  }

  ghost predicate RecordsOk(ps: Programs, busy: set<ProgramRef>, anchors: map<ProgramRef, Time>) {
    forall id | id in ps :: RecordOk(busy, anchors, ps[id])
  }

  ghost predicate AllLive(reg: Registry, refs: set<ProgramRef>) {
    forall ref | ref in refs :: Live(reg, ref)
  }

  /** Every retained attempt is bound to the Program its entry names. */
  ghost predicate RetainedBound(entries: map<RequestId, Entry>, bindings: map<RequestId, Binding>) {
    forall r | r in entries :: r in bindings && bindings[r].program == entries[r].program
  }

  ghost predicate Inv(s: Sched) {
    && WellFormed(s.reg) && PoolInv(s.pool)
    && Inverse(s.bindings, s.requests)
    && RetainedBound(s.pool.entries.at, s.bindings)
    && AllLive(s.reg, s.requests.Keys) && AllLive(s.reg, s.anchors.Keys) && AllLive(s.reg, s.lastFinished.Keys)
    && RecordsOk(s.reg.programs, s.requests.Keys, s.anchors)
  }

  /** No waiting attempt, outside `skip`, belongs to a Program that is not paused. */
  ghost predicate WaitingPaused(reg: Registry, pool: Pool, skip: set<RequestId>) {
    forall r | IsWaiting(pool, r) && r !in skip :: PausedRef(reg, pool.entries.at[r].program)
  }

  predicate PausedRef(reg: Registry, ref: ProgramRef) {
    Live(reg, ref) && reg.programs[ref.programId].state == PAUSED
  }

  // ---- transitions

  /** A pause restarts the freshness period from now and keeps its length. */
  function Rebased(p: Program, anchor: Option<Time>, now: Time): Program {
    if anchor.None? || p.tokens.freshUntil.None? then p
    else p.(tokens := p.tokens.(freshUntil := Some(now + Max(0, p.tokens.freshUntil.value - anchor.value))))
  }

  function Anchor(s: Sched, ref: ProgramRef): Option<Time> {
    if ref in s.anchors then Some(s.anchors[ref]) else None
  }

  function Rejection(s: Sched, q: TransitionRequest): Option<string> {
    if !Live(s.reg, q.program) then Some("stale_program")
    else
      var p := Record(s, q.program);
      match q.kind
      case ADMIT | RESUME | QUEUE => if p.state != PAUSED then Some(RequiresPaused(q.kind)) else None
      case PAUSE =>
        if p.state != ACTIVE || p.status != ACTING then Some("pause_requires_active_acting") else None
      case MARK_FOR_PAUSE =>
        if p.state != ACTIVE || p.status != REASONING then Some("mark_requires_active_reasoning")
        else if p.marked then Some("already_marked") else None
      case RELEASE => if HasRequests(s, p.ref) then Some("release_requires_idle") else None
  }

  function RequiresPaused(k: TransitionKind): string {
    match k
    case ADMIT => "admit_requires_paused"
    case RESUME => "resume_requires_paused"
    case _ => "queue_requires_paused"
  }

  predicate Accepts(s: Sched, q: TransitionRequest) {
    Rejection(s, q).None?
  }

  /** The record after an accepted transition that keeps the Program live. */
  function Changed(p: Program, q: TransitionRequest, anchor: Option<Time>, now: Time): Program {
    match q.kind
    case ADMIT | RESUME => p.(state := ACTIVE, backend := q.backend, marked := false)
    case PAUSE => Rebased(p.(state := PAUSED, backend := None, marked := false), anchor, now)
    case MARK_FOR_PAUSE => p.(marked := true)
    case QUEUE | RELEASE => p
  }

  function Applied(s: Sched, q: TransitionRequest, now: Time): Sched {
    if !Accepts(s, q) || q.kind == QUEUE then s
    else
      var p := Record(s, q.program);
      if q.kind == RELEASE then
        s.(reg := Released(s.reg, p.ref), lastFinished := s.lastFinished - {p.ref}, anchors := s.anchors - {p.ref})
      else
        s.(reg := WithRecord(s.reg, Changed(p, q, Anchor(s, p.ref), now)),
           pool := if q.kind in {ADMIT, RESUME} then AdmitAll(s.pool, s.pool.entries.order, p.ref, s.target)
                   else s.pool,
           anchors := if q.kind == PAUSE then s.anchors[p.ref := now] else s.anchors)
  }

  function Outcome(s: Sched, q: TransitionRequest): TransitionResult {
    match Rejection(s, q)
    case Some(reason) => Rejected(q, reason)
    case None =>
      var p := Record(s, q.program);
      var state := match q.kind
        case ADMIT | RESUME => ACTIVE
        case PAUSE => PAUSED
        case RELEASE => TERMINATED
        case QUEUE | MARK_FOR_PAUSE => p.state;
      Committed(q, p, state)
  }

  function Rejected(q: TransitionRequest, reason: string): TransitionResult {
    TransitionResult(q.kind, q.program, false, reason, None)
  }

  function Committed(q: TransitionRequest, previous: Program, state: ProgramState): TransitionResult {
    TransitionResult(q.kind, q.program, true, q.reason,
                     Some(Event(EventKindOf(q.kind), q.program, q.reason, previous.state, state, previous.status)))
  }

  lemma AppliedReg(s: Sched, q: TransitionRequest, now: Time)
    requires Accepts(s, q)
    ensures Applied(s, q, now).reg ==
      if q.kind == QUEUE then s.reg
      else if q.kind == RELEASE then Released(s.reg, q.program)
      else WithRecord(s.reg, Changed(Record(s, q.program), q, Anchor(s, q.program), now))
  {
  }

  lemma RejectedKeeps(s: Sched, q: TransitionRequest, now: Time)
    ensures !Accepts(s, q) ==> Applied(s, q, now) == s
  {
  }

  /** The controller never meets a result it must reject. */
  lemma ResultMatches(s: Sched, q: TransitionRequest)
    requires RequestOk(q)
    ensures ResultOk(Outcome(s, q)) && Outcome(s, q).kind == q.kind && Outcome(s, q).program == q.program
    ensures Outcome(s, q).applied == Accepts(s, q)
  {
  }

  /** Rewriting one live record, with its anchor, inside the invariant. */
  lemma StoredInv(s: Sched, p: Program, anchors: map<ProgramRef, Time>)
    requires Inv(s) && Live(s.reg, p.ref) && p.state != TERMINATED
    requires p.parent == Record(s, p.ref).parent && p.blocksParent == Record(s, p.ref).blocksParent
    requires anchors.Keys == s.anchors.Keys
    requires forall ref | ref in anchors && ref != p.ref :: anchors[ref] == s.anchors[ref]
    requires RecordOk(s.requests.Keys, anchors, p)
    ensures Inv(s.(reg := WithRecord(s.reg, p), anchors := anchors))
  {
    var t := s.(reg := WithRecord(s.reg, p), anchors := anchors);
    InvFacts(s);
    hide Inv, PoolInv, Inverse, RetainedBound, AllLive, RecordOk;
    StoredWellFormed(s.reg, p);
    StoredRecords(s.reg, p, s.requests.Keys, s.anchors, anchors);
    hide WellFormed, RecordsOk, WithRecord, Live;
    StoredAllLive(s.reg, p, s.requests.Keys);
    StoredAllLive(s.reg, p, s.anchors.Keys);
    StoredAllLive(s.reg, p, s.lastFinished.Keys);
    IsInv(t);
  }

  /** The invariant, part by part. */
  lemma InvFacts(s: Sched)
    requires Inv(s)
    ensures WellFormed(s.reg) && PoolInv(s.pool) && Inverse(s.bindings, s.requests)
    ensures RetainedBound(s.pool.entries.at, s.bindings) && RecordsOk(s.reg.programs, s.requests.Keys, s.anchors)
    ensures AllLive(s.reg, s.requests.Keys) && AllLive(s.reg, s.anchors.Keys) && AllLive(s.reg, s.lastFinished.Keys)
  {
  }

  lemma IsInv(s: Sched)
    requires WellFormed(s.reg) && PoolInv(s.pool) && Inverse(s.bindings, s.requests)
    requires RetainedBound(s.pool.entries.at, s.bindings) && RecordsOk(s.reg.programs, s.requests.Keys, s.anchors)
    requires AllLive(s.reg, s.requests.Keys) && AllLive(s.reg, s.anchors.Keys) && AllLive(s.reg, s.lastFinished.Keys)
    ensures Inv(s)
  {
  }

  lemma StoredRecords(reg: Registry, p: Program, busy: set<ProgramRef>, anchors: map<ProgramRef, Time>,
                      anchors': map<ProgramRef, Time>)
    requires WellFormed(reg) && Live(reg, p.ref) && RecordsOk(reg.programs, busy, anchors)
    requires anchors'.Keys == anchors.Keys && RecordOk(busy, anchors', p)
    requires forall ref | ref in anchors' && ref != p.ref :: anchors'[ref] == anchors[ref]
    ensures RecordsOk(WithRecord(reg, p).programs, busy, anchors')
  {
    var ps := WithRecord(reg, p).programs;
    forall id | id in ps ensures RecordOk(busy, anchors', ps[id]) {
      assert id != p.ref.programId ==> RecordOk(busy, anchors, reg.programs[id]) && ps[id].ref != p.ref;
    }
  }

  lemma StoredAllLive(reg: Registry, p: Program, refs: set<ProgramRef>)
    requires Live(reg, p.ref) && AllLive(reg, refs)
    ensures AllLive(WithRecord(reg, p), refs)
  {
    StoredLive(reg, p);
  }

  lemma StoredLive(reg: Registry, p: Program)
    requires Live(reg, p.ref)
    ensures forall ref :: Live(WithRecord(reg, p), ref) <==> Live(reg, ref)
  {
  }

  lemma ReleasedRecords(reg: Registry, ref: ProgramRef, busy: set<ProgramRef>, anchors: map<ProgramRef, Time>)
    requires WellFormed(reg) && Live(reg, ref) && RecordsOk(reg.programs, busy, anchors)
    ensures RecordsOk(Released(reg, ref).programs, busy, anchors - {ref})
  {
    var ps := Released(reg, ref).programs;
    forall id | id in ps ensures RecordOk(busy, anchors - {ref}, ps[id]) {
      assert RecordOk(busy, anchors, reg.programs[id]);
      assert ps[id].ref == reg.programs[id].ref && id != ref.programId;
    }
  }

  lemma ReleasedLive(reg: Registry, ref: ProgramRef, refs: set<ProgramRef>)
    requires WellFormed(reg) && AllLive(reg, refs) && ref !in refs
    ensures AllLive(Released(reg, ref), refs)
  {
    forall other | other in refs ensures Live(Released(reg, ref), other) {
      ReleaseKillsOne(reg, ref, other);
    }
  }

  lemma ReleasedInv(s: Sched, ref: ProgramRef)
    requires Inv(s) && Live(s.reg, ref) && !HasRequests(s, ref)
    ensures Inv(s.(reg := Released(s.reg, ref), lastFinished := s.lastFinished - {ref}, anchors := s.anchors - {ref}))
  {
    assert ref !in s.requests by { assert Inverse(s.bindings, s.requests); }
    ReleasedWellFormed(s.reg, ref);
    ReleasedRecords(s.reg, ref, s.requests.Keys, s.anchors);
    hide Live, PoolInv, Inverse, RetainedBound, WellFormed, RecordsOk, Released;
    ReleasedLive(s.reg, ref, s.requests.Keys);
    ReleasedLive(s.reg, ref, (s.anchors - {ref}).Keys);
    ReleasedLive(s.reg, ref, (s.lastFinished - {ref}).Keys);
  }

  /** Admitting attempts of one Program changes no binding and no identity. */
  lemma AdmittedAllInv(s: Sched, ref: ProgramRef)
    requires Inv(s)
    ensures Inv(s.(pool := AdmitAll(s.pool, s.pool.entries.order, ref, s.target)))
  {
    AdmitAllEffect(s.pool, s.pool.entries.order, ref, s.target);
    hide Live, PoolInv, Inverse, WellFormed, RecordsOk;
  }

  lemma RecordFacts(s: Sched, ref: ProgramRef)
    requires Inv(s) && Live(s.reg, ref)
    ensures RecordOk(s.requests.Keys, s.anchors, Record(s, ref)) && Record(s, ref).state != TERMINATED
  {
    assert WellFormed(s.reg) && RecordsOk(s.reg.programs, s.requests.Keys, s.anchors);
  }

  /** Every transition keeps the invariant. */
  lemma AppliedInv(s: Sched, q: TransitionRequest, now: Time)
    requires Inv(s) && RequestOk(q)
    ensures Inv(Applied(s, q, now))
  {
    RejectedKeeps(s, q, now);
    if Accepts(s, q) && q.kind != QUEUE {
      if q.kind == RELEASE {
        assert Live(s.reg, q.program) && !HasRequests(s, q.program) && Record(s, q.program).ref == q.program;
        hide Inv, Released, Rejection, HasRequests;
        ReleasedInv(s, q.program);
      } else {
        AppliedStored(s, q, now);
      }
    }
  }

  lemma AppliedStored(s: Sched, q: TransitionRequest, now: Time)
    requires Inv(s) && RequestOk(q) && Accepts(s, q) && q.kind !in {QUEUE, RELEASE}
    ensures Inv(Applied(s, q, now))
  {
    RecordFacts(s, q.program);
    ChangedOk(s, q, now);
    var p := Record(s, q.program);
    var next := Changed(p, q, Anchor(s, p.ref), now);
    hide Inv, RecordOk, AdmitAll, WithRecord, Changed, Anchor, Rejection;
    if q.kind in {ADMIT, RESUME} {
      ActivatedInv(s, next);
    } else {
      StoredInv(s, next, if q.kind == PAUSE then s.anchors[p.ref := now] else s.anchors);
    }
  }

  /** Rewriting a record after admitting what its Program has waiting. */
  lemma ActivatedInv(s: Sched, next: Program)
    requires Inv(s) && Live(s.reg, next.ref) && next.state != TERMINATED && RecordOk(s.requests.Keys, s.anchors, next)
    requires next.parent == Record(s, next.ref).parent && next.blocksParent == Record(s, next.ref).blocksParent
    ensures Inv(s.(reg := WithRecord(s.reg, next), pool := AdmitAll(s.pool, s.pool.entries.order, next.ref, s.target)))
  {
    hide Inv, RecordOk, AdmitAll, WithRecord, Live;
    AdmittedAllInv(s, next.ref);
    StoredInv(s.(pool := AdmitAll(s.pool, s.pool.entries.order, next.ref, s.target)), next, s.anchors);
  }

  /** An accepted transition leaves a record that fits its anchor and its bound requests. */
  lemma ChangedOk(s: Sched, q: TransitionRequest, now: Time)
    requires RequestOk(q) && Accepts(s, q) && RecordOk(s.requests.Keys, s.anchors, Record(s, q.program))
    requires Record(s, q.program).state != TERMINATED
    ensures var p := Record(s, q.program);
      var next := Changed(p, q, Anchor(s, p.ref), now);
      && p.ref in s.anchors
      && (q.kind in {ADMIT, RESUME, MARK_FOR_PAUSE} ==> RecordOk(s.requests.Keys, s.anchors, next))
      && (q.kind == PAUSE ==> RecordOk(s.requests.Keys, s.anchors[p.ref := now], next))
      && next.ref == p.ref && next.state != TERMINATED && next.parent == p.parent && next.blocksParent == p.blocksParent
  {
  }

  /** Rewriting a record that stays paused, or was not paused, strands nobody. */
  lemma StoredPaused(reg: Registry, pool: Pool, p: Program, skip: set<RequestId>)
    requires WaitingPaused(reg, pool, skip) && Live(reg, p.ref)
    requires reg.programs[p.ref.programId].state == PAUSED ==> p.state == PAUSED
    ensures WaitingPaused(WithRecord(reg, p), pool, skip)
  {
  }

  lemma ActivatedPaused(reg: Registry, pool: Pool, p: Program, target: Target, skip: set<RequestId>)
    requires PoolInv(pool) && WaitingPaused(reg, pool, skip) && Live(reg, p.ref)
    ensures WaitingPaused(WithRecord(reg, p), AdmitAll(pool, pool.entries.order, p.ref, target), skip)
  {
    var q := AdmitAll(pool, pool.entries.order, p.ref, target);
    forall r | IsWaiting(q, r) && r !in skip ensures PausedRef(WithRecord(reg, p), q.entries.at[r].program) {
      StillWaiting(pool, p.ref, target, r);
    }
  }

  lemma ReleasedPaused(s: Sched, ref: ProgramRef, skip: set<RequestId>)
    requires Inv(s) && WaitingPaused(s.reg, s.pool, skip) && Live(s.reg, ref) && !HasRequests(s, ref)
    ensures WaitingPaused(Released(s.reg, ref), s.pool, skip)
  {
    forall r | IsWaiting(s.pool, r) && r !in skip
      ensures PausedRef(Released(s.reg, ref), s.pool.entries.at[r].program) {
      var other := s.pool.entries.at[r].program;
      assert HasRequests(s, other) by { assert Inverse(s.bindings, s.requests) && s.bindings[r].program == other; }
      assert PausedRef(s.reg, other);
      ReleaseKillsOne(s.reg, ref, other);
    }
  }

  /** Waiting attempts stay with paused Programs under every transition, so no pause and no resume strands one. */
  lemma AppliedWaiting(s: Sched, q: TransitionRequest, now: Time, skip: set<RequestId>)
    requires Inv(s) && WaitingPaused(s.reg, s.pool, skip)
    ensures WaitingPaused(Applied(s, q, now).reg, Applied(s, q, now).pool, skip)
  {
    RejectedKeeps(s, q, now);
    if Accepts(s, q) {
      InvParts(s);
      ChangedWaits(s, q, now);
      AppliedReg(s, q, now);
      AppliedPool(s, q, now);
      hide Inv, WaitingPaused, AdmitAll, Released, Rejection, Changed, Anchor, Applied, WithRecord, PoolInv, WellFormed;
      var next := Changed(Record(s, q.program), q, Anchor(s, q.program), now);
      match q.kind {
        case ADMIT | RESUME => ActivatedPaused(s.reg, s.pool, next, s.target, skip);
        case QUEUE =>
        case PAUSE | MARK_FOR_PAUSE => StoredPaused(s.reg, s.pool, next, skip);
        case RELEASE => ReleasedPaused(s, q.program, skip);
      }
    }
  }

  /** What an accepted transition finds, and leaves of a paused state. */
  lemma ChangedWaits(s: Sched, q: TransitionRequest, now: Time)
    requires Accepts(s, q)
    ensures Live(s.reg, q.program) && (q.kind == RELEASE ==> !HasRequests(s, q.program))
    ensures var next := Changed(Record(s, q.program), q, Anchor(s, q.program), now);
      && next.ref == q.program
      && (q.kind in {PAUSE, MARK_FOR_PAUSE} && Record(s, q.program).state == PAUSED ==> next.state == PAUSED)
  {
  }

  lemma InvParts(s: Sched)
    requires Inv(s)
    ensures PoolInv(s.pool) && WellFormed(s.reg)
  {
  }

  /** The step that activates a Program leaves none of its attempts waiting. */
  lemma ActivationAdmitsAll(s: Sched, q: TransitionRequest, now: Time)
    requires Inv(s) && Accepts(s, q) && q.kind in {ADMIT, RESUME}
    ensures var t := Applied(s, q, now);
      forall r | r in s.pool.entries.at && s.pool.entries.at[r].program == q.program ::
        r in t.pool.entries.at && t.pool.entries.at[r].status == ADMITTED && r in t.pool.recent.at
  {
    InvParts(s);
    AppliedPool(s, q, now);
    hide Inv, Applied, Accepts, WellFormed;
    AllAdmitted(s.pool, q.program, s.target);
  }

  lemma AllAdmitted(pool: Pool, ref: ProgramRef, target: Target)
    requires PoolInv(pool)
    ensures var after := AdmitAll(pool, pool.entries.order, ref, target);
      forall r | r in pool.entries.at && pool.entries.at[r].program == ref ::
        r in after.entries.at && after.entries.at[r].status == ADMITTED && r in after.recent.at
  {
    AdmitAllEffect(pool, pool.entries.order, ref, target);
    hide AdmitAll;
  }

  // ---- strategy hooks: any finite sequence of requested transitions

  datatype HookStep = HookStep(request: TransitionRequest, now: Time)

  ghost predicate StepsOk(steps: seq<HookStep>) {
    forall i | 0 <= i < |steps| :: RequestOk(steps[i].request)
  }

  function RunHook(s: Sched, steps: seq<HookStep>): Sched {
    if steps == [] then s
    else
      var last := steps[|steps| - 1];
      Applied(RunHook(s, steps[..|steps| - 1]), last.request, last.now)
  }

  /** The accepted requests, in order. */
  function Ledger(s: Sched, steps: seq<HookStep>): seq<TransitionRequest> {
    if steps == [] then []
    else
      var init, last := steps[..|steps| - 1], steps[|steps| - 1];
      Ledger(s, init) + (if Accepts(RunHook(s, init), last.request) then [last.request] else [])
  }

  lemma HookSnoc(s: Sched, steps: seq<HookStep>)
    requires steps != []
    ensures var init, last := steps[..|steps| - 1], steps[|steps| - 1];
      && RunHook(s, steps) == Applied(RunHook(s, init), last.request, last.now)
      && Ledger(s, steps) == Ledger(s, init) + (if Accepts(RunHook(s, init), last.request) then [last.request] else [])
  {
  }

  lemma {:induction false} HookInv(s: Sched, steps: seq<HookStep>)
    requires Inv(s) && StepsOk(steps)
    ensures Inv(RunHook(s, steps))
  {
    if steps != [] {
      var init, last := steps[..|steps| - 1], steps[|steps| - 1];
      HookInv(s, init);
      hide Inv, Applied;
      AppliedInv(RunHook(s, init), last.request, last.now);
    }
  }

  lemma {:induction false} HookWaiting(s: Sched, steps: seq<HookStep>, skip: set<RequestId>)
    requires Inv(s) && StepsOk(steps) && WaitingPaused(s.reg, s.pool, skip)
    ensures WaitingPaused(RunHook(s, steps).reg, RunHook(s, steps).pool, skip)
  {
    if steps != [] {
      var init, last := steps[..|steps| - 1], steps[|steps| - 1];
      HookWaiting(s, init, skip);
      HookInv(s, init);
      hide Inv, Applied, WaitingPaused;
      AppliedWaiting(RunHook(s, init), last.request, last.now, skip);
    }
  }

  /** Transitions touch neither the bindings nor the set of retained attempts, and never un-admit one. */
  lemma {:induction false} HookKeepsAttempts(s: Sched, steps: seq<HookStep>)
    requires Inv(s) && StepsOk(steps)
    ensures var t := RunHook(s, steps);
      && t.bindings == s.bindings && t.requests == s.requests && t.target == s.target
      && t.pool.entries.at.Keys == s.pool.entries.at.Keys && t.pool.entries.order == s.pool.entries.order
      && forall r | r in s.pool.entries.at && s.pool.entries.at[r].status == ADMITTED ::
           t.pool.entries.at[r] == s.pool.entries.at[r]
  {
    if steps != [] {
      var init, last := steps[..|steps| - 1], steps[|steps| - 1];
      HookKeepsAttempts(s, init);
      HookInv(s, init);
      hide Inv, Applied;
      AppliedKeepsAttempts(RunHook(s, init), last.request, last.now);
    }
  }

  lemma AppliedKeepsAttempts(s: Sched, q: TransitionRequest, now: Time)
    requires Inv(s)
    ensures var t := Applied(s, q, now);
      && t.bindings == s.bindings && t.requests == s.requests && t.target == s.target
      && t.pool.entries.at.Keys == s.pool.entries.at.Keys && t.pool.entries.order == s.pool.entries.order
      && forall r | r in s.pool.entries.at && s.pool.entries.at[r].status == ADMITTED ::
           t.pool.entries.at[r] == s.pool.entries.at[r]
  {
    AppliedPool(s, q, now);
    AdmitAllEffect(s.pool, s.pool.entries.order, q.program, s.target);
    hide Inv, PoolInv, AdmitAll, Applied, Accepts;
  }

  /** Of the request tables, a transition can change only the pool, and only by activating a Program. */
  lemma AppliedPool(s: Sched, q: TransitionRequest, now: Time)
    ensures var t := Applied(s, q, now);
      && t.bindings == s.bindings && t.requests == s.requests && t.target == s.target
      && t.pool == if Accepts(s, q) && q.kind in {ADMIT, RESUME}
                   then AdmitAll(s.pool, s.pool.entries.order, q.program, s.target) else s.pool
  {
  }
}
