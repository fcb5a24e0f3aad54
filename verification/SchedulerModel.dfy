/** `ProgramScheduler` and the lock-scoped `TransitionController`, updating their tables in place. */
module SchedulerModel {
  import opened Wrappers
  import opened Arithmetic
  import opened Domain
  import opened RegistrySpec
  import opened ProgramRegistryModel
  import opened RequestPoolSpec
  import opened RequestPoolModel
  import opened Transitions
  import opened SchedulerSpec
  import opened SchedulerOps
  import opened SnapshotFold

  /** The Program a request creates, if it creates one. */
  function Candidate(reg: Registry, m: AgentIdentity, prompt: int): Option<ProgramRef> {
    if m.programId in reg.programs then None else Some(Arrived(reg, m, prompt).ref)
  }

  /** After the hook, an immediate admission finds the attempt. */
  predicate Findable(s: Sched, id: RequestId, hook: seq<HookStep>) {
    var t := RunHook(s, hook);
    id in Admitted(t.pool, id, t.target).recent.at
  }

  function Answered(s: Sched, id: RequestId, hook: seq<HookStep>, admitted: bool): Sched {
    var t := RunHook(s, hook);
    if admitted then Granted(t, id) else t
  }

  /** An arrival at a Program that was acting is an event. */
  function StartEvents(reg: Registry, m: AgentIdentity): nat {
    if m.programId in reg.programs && reg.programs[m.programId].status != REASONING then 1 else 0
  }

  /** Transitions that follow the event of a completion: the pause of a marked Program, or those of the hook. */
  function SettleEvents(s: Sched, p: Program, hook: seq<HookStep>): nat {
    if !(p.marked && p.status == ACTING) then |Ledger(s, hook)|
    else if Accepts(s, Request(PAUSE, p.ref, "marked_pause_completion")) then 1 else 0
  }

  /** How many events an operation dispatches. After each the strategy is asked for its next deadline. */
  function Events(s: Sched, op: Op): nat {
    match op
    case Arrive(id, m, prompt, now, hook, _) =>
      if Refused(s, id, m) then 0 else StartEvents(s.reg, m) + |Ledger(Bound(s, id, m, prompt, now), hook)|
    case Cycle(hook) => |Ledger(s, hook)|
    case Complete(id, total, now, hook) =>
      if id !in s.bindings || !Live(Accounted(s, id, total, now).reg, s.bindings[id].program) then 0
      else
        var t := Accounted(s, id, total, now);
        1 + SettleEvents(t, Record(t, s.bindings[id].program), hook)
    case Respond(id, terminal, now) =>
      if !terminal || id !in s.reg.programs then 0
      else
        var p := s.reg.programs[id];
        if HasRequests(s, p.ref) || p.status != ACTING || !Accepts(s, Request(RELEASE, p.ref, "api_terminal_response"))
        then 0 else 1
    case Cancel(id, now) => CancelEvents(s, id)
    case Transfer | Observe(_, _, _, _) => 0
  }

  function CancelEvents(s: Sched, id: RequestId): nat {
    if id !in s.bindings then 0
    else
      var ref := s.bindings[id].program;
      var u := Withdrawn(s.(pool := Dropped(s.pool, {id})), id);
      if !Live(s.reg, ref) || !Live(u.reg, ref) then 0
      else
        var p := Record(u, ref);
        (if p.status != Record(s, ref).status then 1 else 0)
        + if !HasRequests(u, ref) && p.state == PAUSED && p.stepCount == 0
             && Accepts(u, Request(RELEASE, ref, "cancelled_before_admission")) then 1 else 0
  }

  /** Events of a cycle before its timed check is considered, and of the whole cycle. */
  function CheckEvents(s: Sched, resume: seq<HookStep>, repair: seq<HookStep>): nat {
    |Ledger(s, resume)| + |Ledger(RunHook(s, resume), repair)|
  }

  function CycleEvents(s: Sched, resume: seq<HookStep>, repair: seq<HookStep>, check: seq<HookStep>, due: bool): nat {
    CheckEvents(s, resume, repair) + if due then |Ledger(RunHook(RunHook(s, resume), repair), check)| else 0
  }

  predicate Due(deadline: Option<Time>, now: Time) {
    deadline.Some? && deadline.value <= now
  }

  /** What a cycle leaves behind, and that each later hook saw what re-reading the registry would have shown it. */
  ghost predicate CycleViews(s: Sched, t: Sched, resume: seq<HookStep>, repair: seq<HookStep>, check: seq<HookStep>,
                             due: bool, repairView: Option<Snapshot>, checkView: Option<Snapshot>) {
    var s1 := RunHook(s, resume);
    var s2 := RunHook(s1, repair);
    && t == (if due then RunHook(s2, check) else s2)
    && repairView.Some? && SnapshotOk(repairView.value) && Rereads(repairView.value, s1.reg)
    && checkView.Some? == due
    && (due ==> SnapshotOk(checkView.value) && Rereads(checkView.value, s2.reg))
  }

  function ReleaseRequested(s: Sched, id: ProgramId, terminal: bool): Option<TransitionRequest> {
    if terminal && id in s.reg.programs && !HasRequests(s, s.reg.programs[id].ref)
      && s.reg.programs[id].status == ACTING
    then Some(Request(RELEASE, s.reg.programs[id].ref, "api_terminal_response")) else None
  }

  lemma ResponseReleases(s: Sched, id: ProgramId, terminal: bool, now: Time)
    ensures var q, op := ReleaseRequested(s, id, terminal), Respond(id, terminal, now);
      && (q.None? ==> AfterResponse(s, id, terminal, now) == s && Events(s, op) == 0)
      && (q.Some? ==>
            && RequestOk(q.value) && AfterResponse(s, id, terminal, now) == Applied(s, q.value, now)
            && Events(s, op) == if Accepts(s, q.value) then 1 else 0)
  {
    hide Applied, Accepts;
  }

  function ReleaseAfterCancel(s: Sched, p: Program): Option<TransitionRequest> {
    if !HasRequests(s, p.ref) && p.state == PAUSED && p.stepCount == 0
    then Some(Request(RELEASE, p.ref, "cancelled_before_admission")) else None
  }

  /** A cancellation drops the attempt, withdraws its binding, and may release the Program. */
  lemma CancelOf(s: Sched, id: RequestId, now: Time)
    requires Inv(s)
    ensures id !in s.bindings ==>
      AfterCancel(s, id, now) == s.(pool := Dropped(s.pool, {id})) && Events(s, Cancel(id, now)) == 0
    ensures id in s.bindings ==>
      var ref, u := s.bindings[id].program, Withdrawn(s.(pool := Dropped(s.pool, {id})), id);
      && Live(s.reg, ref) && Live(u.reg, ref)
      && var p, q := RecordOf(u.reg, ref), ReleaseAfterCancel(u, RecordOf(u.reg, ref));
         && AfterCancel(s, id, now) == (if q.Some? then Applied(u, q.value, now) else u)
         && Events(s, Cancel(id, now)) == (if p.status != RecordOf(s.reg, ref).status then 1 else 0)
              + if q.Some? && Accepts(u, q.value) then 1 else 0
  {
    hide Inv, Applied, Accepts, Withdrawn, HasRequests, Dropped, Live, WithRecord, Unbound;
    if id in s.bindings {
      BoundProgramLive(s, id);
      WithdrawnLive(s.(pool := Dropped(s.pool, {id})), id);
    }
  }

  lemma BoundProgramLive(s: Sched, id: RequestId)
    requires Inv(s) && id in s.bindings
    ensures Live(s.reg, s.bindings[id].program)
  {
    assert s.bindings[id].program in s.requests;
  }

  lemma WithdrawnLive(s: Sched, id: RequestId)
    requires id in s.bindings && Live(s.reg, s.bindings[id].program)
    ensures var ref := s.bindings[id].program;
      && Withdrawn(s, id) == Unbound(s, id).(
           reg := WithRecord(s.reg, RecordOf(s.reg, ref).(status := StatusOf(Unbound(s, id).requests, ref))))
      && Live(Withdrawn(s, id).reg, ref) && RecordOf(Withdrawn(s, id).reg, ref).ref == ref
  {
    hide StatusOf;
  }

  lemma OutcomeApplies(s: Sched, q: TransitionRequest)
    ensures Outcome(s, q).applied <==> Accepts(s, q)
  {
  }

  class ProgramScheduler {
    const target: Target
    const registry: ProgramRegistry
    const requestPool: RequestPool
    var requestBindings: Bindings
    var programRequests: Requests
    var lastRequestFinishedAt: map<ProgramRef, Time>
    var freshnessAnchorAt: map<ProgramRef, Time>
    const scheduleInterval: Time
    var cycleDirty: bool
    var nextPeriodicCheckAt: Time
    /** The deadline the strategy names each time it is asked, and how often it has been asked. */
    const answers: nat -> Option<Time>
    var consultations: nat
    var nextCheckAt: Option<Time>

    function Abs(): Sched
      reads this, registry, requestPool
    {
      Sched(target, registry.Abs(), requestPool.Abs(), requestBindings, programRequests,
            lastRequestFinishedAt, freshnessAnchorAt)
    }

    /** The owned components keep their own invariants, also between the steps of one operation, and the cached deadline
        is always the strategy's latest answer. */
    ghost predicate Parts()
      reads this, registry, requestPool
    {
      registry.Valid() && requestPool.Valid() && nextCheckAt == answers(consultations)
    }

    ghost predicate Valid()
      reads this, registry, requestPool
    {
      Parts() && Inv(Abs())
    }

    /** A host poll has to enter the strategy: its deadline has passed, or a period has and there is something to do. */
    predicate NeedsCycle(now: Time)
      reads this, registry, requestPool
    {
      || Due(nextCheckAt, now)
      || (nextPeriodicCheckAt <= now && (requestPool.entries.order != [] || cycleDirty || registry.programs != map[]))
    }

    constructor (target: Target, scheduleInterval: Time, answers: nat -> Option<Time>)
      ensures Valid() && Abs() == Initial(target) && this.scheduleInterval == scheduleInterval
      ensures !cycleDirty && nextPeriodicCheckAt == 0 && consultations == 0 && this.answers == answers
      ensures fresh(registry) && fresh(requestPool)
    {
      this.target := target;
      registry := new ProgramRegistry();
      requestPool := new RequestPool();
      requestBindings, programRequests, lastRequestFinishedAt, freshnessAnchorAt := map[], map[], map[], map[];
      cycleDirty, nextPeriodicCheckAt, this.scheduleInterval := false, 0, scheduleInterval;
      this.answers, consultations, nextCheckAt := answers, 0, answers(0);
    }

    /** Asks the strategy for its next deadline, as every dispatched event does. */
    method Consult()
      requires Parts()
      modifies `consultations, `nextCheckAt
      ensures Parts() && Abs() == old(Abs()) && consultations == old(consultations) + 1
    {
      consultations := consultations + 1;
      nextCheckAt := answers(consultations);
    }

    /** Validates and commits one requested transition. */
    method ApplyTransition(q: TransitionRequest, now: Time) returns (r: TransitionResult)
      requires Valid() && RequestOk(q)
      modifies `lastRequestFinishedAt, `freshnessAnchorAt, `consultations, `nextCheckAt, registry, requestPool
      ensures Valid()
      ensures Abs() == Applied(old(Abs()), q, now)
      ensures r == Outcome(old(Abs()), q)
      ensures consultations == old(consultations) + if r.applied then 1 else 0
    {
      hide ProgramRegistry.Valid, RequestPool.Valid, Inv, RequiresPaused, EventKindOf;
      AppliedInv(Abs(), q, now);
      RejectedKeeps(Abs(), q, now);
      hide Applied;
      var found := registry.Get(q.program);
      if found.None? { return Rejected(q, "stale_program"); }
      var program := found.value;
      match q.kind {
        case ADMIT | RESUME | QUEUE =>
          if program.state != PAUSED { return Rejected(q, RequiresPaused(q.kind)); }
        case PAUSE =>
          if program.state != ACTIVE || program.status != ACTING { return Rejected(q, "pause_requires_active_acting"); }
        case MARK_FOR_PAUSE =>
          if program.state != ACTIVE || program.status != REASONING {
            return Rejected(q, "mark_requires_active_reasoning");
          }
          if program.marked { return Rejected(q, "already_marked"); }
        case RELEASE =>
          if program.ref in programRequests && programRequests[program.ref] != {} {
            return Rejected(q, "release_requires_idle");
          }
      }
      var state := Commit(program, q, now);
      Consult();
      r := Committed(q, program, state);
    }

    /** The mutation of an accepted transition; returns the Program's state afterwards. */
    method Commit(program: Program, q: TransitionRequest, now: Time) returns (state: ProgramState)
      requires Parts() && Accepts(Abs(), q) && RecordOf(registry.Abs(), q.program) == program
      modifies `lastRequestFinishedAt, `freshnessAnchorAt, registry, requestPool
      ensures Parts() && Abs() == Applied(old(Abs()), q, now)
      ensures state == match q.kind
                       case ADMIT | RESUME => ACTIVE
                       case PAUSE => PAUSED
                       case RELEASE => TERMINATED
                       case QUEUE | MARK_FOR_PAUSE => program.state
    {
      hide ProgramRegistry.Valid, RequestPool.Valid, Released, Rebased, WithRecord, AdmitAll;
      state := program.state;
      match q.kind {
        case ADMIT | RESUME =>
          Activate(program, q);
          state := ACTIVE;
        case QUEUE =>
        case PAUSE =>
          RestartFreshness(program.(state := PAUSED, backend := None, marked := false), now);
          state := PAUSED;
        case MARK_FOR_PAUSE =>
          registry.Store(program.(marked := true));
        case RELEASE =>
          Forget(program.ref);
          state := TERMINATED;
      }
    }

    /** Makes a paused Program active and admits what it has waiting. */
    method Activate(program: Program, q: TransitionRequest)
      requires Parts() && Live(registry.Abs(), program.ref) && RecordOf(registry.Abs(), program.ref) == program
      modifies registry, requestPool
      ensures Parts()
      ensures Abs() == old(Abs()).(
        reg := WithRecord(old(registry.Abs()), program.(state := ACTIVE, backend := q.backend, marked := false)),
        pool := AdmitAll(old(requestPool.Abs()), old(requestPool.entries).order, program.ref, target))
    {
      hide ProgramRegistry.Valid, RequestPool.Valid, WithRecord, AdmitAll;
      registry.Store(program.(state := ACTIVE, backend := q.backend, marked := false));
      AdmitProgramRequests(program.ref);
    }

    /** Stores the paused record and moves its freshness deadline with the new anchor. */
    method RestartFreshness(p: Program, now: Time)
      requires Parts() && Live(registry.Abs(), p.ref) && p.state != TERMINATED
      requires var q := RecordOf(registry.Abs(), p.ref);
        q.task == p.task && q.parent == p.parent && q.blocksParent == p.blocksParent
      modifies `freshnessAnchorAt, registry
      ensures Parts()
      ensures Abs() == old(Abs()).(
        reg := WithRecord(old(registry.Abs()), Rebased(p, Anchor(old(Abs()), p.ref), now)),
        anchors := old(freshnessAnchorAt)[p.ref := now])
    {
      hide ProgramRegistry.Valid, RequestPool.Valid, WithRecord;
      var anchor := if p.ref in freshnessAnchorAt then Some(freshnessAnchorAt[p.ref]) else None;
      freshnessAnchorAt := freshnessAnchorAt[p.ref := now];
      if anchor.None? || p.tokens.freshUntil.None? {
        registry.Store(p);
        return;
      }
      var period := Max(0, p.tokens.freshUntil.value - anchor.value);
      registry.Store(p.(tokens := p.tokens.(freshUntil := Some(now + period))));
    }

    /** Releases a Program and its side tables. */
    method Forget(ref: ProgramRef)
      requires Parts()
      modifies `lastRequestFinishedAt, `freshnessAnchorAt, registry
      ensures Parts()
      ensures Abs() == old(Abs()).(
        reg := Released(old(registry.Abs()), ref),
        lastFinished := old(lastRequestFinishedAt) - {ref}, anchors := old(freshnessAnchorAt) - {ref})
    {
      hide ProgramRegistry.Valid, RequestPool.Valid, Released;
      var _ := registry.Release(ref);
      lastRequestFinishedAt := lastRequestFinishedAt - {ref};
      freshnessAnchorAt := freshnessAnchorAt - {ref};
    }

    /** Admits every waiting attempt of one Program, in arrival order. */
    method AdmitProgramRequests(ref: ProgramRef)
      requires requestPool.Valid()
      modifies requestPool
      ensures requestPool.Valid()
      ensures requestPool.Abs() == AdmitAll(old(requestPool.Abs()), old(requestPool.entries).order, ref, target)
    {
      var entries := requestPool.entries;
      ghost var pool := requestPool.Abs();
      assert PoolInv(pool) && pool.entries == entries;
      for i := 0 to |entries.order|
        invariant requestPool.Valid() && requestPool.Abs() == AdmitAll(pool, entries.order[..i], ref, target)
      {
        hide *;
        var id := entries.order[i];
        AdmitNext(pool, entries.order, i, ref, target);
        if entries.at[id].program == ref && entries.at[id].status == WAITING {
          var _ := requestPool.Admit(id, target);
        }
      }
      assert entries.order[..|entries.order|] == entries.order;
    }

    /** Removes a binding from both tables, dropping an emptied request set. */
    method PopBinding(id: RequestId) returns (b: Option<Binding>)
      requires Parts() && Inverse(requestBindings, programRequests)
      modifies `requestBindings, `programRequests
      ensures Parts()
      ensures b == if id in old(requestBindings) then Some(old(requestBindings)[id]) else None
      ensures b.None? ==> Abs() == old(Abs())
      ensures b.Some? ==> Abs() == Unbound(old(Abs()), id)
    {
      if id !in requestBindings { return None; }
      var binding := requestBindings[id];
      requestBindings := requestBindings - {id};
      if binding.program in programRequests {
        var rest := programRequests[binding.program] - {id};
        programRequests := if rest == {} then programRequests - {binding.program}
          else programRequests[binding.program := rest];
      }
      b := Some(binding);
    }

    /** Runs one strategy hook through its controller. */
    method RunStrategy(controller: TransitionController, steps: seq<HookStep>)
      requires Valid() && StepsOk(steps) && controller.scheduler == this
      modifies `lastRequestFinishedAt, `freshnessAnchorAt, `consultations, `nextCheckAt, registry, requestPool,
               controller
      ensures Valid()
      ensures Abs() == RunHook(old(Abs()), steps)
      ensures controller.appliedRequests == old(controller.appliedRequests) + Ledger(old(Abs()), steps)
      ensures consultations == old(consultations) + |Ledger(old(Abs()), steps)|
    {
      hide *;
      ghost var before, ledger, asked := Abs(), controller.appliedRequests, consultations;
      NoSteps(before, steps);
      for i := 0 to |steps|
        invariant Valid() && Abs() == RunHook(before, steps[..i])
        invariant controller.appliedRequests == ledger + Ledger(before, steps[..i])
        invariant consultations == asked + |Ledger(before, steps[..i])|
      {
        NextStep(before, steps, i);
        var _ := controller.Apply(steps[i].request, steps[i].now);
      }
      assert steps[..|steps|] == steps;
    }

    lemma NextStep(s: Sched, steps: seq<HookStep>, i: nat)
      requires StepsOk(steps) && i < |steps|
      ensures RequestOk(steps[i].request)
      ensures var before, q := RunHook(s, steps[..i]), steps[i].request;
        && RunHook(s, steps[..i + 1]) == Applied(before, q, steps[i].now)
        && Ledger(s, steps[..i + 1]) == Ledger(s, steps[..i]) + (if Accepts(before, q) then [q] else [])
    {
      assert steps[..i + 1][..i] == steps[..i];
      HookSnoc(s, steps[..i + 1]);
    }

    lemma NoSteps(s: Sched, steps: seq<HookStep>)
      ensures RunHook(s, steps[..0]) == s && Ledger(s, steps[..0]) == []
    {
    }

    /** A hook with a controller of its own. */
    method RunOneHook(steps: seq<HookStep>)
      requires Valid() && StepsOk(steps)
      modifies `lastRequestFinishedAt, `freshnessAnchorAt, `consultations, `nextCheckAt, registry, requestPool
      ensures Valid() && Abs() == RunHook(old(Abs()), steps)
      ensures consultations == old(consultations) + |Ledger(old(Abs()), steps)|
    {
      hide ProgramRegistry.Valid, RequestPool.Valid, Inv, RunHook, StepsOk, Ledger;
      var controller := new TransitionController(this);
      RunStrategy(controller, steps);
    }

    /** Binds, retains and asks for admission; the strategy's hook and its answer are arbitrary. The snapshot that the
        hook decides on does not list a Program created by this request as waiting. */
    method OnRequestArrival(id: RequestId, m: AgentIdentity, prompt: int, now: Time,
                            hook: seq<HookStep>, admitted: bool)
      returns (r: Result<bool, string>, view: Option<Snapshot>)
      requires Valid() && StepsOk(hook)
      modifies `requestBindings, `programRequests, `lastRequestFinishedAt, `freshnessAnchorAt, `cycleDirty,
               `consultations, `nextCheckAt, registry, requestPool
      ensures Valid()
      ensures Abs() == AfterArrival(old(Abs()), id, m, prompt, now, hook, admitted)
      ensures r.Err? <==> Refused(old(Abs()), id, m)
      ensures r.Ok? ==> r.value == admitted && view.Some?
      ensures r.Ok? ==> AdmissionView(view.value, Bound(old(Abs()), id, m, prompt, now).reg,
                                      Candidate(old(registry.Abs()), m, prompt))
      ensures cycleDirty == (old(cycleDirty) || id !in old(requestBindings))
      ensures consultations == old(consultations) + Events(old(Abs()), Arrive(id, m, prompt, now, hook, admitted))
    {
      hide *;
      IsInvariant();
      AbsFields();
      ArrivalOf(Abs(), id, m, prompt, now, hook, admitted);
      if id in requestBindings { return Err("duplicate request_id"), None; }
      Dirty();
      view := Propose(id, m, prompt, now);
      if view.None? { return Err("task_id cannot change within one Program generation"), None; }
      Decide(id, hook, admitted);
      r := Ok(admitted);
    }

    /** How an arrival ends, by its two halves. */
    lemma ArrivalOf(s: Sched, id: RequestId, m: AgentIdentity, prompt: int, now: Time, hook: seq<HookStep>,
                         admitted: bool)
      requires Inv(s) && StepsOk(hook)
      ensures Refused(s, id, m) <==> id in s.bindings || TaskConflict(s.reg, m)
      ensures Refused(s, id, m) ==> AfterArrival(s, id, m, prompt, now, hook, admitted) == s
      ensures Events(s, Arrive(id, m, prompt, now, hook, admitted)) ==
        if Refused(s, id, m) then 0 else StartEvents(s.reg, m) + |Ledger(Bound(s, id, m, prompt, now), hook)|
      ensures !Refused(s, id, m) ==>
        var t := Bound(s, id, m, prompt, now);
        && Findable(t, id, hook)
        && AfterArrival(s, id, m, prompt, now, hook, admitted) == Answered(t, id, hook, admitted)
    {
      hide Inv, Bound, RunHook, Granted, Admitted;
      if !Refused(s, id, m) { ImmediateGrantFindsAttempt(s, id, m, prompt, now, hook); }
    }

    /** Binds the attempt and takes the snapshot to decide on, unless the Program belongs to another task. */
    method Propose(id: RequestId, m: AgentIdentity, prompt: int, now: Time) returns (view: Option<Snapshot>)
      requires Valid() && id !in requestBindings
      modifies `requestBindings, `programRequests, `freshnessAnchorAt, `consultations, `nextCheckAt, registry,
               requestPool
      ensures Valid()
      ensures consultations == old(consultations) + if view.None? then 0 else StartEvents(old(registry.Abs()), m)
      ensures view.None? <==> TaskConflict(old(registry.Abs()), m)
      ensures Abs() == if view.None? then old(Abs()) else Bound(old(Abs()), id, m, prompt, now)
      ensures view.Some? ==> AdmissionView(view.value, Bound(old(Abs()), id, m, prompt, now).reg,
                                           Candidate(old(registry.Abs()), m, prompt))
    {
      ghost var before := Abs();
      hide ProgramRegistry.Valid, RequestPool.Valid, Inv, Bound, AdmissionView, Candidate, TaskConflict;
      var bound, candidate := BindRequest(id, m, prompt, now);
      if !bound { return None; }
      BoundInv(before, id, m, prompt, now);
      view := AdmissionSnapshot(candidate);
    }

    /** Runs the hook and carries out its answer. */
    method Decide(id: RequestId, hook: seq<HookStep>, admitted: bool)
      requires Valid() && StepsOk(hook) && Findable(Abs(), id, hook)
      modifies `lastRequestFinishedAt, `freshnessAnchorAt, `consultations, `nextCheckAt, registry, requestPool
      ensures Valid() && Abs() == Answered(old(Abs()), id, hook, admitted)
      ensures consultations == old(consultations) + |Ledger(old(Abs()), hook)|
    {
      hide ProgramRegistry.Valid, RequestPool.Valid, Inv, RunHook, StepsOk, Granted, Admitted;
      RunOneHook(hook);
      if admitted { Grant(id); }
    }

    method AdmissionSnapshot(candidate: Option<ProgramRef>) returns (view: Option<Snapshot>)
      requires Valid()
      ensures view.Some? && AdmissionView(view.value, registry.Abs(), candidate)
    {
      ExcludingMeans(registry.Abs(), candidate);
      view := Some(Excluding(SnapshotOf(registry.Abs()), candidate));
    }

    /** Materializes the Program, binds the attempt to it and retains the attempt; names a Program it created. */
    method BindRequest(id: RequestId, m: AgentIdentity, prompt: int, now: Time)
      returns (ok: bool, candidate: Option<ProgramRef>)
      requires Valid() && id !in requestBindings
      modifies `requestBindings, `programRequests, `freshnessAnchorAt, `consultations, `nextCheckAt, registry,
               requestPool
      ensures Parts()
      ensures consultations == old(consultations) + if ok then StartEvents(old(registry.Abs()), m) else 0
      ensures ok <==> !TaskConflict(old(registry.Abs()), m)
      ensures Abs() == if ok then Bound(old(Abs()), id, m, prompt, now) else old(Abs())
      ensures ok ==> candidate == Candidate(old(registry.Abs()), m, prompt)
    {
      hide *;
      IsInvariant();
      UnboundIsAbsent(id);
      BoundOf(Abs(), id, m, prompt, now);
      AbsFields();
      var enrolled := Enroll(m, prompt);
      if enrolled.None? { return false, None; }
      var (program, created, paused, started) := enrolled.value;
      AbsFields();
      Tabulate(id, Binding(program, Max(0, prompt), created || paused, NO_HITS), created, now);
      AbsFields();
      if started { Consult(); }
      ok, candidate := true, if created then Some(program) else None;
    }

    /** Materializes the Program, raises its context estimate and sets it reasoning; tells whether it is new,
        paused, and starting to reason. */
    method Enroll(m: AgentIdentity, prompt: int) returns (r: Option<(ProgramRef, bool, bool, bool)>)
      requires Parts() && WellFormed(registry.Abs())
      modifies registry
      ensures Parts()
      ensures r.None? <==> TaskConflict(old(registry.Abs()), m)
      ensures r.None? ==> Abs() == old(Abs())
      ensures r.Some? ==>
        var reg, p := old(registry.Abs()), Arrived(old(registry.Abs()), m, prompt);
        && Abs() == old(Abs()).(reg := WithRecord(Materialized(reg, m, PAUSED), p))
        && r.value == (p.ref, m.programId !in reg.programs, p.state == PAUSED, StartEvents(reg, m) == 1)
    {
      ArrivedAlive(registry.Abs(), m, prompt);
      hide ProgramRegistry.Valid, RequestPool.Valid, WellFormed;
      MaterializedLive(registry.Abs(), m, prompt);
      var found := registry.Materialize(m, PAUSED);
      if found.Err? { return None; }
      var (ref, created) := found.value;
      var program := registry.programs[m.programId];
      StartReasoning(program, prompt);
      r := Some((ref, created, program.state == PAUSED, program.status != REASONING));
    }

    method StartReasoning(program: Program, prompt: int)
      requires Parts() && Live(registry.Abs(), program.ref) && RecordOf(registry.Abs(), program.ref) == program
      requires program.state != TERMINATED
      modifies registry
      ensures Parts()
      ensures Abs() == old(Abs()).(reg := WithRecord(old(registry.Abs()), program.(tokens := program.tokens.(
        estimatedContext := Max(program.tokens.estimatedContext, Max(0, prompt))), status := REASONING)))
    {
      hide ProgramRegistry.Valid, RequestPool.Valid, WithRecord;
      registry.Store(program.(tokens := program.tokens.(
        estimatedContext := Max(program.tokens.estimatedContext, Max(0, prompt))), status := REASONING));
    }

    lemma ArrivedAlive(reg: Registry, m: AgentIdentity, prompt: int)
      requires WellFormed(reg)
      ensures Arrived(reg, m, prompt).state != TERMINATED
    {
    }

    /** The tables of an arrival, entry by entry. */
    lemma BoundOf(s: Sched, id: RequestId, m: AgentIdentity, prompt: int, now: Time)
      ensures var created, p := m.programId !in s.reg.programs, Arrived(s.reg, m, prompt);
        var b := Binding(p.ref, Max(0, prompt), created || p.state == PAUSED, NO_HITS);
        && Candidate(s.reg, m, prompt) == (if created then Some(p.ref) else None)
        && (StartEvents(s.reg, m) == 0 || StartEvents(s.reg, m) == 1) && Max(0, prompt) >= 0
        && Bound(s, id, m, prompt, now) == s.(
             reg := WithRecord(Materialized(s.reg, m, PAUSED), p),
             pool := Added(s.pool, Waiting(id, p.ref, now)),
             bindings := s.bindings[id := b],
             requests := s.requests[p.ref := Busy(s.requests, p.ref) + {id}],
             anchors := if created then s.anchors[p.ref := now] else s.anchors)
    {
      hide Arrived, Materialized, WithRecord, Added, Busy;
    }

    /** An id that is not bound is not retained either. */
    lemma UnboundIsAbsent(id: RequestId)
      requires Valid() && id !in requestBindings
      ensures id !in requestPool.entries.at && WellFormed(registry.Abs())
    {
    }

    /** The scheduler's own tables for a newly bound attempt. */
    method Tabulate(id: RequestId, b: Binding, created: bool, now: Time)
      requires Parts() && id !in requestPool.entries.at
      modifies `requestBindings, `programRequests, `freshnessAnchorAt, requestPool
      ensures Parts()
      ensures Abs() == old(Abs()).(
        pool := Added(old(requestPool.Abs()), Waiting(id, b.program, now)),
        bindings := old(requestBindings)[id := b],
        requests := old(programRequests)[b.program := Busy(old(programRequests), b.program) + {id}],
        anchors := if created then old(freshnessAnchorAt)[b.program := now] else old(freshnessAnchorAt))
    {
      hide ProgramRegistry.Valid, RequestPool.Valid, Added, Busy;
      if created { freshnessAnchorAt := freshnessAnchorAt[b.program := now]; }
      requestBindings := requestBindings[id := b];
      programRequests := programRequests[b.program := Busy(programRequests, b.program) + {id}];
      var added := requestPool.Add(Waiting(id, b.program, now));
      assert added;
    }

    /** Commits an immediate admission and hands the attempt over; it is always found. */
    method Grant(id: RequestId)
      requires Valid() && id in Admitted(requestPool.Abs(), id, target).recent.at
      modifies requestPool
      ensures Valid() && Abs() == Granted(old(Abs()), id)
    {
      hide ProgramRegistry.Valid, RequestPool.Valid, ProgramRegistry.Abs, RequestPool.Abs, Inv, Admitted, Dropped,
           WellFormed, PoolInv;
      ghost var before := Abs();
      GrantedInv(before, id);
      var handedOver := requestPool.GrantNow(id, target);
      assert handedOver.Some?;
      assert Abs() == before.(pool := Dropped(Admitted(before.pool, id, target), {id}));
    }

    /** Final accounting; the host calls it only for attempts it was handed. */
    method OnRequestCompletion(id: RequestId, total: int, now: Time, hook: seq<HookStep>)
      requires Valid() && StepsOk(hook) && id !in requestPool.entries.at
      modifies `requestBindings, `programRequests, `lastRequestFinishedAt, `freshnessAnchorAt, `cycleDirty,
               `consultations, `nextCheckAt, registry, requestPool
      ensures Valid()
      ensures Abs() == AfterCompletion(old(Abs()), id, total, now, hook)
      ensures cycleDirty == (old(cycleDirty) || id in old(requestBindings))
      ensures consultations == old(consultations) + Events(old(Abs()), Complete(id, total, now, hook))
    {
      hide ProgramRegistry.Valid, RequestPool.Valid, Inv, Applied, Accounted, RunHook, StepsOk;
      if id !in requestBindings { return; }
      AccountedInv(Abs(), id, total, now);
      CompletionOfBound(Abs(), id, total, now, hook);
      hide AfterCompletion, Events;
      cycleDirty := true;
      var program := Account(id, total, now);
      Consult();
      Settle(program, now, hook);
    }

    /** A mark pauses the idle Program at once; otherwise the strategy may yield it. */
    method Settle(program: Program, now: Time, hook: seq<HookStep>)
      requires Valid() && StepsOk(hook)
      modifies `lastRequestFinishedAt, `freshnessAnchorAt, `consultations, `nextCheckAt, registry, requestPool
      ensures Valid()
      ensures Abs() == if program.marked && program.status == ACTING
                       then Applied(old(Abs()), Request(PAUSE, program.ref, "marked_pause_completion"), now)
                       else RunHook(old(Abs()), hook)
      ensures consultations == old(consultations) + SettleEvents(old(Abs()), program, hook)
    {
      hide ProgramRegistry.Valid, RequestPool.Valid, Inv, Applied, RunHook, Outcome, Accepts, Ledger;
      if program.marked && program.status == ACTING {
        OutcomeApplies(Abs(), Request(PAUSE, program.ref, "marked_pause_completion"));
        var _ := ApplyTransition(Request(PAUSE, program.ref, "marked_pause_completion"), now);
      } else {
        RunOneHook(hook);
      }
    }

    /** Unbinds a finished attempt and rewrites its Program's record. */
    method Account(id: RequestId, total: int, now: Time) returns (program: Program)
      requires Valid() && id in requestBindings
      modifies `requestBindings, `programRequests, `lastRequestFinishedAt, registry
      ensures Parts() && Abs() == Accounted(old(Abs()), id, total, now)
      ensures program.ref == old(requestBindings)[id].program
      ensures Live(registry.Abs(), program.ref) && RecordOf(registry.Abs(), program.ref) == program
    {
      hide ProgramRegistry.Valid, RequestPool.Valid, Inv, WellFormed, PoolInv, Inverse;
      BoundIsLive(id);
      var binding := PopBinding(id);
      var found := registry.Get(binding.value.program);
      program := Finished(found.value, total, StatusOf(programRequests, found.value.ref));
      lastRequestFinishedAt := lastRequestFinishedAt[program.ref := now];
      registry.Store(program);
    }

    /** A bound attempt's Program is live. */
    lemma BoundIsLive(id: RequestId)
      requires Valid() && id in requestBindings
      ensures Parts() && Inverse(requestBindings, programRequests)
      ensures var ref := requestBindings[id].program;
        Live(registry.Abs(), ref) && RecordOf(registry.Abs(), ref).state != TERMINATED
    {
      assert requestBindings[id].program in programRequests;
      assert WellFormed(registry.Abs());
    }

    /** Releases an idle acting Program on a terminal response. */
    method OnResponseCompletion(programId: ProgramId, terminal: bool, now: Time) returns (released: bool)
      requires Valid()
      modifies `lastRequestFinishedAt, `freshnessAnchorAt, `cycleDirty, `consultations, `nextCheckAt, registry,
               requestPool
      ensures Valid()
      ensures Abs() == AfterResponse(old(Abs()), programId, terminal, now)
      ensures cycleDirty == (old(cycleDirty) || released)
      ensures consultations == old(consultations) + if released then 1 else 0
      ensures released <==> Events(old(Abs()), Respond(programId, terminal, now)) == 1
    {
      ResponseReleases(Abs(), programId, terminal, now);
      hide *;
      hide ProgramRegistry.Valid, RequestPool.Valid, Abs, Valid;
      var q := Releasable(programId, terminal);
      if q.None? { return false; }
      OutcomeApplies(Abs(), q.value);
      var r := ApplyTransition(q.value, now);
      if r.applied { Dirty(); }
      released := r.applied;
    }

    method Dirty()
      modifies `cycleDirty
      ensures cycleDirty && Abs() == old(Abs()) && Valid() == old(Valid())
    {
      hide Inv, ProgramRegistry.Valid, RequestPool.Valid;
      cycleDirty := true;
    }

    /** The release a terminal response asks for, if its Program is idle and acting. */
    method Releasable(programId: ProgramId, terminal: bool) returns (q: Option<TransitionRequest>)
      requires Valid()
      ensures q == ReleaseRequested(Abs(), programId, terminal)
    {
      if !terminal || programId !in registry.programs { return None; }
      var program := registry.programs[programId];
      if program.ref in programRequests && programRequests[program.ref] != {} { return None; }
      if program.status != ACTING { return None; }
      q := Some(Request(RELEASE, program.ref, "api_terminal_response"));
    }

    /** Withdraws an attempt, and releases a Program that never got to run. */
    method CancelRequest(id: RequestId, now: Time) returns (entry: Option<Entry>)
      requires Valid()
      modifies `requestBindings, `programRequests, `lastRequestFinishedAt, `freshnessAnchorAt, `cycleDirty,
               `consultations, `nextCheckAt, registry, requestPool
      ensures Valid()
      ensures Abs() == AfterCancel(old(Abs()), id, now)
      ensures entry == if id in old(requestPool.entries).at then Some(old(requestPool.entries).at[id]) else None
      ensures cycleDirty == (old(cycleDirty) || entry.Some? || id in old(requestBindings))
      ensures consultations == old(consultations) + Events(old(Abs()), Cancel(id, now))
    {
      hide *;
      IsInvariant();
      AbsFields();
      CancelOf(Abs(), id, now);
      var bound := id in requestBindings;
      entry := DropRetained(id);
      if entry.Some? || bound { Dirty(); }
      if !bound { return; }
      WithdrawBound(id);
      var previous, program := Withdraw(id);
      if previous != program.status { Consult(); }
      ReleaseUnused(program, now);
    }

    lemma IsInvariant()
      requires Valid()
      ensures Parts() && Inv(Abs())
    {
    }

    lemma AbsFields()
      ensures Abs().reg == registry.Abs() && Abs().pool == requestPool.Abs() && Abs().bindings == requestBindings
      ensures Abs().requests == programRequests && Abs().anchors == freshnessAnchorAt
    {
    }

    /** Unbinding keeps the invariant once the attempt is out of the pool. */
    lemma WithdrawBound(id: RequestId)
      requires Valid() && id in requestBindings && id !in requestPool.entries.at
      ensures Inv(Withdrawn(Abs(), id))
    {
      WithdrawnInv(Abs(), id);
    }

    /** Releases a Program whose only request was cancelled before it ever ran. */
    method ReleaseUnused(program: Program, now: Time)
      requires Parts() && Inv(Abs())
      modifies `lastRequestFinishedAt, `freshnessAnchorAt, `consultations, `nextCheckAt, registry, requestPool
      ensures Valid()
      ensures var q := ReleaseAfterCancel(old(Abs()), program);
        && Abs() == (if q.Some? then Applied(old(Abs()), q.value, now) else old(Abs()))
        && consultations == old(consultations) + if q.Some? && Accepts(old(Abs()), q.value) then 1 else 0
    {
      hide ProgramRegistry.Valid, RequestPool.Valid, Inv, Applied, Accepts, Outcome, HasRequests;
      var q := ReleaseAfterCancel(Abs(), program);
      if q.Some? {
        OutcomeApplies(Abs(), q.value);
        var _ := ApplyTransition(q.value, now);
      }
    }

    /** Takes an attempt out of the pool, wherever it stood. */
    method DropRetained(id: RequestId) returns (entry: Option<Entry>)
      requires Valid()
      modifies requestPool
      ensures Valid() && id !in requestPool.entries.at
      ensures Abs() == old(Abs()).(pool := Dropped(old(requestPool.Abs()), {id}))
      ensures entry == if id in old(requestPool.entries).at then Some(old(requestPool.entries).at[id]) else None
    {
      DropInv(Abs(), {id});
      hide ProgramRegistry.Valid, RequestPool.Valid, Inv, Dropped;
      entry := requestPool.Cancel(id);
    }

    /** Unbinds a cancelled attempt and recomputes its Program's status. */
    method Withdraw(id: RequestId) returns (previous: ProgramStatus, program: Program)
      requires Valid() && id in requestBindings
      modifies `requestBindings, `programRequests, registry
      ensures Parts() && Abs() == Withdrawn(old(Abs()), id)
      ensures program.ref == old(requestBindings)[id].program
      ensures Live(old(Abs()).reg, program.ref) && previous == RecordOf(old(Abs()).reg, program.ref).status
      ensures Live(Abs().reg, program.ref) && RecordOf(Abs().reg, program.ref) == program
    {
      hide *;
      BoundIsLive(id);
      AbsFields();
      WithdrawnLive(Abs(), id);
      var binding := PopBinding(id);
      AbsFields();
      var ref := binding.value.program;
      previous, program := SetStatus(ref, StatusOf(programRequests, ref));
      AbsFields();
    }

    /** Rewrites the status of a live Program; returns the status before and the record after. */
    method SetStatus(ref: ProgramRef, status: ProgramStatus) returns (previous: ProgramStatus, program: Program)
      requires Parts() && Live(registry.Abs(), ref) && RecordOf(registry.Abs(), ref).state != TERMINATED
      modifies registry
      ensures Parts() && Abs() == old(Abs()).(reg := WithRecord(old(registry.Abs()), program))
      ensures previous == RecordOf(old(registry.Abs()), ref).status
      ensures program == RecordOf(old(registry.Abs()), ref).(status := status) && program.ref == ref
      ensures Live(registry.Abs(), ref) && RecordOf(registry.Abs(), ref) == program
    {
      hide ProgramRegistry.Valid, RequestPool.Valid;
      var found := registry.Get(ref);
      previous, program := found.value.status, found.value.(status := status);
      registry.Store(program);
    }

    /** Hands every decided attempt to the host, in decision order. */
    method ConsumeAdmittedRequests() returns (admitted: seq<(Entry, Target)>)
      requires Valid()
      modifies requestPool
      ensures Valid()
      ensures admitted == Transfers(old(requestPool.Abs()))
      ensures Abs() == AfterTransfer(old(Abs()))
    {
      DropInv(Abs(), requestPool.recentAdmit.at.Keys);
      admitted := requestPool.ConsumeAdmitted();
    }

    /** Accounts a reported cache hit to its attempt, and refreshes the Program's shared-prefix estimate when due. */
    method OnPrefixCacheObservation(id: RequestId, r: Report, freshness: Option<Time>, now: Time)
      requires Valid()
      modifies `requestBindings, registry
      ensures Valid()
      ensures Abs() == AfterObservation(old(Abs()), id, r, freshness, now)
    {
      hide *;
      IsInvariant();
      AbsFields();
      ObservationInv(Abs(), id, r, freshness, now);
      ObservationOf(Abs(), id, r, freshness, now);
      if id !in requestBindings { return; }
      var binding := requestBindings[id];
      var program := RecordFor(binding.program);
      var due := ObservationDue(freshnessAnchorAt, program, now);
      NoteHits(id, r);
      if binding.trackSegmentShare && due {
        AbsFields();
        RefreshSharedPrefix(program, binding, r, freshness);
      }
      IsValid();
    }

    lemma IsValid()
      requires Parts() && Inv(Abs())
      ensures Valid()
    {
    }

    /** The record of a live Program. */
    method RecordFor(ref: ProgramRef) returns (program: Program)
      requires Live(registry.Abs(), ref)
      ensures program == RecordOf(registry.Abs(), ref) && program.ref == ref
    {
      program := registry.Get(ref).value;
    }

    /** The hit accounting of one attempt; a shared hit is only ever stored together with its whole. */
    method NoteHits(id: RequestId, r: Report)
      requires Parts() && id in requestBindings
      modifies `requestBindings
      ensures Parts() && Abs() == NotedState(old(Abs()), id, r)
    {
      var binding := requestBindings[id];
      var hits := binding.hits;
      var cached := Min(binding.promptTokens, Max(0, r.cached));
      if r.shared.Some? {
        hits := hits.(cached := Some(cached), shared := Some(Min(cached, Max(0, r.shared.value))));
      }
      if r.local.Some? { hits := hits.(local := Some(Min(binding.promptTokens, Max(0, r.local.value)))); }
      if r.unreferenced.Some? {
        var localCached := if hits.local.Some? then hits.local.value else 0;
        hits := hits.(unreferenced := Some(Min(localCached, Max(0, r.unreferenced.value))));
      }
      requestBindings := requestBindings[id := binding.(hits := hits)];
    }

    method RefreshSharedPrefix(program: Program, binding: Binding, r: Report, freshness: Option<Time>)
      requires Parts() && Live(registry.Abs(), program.ref) && program == RecordOf(registry.Abs(), program.ref)
      requires program.state != TERMINATED
      modifies registry
      ensures Parts()
      ensures Abs() == old(Abs()).(
        reg := WithRecord(old(registry.Abs()), Observed(freshnessAnchorAt, program, binding, r, freshness)))
    {
      hide ProgramRegistry.Valid, RequestPool.Valid, WithRecord;
      var hit := Min(binding.promptTokens, Max(0, r.cached));
      var observed := if r.shared.Some? then Min(hit, Max(0, r.shared.value)) else hit;
      var until := if program.ref in freshnessAnchorAt && freshness.Some?
                   then Some(freshnessAnchorAt[program.ref] + Max(0, freshness.value)) else None;
      registry.Store(program.(tokens := program.tokens.(sharedPrefix := observed, freshUntil := until)));
    }

    /** The host's poll; time never runs before zero. */
    method NeedsScheduleCycle(now: Time) returns (r: Result<bool, string>)
      requires Valid()
      ensures r.Err? <==> now < 0
      ensures r.Ok? ==> r.value == NeedsCycle(now)
    {
      if now < 0 { return Err("schedule-cycle time must be finite and non-negative"); }
      if Due(nextCheckAt, now) { return Ok(true); }
      if nextPeriodicCheckAt > now { return Ok(false); }
      r := Ok(requestPool.entries.order != [] || cycleDirty || registry.programs != map[]);
    }

    /** One scheduling cycle, if it is needed: resume, repair, and the timed check when the strategy's deadline has
        passed, as renewed by the transitions of resume and repair. The snapshots handed to the later hooks are derived
        from the ledger alone. Afterwards no poll enters the strategy before its new deadline or the next period. */
    method ScheduleCycle(now: Time, resume: seq<HookStep>, repair: seq<HookStep>, check: seq<HookStep>)
      returns (ran: bool, repairView: Option<Snapshot>, checkView: Option<Snapshot>)
      requires Valid() && StepsOk(resume) && StepsOk(repair) && StepsOk(check) && now >= 0
      modifies `lastRequestFinishedAt, `freshnessAnchorAt, `cycleDirty, `nextPeriodicCheckAt, `consultations,
               `nextCheckAt, registry, requestPool
      ensures Valid() && ran == old(NeedsCycle(now))
      ensures !ran ==>
        && Abs() == old(Abs()) && cycleDirty == old(cycleDirty) && nextPeriodicCheckAt == old(nextPeriodicCheckAt)
        && consultations == old(consultations)
      ensures ran ==> !cycleDirty && nextPeriodicCheckAt == now + scheduleInterval
      ensures ran ==> forall t | t < now + scheduleInterval && !Due(nextCheckAt, t) :: !NeedsCycle(t)
      ensures ran ==>
        var due := Due(answers(old(consultations) + CheckEvents(old(Abs()), resume, repair)), now);
        && CycleViews(old(Abs()), Abs(), resume, repair, check, due, repairView, checkView)
        && consultations == old(consultations) + CycleEvents(old(Abs()), resume, repair, check, due) + 1
    {
      hide ProgramRegistry.Valid, RequestPool.Valid, Inv, RunHook, CycleViews, CheckEvents, CycleEvents;
      var needed := NeedsScheduleCycle(now);
      repairView, checkView := None, None;
      if !needed.value { return false, None, None; }
      repairView, checkView := RunCycle(now, resume, repair, check);
      cycleDirty, nextPeriodicCheckAt := false, now + scheduleInterval;
      Consult();
      ran := true;
    }

    /** The hooks of a cycle that is needed. */
    method RunCycle(now: Time, resume: seq<HookStep>, repair: seq<HookStep>, check: seq<HookStep>)
      returns (repairView: Option<Snapshot>, checkView: Option<Snapshot>)
      requires Valid() && StepsOk(resume) && StepsOk(repair) && StepsOk(check)
      modifies `lastRequestFinishedAt, `freshnessAnchorAt, `consultations, `nextCheckAt, registry, requestPool
      ensures Valid()
      ensures var due := Due(answers(old(consultations) + CheckEvents(old(Abs()), resume, repair)), now);
        && CycleViews(old(Abs()), Abs(), resume, repair, check, due, repairView, checkView)
        && consultations == old(consultations) + CycleEvents(old(Abs()), resume, repair, check, due)
    {
      hide ProgramRegistry.Valid, RequestPool.Valid, Inv, RunHook, Ledger, SnapshotOk, Rereads, WellFormed;
      var controller := new TransitionController(this);
      var snapshot := CurrentSnapshot();
      var afterResume := RunPhase(controller, snapshot, resume);
      var afterRepair := RunPhase(controller, afterResume, repair);
      repairView, checkView := Some(afterResume), None;
      if Due(nextCheckAt, now) {
        checkView := Some(afterRepair);
        RunStrategy(controller, check);
      }
    }

    method CurrentSnapshot() returns (view: Snapshot)
      requires Valid()
      ensures SnapshotOk(view) && Rereads(view, registry.Abs())
    {
      SnapshotOfFacts(registry.Abs());
      SnapshotRereads(registry.Abs());
      view := SnapshotOf(registry.Abs());
    }

    /** Runs one hook and derives the next hook's snapshot from the accepted ledger. */
    method RunPhase(controller: TransitionController, view: Snapshot, steps: seq<HookStep>) returns (next: Snapshot)
      requires Valid() && StepsOk(steps) && controller.scheduler == this && controller.appliedRequests == []
      requires SnapshotOk(view) && Rereads(view, registry.Abs())
      modifies `lastRequestFinishedAt, `freshnessAnchorAt, `consultations, `nextCheckAt, registry, requestPool,
               controller
      ensures Valid() && controller.appliedRequests == []
      ensures Abs() == RunHook(old(Abs()), steps)
      ensures consultations == old(consultations) + |Ledger(old(Abs()), steps)|
      ensures SnapshotOk(next) && Rereads(next, registry.Abs())
    {
      ghost var before := Abs();
      hide ProgramRegistry.Valid, RequestPool.Valid, ProgramRegistry.Abs, RequestPool.Abs, Inv, RunHook, SnapshotOk,
           Rereads, WellFormed, AdvanceSnapshot, Ledger, StepsOk;
      AdvanceEqualsRereadFrom(view, before, steps);
      RunStrategy(controller, steps);
      var ledger := controller.TakeAppliedRequests();
      assert ledger == Ledger(before, steps);
      var advanced := AdvancedSnapshot(view, ledger);
      next := advanced.value;
    }
  }

  class TransitionController {
    const scheduler: ProgramScheduler
    var appliedRequests: seq<TransitionRequest>

    constructor (scheduler: ProgramScheduler)
      ensures this.scheduler == scheduler && appliedRequests == []
    {
      this.scheduler := scheduler;
      appliedRequests := [];
    }

    /** Applies one request; the error for a result that names another transition cannot occur. */
    method Apply(q: TransitionRequest, now: Time) returns (r: TransitionResult)
      requires scheduler.Valid() && RequestOk(q)
      modifies this, scheduler`lastRequestFinishedAt, scheduler`freshnessAnchorAt, scheduler`consultations,
               scheduler`nextCheckAt, scheduler.registry, scheduler.requestPool
      ensures scheduler.Valid()
      ensures scheduler.Abs() == Applied(old(scheduler.Abs()), q, now)
      ensures r == Outcome(old(scheduler.Abs()), q) && ResultOk(r)
      ensures appliedRequests == old(appliedRequests) + (if Accepts(old(scheduler.Abs()), q) then [q] else [])
      ensures scheduler.consultations ==
        old(scheduler.consultations) + if Accepts(old(scheduler.Abs()), q) then 1 else 0
    {
      hide *;
      ResultMatches(scheduler.Abs(), q);
      r := scheduler.ApplyTransition(q, now);
      assert r.kind == q.kind && r.program == q.program;
      if r.applied {
        appliedRequests := appliedRequests + [q];
      }
    }

    method TakeAppliedRequests() returns (requests: seq<TransitionRequest>)
      modifies this
      ensures requests == old(appliedRequests) && appliedRequests == []
    {
      requests := appliedRequests;
      appliedRequests := [];
    }
  }
}
