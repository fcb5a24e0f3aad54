/** When a Program marked for pause is still reasoning, and which single operation ends that. */
module MarkedPrograms {
  import opened Wrappers
  import opened Domain
  import opened RegistrySpec
  import opened RequestPoolSpec
  import opened Transitions
  import opened SchedulerSpec
  import opened SchedulerOps

  /** Every marked Program is reasoning. */
  ghost predicate MarkedReasons(reg: Registry) {
    forall id | id in reg.programs && reg.programs[id].marked :: reg.programs[id].status == REASONING
  }

  /** The operation cancels the only bound request of a marked Program. */
  ghost predicate CancelsMarked(s: Sched, op: Op) {
    && op.Cancel? && op.id in s.bindings
    && var ref := s.bindings[op.id].program;
       Live(s.reg, ref) && Record(s, ref).marked && ref in s.requests && s.requests[ref] == {op.id}
  }

  /** Cancelling the last bound request of a marked Program leaves it marked although it is no longer reasoning; while
      other requests stay bound it keeps reasoning. A mark therefore implies only that the Program is active. */
  lemma CancelKeepsMark(s: Sched, id: RequestId, now: Time)
    requires Inv(s) && id in s.bindings && Live(s.reg, s.bindings[id].program)
      && Record(s, s.bindings[id].program).marked
    ensures var ref, t := s.bindings[id].program, AfterCancel(s, id, now);
      && Live(t.reg, ref) && Record(t, ref).marked && Record(t, ref).state == ACTIVE
      && (Record(t, ref).status == ACTING <==> s.requests[ref] == {id})
  {
    var ref := s.bindings[id].program;
    BoundTo(s, id);
    RecordFacts(s, ref);
    assert Record(s, ref).state == ACTIVE;
    hide *;
    ActiveCancel(s, id, now);
    LastRequest(s, id);
  }

  /** Cancelling a request of an active Program only withdraws it. */
  lemma ActiveCancel(s: Sched, id: RequestId, now: Time)
    requires id in s.bindings && Live(s.reg, s.bindings[id].program)
    requires RecordOf(s.reg, s.bindings[id].program).state == ACTIVE
    ensures var ref, t := s.bindings[id].program, AfterCancel(s, id, now);
      Live(t.reg, ref) && RecordOf(t.reg, ref)
        == RecordOf(s.reg, ref).(status := StatusOf(Unbound(s, id).requests, ref))
  {
    hide Applied, HasRequests, StatusOf;
  }

  lemma LastRequest(s: Sched, id: RequestId)
    requires id in s.bindings && s.bindings[id].program in s.requests && id in s.requests[s.bindings[id].program]
    ensures var ref := s.bindings[id].program;
      StatusOf(Unbound(s, id).requests, ref) == ACTING <==> s.requests[ref] == {id}
  {
    var ref := s.bindings[id].program;
    var rest := Busy(s.requests, ref) - {id};
    assert s.requests[ref] == rest + {id};
  }

  lemma StoredMarked(reg: Registry, p: Program)
    requires Live(reg, p.ref)
    requires forall id | id in reg.programs && id != p.ref.programId && reg.programs[id].marked ::
      reg.programs[id].status == REASONING
    ensures MarkedReasons(WithRecord(reg, p)) <==> (p.marked ==> p.status == REASONING)
  {
    assert WithRecord(reg, p).programs[p.ref.programId] == p;
  }

  lemma ReleasedMarked(reg: Registry, ref: ProgramRef)
    requires MarkedReasons(reg)
    ensures MarkedReasons(Released(reg, ref))
  {
  }

  /** No transition marks a Program that is not reasoning, and none changes a status. */
  lemma AppliedMarked(s: Sched, q: TransitionRequest, now: Time)
    requires MarkedReasons(s.reg)
    ensures MarkedReasons(Applied(s, q, now).reg)
  {
    RejectedKeeps(s, q, now);
    if Accepts(s, q) {
      AppliedReg(s, q, now);
      var p := Record(s, q.program);
      assert p.marked ==> p.status == REASONING;
      hide Applied, MarkedReasons, WithRecord, Released;
      OthersMarked(s.reg, p.ref.programId);
      StoredMarked(s.reg, Changed(p, q, Anchor(s, q.program), now));
      ReleasedMarked(s.reg, q.program);
    }
  }

  lemma OthersMarked(reg: Registry, except: ProgramId)
    requires MarkedReasons(reg)
    ensures forall id | id in reg.programs && id != except && reg.programs[id].marked ::
      reg.programs[id].status == REASONING
  {
  }

  lemma {:induction false} HookMarked(s: Sched, steps: seq<HookStep>)
    requires MarkedReasons(s.reg)
    ensures MarkedReasons(RunHook(s, steps).reg)
  {
    if steps != [] {
      var init, last := steps[..|steps| - 1], steps[|steps| - 1];
      HookMarked(s, init);
      HookSnoc(s, steps);
      AppliedMarked(RunHook(s, init), last.request, last.now);
    }
  }

  /** An arriving request sets its Program reasoning. */
  lemma BoundMarked(s: Sched, id: RequestId, m: AgentIdentity, prompt: int, now: Time)
    requires WellFormed(s.reg) && MarkedReasons(s.reg)
    ensures MarkedReasons(Bound(s, id, m, prompt, now).reg)
  {
    MaterializedLive(s.reg, m, prompt);
    var p := Arrived(s.reg, m, prompt);
    var next := WithRecord(Materialized(s.reg, m, PAUSED), p);
    assert p.status == REASONING;
    hide WellFormed, Materialized, WithRecord, Arrived, Live;
    forall other | other in next.programs && next.programs[other].marked
      ensures next.programs[other].status == REASONING {
      assert other == m.programId || next.programs[other] == s.reg.programs[other];
    }
  }

  /** A completion that ends a marked Program's reasoning consumes the mark by pausing it. */
  lemma CompletionMarked(s: Sched, id: RequestId, total: int, now: Time, hook: seq<HookStep>)
    requires Inv(s) && MarkedReasons(s.reg) && id !in s.pool.entries.at
    ensures MarkedReasons(AfterCompletion(s, id, total, now, hook).reg)
  {
    if id in s.bindings {
      AccountedInv(s, id, total, now);
      var ref := s.bindings[id].program;
      var t := Accounted(s, id, total, now);
      var u := Unbound(s, id);
      assert Live(s.reg, ref) by { assert ref in s.requests; }
      var p := Finished(Record(s, ref), total, StatusOf(u.requests, ref));
      assert t.reg == WithRecord(s.reg, p) && Record(t, ref) == p;
      RecordFacts(t, ref);
      hide Inv, WithRecord, Accounted, StatusOf, Unbound;
      OthersMarked(s.reg, ref.programId);
      StoredMarked(s.reg, p);
      if p.marked && p.status == ACTING {
        PauseMarked(s, t, p, ref, now);
      } else {
        hide RunHook;
        HookMarked(t, hook);
      }
    }
  }

  lemma PauseMarked(s: Sched, t: Sched, p: Program, ref: ProgramRef, now: Time)
    requires Live(s.reg, ref) && p.ref == ref && t.reg == WithRecord(s.reg, p) && MarkedReasons(s.reg)
    requires p.marked && p.status == ACTING && p.state == ACTIVE
    ensures MarkedReasons(Applied(t, Request(PAUSE, ref, "marked_pause_completion"), now).reg)
  {
    var q := Request(PAUSE, ref, "marked_pause_completion");
    assert Live(t.reg, ref) && Record(t, ref) == p && Accepts(t, q);
    AppliedReg(t, q, now);
    hide Applied, MarkedReasons;
    OthersMarked(s.reg, ref.programId);
    var next := Changed(p, q, Anchor(t, ref), now);
    assert WithRecord(t.reg, next) == WithRecord(s.reg, next);
    StoredMarked(s.reg, next);
  }

  /** Cancelling one of several requests, or a request of an unmarked Program, leaves every marked Program reasoning. */
  lemma CancelMarked(s: Sched, id: RequestId, now: Time)
    requires Inv(s) && MarkedReasons(s.reg) && !CancelsMarked(s, Cancel(id, now))
    ensures MarkedReasons(AfterCancel(s, id, now).reg)
  {
    if id in s.bindings {
      WithdrawnMarked(s, id, now);
      var t := s.(pool := Dropped(s.pool, {id}));
      hide Inv, MarkedReasons, Withdrawn, Applied, HasRequests, Live, CancelsMarked;
      AppliedMarked(Withdrawn(t, id), Request(RELEASE, s.bindings[id].program, "cancelled_before_admission"), now);
    }
  }

  lemma WithdrawnMarked(s: Sched, id: RequestId, now: Time)
    requires Inv(s) && id in s.bindings && MarkedReasons(s.reg) && !CancelsMarked(s, Cancel(id, now))
    ensures MarkedReasons(Withdrawn(s.(pool := Dropped(s.pool, {id})), id).reg)
  {
    var t := s.(pool := Dropped(s.pool, {id}));
    var ref := s.bindings[id].program;
    BoundTo(s, id);
    var rest := Busy(s.requests, ref) - {id};
    assert s.requests[ref] == rest + {id};
    var p := Record(s, ref).(status := StatusOf(Unbound(t, id).requests, ref));
    assert Withdrawn(t, id).reg == WithRecord(s.reg, p);
    assert p.marked ==> p.status == REASONING;
    hide WithRecord, StatusOf, Withdrawn, MarkedReasons, Inv;
    OthersMarked(s.reg, ref.programId);
    StoredMarked(s.reg, p);
  }

  lemma BoundTo(s: Sched, id: RequestId)
    requires Inv(s) && id in s.bindings
    ensures var ref := s.bindings[id].program; ref in s.requests && Live(s.reg, ref) && id in s.requests[ref]
  {
  }

  lemma ObservedMarked(s: Sched, id: RequestId, report: Report, freshness: Option<Time>, now: Time)
    requires MarkedReasons(s.reg)
    ensures MarkedReasons(AfterObservation(s, id, report, freshness, now).reg)
  {
  }

  /** Among all operations exactly one kind ends the property: the cancellation of a marked Program's only request. */
  lemma StepMarked(s: Sched, op: Op)
    requires Inv(s) && Allowed(s, op) && MarkedReasons(s.reg)
    ensures MarkedReasons(SchedulerOps.Step(s, op).reg) <==> !CancelsMarked(s, op)
  {
    hide Inv, MarkedReasons, AfterArrival, RunHook, AfterTransfer, AfterCompletion, AfterResponse, AfterCancel,
         AfterObservation, CancelsMarked, StepsOk;
    OnlyCancels(s, op);
    match op {
      case Arrive(id, m, prompt, now, hook, admitted) => ArrivalMarked(s, id, m, prompt, now, hook, admitted);
      case Cycle(hook) => HookMarked(s, hook);
      case Transfer => TransferMarked(s);
      case Complete(id, total, now, hook) => CompletionMarked(s, id, total, now, hook);
      case Respond(id, terminal, now) => ResponseMarked(s, id, terminal, now);
      case Cancel(id, now) =>
        if CancelsMarked(s, op) { CancelEnds(s, id, now); } else { CancelMarked(s, id, now); }
      case Observe(id, report, freshness, now) => ObservedMarked(s, id, report, freshness, now);
    }
  }

  lemma OnlyCancels(s: Sched, op: Op)
    ensures CancelsMarked(s, op) ==> op.Cancel?
  {
  }

  lemma TransferMarked(s: Sched)
    ensures AfterTransfer(s).reg == s.reg
  {
  }

  lemma ArrivalMarked(s: Sched, id: RequestId, m: AgentIdentity, prompt: int, now: Time, hook: seq<HookStep>,
                      admitted: bool)
    requires Inv(s) && MarkedReasons(s.reg)
    ensures MarkedReasons(AfterArrival(s, id, m, prompt, now, hook, admitted).reg)
  {
    InvParts(s);
    hide Inv, MarkedReasons, Bound, RunHook, Refused, WellFormed;
    BoundMarked(s, id, m, prompt, now);
    HookMarked(Bound(s, id, m, prompt, now), hook);
  }

  lemma ResponseMarked(s: Sched, id: ProgramId, terminal: bool, now: Time)
    requires MarkedReasons(s.reg)
    ensures MarkedReasons(AfterResponse(s, id, terminal, now).reg)
  {
    hide MarkedReasons, Applied, HasRequests;
    if id in s.reg.programs {
      AppliedMarked(s, Request(RELEASE, s.reg.programs[id].ref, "api_terminal_response"), now);
    }
  }

  /** The cancelled Program is left marked and acting. */
  lemma CancelEnds(s: Sched, id: RequestId, now: Time)
    requires Inv(s) && CancelsMarked(s, Cancel(id, now))
    ensures !MarkedReasons(AfterCancel(s, id, now).reg)
  {
    CancelKeepsMark(s, id, now);
    var ref := s.bindings[id].program;
    hide Inv, AfterCancel;
    assert AfterCancel(s, id, now).reg.programs[ref.programId].marked;
  }

  /** No marked Program's only request is ever cancelled. */
  ghost predicate SparesMarked(target: Target, ops: seq<Op>) {
    forall n | 0 <= n < |ops| :: !CancelsMarked(SchedulerOps.Run(target, ops[..n]).0, ops[n])
  }

  /** Over every run without such a cancellation, every marked Program is reasoning. */
  lemma {:induction false} RunMarked(target: Target, ops: seq<Op>)
    requires AllowedRun(target, ops) && SparesMarked(target, ops)
    ensures MarkedReasons(SchedulerOps.Run(target, ops).0.reg)
  {
    if ops != [] {
      var init, op := ops[..|ops| - 1], ops[|ops| - 1];
      RunSnoc(target, ops);
      hide Inv, SchedulerOps.Step, SchedulerOps.Run, MarkedReasons, CancelsMarked, Allowed, AllowedRun;
      assert forall n | 0 <= n < |init| :: init[n] == ops[n] && init[..n] == ops[..n];
      RunMarked(target, init);
      RunSafety(target, init);
      StepMarked(SchedulerOps.Run(target, init).0, op);
    }
  }
}
