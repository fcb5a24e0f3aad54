/** Shortest runs in which a marked Program acts, and in which a waiting attempt is left with an active Program. */
module SchedulerExamples {
  import opened Wrappers
  import opened OrderedDict
  import opened Domain
  import opened RegistrySpec
  import opened RequestPoolSpec
  import opened Transitions
  import opened SchedulerSpec
  import opened SchedulerOps
  import opened MarkedPrograms

  const PROGRAM: ProgramRef := ProgramRef(7, 0)
  const IDENTITY: AgentIdentity := Identity(7, None, None, false, true)
  const ADMIT_IT := HookStep(TransitionRequest(ADMIT, PROGRAM, "fits", Some(3)), 0)
  const MARK_IT := HookStep(TransitionRequest(MARK_FOR_PAUSE, PROGRAM, "pressure", None), 0)

  /** The Program of the examples in one of its states. */
  function Example(state: ProgramState, status: ProgramStatus, marked: bool): Program {
    var backend := if state == ACTIVE then Some(3) else None;
    Program(PROGRAM, state, status, Tokens(0, 0, None), backend, None, None, false, true, 0, marked)
  }

  function OneProgram(p: Program): Registry {
    Registry(map[7 := p], map[7 := 0])
  }

  /** A first request of a new Program arrives; the hook runs before the answer. */
  lemma FirstArrival(target: Target)
    ensures !Refused(Initial(target), 1, IDENTITY)
    ensures var t := Bound(Initial(target), 1, IDENTITY, 0, 0);
      && t.reg == OneProgram(Example(PAUSED, REASONING, false))
      && t.bindings == map[1 := Binding(PROGRAM, 0, true, NO_HITS)] && t.requests == map[PROGRAM := {1}]
      && t.pool.entries == Dict([1], map[1 := Waiting(1, PROGRAM, 0)]) && t.pool.recent == Dict([], map[])
      && t.target == target
  {
    var reg := Initial(target).reg;
    assert Materialized(reg, IDENTITY, PAUSED) == OneProgram(Example(PAUSED, REASONING, false));
    assert Arrived(reg, IDENTITY, 0) == Example(PAUSED, REASONING, false);
    assert Busy(map[], PROGRAM) + {1} == {1};
  }

  /** Admission makes the Program active and admits the attempt. */
  lemma FirstAdmission(target: Target)
    ensures var t := RunHook(Bound(Initial(target), 1, IDENTITY, 0, 0), [ADMIT_IT]);
      && t.reg == OneProgram(Example(ACTIVE, REASONING, false))
      && t.bindings == map[1 := Binding(PROGRAM, 0, true, NO_HITS)] && t.requests == map[PROGRAM := {1}]
      && t.pool.entries.at.Keys == {1} && t.pool.entries.at[1].status == ADMITTED && t.target == target
  {
    FirstArrival(target);
    var s := Bound(Initial(target), 1, IDENTITY, 0, 0);
    hide Bound, AdmitAll;
    HookSnoc(s, [ADMIT_IT]);
    assert [ADMIT_IT][..0] == [];
    var t := Applied(s, ADMIT_IT.request, 0);
    assert Record(s, PROGRAM) == Example(PAUSED, REASONING, false) && Accepts(s, ADMIT_IT.request);
    assert t.reg == WithRecord(s.reg, Example(ACTIVE, REASONING, false))
      == OneProgram(Example(ACTIVE, REASONING, false));
    AppliedPool(s, ADMIT_IT.request, 0);
    hide Applied, Accepts, RunHook, WithRecord, OneProgram, Example;
    PoolOfOne(s.pool);
    AdmitAllEffect(s.pool, [1], PROGRAM, target);
  }

  lemma PoolOfOne(p: Pool)
    requires p.entries == Dict([1], map[1 := Waiting(1, PROGRAM, 0)]) && p.recent == Dict([], map[])
    ensures PoolInv(p)
  {
  }

  /** The hook's second transition marks the Program while its request is bound. */
  lemma MarkedArrival(target: Target)
    ensures var t := RunHook(Bound(Initial(target), 1, IDENTITY, 0, 0), [ADMIT_IT, MARK_IT]);
      && t.reg == OneProgram(Example(ACTIVE, REASONING, true))
      && t.bindings == map[1 := Binding(PROGRAM, 0, true, NO_HITS)] && t.requests == map[PROGRAM := {1}]
  {
    var hook := [ADMIT_IT, MARK_IT];
    FirstAdmission(target);
    var b := Bound(Initial(target), 1, IDENTITY, 0, 0);
    var a := RunHook(b, [ADMIT_IT]);
    hide Bound, RunHook;
    HookSnoc(b, hook);
    assert hook[..1] == [ADMIT_IT];
    assert Record(a, PROGRAM) == Example(ACTIVE, REASONING, false) && Accepts(a, MARK_IT.request);
    assert WithRecord(a.reg, Example(ACTIVE, REASONING, true)) == OneProgram(Example(ACTIVE, REASONING, true));
  }

  /** A run from the empty scheduler that ends with a marked Program acting. */
  lemma MarkedProgramActs(target: Target)
    ensures var ops := [Arrive(1, IDENTITY, 0, 0, [ADMIT_IT, MARK_IT], true), Cancel(1, 1)];
      && AllowedRun(target, ops)
      && Live(SchedulerOps.Run(target, ops).0.reg, PROGRAM)
      && Record(SchedulerOps.Run(target, ops).0, PROGRAM).marked
      && Record(SchedulerOps.Run(target, ops).0, PROGRAM).status == ACTING
  {
    var hook := [ADMIT_IT, MARK_IT];
    var ops := [Arrive(1, IDENTITY, 0, 0, hook, true), Cancel(1, 1)];
    var s := SchedulerOps.Step(Initial(target), ops[0]);
    MarkedStep(target);
    hide Initial, SchedulerOps.Step, Allowed;
    TwoSteps(target, ops);
    AllowedPrefix(target, ops, 1);
    hide SchedulerOps.Run, AllowedRun;
    FirstRunInv(target, ops[..1]);
    MarkedThenCancelled(s);
  }

  /** The first request arrives, is admitted and its Program marked, and the request handed over. */
  lemma MarkedStep(target: Target)
    ensures var op := Arrive(1, IDENTITY, 0, 0, [ADMIT_IT, MARK_IT], true);
      var s := SchedulerOps.Step(Initial(target), op);
      && Allowed(Initial(target), op) && Allowed(s, Cancel(1, 1))
      && s.reg == OneProgram(Example(ACTIVE, REASONING, true))
      && s.bindings == map[1 := Binding(PROGRAM, 0, true, NO_HITS)] && s.requests == map[PROGRAM := {1}]
  {
    var hook := [ADMIT_IT, MARK_IT];
    assert StepsOk(hook);
    FirstArrival(target);
    MarkedArrival(target);
    hide Bound, RunHook, Initial;
  }

  lemma MarkedThenCancelled(s: Sched)
    requires Inv(s) && s.reg == OneProgram(Example(ACTIVE, REASONING, true))
    requires s.bindings == map[1 := Binding(PROGRAM, 0, true, NO_HITS)] && s.requests == map[PROGRAM := {1}]
    ensures var t := SchedulerOps.Step(s, Cancel(1, 1));
      Live(t.reg, PROGRAM) && Record(t, PROGRAM).marked && Record(t, PROGRAM).status == ACTING
  {
    CancelStep(s, 1, 1);
    hide Inv, SchedulerOps.Step;
    assert Live(s.reg, PROGRAM) && Record(s, PROGRAM).marked;
    assert s.bindings[1].program == PROGRAM && s.requests[PROGRAM] == {1};
    hide *;
    CancelKeepsMark(s, 1, 1);
  }

  lemma CancelStep(s: Sched, id: RequestId, now: Time)
    ensures SchedulerOps.Step(s, Cancel(id, now)) == AfterCancel(s, id, now)
  {
    hide AfterCancel;
  }

  lemma AllowedPrefix(target: Target, ops: seq<Op>, n: nat)
    requires AllowedRun(target, ops) && n <= |ops|
    ensures AllowedRun(target, ops[..n])
  {
    forall m | 0 <= m < n ensures Allowed(SchedulerOps.Run(target, ops[..n][..m]).0, ops[..n][m]) {
      assert ops[..n][..m] == ops[..m];
    }
  }

  /** Unfolds a run of two operations. */
  lemma TwoSteps(target: Target, ops: seq<Op>)
    requires |ops| == 2
    ensures var s := SchedulerOps.Step(Initial(target), ops[0]);
      && SchedulerOps.Run(target, ops[..0]).0 == Initial(target)
      && SchedulerOps.Run(target, ops[..1]).0 == s
      && SchedulerOps.Run(target, ops).0 == SchedulerOps.Step(s, ops[1])
      && (AllowedRun(target, ops) <==> Allowed(Initial(target), ops[0]) && Allowed(s, ops[1]))
  {
    hide SchedulerOps.Step, Initial;
    assert ops[..1][..0] == ops[..0] == [];
  }

  lemma FirstRunInv(target: Target, ops: seq<Op>)
    requires AllowedRun(target, ops)
    ensures Inv(SchedulerOps.Run(target, ops).0)
  {
    RunSafety(target, ops);
  }

  /** A run whose second request arrives at an active Program, is queued, and is left waiting there. */
  lemma QueuedAtActive(target: Target)
    ensures var ops := [Arrive(1, IDENTITY, 0, 0, [ADMIT_IT], true), Arrive(2, IDENTITY, 0, 1, [], false)];
      var s := SchedulerOps.Run(target, ops).0;
      && AllowedRun(target, ops)
      && IsWaiting(s.pool, 2) && s.pool.entries.at[2].program == PROGRAM
      && Live(s.reg, PROGRAM) && Record(s, PROGRAM).state == ACTIVE
      && !WaitingPaused(s.reg, s.pool, {})
  {
    var ops := [Arrive(1, IDENTITY, 0, 0, [ADMIT_IT], true), Arrive(2, IDENTITY, 0, 1, [], false)];
    var s := SchedulerOps.Step(Initial(target), ops[0]);
    FirstArrival(target);
    FirstAdmission(target);
    assert s == Granted(RunHook(Bound(Initial(target), 1, IDENTITY, 0, 0), [ADMIT_IT]), 1);
    assert Allowed(Initial(target), ops[0]) && Allowed(s, ops[1]);
    hide Bound, RunHook, Initial, AfterArrival;
    assert s.reg == OneProgram(Example(ACTIVE, REASONING, false)) && 2 !in s.bindings;
    TwoSteps(target, ops);
    AllowedPrefix(target, ops, 1);
    hide SchedulerOps.Run, AllowedRun, Granted;
    FirstRunInv(target, ops[..1]);
    SecondArrival(s);
  }

  /** A second request at the active Program that the strategy queues. */
  lemma SecondArrival(s: Sched)
    requires Inv(s) && s.reg == OneProgram(Example(ACTIVE, REASONING, false)) && 2 !in s.bindings
    ensures var t := SchedulerOps.Step(s, Arrive(2, IDENTITY, 0, 1, [], false));
      && IsWaiting(t.pool, 2) && t.pool.entries.at[2].program == PROGRAM
      && Live(t.reg, PROGRAM) && Record(t, PROGRAM).state == ACTIVE
      && !WaitingPaused(t.reg, t.pool, {})
  {
    var p := Example(ACTIVE, REASONING, false);
    assert !Refused(s, 2, IDENTITY) && Arrived(s.reg, IDENTITY, 0) == p && p.ref == PROGRAM;
    var t := Bound(s, 2, IDENTITY, 0, 1);
    assert SchedulerOps.Step(s, Arrive(2, IDENTITY, 0, 1, [], false)) == t by { hide Bound; }
    hide *;
    BoundFacts(s, 2, IDENTITY, 0, 1);
    Stranded(t, Waiting(2, PROGRAM, 1), p);
  }

  /** An attempt that waits for an active Program. */
  lemma Stranded(t: Sched, e: Entry, p: Program)
    requires e.id in t.pool.entries.at && t.pool.entries.at[e.id] == e && e == Waiting(2, PROGRAM, 1)
    requires Live(t.reg, PROGRAM) && RecordOf(t.reg, PROGRAM) == p && p == Example(ACTIVE, REASONING, false)
    ensures IsWaiting(t.pool, 2) && t.pool.entries.at[2].program == PROGRAM
    ensures Record(t, PROGRAM).state == ACTIVE && !WaitingPaused(t.reg, t.pool, {})
  {
    assert IsWaiting(t.pool, 2) && !PausedRef(t.reg, PROGRAM);
  }
}
