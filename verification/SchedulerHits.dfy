/** What the cache-hit accounting of an attempt keeps, over reports and over whole runs. */
module PrefixHits {
  import opened Wrappers
  import opened Domain
  import opened RequestPoolSpec
  import opened RegistrySpec
  import opened Transitions
  import opened SchedulerSpec
  import opened SchedulerOps

  /** The counts lie within the prompt, and a shared hit comes with the whole hit it is part of. */
  ghost predicate HitsOk(h: Hits, prompt: nat) {
    && (h.cached.Some? <==> h.shared.Some?)
    && (h.cached.Some? ==> 0 <= h.shared.value <= h.cached.value <= prompt)
    && (h.local.Some? ==> 0 <= h.local.value <= prompt)
    && (h.unreferenced.Some? ==> 0 <= h.unreferenced.value <= prompt)
  }

  lemma NotedOk(h: Hits, prompt: nat, r: Report)
    requires HitsOk(h, prompt)
    ensures HitsOk(Noted(h, prompt, r), prompt)
  {
  }

  /** The unreferenced part does not exceed the local hit it is part of. */
  predicate PartOfLocal(h: Hits) {
    h.unreferenced.Some? ==> h.unreferenced.value <= if h.local.Some? then h.local.value else 0
  }

  /** A report that lowers the local hit below the stored part and says nothing about the part. */
  predicate Undercuts(h: Hits, prompt: nat, r: Report) {
    && r.local.Some? && r.unreferenced.None? && h.unreferenced.Some?
    && Clamped(r.local.value, prompt) < h.unreferenced.value
  }

  /** Exactly such a report ends the property. */
  lemma PartOfLocalIff(h: Hits, prompt: nat, r: Report)
    requires HitsOk(h, prompt) && PartOfLocal(h)
    ensures PartOfLocal(Noted(h, prompt, r)) <==> !Undercuts(h, prompt, r)
  {
  }

  /** All reports about one attempt, in order. */
  function NotedAll(prompt: nat, reports: seq<Report>): Hits {
    if reports == [] then NO_HITS
    else Noted(NotedAll(prompt, reports[..|reports| - 1]), prompt, reports[|reports| - 1])
  }

  /** Such a report: the local hit shrinks from ten to five tokens while eight stay accounted as unreferenced. */
  lemma PartOutlivesLocal()
    ensures var first, second := Report(10, None, Some(10), Some(8)), Report(5, None, Some(5), None);
      PartOfLocal(NotedAll(10, [first])) && !PartOfLocal(NotedAll(10, [first, second]))
  {
    var first, second := Report(10, None, Some(10), Some(8)), Report(5, None, Some(5), None);
    assert [first][..0] == [] && [first, second][..1] == [first];
    assert NotedAll(10, [first]) == Hits(None, None, Some(10), Some(8));
  }

  ghost predicate LastPaired(reports: seq<Report>, i: nat) {
    i < |reports| && reports[i].shared.Some? && forall j | i < j < |reports| :: reports[j].shared.None?
  }

  /** The pair of whole and shared hit is never mixed from two reports: it is the last report that gave both. */
  lemma {:induction false} PairIsOneReport(prompt: nat, reports: seq<Report>)
    ensures NotedAll(prompt, reports).cached.Some? <==> exists i: nat :: LastPaired(reports, i)
    ensures forall i: nat | LastPaired(reports, i) ::
      var h, r := NotedAll(prompt, reports), reports[i];
      h.cached == Some(Clamped(r.cached, prompt))
        && h.shared == Some(Clamped(r.shared.value, Clamped(r.cached, prompt)))
  {
    if reports != [] {
      var init, last := reports[..|reports| - 1], |reports| - 1;
      PairIsOneReport(prompt, init);
      if reports[last].shared.Some? {
        assert LastPaired(reports, last);
      } else {
        forall i: nat ensures LastPaired(reports, i) <==> LastPaired(init, i) {
          assert i < last ==> init[i] == reports[i];
        }
        if NotedAll(prompt, init).cached.Some? {
          var i: nat :| LastPaired(init, i);
          assert LastPaired(reports, i);
        }
      }
    }
  }

  // ---- over runs

  ghost predicate AllHitsOk(s: Sched) {
    forall id | id in s.bindings :: HitsOk(s.bindings[id].hits, s.bindings[id].promptTokens)
  }

  /** An operation either drops a binding, keeps it, makes a fresh one, or notes a report in it. */
  ghost predicate BindingsFollow(s: Sched, t: Sched, op: Op) {
    forall id | id in t.bindings ::
      || (id in s.bindings && t.bindings[id] == s.bindings[id])
      || (op.Arrive? && op.id == id && id !in s.bindings && t.bindings[id].hits == NO_HITS)
      || (op.Observe? && op.id == id && id in s.bindings && t.bindings[id] == NotedState(s, id, op.report).bindings[id])
  }

  lemma StepBindings(s: Sched, op: Op)
    requires Inv(s) && Allowed(s, op)
    ensures BindingsFollow(s, SchedulerOps.Step(s, op), op)
  {
    hide Inv, AfterArrival, RunHook, AfterCompletion, AfterResponse, AfterCancel, StepsOk, Live, WithRecord, Noted,
         Observed, ObservationDue;
    match op {
      case Arrive(id, m, prompt, now, hook, admitted) => ArrivalBindings(s, id, m, prompt, now, hook, admitted);
      case Cycle(hook) => HookKeepsAttempts(s, hook);
      case Transfer =>
      case Complete(id, total, now, hook) => CompletionBindings(s, id, total, now, hook);
      case Respond(id, terminal, now) => ResponseBindings(s, id, terminal, now);
      case Cancel(id, now) => CancelBindings(s, id, now);
      case Observe(id, report, freshness, now) =>
    }
  }

  lemma ArrivalBindings(s: Sched, id: RequestId, m: AgentIdentity, prompt: int, now: Time, hook: seq<HookStep>,
                        admitted: bool)
    requires Inv(s) && StepsOk(hook)
    ensures var t := AfterArrival(s, id, m, prompt, now, hook, admitted);
      && (id in s.bindings ==> t == s)
      && (forall other | other in t.bindings && other != id ::
          other in s.bindings && t.bindings[other] == s.bindings[other])
      && (id in t.bindings && id !in s.bindings ==> t.bindings[id].hits == NO_HITS)
  {
    if !Refused(s, id, m) {
      hide Inv, Bound, RunHook, StepsOk;
      BoundInv(s, id, m, prompt, now);
      BoundBindings(s, id, m, prompt, now);
      HookKeepsAttempts(Bound(s, id, m, prompt, now), hook);
    }
  }

  lemma BoundBindings(s: Sched, id: RequestId, m: AgentIdentity, prompt: int, now: Time)
    ensures var bindings := Bound(s, id, m, prompt, now).bindings;
      id in bindings && bindings == s.bindings[id := bindings[id]] && bindings[id].hits == NO_HITS
  {
    hide Arrived, Materialized, WithRecord, Added;
  }

  lemma CompletionBindings(s: Sched, id: RequestId, total: int, now: Time, hook: seq<HookStep>)
    requires Inv(s) && StepsOk(hook) && id !in s.pool.entries.at
    ensures AfterCompletion(s, id, total, now, hook).bindings == s.bindings - {id}
  {
    hide Inv, Applied, RunHook, StepsOk, Live, WithRecord;
    if id in s.bindings {
      AccountedInv(s, id, total, now);
      var t := Accounted(s, id, total, now);
      assert t.bindings == s.bindings - {id};
      CompletionOfBound(s, id, total, now, hook);
      hide Accounted, AfterCompletion;
      AppliedKeepsAttempts(t, Request(PAUSE, s.bindings[id].program, "marked_pause_completion"), now);
      HookKeepsAttempts(t, hook);
    }
  }

  lemma ResponseBindings(s: Sched, id: ProgramId, terminal: bool, now: Time)
    requires Inv(s)
    ensures AfterResponse(s, id, terminal, now).bindings == s.bindings
  {
    hide Inv, Applied, HasRequests;
    if id in s.reg.programs {
      AppliedKeepsAttempts(s, Request(RELEASE, s.reg.programs[id].ref, "api_terminal_response"), now);
    }
  }

  lemma CancelBindings(s: Sched, id: RequestId, now: Time)
    requires Inv(s)
    ensures AfterCancel(s, id, now).bindings == s.bindings - {id}
  {
    hide Inv, Applied, HasRequests, Live, WithRecord;
    DropInv(s, {id});
    if id in s.bindings {
      var t := s.(pool := Dropped(s.pool, {id}));
      WithdrawnInv(t, id);
      assert Withdrawn(t, id).bindings == s.bindings - {id};
      hide Withdrawn;
      AppliedKeepsAttempts(Withdrawn(t, id), Request(RELEASE, s.bindings[id].program, "cancelled_before_admission"),
                           now);
    }
  }

  lemma StepHits(s: Sched, op: Op)
    requires Inv(s) && Allowed(s, op) && AllHitsOk(s)
    ensures AllHitsOk(SchedulerOps.Step(s, op))
  {
    StepBindings(s, op);
    var t := SchedulerOps.Step(s, op);
    hide Inv, SchedulerOps.Step, Allowed, Noted, HitsOk;
    NothingNoted();
    forall id | id in t.bindings ensures HitsOk(t.bindings[id].hits, t.bindings[id].promptTokens) {
      if op.Observe? && op.id == id && id in s.bindings {
        NotedOk(s.bindings[id].hits, s.bindings[id].promptTokens, op.report);
      }
    }
  }

  lemma NothingNoted()
    ensures forall prompt: nat :: HitsOk(NO_HITS, prompt)
  {
  }

  /** In every run the accounted hits of every attempt lie within its prompt, the shared hit within the whole. */
  lemma {:induction false} RunHits(target: Target, ops: seq<Op>)
    requires AllowedRun(target, ops)
    ensures AllHitsOk(SchedulerOps.Run(target, ops).0)
  {
    if ops != [] {
      var init, op := ops[..|ops| - 1], ops[|ops| - 1];
      RunSnoc(target, ops);
      hide Inv, SchedulerOps.Step, SchedulerOps.Run, AllHitsOk, Allowed, AllowedRun;
      RunHits(target, init);
      RunSafety(target, init);
      StepHits(SchedulerOps.Run(target, init).0, op);
    }
  }

  // ---- the unreferenced part over runs

  ghost predicate AllPartsLocal(s: Sched) {
    forall id | id in s.bindings :: PartOfLocal(s.bindings[id].hits)
  }

  /** The operation is an undercutting report about a bound attempt. */
  ghost predicate UndercutsBound(s: Sched, op: Op) {
    op.Observe? && op.id in s.bindings && Undercuts(s.bindings[op.id].hits, s.bindings[op.id].promptTokens, op.report)
  }

  /** Among all operations exactly such a report ends the property. */
  lemma StepPartsLocal(s: Sched, op: Op)
    requires Inv(s) && Allowed(s, op) && AllHitsOk(s) && AllPartsLocal(s)
    ensures AllPartsLocal(SchedulerOps.Step(s, op)) <==> !UndercutsBound(s, op)
  {
    StepBindings(s, op);
    var t := SchedulerOps.Step(s, op);
    if op.Observe? && op.id in s.bindings {
      ObservationBindings(s, op);
      hide SchedulerOps.Step;
      PartOfLocalIff(s.bindings[op.id].hits, s.bindings[op.id].promptTokens, op.report);
    }
    hide Inv, SchedulerOps.Step, Allowed, Noted, HitsOk, Undercuts;
    forall id | id in t.bindings && !(op.Observe? && op.id == id) ensures PartOfLocal(t.bindings[id].hits) { }
  }

  lemma ObservationBindings(s: Sched, op: Op)
    requires op.Observe? && op.id in s.bindings
    ensures SchedulerOps.Step(s, op).bindings == NotedState(s, op.id, op.report).bindings
  {
    hide Noted, Live, WithRecord, Observed, ObservationDue;
  }

  /** No report undercuts an accounted part. */
  ghost predicate SparesParts(target: Target, ops: seq<Op>) {
    forall n | 0 <= n < |ops| :: !UndercutsBound(SchedulerOps.Run(target, ops[..n]).0, ops[n])
  }

  /** In every run without such a report the unreferenced part stays within the local hit. */
  lemma {:induction false} RunPartsLocal(target: Target, ops: seq<Op>)
    requires AllowedRun(target, ops) && SparesParts(target, ops)
    ensures AllPartsLocal(SchedulerOps.Run(target, ops).0)
  {
    if ops != [] {
      var init, op := ops[..|ops| - 1], ops[|ops| - 1];
      assert forall n | 0 <= n < |init| :: init[n] == ops[n] && init[..n] == ops[..n];
      RunPartsLocal(target, init);
      RunSafety(target, init);
      RunHits(target, init);
      hide Inv, SchedulerOps.Step, AllHitsOk, AllPartsLocal, UndercutsBound, Allowed;
      StepPartsLocal(SchedulerOps.Run(target, init).0, op);
    }
  }
}
