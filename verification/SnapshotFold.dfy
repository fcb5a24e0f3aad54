/** Snapshots, and the fold of the accepted ledger over one. */
module SnapshotFold {
  import opened Wrappers
  import opened Sequences
  import opened AscendingIds
  import opened OrderedDict
  import opened Domain
  import opened ProgramIndex
  import opened RegistrySpec
  import opened RequestPoolSpec
  import opened Transitions
  import opened SchedulerSpec

  /** `order` lists the snapshot's Programs; a view carries the record's facts. */
  type Views = Dict<ProgramRef, Program>

  datatype Snapshot = Snapshot(programs: seq<Program>, waiting: seq<ProgramRef>)

  /** The facts of a view that transitions are supposed to determine; token freshness and the
      relation fields are refreshed only by re-reading the registry. */
  predicate CoreEq(a: Program, b: Program) {
    && a.ref == b.ref && a.state == b.state && a.status == b.status && a.backend == b.backend && a.marked == b.marked
    && a.task == b.task && a.expectedResume == b.expectedResume && a.stepCount == b.stepCount
  }

  function RefsOf(ps: Programs, ids: seq<ProgramId>): seq<ProgramRef>
    requires forall i | 0 <= i < |ids| :: ids[i] in ps
  {
    if ids == [] then [] else RefsOf(ps, ids[..|ids| - 1]) + [ps[ids[|ids| - 1]].ref]
  }

  function Order(ps: Programs): seq<ProgramRef> {
    RefsOf(ps, Ascending(ps.Keys))
  }

  lemma {:induction false} RefsMembers(ps: Programs, ids: seq<ProgramId>)
    requires OwnIds(ps) && (forall i | 0 <= i < |ids| :: ids[i] in ps)
    requires forall i, j | 0 <= i < j < |ids| :: ids[i] < ids[j]
    ensures forall ref :: ref in RefsOf(ps, ids) <==> ref.programId in ids && ps[ref.programId].ref == ref
    ensures NoDup(RefsOf(ps, ids))
  {
    if ids != [] {
      var init, last := ids[..|ids| - 1], ids[|ids| - 1];
      RefsMembers(ps, init);
      assert ids == init + [last] && last !in init;
    }
  }

  lemma {:induction false} RefsWithout(ps: Programs, qs: Programs, ids: seq<ProgramId>, id: ProgramId)
    requires OwnIds(ps) && id in ps && (forall i | 0 <= i < |ids| :: ids[i] in ps)
    requires qs.Keys == ps.Keys - {id} && forall x | x in qs :: qs[x].ref == ps[x].ref
    ensures forall i | 0 <= i < |Filter(ids, Outside({id}))| :: Filter(ids, Outside({id}))[i] in qs
    ensures RefsOf(qs, Filter(ids, Outside({id}))) == Filter(RefsOf(ps, ids), Outside({ps[id].ref}))
  {
    if ids != [] {
      var init, last := ids[..|ids| - 1], ids[|ids| - 1];
      RefsWithout(ps, qs, init, id);
      FilterSnoc(RefsOf(ps, init), ps[last].ref, Outside({ps[id].ref}));
      if last == id {
        assert Filter(ids, Outside({id})) == Filter(init, Outside({id}));
      } else {
        assert Filter(ids, Outside({id})) == Filter(init, Outside({id})) + [last];
        assert ps[last].ref != ps[id].ref;
      }
    }
  }

  /** The same ids with the same references have the same order. */
  lemma {:induction false} RefsSame(ps: Programs, qs: Programs, ids: seq<ProgramId>)
    requires forall i | 0 <= i < |ids| :: ids[i] in ps && ids[i] in qs && ps[ids[i]].ref == qs[ids[i]].ref
    ensures RefsOf(ps, ids) == RefsOf(qs, ids)
  {
    if ids != [] { RefsSame(ps, qs, ids[..|ids| - 1]); }
  }

  // ---- the fold

  /** The view the fold stores for a transition that keeps its Program. */
  function Folded(v: Program, q: TransitionRequest): Program {
    match q.kind
    case ADMIT | RESUME => v.(state := ACTIVE, backend := q.backend, marked := false)
    case PAUSE => v.(state := PAUSED, backend := None, marked := false)
    case MARK_FOR_PAUSE => v.(marked := true)
    case QUEUE | RELEASE => v
  }

  /** One ledger entry applied to the snapshot's views. */
  function Advance1(d: Views, q: TransitionRequest): (r: Views)
    requires d.Valid() && q.program in d.at
    ensures r.Valid()
  {
    d.RemoveAllValid({q.program});
    if q.kind == RELEASE then d.Remove(q.program)
    else if q.kind == QUEUE then d
    else d.Put(q.program, Folded(d.at[q.program], q))
  }

  lemma FoldedCore(v: Program, p: Program, q: TransitionRequest, anchor: Option<Time>, now: Time)
    requires CoreEq(v, p)
    ensures CoreEq(Folded(v, q), Changed(p, q, anchor, now)) && Changed(p, q, anchor, now).ref == p.ref
  {
    if q.kind == PAUSE { RebasedCore(p.(state := PAUSED, backend := None, marked := false), anchor, now); }
    hide Rebased;
  }

  lemma RebasedCore(p: Program, anchor: Option<Time>, now: Time)
    ensures CoreEq(Rebased(p, anchor, now), p)
  {
  }

  /** The views list exactly the live Programs, in id order, with the current core facts. */
  ghost predicate Agrees(d: Views, reg: Registry) {
    && d.order == Order(reg.programs)
    && (forall ref :: ref in d.at <==> Live(reg, ref))
    && (forall ref | ref in d.at :: CoreEq(d.at[ref], RecordOf(reg, ref)))
  }

  /** Folding the ledger; a request for a Program the snapshot lacks would be a missing-key error. */
  function Advance(d: Views, ledger: seq<TransitionRequest>): (r: Result<Views, ProgramRef>)
    requires d.Valid()
    ensures r.Ok? ==> r.value.Valid()
  {
    if ledger == [] then Ok(d)
    else
      var q := ledger[|ledger| - 1];
      match Advance(d, ledger[..|ledger| - 1])
      case Err(missing) => Err(missing)
      case Ok(e) => if q.program in e.at then Ok(Advance1(e, q)) else Err(q.program)
  }

  lemma OrderStored(reg: Registry, p: Program)
    requires Live(reg, p.ref)
    ensures Order(WithRecord(reg, p).programs) == Order(reg.programs)
  {
    var ps, qs := reg.programs, WithRecord(reg, p).programs;
    assert qs.Keys == ps.Keys;
    RefsSame(ps, qs, Ascending(ps.Keys));
  }

  lemma OrderReleased(reg: Registry, ref: ProgramRef)
    requires WellFormed(reg) && Live(reg, ref)
    ensures Order(Released(reg, ref).programs) == Filter(Order(reg.programs), Outside({ref}))
  {
    var ps, qs, id := reg.programs, Released(reg, ref).programs, ref.programId;
    assert qs.Keys == ps.Keys - {id};
    RefsWithout(ps, qs, Ascending(ps.Keys), id);
    AscendingWithout(ps.Keys, id);
  }

  lemma RecordStored(reg: Registry, p: Program, ref: ProgramRef)
    requires Live(reg, p.ref) && Live(reg, ref)
    ensures Live(WithRecord(reg, p), ref)
    ensures RecordOf(WithRecord(reg, p), ref) == if ref == p.ref then p else RecordOf(reg, ref)
  {
  }

  lemma RecordReleased(reg: Registry, ref: ProgramRef, other: ProgramRef)
    requires WellFormed(reg) && Live(reg, ref)
    ensures Live(Released(reg, ref), other) <==> Live(reg, other) && other != ref
    ensures Live(Released(reg, ref), other) ==> CoreEq(RecordOf(reg, other), RecordOf(Released(reg, ref), other))
  {
    ReleaseKillsOne(reg, ref, other);
  }

  /** Rewriting one record moves the fold and the registry in step. */
  lemma PutAgrees(d: Views, reg: Registry, v: Program, p: Program)
    requires d.Valid() && Agrees(d, reg) && p.ref in d.at && CoreEq(v, p)
    ensures Agrees(d.Put(p.ref, v), WithRecord(reg, p))
  {
    hide Live, RecordOf, CoreEq, Order, WithRecord;
    OrderStored(reg, p);
    StoredLive(reg, p);
    forall ref | ref in d.at
      ensures RecordOf(WithRecord(reg, p), ref) == if ref == p.ref then p else RecordOf(reg, ref)
    {
      RecordStored(reg, p, ref);
    }
  }

  lemma RemoveAgrees(d: Views, reg: Registry, ref: ProgramRef)
    requires d.Valid() && WellFormed(reg) && Agrees(d, reg) && ref in d.at
    ensures Agrees(d.Remove(ref), Released(reg, ref))
  {
    hide WellFormed, Live, RecordOf, Order, Released, CoreEq;
    OrderReleased(reg, ref);
    var rest := d.Remove(ref);
    forall other ensures Live(Released(reg, ref), other) <==> other in rest.at {
      RecordReleased(reg, ref, other);
    }
    forall other | other in rest.at ensures CoreEq(rest.at[other], RecordOf(Released(reg, ref), other)) {
      RecordReleased(reg, ref, other);
      CoreTransitive(d.at[other], RecordOf(reg, other), RecordOf(Released(reg, ref), other));
    }
  }

  lemma CoreTransitive(a: Program, b: Program, c: Program)
    requires CoreEq(a, b) && CoreEq(b, c)
    ensures CoreEq(a, c)
  {
  }

  /** One accepted transition: the fold finds its Program and stays in agreement with the registry. */
  lemma Advance1Agrees(d: Views, s: Sched, q: TransitionRequest, now: Time)
    requires d.Valid() && WellFormed(s.reg) && Agrees(d, s.reg) && Accepts(s, q)
    ensures q.program in d.at && Agrees(Advance1(d, q), Applied(s, q, now).reg)
  {
    var p := Record(s, q.program);
    assert Live(s.reg, q.program);
    assert q.program in d.at;
    var v, next := d.at[q.program], Changed(p, q, Anchor(s, p.ref), now);
    assert p.ref == q.program && CoreEq(v, p);
    FoldedCore(v, p, q, Anchor(s, p.ref), now);
    AppliedReg(s, q, now);
    hide Applied, Accepts, Dict<ProgramRef, Program>.Valid, WellFormed, Agrees, Released, AdmitAll, WithRecord,
         Changed, Folded, CoreEq, Live, Rejection;
    if q.kind == RELEASE {
      RemoveAgrees(d, s.reg, p.ref);
    } else if q.kind != QUEUE {
      PutAgrees(d, s.reg, Folded(v, q), next);
    }
  }

  /** For every hook: the fold never misses a Program and ends in agreement with the registry. */
  lemma {:induction false} FoldAgrees(d: Views, s: Sched, steps: seq<HookStep>)
    requires d.Valid() && Inv(s) && StepsOk(steps) && Agrees(d, s.reg)
    ensures var r := Advance(d, Ledger(s, steps));
      r.Ok? && Agrees(r.value, RunHook(s, steps).reg)
  {
    if steps != [] {
      var init, last := steps[..|steps| - 1], steps[|steps| - 1];
      HookSnoc(s, steps);
      assert StepsOk(init) && RequestOk(last.request);
      hide Agrees, Applied, WellFormed, Accepts, Advance, Advance1, Inv, Dict<ProgramRef, Program>.Valid, RunHook,
           Ledger, StepsOk;
      FoldAgrees(d, s, init);
      HookInv(s, init);
      var u := RunHook(s, init);
      InvParts(u);
      if Accepts(u, last.request) {
        Advance1Agrees(Advance(d, Ledger(s, init)).value, u, last.request, last.now);
        AdvanceSnoc(d, Ledger(s, init), last.request);
      } else {
        RejectedKeeps(u, last.request, last.now);
        assert Ledger(s, steps) == Ledger(s, init);
      }
    } else {
      AdvanceNone(d);
    }
  }

  lemma AdvanceNone(d: Views)
    requires d.Valid()
    ensures Advance(d, []) == Ok(d)
  {
  }

  lemma AdvanceSnoc(d: Views, ledger: seq<TransitionRequest>, q: TransitionRequest)
    requires d.Valid()
    requires var r := Advance(d, ledger); r.Ok? && q.program in r.value.at
    ensures Advance(d, ledger + [q]) == Ok(Advance1(Advance(d, ledger).value, q))
  {
    assert (ledger + [q])[..|ledger|] == ledger;
  }

  // ---- snapshots as the strategy sees them

  function Listed(ps: Programs, refs: seq<ProgramRef>): (r: seq<Program>)
    requires forall i | 0 <= i < |refs| :: refs[i].programId in ps
    ensures |r| == |refs| && forall i | 0 <= i < |refs| :: r[i] == ps[refs[i].programId]
  {
    if refs == [] then [] else Listed(ps, refs[..|refs| - 1]) + [ps[refs[|refs| - 1].programId]]
  }

  function PausedRefs(programs: seq<Program>): seq<ProgramRef> {
    if programs == [] then []
    else
      var last := programs[|programs| - 1];
      PausedRefs(programs[..|programs| - 1]) + (if last.state == PAUSED then [last.ref] else [])
  }

  lemma OrderMembers(ps: Programs)
    requires OwnIds(ps)
    ensures NoDup(Order(ps))
    ensures forall ref :: ref in Order(ps) <==> ref.programId in ps && ps[ref.programId].ref == ref
    ensures forall i | 0 <= i < |Order(ps)| ::
      Order(ps)[i].programId in ps && ps[Order(ps)[i].programId].ref == Order(ps)[i]
  {
    RefsMembers(ps, Ascending(ps.Keys));
    forall i | 0 <= i < |Order(ps)|
      ensures Order(ps)[i].programId in ps && ps[Order(ps)[i].programId].ref == Order(ps)[i]
    {
      assert Order(ps)[i] in Order(ps);
    }
  }

  /** The registry re-read in full. */
  function SnapshotOf(reg: Registry): Snapshot
    requires WellFormed(reg)
  {
    OrderMembers(reg.programs);
    var programs := Listed(reg.programs, Order(reg.programs));
    Snapshot(programs, PausedRefs(programs))
  }

  function DictOf(programs: seq<Program>): (d: Views)
    ensures d.Valid()
  {
    if programs == [] then Dict([], map[])
    else
      var last := programs[|programs| - 1];
      DictOf(programs[..|programs| - 1]).Put(last.ref, last)
  }

  function Values(d: Views): (r: seq<Program>)
    requires d.Valid()
    ensures |r| == |d.order| && forall i | 0 <= i < |r| :: d.order[i] in d.at && r[i] == d.at[d.order[i]]
  {
    assert forall i | 0 <= i < |d.order| :: d.order[i] in d.order;
    seq(|d.order|, i requires 0 <= i < |d.order| => d.at[d.order[i]])
  }

  /** The next hook's snapshot from the ledger alone. */
  function AdvanceSnapshot(snapshot: Snapshot, ledger: seq<TransitionRequest>): Result<Snapshot, ProgramRef> {
    if ledger == [] then Ok(snapshot)
    else
      match Advance(DictOf(snapshot.programs), ledger)
      case Err(missing) => Err(missing)
      case Ok(d) =>
        var programs := Values(d);
        Ok(Snapshot(programs, PausedRefs(programs)))
  }

  lemma {:induction false} MissingStays(d: Views, ledger: seq<TransitionRequest>, n: nat)
    requires d.Valid() && n <= |ledger| && Advance(d, ledger[..n]).Err?
    ensures Advance(d, ledger) == Err(Advance(d, ledger[..n]).error)
    decreases |ledger| - n
  {
    if n < |ledger| {
      assert ledger[..n + 1][..n] == ledger[..n];
      MissingStays(d, ledger, n + 1);
    } else {
      assert ledger[..n] == ledger;
    }
  }

  /** The loop over the ledger, rewriting a local dictionary of views. */
  method AdvanceViews(d0: Views, ledger: seq<TransitionRequest>) returns (r: Result<Views, ProgramRef>)
    requires d0.Valid()
    ensures r == Advance(d0, ledger)
  {
    hide CoreEq;
    var d := d0;
    for n := 0 to |ledger|
      invariant d.Valid() && Advance(d0, ledger[..n]) == Ok(d)
    {
      var q := ledger[n];
      assert ledger[..n + 1][..n] == ledger[..n];
      if q.program !in d.at {
        MissingStays(d0, ledger, n + 1);
        return Err(q.program);
      }
      var program := d.at[q.program];
      d.RemoveAllValid({q.program});
      match q.kind {
        case RELEASE => d := d.Remove(q.program);
        case ADMIT | RESUME => d := d.Put(q.program, program.(state := ACTIVE, backend := q.backend, marked := false));
        case PAUSE => d := d.Put(q.program, program.(state := PAUSED, backend := None, marked := false));
        case MARK_FOR_PAUSE => d := d.Put(q.program, program.(marked := true));
        case QUEUE =>
      }
    }
    assert ledger[..|ledger|] == ledger;
    r := Ok(d);
  }

  /** `_advance_snapshot`: an empty ledger returns the snapshot itself. */
  method AdvancedSnapshot(snapshot: Snapshot, ledger: seq<TransitionRequest>) returns (r: Result<Snapshot, ProgramRef>)
    ensures r == AdvanceSnapshot(snapshot, ledger)
  {
    if ledger == [] { return Ok(snapshot); }
    var d := AdvanceViews(DictOf(snapshot.programs), ledger);
    if d.Err? { return Err(d.error); }
    var programs := Values(d.value);
    r := Ok(Snapshot(programs, PausedRefs(programs)));
  }

  /** What the snapshot constructor checks about its Programs. */
  ghost predicate SnapshotOk(snapshot: Snapshot) {
    && (forall i, j | 0 <= i < j < |snapshot.programs| :: snapshot.programs[i].ref != snapshot.programs[j].ref)
    && (forall ref | ref in snapshot.waiting ::
          exists i :: 0 <= i < |snapshot.programs| && snapshot.programs[i].ref == ref)
    && NoDup(snapshot.waiting)
  }

  ghost predicate SameCore(a: seq<Program>, b: seq<Program>) {
    |a| == |b| && forall i | 0 <= i < |a| :: CoreEq(a[i], b[i])
  }

  /** The dictionary lists these Programs in order. */
  ghost predicate Lists(d: Views, programs: seq<Program>)
    requires d.Valid()
  {
    && |d.order| == |programs|
    && forall i | 0 <= i < |programs| ::
         d.order[i] == programs[i].ref && programs[i].ref in d.at && d.at[programs[i].ref] == programs[i]
  }

  lemma {:induction false} DictOfAgrees(programs: seq<Program>)
    requires forall i, j | 0 <= i < j < |programs| :: programs[i].ref != programs[j].ref
    ensures Lists(DictOf(programs), programs)
  {
    if programs != [] {
      var init, last := programs[..|programs| - 1], programs[|programs| - 1];
      assert DictOf(programs) == DictOf(init).Put(last.ref, last) && programs == init + [last];
      hide *;
      DictOfAgrees(init);
      ListsMore(DictOf(init), init, last);
    }
  }

  lemma ListsMore(d: Views, init: seq<Program>, last: Program)
    requires d.Valid() && Lists(d, init) && forall i | 0 <= i < |init| :: init[i].ref != last.ref
    ensures d.Put(last.ref, last).Valid() && Lists(d.Put(last.ref, last), init + [last])
  {
    assert last.ref !in d.order;
    assert last.ref !in d.at;
    var next, programs := d.Put(last.ref, last), init + [last];
    forall i | 0 <= i < |programs|
      ensures next.order[i] == programs[i].ref && programs[i].ref in next.at && next.at[programs[i].ref] == programs[i]
    {
    }
  }

  lemma {:induction false} PausedRefsFacts(programs: seq<Program>)
    requires forall i, j | 0 <= i < j < |programs| :: programs[i].ref != programs[j].ref
    ensures NoDup(PausedRefs(programs))
    ensures forall ref | ref in PausedRefs(programs) ::
      exists i :: 0 <= i < |programs| && programs[i].ref == ref && programs[i].state == PAUSED
  {
    if programs != [] {
      var init := programs[..|programs| - 1];
      PausedRefsFacts(init);
      forall ref | ref in PausedRefs(init)
        ensures exists i :: 0 <= i < |programs| && programs[i].ref == ref && programs[i].state == PAUSED
                         && i < |programs| - 1
      {
        var i :| 0 <= i < |init| && init[i].ref == ref && init[i].state == PAUSED;
        assert programs[i] == init[i];
      }
      assert programs[|programs| - 1].ref !in PausedRefs(init);
    }
  }

  lemma {:induction false} PausedRefsSame(a: seq<Program>, b: seq<Program>)
    requires SameCore(a, b)
    ensures PausedRefs(a) == PausedRefs(b)
  {
    if a != [] {
      PausedRefsSame(a[..|a| - 1], b[..|b| - 1]);
      assert CoreEq(a[|a| - 1], b[|b| - 1]);
    }
  }

  /** A snapshot that shows what re-reading the registry would show. */
  ghost predicate Rereads(snapshot: Snapshot, reg: Registry) {
    WellFormed(reg) && SameCore(snapshot.programs, SnapshotOf(reg).programs)
      && snapshot.waiting == SnapshotOf(reg).waiting
  }

  /** The snapshot for an admission decision: a Program created by the very request is not listed as waiting. */
  function Excluding(snapshot: Snapshot, candidate: Option<ProgramRef>): Snapshot {
    if candidate.None? then snapshot
    else snapshot.(waiting := Filter(snapshot.waiting, Outside({candidate.value})))
  }

  /** It shows every live Program, and as waiting exactly the paused ones other than the candidate. */
  ghost predicate AdmissionView(view: Snapshot, reg: Registry, candidate: Option<ProgramRef>) {
    && WellFormed(reg) && view.programs == SnapshotOf(reg).programs && SnapshotOk(view)
    && forall ref :: ref in view.waiting <==> PausedRef(reg, ref) && Some(ref) != candidate
  }

  lemma ExcludingMeans(reg: Registry, candidate: Option<ProgramRef>)
    requires WellFormed(reg)
    ensures AdmissionView(Excluding(SnapshotOf(reg), candidate), reg, candidate)
  {
    hide WellFormed, SnapshotOf, PausedRef, PausedRefs, SnapshotOk, Excluding;
    SnapshotOfFacts(reg);
    WaitingArePaused(reg);
    ExcludedFrom(SnapshotOf(reg), candidate);
  }

  lemma ExcludedFrom(snapshot: Snapshot, candidate: Option<ProgramRef>)
    requires SnapshotOk(snapshot)
    ensures var view := Excluding(snapshot, candidate);
      && view.programs == snapshot.programs && SnapshotOk(view)
      && forall ref :: ref in view.waiting <==> ref in snapshot.waiting && Some(ref) != candidate
  {
    if candidate.Some? {
      FilterMembers(snapshot.waiting, Outside({candidate.value}));
      FilterNoDup(snapshot.waiting, Outside({candidate.value}));
    }
  }

  lemma WaitingArePaused(reg: Registry)
    requires WellFormed(reg)
    ensures forall ref :: ref in SnapshotOf(reg).waiting <==> PausedRef(reg, ref)
  {
    ListedOrder(reg);
    SnapshotOfFacts(reg);
    var programs := SnapshotOf(reg).programs;
    hide WellFormed, Order, SnapshotOf;
    PausedRefsFacts(programs);
    forall ref | PausedRef(reg, ref) ensures ref in PausedRefs(programs) {
      var i :| 0 <= i < |Order(reg.programs)| && Order(reg.programs)[i] == ref;
      PausedListed(programs, i);
    }
    forall ref | ref in PausedRefs(programs) ensures PausedRef(reg, ref) {
      var i :| 0 <= i < |programs| && programs[i].ref == ref && programs[i].state == PAUSED;
      assert programs[i] == RecordOf(reg, Order(reg.programs)[i]);
    }
  }

  lemma {:induction false} PausedListed(programs: seq<Program>, i: nat)
    requires i < |programs| && programs[i].state == PAUSED
    ensures programs[i].ref in PausedRefs(programs)
  {
    var m := |programs| - 1;
    if i < m {
      PausedListed(programs[..m], i);
    }
  }

  /** For any transitions a hook applies, advancing the old snapshot by the accepted ledger gives the
      same Programs, order, core facts and waiting list as re-reading the registry, misses no key, and
      passes the snapshot constructor's checks. */
  lemma AdvanceEqualsReread(s: Sched, steps: seq<HookStep>)
    requires Inv(s) && StepsOk(steps)
    ensures var t := RunHook(s, steps);
      var r := AdvanceSnapshot(SnapshotOf(s.reg), Ledger(s, steps));
      r.Ok? && SnapshotOk(r.value) && Rereads(r.value, t.reg)
  {
    InvParts(s);
    SnapshotOfFacts(s.reg);
    SnapshotRereads(s.reg);
    hide Inv, WellFormed, SnapshotOf, AdvanceSnapshot, SnapshotOk;
    AdvanceEqualsRereadFrom(SnapshotOf(s.reg), s, steps);
  }

  /** The same from a snapshot that was itself advanced, as the later hooks of a cycle receive it. */
  lemma AdvanceEqualsRereadFrom(snapshot: Snapshot, s: Sched, steps: seq<HookStep>)
    requires Inv(s) && StepsOk(steps) && SnapshotOk(snapshot) && Rereads(snapshot, s.reg)
    ensures var t := RunHook(s, steps);
      var r := AdvanceSnapshot(snapshot, Ledger(s, steps));
      r.Ok? && SnapshotOk(r.value) && Rereads(r.value, t.reg)
  {
    var t := RunHook(s, steps);
    HookInv(s, steps);
    InvParts(s);
    InvParts(t);
    hide Inv, WellFormed, Agrees, SnapshotOf, DictOf, Values, RunHook, Ledger, Advance, SnapshotOk, SameCore,
      PausedRefs;
    SnapshotAgrees(snapshot, s.reg);
    if Ledger(s, steps) == [] {
      NothingAccepted(s, steps);
    } else {
      FoldAgrees(DictOf(snapshot.programs), s, steps);
      ValuesAgree(Advance(DictOf(snapshot.programs), Ledger(s, steps)).value, t.reg);
    }
  }

  /** Views that agree with a registry list what a fresh snapshot of it lists. */
  lemma ValuesAgree(d: Views, reg: Registry)
    requires d.Valid() && WellFormed(reg) && Agrees(d, reg)
    ensures var r := Snapshot(Values(d), PausedRefs(Values(d)));
      SnapshotOk(r) && SameCore(r.programs, SnapshotOf(reg).programs) && r.waiting == SnapshotOf(reg).waiting
  {
    hide WellFormed, Order, Live, RecordOf, SnapshotOf, PausedRefs;
    var programs, reread := Values(d), SnapshotOf(reg).programs;
    ListedOrder(reg);
    forall i | 0 <= i < |programs| ensures CoreEq(programs[i], reread[i]) && programs[i].ref == d.order[i] {
      assert d.order[i] in d.at;
    }
    hide Agrees, Values, CoreEq;
    PausedRefsSame(programs, reread);
    PausedRefsFacts(programs);
    SnapshotOfFacts(reg);
  }

  lemma SnapshotRereads(reg: Registry)
    requires WellFormed(reg)
    ensures Rereads(SnapshotOf(reg), reg)
  {
    hide WellFormed, SnapshotOf;
  }

  lemma SnapshotOfFacts(reg: Registry)
    requires WellFormed(reg)
    ensures SnapshotOf(reg).waiting == PausedRefs(SnapshotOf(reg).programs)
    ensures SnapshotOk(SnapshotOf(reg))
  {
    ListedOrder(reg);
    hide WellFormed, Order, Live, RecordOf, PausedRefs;
    PausedRefsFacts(SnapshotOf(reg).programs);
  }

  lemma ListedOrder(reg: Registry)
    requires WellFormed(reg)
    ensures var programs := SnapshotOf(reg).programs;
      && |programs| == |Order(reg.programs)|
      && (forall i | 0 <= i < |programs| ::
            var ref := Order(reg.programs)[i];
            Live(reg, ref) && programs[i] == RecordOf(reg, ref) && programs[i].ref == ref)
    ensures NoDup(Order(reg.programs))
    ensures forall ref :: ref in Order(reg.programs) <==> Live(reg, ref)
  {
    OrderMembers(reg.programs);
  }

  lemma SnapshotAgrees(snapshot: Snapshot, reg: Registry)
    requires SnapshotOk(snapshot) && Rereads(snapshot, reg)
    ensures Agrees(DictOf(snapshot.programs), reg)
  {
    var programs := snapshot.programs;
    RereadsListed(snapshot, reg);
    hide WellFormed, Order, Live, RecordOf, SnapshotOf, DictOf, Rereads;
    ListedOrder(reg);
    DictOfOrder(programs, Order(reg.programs));
    DictAgrees(DictOf(programs), reg, programs);
  }

  lemma DictOfOrder(programs: seq<Program>, refs: seq<ProgramRef>)
    requires |programs| == |refs| && NoDup(refs) && forall i | 0 <= i < |refs| :: programs[i].ref == refs[i]
    ensures DictOf(programs).order == refs
    ensures forall i | 0 <= i < |refs| :: refs[i] in DictOf(programs).at && DictOf(programs).at[refs[i]] == programs[i]
  {
    DictOfAgrees(programs);
  }

  lemma RereadsListed(snapshot: Snapshot, reg: Registry)
    requires Rereads(snapshot, reg)
    ensures var refs := Order(reg.programs);
      && WellFormed(reg) && |snapshot.programs| == |refs|
      && forall i | 0 <= i < |refs| ::
           Live(reg, refs[i]) && CoreEq(snapshot.programs[i], RecordOf(reg, refs[i]))
             && snapshot.programs[i].ref == refs[i]
  {
    ListedOrder(reg);
    hide WellFormed, Order, Live, RecordOf, SnapshotOf;
  }

  lemma DictAgrees(d: Views, reg: Registry, programs: seq<Program>)
    requires d.Valid() && |d.order| == |programs| && d.order == Order(reg.programs)
    requires forall i | 0 <= i < |programs| :: Live(reg, d.order[i]) && CoreEq(programs[i], RecordOf(reg, d.order[i]))
    requires forall i | 0 <= i < |programs| :: d.order[i] in d.at && d.at[d.order[i]] == programs[i]
    requires forall ref :: ref in d.order <==> Live(reg, ref)
    ensures Agrees(d, reg)
  {
    hide Order, Live, RecordOf;
    forall ref ensures ref in d.at <==> Live(reg, ref) {
      assert ref in d.at <==> ref in d.order;
    }
    forall ref | ref in d.at ensures CoreEq(d.at[ref], RecordOf(reg, ref)) {
      assert ref in d.order;
      var i :| 0 <= i < |d.order| && d.order[i] == ref;
      assert CoreEq(programs[i], RecordOf(reg, ref));
    }
  }

  /** A hook none of whose requests was accepted changed nothing. */
  lemma {:induction false} NothingAccepted(s: Sched, steps: seq<HookStep>)
    requires Ledger(s, steps) == []
    ensures RunHook(s, steps) == s
  {
    if steps != [] {
      NothingAccepted(s, steps[..|steps| - 1]);
    }
  }
}
