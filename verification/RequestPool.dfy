/** What a request pool means: retained attempts in arrival order and decisions in admission order. */
module RequestPoolSpec {
  import opened Wrappers
  import opened Sequences
  import opened OrderedDict
  import opened Domain

  datatype PoolStatus = WAITING | ADMITTED

  datatype Target = Target(backend: BackendId, dpRank: int)

  datatype Entry = Entry(id: RequestId, program: ProgramRef, arrivedAt: Time, status: PoolStatus,
                         target: Option<Target>)

  datatype Pool = Pool(entries: Dict<RequestId, Entry>, recent: Dict<RequestId, Target>)

  const EMPTY_POOL := Pool(Dict([], map[]), Dict([], map[]))

  /** The one-shot decisions are exactly the ADMITTED entries, with the same targets. */
  ghost predicate PoolInv(p: Pool) {
    && p.entries.Valid() && p.recent.Valid()
    && (forall id | id in p.entries.at :: p.entries.at[id].id == id)
    && (forall id :: id in p.recent.at <==> id in p.entries.at && p.entries.at[id].status == ADMITTED)
    && (forall id | id in p.entries.at ::
          p.entries.at[id].target == if id in p.recent.at then Some(p.recent.at[id]) else None)
  }

  function Waiting(id: RequestId, program: ProgramRef, now: Time): Entry {
    Entry(id, program, now, WAITING, None)
  }

  function Added(p: Pool, e: Entry): Pool {
    p.(entries := p.entries.Put(e.id, e))
  }

  predicate IsWaiting(p: Pool, id: RequestId) {
    id in p.entries.at && p.entries.at[id].status == WAITING
  }

  function Admitted(p: Pool, id: RequestId, target: Target): Pool {
    if !IsWaiting(p, id) then p
    else Pool(p.entries.Put(id, p.entries.at[id].(status := ADMITTED, target := Some(target))),
              p.recent.Put(id, target))
  }

  /** Forgets attempts, whether by transfer or by cancellation. */
  function Dropped(p: Pool, ids: set<RequestId>): Pool {
    Pool(p.entries.RemoveAll(ids), p.recent.RemoveAll(ids))
  }

  ghost predicate Decided(p: Pool, ids: seq<RequestId>) {
    forall i | 0 <= i < |ids| :: ids[i] in p.entries.at && ids[i] in p.recent.at
  }

  lemma DecidedOrder(p: Pool)
    requires PoolInv(p)
    ensures Decided(p, p.recent.order)
  {
    forall i | 0 <= i < |p.recent.order|
      ensures p.recent.order[i] in p.entries.at && p.recent.order[i] in p.recent.at
    {
      var id := p.recent.order[i];
      assert id in p.recent.order && id in p.recent.at;
    }
  }

  /** Everything decided and not yet transferred, in decision order. */
  function Transfers(p: Pool): seq<(Entry, Target)>
    requires PoolInv(p)
  {
    DecidedOrder(p);
    Collect(p, p.recent.order)
  }

  /** The transferred attempts with their targets, in decision order. */
  function Collect(p: Pool, ids: seq<RequestId>): (r: seq<(Entry, Target)>)
    requires Decided(p, ids)
    ensures |r| == |ids|
    ensures forall i | 0 <= i < |ids| :: r[i] == (p.entries.at[ids[i]], p.recent.at[ids[i]])
  {
    if ids == [] then []
    else
      var init, last := ids[..|ids| - 1], ids[|ids| - 1];
      Collect(p, init) + [(p.entries.at[last], p.recent.at[last])]
  }

  // ---- every operation keeps the invariant

  lemma AddedInv(p: Pool, e: Entry)
    requires PoolInv(p) && e.id !in p.entries.at && e.status == WAITING && e.target == None
    ensures PoolInv(Added(p, e))
  {
    p.entries.PutValid(e.id, e);
  }

  lemma AdmittedInv(p: Pool, id: RequestId, target: Target)
    requires PoolInv(p)
    ensures PoolInv(Admitted(p, id, target))
    ensures Admitted(p, id, target).entries.order == p.entries.order
    ensures Admitted(p, id, target).entries.at.Keys == p.entries.at.Keys
  {
  }

  lemma DroppedInv(p: Pool, ids: set<RequestId>)
    requires PoolInv(p)
    ensures PoolInv(Dropped(p, ids))
  {
    p.entries.RemoveAllValid(ids);
    p.recent.RemoveAllValid(ids);
  }

  lemma DroppedNone(p: Pool)
    requires PoolInv(p)
    ensures Dropped(p, {}) == p
  {
    p.entries.RemoveAbsent({});
    p.recent.RemoveAbsent({});
  }

  /** Dropping every decided attempt leaves no decision behind. */
  lemma DroppedAll(p: Pool)
    requires PoolInv(p)
    ensures Elems(p.recent.order) == p.recent.at.Keys
    ensures PoolInv(Dropped(p, p.recent.at.Keys))
    ensures Dropped(p, p.recent.at.Keys).recent.at == map[]
  {
    DroppedInv(p, p.recent.at.Keys);
    assert forall id :: id in p.recent.order <==> id in p.recent.at;
  }

  /** A decided attempt is still retained when the decided ones before it are gone. */
  lemma CollectNext(p: Pool, ids: seq<RequestId>, i: nat)
    requires PoolInv(p) && ids == p.recent.order && i < |ids|
    ensures Decided(p, ids[..i + 1])
    ensures Collect(p, ids[..i + 1]) == Collect(p, ids[..i]) + [(p.entries.at[ids[i]], p.recent.at[ids[i]])]
    ensures var rest := Dropped(p, Elems(ids[..i])).entries.at;
      ids[i] in rest && rest[ids[i]] == p.entries.at[ids[i]]
  {
    DecidedOrder(p);
    assert ids[..i + 1][..i] == ids[..i];
    assert ids[i] !in ids[..i];
  }

  lemma DroppedNext(p: Pool, ids: seq<RequestId>, i: nat)
    requires i < |ids|
    ensures Dropped(Dropped(p, Elems(ids[..i])), {ids[i]}) == Dropped(p, Elems(ids[..i + 1]))
  {
    assert ids[..i + 1] == ids[..i] + [ids[i]];
    assert Elems(ids[..i + 1]) == Elems(ids[..i]) + {ids[i]};
    p.entries.RemoveAllSplit(Elems(ids[..i]), {ids[i]});
    p.recent.RemoveAllSplit(Elems(ids[..i]), {ids[i]});
  }

  /** Admits every listed attempt that satisfies the filter and still waits. */
  function AdmitAll(p: Pool, ids: seq<RequestId>, program: ProgramRef, target: Target): Pool {
    if ids == [] then p
    else
      var q := AdmitAll(p, ids[..|ids| - 1], program, target);
      var id := ids[|ids| - 1];
      if id in p.entries.at && p.entries.at[id].program == program && p.entries.at[id].status == WAITING
      then Admitted(q, id, target) else q
  }

  /** Admission touches the named Program's waiting attempts and nothing else. */
  lemma {:induction false} AdmitAllEffect(p: Pool, ids: seq<RequestId>, program: ProgramRef, target: Target)
    requires PoolInv(p)
    ensures var q := AdmitAll(p, ids, program, target);
      && PoolInv(q)
      && q.entries.order == p.entries.order && q.entries.at.Keys == p.entries.at.Keys
      && forall id | id in p.entries.at ::
           var e := p.entries.at[id];
           q.entries.at[id] == if id in ids && e.program == program && e.status == WAITING
                               then e.(status := ADMITTED, target := Some(target)) else e
  {
    if ids != [] {
      AdmitAllEffect(p, ids[..|ids| - 1], program, target);
      AdmittedInv(AdmitAll(p, ids[..|ids| - 1], program, target), ids[|ids| - 1], target);
      assert forall id :: id in ids <==> id in ids[..|ids| - 1] || id == ids[|ids| - 1];
    }
  }

  /** One step of the admission, for an attempt that is retained. */
  lemma AdmitNext(p: Pool, ids: seq<RequestId>, i: nat, program: ProgramRef, target: Target)
    requires PoolInv(p) && i < |ids| && ids == p.entries.order
    ensures var q, id := AdmitAll(p, ids[..i], program, target), ids[i];
      && id in p.entries.at && PoolInv(q)
      && (if p.entries.at[id].program == program && p.entries.at[id].status == WAITING
          then IsWaiting(q, id) && AdmitAll(p, ids[..i + 1], program, target) == Admitted(q, id, target)
          else AdmitAll(p, ids[..i + 1], program, target) == q)
  {
    NotYet(p, i);
    AdmitAllEffect(p, ids[..i], program, target);
    hide PoolInv;
    AdmitAllSnoc(p, ids, i, program, target);
    hide AdmitAll;
  }

  lemma AdmitAllSnoc(p: Pool, ids: seq<RequestId>, i: nat, program: ProgramRef, target: Target)
    requires i < |ids| && ids[i] in p.entries.at
    ensures var q, id := AdmitAll(p, ids[..i], program, target), ids[i];
      AdmitAll(p, ids[..i + 1], program, target) ==
        if p.entries.at[id].program == program && p.entries.at[id].status == WAITING then Admitted(q, id, target) else q
  {
    hide Admitted;
    assert ids[..i + 1][..i] == ids[..i];
  }

  /** No attempt is listed twice. */
  lemma NotYet(p: Pool, i: nat)
    requires PoolInv(p) && i < |p.entries.order|
    ensures p.entries.order[i] in p.entries.at && p.entries.order[i] !in p.entries.order[..i]
  {
  }

  lemma OthersKeepWaiting(p: Pool, program: ProgramRef, target: Target, r: RequestId)
    requires PoolInv(p) && IsWaiting(p, r) && p.entries.at[r].program != program
    ensures var q := AdmitAll(p, p.entries.order, program, target);
      IsWaiting(q, r) && q.entries.at[r] == p.entries.at[r]
  {
    AdmitAllEffect(p, p.entries.order, program, target);
  }

  /** An attempt that still waits after a Program's attempts were admitted belongs to another Program. */
  lemma StillWaiting(p: Pool, program: ProgramRef, target: Target, r: RequestId)
    requires PoolInv(p) && IsWaiting(AdmitAll(p, p.entries.order, program, target), r)
    ensures IsWaiting(p, r) && p.entries.at[r].program != program
    ensures AdmitAll(p, p.entries.order, program, target).entries.at[r] == p.entries.at[r]
  {
    AdmitAllEffect(p, p.entries.order, program, target);
    assert r in p.entries.at && r in p.entries.order;
  }
}

module RequestPoolModel {
  import opened Wrappers
  import opened Sequences
  import opened OrderedDict
  import opened Domain
  import opened RequestPoolSpec

  class RequestPool {
    var entries: Dict<RequestId, Entry>
    var recentAdmit: Dict<RequestId, Target>

    function Abs(): Pool
      reads this
    {
      Pool(entries, recentAdmit)
    }

    ghost predicate Valid()
      reads this
    {
      PoolInv(Abs())
    }

    constructor ()
      ensures Valid() && Abs() == EMPTY_POOL
    {
      entries, recentAdmit := Dict([], map[]), Dict([], map[]);
    }

    /** Waiting attempts in arrival order. */
    method WaitingRequestIds() returns (ids: seq<RequestId>)
      requires Valid()
      ensures NoDup(ids)
      ensures forall id :: id in ids <==> IsWaiting(Abs(), id)
    {
      var pool := Abs();
      var waiting := (id: RequestId) => IsWaiting(pool, id);
      ids := Filter(entries.order, waiting);
      FilterMembers(entries.order, waiting);
      FilterNoDup(entries.order, waiting);
      forall id ensures id in ids <==> IsWaiting(Abs(), id) {
        assert IsWaiting(Abs(), id) ==> id in entries.order && waiting(id);
      }
    }

    method Add(e: Entry) returns (ok: bool)
      requires Valid() && e.status == WAITING && e.target == None
      modifies this
      ensures Valid()
      ensures ok <==> e.id !in old(entries).at
      ensures Abs() == if ok then Added(old(Abs()), e) else old(Abs())
    {
      if e.id in entries.at { return false; }
      AddedInv(Abs(), e);
      entries := entries.Put(e.id, e);
      ok := true;
    }

    method Admit(id: RequestId, target: Target) returns (ok: bool)
      requires Valid()
      modifies this
      ensures Valid()
      ensures ok <==> IsWaiting(old(Abs()), id)
      ensures Abs() == Admitted(old(Abs()), id, target)
    {
      AdmittedInv(Abs(), id, target);
      if id !in entries.at || entries.at[id].status == ADMITTED { return false; }
      entries := entries.Put(id, entries.at[id].(status := ADMITTED, target := Some(target)));
      recentAdmit := recentAdmit.Put(id, target);
      ok := true;
    }

    /** Transfers every newly admitted attempt, in decision order. */
    method ConsumeAdmitted() returns (admitted: seq<(Entry, Target)>)
      requires Valid()
      modifies this
      ensures Valid()
      ensures admitted == Transfers(old(Abs()))
      ensures Abs() == Dropped(old(Abs()), old(recentAdmit).at.Keys) && recentAdmit.at == map[]
    {
      DecidedOrder(Abs());
      var ids, targets := recentAdmit.order, recentAdmit.at;
      ghost var pool := Abs();
      admitted := [];
      DroppedNone(pool);
      assert ids[..0] == [] && Elems(ids[..0]) == {};
      hide PoolInv, Dropped, Elems;
      for i := 0 to |ids|
        invariant PoolInv(pool) && Decided(pool, ids[..i])
        invariant Abs() == Dropped(pool, Elems(ids[..i]))
        invariant admitted == Collect(pool, ids[..i])
      {
        var id := ids[i];
        CollectNext(pool, ids, i);
        DroppedNext(pool, ids, i);
        var entry := Pop(id);
        if entry.Some? {
          admitted := admitted + [(entry.value, targets[id])];
        }
      }
      assert ids[..|ids|] == ids;
      DroppedAll(pool);
    }

    /** Pops one attempt from both tables, as every way of leaving the pool does. */
    method Pop(id: RequestId) returns (r: Option<Entry>)
      modifies this
      ensures r == if id in old(entries).at then Some(old(entries).at[id]) else None
      ensures Abs() == Dropped(old(Abs()), {id})
    {
      r := if id in entries.at then Some(entries.at[id]) else None;
      entries := entries.Remove(id);
      recentAdmit := recentAdmit.Remove(id);
    }

    /** Transfers one attempt that admission answered immediately. */
    method ConsumeAdmittedRequest(id: RequestId) returns (r: Option<(Entry, Target)>)
      requires Valid()
      modifies this
      ensures Valid()
      ensures id in old(recentAdmit).at ==>
        r == Some((old(entries).at[id], old(recentAdmit).at[id])) && Abs() == Dropped(old(Abs()), {id})
      ensures id !in old(recentAdmit).at ==> r == None && Abs() == old(Abs())
    {
      DroppedInv(Abs(), {id});
      if id !in recentAdmit.at { return None; }
      var target := recentAdmit.at[id];
      var entry := Pop(id);
      r := if entry.Some? then Some((entry.value, target)) else None;
    }

    /** An attempt that admission answered immediately: admit it if it still waits, then transfer it. */
    method GrantNow(id: RequestId, target: Target) returns (r: Option<(Entry, Target)>)
      requires Valid() && id in Admitted(Abs(), id, target).recent.at
      modifies this
      ensures Valid() && Abs() == Dropped(Admitted(old(Abs()), id, target), {id})
      ensures r.Some?
    {
      if id in entries.at && entries.at[id].status == WAITING {
        var _ := Admit(id, target);
      }
      r := ConsumeAdmittedRequest(id);
    }

    method Cancel(id: RequestId) returns (r: Option<Entry>)
      requires Valid()
      modifies this
      ensures Valid()
      ensures r == if id in old(entries).at then Some(old(entries).at[id]) else None
      ensures Abs() == Dropped(old(Abs()), {id})
    {
      DroppedInv(Abs(), {id});
      r := Pop(id);
    }
  }
}
