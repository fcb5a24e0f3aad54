/** Identities and per-Program facts shared by the scheduling modules. Identifiers
    are used through equality and order only and times are clock ticks, so both are integers. */
module Domain {
  import opened Wrappers

  type ProgramId = int
  type TaskId = int
  type RequestId = int
  type BackendId = int
  type Time = int

  datatype ProgramState = ACTIVE | PAUSED | TERMINATED
  datatype ProgramStatus = REASONING | ACTING

  datatype ProgramRef = ProgramRef(programId: ProgramId, generation: nat)

  datatype Tokens = Tokens(
    estimatedContext: nat,
    sharedPrefix: nat,
    freshUntil: Option<Time>)

  /** A live Program record; the two relation caches live in `Blocking`. */
  datatype Program = Program(
    ref: ProgramRef,
    state: ProgramState,
    status: ProgramStatus,
    tokens: Tokens,
    backend: Option<BackendId>,
    task: Option<TaskId>,
    parent: Option<ProgramId>,
    blocksParent: bool,
    expectedResume: bool,
    stepCount: nat,
    marked: bool)

  /** The cached relation fields of a live record. */
  datatype Blocking = Blocking(children: set<ProgramRef>, blockedOnChild: bool)

  datatype Identity = Identity(
    programId: ProgramId,
    task: Option<TaskId>,
    parent: Option<ProgramId>,
    blocksParent: bool,
    expectedResume: bool)

  /** What the constructor of the identity record has already checked. */
  type AgentIdentity = m: Identity |
      m.parent != Some(m.programId) && (m.blocksParent ==> m.parent.Some?)
    witness Identity(0, None, None, false, true)
}

/** The index a registry would obtain by recomputing it from its live Programs. */
module ProgramIndex {
  import opened Wrappers
  import opened Domain

  type Programs = map<ProgramId, Program>
  type Key = Program -> Option<int>

  function TaskKey(): Key {
    (p: Program) => p.task
  }

  function EdgeKey(): Key {
    (p: Program) => if p.blocksParent then p.parent else None
  }

  ghost predicate OwnIds(ps: Programs) {
    forall id | id in ps :: ps[id].ref.programId == id
  }

  function Members(ps: Programs, key: Key, k: int): set<ProgramRef> {
    set id | id in ps && key(ps[id]) == Some(k) :: ps[id].ref
  }

  /** Buckets exist for the keys in use and for no others. */
  function Index(ps: Programs, key: Key): map<int, set<ProgramRef>> {
    map k | k in (set id | id in ps && key(ps[id]).Some? :: key(ps[id]).value) :: Members(ps, key, k)
  }

  function Bucket(index: map<int, set<ProgramRef>>, k: int): set<ProgramRef> {
    if k in index then index[k] else {}
  }

  function Attach(index: map<int, set<ProgramRef>>, k: Option<int>, ref: ProgramRef): map<int, set<ProgramRef>> {
    if k.None? then index else index[k.value := Bucket(index, k.value) + {ref}]
  }

  function Detach(index: map<int, set<ProgramRef>>, k: Option<int>, ref: ProgramRef): map<int, set<ProgramRef>> {
    if k.None? || k.value !in index then index
    else if index[k.value] - {ref} == {} then index - {k.value}
    else index[k.value := index[k.value] - {ref}]
  }

  lemma IndexBucket(ps: Programs, key: Key, k: int)
    ensures Bucket(Index(ps, key), k) == Members(ps, key, k)
    ensures k in Index(ps, key) <==> Members(ps, key, k) != {}
  {
    if k in Index(ps, key) {
      var id :| id in ps && key(ps[id]) == Some(k);
      assert ps[id].ref in Members(ps, key, k);
    }
  }

  /** Two indexes with the same bucket at every key, and no empty bucket, are equal. */
  lemma IndexIs(ps: Programs, key: Key, index: map<int, set<ProgramRef>>)
    requires forall k :: Bucket(index, k) == Members(ps, key, k)
    requires forall k | k in index :: index[k] != {}
    ensures index == Index(ps, key)
  {
    forall k ensures k in index <==> k in Index(ps, key) {
      IndexBucket(ps, key, k);
      assert Bucket(index, k) == Members(ps, key, k);
    }
    forall k | k in index ensures index[k] == Index(ps, key)[k] {
      IndexBucket(ps, key, k);
      assert Bucket(index, k) == Members(ps, key, k);
    }
  }

  lemma MembersPut(ps: Programs, key: Key, id: ProgramId, p: Program, k: int)
    requires OwnIds(ps) && p.ref.programId == id
    requires id in ps ==> ps[id].ref == p.ref
    ensures Members(ps[id := p], key, k)
         == if key(p) == Some(k) then Members(ps, key, k) + {p.ref} else Members(ps, key, k) - {p.ref}
  {
    var qs := ps[id := p];
    forall r | r in Members(qs, key, k)
      ensures r in (if key(p) == Some(k) then Members(ps, key, k) + {p.ref} else Members(ps, key, k) - {p.ref})
    {
      var x :| x in qs && key(qs[x]) == Some(k) && qs[x].ref == r;
      if x != id { assert ps[x].ref.programId == x; }
    }
    forall r | r in Members(ps, key, k) && r != p.ref ensures r in Members(qs, key, k) {
      var x :| x in ps && key(ps[x]) == Some(k) && ps[x].ref == r;
      assert x != id && qs[x] == ps[x];
    }
    if key(p) == Some(k) { assert qs[id] == p; }
  }

  /** A reference is in a bucket only on account of its own record. */
  lemma OwnBucket(ps: Programs, key: Key, ref: ProgramRef, k: int)
    requires OwnIds(ps)
    ensures ref in Members(ps, key, k)
       <==> ref.programId in ps && ps[ref.programId].ref == ref && key(ps[ref.programId]) == Some(k)
  {
    if ref.programId in ps && ps[ref.programId].ref == ref && key(ps[ref.programId]) == Some(k) {
      var id := ref.programId;
      assert id in ps && key(ps[id]) == Some(k) && ps[id].ref == ref;
    }
  }

  /** Storing a record whose id had no key so far is an `Attach` of its new key. */
  lemma IndexAttach(ps: Programs, key: Key, id: ProgramId, p: Program)
    requires OwnIds(ps) && p.ref.programId == id
    requires id in ps ==> ps[id].ref == p.ref && (key(ps[id]) == None || key(ps[id]) == key(p))
    ensures Index(ps[id := p], key) == Attach(Index(ps, key), key(p), p.ref)
  {
    var index := Attach(Index(ps, key), key(p), p.ref);
    forall k ensures Bucket(index, k) == Members(ps[id := p], key, k) {
      IndexBucket(ps, key, k);
      MembersPut(ps, key, id, p, k);
    }
    forall k | k in index ensures index[k] != {} {
      IndexBucket(ps, key, k);
      if key(p) == Some(k) { assert p.ref in index[k]; }
    }
    IndexIs(ps[id := p], key, index);
  }

  /** Clearing the key of a record is a `Detach` of its old key. */
  lemma IndexDetach(ps: Programs, key: Key, id: ProgramId, p: Program)
    requires OwnIds(ps) && p.ref.programId == id && id in ps && ps[id].ref == p.ref
    requires key(p) == None
    ensures Index(ps[id := p], key) == Detach(Index(ps, key), key(ps[id]), p.ref)
  {
    var index := Detach(Index(ps, key), key(ps[id]), p.ref);
    forall k ensures Bucket(index, k) == Members(ps[id := p], key, k) {
      IndexBucket(ps, key, k);
      MembersPut(ps, key, id, p, k);
    }
    forall k | k in index ensures index[k] != {} {
      IndexBucket(ps, key, k);
    }
    IndexIs(ps[id := p], key, index);
  }

  /** Removing a record that carries no key leaves the index alone. */
  lemma IndexDrop(ps: Programs, key: Key, id: ProgramId)
    requires id in ps ==> key(ps[id]) == None
    ensures Index(ps - {id}, key) == Index(ps, key)
  {
    forall k ensures Members(ps - {id}, key, k) == Members(ps, key, k) {
      forall r | r in Members(ps, key, k) ensures r in Members(ps - {id}, key, k) {
        var x :| x in ps && key(ps[x]) == Some(k) && ps[x].ref == r;
        assert x in ps - {id};
      }
    }
    forall k ensures Bucket(Index(ps, key), k) == Members(ps - {id}, key, k) {
      IndexBucket(ps, key, k);
    }
    forall k | k in Index(ps, key) ensures Index(ps, key)[k] != {} { IndexBucket(ps, key, k); }
    IndexIs(ps - {id}, key, Index(ps, key));
  }

  /** Replacing records without changing their keys leaves the index alone. */
  lemma IndexSame(ps: Programs, qs: Programs, key: Key)
    requires ps.Keys == qs.Keys
    requires forall id | id in ps :: qs[id].ref == ps[id].ref && key(qs[id]) == key(ps[id])
    ensures Index(qs, key) == Index(ps, key)
  {
    forall k ensures Bucket(Index(ps, key), k) == Members(qs, key, k) {
      IndexBucket(ps, key, k);
      assert Members(qs, key, k) == Members(ps, key, k) by {
        forall r | r in Members(ps, key, k) ensures r in Members(qs, key, k) {
          var x :| x in ps && key(ps[x]) == Some(k) && ps[x].ref == r;
          assert key(qs[x]) == Some(k);
        }
        forall r | r in Members(qs, key, k) ensures r in Members(ps, key, k) {
          var x :| x in qs && key(qs[x]) == Some(k) && qs[x].ref == r;
          assert key(ps[x]) == Some(k);
        }
      }
    }
    forall k | k in Index(ps, key) ensures Index(ps, key)[k] != {} { IndexBucket(ps, key, k); }
    IndexIs(qs, key, Index(ps, key));
  }
}

/** The registry's meaning: live Programs and the last generation of each id. */
module RegistrySpec {
  import opened Wrappers
  import opened Domain
  import opened ProgramIndex

  datatype Registry = Registry(programs: Programs, last: map<ProgramId, nat>)

  ghost predicate WellFormed(r: Registry) {
    && OwnIds(r.programs)
    && forall id | id in r.programs ::
         var p := r.programs[id];
         && id in r.last && p.ref.generation == r.last[id]
         && p.state != TERMINATED
         && (p.blocksParent ==> p.parent.Some?)
         && p.parent != Some(id)
  }

  predicate Live(r: Registry, ref: ProgramRef) {
    ref.programId in r.programs && r.programs[ref.programId].ref == ref
  }

  function RecordOf(r: Registry, ref: ProgramRef): Program
    requires Live(r, ref)
  {
    r.programs[ref.programId]
  }

  function NextGeneration(r: Registry, id: ProgramId): nat {
    if id in r.last then r.last[id] + 1 else 0
  }

  function NewProgram(r: Registry, m: AgentIdentity, initial: ProgramState): Program {
    Program(ProgramRef(m.programId, NextGeneration(r, m.programId)), initial, REASONING, Tokens(0, 0, None),
            None, m.task, m.parent, m.blocksParent, m.expectedResume, 0, false)
  }

  predicate TaskConflict(r: Registry, m: AgentIdentity) {
    && m.programId in r.programs
    && m.task.Some? && r.programs[m.programId].task.Some?
    && r.programs[m.programId].task != m.task
  }

  function WithMetadata(p: Program, m: AgentIdentity): Program {
    p.(task := if m.task.Some? then m.task else p.task,
       parent := m.parent, blocksParent := m.blocksParent, expectedResume := m.expectedResume)
  }

  function Materialized(r: Registry, m: AgentIdentity, initial: ProgramState): Registry {
    var id := m.programId;
    if id in r.programs then r.(programs := r.programs[id := WithMetadata(r.programs[id], m)])
    else
      var p := NewProgram(r, m, initial);
      Registry(r.programs[id := p], r.last[id := p.ref.generation])
  }

  /** Programs that blocked the given parent lose their edge; the others keep theirs. */
  function Orphaned(ps: Programs, parent: ProgramId): Programs {
    map id | id in ps ::
      if EdgeKey()(ps[id]) == Some(parent) then ps[id].(parent := None, blocksParent := false) else ps[id]
  }

  function Released(r: Registry, ref: ProgramRef): Registry {
    if !Live(r, ref) then r
    else r.(programs := Orphaned(r.programs - {ref.programId}, ref.programId))
  }

  function WithRecord(r: Registry, p: Program): Registry {
    r.(programs := r.programs[p.ref.programId := p])
  }

  // ---- what every step keeps

  lemma MaterializedWellFormed(r: Registry, m: AgentIdentity, initial: ProgramState)
    requires WellFormed(r) && initial != TERMINATED
    ensures WellFormed(Materialized(r, m, initial))
  {
  }

  lemma ReleasedWellFormed(r: Registry, ref: ProgramRef)
    requires WellFormed(r)
    ensures WellFormed(Released(r, ref))
  {
  }

  lemma StoredWellFormed(r: Registry, p: Program)
    requires WellFormed(r) && Live(r, p.ref)
    requires p.state == RecordOf(r, p.ref).state || p.state != TERMINATED
    requires p.parent == RecordOf(r, p.ref).parent && p.blocksParent == RecordOf(r, p.ref).blocksParent
    ensures WellFormed(WithRecord(r, p))
  {
    var q := r.programs[p.ref.programId];
    assert q.state != TERMINATED && q.ref == p.ref;
  }

  datatype Step =
    | Materialize(identity: AgentIdentity, initial: ProgramState)
    | Release(ref: ProgramRef)

  function Apply(r: Registry, step: Step): Registry {
    match step
    case Materialize(m, initial) => if TaskConflict(r, m) then r else Materialized(r, m, initial)
    case Release(ref) => Released(r, ref)
  }

  function Run(r: Registry, steps: seq<Step>): Registry {
    if steps == [] then r else Apply(Run(r, steps[..|steps| - 1]), steps[|steps| - 1])
  }

  /** A generation that was issued and is no longer live stays dead, whatever is materialized or released later. */
  lemma {:induction false} ReleasedStaysDead(r: Registry, ref: ProgramRef, steps: seq<Step>)
    requires WellFormed(r)
    requires forall s | s in steps && s.Materialize? :: s.initial != TERMINATED
    requires ref.programId in r.last && ref.generation <= r.last[ref.programId] && !Live(r, ref)
    ensures var q := Run(r, steps);
      WellFormed(q) && !Live(q, ref) && ref.programId in q.last && ref.generation <= q.last[ref.programId]
  {
    if steps != [] {
      var init, last := steps[..|steps| - 1], steps[|steps| - 1];
      assert forall s | s in init :: s in steps;
      ReleasedStaysDead(r, ref, init);
      var q := Run(r, init);
      match last {
        case Materialize(m, initial) =>
          assert last in steps;
          if !TaskConflict(q, m) { MaterializedWellFormed(q, m, initial); }
        case Release(other) => ReleasedWellFormed(q, other);
      }
    }
  }

  /** Releasing makes exactly the named generation dead. */
  lemma ReleaseKillsOne(r: Registry, ref: ProgramRef, other: ProgramRef)
    requires WellFormed(r)
    ensures Live(Released(r, ref), other) <==> Live(r, other) && other != ref
  {
  }

  /** Orphaning empties exactly the released parent's bucket. */
  lemma OrphanedIndex(ps: Programs, parent: ProgramId)
    ensures Index(Orphaned(ps, parent), EdgeKey()) == Index(ps, EdgeKey()) - {parent}
    ensures Index(Orphaned(ps, parent), TaskKey()) == Index(ps, TaskKey())
  {
    var qs := Orphaned(ps, parent);
    IndexSame(ps, qs, TaskKey());
    var index := Index(ps, EdgeKey()) - {parent};
    forall k ensures Bucket(index, k) == Members(qs, EdgeKey(), k) {
      IndexBucket(ps, EdgeKey(), k);
      forall r | r in Members(ps, EdgeKey(), k) && k != parent ensures r in Members(qs, EdgeKey(), k) {
        var x :| x in ps && EdgeKey()(ps[x]) == Some(k) && ps[x].ref == r;
        assert qs[x] == ps[x];
      }
      forall r | r in Members(qs, EdgeKey(), k) ensures k != parent && r in Members(ps, EdgeKey(), k) {
        var x :| x in qs && EdgeKey()(qs[x]) == Some(k) && qs[x].ref == r;
        assert qs[x] == ps[x];
      }
    }
    forall k | k in index ensures index[k] != {} { IndexBucket(ps, EdgeKey(), k); }
    IndexIs(qs, EdgeKey(), index);
  }
}

/** The edge index and the relation caches, as values, under one attach or detach. */
module BlockingEdges {
  import opened Wrappers
  import opened Domain
  import opened ProgramIndex
  import opened RegistrySpec

  type EdgeIndex = map<ProgramId, set<ProgramRef>>
  type Caches = map<ProgramId, Blocking>

  predicate IsLiveChild(ps: Programs, child: ProgramRef, parent: ProgramId) {
    && child.programId in ps && ps[child.programId].ref == child
    && EdgeKey()(ps[child.programId]) == Some(parent)
  }

  function LiveChildren(ps: Programs, index: EdgeIndex, parent: ProgramId): set<ProgramRef> {
    set c | c in Bucket(index, parent) && IsLiveChild(ps, c, parent)
  }

  function Refreshed(ps: Programs, index: EdgeIndex, caches: Caches, parent: ProgramId): Caches {
    if parent in ps
    then caches[parent := Blocking(LiveChildren(ps, index, parent), LiveChildren(ps, index, parent) != {})]
    else caches
  }

  /** The same record without its blocking edge. */
  function Unlinked(p: Program): Program {
    p.(parent := None, blocksParent := false)
  }

  /** The index is exact, and so are the caches, except possibly for the records in `skip`. */
  ghost predicate Exact(ps: Programs, index: EdgeIndex, caches: Caches, skip: set<ProgramId>) {
    && index == Index(ps, EdgeKey())
    && caches.Keys == ps.Keys
    && forall id | id in ps && id !in skip ::
         caches[id] == Blocking(Members(ps, EdgeKey(), id), Members(ps, EdgeKey(), id) != {})
  }

  /** Indexed children are exactly the live ones, so refreshing a parent stores its whole bucket. */
  lemma AllLive(ps: Programs, k: ProgramId)
    requires OwnIds(ps)
    ensures LiveChildren(ps, Index(ps, EdgeKey()), k) == Members(ps, EdgeKey(), k)
  {
    IndexBucket(ps, EdgeKey(), k);
    forall c ensures c in Members(ps, EdgeKey(), k) <==> IsLiveChild(ps, c, k) {
      OwnBucket(ps, EdgeKey(), c, k);
    }
  }

  /** Refreshing every parent whose bucket changed keeps the caches exact. */
  lemma RefreshExact(ps: Programs, index: EdgeIndex, caches: Caches, parent: ProgramId, skip: set<ProgramId>)
    requires OwnIds(ps)
    requires Exact(ps, index, caches, skip + {parent})
    ensures Exact(ps, index, Refreshed(ps, index, caches, parent), skip - {parent})
  {
    AllLive(ps, parent);
  }

  /** Records with equal references and edges are interchangeable. */
  lemma SameEdges(ps: Programs, qs: Programs, index: EdgeIndex, caches: Caches, skip: set<ProgramId>)
    requires ps.Keys == qs.Keys
    requires forall id | id in ps :: qs[id].ref == ps[id].ref && EdgeKey()(qs[id]) == EdgeKey()(ps[id])
    requires Exact(ps, index, caches, skip)
    ensures Exact(qs, index, caches, skip)
  {
    IndexSame(ps, qs, EdgeKey());
    forall k ensures Members(ps, EdgeKey(), k) == Members(qs, EdgeKey(), k) {
      IndexBucket(ps, EdgeKey(), k);
      IndexBucket(qs, EdgeKey(), k);
    }
  }

  /** A new record without an edge, whose own cache is not settled yet. */
  lemma NewRecord(ps: Programs, index: EdgeIndex, caches: Caches, p: Program, cache: Blocking)
    requires OwnIds(ps) && Exact(ps, index, caches, {})
    requires p.ref.programId !in ps && EdgeKey()(p) == None
    ensures Exact(ps[p.ref.programId := p], index, caches[p.ref.programId := cache], {p.ref.programId})
  {
    var id := p.ref.programId;
    IndexAttach(ps, EdgeKey(), id, p);
    forall k ensures Members(ps[id := p], EdgeKey(), k) == Members(ps, EdgeKey(), k) {
      MembersPut(ps, EdgeKey(), id, p, k);
      OwnBucket(ps, EdgeKey(), p.ref, k);
    }
  }

  /** Attaching the edge of an unlinked record and refreshing its parent. */
  lemma AttachExact(ps: Programs, index: EdgeIndex, caches: Caches, id: ProgramId, skip: set<ProgramId>)
    requires OwnIds(ps) && id in ps
    requires Exact(ps[id := Unlinked(ps[id])], index, caches, skip)
    ensures var k := EdgeKey()(ps[id]);
      var index' := Attach(index, k, ps[id].ref);
      Exact(ps, index', if k.None? then caches else Refreshed(ps, index', caches, k.value),
            if k.None? then skip else skip - {k.value})
  {
    var p := ps[id];
    var k := EdgeKey()(p);
    var base := ps[id := Unlinked(p)];
    var index' := Attach(index, k, p.ref);
    assert base[id := p] == ps;
    IndexAttach(base, EdgeKey(), id, p);
    forall j ensures k != Some(j) ==> Members(ps, EdgeKey(), j) == Members(base, EdgeKey(), j) {
      MembersPut(base, EdgeKey(), id, p, j);
      OwnBucket(base, EdgeKey(), p.ref, j);
    }
    if k.Some? {
      RefreshExact(ps, index', caches, k.value, skip);
    }
  }

  /** The index half of detaching a record, whether or not its edge is indexed. */
  lemma DetachIndex(ps: Programs, base: Programs, id: ProgramId)
    requires OwnIds(ps) && id in ps
    requires base == ps || base == ps[id := Unlinked(ps[id])]
    ensures var unlinked := ps[id := Unlinked(ps[id])];
      && Detach(Index(base, EdgeKey()), ps[id].parent, ps[id].ref) == Index(unlinked, EdgeKey())
      && forall j :: ps[id].parent != Some(j) ==> Members(unlinked, EdgeKey(), j) == Members(base, EdgeKey(), j)
  {
    var p := ps[id];
    assert base[id := Unlinked(p)] == ps[id := Unlinked(p)];
    IndexDetach(base, EdgeKey(), id, Unlinked(p));
    if p.parent.Some? {
      var k := p.parent.value;
      IndexBucket(base, EdgeKey(), k);
      OwnBucket(base, EdgeKey(), p.ref, k);
      var index := Index(base, EdgeKey());
      if EdgeKey()(base[id]) == None && k in index {
        assert index[k] - {p.ref} == index[k];
        assert index[k := index[k]] == index;
      }
    }
    forall j ensures p.parent != Some(j) ==>
      Members(ps[id := Unlinked(p)], EdgeKey(), j) == Members(base, EdgeKey(), j) {
      MembersPut(base, EdgeKey(), id, Unlinked(p), j);
      OwnBucket(base, EdgeKey(), p.ref, j);
    }
  }

  /** Detaching a record and refreshing the parent it names. The refresh reads the record before its
      fields are cleared, and finds the same live children as afterwards. */
  lemma DetachExact(ps: Programs, base: Programs, index: EdgeIndex, caches: Caches, id: ProgramId)
    requires OwnIds(ps) && id in ps
    requires base == ps || base == ps[id := Unlinked(ps[id])]
    requires Exact(base, index, caches, {})
    ensures var k := ps[id].parent;
      var index' := Detach(index, k, ps[id].ref);
      Exact(ps[id := Unlinked(ps[id])], index', if k.None? then caches else Refreshed(ps, index', caches, k.value), {})
  {
    hide Index, Detach, Members;
    var k := ps[id].parent;
    var unlinked := ps[id := Unlinked(ps[id])];
    DetachIndex(ps, base, id);
    if k.Some? {
      var index' := Detach(index, k, ps[id].ref);
      RefreshExact(unlinked, index', caches, k.value, {});
      assert LiveChildren(ps, index', k.value) == LiveChildren(unlinked, index', k.value) by {
        IndexBucket(unlinked, EdgeKey(), k.value);
        OwnBucket(unlinked, EdgeKey(), ps[id].ref, k.value);
      }
      assert {} - {k.value} == {};
    }
  }

  lemma ChildrenIndexed(ps: Programs, index: EdgeIndex, caches: Caches, k: ProgramId)
    requires Exact(ps, index, caches, {})
    ensures forall x | x in ps && EdgeKey()(ps[x]) == Some(k) :: ps[x].ref in Bucket(index, k)
  {
    IndexBucket(ps, EdgeKey(), k);
  }

  /** A departing record without an edge, after which its children are orphaned. */
  lemma DepartExact(ps: Programs, index: EdgeIndex, caches: Caches, id: ProgramId)
    requires OwnIds(ps) && id in ps && EdgeKey()(ps[id]) == None
    requires Exact(ps, index, caches, {})
    ensures Exact(Orphaned(ps - {id}, id), index - {id}, caches - {id}, {})
  {
    var rest := ps - {id};
    IndexDrop(ps, EdgeKey(), id);
    OrphanedIndex(rest, id);
    forall k ensures k != id ==> Members(Orphaned(rest, id), EdgeKey(), k) == Members(ps, EdgeKey(), k) {
      IndexBucket(ps, EdgeKey(), k);
      IndexBucket(rest, EdgeKey(), k);
      IndexBucket(Orphaned(rest, id), EdgeKey(), k);
    }
  }
}

/** `ProgramRegistry`: live records, generations, and the two incrementally kept indexes. */
module ProgramRegistryModel {
  import opened Wrappers
  import opened Domain
  import opened ProgramIndex
  import opened RegistrySpec
  import opened BlockingEdges

  class ProgramRegistry {
    var programs: Programs
    var lastGenerations: map<ProgramId, nat>
    var taskPrograms: map<TaskId, set<ProgramRef>>
    var childrenByParent: EdgeIndex
    var blocking: Caches

    function Abs(): Registry
      reads this
    {
      Registry(programs, lastGenerations)
    }

    /** Both indexes and both relation caches equal what the live Programs imply. */
    ghost predicate Valid()
      reads this
    {
      && WellFormed(Abs())
      && taskPrograms == Index(programs, TaskKey())
      && Exact(programs, childrenByParent, blocking, {})
    }

    constructor ()
      ensures Valid() && Abs() == Registry(map[], map[])
    {
      programs, lastGenerations, taskPrograms, childrenByParent, blocking := map[], map[], map[], map[], map[];
      new;
      IndexIs(map[], TaskKey(), map[]);
      IndexIs(map[], EdgeKey(), map[]);
    }

    /** The record named by an exact live reference. */
    function Get(ref: ProgramRef): (p: Option<Program>)
      reads this
      ensures p.Some? <==> Live(Abs(), ref)
      ensures p.Some? ==> p.value.ref == ref
    {
      if ref.programId in programs && programs[ref.programId].ref == ref then Some(programs[ref.programId]) else None
    }

    method Materialize(m: AgentIdentity, initial: ProgramState) returns (r: Result<(ProgramRef, bool), string>)
      requires Valid() && initial != TERMINATED
      modifies this
      ensures Valid()
      ensures r.Err? <==> TaskConflict(old(Abs()), m)
      ensures r.Err? ==> Abs() == old(Abs())
      ensures r.Ok? ==>
        && Abs() == Materialized(old(Abs()), m, initial)
        && r.value == (programs[m.programId].ref, m.programId !in old(programs))
    {
      var id := m.programId;
      if id in programs {
        var ok := ApplyMetadata(id, m);
        return if ok then Ok((programs[id].ref, false)) else Err("task_id cannot change within one Program generation");
      }
      var ref := Create(m, initial);
      r := Ok((ref, true));
    }

    /** A record with a fresh generation, entered in both indexes. */
    method Create(m: AgentIdentity, initial: ProgramState) returns (ref: ProgramRef)
      requires Valid() && initial != TERMINATED && m.programId !in programs
      modifies this
      ensures Valid() && Abs() == Materialized(old(Abs()), m, initial)
      ensures ref == programs[m.programId].ref
    {
      MaterializedWellFormed(Abs(), m, initial);
      var p := NewProgram(Abs(), m, initial);
      assert p.parent != Some(m.programId) && p.ref.programId == m.programId;
      hide Exact, Index, WellFormed, Indexed, NewProgram;
      IsIndexed();
      lastGenerations := lastGenerations[m.programId := p.ref.generation];
      Enter(p);
      ShowIndexed();
      ref := p.ref;
    }

    method Enter(p: Program)
      requires Indexed() && p.ref.programId !in programs && p.parent != Some(p.ref.programId)
      modifies `programs, `taskPrograms, `childrenByParent, `blocking
      ensures Indexed() && programs == old(programs)[p.ref.programId := p]
    {
      hide Index, Members, Exact, Attach, EdgeKey, TaskKey;
      var id := p.ref.programId;
      ghost var before, caches := programs, blocking;
      SameKeys(before, childrenByParent, caches);
      programs := programs[id := p];
      blocking := blocking[id := Blocking({}, false)];
      IndexAttach(before, TaskKey(), id, p);
      TaskKeyIs(p);
      AttachTask(p);
      assert before == programs - {id} && caches == blocking - {id};
      LinkNew(id);
    }

    lemma SameKeys(ps: Programs, index: EdgeIndex, caches: Caches)
      requires Exact(ps, index, caches, {})
      ensures caches.Keys == ps.Keys
    {
    }

    lemma TaskKeyIs(p: Program)
      ensures TaskKey()(p) == p.task
    {
    }

    /** Joins a new record to its parent and collects the children that arrived before it. */
    method LinkNew(id: ProgramId)
      requires OwnIds(programs) && id in programs && programs[id].parent != Some(id)
      requires id in blocking && blocking[id] == Blocking({}, false)
      requires Exact(programs - {id}, childrenByParent, blocking - {id}, {})
      modifies `childrenByParent, `blocking
      ensures Exact(programs, childrenByParent, blocking, {})
    {
      hide Index, Members, Exact, Refreshed, Attach, Detach, Unlinked, EdgeKey;
      var p := programs[id];
      ghost var before, caches := programs - {id}, blocking - {id};
      UnlinkedKey(p);
      NewRecord(before, childrenByParent, caches, Unlinked(p), Blocking({}, false));
      assert before[id := Unlinked(p)] == programs[id := Unlinked(p)];
      assert caches[id := Blocking({}, false)] == blocking;
      AttachExact(programs, childrenByParent, blocking, id, {id});
      AttachParentEdge(p);
      KeyIsParent(p);
      assert {id} + {id} == {id} && {id} - {id} == {} && (p.parent.Some? ==> {id} - {p.parent.value} == {id});
      RefreshExact(programs, childrenByParent, blocking, id, {id});
      RefreshParent(id);
    }

    lemma UnlinkedKey(p: Program)
      ensures EdgeKey()(Unlinked(p)) == None && Unlinked(p).ref == p.ref
    {
    }

    lemma KeyIsParent(p: Program)
      ensures EdgeKey()(p).Some? ==> EdgeKey()(p) == p.parent
    {
    }

    method AttachTask(p: Program)
      modifies `taskPrograms
      ensures taskPrograms == Attach(old(taskPrograms), p.task, p.ref)
    {
      if p.task.Some? {
        taskPrograms := taskPrograms[p.task.value := Bucket(taskPrograms, p.task.value) + {p.ref}];
      }
    }

    method DetachTask(p: Program)
      modifies `taskPrograms
      ensures taskPrograms == Detach(old(taskPrograms), p.task, p.ref)
    {
      if p.task.None? || p.task.value !in taskPrograms { return; }
      var refs := taskPrograms[p.task.value] - {p.ref};
      taskPrograms := if refs == {} then taskPrograms - {p.task.value} else taskPrograms[p.task.value := refs];
    }

    method RefreshParent(parent: ProgramId)
      modifies `blocking
      ensures blocking == Refreshed(programs, childrenByParent, old(blocking), parent)
    {
      if parent !in programs { return; }
      var live := set c | c in Bucket(childrenByParent, parent) && IsLiveChild(programs, c, parent);
      blocking := blocking[parent := Blocking(live, live != {})];
    }

    method AttachParentEdge(child: Program)
      modifies `childrenByParent, `blocking
      ensures var k := EdgeKey()(child);
        && childrenByParent == Attach(old(childrenByParent), k, child.ref)
        && blocking == if k.None? then old(blocking)
                       else Refreshed(programs, childrenByParent, old(blocking), k.value)
    {
      if !child.blocksParent || child.parent.None? { return; }
      var parent := child.parent.value;
      childrenByParent := childrenByParent[parent := Bucket(childrenByParent, parent) + {child.ref}];
      RefreshParent(parent);
    }

    method DetachParentEdge(child: Program)
      modifies `childrenByParent, `blocking
      ensures var k := child.parent;
        && childrenByParent == Detach(old(childrenByParent), k, child.ref)
        && blocking == if k.None? then old(blocking)
                       else Refreshed(programs, childrenByParent, old(blocking), k.value)
    {
      if child.parent.None? { return; }
      var parent := child.parent.value;
      if parent in childrenByParent {
        var refs := childrenByParent[parent] - {child.ref};
        childrenByParent := if refs == {} then childrenByParent - {parent} else childrenByParent[parent := refs];
      }
      RefreshParent(parent);
    }

    method ApplyMetadata(id: ProgramId, m: AgentIdentity) returns (ok: bool)
      requires Valid() && id in programs && m.programId == id
      modifies this
      ensures Valid()
      ensures ok <==> !TaskConflict(old(Abs()), m)
      ensures Abs() == if ok then Materialized(old(Abs()), m, PAUSED) else old(Abs())
    {
      if m.task.Some? && programs[id].task.Some? && programs[id].task != m.task { return false; }
      MaterializedWellFormed(Abs(), m, PAUSED);
      hide Exact, Index, WellFormed, Indexed;
      IsIndexed();
      Update(id, m);
      ShowIndexed();
      ok := true;
    }

    /** The task and relation fields of a record that belongs to no other task. */
    method Update(id: ProgramId, m: AgentIdentity)
      requires Indexed() && id in programs && m.programId == id
      modifies `programs, `taskPrograms, `childrenByParent, `blocking
      ensures Indexed()
      ensures programs == old(programs)[id := old(programs)[id].(
        task := if m.task.Some? && old(programs)[id].task.None? then m.task else old(programs)[id].task,
        parent := m.parent, blocksParent := m.blocksParent, expectedResume := m.expectedResume)]
    {
      hide Index, Members, Exact, Unlinked, EdgeKey, TaskKey;
      if m.task.Some? && programs[id].task.None? {
        AdoptTask(id, m.task.value);
      }
      ApplyRelation(id, m);
    }

    method ApplyRelation(id: ProgramId, m: AgentIdentity)
      requires OwnIds(programs) && id in programs
      requires taskPrograms == Index(programs, TaskKey()) && Exact(programs, childrenByParent, blocking, {})
      modifies `programs, `childrenByParent, `blocking
      ensures id in programs && programs == old(programs)[id := programs[id]]
      ensures programs[id] == old(programs)[id].(
        parent := m.parent, blocksParent := m.blocksParent, expectedResume := m.expectedResume)
      ensures taskPrograms == Index(programs, TaskKey()) && Exact(programs, childrenByParent, blocking, {})
    {
      hide Index, Members, Exact, EdgeKey;
      ghost var ps0 := programs;
      Relink(id, m);
      assert !(programs[id].blocksParent && programs[id].parent.None?);
      IndexSame(ps0, programs, TaskKey());
      SetExpectation(id, m.expectedResume);
    }

    method SetExpectation(id: ProgramId, expectedResume: bool)
      requires id in programs
      requires taskPrograms == Index(programs, TaskKey()) && Exact(programs, childrenByParent, blocking, {})
      modifies `programs
      ensures programs == old(programs)[id := old(programs)[id].(expectedResume := expectedResume)]
      ensures taskPrograms == Index(programs, TaskKey()) && Exact(programs, childrenByParent, blocking, {})
    {
      hide Index, Members, Exact;
      programs := programs[id := programs[id].(expectedResume := expectedResume)];
      IndexSame(old(programs), programs, TaskKey());
      SameEdges(old(programs), programs, childrenByParent, blocking, {});
    }

    /** A Program without a task joins the one it is told about. */
    method AdoptTask(id: ProgramId, task: TaskId)
      requires OwnIds(programs) && id in programs && programs[id].task.None?
      requires taskPrograms == Index(programs, TaskKey()) && Exact(programs, childrenByParent, blocking, {})
      modifies `programs, `taskPrograms
      ensures programs == old(programs)[id := old(programs)[id].(task := Some(task))]
      ensures taskPrograms == Index(programs, TaskKey()) && Exact(programs, childrenByParent, blocking, {})
    {
      hide Index, Members, Exact, Attach;
      var p := programs[id].(task := Some(task));
      IndexAttach(programs, TaskKey(), id, p);
      programs := programs[id := p];
      AttachTask(p);
      SameEdges(old(programs), programs, childrenByParent, blocking, {});
    }

    /** The relation half of applying metadata: leave the old parent, then join the new one. */
    method Relink(id: ProgramId, m: AgentIdentity)
      requires OwnIds(programs) && id in programs && Exact(programs, childrenByParent, blocking, {})
      modifies `programs, `childrenByParent, `blocking
      ensures programs == old(programs)[id := old(programs)[id].(parent := m.parent, blocksParent := m.blocksParent)]
      ensures Exact(programs, childrenByParent, blocking, {})
    {
      hide Index, Members, Exact, Refreshed, Attach, Detach, Unlinked, EdgeKey;
      var moved := ChangeParent(id, m.parent);
      var changed := ChangeBlocking(id, m.blocksParent, moved);
      if changed {
        AttachExact(programs, childrenByParent, blocking, id, {});
        ghost var k := EdgeKey()(programs[id]);
        assert k.Some? ==> {} - {k.value} == {};
        AttachParentEdge(programs[id]);
      }
    }

    /** The stored record with its edge hidden while a relation change is under way. */
    ghost function Base(id: ProgramId, changed: bool): Programs
      requires id in programs
      reads this
    {
      if changed then programs[id := Unlinked(programs[id])] else programs
    }

    method ChangeParent(id: ProgramId, parent: Option<ProgramId>) returns (changed: bool)
      requires OwnIds(programs) && id in programs && Exact(programs, childrenByParent, blocking, {})
      modifies `programs, `childrenByParent, `blocking
      ensures programs == old(programs)[id := old(programs)[id].(parent := parent)]
      ensures Exact(Base(id, changed), childrenByParent, blocking, {})
      ensures !changed ==> programs == old(programs)
    {
      hide Index, Members, Exact, Refreshed, Attach, Detach;
      var p := programs[id];
      changed := parent != p.parent;
      if changed {
        DetachExact(programs, programs, childrenByParent, blocking, id);
        DetachParentEdge(p);
        programs := programs[id := p.(parent := parent)];
        assert programs[id := Unlinked(programs[id])] == old(programs)[id := Unlinked(p)];
      } else {
        assert programs == programs[id := p.(parent := parent)];
      }
    }

    method ChangeBlocking(id: ProgramId, blocks: bool, moved: bool) returns (changed: bool)
      requires OwnIds(programs) && id in programs && Exact(Base(id, moved), childrenByParent, blocking, {})
      modifies `programs, `childrenByParent, `blocking
      ensures programs == old(programs)[id := old(programs)[id].(blocksParent := blocks)]
      ensures Exact(Base(id, changed), childrenByParent, blocking, {})
      ensures !changed ==> programs == old(programs) && !moved
    {
      hide Index, Members, Exact, Refreshed, Attach, Detach, Unlinked, EdgeKey;
      var p := programs[id];
      changed := moved || blocks != p.blocksParent;
      if blocks != p.blocksParent {
        ghost var base := Base(id, moved);
        if !blocks {
          DetachExact(programs, base, childrenByParent, blocking, id);
          DetachParentEdge(p);
        } else {
          NoEdge(programs, base, childrenByParent, blocking, id);
        }
        programs := programs[id := p.(blocksParent := blocks)];
        UnlinkedIgnores(p, blocks);
        assert programs[id := Unlinked(programs[id])] == old(programs)[id := Unlinked(p)];
      } else {
        assert programs == programs[id := p.(blocksParent := blocks)];
      }
    }

    /** A record that does not block has no edge to hide. */
    lemma NoEdge(ps: Programs, base: Programs, index: EdgeIndex, caches: Caches, id: ProgramId)
      requires id in ps && !ps[id].blocksParent && (base == ps || base == ps[id := Unlinked(ps[id])])
      requires Exact(base, index, caches, {})
      ensures Exact(ps[id := Unlinked(ps[id])], index, caches, {})
    {
      SameEdges(base, ps[id := Unlinked(ps[id])], index, caches, {});
    }

    lemma UnlinkedIgnores(p: Program, blocks: bool)
      ensures Unlinked(p.(blocksParent := blocks)) == Unlinked(p)
    {
    }

    /** Removes one exact generation; a stale reference changes nothing. */
    method Release(ref: ProgramRef) returns (released: bool)
      requires Valid()
      modifies this
      ensures Valid()
      ensures released == Live(old(Abs()), ref)
      ensures Abs() == Released(old(Abs()), ref)
    {
      if Get(ref).None? { return false; }
      ReleasedWellFormed(Abs(), ref);
      hide Exact, Index, Orphaned, WellFormed, Indexed;
      IsIndexed();
      Discard(ref.programId);
      released := true;
      ShowIndexed();
    }

    /** Both indexes agree with the records, whose ids are their keys. */
    ghost predicate Indexed()
      reads `programs, `taskPrograms, `childrenByParent, `blocking
    {
      && OwnIds(programs) && taskPrograms == Index(programs, TaskKey())
      && Exact(programs, childrenByParent, blocking, {})
    }

    lemma IsIndexed()
      requires Valid()
      ensures Indexed()
    {
      hide Exact, Index;
    }

    lemma ShowIndexed()
      requires Indexed()
      ensures taskPrograms == Index(programs, TaskKey()) && Exact(programs, childrenByParent, blocking, {})
    {
    }

    /** Removes a live record, takes it out of both indexes and orphans its children. */
    method Discard(id: ProgramId)
      requires Indexed() && id in programs
      modifies `programs, `taskPrograms, `childrenByParent, `blocking
      ensures Indexed() && programs == Orphaned(old(programs) - {id}, id)
    {
      hide Index, Members, Exact, Unlinked, EdgeKey, TaskKey;
      ghost var ps0 := programs;
      OrphanedOwn(ps0 - {id}, id);
      hide Orphaned;
      Unindex(id);
      OrphanedIndex(ps0 - {id}, id);
      Depart(id);
    }

    lemma OrphanedOwn(ps: Programs, parent: ProgramId)
      ensures OwnIds(ps) ==> OwnIds(Orphaned(ps, parent))
    {
    }

    /** Drops an unindexed record and orphans its children. */
    method Depart(id: ProgramId)
      requires OwnIds(programs) && id in programs
      requires Exact(programs[id := Unlinked(programs[id])], childrenByParent, blocking, {})
      modifies `programs, `childrenByParent, `blocking
      ensures programs == Orphaned(old(programs) - {id}, id)
      ensures Exact(programs, childrenByParent, blocking, {})
    {
      hide Index, Members, Exact;
      ghost var ps0 := programs;
      ghost var unlinked := ps0[id := Unlinked(ps0[id])];
      DepartExact(unlinked, childrenByParent, blocking, id);
      assert unlinked - {id} == ps0 - {id};
      ChildrenIndexed(unlinked, childrenByParent, blocking, id);
      var children := Bucket(childrenByParent, id);
      childrenByParent := childrenByParent - {id};
      hide Bucket, OwnIds;
      OrphanChildren(id, children);
      OrphanedIs(ps0, id, children, programs);
      programs := programs - {id};
      blocking := blocking - {id};
    }

    /** Clearing the children found in the index orphans exactly the departing parent's children. */
    lemma OrphanedIs(ps: Programs, id: ProgramId, children: set<ProgramRef>, cleared: Programs)
      requires id in ps && cleared.Keys == ps.Keys
      requires var unlinked := ps[id := Unlinked(ps[id])];
        forall x | x in unlinked && EdgeKey()(unlinked[x]) == Some(id) :: unlinked[x].ref in children
      requires forall x | x in cleared ::
        cleared[x] == if ps[x].ref in children && EdgeKey()(ps[x]) == Some(id) then Unlinked(ps[x]) else ps[x]
      ensures cleared - {id} == Orphaned(ps - {id}, id)
    {
      var left, orphaned := cleared - {id}, Orphaned(ps - {id}, id);
      forall x | x in ps && x != id ensures left[x] == orphaned[x] {
        assert ps[id := Unlinked(ps[id])][x] == ps[x];
      }
      assert left.Keys == orphaned.Keys;
    }

    /** Takes a departing record out of both indexes. */
    method Unindex(id: ProgramId)
      requires OwnIds(programs) && id in programs
      requires taskPrograms == Index(programs, TaskKey()) && Exact(programs, childrenByParent, blocking, {})
      modifies `taskPrograms, `childrenByParent, `blocking
      ensures taskPrograms == Index(programs - {id}, TaskKey())
      ensures Exact(programs[id := Unlinked(programs[id])], childrenByParent, blocking, {})
    {
      hide Index, Members, Exact, Refreshed, Attach, Detach;
      var program := programs[id];
      ghost var idle := programs[id := program.(task := None)];
      IndexDetach(programs, TaskKey(), id, program.(task := None));
      IndexDrop(idle, TaskKey(), id);
      assert idle - {id} == programs - {id};
      DetachTask(program);
      DetachExact(programs, programs, childrenByParent, blocking, id);
      DetachParentEdge(program);
    }

    /** Clears the edge of every live child of a departing parent. */
    method OrphanChildren(parent: ProgramId, children: set<ProgramRef>)
      requires OwnIds(programs)
      modifies `programs
      ensures programs.Keys == old(programs).Keys
      ensures forall x | x in programs ::
        programs[x] == if old(programs)[x].ref in children && EdgeKey()(old(programs)[x]) == Some(parent)
                       then Unlinked(old(programs)[x]) else old(programs)[x]
    {
      var todo := children;
      while todo != {}
        invariant todo <= children && programs.Keys == old(programs).Keys
        invariant forall x | x in programs ::
          programs[x] == if old(programs)[x].ref in children - todo && EdgeKey()(old(programs)[x]) == Some(parent)
                         then Unlinked(old(programs)[x]) else old(programs)[x]
        decreases todo
      {
        var c :| c in todo;
        todo := todo - {c};
        if IsLiveChild(programs, c, parent) {
          programs := programs[c.programId := Unlinked(programs[c.programId])];
        }
      }
    }

    /** The scheduler's in-place writes to one live record; identity and relations are not touched. */
    method Store(p: Program)
      requires Valid() && Live(Abs(), p.ref) && p.state != TERMINATED
      requires var q := programs[p.ref.programId];
        q.task == p.task && q.parent == p.parent && q.blocksParent == p.blocksParent
      modifies `programs
      ensures Valid() && Abs() == WithRecord(old(Abs()), p)
    {
      StoredWellFormed(Abs(), p);
      hide WellFormed, Exact, Index;
      ghost var ps0 := programs;
      programs := programs[p.ref.programId := p];
      IndexSame(ps0, programs, TaskKey());
      SameEdges(ps0, programs, childrenByParent, blocking, {});
    }

    /** Current members of one task, read from the index. */
    method TaskPrograms(task: TaskId) returns (refs: set<ProgramRef>)
      requires Valid()
      ensures refs == set id | id in programs && programs[id].task == Some(task) :: programs[id].ref
    {
      IndexBucket(programs, TaskKey(), task);
      refs := set c | c in Bucket(taskPrograms, task) && Get(c).Some?;
    }
  }
}
