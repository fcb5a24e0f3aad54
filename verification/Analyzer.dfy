/** Historical rows, the requests inferred from them, and the orders the sweeps use. Keys and actors are used
    through equality and order only; timestamps are microseconds. */
module ReplaySchema {
  import opened Wrappers

  type Key = int
  type ActorId = int
  type Time = int

  /** The actor called "lead", assumed when no row carries the lead role. */
  const LEAD_ACTOR: ActorId := 0

  datatype Status = SUCCESS | UNKNOWN | FAILED
  datatype Role = LEAD | SUBAGENT | OTHER_ROLE
  datatype PromptKind = LEAD_TITLE | LEAD_NAME | LEAD_MAIN | SUBAGENT_FIRST | CONTINUATION | NONE
  datatype DependencyKind =
    | SESSION_ROOT | SAME_AGENT | PARENT_TO_SUBAGENT | BLOCKING_SUBAGENT_TO_PARENT | CROSS_AGENT_COMPLETION

  datatype Row = Row(
    key: Key, actor: ActorId, role: Role, started: Time, finished: Time,
    input: Option<int>, output: Option<int>, cached: Option<int>, status: Status)

  datatype Request = Request(
    key: Key, actor: ActorId, role: Role, parent: Option<ActorId>, started: Time, finished: Time, status: Status,
    cached: Option<int>, input: Option<int>, output: Option<int>, isRequest: bool, promptKind: PromptKind,
    retryMatch: Option<Key>, recipeKey: Key, sendAfter: Option<Key>, contextAfter: Option<Key>,
    delay: int, dependency: DependencyKind, sameAgentGap: Option<int>, parallel: seq<Key>)

  type Kinds = map<Key, PromptKind>

  predicate ContextFree(k: PromptKind) {
    k == LEAD_TITLE || k == LEAD_NAME
  }

  function Tokens(r: Row): Option<(int, int)> {
    if r.input.Some? && r.output.Some? then Some((r.input.value, r.output.value)) else None
  }

  predicate Overlap(a: Row, b: Row) {
    a.started < b.finished && b.started < a.finished
  }

  /** Order of completion: by finish time, then by key. */
  predicate Later(a: Row, b: Row) {
    a.finished > b.finished || (a.finished == b.finished && a.key > b.key)
  }

  /** The session's sort order. */
  predicate RowLeq(a: Row, b: Row) {
    || a.started < b.started
    || (a.started == b.started && (a.finished < b.finished || (a.finished == b.finished && a.key <= b.key)))
  }

  /** What reading a row has established about it. */
  ghost predicate RowOk(r: Row) {
    && r.started <= r.finished
    && (r.input.Some? ==> r.input.value > 0)
    && (r.output.Some? ==> r.output.value > 0)
    && (r.cached.Some? ==> r.cached.value >= 0)
  }

  ghost predicate DistinctKeys(rows: seq<Row>) {
    forall i, j | 0 <= i < j < |rows| :: rows[i].key != rows[j].key
  }

  /** A session's rows in sort order, as the sweeps receive them. */
  ghost predicate SortedRows(rows: seq<Row>) {
    && DistinctKeys(rows)
    && (forall i | 0 <= i < |rows| :: RowOk(rows[i]))
    && (forall i, j | 0 <= i < j < |rows| :: RowLeq(rows[i], rows[j]))
  }

  ghost predicate KindsCover(rows: seq<Row>, kinds: Kinds) {
    forall i | 0 <= i < |rows| :: rows[i].key in kinds
  }

  lemma KeysDiffer(rows: seq<Row>, i: nat, j: nat)
    requires DistinctKeys(rows) && i < |rows| && j < |rows|
    ensures i != j ==> rows[i].key != rows[j].key
  {
  }

  /** Position of a key among distinct keys. */
  lemma SameRow(rows: seq<Row>, i: nat, j: nat)
    requires DistinctKeys(rows) && i < |rows| && j < |rows| && rows[i].key == rows[j].key
    ensures i == j
  {
  }
}

/** The min-heap of the sweeps, as a bag of rows with distinct keys from which the earliest finish is popped. */
module FinishQueue {
  import opened Sequences
  import opened ReplaySchema

  method PopEarliest(heap: seq<Row>) returns (m: Row, rest: seq<Row>)
    requires heap != [] && NoDup(heap) && DistinctKeys(heap)
    ensures m in heap && (forall x | x in heap :: x == m || Later(x, m))
    ensures NoDup(rest) && DistinctKeys(rest)
    ensures forall x :: x in rest <==> x in heap && x != m
    ensures |rest| == |heap| - 1
  {
    var best := 0;
    for i := 1 to |heap|
      invariant 0 <= best < i
      invariant forall j | 0 <= j < i && j != best :: Later(heap[j], heap[best])
    {
      if Later(heap[best], heap[i]) { best := i; }
    }
    m := heap[best];
    rest := heap[..best] + heap[best + 1..];
    assert heap == heap[..best] + [m] + heap[best + 1..];
  }
}

/** `_parallel_keys`: the active-set sweep over sorted rows. */
module ParallelSweep {
  import opened Sequences
  import opened Indexing
  import opened ReplaySchema
  import opened FinishQueue

  function Overlapping(r: Row): Row -> bool {
    (x: Row) => x.key != r.key && Overlap(x, r)
  }

  function StartsBefore(t: Time): Row -> bool {
    (x: Row) => x.started < t
  }

  function Inside(xs: set<Row>): Row -> bool {
    (x: Row) => x in xs
  }

  function KeysOf(rows: seq<Row>): seq<Key> {
    if rows == [] then [] else KeysOf(rows[..|rows| - 1]) + [rows[|rows| - 1].key]
  }

  /** Every row knows exactly its overlaps. */
  ghost predicate ParallelTable(rows: seq<Row>, overlaps: map<Key, seq<Key>>) {
    && overlaps.Keys == KeySet(rows)
    && forall i | 0 <= i < |rows| :: rows[i].key in overlaps && overlaps[rows[i].key] == ParallelOf(rows, i)
  }

  function KeySet(rows: seq<Row>): (keys: set<Key>)
    ensures forall i | 0 <= i < |rows| :: rows[i].key in keys
  {
    set i | 0 <= i < |rows| :: rows[i].key
  }

  /** The rows of the whole session that overlap row `i`, in sort order. */
  function ParallelOf(rows: seq<Row>, i: nat): seq<Key>
    requires i < |rows|
  {
    KeysOf(Filter(rows, Overlapping(rows[i])))
  }

  lemma {:induction false} KeysMembers(rows: seq<Row>)
    ensures forall k :: k in KeysOf(rows) <==> exists j :: 0 <= j < |rows| && rows[j].key == k
    ensures DistinctKeys(rows) ==> NoDup(KeysOf(rows))
    ensures |KeysOf(rows)| == |rows|
  {
    if rows != [] {
      var init := rows[..|rows| - 1];
      KeysMembers(init);
      forall k | k in KeysOf(init) ensures exists j :: 0 <= j < |rows| - 1 && rows[j].key == k {
        var j :| 0 <= j < |init| && init[j].key == k;
        assert rows[j].key == k;
      }
      forall j | 0 <= j < |rows| ensures rows[j].key in KeysOf(rows) {
        if j < |init| { assert init[j].key == rows[j].key; }
      }
      if DistinctKeys(rows) {
        assert DistinctKeys(init);
        forall m | 0 <= m < |init| ensures KeysOf(init)[m] != rows[|rows| - 1].key {
          assert KeysOf(init)[m] in KeysOf(init);
          var j :| 0 <= j < |init| && init[j].key == KeysOf(init)[m];
          assert rows[j].key != rows[|rows| - 1].key;
        }
      }
    }
  }

  function RowKey(): Row -> Key {
    (r: Row) => r.key
  }

  /** What the result means: exactly the other overlapping rows, without duplicates. */
  lemma ParallelMeaning(rows: seq<Row>, i: nat)
    requires SortedRows(rows) && i < |rows|
    ensures NoDup(ParallelOf(rows, i))
    ensures forall j | 0 <= j < |rows| :: rows[j].key in ParallelOf(rows, i) <==> j != i && Overlap(rows[j], rows[i])
    ensures forall k | k in ParallelOf(rows, i) :: exists j :: 0 <= j < |rows| && rows[j].key == k
  {
    var kept := Filter(rows, Overlapping(rows[i]));
    FilterMembers(rows, Overlapping(rows[i]));
    assert DistinctBy(rows, RowKey());
    FilterDistinctBy(rows, RowKey(), Overlapping(rows[i]));
    assert forall j | 0 <= j < |kept| :: RowKey()(kept[j]) == kept[j].key;
    KeysMembers(kept);
    forall j | 0 <= j < |rows| && rows[j].key in ParallelOf(rows, i) ensures j != i && Overlap(rows[j], rows[i]) {
      var m :| 0 <= m < |kept| && kept[m].key == rows[j].key;
      assert kept[m] in rows && Overlapping(rows[i])(kept[m]);
      var n :| 0 <= n < |rows| && rows[n] == kept[m];
      SameRow(rows, n, j);
    }
    forall j | 0 <= j < |rows| && j != i && Overlap(rows[j], rows[i]) ensures rows[j].key in ParallelOf(rows, i) {
      KeysDiffer(rows, i, j);
      assert rows[j] in rows && Overlapping(rows[i])(rows[j]);
      var m :| 0 <= m < |kept| && kept[m] == rows[j];
    }
    forall k | k in ParallelOf(rows, i) ensures exists j :: 0 <= j < |rows| && rows[j].key == k {
      var m :| 0 <= m < |kept| && kept[m].key == k;
      assert kept[m] in rows;
    }
  }

  /** The relation the sweep computes is symmetric. */
  lemma ParallelSymmetric(rows: seq<Row>, i: nat, j: nat)
    requires SortedRows(rows) && i < |rows| && j < |rows|
    ensures rows[j].key in ParallelOf(rows, i) <==> rows[i].key in ParallelOf(rows, j)
  {
    ParallelMeaning(rows, i);
    ParallelMeaning(rows, j);
  }

  /** Rows before position `n` that are still running when row `n` starts. */
  ghost predicate Running(rows: seq<Row>, n: nat, heap: seq<Row>)
    requires n <= |rows|
  {
    && NoDup(heap) && DistinctKeys(heap)
    && (forall x | x in heap :: x in rows[..n])
  }

  /** Pops every row that has finished by the start of row `n`, from the heap and from the active set. */
  method Expire(rows: seq<Row>, n: nat, heap0: seq<Row>, active0: seq<Row>) returns (heap: seq<Row>, active: seq<Row>)
    requires SortedRows(rows) && n < |rows| && Running(rows, n, heap0)
    requires active0 == Filter(rows[..n], Inside(Elems(heap0)))
    requires Expired(rows, n, heap0)
    ensures Running(rows, n, heap)
    ensures active == Filter(rows[..n], Inside(Elems(heap)))
    ensures Drained(rows, n, heap)
  {
    heap, active := heap0, active0;
    while heap != []
      invariant Running(rows, n, heap)
      invariant active == Filter(rows[..n], Inside(Elems(heap)))
      invariant forall i | 0 <= i < n && rows[i] !in heap :: rows[i].finished <= rows[n].started
      decreases |heap|
    {
      var m, rest := PopEarliest(heap);
      if m.finished > rows[n].started { break; }
      FilterFilter(rows[..n], Inside(Elems(heap)), OtherKey(m.key));
      forall x | x in rows[..n] ensures Both(Inside(Elems(heap)), OtherKey(m.key))(x) == Inside(Elems(rest))(x) {
        if x.key == m.key {
          var i, j :| 0 <= i < n && rows[i] == x && 0 <= j < n && rows[j] == m;
          SameRow(rows, i, j);
        }
      }
      FilterAgree(rows[..n], Both(Inside(Elems(heap)), OtherKey(m.key)), Inside(Elems(rest)));
      active := Filter(active, OtherKey(m.key));
      heap := rest;
    }
  }

  function OtherKey(k: Key): Row -> bool {
    (x: Row) => x.key != k
  }

  /** Of the active rows, those that start before row `n` finishes are exactly the earlier rows it overlaps. */
  lemma ActiveOverlaps(rows: seq<Row>, n: nat, heap: seq<Row>, active: seq<Row>)
    requires SortedRows(rows) && n < |rows|
    requires active == Filter(rows[..n], Inside(Elems(heap)))
    requires Drained(rows, n, heap)
    ensures Filter(active, StartsBefore(rows[n].finished)) == Filter(rows[..n], Overlapping(rows[n]))
    ensures forall i | 0 <= i < n :: rows[i] in active <==> rows[i].finished > rows[n].started
    ensures NoDup(active) && forall x | x in active :: x in rows[..n]
  {
    var inside, early := Inside(Elems(heap)), StartsBefore(rows[n].finished);
    FilterFilter(rows[..n], inside, early);
    forall x | x in rows[..n] ensures Both(inside, early)(x) == Overlapping(rows[n])(x) {
      var i :| 0 <= i < n && rows[i] == x;
    }
    FilterAgree(rows[..n], Both(inside, early), Overlapping(rows[n]));
    FilterMembers(rows[..n], inside);
    FilterNoDup(rows[..n], inside);
    forall i | 0 <= i < n ensures rows[i] in active <==> rows[i].finished > rows[n].started {
      assert rows[i] in rows[..n];
      assert inside(rows[i]) <==> rows[i] in heap;
    }
  }

  predicate Hit(active: seq<Row>, x: Row, row: Row) {
    x in active && x.started < row.finished
  }

  lemma KeysFilterSnoc(s: seq<Row>, x: Row, keep: Row -> bool)
    ensures KeysOf(Filter(s + [x], keep)) == KeysOf(Filter(s, keep)) + (if keep(x) then [x.key] else [])
  {
    FilterSnoc(s, x, keep);
    if keep(x) {
      assert (Filter(s, keep) + [x])[..|Filter(s, keep)|] == Filter(s, keep);
    } else {
      assert Filter(s + [x], keep) == Filter(s, keep);
    }
  }

  /** One more active row can only be the row it is. */
  lemma HitSnoc(rows: seq<Row>, n: nat, active: seq<Row>, m: nat)
    requires DistinctKeys(rows) && n < |rows| && NoDup(active) && m < |active|
    requires forall x | x in active :: x in rows[..n]
    ensures exists i :: 0 <= i < n && rows[i] == active[m]
    ensures active[m].key != rows[n].key
    ensures forall i | 0 <= i < |rows| && i != n ::
      && rows[i].key != rows[n].key
      && (rows[i].key == active[m].key ==>
            !Hit(active[..m], rows[i], rows[n])
              && (Hit(active[..m + 1], rows[i], rows[n]) <==> active[m].started < rows[n].finished))
      && (rows[i].key != active[m].key ==>
          (Hit(active[..m + 1], rows[i], rows[n]) <==> Hit(active[..m], rows[i], rows[n])))
  {
    var candidate := active[m];
    assert candidate in active;
    var c :| 0 <= c < n && rows[c] == candidate;
    KeysDiffer(rows, c, n);
    assert active[..m + 1] == active[..m] + [candidate] && candidate !in active[..m];
    forall i | 0 <= i < |rows| && i != n
      ensures rows[i].key != rows[n].key && (rows[i].key == candidate.key <==> rows[i] == candidate)
    {
      KeysDiffer(rows, i, n);
      KeysDiffer(rows, i, c);
    }
  }

  /** Appends the new row to its overlapping active rows, and those rows to the new row. */
  method Record(rows: seq<Row>, n: nat, active: seq<Row>, overlaps0: map<Key, seq<Key>>)
    returns (overlaps: map<Key, seq<Key>>)
    requires DistinctKeys(rows) && n < |rows| && NoDup(active) && forall x | x in active :: x in rows[..n]
    requires (forall i | 0 <= i < |rows| :: rows[i].key in overlaps0) && overlaps0[rows[n].key] == []
    ensures overlaps.Keys == overlaps0.Keys
    ensures overlaps[rows[n].key] == KeysOf(Filter(active, StartsBefore(rows[n].finished)))
    ensures forall i | 0 <= i < |rows| && i != n ::
      overlaps[rows[i].key] == overlaps0[rows[i].key] + (if Hit(active, rows[i], rows[n]) then [rows[n].key] else [])
  {
    var row := rows[n];
    overlaps := overlaps0;
    RecordStart(rows, n, active, overlaps0);
    for m := 0 to |active|
      invariant RecordedSoFar(rows, n, active[..m], overlaps0, overlaps)
    {
      hide *;
      var candidate := active[m];
      LinkKeeps(rows, n, active, m, overlaps0, overlaps);
      if candidate.started < row.finished {
        overlaps := overlaps[candidate.key := overlaps[candidate.key] + [row.key]];
        overlaps := overlaps[row.key := overlaps[row.key] + [candidate.key]];
      }
    }
    assert active[..|active|] == active;
  }

  /** Row `n` has been compared with these active rows. */
  ghost predicate RecordedSoFar(rows: seq<Row>, n: nat, done: seq<Row>, overlaps0: map<Key, seq<Key>>,
                                overlaps: map<Key, seq<Key>>)
    requires n < |rows|
  {
    && overlaps.Keys == overlaps0.Keys && (forall i | 0 <= i < |rows| :: rows[i].key in overlaps)
    && overlaps[rows[n].key] == KeysOf(Filter(done, StartsBefore(rows[n].finished)))
    && forall i | 0 <= i < |rows| && i != n ::
         overlaps[rows[i].key] == overlaps0[rows[i].key] + (if Hit(done, rows[i], rows[n]) then [rows[n].key] else [])
  }

  lemma RecordStart(rows: seq<Row>, n: nat, active: seq<Row>, overlaps0: map<Key, seq<Key>>)
    requires n < |rows| && (forall i | 0 <= i < |rows| :: rows[i].key in overlaps0) && overlaps0[rows[n].key] == []
    ensures RecordedSoFar(rows, n, active[..0], overlaps0, overlaps0)
  {
  }

  /** One comparison: an overlap is appended on both sides. */
  lemma LinkKeeps(rows: seq<Row>, n: nat, active: seq<Row>, m: nat, overlaps0: map<Key, seq<Key>>,
                  overlaps: map<Key, seq<Key>>)
    requires DistinctKeys(rows) && n < |rows| && NoDup(active) && m < |active|
    requires forall x | x in active :: x in rows[..n]
    requires RecordedSoFar(rows, n, active[..m], overlaps0, overlaps)
    ensures active[m].key in overlaps && rows[n].key in overlaps && active[m].key != rows[n].key
    ensures active[m].started >= rows[n].finished ==> RecordedSoFar(rows, n, active[..m + 1], overlaps0, overlaps)
    ensures active[m].started < rows[n].finished ==>
      RecordedSoFar(rows, n, active[..m + 1], overlaps0, Linked(overlaps, active[m].key, rows[n].key))
  {
    var row, candidate := rows[n], active[m];
    HitSnoc(rows, n, active, m);
    assert active[..m + 1] == active[..m] + [candidate];
    KeysFilterSnoc(active[..m], candidate, StartsBefore(row.finished));
    hide Hit, KeysOf, Filter, DistinctKeys, NoDup;
  }

  function Linked(overlaps: map<Key, seq<Key>>, a: Key, b: Key): map<Key, seq<Key>>
    requires a in overlaps && b in overlaps && a != b
  {
    overlaps[a := overlaps[a] + [b]][b := overlaps[b] + [a]]
  }

  /** Pushing row `n` onto heap and active set. */
  lemma ActivePush(rows: seq<Row>, n: nat, heap: seq<Row>, active: seq<Row>)
    requires SortedRows(rows) && n < |rows| && Running(rows, n, heap)
    requires active == Filter(rows[..n], Inside(Elems(heap)))
    ensures Running(rows, n + 1, heap + [rows[n]])
    ensures active + [rows[n]] == Filter(rows[..n + 1], Inside(Elems(heap + [rows[n]])))
  {
    var row := rows[n];
    assert rows[..n + 1] == rows[..n] + [row];
    forall x | x in heap ensures x.key != row.key {
      var i :| 0 <= i < n && rows[i] == x;
    }
    FilterSnoc(rows[..n], row, Inside(Elems(heap + [row])));
    forall x | x in rows[..n] ensures Inside(Elems(heap))(x) == Inside(Elems(heap + [row]))(x) {
      var i :| 0 <= i < n && rows[i] == x;
    }
    FilterAgree(rows[..n], Inside(Elems(heap)), Inside(Elems(heap + [row])));
  }

  /** One recorded row extends every result from the first `n` rows to the first `n + 1`. */
  lemma Extend(rows: seq<Row>, n: nat, i: nat)
    requires DistinctKeys(rows) && n < |rows| && i <= n
    ensures KeysOf(Filter(rows[..n + 1], Overlapping(rows[i])))
         == KeysOf(Filter(rows[..n], Overlapping(rows[i]))) 
             + (if i < n && Overlap(rows[n], rows[i]) then [rows[n].key] else [])
  {
    assert rows[..n + 1] == rows[..n] + [rows[n]];
    KeysFilterSnoc(rows[..n], rows[n], Overlapping(rows[i]));
  }

  method ParallelKeys(rows: seq<Row>) returns (overlaps: map<Key, seq<Key>>)
    requires SortedRows(rows)
    ensures ParallelTable(rows, overlaps)
  {
    hide KeySet, KeysOf, Filter, Running, RowOk, RowLeq, Overlap, DistinctKeys;
    overlaps := map k | k in KeySet(rows) :: [];
    var active: seq<Row> := [];
    var heap: seq<Row> := [];
    SweepStart(rows);
    for n := 0 to |rows|
      invariant overlaps.Keys == KeySet(rows)
      invariant forall i | 0 <= i < n :: overlaps[rows[i].key] == KeysOf(Filter(rows[..n], Overlapping(rows[i])))
      invariant forall i | n <= i < |rows| :: overlaps[rows[i].key] == []
      invariant Running(rows, n, heap)
      invariant active == Filter(rows[..n], Inside(Elems(heap)))
      invariant n < |rows| ==> Expired(rows, n, heap)
    {
      heap, active := Expire(rows, n, heap, active);
      ActiveOverlaps(rows, n, heap, active);
      ghost var prev := overlaps;
      overlaps := Record(rows, n, active, overlaps);
      ActivePush(rows, n, heap, active);
      RecordedAll(rows, n, active, prev, overlaps);
      StillExpired(rows, n, heap);
      active := active + [rows[n]];
      heap := heap + [rows[n]];
    }
    assert rows[..|rows|] == rows;
  }

  lemma SweepStart(rows: seq<Row>)
    ensures Running(rows, 0, [])
    ensures Filter(rows[..0], Inside(Elems([]))) == []
    ensures |rows| > 0 ==> Expired(rows, 0, [])
  {
  }

  /** Everything that has left the heap had finished by the start of row `n`. */
  ghost predicate Expired(rows: seq<Row>, n: nat, heap: seq<Row>)
    requires n < |rows|
  {
    forall i | 0 <= i < n && rows[i] !in heap :: rows[i].finished <= rows[n].started
  }

  /** The heap holds exactly the earlier rows that are still running at the start of row `n`. */
  ghost predicate Drained(rows: seq<Row>, n: nat, heap: seq<Row>)
    requires n < |rows|
  {
    forall i | 0 <= i < n :: rows[i] in heap <==> rows[i].finished > rows[n].started
  }

  lemma StillExpired(rows: seq<Row>, n: nat, heap: seq<Row>)
    requires SortedRows(rows) && n < |rows| && Drained(rows, n, heap)
    ensures n + 1 < |rows| ==> Expired(rows, n + 1, heap + [rows[n]])
  {
    if n + 1 < |rows| { assert RowLeq(rows[n], rows[n + 1]); }
  }

  /** After recording row `n`, every processed row knows its overlaps among the first `n + 1` rows. */
  lemma RecordedAll(rows: seq<Row>, n: nat, active: seq<Row>, prev: map<Key, seq<Key>>, next: map<Key, seq<Key>>)
    requires SortedRows(rows) && n < |rows|
    requires (forall i | 0 <= i < |rows| :: rows[i].key in prev && rows[i].key in next)
    requires forall i | 0 <= i < n :: prev[rows[i].key] == KeysOf(Filter(rows[..n], Overlapping(rows[i])))
    requires forall i | 0 <= i < n :: rows[i] in active <==> rows[i].finished > rows[n].started
    requires forall i | n < i < |rows| :: prev[rows[i].key] == []
    requires forall x | x in active :: x in rows[..n]
    requires next[rows[n].key] == KeysOf(Filter(rows[..n], Overlapping(rows[n])))
    requires forall i | 0 <= i < |rows| && i != n ::
      next[rows[i].key] == prev[rows[i].key] + (if Hit(active, rows[i], rows[n]) then [rows[n].key] else [])
    ensures forall i | 0 <= i <= n :: next[rows[i].key] == KeysOf(Filter(rows[..n + 1], Overlapping(rows[i])))
    ensures forall i | n < i < |rows| :: next[rows[i].key] == []
  {
    forall i | n < i < |rows| ensures rows[i] !in active {
    }
    forall i | 0 <= i <= n ensures next[rows[i].key] == KeysOf(Filter(rows[..n + 1], Overlapping(rows[i]))) {
      Extend(rows, n, i);
      assert i < n ==> (Hit(active, rows[i], rows[n]) <==> Overlap(rows[n], rows[i]));
    }
  }
}
