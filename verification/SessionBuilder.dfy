/** The declarative meaning of the completion sweep: latest completed rows before a start time. */
module CompletionOrder {
  import opened Wrappers
  import opened ReplaySchema

  type Choice = Row -> bool

  function AnyRow(): Choice { (x: Row) => true }

  function OfActor(a: ActorId): Choice { (x: Row) => x.actor == a }

  /** Usable successes of one actor: replayable tokens and a prompt kind that carries context. */
  function UsableOf(a: ActorId, resolved: set<Key>, kinds: Kinds): Choice {
    (x: Row) => x.actor == a && x.status == SUCCESS && x.key in resolved && x.key in kinds && !ContextFree(kinds[x.key])
  }

  /** The last-finishing chosen row among those that finished by `start`. */
  function LatestBefore(prior: seq<Row>, start: Time, sel: Choice): Option<Row> {
    if prior == [] then None
    else
      var best, last := LatestBefore(prior[..|prior| - 1], start, sel), prior[|prior| - 1];
      if last.finished <= start && sel(last) && (best.None? || Later(last, best.value)) then Some(last) else best
  }

  /** `r` is the maximum by (finish, key) of the chosen members of `done`. */
  ghost predicate IsLatest(done: set<Row>, sel: Choice, r: Option<Row>) {
    && (r.None? ==> forall x | x in done :: !sel(x))
    && (r.Some? ==>
          r.value in done && sel(r.value) && forall x | x in done && sel(x) :: x == r.value || Later(r.value, x))
  }

  function CompletedBy(prior: seq<Row>, start: Time): set<Row> {
    set x | x in prior && x.finished <= start
  }

  lemma {:induction false} LatestIsMax(prior: seq<Row>, start: Time, sel: Choice)
    requires DistinctKeys(prior)
    ensures IsLatest(CompletedBy(prior, start), sel, LatestBefore(prior, start, sel))
  {
    if prior != [] {
      var init, last := prior[..|prior| - 1], prior[|prior| - 1];
      LatestIsMax(init, start, sel);
      assert forall x :: x in prior <==> x in init || x == last;
      forall x | x in init ensures x.key != last.key {
        var i :| 0 <= i < |init| && init[i] == x;
        assert prior[i].key != prior[|prior| - 1].key;
      }
    }
  }

  /** Maxima are unique, because no two rows tie. */
  lemma LatestUnique(prior: seq<Row>, start: Time, sel: Choice, r: Option<Row>)
    requires DistinctKeys(prior) && IsLatest(CompletedBy(prior, start), sel, r)
    ensures r == LatestBefore(prior, start, sel)
  {
    LatestIsMax(prior, start, sel);
  }

  lemma {:induction false} LatestAgree(prior: seq<Row>, start: Time, p: Choice, q: Choice)
    requires forall x | x in prior :: p(x) == q(x)
    ensures LatestBefore(prior, start, p) == LatestBefore(prior, start, q)
  {
    if prior != [] {
      assert forall x | x in prior[..|prior| - 1] :: x in prior;
      LatestAgree(prior[..|prior| - 1], start, p, q);
    }
  }

  /** Adding one row to the completed set. */
  lemma LatestAdd(done: set<Row>, sel: Choice, r: Option<Row>, m: Row)
    requires IsLatest(done, sel, r) && (r.Some? ==> r.value.key != m.key)
    requires forall x | x in done :: x.key != m.key
    ensures IsLatest(done + {m}, sel, if sel(m) && (r.None? || Later(m, r.value)) then Some(m) else r)
  {
  }
}

/** `_build_session`: one sweep over the sorted rows with a heap of running rows. */
module SessionBuilder {
  import opened Wrappers
  import opened Sequences
  import opened Arithmetic
  import opened ReplaySchema
  import opened FinishQueue
  import opened ParallelSweep
  import opened RetryMatching
  import opened CompletionOrder

  function DependencyOf(pred: Option<Row>, current: Row, parents: map<ActorId, ActorId>): DependencyKind {
    if pred.None? then SESSION_ROOT
    else if pred.value.actor == current.actor then SAME_AGENT
    else if current.actor in parents && parents[current.actor] == pred.value.actor then PARENT_TO_SUBAGENT
    else if pred.value.actor in parents && parents[pred.value.actor] == current.actor then BLOCKING_SUBAGENT_TO_PARENT
    else CROSS_AGENT_COMPLETION
  }

  function LeadActor(rows: seq<Row>): ActorId {
    if rows == [] then LEAD_ACTOR else if rows[0].role == LEAD then rows[0].actor else LeadActor(rows[1..])
  }

  function Predecessor(rows: seq<Row>, i: nat): Option<Row>
    requires i < |rows|
  {
    LatestBefore(rows[..i], rows[i].started, AnyRow())
  }

  /** A non-lead actor's parent is settled by its first row. */
  function ParentsAfter(rows: seq<Row>, n: nat): map<ActorId, ActorId>
    requires n <= |rows|
  {
    if n == 0 then map[]
    else WithParent(ParentsAfter(rows, n - 1), rows[n - 1], Predecessor(rows, n - 1), LeadActor(rows))
  }

  function WithParent(parents: map<ActorId, ActorId>, row: Row, pred: Option<Row>,
                      lead: ActorId): map<ActorId, ActorId> {
    if row.role == LEAD || row.actor in parents then parents
    else parents[row.actor := if pred.Some? && pred.value.actor != row.actor then pred.value.actor else lead]
  }

  function ResolvedKeys(rows: seq<Row>, kinds: Kinds): set<Key>
    requires KindsCover(rows, kinds)
  {
    set i | 0 <= i < |rows| && ResolvedWithin(rows, kinds, i, |rows|).Some? :: rows[i].key
  }

  /** The request the source assembles from the sweep's current tables. */
  function Assemble(row: Row, kind: PromptKind, origin: Time, parents: map<ActorId, ActorId>, pred: Option<Row>,
                    success: Option<Row>, attempt: Option<Row>, tokens: Option<(int, int)>, matched: Option<Row>,
                    parallel: seq<Key>): Request
  {
    Request(
      row.key, row.actor, row.role, if row.actor in parents then Some(parents[row.actor]) else None,
      row.started, row.finished, row.status, row.cached,
      if tokens.Some? then Some(tokens.value.0) else None, if tokens.Some? then Some(tokens.value.1) else None,
      tokens.Some?, if tokens.Some? then kind else NONE,
      if matched.Some? then Some(matched.value.key) else None,
      if matched.Some? then matched.value.key else row.key,
      if pred.Some? then Some(pred.value.key) else None,
      if success.Some? && !ContextFree(kind) then Some(success.value.key) else None,
      Max(0, row.started - (if pred.Some? then pred.value.finished else origin)),
      DependencyOf(pred, row, parents),
      if attempt.Some? then Some(Max(0, row.started - attempt.value.finished)) else None,
      parallel)
  }

  /** The specification of one request: every reference is a maximum over the completed earlier rows. */
  function Expected(rows: seq<Row>, kinds: Kinds, i: nat): Request
    requires KindsCover(rows, kinds) && i < |rows|
  {
    var row := rows[i];
    Assemble(row, kinds[row.key], rows[0].started, ParentsAfter(rows, i + 1), Predecessor(rows, i),
             LatestBefore(rows[..i], row.started, UsableOf(row.actor, ResolvedKeys(rows, kinds), kinds)),
             LatestBefore(rows[..i], row.started, OfActor(row.actor)),
             ResolvedWithin(rows, kinds, i, |rows|), MatchOf(rows, kinds, i), ParallelOf(rows, i))
  }

  // ---- the sweep's state

  datatype Sweep = Sweep(heap: seq<Row>, pred: Option<Row>, attempts: map<ActorId, Row>, successes: map<ActorId, Row>)

  /** Rows of the first `n` that have left the heap. */
  function Done(rows: seq<Row>, n: nat, heap: seq<Row>): set<Row>
    requires n <= |rows|
  {
    set x | x in rows[..n] && x !in heap
  }

  ghost predicate SweepOk(rows: seq<Row>, kinds: Kinds, resolved: set<Key>, n: nat, w: Sweep)
    requires n <= |rows|
  {
    && Running(rows, n, w.heap)
    && IsLatest(Done(rows, n, w.heap), AnyRow(), w.pred)
    && (forall a :: IsLatest(Done(rows, n, w.heap), OfActor(a), Lookup(w.attempts, a)))
    && (forall a :: IsLatest(Done(rows, n, w.heap), UsableOf(a, resolved, kinds), Lookup(w.successes, a)))
  }

  /** One completed row updates the predecessor and its actor's entries, whatever its order among the popped rows. */
  method Complete(w: Sweep, m: Row, rest: seq<Row>, kinds: Kinds, resolved: set<Key>) returns (v: Sweep)
    requires m.key in kinds
    ensures v == Completed(w, m, rest, kinds, resolved)
  {
    var pred, attempts, successes := w.pred, w.attempts, w.successes;
    if pred.None? || Later(m, pred.value) { pred := Some(m); }
    if m.actor !in attempts || Later(m, attempts[m.actor]) { attempts := attempts[m.actor := m]; }
    if m.status == SUCCESS && m.key in resolved && !ContextFree(kinds[m.key]) {
      if m.actor !in successes || Later(m, successes[m.actor]) { successes := successes[m.actor := m]; }
    }
    v := Sweep(rest, pred, attempts, successes);
  }

  function Better(r: Option<Row>, m: Row): bool {
    r.None? || Later(m, r.value)
  }

  function Completed(w: Sweep, m: Row, rest: seq<Row>, kinds: Kinds, resolved: set<Key>): Sweep
    requires m.key in kinds
  {
    Sweep(rest,
          if Better(w.pred, m) then Some(m) else w.pred,
          if Better(Lookup(w.attempts, m.actor), m) then w.attempts[m.actor := m] else w.attempts,
          if UsableOf(m.actor, resolved, kinds)(m) && Better(Lookup(w.successes, m.actor), m)
          then w.successes[m.actor := m] else w.successes)
  }

  lemma CompletedOk(rows: seq<Row>, kinds: Kinds, resolved: set<Key>, n: nat, w: Sweep, m: Row, rest: seq<Row>)
    requires DistinctKeys(rows) && n <= |rows| && SweepOk(rows, kinds, resolved, n, w)
    requires m in w.heap && m.key in kinds && NoDup(rest) && DistinctKeys(rest)
    requires forall x :: x in rest <==> x in w.heap && x != m
    ensures SweepOk(rows, kinds, resolved, n, Completed(w, m, rest, kinds, resolved))
  {
    var done, v := Done(rows, n, w.heap), Completed(w, m, rest, kinds, resolved);
    assert Done(rows, n, rest) == done + {m};
    forall x | x in done ensures x.key != m.key {
      var i, j :| 0 <= i < n && rows[i] == x && 0 <= j < n && rows[j] == m;
      KeysDiffer(rows, i, j);
    }
    LatestAdd(done, AnyRow(), w.pred, m);
    assert v.pred == if Better(w.pred, m) then Some(m) else w.pred;
    AttemptsAdd(done, w.attempts, m);
    SuccessesAdd(done, w.successes, kinds, resolved, m);
  }

  lemma AttemptsAdd(done: set<Row>, attempts: map<ActorId, Row>, m: Row)
    requires forall x | x in done :: x.key != m.key
    requires forall a :: IsLatest(done, OfActor(a), Lookup(attempts, a))
    ensures var next := if Better(Lookup(attempts, m.actor), m) then attempts[m.actor := m] else attempts;
      forall a :: IsLatest(done + {m}, OfActor(a), Lookup(next, a))
  {
    var next := if Better(Lookup(attempts, m.actor), m) then attempts[m.actor := m] else attempts;
    forall a ensures IsLatest(done + {m}, OfActor(a), Lookup(next, a)) {
      assert IsLatest(done, OfActor(a), Lookup(attempts, a));
      LatestAdd(done, OfActor(a), Lookup(attempts, a), m);
    }
  }

  lemma SuccessesAdd(done: set<Row>, successes: map<ActorId, Row>, kinds: Kinds, resolved: set<Key>, m: Row)
    requires (forall x | x in done :: x.key != m.key) && m.key in kinds
    requires forall a :: IsLatest(done, UsableOf(a, resolved, kinds), Lookup(successes, a))
    ensures var next := if UsableOf(m.actor, resolved, kinds)(m) && Better(Lookup(successes, m.actor), m)
                        then successes[m.actor := m] else successes;
      forall a :: IsLatest(done + {m}, UsableOf(a, resolved, kinds), Lookup(next, a))
  {
    var next := if UsableOf(m.actor, resolved, kinds)(m) && Better(Lookup(successes, m.actor), m)
                then successes[m.actor := m] else successes;
    forall a ensures IsLatest(done + {m}, UsableOf(a, resolved, kinds), Lookup(next, a)) {
      assert IsLatest(done, UsableOf(a, resolved, kinds), Lookup(successes, a));
      LatestAdd(done, UsableOf(a, resolved, kinds), Lookup(successes, a), m);
    }
  }

  /** Pops every row that has finished by the start of row `n`. */
  method Drain(rows: seq<Row>, kinds: Kinds, resolved: set<Key>, n: nat, w0: Sweep) returns (w: Sweep)
    requires SortedRows(rows) && KindsCover(rows, kinds) && n < |rows| && SweepOk(rows, kinds, resolved, n, w0)
    requires Expired(rows, n, w0.heap)
    ensures SweepOk(rows, kinds, resolved, n, w)
    ensures Drained(rows, n, w.heap)
  {
    hide SweepOk, Completed, RowOk;
    w := w0;
    SweepRunning(rows, kinds, resolved, n, w);
    while w.heap != []
      invariant SweepOk(rows, kinds, resolved, n, w) && Running(rows, n, w.heap)
      invariant Expired(rows, n, w.heap)
      decreases |w.heap|
    {
      var m, rest := PopEarliest(w.heap);
      if m.finished > rows[n].started { break; }
      CoveredRow(rows, kinds, n, m);
      CompletedOk(rows, kinds, resolved, n, w, m, rest);
      var v := Complete(w, m, rest, kinds, resolved);
      CompletedHeap(w, m, rest, kinds, resolved);
      w := v;
      SweepRunning(rows, kinds, resolved, n, w);
    }
  }

  lemma CompletedHeap(w: Sweep, m: Row, rest: seq<Row>, kinds: Kinds, resolved: set<Key>)
    requires m.key in kinds
    ensures Completed(w, m, rest, kinds, resolved).heap == rest
  {
  }

  lemma SweepRunning(rows: seq<Row>, kinds: Kinds, resolved: set<Key>, n: nat, w: Sweep)
    requires n <= |rows| && SweepOk(rows, kinds, resolved, n, w)
    ensures Running(rows, n, w.heap)
  {
  }

  lemma CoveredRow(rows: seq<Row>, kinds: Kinds, n: nat, m: Row)
    requires KindsCover(rows, kinds) && n <= |rows| && m in rows[..n]
    ensures m.key in kinds
  {
    var i :| 0 <= i < n && rows[i] == m;
  }

  /** After draining, the tables hold the maxima over exactly the rows that finished by this start. */
  lemma DrainedMeans(rows: seq<Row>, kinds: Kinds, resolved: set<Key>, n: nat, w: Sweep)
    requires SortedRows(rows) && n < |rows| && SweepOk(rows, kinds, resolved, n, w)
    requires Drained(rows, n, w.heap)
    ensures w.pred == Predecessor(rows, n)
    ensures Lookup(w.attempts, rows[n].actor) == LatestBefore(rows[..n], rows[n].started, OfActor(rows[n].actor))
    ensures Lookup(w.successes, rows[n].actor)
         == LatestBefore(rows[..n], rows[n].started, UsableOf(rows[n].actor, resolved, kinds))
  {
    var prior, start, a := rows[..n], rows[n].started, rows[n].actor;
    forall x ensures x in Done(rows, n, w.heap) <==> x in CompletedBy(prior, start) {
      if x in prior {
        var i :| 0 <= i < n && rows[i] == x;
      }
    }
    assert Done(rows, n, w.heap) == CompletedBy(prior, start);
    assert DistinctKeys(prior);
    LatestUnique(prior, start, AnyRow(), w.pred);
    LatestUnique(prior, start, OfActor(a), Lookup(w.attempts, a));
    LatestUnique(prior, start, UsableOf(a, resolved, kinds), Lookup(w.successes, a));
  }

  /** Row `n` starts running. */
  lemma PushedOk(rows: seq<Row>, kinds: Kinds, resolved: set<Key>, n: nat, w: Sweep)
    requires DistinctKeys(rows) && n < |rows| && SweepOk(rows, kinds, resolved, n, w)
    ensures SweepOk(rows, kinds, resolved, n + 1, w.(heap := w.heap + [rows[n]]))
  {
    var row, heap := rows[n], w.heap + [rows[n]];
    assert rows[..n + 1] == rows[..n] + [row];
    forall x | x in rows[..n] ensures x.key != row.key {
      var i :| 0 <= i < n && rows[i] == x;
      KeysDiffer(rows, i, n);
    }
    assert Done(rows, n + 1, heap) == Done(rows, n, w.heap);
  }

  method BuildRequests(rows: seq<Row>, kinds: Kinds) returns (requests: seq<Request>)
    requires SortedRows(rows) && KindsCover(rows, kinds)
    ensures |requests| == |rows| && AsExpected(rows, kinds, requests)
  {
    SortedDistinct(rows);
    hide *;
    var matches, tokens := RetryMatches(rows, kinds);
    var parallel := ParallelKeys(rows);
    var lead := FindLead(rows);
    requests := [];
    var parents: map<ActorId, ActorId> := map[];
    var w := Sweep([], None, map[], map[]);
    ExpectedStart(rows, kinds, tokens.Keys, w);
    for n := 0 to |rows|
      invariant |requests| == n && AsExpected(rows, kinds, requests)
      invariant parents == ParentsAfter(rows, n)
      invariant SweepOk(rows, kinds, tokens.Keys, n, w)
      invariant n < |rows| ==> Expired(rows, n, w.heap)
    {
      w := Drain(rows, kinds, tokens.Keys, n, w);
      var request;
      request, parents := RequestOf(rows, kinds, n, w, parents, lead, tokens, matches, parallel);
      ExpectedSnoc(rows, kinds, requests, request);
      requests := requests + [request];
      PushedOk(rows, kinds, tokens.Keys, n, w);
      StillExpired(rows, n, w.heap);
      w := w.(heap := w.heap + [rows[n]]);
    }
  }

  /** The requests built so far are the specified ones. */
  ghost predicate AsExpected(rows: seq<Row>, kinds: Kinds, requests: seq<Request>)
    requires KindsCover(rows, kinds)
  {
    |requests| <= |rows| && forall i | 0 <= i < |requests| :: requests[i] == Expected(rows, kinds, i)
  }

  lemma SortedDistinct(rows: seq<Row>)
    requires SortedRows(rows)
    ensures DistinctKeys(rows)
  {
  }

  lemma ExpectedStart(rows: seq<Row>, kinds: Kinds, resolved: set<Key>, w: Sweep)
    requires KindsCover(rows, kinds) && w == Sweep([], None, map[], map[])
    ensures SweepOk(rows, kinds, resolved, 0, w)
    ensures AsExpected(rows, kinds, [])
    ensures ParentsAfter(rows, 0) == map[]
    ensures |rows| > 0 ==> Expired(rows, 0, w.heap)
  {
  }

  lemma ExpectedSnoc(rows: seq<Row>, kinds: Kinds, requests: seq<Request>, request: Request)
    requires KindsCover(rows, kinds) && AsExpected(rows, kinds, requests) && |requests| < |rows|
    requires request == Expected(rows, kinds, |requests|)
    ensures AsExpected(rows, kinds, requests + [request])
  {
    hide Expected;
  }

  /** Assembles one request from the drained tables, settling its actor's parent on the way. */
  method RequestOf(rows: seq<Row>, kinds: Kinds, n: nat, w: Sweep, parents0: map<ActorId, ActorId>, lead: ActorId,
                   tokens: map<Key, (int, int)>, matches: map<Key, Row>, parallel: map<Key, seq<Key>>)
    returns (request: Request, parents: map<ActorId, ActorId>)
    requires SortedRows(rows) && KindsCover(rows, kinds) && n < |rows|
    requires SweepOk(rows, kinds, tokens.Keys, n, w)
    requires Drained(rows, n, w.heap)
    requires parents0 == ParentsAfter(rows, n) && lead == LeadActor(rows)
    requires RetryTables(rows, kinds, matches, tokens) && ParallelTable(rows, parallel)
    ensures request == Expected(rows, kinds, n) && parents == ParentsAfter(rows, n + 1)
  {
    hide SweepOk, LatestBefore, MatchWithin, MatchOf, ResolvedWithin, ParallelOf, ResolvedKeys, RowOk, RowLeq,
         DependencyOf, Max, KeySet, Drained, DistinctKeys, LeadActor, Predecessor;
    var row := rows[n];
    assert row.key in kinds && row.key in parallel && parallel[row.key] == ParallelOf(rows, n);
    assert Lookup(tokens, row.key) == ResolvedWithin(rows, kinds, n, |rows|);
    assert Lookup(matches, row.key) == MatchOf(rows, kinds, n);
    hide RetryTables, ParallelTable;
    DrainedMeans(rows, kinds, tokens.Keys, n, w);
    ResolvedTable(rows, kinds, tokens, n);
    hide SortedRows, KindsCover;
    parents := parents0;
    if row.role != LEAD && row.actor !in parents {
      var parent := if w.pred.Some? && w.pred.value.actor != row.actor then w.pred.value.actor else lead;
      parents := parents[row.actor := parent];
    }
    request := Assemble(row, kinds[row.key], rows[0].started, parents, w.pred,
                        Lookup(w.successes, row.actor), Lookup(w.attempts, row.actor),
                        Lookup(tokens, row.key), Lookup(matches, row.key), parallel[row.key]);
  }

  method FindLead(rows: seq<Row>) returns (lead: ActorId)
    ensures lead == LeadActor(rows)
  {
    for n := 0 to |rows|
      invariant LeadActor(rows) == LeadActor(rows[n..])
    {
      if rows[n].role == LEAD { return rows[n].actor; }
      assert rows[n..][1..] == rows[n + 1..];
    }
    lead := LEAD_ACTOR;
  }

  lemma ResolvedTable(rows: seq<Row>, kinds: Kinds, tokens: map<Key, (int, int)>, n: nat)
    requires SortedRows(rows) && KindsCover(rows, kinds) && n < |rows|
    requires exists matches :: RetryTables(rows, kinds, matches, tokens)
    ensures var a := rows[n].actor;
      LatestBefore(rows[..n], rows[n].started, UsableOf(a, tokens.Keys, kinds))
      == LatestBefore(rows[..n], rows[n].started, UsableOf(a, ResolvedKeys(rows, kinds), kinds))
  {
    var p, q := UsableOf(rows[n].actor, tokens.Keys, kinds), UsableOf(rows[n].actor, ResolvedKeys(rows, kinds), kinds);
    forall x | x in rows[..n] ensures p(x) == q(x) {
      var i :| 0 <= i < n && rows[i] == x;
      assert Lookup(tokens, x.key) == ResolvedWithin(rows, kinds, i, |rows|);
      ResolvedMember(rows, kinds, i);
    }
    LatestAgree(rows[..n], rows[n].started, p, q);
  }

  lemma ResolvedMember(rows: seq<Row>, kinds: Kinds, i: nat)
    requires DistinctKeys(rows) && KindsCover(rows, kinds) && i < |rows|
    ensures rows[i].key in ResolvedKeys(rows, kinds) <==> ResolvedWithin(rows, kinds, i, |rows|).Some?
  {
  }
}
