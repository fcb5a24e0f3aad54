/** What the analyzer's sessions promise, stated without reference to any sweep. */
module SessionMeaning {
  import opened Wrappers
  import opened Indexing
  import opened Sorting
  import opened ReplaySchema
  import opened ParallelSweep
  import opened RetryMatching
  import opened CompletionOrder
  import opened SessionBuilder

  /** Row `j` is earlier in the sort order and had finished when row `i` started. */
  predicate Precedes(rows: seq<Row>, j: nat, i: nat)
    requires j < |rows| && i < |rows|
  {
    j < i && rows[j].finished <= rows[i].started
  }

  /** `k` names the last-finishing of the preceding rows that `sel` chooses; none is named when there is none. */
  ghost predicate NamesLatest(rows: seq<Row>, i: nat, sel: Choice, k: Option<Key>)
    requires i < |rows|
  {
    && (k.None? ==> forall j | 0 <= j < |rows| :: Precedes(rows, j, i) ==> !sel(rows[j]))
    && (k.Some? ==> exists j :: 0 <= j < |rows| && rows[j].key == k.value && LatestAt(rows, i, sel, j))
  }

  ghost predicate LatestAt(rows: seq<Row>, i: nat, sel: Choice, j: nat)
    requires i < |rows| && j < |rows|
  {
    && Precedes(rows, j, i) && sel(rows[j])
    && forall m | 0 <= m < |rows| && m != j && Precedes(rows, m, i) && sel(rows[m]) :: Later(rows[j], rows[m])
  }

  function KeyOf(r: Option<Row>): Option<Key> {
    if r.Some? then Some(r.value.key) else None
  }

  lemma LatestNames(rows: seq<Row>, i: nat, sel: Choice)
    requires SortedRows(rows) && i < |rows|
    ensures NamesLatest(rows, i, sel, KeyOf(LatestBefore(rows[..i], rows[i].started, sel)))
    ensures var r := LatestBefore(rows[..i], rows[i].started, sel);
      r.Some? ==> sel(r.value) && exists j :: 0 <= j < |rows| && rows[j] == r.value && LatestAt(rows, i, sel, j)
  {
    var prior, start := rows[..i], rows[i].started;
    var r := LatestBefore(prior, start, sel);
    LatestIsMax(prior, start, sel);
    forall j | 0 <= j < |rows| && Precedes(rows, j, i) ensures rows[j] in CompletedBy(prior, start) {
      assert prior[j] == rows[j];
    }
    if r.Some? {
      var j :| 0 <= j < i && prior[j] == r.value;
      forall m | 0 <= m < |rows| && m != j && Precedes(rows, m, i) && sel(rows[m]) ensures Later(rows[j], rows[m]) {
        KeysDiffer(rows, m, j);
      }
      assert rows[j] == r.value && LatestAt(rows, i, sel, j);
    }
  }

  /** Send, context and attempt references are exactly the declared maxima, hence strictly earlier in the order. */
  lemma ReferencesAreMaxima(rows: seq<Row>, kinds: Kinds, i: nat)
    requires SortedRows(rows) && KindsCover(rows, kinds) && i < |rows|
    ensures var q := Expected(rows, kinds, i);
      var a := rows[i].actor;
      && NamesLatest(rows, i, AnyRow(), q.sendAfter)
      && (ContextFree(kinds[rows[i].key]) ==> q.contextAfter == None)
      && (!ContextFree(kinds[rows[i].key]) ==>
            NamesLatest(rows, i, UsableOf(a, ResolvedKeys(rows, kinds), kinds), q.contextAfter))
  {
    LatestNames(rows, i, AnyRow());
    LatestNames(rows, i, UsableOf(rows[i].actor, ResolvedKeys(rows, kinds), kinds));
  }

  /** Delays and gaps are never clamped, and a same-agent dependency measures its delay from the actor's own last
      attempt. */
  lemma DelaysAreExact(rows: seq<Row>, kinds: Kinds, i: nat)
    requires SortedRows(rows) && KindsCover(rows, kinds) && i < |rows|
    ensures var q, pred := Expected(rows, kinds, i), Predecessor(rows, i);
      && q.delay == rows[i].started - (if pred.Some? then pred.value.finished else rows[0].started)
      && q.delay >= 0
      && (q.dependency == SAME_AGENT ==> q.sameAgentGap == Some(q.delay))
  {
    var pred := Predecessor(rows, i);
    LatestNames(rows, i, AnyRow());
    LatestNames(rows, i, OfActor(rows[i].actor));
    if i > 0 { assert RowLeq(rows[0], rows[i]); }
    if Expected(rows, kinds, i).dependency == SAME_AGENT { SameAttempt(rows, i); }
  }

  /** A predecessor of the same actor is also that actor's latest attempt. */
  lemma SameAttempt(rows: seq<Row>, i: nat)
    requires SortedRows(rows) && i < |rows| && Predecessor(rows, i).Some?
    requires Predecessor(rows, i).value.actor == rows[i].actor
    ensures LatestBefore(rows[..i], rows[i].started, OfActor(rows[i].actor)) == Predecessor(rows, i)
  {
    var pred := Predecessor(rows, i);
    LatestNames(rows, i, AnyRow());
    LatestNames(rows, i, OfActor(rows[i].actor));
    var attempt := LatestBefore(rows[..i], rows[i].started, OfActor(rows[i].actor));
    var j :| 0 <= j < |rows| && rows[j] == pred.value && LatestAt(rows, i, AnyRow(), j);
    assert OfActor(rows[i].actor)(rows[j]);
    var m :| 0 <= m < |rows| && rows[m] == attempt.value && LatestAt(rows, i, OfActor(rows[i].actor), m);
    assert AnyRow()(rows[m]);
    assert j == m;
  }

  // ---- the session handed to the planner

  ghost predicate RefersBack(requests: seq<Request>, i: nat, k: Key) {
    exists j :: 0 <= j < i && j < |requests| && requests[j].key == k
  }

  /** A context reference names an earlier replayable success of the same actor. */
  ghost predicate ContextTarget(requests: seq<Request>, i: nat, j: nat, k: Key)
    requires i < |requests| && j < |requests|
  {
    j < i && requests[j].key == k && requests[j].actor == requests[i].actor && requests[j].status == SUCCESS
      && requests[j].isRequest
  }

  ghost predicate SessionRequestOk(requests: seq<Request>, i: nat)
    requires i < |requests|
  {
    var q := requests[i];
    && (q.sendAfter.Some? ==> RefersBack(requests, i, q.sendAfter.value))
    && (q.contextAfter.Some? ==>
          (exists j :: 0 <= j < |requests| && ContextTarget(requests, i, j, q.contextAfter.value))
          && !(q.isRequest && ContextFree(q.promptKind)))
    && (q.isRequest ==> q.input.Some? && q.input.value > 0 && q.output.Some? && q.output.value > 0)
    && (q.recipeKey != q.key ==> exists j ::
        0 <= j < |requests| && requests[j].key == q.recipeKey && requests[j].isRequest)
    && q.delay >= 0 && q.started <= q.finished && (q.cached.Some? ==> q.cached.value >= 0)
    && (q.sendAfter.None? <==> q.dependency == SESSION_ROOT)
    && (q.dependency == SAME_AGENT ==> q.sameAgentGap == Some(q.delay))
  }

  ghost predicate SessionOk(requests: seq<Request>) {
    && (forall i, j | 0 <= i < j < |requests| :: requests[i].key != requests[j].key)
    && (forall i | 0 <= i < |requests| :: SessionRequestOk(requests, i))
  }

  lemma BuiltReferences(rows: seq<Row>, kinds: Kinds, requests: seq<Request>, i: nat)
    requires SortedRows(rows) && KindsCover(rows, kinds) && |requests| == |rows| && AsExpected(rows, kinds, requests)
    requires i < |rows|
    ensures requests[i].sendAfter.Some? ==> RefersBack(requests, i, requests[i].sendAfter.value)
    ensures requests[i].contextAfter.Some? ==>
      exists j :: 0 <= j < |requests| && ContextTarget(requests, i, j, requests[i].contextAfter.value)
  {
    hide LatestBefore, MatchWithin, RowLeq, Later, LeadActor, ParentsAfter, ParallelOf, ResolvedKeys, DependencyOf,
      RowOk;
    var q := requests[i];
    assert q == Expected(rows, kinds, i);
    LatestNames(rows, i, AnyRow());
    var usable := UsableOf(rows[i].actor, ResolvedKeys(rows, kinds), kinds);
    LatestNames(rows, i, usable);
    if q.sendAfter.Some? {
      var j :| 0 <= j < |rows| && rows[j].key == q.sendAfter.value && LatestAt(rows, i, AnyRow(), j);
      assert requests[j] == Expected(rows, kinds, j);
    }
    if q.contextAfter.Some? {
      var j :| 0 <= j < |rows| && rows[j].key == q.contextAfter.value && LatestAt(rows, i, usable, j);
      assert requests[j] == Expected(rows, kinds, j);
      ResolvedMember(rows, kinds, j);
      assert ContextTarget(requests, i, j, q.contextAfter.value);
    }
  }

  lemma BuiltTokens(rows: seq<Row>, kinds: Kinds, requests: seq<Request>, i: nat)
    requires SortedRows(rows) && KindsCover(rows, kinds) && |requests| == |rows| && AsExpected(rows, kinds, requests)
    requires i < |rows|
    ensures var q := requests[i];
      && (q.isRequest ==> q.input.Some? && q.input.value > 0 && q.output.Some? && q.output.value > 0)
      && (q.recipeKey != q.key ==> exists j ::
          0 <= j < |requests| && requests[j].key == q.recipeKey && requests[j].isRequest)
  {
    hide LatestBefore, MatchWithin, RowLeq, Later, LeadActor, ParentsAfter, ParallelOf, ResolvedKeys, DependencyOf;
    var q := requests[i];
    assert q == Expected(rows, kinds, i);
    MatchIsFirst(rows, kinds, i, |rows|);
    if MatchOf(rows, kinds, i).Some? {
      var k :| i < k < |rows| && rows[k] == MatchOf(rows, kinds, i).value && FirstResolver(rows, kinds, i, k);
      assert requests[k] == Expected(rows, kinds, k);
      SuccessKeepsTokens(rows, kinds, k);
      assert RowOk(rows[k]);
    }
    assert RowOk(rows[i]);
  }

  lemma BuiltSessionRequestOk(rows: seq<Row>, kinds: Kinds, requests: seq<Request>, i: nat)
    requires SortedRows(rows) && KindsCover(rows, kinds) && |requests| == |rows| && AsExpected(rows, kinds, requests)
    requires i < |rows|
    ensures SessionRequestOk(requests, i)
  {
    hide LatestBefore, MatchWithin, MatchOf, ResolvedWithin, RowLeq, Later, LeadActor, ParentsAfter, ParallelOf,
         ResolvedKeys;
    assert requests[i] == Expected(rows, kinds, i);
    assert RowOk(rows[i]);
    DelaysAreExact(rows, kinds, i);
    BuiltReferences(rows, kinds, requests, i);
    BuiltTokens(rows, kinds, requests, i);
  }

  /** A success is never matched to another row, so it is replayed with its own tokens. */
  lemma SuccessKeepsTokens(rows: seq<Row>, kinds: Kinds, k: nat)
    requires KindsCover(rows, kinds) && k < |rows| && rows[k].status == SUCCESS
    ensures ResolvedWithin(rows, kinds, k, |rows|) == Tokens(rows[k])
  {
    MatchIsFirst(rows, kinds, k, |rows|);
  }

  lemma BuiltSessionOk(rows: seq<Row>, kinds: Kinds, requests: seq<Request>)
    requires SortedRows(rows) && KindsCover(rows, kinds) && |requests| == |rows| && AsExpected(rows, kinds, requests)
    ensures SessionOk(requests)
  {
    forall i | 0 <= i < |requests| ensures SessionRequestOk(requests, i) {
      BuiltSessionRequestOk(rows, kinds, requests, i);
    }
    forall i, j | 0 <= i < j < |requests| ensures requests[i].key != requests[j].key {
      assert requests[i] == Expected(rows, kinds, i) && requests[j] == Expected(rows, kinds, j);
      KeysDiffer(rows, i, j);
    }
  }

  // ---- sorting the source rows

  function RowOrder(): (Row, Row) -> bool {
    (a: Row, b: Row) => RowLeq(a, b)
  }

  lemma SortedSession(source: seq<Row>)
    requires DistinctKeys(source) && forall i | 0 <= i < |source| :: RowOk(source[i])
    ensures SortedRows(Sort(source, RowOrder())) && multiset(Sort(source, RowOrder())) == multiset(source)
  {
    var rows := Sort(source, RowOrder());
    assert TotalPreorder(RowOrder());
    SortSorts(source, RowOrder());
    assert DistinctBy(source, RowKey());
    PermutedDistinct(source, rows, RowKey());
    forall i, j | 0 <= i < j < |rows| ensures rows[i].key != rows[j].key {
      assert RowKey()(rows[i]) != RowKey()(rows[j]);
    }
    forall i | 0 <= i < |rows| ensures RowOk(rows[i]) {
      assert rows[i] in multiset(source);
    }
    forall i, j | 0 <= i < j < |rows| ensures RowLeq(rows[i], rows[j]) {
      assert RowOrder()(rows[i], rows[j]);
    }
  }

  /** One source session, from unordered rows with arbitrary prompt classifications to its replay requests. */
  method BuildSession(source: seq<Row>, kinds: Kinds) returns (rows: seq<Row>, requests: seq<Request>)
    requires DistinctKeys(source) && (forall i | 0 <= i < |source| :: RowOk(source[i])) && KindsCover(source, kinds)
    ensures SortedRows(rows) && multiset(rows) == multiset(source) && KindsCover(rows, kinds)
    ensures |requests| == |rows| && AsExpected(rows, kinds, requests)
    ensures SessionOk(requests)
  {
    rows := Sort(source, RowOrder());
    SortedSession(source);
    forall i | 0 <= i < |rows| ensures rows[i].key in kinds {
      assert rows[i] in multiset(source);
    }
    hide SortedRows, DistinctKeys, AsExpected, SessionOk, Sort;
    requests := BuildRequests(rows, kinds);
    BuiltSessionOk(rows, kinds, requests);
  }
}
