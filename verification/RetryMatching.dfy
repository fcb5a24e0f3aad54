/** `_retry_matches`: each failed attempt is matched to the first later usable success of its actor and prompt kind. */
module RetryMatching {
  import opened Wrappers
  import opened ReplaySchema

  type Group = (ActorId, PromptKind)

  function GroupOf(r: Row, kinds: Kinds): Group
    requires r.key in kinds
  {
    (r.actor, kinds[r.key])
  }

  /** `b` is a success that can stand in for the failed attempt `a`. */
  predicate Resolves(a: Row, b: Row, kinds: Kinds)
    requires a.key in kinds && b.key in kinds
  {
    a.status != SUCCESS && b.status == SUCCESS && Tokens(b).Some? && GroupOf(a, kinds) == GroupOf(b, kinds)
  }

  /** The match of row `i` among the first `n` rows. */
  function MatchWithin(rows: seq<Row>, kinds: Kinds, i: nat, n: nat): (r: Option<Row>)
    requires KindsCover(rows, kinds) && i < |rows| && n <= |rows|
  {
    if n <= i + 1 then None
    else
      var earlier := MatchWithin(rows, kinds, i, n - 1);
      if earlier.Some? then earlier
      else if Resolves(rows[i], rows[n - 1], kinds) then Some(rows[n - 1])
      else None
  }

  function MatchOf(rows: seq<Row>, kinds: Kinds, i: nat): Option<Row>
    requires KindsCover(rows, kinds) && i < |rows|
  {
    MatchWithin(rows, kinds, i, |rows|)
  }

  ghost predicate FirstResolver(rows: seq<Row>, kinds: Kinds, i: nat, k: nat)
    requires KindsCover(rows, kinds) && i < |rows| && k < |rows|
  {
    Resolves(rows[i], rows[k], kinds) && forall m | i < m < k :: !Resolves(rows[i], rows[m], kinds)
  }

  /** The match is the first later row that resolves the failure, and there is none exactly when no row does. */
  lemma {:induction false} MatchIsFirst(rows: seq<Row>, kinds: Kinds, i: nat, n: nat)
    requires KindsCover(rows, kinds) && i < |rows| && n <= |rows|
    ensures var r := MatchWithin(rows, kinds, i, n);
      && (r.None? ==> forall k | i < k < n :: !Resolves(rows[i], rows[k], kinds))
      && (r.Some? ==> exists k :: i < k < n && rows[k] == r.value && FirstResolver(rows, kinds, i, k))
  {
    if n > i + 1 {
      MatchIsFirst(rows, kinds, i, n - 1);
      var earlier := MatchWithin(rows, kinds, i, n - 1);
      if earlier.Some? {
        var k :| i < k < n - 1 && rows[k] == earlier.value && FirstResolver(rows, kinds, i, k);
        assert i < k < n;
      } else if Resolves(rows[i], rows[n - 1], kinds) {
        assert FirstResolver(rows, kinds, i, n - 1);
      }
    }
  }

  /** The tokens a row is replayed with: its match's if it failed and was matched, else its own. */
  function ResolvedWithin(rows: seq<Row>, kinds: Kinds, i: nat, n: nat): Option<(int, int)>
    requires KindsCover(rows, kinds) && i < |rows| && n <= |rows|
  {
    var m := MatchWithin(rows, kinds, i, n);
    if m.Some? then Tokens(m.value) else Tokens(rows[i])
  }

  function Lookup<V>(m: map<Key, V>, k: Key): Option<V> {
    if k in m then Some(m[k]) else None
  }

  ghost predicate HasKey(failed: seq<Row>, k: Key) {
    exists x :: x in failed && x.key == k
  }

  /** Assigns one value to the keys of all the listed rows. */
  method AssignAll<V>(table0: map<Key, V>, failed: seq<Row>, v: V) returns (table: map<Key, V>)
    ensures forall k :: Lookup(table, k) == if HasKey(failed, k) then Some(v) else Lookup(table0, k)
  {
    table := table0;
    for i := 0 to |failed|
      invariant forall k :: Lookup(table, k) == if HasKey(failed[..i], k) then Some(v) else Lookup(table0, k)
    {
      ghost var prev := table;
      table := table[failed[i].key := v];
      assert failed[..i + 1] == failed[..i] + [failed[i]];
      forall k ensures Lookup(table, k) == if HasKey(failed[..i + 1], k) then Some(v) else Lookup(table0, k) {
        assert Lookup(prev, k) == if HasKey(failed[..i], k) then Some(v) else Lookup(table0, k);
        if HasKey(failed[..i], k) {
          var x :| x in failed[..i] && x.key == k;
          assert x in failed[..i + 1];
        }
        if HasKey(failed[..i + 1], k) {
          var x :| x in failed[..i + 1] && x.key == k;
          assert x in failed[..i] || x == failed[i];
        }
        if k == failed[i].key { assert failed[i] in failed[..i + 1]; }
      }
    }
    assert failed[..|failed|] == failed;
  }

  /** The pending table after `n` rows: the unmatched failures of each group. */
  ghost predicate PendingOk(rows: seq<Row>, kinds: Kinds, n: nat, pending: map<Group, seq<Row>>)
    requires KindsCover(rows, kinds) && n <= |rows|
  {
    && (forall g, x | g in pending && x in pending[g] ::
          exists i :: 0 <= i < n && Waits(rows, kinds, i, n, g) && rows[i] == x)
    && (forall i, g | 0 <= i < n && Waits(rows, kinds, i, n, g) :: g in pending && rows[i] in pending[g])
  }

  ghost predicate Waits(rows: seq<Row>, kinds: Kinds, i: nat, n: nat, g: Group)
    requires KindsCover(rows, kinds) && i < |rows| && n <= |rows|
  {
    GroupOf(rows[i], kinds) == g && rows[i].status != SUCCESS && MatchWithin(rows, kinds, i, n).None?
  }

  ghost predicate TablesOk(rows: seq<Row>, kinds: Kinds, n: nat, matches: map<Key, Row>, resolved: map<Key, (int, int)>)
    requires KindsCover(rows, kinds) && n <= |rows|
  {
    && (forall i | 0 <= i < n :: Lookup(matches, rows[i].key) == MatchWithin(rows, kinds, i, n))
    && (forall i | 0 <= i < n :: Lookup(resolved, rows[i].key) == ResolvedWithin(rows, kinds, i, n))
    && (forall i | n <= i < |rows| :: rows[i].key !in matches && rows[i].key !in resolved)
  }

  /** What row `n` changes about the match of an earlier row. */
  lemma MatchStep(rows: seq<Row>, kinds: Kinds, i: nat, n: nat)
    requires KindsCover(rows, kinds) && i < n < |rows|
    ensures MatchWithin(rows, kinds, i, n + 1) ==
      if MatchWithin(rows, kinds, i, n).Some? then MatchWithin(rows, kinds, i, n)
      else if Resolves(rows[i], rows[n], kinds) then Some(rows[n]) else None
  {
  }

  lemma OwnMatch(rows: seq<Row>, kinds: Kinds, n: nat)
    requires KindsCover(rows, kinds) && n < |rows|
    ensures MatchWithin(rows, kinds, n, n + 1) == None
  {
  }

  ghost predicate RetryTables(rows: seq<Row>, kinds: Kinds, matches: map<Key, Row>, resolved: map<Key, (int, int)>)
    requires KindsCover(rows, kinds)
  {
    && (forall i | 0 <= i < |rows| :: Lookup(matches, rows[i].key) == MatchOf(rows, kinds, i))
    && (forall i | 0 <= i < |rows| :: Lookup(resolved, rows[i].key) == ResolvedWithin(rows, kinds, i, |rows|))
  }

  method RetryMatches(rows: seq<Row>, kinds: Kinds) returns (matches: map<Key, Row>, resolved: map<Key, (int, int)>)
    requires DistinctKeys(rows) && KindsCover(rows, kinds)
    ensures RetryTables(rows, kinds, matches, resolved)
  {
    matches, resolved := map[], map[];
    var pending: map<Group, seq<Row>> := map[];
    for n := 0 to |rows|
      invariant TablesOk(rows, kinds, n, matches, resolved)
      invariant PendingOk(rows, kinds, n, pending)
    {
      hide PendingOk, TablesOk, Waits, DistinctKeys, MatchWithin, ResolvedWithin;
      var row := rows[n];
      var group := GroupOf(row, kinds);
      ghost var matches0, resolved0, pending0 := matches, resolved, pending;
      OtherKeys(rows, n);
      if Tokens(row).Some? { resolved := resolved[row.key := Tokens(row).value]; }
      if row.status == SUCCESS {
        if Tokens(row).Some? {
          var failed := if group in pending then pending[group] else [];
          GroupResolved(rows, kinds, n, pending0, failed);
          pending := pending - {group};
          matches := AssignAll(matches, failed, row);
          resolved := AssignAll(resolved, failed, Tokens(row).value);
        }
      } else {
        pending := pending[group := (if group in pending then pending[group] else []) + [row]];
      }
      OwnResolution(rows, kinds, n, matches0, resolved0);
      NextTables(rows, kinds, n, matches0, resolved0, matches, resolved);
      NextPending(rows, kinds, n, pending0, pending);
    }
  }

  lemma OtherKeys(rows: seq<Row>, n: nat)
    requires DistinctKeys(rows) && n < |rows|
    ensures forall i | 0 <= i < |rows| :: i != n ==> rows[i].key != rows[n].key
  {
    forall i | 0 <= i < |rows| ensures i != n ==> rows[i].key != rows[n].key { KeysDiffer(rows, i, n); }
  }

  predicate Usable(r: Row) {
    r.status == SUCCESS && Tokens(r).Some?
  }

  /** Row `n` resolves the still unmatched failure `i`. */
  ghost predicate Newly(rows: seq<Row>, kinds: Kinds, i: nat, n: nat)
    requires KindsCover(rows, kinds) && i < |rows| && n < |rows|
  {
    Usable(rows[n]) && i < n && Waits(rows, kinds, i, n, GroupOf(rows[n], kinds))
  }

  lemma OwnResolution(rows: seq<Row>, kinds: Kinds, n: nat, matches: map<Key, Row>, resolved: map<Key, (int, int)>)
    requires KindsCover(rows, kinds) && n < |rows| && TablesOk(rows, kinds, n, matches, resolved)
    ensures rows[n].key !in resolved
  {
  }

  lemma NextTables(rows: seq<Row>, kinds: Kinds, n: nat, m0: map<Key, Row>, r0: map<Key, (int, int)>,
                   m1: map<Key, Row>, r1: map<Key, (int, int)>)
    requires DistinctKeys(rows) && KindsCover(rows, kinds) && n < |rows| && TablesOk(rows, kinds, n, m0, r0)
    requires forall i | 0 <= i < |rows| ::
      Lookup(m1, rows[i].key) == (if Newly(rows, kinds, i, n) then Some(rows[n]) else Lookup(m0, rows[i].key))
    requires forall i | 0 <= i < |rows| ::
      Lookup(r1, rows[i].key) ==
        (if i == n || Newly(rows, kinds, i, n) then Tokens(rows[n]) else Lookup(r0, rows[i].key))
    ensures TablesOk(rows, kinds, n + 1, m1, r1)
  {
    forall i | 0 <= i < n ensures
      && Lookup(m1, rows[i].key) == MatchWithin(rows, kinds, i, n + 1)
      && Lookup(r1, rows[i].key) == ResolvedWithin(rows, kinds, i, n + 1)
    {
      MatchStep(rows, kinds, i, n);
      assert Lookup(m0, rows[i].key) == MatchWithin(rows, kinds, i, n);
    }
    OwnMatch(rows, kinds, n);
    assert Lookup(m0, rows[n].key) == None;
    forall i | n < i < |rows| ensures rows[i].key !in m1 && rows[i].key !in r1 {
      assert Lookup(m1, rows[i].key) == None && Lookup(r1, rows[i].key) == None;
    }
  }

  lemma NextPending(rows: seq<Row>, kinds: Kinds, n: nat, p0: map<Group, seq<Row>>, p1: map<Group, seq<Row>>)
    requires DistinctKeys(rows) && KindsCover(rows, kinds) && n < |rows| && PendingOk(rows, kinds, n, p0)
    requires var g := GroupOf(rows[n], kinds);
      p1 == if Usable(rows[n]) then p0 - {g}
            else if rows[n].status != SUCCESS then p0[g := (if g in p0 then p0[g] else []) + [rows[n]]]
            else p0
    ensures PendingOk(rows, kinds, n + 1, p1)
  {
    var own := GroupOf(rows[n], kinds);
    OwnMatch(rows, kinds, n);
    forall g, x | g in p1 && x in p1[g]
      ensures exists i :: 0 <= i < n + 1 && Waits(rows, kinds, i, n + 1, g) && rows[i] == x
    {
      if x == rows[n] && g == own && rows[n].status != SUCCESS {
        assert Waits(rows, kinds, n, n + 1, g);
      } else {
        assert g in p0 && x in p0[g];
        var i :| 0 <= i < n && Waits(rows, kinds, i, n, g) && rows[i] == x;
        MatchStep(rows, kinds, i, n);
        assert Waits(rows, kinds, i, n + 1, g);
      }
    }
    forall i, g | 0 <= i < n + 1 && Waits(rows, kinds, i, n + 1, g) ensures g in p1 && rows[i] in p1[g] {
      if i < n {
        MatchStep(rows, kinds, i, n);
        assert Waits(rows, kinds, i, n, g);
      }
    }
  }

  /** The failures taken from the pending table are exactly the earlier rows that row `n` newly resolves. */
  lemma GroupResolved(rows: seq<Row>, kinds: Kinds, n: nat, pending: map<Group, seq<Row>>, failed: seq<Row>)
    requires DistinctKeys(rows) && KindsCover(rows, kinds) && n < |rows| && PendingOk(rows, kinds, n, pending)
    requires var g := GroupOf(rows[n], kinds); failed == if g in pending then pending[g] else []
    ensures forall i | 0 <= i < n ::
      HasKey(failed, rows[i].key) <==> Waits(rows, kinds, i, n, GroupOf(rows[n], kinds))
    ensures forall i | n <= i < |rows| :: !HasKey(failed, rows[i].key)
  {
    var g := GroupOf(rows[n], kinds);
    forall i | 0 <= i < |rows| && HasKey(failed, rows[i].key) ensures i < n && Waits(rows, kinds, i, n, g) {
      var x :| x in failed && x.key == rows[i].key;
      var j :| 0 <= j < n && Waits(rows, kinds, j, n, g) && rows[j] == x;
      SameRow(rows, i, j);
    }
    forall i | 0 <= i < n && Waits(rows, kinds, i, n, g) ensures HasKey(failed, rows[i].key) {
      assert rows[i] in failed;
    }
  }
}
