/** Failure-free wrappers shared by the models. */
module Wrappers {
  datatype Option<+T> = None | Some(value: T)

  datatype Result<+T, +E> = Ok(value: T) | Err(error: E)
}

/** Facts about sequences that the incremental loops need. */
module Sequences {

  ghost predicate NoDup<T>(s: seq<T>) {
    forall i, j :: 0 <= i < j < |s| ==> s[i] != s[j]
  }

  function Elems<T>(s: seq<T>): set<T> {
    set x | x in s
  }

  /** Keeps the elements that satisfy `keep`, in their original order. */
  function Filter<T>(s: seq<T>, keep: T -> bool): seq<T> {
    if s == [] then []
    else
      var last := s[|s| - 1];
      Filter(s[..|s| - 1], keep) + (if keep(last) then [last] else [])
  }

  lemma FilterSnoc<T>(s: seq<T>, x: T, keep: T -> bool)
    ensures Filter(s + [x], keep) == Filter(s, keep) + (if keep(x) then [x] else [])
  {
    assert (s + [x])[..|s|] == s;
  }

  lemma {:induction false} FilterMembers<T>(s: seq<T>, keep: T -> bool)
    ensures forall x :: x in Filter(s, keep) ==> x in s && keep(x)
    ensures forall x :: x in s && keep(x) ==> x in Filter(s, keep)
  {
    if s != [] {
      var init := s[..|s| - 1];
      FilterMembers(init, keep);
      assert s == init + [s[|s| - 1]];
    }
  }

  lemma {:induction false} FilterNoDup<T>(s: seq<T>, keep: T -> bool)
    requires NoDup(s)
    ensures NoDup(Filter(s, keep))
  {
    if s != [] {
      var init := s[..|s| - 1];
      FilterNoDup(init, keep);
      FilterMembers(init, keep);
      assert s[|s| - 1] !in init;
    }
  }

  /** Two predicates that agree on the members of `s` filter it alike. */
  lemma {:induction false} FilterAgree<T>(s: seq<T>, p: T -> bool, q: T -> bool)
    requires forall x :: x in s ==> p(x) == q(x)
    ensures Filter(s, p) == Filter(s, q)
  {
    if s != [] {
      var init := s[..|s| - 1];
      assert forall x :: x in init ==> x in s;
      FilterAgree(init, p, q);
    }
  }

  lemma {:induction false} FilterAll<T>(s: seq<T>, p: T -> bool)
    requires forall x :: x in s ==> p(x)
    ensures Filter(s, p) == s
  {
    if s != [] {
      var init := s[..|s| - 1];
      assert forall x :: x in init ==> x in s;
      FilterAll(init, p);
      assert s == init + [s[|s| - 1]];
    }
  }

  function Both<T>(p: T -> bool, q: T -> bool): T -> bool {
    x => p(x) && q(x)
  }

  function Outside<T(==)>(xs: set<T>): T -> bool {
    x => x !in xs
  }

  lemma {:induction false} FilterFilter<T>(s: seq<T>, p: T -> bool, q: T -> bool)
    ensures Filter(Filter(s, p), q) == Filter(s, Both(p, q))
  {
    if s != [] {
      var init, last := s[..|s| - 1], s[|s| - 1];
      FilterFilter(init, p, q);
      if p(last) {
        FilterSnoc(Filter(init, p), last, q);
      } else {
        assert Filter(s, p) == Filter(init, p);
      }
      assert Both(p, q)(last) == (p(last) && q(last));
    }
  }

  lemma {:induction false} FilterConcat<T>(s: seq<T>, t: seq<T>, p: T -> bool)
    ensures Filter(s + t, p) == Filter(s, p) + Filter(t, p)
  {
    if t == [] {
      assert s + t == s;
    } else {
      var init, last := t[..|t| - 1], t[|t| - 1];
      FilterConcat(s, init, p);
      assert s + t == (s + init) + [last];
      FilterSnoc(s + init, last, p);
    }
  }

  lemma FewerMembers<T>(a: set<T>, b: set<T>)
    requires a <= b
    ensures |a| <= |b|
  {
    assert b == a + (b - a);
  }
}

/** Extremes, and facts about products and quotients. */
module Arithmetic {
  function Max(a: int, b: int): int {
    if a < b then b else a
  }

  function MaxReal(a: real, b: real): real {
    if a < b then b else a
  }

  function Min(a: int, b: int): int {
    if a < b then a else b
  }

  lemma LeTimes(x: nat, y: nat, m: nat)
    ensures x <= y ==> x * m <= y * m
  {
    if x <= y { assert (y - x) * m == y * m - x * m; }
  }

  lemma TimesPrevious(n: nat, m: nat)
    ensures n > 0 ==> n * m == (n - 1) * m + m
  {
  }

  lemma QuotientUnique(q: nat, size: nat, i: nat)
    requires i < size
    ensures (q * size + i) / size == q && (q * size + i) % size == i
  {
    var p := q * size + i;
    var other := p / size;
    LeTimes(q + 1, other, size);
    LeTimes(other + 1, q, size);
    TimesPrevious(q + 1, size);
    TimesPrevious(other + 1, size);
    assert p == other * size + p % size;
  }

  lemma QuotientBelow(p: nat, n: nat, size: nat)
    requires size > 0 && p < n * size
    ensures p / size < n
  {
    LeTimes(n, p / size, size);
    assert p / size * size <= p;
  }

  lemma QuotientMonotone(a: nat, b: nat, n: nat)
    requires a <= b && n > 0
    ensures a / n <= b / n
  {
    LeTimes(b / n + 1, a / n, n);
    assert a / n * n <= a && b < (b / n + 1) * n;
  }
}

/** An insertion-ordered dictionary: Python's dict and OrderedDict as a value. */
module OrderedDict {
  import opened Sequences

  datatype Dict<K(==), V> = Dict(order: seq<K>, at: map<K, V>) {

    ghost predicate Valid() {
      && NoDup(order)
      && (forall k | k in order :: k in at)
      && (forall k | k in at :: k in order)
    }

    /** Assigning to a key that is present keeps its position. */
    function Put(k: K, v: V): Dict<K, V> {
      Dict(if k in at then order else order + [k], at[k := v])
    }

    function RemoveAll(ks: set<K>): Dict<K, V> {
      Dict(Filter(order, Outside(ks)), at - ks)
    }

    function Remove(k: K): Dict<K, V> {
      RemoveAll({k})
    }

    lemma PutValid(k: K, v: V)
      requires Valid()
      ensures Put(k, v).Valid()
    {
    }

    lemma RemoveAllValid(ks: set<K>)
      requires Valid()
      ensures RemoveAll(ks).Valid()
    {
      FilterMembers(order, Outside(ks));
      FilterNoDup(order, Outside(ks));
      forall k | k in RemoveAll(ks).order ensures k in RemoveAll(ks).at {
        assert k in order && Outside(ks)(k);
      }
    }

    lemma RemoveAbsent(ks: set<K>)
      requires Valid() && ks !! at.Keys
      ensures RemoveAll(ks) == this
    {
      FilterAll(order, Outside(ks));
      assert at - ks == at;
    }

    lemma RemoveAllSplit(ks: set<K>, ls: set<K>)
      ensures RemoveAll(ks).RemoveAll(ls) == RemoveAll(ks + ls)
    {
      FilterFilter(order, Outside(ks), Outside(ls));
      FilterAgree(order, Both(Outside(ks), Outside(ls)), Outside(ks + ls));
      assert (at - ks) - ls == at - (ks + ls);
    }
  }
}

/** Sorting by a total preorder, standing for Python's built-in `sorted`. */
module Sorting {

  ghost predicate TotalPreorder<T(!new)>(leq: (T, T) -> bool) {
    && (forall x, y :: leq(x, y) || leq(y, x))
    && (forall x, y, z :: leq(x, y) && leq(y, z) ==> leq(x, z))
  }

  ghost predicate SortedBy<T>(s: seq<T>, leq: (T, T) -> bool) {
    forall i, j :: 0 <= i < j < |s| ==> leq(s[i], s[j])
  }

  /** Inserts after every element that is not larger, so equal elements keep their order. */
  function Insert<T>(s: seq<T>, x: T, leq: (T, T) -> bool): seq<T> {
    if s == [] then [x]
    else
      var init, last := s[..|s| - 1], s[|s| - 1];
      if leq(last, x) then s + [x] else Insert(init, x, leq) + [last]
  }

  function Sort<T>(s: seq<T>, leq: (T, T) -> bool): seq<T> {
    if s == [] then [] else Insert(Sort(s[..|s| - 1], leq), s[|s| - 1], leq)
  }

  lemma {:induction false} InsertPermutes<T>(s: seq<T>, x: T, leq: (T, T) -> bool)
    ensures multiset(Insert(s, x, leq)) == multiset(s) + multiset{x}
    ensures |Insert(s, x, leq)| == |s| + 1
  {
    if s != [] {
      var init, last := s[..|s| - 1], s[|s| - 1];
      assert s == init + [last];
      if !leq(last, x) { InsertPermutes(init, x, leq); }
    }
  }

  ghost predicate AllBelow<T(!new)>(bag: multiset<T>, x: T, leq: (T, T) -> bool) {
    forall y | y in bag :: leq(y, x)
  }

  lemma AppendSorted<T(!new)>(s: seq<T>, x: T, leq: (T, T) -> bool)
    requires SortedBy(s, leq) && AllBelow(multiset(s), x, leq)
    ensures SortedBy(s + [x], leq)
  {
    forall i | 0 <= i < |s| ensures leq(s[i], x) { assert s[i] in multiset(s); }
  }

  lemma {:induction false} InsertSorted<T(!new)>(s: seq<T>, x: T, leq: (T, T) -> bool)
    requires TotalPreorder(leq) && SortedBy(s, leq)
    ensures SortedBy(Insert(s, x, leq), leq)
    ensures multiset(Insert(s, x, leq)) == multiset(s) + multiset{x}
    ensures |Insert(s, x, leq)| == |s| + 1
  {
    InsertPermutes(s, x, leq);
    if s != [] {
      var init, last := s[..|s| - 1], s[|s| - 1];
      BelowLast(s, leq);
      if leq(last, x) {
        assert AllBelow(multiset(s), x, leq);
        hide TotalPreorder, SortedBy;
        AppendSorted(s, x, leq);
      } else {
        InsertPermutes(init, x, leq);
        assert leq(x, last);
        assert AllBelow(multiset(Insert(init, x, leq)), last, leq);
        assert SortedBy(init, leq);
        hide SortedBy, Insert;
        InsertSorted(init, x, leq);
        AppendSorted(Insert(init, x, leq), last, leq);
      }
    }
  }

  /** The last element of a sorted sequence is a largest one. */
  lemma BelowLast<T(!new)>(s: seq<T>, leq: (T, T) -> bool)
    requires TotalPreorder(leq) && SortedBy(s, leq) && s != []
    ensures AllBelow(multiset(s), s[|s| - 1], leq) && AllBelow(multiset(s[..|s| - 1]), s[|s| - 1], leq)
    ensures SortedBy(s[..|s| - 1], leq)
  {
    var last := s[|s| - 1];
    assert s == s[..|s| - 1] + [last] && leq(last, last);
    forall y | y in multiset(s) ensures leq(y, last) {
      var i :| 0 <= i < |s| && s[i] == y;
    }
  }

  lemma {:induction false} SortSorts<T(!new)>(s: seq<T>, leq: (T, T) -> bool)
    requires TotalPreorder(leq)
    ensures SortedBy(Sort(s, leq), leq)
    ensures multiset(Sort(s, leq)) == multiset(s)
    ensures |Sort(s, leq)| == |s|
  {
    if s != [] {
      var init, last := s[..|s| - 1], s[|s| - 1];
      assert s == init + [last];
      assert Sort(s, leq) == Insert(Sort(init, leq), last, leq);
      hide *;
      SortSorts(init, leq);
      InsertSorted(Sort(init, leq), last, leq);
    }
  }
}

/** The ascending enumeration of a finite set of ids, standing for `sorted` over keys. */
module AscendingIds {
  import opened Sequences

  lemma {:induction false} LargestExists(s: set<int>)
    ensures s != {} ==> exists m :: m in s && forall x | x in s :: x <= m
  {
    if forall y :: y !in s {
      assert s == {};
      return;
    }
    var y: int :| y in s;
    if s - {y} == {} {
      assert s == {y};
    } else {
      LargestExists(s - {y});
      var m :| m in s - {y} && forall x | x in s - {y} :: x <= m;
      var largest := if y <= m then m else y;
      forall x | x in s ensures x <= largest { assert x == y || x in s - {y}; }
      assert largest in s;
    }
  }

  function Largest(s: set<int>): (m: int)
    requires s != {}
    ensures m in s && forall x | x in s :: x <= m
  {
    LargestExists(s);
    var m :| m in s && forall x | x in s :: x <= m;
    m
  }

  /** Some member of a set; nothing is promised about which. */
  method PickAny(s: set<int>) returns (x: int)
    requires s != {}
    ensures x in s
  {
    x := Largest(s);
  }

  /** Ids in ascending order, as `sorted` gives them. */
  function Ascending(s: set<int>): (r: seq<int>)
    ensures forall x :: x in r <==> x in s
    ensures forall i, j | 0 <= i < j < |r| :: r[i] < r[j]
  {
    if s == {} then [] else var m := Largest(s); Ascending(s - {m}) + [m]
  }

  lemma {:induction false} AscendingWithout(s: set<int>, x: int)
    ensures Ascending(s - {x}) == Filter(Ascending(s), Outside({x}))
  {
    if s != {} {
      var m := Largest(s);
      var rest := Ascending(s - {m});
      FilterSnoc(rest, m, Outside({x}));
      if m == x {
        FilterAll(rest, Outside({x}));
      } else {
        AscendingWithout(s - {m}, x);
        assert s - {m} - {x} == s - {x} - {m};
        assert m in s - {x} && Largest(s - {x}) == m;
      }
    }
  }
}

/** Tables keyed by a field of their entries, built left to right as a dict comprehension builds them. */
module Indexing {
  import opened Sequences

  ghost predicate DistinctBy<T>(s: seq<T>, key: T -> int) {
    forall i, j | 0 <= i < j < |s| :: key(s[i]) != key(s[j])
  }

  function IndexBy<T>(s: seq<T>, key: T -> int): map<int, T> {
    if s == [] then map[] else IndexBy(s[..|s| - 1], key)[key(s[|s| - 1]) := s[|s| - 1]]
  }

  lemma {:induction false} IndexByFacts<T>(s: seq<T>, key: T -> int)
    requires DistinctBy(s, key)
    ensures forall i | 0 <= i < |s| :: key(s[i]) in IndexBy(s, key) && IndexBy(s, key)[key(s[i])] == s[i]
    ensures forall k | k in IndexBy(s, key) :: exists i :: 0 <= i < |s| && key(s[i]) == k
  {
    if s != [] {
      var init, last := s[..|s| - 1], s[|s| - 1];
      assert forall i | 0 <= i < |init| :: init[i] == s[i];
      IndexByFacts(init, key);
      forall k | k in IndexBy(s, key) ensures exists i :: 0 <= i < |s| && key(s[i]) == k {
        if k in IndexBy(init, key) {
          var i :| 0 <= i < |init| && key(init[i]) == k;
          assert key(s[i]) == k;
        } else {
          assert key(s[|s| - 1]) == k;
        }
      }
      forall i | 0 <= i < |s| ensures key(s[i]) in IndexBy(s, key) && IndexBy(s, key)[key(s[i])] == s[i] {
        if i < |init| { assert key(init[i]) in IndexBy(init, key) && key(s[i]) != key(last); }
      }
    }
  }

  /** The last position of a key, when it occurs. */
  function PositionOf<T>(s: seq<T>, key: T -> int, k: int): nat {
    if s == [] then 0
    else if key(s[|s| - 1]) == k then |s| - 1
    else PositionOf(s[..|s| - 1], key, k)
  }

  lemma {:induction false} PositionFinds<T>(s: seq<T>, key: T -> int, k: int)
    requires exists i :: 0 <= i < |s| && key(s[i]) == k
    ensures PositionOf(s, key, k) < |s| && key(s[PositionOf(s, key, k)]) == k
  {
    var init := s[..|s| - 1];
    if key(s[|s| - 1]) != k {
      var i :| 0 <= i < |s| && key(s[i]) == k;
      assert key(init[i]) == k;
      PositionFinds(init, key, k);
      assert init[PositionOf(init, key, k)] == s[PositionOf(init, key, k)];
    }
  }

  lemma {:induction false} FilterDistinctBy<T>(s: seq<T>, key: T -> int, keep: T -> bool)
    requires DistinctBy(s, key)
    ensures DistinctBy(Filter(s, keep), key)
  {
    if s != [] {
      var init, last := s[..|s| - 1], s[|s| - 1];
      FilterDistinctBy(init, key, keep);
      FilterMembers(init, keep);
      forall j | 0 <= j < |Filter(init, keep)| ensures key(Filter(init, keep)[j]) != key(last) {
        assert Filter(init, keep)[j] in init;
      }
    }
  }

  /** Distinct keys, as a property of the bag of entries alone. */
  ghost predicate OnceBy<T>(bag: multiset<T>, key: T -> int) {
    forall x, y | x in bag && y in bag && key(x) == key(y) :: x == y && bag[x] == 1
  }

  lemma {:induction false} DistinctOnce<T>(s: seq<T>, key: T -> int)
    requires DistinctBy(s, key)
    ensures OnceBy(multiset(s), key)
  {
    if s != [] {
      var init, last := s[..|s| - 1], s[|s| - 1];
      DistinctOnce(init, key);
      assert s == init + [last];
      forall x | x in init ensures key(x) != key(last) {
        var i :| 0 <= i < |init| && init[i] == x;
        assert s[i] == x;
      }
    }
  }

  lemma {:induction false} OnceDistinct<T>(s: seq<T>, key: T -> int)
    requires OnceBy(multiset(s), key)
    ensures DistinctBy(s, key)
  {
    if s != [] {
      var init, last := s[..|s| - 1], s[|s| - 1];
      assert s == init + [last];
      assert multiset(s) == multiset(init) + multiset{last};
      OnceDistinct(init, key);
      forall i | 0 <= i < |init| ensures key(s[i]) != key(last) {
        assert init[i] in multiset(init) && s[i] == init[i];
      }
    }
  }

  /** Reordering keeps keys distinct. */
  lemma PermutedDistinct<T>(s: seq<T>, t: seq<T>, key: T -> int)
    requires DistinctBy(s, key) && multiset(s) == multiset(t)
    ensures DistinctBy(t, key)
  {
    DistinctOnce(s, key);
    OnceDistinct(t, key);
  }

  /** `len(xs) == len(set(xs))` tells whether a list is free of duplicates. */
  lemma {:induction false} CountsDistinct(xs: seq<int>)
    ensures |Elems(xs)| <= |xs|
    ensures |Elems(xs)| == |xs| <==> NoDup(xs)
  {
    if xs != [] {
      var init, last := xs[..|xs| - 1], xs[|xs| - 1];
      assert xs == init + [last];
      CountsDistinct(init);
      if last in init {
        assert Elems(xs) == Elems(init);
        var i :| 0 <= i < |init| && init[i] == last;
        assert xs[i] == xs[|xs| - 1];
      } else {
        assert Elems(xs) == Elems(init) + {last};
        if !NoDup(init) {
          var i, j :| 0 <= i < j < |init| && init[i] == init[j];
          assert xs[i] == xs[j];
        }
      }
    }
  }
}
