/** TraceLab prompts: diverging fillers, the shared warmup, and exact prefix reuse. */
module TraceLab {
  import opened Wrappers
  import opened Sequences
  import opened Arithmetic
  import opened TokenSource

  /** Seeds of the eight variants of one filler namespace. */
  type VariantSeeds = (Namespace, nat) -> seq<Token>

  const VARIANTS := 8

  // ---- fillers

  /** Position of the first token that differs from the forbidden one. */
  function FirstOther(seed: seq<Token>, forbidden: Option<Token>, from: nat): (r: Option<nat>)
    requires from <= |seed|
    ensures r.Some? ==> from <= r.value < |seed| && Some(seed[r.value]) != forbidden
    ensures r.Some? ==> forall i | from <= i < r.value :: Some(seed[i]) == forbidden
    ensures r.None? ==> forall i | from <= i < |seed| :: Some(seed[i]) == forbidden
    decreases |seed| - from
  {
    if from == |seed| then None
    else if Some(seed[from]) != forbidden then Some(from)
    else FirstOther(seed, forbidden, from + 1)
  }

  /** A seed read as an endless repetition. */
  function At(seed: seq<Token>, i: nat): (t: Token)
    requires seed != []
    ensures i < |seed| ==> t == seed[i]
  {
    seed[i % |seed|]
  }

  /** Repeats a seed from one of its positions. */
  function Rotated(seed: seq<Token>, first: nat, count: nat): (r: seq<Token>)
    requires first < |seed|
    ensures |r| == count && (count > 0 ==> r[0] == seed[first])
  {
    var r := seq(count, i requires 0 <= i < count => At(seed, first + i));
    assert count > 0 ==> r[0] == At(seed, first) == seed[first];
    r
  }

  /** A variant that can start with another token than the forbidden one. */
  predicate Diverges(seed: seq<Token>, forbidden: Option<Token>) {
    exists i :: 0 <= i < |seed| && Some(seed[i]) != forbidden
  }

  ghost predicate NoneBefore(seeds: VariantSeeds, ns: Namespace, v: nat, forbidden: Option<Token>) {
    forall u: nat | u < v :: seeds(ns, u) != [] && !Diverges(seeds(ns, u), forbidden)
  }

  /** The first variant that can diverge is taken, from its first position that does. */
  ghost predicate FirstChoice(seeds: VariantSeeds, ns: Namespace, forbidden: Option<Token>, v: nat, first: nat,
                              tokens: seq<Token>) {
    && v < VARIANTS && NoneBefore(seeds, ns, v, forbidden)
    && first < |seeds(ns, v)| && Some(seeds(ns, v)[first]) != forbidden
    && (forall i | 0 <= i < first :: Some(seeds(ns, v)[i]) == forbidden)
    && tokens == Rotated(seeds(ns, v), first, |tokens|)
  }

  /** Some variant diverges and no earlier one is empty. */
  ghost predicate FillerOk(seeds: VariantSeeds, ns: Namespace, count: int, forbidden: Option<Token>) {
    count <= 0 || exists v: nat ::
      v < VARIANTS && NoneBefore(seeds, ns, v, forbidden) && Diverges(seeds(ns, v), forbidden)
  }

  /** Without a forbidden token the first variant decides. */
  lemma FreeFiller(seeds: VariantSeeds, ns: Namespace, count: int)
    ensures FillerOk(seeds, ns, count, None) <==> count <= 0 || seeds(ns, 0) != []
  {
    if seeds(ns, 0) != [] { assert Some(seeds(ns, 0)[0]) != None && NoneBefore(seeds, ns, 0, None); }
    forall v: nat ensures NoneBefore(seeds, ns, v, None) ==> v == 0 {
      var first := seeds(ns, 0);
      if first != [] { assert Some(first[0]) != None; }
    }
  }

  method FillerTokenIds(seeds: VariantSeeds, ns: Namespace, count: int, forbidden: Option<Token>)
    returns (r: Result<seq<Token>, TokenError>)
    ensures r.Ok? ==> |r.value| == (if count < 0 then 0 else count)
    ensures r.Ok? && r.value != [] ==> Some(r.value[0]) != forbidden
    ensures r.Ok? && r.value != [] ==> exists v: nat, first: nat :: FirstChoice(seeds, ns, forbidden, v, first, r.value)
    ensures r.Ok? <==> FillerOk(seeds, ns, count, forbidden)
    ensures r == Err(NO_DIVERGENT_SUFFIX) <==>
      count > 0 && forall v | 0 <= v < VARIANTS :: seeds(ns, v) != [] && !Diverges(seeds(ns, v), forbidden)
    ensures r == Err(EMPTY_SEED) <==>
      count > 0 && exists v: nat :: v < VARIANTS && seeds(ns, v) == [] && NoneBefore(seeds, ns, v, forbidden)
    ensures r.Err? ==> r.error in {EMPTY_SEED, NO_DIVERGENT_SUFFIX}
  {
    if count <= 0 { return Ok([]); }
    for variant := 0 to VARIANTS
      invariant forall v | 0 <= v < variant :: seeds(ns, v) != [] && !Diverges(seeds(ns, v), forbidden)
    {
      var seed := seeds(ns, variant);
      if seed == [] { return Err(EMPTY_SEED); }
      var first := FirstOther(seed, forbidden, 0);
      if first.Some? {
        r := Ok(Rotated(seed, first.value, count));
        assert Diverges(seed, forbidden) && NoneBefore(seeds, ns, variant, forbidden);
        assert FirstChoice(seeds, ns, forbidden, variant, first.value, r.value);
        return;
      }
    }
    r := Err(NO_DIVERGENT_SUFFIX);
  }

  // ---- root prompts over the shared warmup

  /** A root request: its input target, its recorded cached prefix, and its filler namespace. */
  datatype Root = Root(id: int, target: int, prefix: Option<int>, filler: Namespace)

  function Reused(n: Root): int {
    if n.prefix.Some? then n.prefix.value else 0
  }

  ghost predicate RootOk(n: Root) {
    n.target > 0 && (n.prefix.Some? ==> 0 <= n.prefix.value <= n.target)
  }

  function Largest(xs: seq<int>): int {
    if xs == [] then 0
    else var m := Largest(xs[..|xs| - 1]); if m < xs[|xs| - 1] then xs[|xs| - 1] else m
  }

  /** The warmup length the trace manifest must declare: one more than the largest cached prefix of any first turn. */
  function WarmupLength(firstCached: seq<int>): int {
    Largest(firstCached) + 1
  }

  lemma {:induction false} WithinLargest(xs: seq<int>, i: nat)
    requires i < |xs|
    ensures xs[i] <= Largest(xs)
  {
    var m := |xs| - 1;
    if i < m { WithinLargest(xs[..m], i); }
  }

  /** The roots of a plan are first turns of the trace. */
  ghost predicate FirstTurns(roots: seq<Root>, firstCached: seq<int>) {
    forall i | 0 <= i < |roots| :: Reused(roots[i]) in firstCached
  }

  lemma WarmupExceeds(roots: seq<Root>, firstCached: seq<int>, i: nat)
    requires i < |roots| && FirstTurns(roots, firstCached) && RootOk(roots[i])
    ensures 0 <= Reused(roots[i]) < WarmupLength(firstCached)
  {
    var j :| 0 <= j < |firstCached| && firstCached[j] == Reused(roots[i]);
    WithinLargest(firstCached, j);
  }

  /** The first candidate that is neither used at this prefix nor the warmup's own continuation. */
  function FirstFree(candidates: seq<Token>, used: set<Token>, forbidden: Token): (r: Option<Token>)
    ensures r.Some? ==> r.value in candidates && r.value !in used && r.value != forbidden
    ensures r.None? ==> forall c | c in candidates :: c in used || c == forbidden
  {
    if candidates == [] then None
    else if candidates[0] !in used && candidates[0] != forbidden then Some(candidates[0])
    else FirstFree(candidates[1..], used, forbidden)
  }

  /** Branch tokens recorded per root: they leave the warmup and each other right after the reused prefix. */
  ghost predicate BranchesOk(warmup: seq<Token>, roots: seq<Root>, branches: map<int, Token>) {
    && (forall i | 0 <= i < |roots| && Reused(roots[i]) != roots[i].target ::
          && roots[i].id in branches && 0 <= Reused(roots[i]) < |warmup|
          && branches[roots[i].id] != warmup[Reused(roots[i])])
    && (forall i, j | 0 <= i < j < |roots| && Reused(roots[i]) == Reused(roots[j])
          && Reused(roots[i]) != roots[i].target && Reused(roots[j]) != roots[j].target ::
          roots[i].id in branches && roots[j].id in branches && branches[roots[i].id] != branches[roots[j].id])
  }

  ghost predicate DistinctIds(roots: seq<Root>) {
    forall i, j | 0 <= i < j < |roots| :: roots[i].id != roots[j].id
  }

  /** Tokens already given out at each prefix length. */
  ghost predicate UsedOk(roots: seq<Root>, n: nat, branches: map<int, Token>, used: map<int, set<Token>>)
    requires n <= |roots|
  {
    forall i | 0 <= i < n && Reused(roots[i]) != roots[i].target ::
      roots[i].id in branches && Reused(roots[i]) in used && branches[roots[i].id] in used[Reused(roots[i])]
  }

  /** Roots that need a branch token right after this prefix. */
  function Demand(roots: seq<Root>, prefix: int): nat {
    if roots == [] then 0
    else
      var m := |roots| - 1;
      Demand(roots[..m], prefix) + if Reused(roots[m]) == prefix && prefix != roots[m].target then 1 else 0
  }

  lemma {:induction false} DemandGrows(roots: seq<Root>, prefix: int, n: nat)
    requires n <= |roots|
    ensures Demand(roots[..n], prefix) <= Demand(roots, prefix)
    decreases |roots|
  {
    if n < |roots| {
      DemandGrows(roots[..|roots| - 1], prefix, n);
      assert roots[..|roots| - 1][..n] == roots[..n];
    } else {
      assert roots[..n] == roots;
    }
  }

  /** Tokens that may continue a root after a prefix. */
  function Usable(candidates: seq<Token>, forbidden: Token): set<Token> {
    set c | c in candidates && c != forbidden
  }

  /** At no prefix do more roots branch off than there are candidates for. */
  ghost predicate BranchesSuffice(warmup: seq<Token>, roots: seq<Root>, candidates: seq<Token>) {
    forall p: nat | p < |warmup| :: Demand(roots, p) <= |Usable(candidates, warmup[p])|
  }

  /** The tokens given out at each prefix, one for every root so far that needed one. */
  ghost predicate Supplied(warmup: seq<Token>, roots: seq<Root>, candidates: seq<Token>, used: map<int, set<Token>>) {
    && (forall p | p in used ::
      && 0 <= p < |warmup| && used[p] <= Usable(candidates, warmup[p]) && |used[p]| == Demand(roots, p))
    && (forall p | p !in used :: Demand(roots, p) == 0)
  }

  lemma NothingSupplied(warmup: seq<Token>, candidates: seq<Token>)
    ensures Supplied(warmup, [], candidates, map[])
  {
  }

  lemma SupplyEnds(warmup: seq<Token>, roots: seq<Root>, candidates: seq<Token>, used: map<int, set<Token>>)
    requires Supplied(warmup, roots, candidates, used)
    ensures BranchesSuffice(warmup, roots, candidates)
  {
    forall p: nat | p < |warmup| ensures Demand(roots, p) <= |Usable(candidates, warmup[p])| {
      if p in used { FewerMembers(used[p], Usable(candidates, warmup[p])); }
    }
  }

  lemma Supply(warmup: seq<Token>, roots: seq<Root>, n: nat, candidates: seq<Token>, used: map<int, set<Token>>,
               branch: Token)
    requires n < |roots| && 0 <= Reused(roots[n]) < |warmup| && Reused(roots[n]) != roots[n].target
    requires Supplied(warmup, roots[..n], candidates, used)
    requires branch in Usable(candidates, warmup[Reused(roots[n])])
    requires Reused(roots[n]) in used ==> branch !in used[Reused(roots[n])]
    ensures var taken := if Reused(roots[n]) in used then used[Reused(roots[n])] else {};
      Supplied(warmup, roots[..n + 1], candidates, used[Reused(roots[n]) := taken + {branch}])
  {
    var reused := Reused(roots[n]);
    assert roots[..n + 1][..n] == roots[..n];
    var taken := if reused in used then used[reused] else {};
    assert |taken + {branch}| == |taken| + 1;
    forall p: int ensures Demand(roots[..n + 1], p) == Demand(roots[..n], p) + if p == reused then 1 else 0 { }
  }

  /** A root that finds every candidate used has more demand at its prefix than candidates. */
  lemma Exhausted(warmup: seq<Token>, roots: seq<Root>, n: nat, candidates: seq<Token>, used: map<int, set<Token>>)
    requires n < |roots| && 0 <= Reused(roots[n]) < |warmup| && Reused(roots[n]) != roots[n].target
    requires Supplied(warmup, roots[..n], candidates, used)
    requires var taken := if Reused(roots[n]) in used then used[Reused(roots[n])] else {};
      Usable(candidates, warmup[Reused(roots[n])]) <= taken
    ensures !BranchesSuffice(warmup, roots, candidates)
  {
    var reused := Reused(roots[n]);
    assert roots[..n + 1][..n] == roots[..n];
    assert Demand(roots[..n + 1], reused) == Demand(roots[..n], reused) + 1;
    DemandGrows(roots, reused, n + 1);
    FewerMembers(Usable(candidates, warmup[reused]), if reused in used then used[reused] else {});
  }

  /** The warmup exceeds every root prefix, so its lookup never leaves the list, and branch tokens run out exactly when
      more roots branch off at one prefix than there are candidates for. */
  method PrepareWarmup(warmup: seq<Token>, firstCached: seq<int>, roots: seq<Root>, candidates: seq<Token>)
    returns (r: Result<map<int, Token>, TokenError>)
    requires (forall i | 0 <= i < |roots| :: RootOk(roots[i])) && DistinctIds(roots) && FirstTurns(roots, firstCached)
    requires |warmup| == WarmupLength(firstCached)
    ensures r.Ok? <==> BranchesSuffice(warmup, roots, candidates)
    ensures r.Err? ==> r.error == NO_BRANCH_TOKEN
    ensures r.Ok? ==> BranchesOk(warmup, roots, r.value)
    ensures r.Ok? ==> forall k | k in r.value :: exists i ::
      0 <= i < |roots| && roots[i].id == k && Reused(roots[i]) != roots[i].target
  {
    hide Supplied, BranchesSuffice, Demand, WarmupLength, FirstTurns;
    NothingSupplied(warmup, candidates);
    assert roots[..0] == [];
    var branches: map<int, Token> := map[];
    var usedByPrefix: map<int, set<Token>> := map[];
    for n := 0 to |roots|
      invariant BranchesOk(warmup, roots[..n], branches) && UsedOk(roots, n, branches, usedByPrefix)
      invariant Supplied(warmup, roots[..n], candidates, usedByPrefix)
      invariant forall k | k in branches :: exists i ::
        0 <= i < n && roots[i].id == k && Reused(roots[i]) != roots[i].target
    {
      var node := roots[n];
      assert roots[..n + 1] == roots[..n] + [node];
      var reused := Reused(node);
      if reused != node.target {
        WarmupExceeds(roots, firstCached, n);
        var used := if reused in usedByPrefix then usedByPrefix[reused] else {};
        var branch := FirstFree(candidates, used, warmup[reused]);
        if branch.None? {
          Exhausted(warmup, roots, n, candidates, usedByPrefix);
          return Err(NO_BRANCH_TOKEN);
        }
        Supply(warmup, roots, n, candidates, usedByPrefix, branch.value);
        BranchAdded(warmup, roots, n, branches, usedByPrefix, branch.value);
        usedByPrefix := usedByPrefix[reused := used + {branch.value}];
        branches := branches[node.id := branch.value];
      } else {
        NoSupply(warmup, roots, n, candidates, usedByPrefix);
      }
    }
    SupplyEnds(warmup, roots[..|roots|], candidates, usedByPrefix);
    assert roots[..|roots|] == roots;
    r := Ok(branches);
  }

  lemma NoSupply(warmup: seq<Token>, roots: seq<Root>, n: nat, candidates: seq<Token>, used: map<int, set<Token>>)
    requires n < |roots| && Reused(roots[n]) == roots[n].target
    requires Supplied(warmup, roots[..n], candidates, used)
    ensures Supplied(warmup, roots[..n + 1], candidates, used)
  {
    assert roots[..n + 1][..n] == roots[..n];
    forall p: int ensures Demand(roots[..n + 1], p) == Demand(roots[..n], p) { }
  }

  lemma BranchAdded(warmup: seq<Token>, roots: seq<Root>, n: nat, branches: map<int, Token>,
                    used: map<int, set<Token>>, branch: Token)
    requires DistinctIds(roots) && n < |roots| && Reused(roots[n]) != roots[n].target
    requires BranchesOk(warmup, roots[..n], branches) && UsedOk(roots, n, branches, used)
    requires 0 <= Reused(roots[n]) < |warmup| && branch != warmup[Reused(roots[n])]
    requires Reused(roots[n]) in used ==> branch !in used[Reused(roots[n])]
    ensures var taken := if Reused(roots[n]) in used then used[Reused(roots[n])] else {};
      && BranchesOk(warmup, roots[..n + 1], branches[roots[n].id := branch])
      && UsedOk(roots, n + 1, branches[roots[n].id := branch], used[Reused(roots[n]) := taken + {branch}])
  {
    var more := branches[roots[n].id := branch];
    forall i | 0 <= i < n ensures roots[..n][i] == roots[i] && roots[i].id != roots[n].id { }
  }

  // ---- prompts

  /** Exactly the target length, beginning with the reused part of what came before. */
  ghost predicate PromptShape(n: Root, previous: seq<Token>, tokens: seq<Token>, reused: nat) {
    && n.prefix.Some? && reused == Reuse(n, previous)
    && |tokens| == n.target && reused <= |tokens| && tokens[..reused] == previous[..reused]
  }

  /** Input and output token ids of the predecessor. */
  type Exchange = (Option<seq<Token>>, Option<seq<Token>>)

  /** What a root or continuation prompt builds on. */
  function Previous(warmup: Option<seq<Token>>, context: Option<Exchange>): Result<seq<Token>, TokenError> {
    match context
    case None => if warmup.Some? then Ok(warmup.value) else Err(NO_WARMUP)
    case Some((Some(input), Some(output))) => Ok(input + output)
    case Some(_) => Err(MISSING_CONTEXT_IDS)
  }

  /** The context is there exactly when expected, and the recorded prefix lies within the prompt. */
  predicate WellFormed(n: Root, continues: bool, context: Option<Exchange>) {
    continues == context.Some? && n.prefix.Some? && 0 <= n.prefix.value <= n.target
  }

  function Reuse(n: Root, previous: seq<Token>): int
    requires n.prefix.Some?
  {
    Min(n.prefix.value, |previous|)
  }

  /** The filler that follows the reused prefix can be made. */
  ghost predicate SuffixOk(seeds: VariantSeeds, n: Root, branched: bool, previous: seq<Token>)
    requires n.prefix.Some? && 0 <= n.prefix.value
  {
    var reused := Reuse(n, previous);
    if branched then FillerOk(seeds, n.filler, n.target - reused - 1, None)
    else FillerOk(seeds, n.filler, n.target - reused, if reused < |previous| then Some(previous[reused]) else None)
  }

  /** Reuses the predecessor's transcript, or the warmup, up to the recorded prefix and continues with a diverging
      suffix. A branch token is recorded only for roots that have something to append. */
  method TraceLabPrompt(seeds: VariantSeeds, n: Root, continues: bool, warmup: Option<seq<Token>>,
                        branches: map<int, Token>, context: Option<Exchange>)
    returns (r: Result<(seq<Token>, nat), TokenError>)
    requires n.id in branches ==> n.prefix != Some(n.target)
    ensures r == Err(INCONSISTENT_CONTEXT) <==> continues != context.Some?
    ensures r == Err(INVALID_PREFIX) <==>
      continues == context.Some? && (n.prefix.None? || n.prefix.value < 0 || n.prefix.value > n.target)
    ensures r == Err(NO_WARMUP) <==> WellFormed(n, continues, context) && context.None? && warmup.None?
    ensures r == Err(MISSING_CONTEXT_IDS) <==>
      WellFormed(n, continues, context) && context.Some? && (context.value.0.None? || context.value.1.None?)
    ensures r.Ok? <==>
      && WellFormed(n, continues, context) && Previous(warmup, context).Ok?
      && SuffixOk(seeds, n, context.None? && n.id in branches, Previous(warmup, context).value)
    ensures r.Ok? ==>
      Previous(warmup, context).Ok? && PromptShape(n, Previous(warmup, context).value, r.value.0, r.value.1)
    ensures r.Ok? && r.value.1 < n.target && context.None? && n.id in branches ==>
      r.value.0[r.value.1] == branches[n.id]
    ensures
      && r.Ok? && r.value.1 < n.target && (context.Some? || n.id !in branches)
      && r.value.1 < |Previous(warmup, context).value|
      ==> r.value.0[r.value.1] != Previous(warmup, context).value[r.value.1]
  {
    if continues != context.Some? { return Err(INCONSISTENT_CONTEXT); }
    if n.prefix.None? || n.prefix.value < 0 || n.prefix.value > n.target { return Err(INVALID_PREFIX); }
    var before := Previous(warmup, context);
    if before.Err? { return Err(before.error); }
    var previous := before.value;
    var reused := Reuse(n, previous);
    var forbidden := if reused < |previous| then Some(previous[reused]) else None;
    var suffix: Result<seq<Token>, TokenError>;
    if context.None? && n.id in branches {
      suffix := FillerTokenIds(seeds, n.filler, n.target - reused - 1, None);
      if suffix.Ok? { suffix := Ok([branches[n.id]] + suffix.value); }
    } else {
      suffix := FillerTokenIds(seeds, n.filler, n.target - reused, forbidden);
    }
    if suffix.Err? { return Err(suffix.error); }
    r := Ok((previous[..reused] + suffix.value, reused));
    assert r.value.0[..reused] == previous[..reused];
    assert suffix.value != [] ==> r.value.0[reused] == suffix.value[0];
  }

  // ---- how much prompts share

  /** Length of the longest common prefix. */
  function Shared(a: seq<Token>, b: seq<Token>): nat {
    if a == [] || b == [] || a[0] != b[0] then 0 else 1 + Shared(a[1..], b[1..])
  }

  lemma {:induction false} SharedIs(a: seq<Token>, b: seq<Token>, n: nat)
    requires n <= |a| && n <= |b| && a[..n] == b[..n] && (n < |a| && n < |b| ==> a[n] != b[n])
    ensures Shared(a, b) == n
    decreases n
  {
    if n > 0 {
      assert a[0] == a[..n][0] == b[..n][0];
      assert a[1..][..n - 1] == a[..n][1..] && b[1..][..n - 1] == b[..n][1..];
      SharedIs(a[1..], b[1..], n - 1);
    }
  }

  /** A root prompt as the method above builds it from the prepared warmup. */
  ghost predicate RootPrompt(warmup: seq<Token>, branches: map<int, Token>, n: Root, tokens: seq<Token>) {
    && Reused(n) >= 0 && PromptShape(n, warmup, tokens, Reused(n))
    && (Reused(n) < n.target ==> n.id in branches && tokens[Reused(n)] == branches[n.id])
  }

  /** Any two root prompts of a plan share exactly the smaller of their reused prefixes, and the warmup exactly each
      one's own. */
  lemma RootsShareReused(warmup: seq<Token>, firstCached: seq<int>, roots: seq<Root>, branches: map<int, Token>,
                         i: nat, j: nat, a: seq<Token>, b: seq<Token>)
    requires i < j < |roots| && RootOk(roots[i]) && RootOk(roots[j]) && FirstTurns(roots, firstCached)
    requires |warmup| == WarmupLength(firstCached) && BranchesOk(warmup, roots, branches)
    requires RootPrompt(warmup, branches, roots[i], a)
    requires RootPrompt(warmup, branches, roots[j], b)
    ensures Shared(a, b) == Min(Reused(roots[i]), Reused(roots[j]))
    ensures Shared(a, warmup) == Reused(roots[i])
  {
    var m, n := Reused(roots[i]), Reused(roots[j]);
    WarmupExceeds(roots, firstCached, i);
    WarmupExceeds(roots, firstCached, j);
    var least := Min(m, n);
    assert a[..least] == a[..m][..least] == warmup[..m][..least] == warmup[..least];
    assert b[..least] == b[..n][..least] == warmup[..n][..least] == warmup[..least];
    if m < n { assert b[m] == b[..n][m] == warmup[m]; }
    if n < m { assert a[n] == a[..m][n] == warmup[n]; }
    SharedIs(a, b, least);
    SharedIs(a, warmup, m);
  }

  /** A continuation shares exactly its reused prefix with its predecessor's transcript, unless it reuses or appends
      everything. */
  lemma ContinuationSharesReused(n: Root, previous: seq<Token>, tokens: seq<Token>, reused: nat)
    requires PromptShape(n, previous, tokens, reused)
    requires reused < n.target && reused < |previous| ==> tokens[reused] != previous[reused]
    ensures Shared(tokens, previous) == reused
  {
    SharedIs(tokens, previous, reused);
  }

  lemma AllShareReused(warmup: seq<Token>, firstCached: seq<int>, roots: seq<Root>, branches: map<int, Token>,
                       prompts: seq<seq<Token>>)
    requires forall i | 0 <= i < |roots| :: RootOk(roots[i])
    requires FirstTurns(roots, firstCached) && |warmup| == WarmupLength(firstCached)
    requires BranchesOk(warmup, roots, branches) && |prompts| == |roots|
    requires forall i | 0 <= i < |roots| :: RootPrompt(warmup, branches, roots[i], prompts[i])
    ensures forall i, j | 0 <= i < j < |roots| ::
      Shared(prompts[i], prompts[j]) == Min(Reused(roots[i]), Reused(roots[j]))
  {
    hide *;
    forall i, j | 0 <= i < j < |roots|
      ensures Shared(prompts[i], prompts[j]) == Min(Reused(roots[i]), Reused(roots[j]))
    {
      RootsShareReused(warmup, firstCached, roots, branches, i, j, prompts[i], prompts[j]);
    }
  }

  /** Every root that continues past its branch token has a seed to continue with. */
  ghost predicate SeedsSuffice(seeds: VariantSeeds, roots: seq<Root>, n: nat)
    requires n <= |roots|
  {
    forall i | 0 <= i < n && Reused(roots[i]) + 1 < roots[i].target :: seeds(roots[i].filler, 0) != []
  }

  /** One pass over the roots of a plan: every prompt is built, and any two of them share exactly the smaller reused
      prefix. */
  method BuildRoots(seeds: VariantSeeds, warmup: seq<Token>, firstCached: seq<int>, roots: seq<Root>,
                    candidates: seq<Token>)
    returns (r: Result<seq<seq<Token>>, TokenError>)
    requires (forall i | 0 <= i < |roots| :: RootOk(roots[i]) && roots[i].prefix.Some?) && DistinctIds(roots)
    requires FirstTurns(roots, firstCached) && |warmup| == WarmupLength(firstCached)
    ensures r.Ok? <==> BranchesSuffice(warmup, roots, candidates) && SeedsSuffice(seeds, roots, |roots|)
    ensures r.Ok? ==> |r.value| == |roots| && forall i | 0 <= i < |roots| :: |r.value[i]| == roots[i].target
    ensures r.Ok? ==> forall i, j | 0 <= i < j < |roots| ::
      Shared(r.value[i], r.value[j]) == Min(Reused(roots[i]), Reused(roots[j]))
  {
    hide Shared, FirstTurns, WarmupLength, BranchesOk, BranchesSuffice, SuffixOk;
    var prepared := PrepareWarmup(warmup, firstCached, roots, candidates);
    if prepared.Err? { return Err(prepared.error); }
    var branches := prepared.value;
    var prompts: seq<seq<Token>> := [];
    for n := 0 to |roots|
      invariant |prompts| == n && SeedsSuffice(seeds, roots, n)
      invariant forall i | 0 <= i < n :: RootPrompt(warmup, branches, roots[i], prompts[i])
    {
      WarmupExceeds(roots, firstCached, n);
      BranchRecorded(warmup, roots, branches, n);
      var prompt := TraceLabPrompt(seeds, roots[n], false, Some(warmup), branches, None);
      RootSuffix(seeds, roots[n], roots[n].id in branches, warmup);
      if prompt.Err? { return Err(prompt.error); }
      prompts := prompts + [prompt.value.0];
    }
    AllShareReused(warmup, firstCached, roots, branches, prompts);
    r := Ok(prompts);
  }

  lemma RootSuffix(seeds: VariantSeeds, n: Root, branched: bool, warmup: seq<Token>)
    requires RootOk(n) && n.prefix.Some? && Reused(n) < |warmup| && (branched <==> Reused(n) != n.target)
    ensures SuffixOk(seeds, n, branched, warmup) <==> (Reused(n) + 1 < n.target ==> seeds(n.filler, 0) != [])
  {
    FreeFiller(seeds, n.filler, n.target - Reused(n) - 1);
  }

  lemma BranchRecorded(warmup: seq<Token>, roots: seq<Root>, branches: map<int, Token>, n: nat)
    requires n < |roots| && BranchesOk(warmup, roots, branches) && DistinctIds(roots)
    requires forall k | k in branches :: exists i ::
      0 <= i < |roots| && roots[i].id == k && Reused(roots[i]) != roots[i].target
    ensures roots[n].id in branches <==> Reused(roots[n]) != roots[n].target
  {
  }
}
