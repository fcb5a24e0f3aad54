/** What a hash snapshot renders to, without any cache. */
module HashSnapshots {
  import opened Arithmetic
  import opened TokenSource

  /** One cached block: runtime session, source model, hash id, and the number of tokens. */
  datatype BlockKey = BlockKey(session: string, model: string, hashId: nat, size: nat)

  /** The 32-byte SHA-256 digest of a block identity and a counter. */
  type Digest = (string, string, nat, nat) -> seq<nat>

  const DIGEST_BYTES := 32

  ghost predicate DigestOk(d: Digest) {
    forall s, m, h, c :: |d(s, m, h, c)| == DIGEST_BYTES
  }

  /** Byte `i` of the endless digest stream of one block identity. */
  function StreamByte(d: Digest, session: string, model: string, hashId: nat, i: nat): nat {
    var bytes := d(session, model, hashId, i / DIGEST_BYTES);
    if i % DIGEST_BYTES < |bytes| then bytes[i % DIGEST_BYTES] else 0
  }

  function StreamToken(d: Digest, palette: seq<Token>, session: string, model: string, hashId: nat, i: nat): Token
    requires palette != []
  {
    palette[StreamByte(d, session, model, hashId, i) % |palette|]
  }

  function Block(d: Digest, palette: seq<Token>, k: BlockKey): (block: seq<Token>)
    requires palette != []
    ensures |block| == k.size
  {
    seq(k.size, i requires 0 <= i < k.size => StreamToken(d, palette, k.session, k.model, k.hashId, i))
  }

  /** A validated recipe. */
  datatype Recipe = Recipe(localScope: bool, size: int, inputTokens: int, hashes: seq<int>, model: string)

  predicate RecipeOk(r: Recipe) {
    && r.localScope && r.size >= 1 && r.inputTokens >= 1 && r.hashes != []
    && |r.hashes| == (r.inputTokens + r.size - 1) / r.size
    && (forall i | 0 <= i < |r.hashes| :: r.hashes[i] >= 0) && r.model != ""
  }

  /** Token `p` of a snapshot comes from block `p / size`, at offset `p % size` of that block's stream. */
  function TokenAt(d: Digest, palette: seq<Token>, r: Recipe, session: string, p: nat): Token
    requires palette != []
  {
    var block := if r.size >= 1 then p / r.size else 0;
    if r.size >= 1 && block < |r.hashes| && r.hashes[block] >= 0
    then StreamToken(d, palette, session, r.model, r.hashes[block], p % r.size)
    else 0
  }

  function Rendered(d: Digest, palette: seq<Token>, r: Recipe, session: string): seq<Token>
    requires palette != []
  {
    seq(if r.inputTokens < 0 then 0 else r.inputTokens,
        p requires 0 <= p => TokenAt(d, palette, r, session, p))
  }

  /** Extending a recipe's hash list extends its rendering, even when the old last block was partial. */
  lemma ExtensionKeepsPrefix(d: Digest, palette: seq<Token>, r: Recipe, longer: Recipe, session: string)
    requires palette != [] && RecipeOk(r) && RecipeOk(longer)
    requires r.size == longer.size && r.model == longer.model && r.hashes <= longer.hashes
    requires |r.hashes| == |longer.hashes| ==> r.inputTokens <= longer.inputTokens
    ensures Rendered(d, palette, r, session) <= Rendered(d, palette, longer, session)
  {
    LongerCounts(r, longer);
    hide RecipeOk, TokenAt;
    forall p: nat | p < r.inputTokens
      ensures TokenAt(d, palette, r, session, p) == TokenAt(d, palette, longer, session, p) {
      SameToken(d, palette, r, longer, session, p);
    }
  }

  lemma SameToken(d: Digest, palette: seq<Token>, r: Recipe, longer: Recipe, session: string, p: nat)
    requires palette != [] && RecipeOk(r) && r.size == longer.size && r.model == longer.model
    requires r.hashes <= longer.hashes && p < r.inputTokens
    ensures TokenAt(d, palette, r, session, p) == TokenAt(d, palette, longer, session, p)
  {
    BlockInRange(r, p);
    var block := p / r.size;
    assert r.hashes[block] == longer.hashes[block];
    hide StreamToken, RecipeOk;
  }

  lemma LongerCounts(r: Recipe, longer: Recipe)
    requires RecipeOk(r) && RecipeOk(longer) && r.size == longer.size && r.hashes <= longer.hashes
    requires |r.hashes| == |longer.hashes| ==> r.inputTokens <= longer.inputTokens
    ensures r.inputTokens <= longer.inputTokens
  {
    if |r.hashes| < |longer.hashes| {
      BlocksCover(r);
      BlocksCover(longer);
      hide RecipeOk;
      FewerBlocks(|r.hashes|, |longer.hashes|, r.size);
    }
  }

  lemma BlocksCover(r: Recipe)
    requires RecipeOk(r)
    ensures (|r.hashes| - 1) * r.size < r.inputTokens <= |r.hashes| * r.size
  {
    var q := r.inputTokens + r.size - 1;
    assert q == q / r.size * r.size + q % r.size;
    assert (|r.hashes| - 1) * r.size == |r.hashes| * r.size - r.size;
  }

  lemma FewerBlocks(m: nat, n: nat, size: nat)
    requires m < n
    ensures m * size <= (n - 1) * size
  {
    LeTimes(m, n - 1, size);
  }

  lemma BlockInRange(r: Recipe, p: nat)
    requires RecipeOk(r) && p < r.inputTokens
    ensures p / r.size < |r.hashes|
  {
    BlocksCover(r);
    QuotientBelow(p, |r.hashes|, r.size);
  }
}

/** Least-recently-used order, independent of what is cached. */
module RecencyOrder {
  import opened Sequences
  import opened HashSnapshots

  /** The key moves to the most recent end. */
  function Touch(order: seq<BlockKey>, k: BlockKey): seq<BlockKey> {
    Filter(order, Outside({k})) + [k]
  }

  /** Distinct keys by last use, oldest first. */
  function Recency(calls: seq<BlockKey>): seq<BlockKey> {
    if calls == [] then [] else Touch(Recency(calls[..|calls| - 1]), calls[|calls| - 1])
  }

  /** The `cap` most recent entries. */
  function Newest(order: seq<BlockKey>, cap: nat): seq<BlockKey> {
    if |order| <= cap then order else order[|order| - cap..]
  }

  /** One touch with eviction of the oldest entry. */
  function Admit(order: seq<BlockKey>, k: BlockKey, cap: nat): seq<BlockKey> {
    Newest(Touch(order, k), cap)
  }

  function Admitted(calls: seq<BlockKey>, cap: nat): seq<BlockKey> {
    if calls == [] then [] else Admit(Admitted(calls[..|calls| - 1], cap), calls[|calls| - 1], cap)
  }

  /** Dropping old entries first and touching afterwards keeps the same newest entries. */
  lemma AdmitNewest(order: seq<BlockKey>, k: BlockKey, cap: nat)
    requires NoDup(order) && cap >= 1
    ensures Admit(Newest(order, cap), k, cap) == Newest(Touch(order, k), cap)
  {
    if |order| > cap {
      var stale, recent := order[..|order| - cap], order[|order| - cap..];
      assert order == stale + recent;
      FilterConcat(stale, recent, Outside({k}));
      if k in recent {
        FilterShorter(recent, k);
      } else {
        FilterAll(recent, Outside({k}));
      }
      assert Touch(order, k) == Filter(stale, Outside({k})) + Touch(recent, k);
      NewestOfSuffix(Filter(stale, Outside({k})), Touch(recent, k), cap);
    }
  }

  lemma NewestOfSuffix(a: seq<BlockKey>, b: seq<BlockKey>, cap: nat)
    requires |b| >= cap
    ensures Newest(a + b, cap) == Newest(b, cap)
  {
  }

  /** Removing a key that occurs shortens a list without duplicates by one. */
  lemma {:induction false} FilterShorter(s: seq<BlockKey>, k: BlockKey)
    requires NoDup(s) && k in s
    ensures |Filter(s, Outside({k}))| == |s| - 1
  {
    var init, last := s[..|s| - 1], s[|s| - 1];
    assert s == init + [last];
    if last == k {
      FilterAll(init, Outside({k}));
    } else {
      FilterShorter(init, k);
    }
  }

  lemma TouchDistinct(order: seq<BlockKey>, k: BlockKey)
    requires NoDup(order)
    ensures NoDup(Touch(order, k))
    ensures forall x :: x in Touch(order, k) <==> x in order || x == k
  {
    FilterNoDup(order, Outside({k}));
    FilterMembers(order, Outside({k}));
    var kept := Filter(order, Outside({k}));
    assert !Outside({k})(k) && k !in kept;
    forall x ensures x in Touch(order, k) <==> x in order || x == k {
      assert Outside({k})(x) <==> x != k;
    }
  }

  lemma {:induction false} RecencyDistinct(calls: seq<BlockKey>)
    ensures NoDup(Recency(calls)) && forall k :: k in Recency(calls) <==> k in calls
  {
    if calls != [] {
      var init, last := calls[..|calls| - 1], calls[|calls| - 1];
      RecencyDistinct(init);
      TouchDistinct(Recency(init), last);
      assert calls == init + [last];
      hide Touch, NoDup;
    }
  }

  /** After any sequence of calls the cache holds exactly the most recently used keys, in order of last use. */
  lemma {:induction false} CacheHoldsMostRecent(calls: seq<BlockKey>, cap: nat)
    requires cap >= 1
    ensures Admitted(calls, cap) == Newest(Recency(calls), cap)
  {
    if calls != [] {
      var init := calls[..|calls| - 1];
      CacheHoldsMostRecent(init, cap);
      RecencyDistinct(init);
      AdmitNewest(Recency(init), calls[|calls| - 1], cap);
    }
  }
}

/** `TokenBlockRenderer`: renders hash snapshots through a bounded cache of blocks. */
module TokenBlockModel {
  import opened Wrappers
  import opened Arithmetic
  import opened Sequences
  import opened OrderedDict
  import opened TokenSource
  import opened HashSnapshots
  import opened RecencyOrder

  /** First occurrences only, in order. */
  function Distinct(s: seq<Token>): (r: seq<Token>)
    ensures NoDup(r) && (forall t :: t in r <==> t in s)
  {
    if s == [] then []
    else
      assert s == s[..|s| - 1] + [s[|s| - 1]];
      var r := Distinct(s[..|s| - 1]);
      if s[|s| - 1] in r then r else r + [s[|s| - 1]]
  }

  datatype RenderError = INVALID_IDENTITY | INVALID_RECIPE | NOT_LOCAL

  class TokenBlockRenderer {
    const digest: Digest
    const palette: seq<Token>
    const cacheBlocks: nat
    var cache: Dict<BlockKey, seq<Token>>

    /** Every cached block is what an uncached rendering would produce. */
    ghost predicate Valid()
      reads this
    {
      && DigestOk(digest) && palette != [] && cacheBlocks >= 1
      && cache.Valid() && |cache.order| <= cacheBlocks
      && forall k | k in cache.at :: cache.at[k] == Block(digest, palette, k)
    }

    /** The palette drops its repetitions; at least two distinct tokens must be there. */
    constructor (digest: Digest, palette: seq<Token>, cacheBlocks: nat)
      requires DigestOk(digest) && |Elems(palette)| >= 2 && (forall t | t in palette :: t >= 0) && cacheBlocks >= 1
      ensures Valid() && this.digest == digest && this.cacheBlocks == cacheBlocks && cache.order == []
      ensures this.palette == Distinct(palette)
    {
      assert Elems<Token>([]) == {};
      this.digest, this.palette, this.cacheBlocks := digest, Distinct(palette), cacheBlocks;
      cache := Dict([], map[]);
    }

    /** The cached form returns exactly the uncached block and keeps the most recently used entries. */
    method RenderBlock(session: string, model: string, hashId: int, size: int)
      returns (r: Result<seq<Token>, RenderError>)
      requires Valid()
      modifies this`cache
      ensures Valid()
      ensures r.Err? <==> session == "" || model == "" || hashId < 0 || size < 1
      ensures r.Err? ==> cache == old(cache)
      ensures r.Ok? ==> r.value == Block(digest, palette, BlockKey(session, model, hashId, size))
      ensures r.Ok? ==> cache.order == Admit(old(cache.order), BlockKey(session, model, hashId, size), cacheBlocks)
    {
      if session == "" || model == "" || hashId < 0 || size < 1 { return Err(INVALID_IDENTITY); }
      hide Block, StreamToken;
      var key := BlockKey(session, model, hashId, size);
      if key in cache.at {
        Hit(key);
        r := Ok(cache.at[key]);
        cache := cache.Remove(key).Put(key, cache.at[key]);
        return;
      }
      var block := FreshBlock(key);
      Miss(key, block);
      cache := cache.Put(key, block);
      if |cache.order| > cacheBlocks {
        Evict(cache);
        cache := cache.Remove(cache.order[0]);
      }
      r := Ok(block);
    }

    /** Draws digests until enough bytes are there. */
    method FreshBlock(key: BlockKey) returns (block: seq<Token>)
      requires Valid()
      ensures block == Block(digest, palette, key)
    {
      var values: seq<nat> := [];
      var counter := 0;
      while |values| < key.size
        invariant |values| == DIGEST_BYTES * counter
        invariant forall i: nat | i < |values| :: values[i] == StreamByte(digest, key.session, key.model, key.hashId, i)
        decreases key.size - |values|
      {
        var bytes := digest(key.session, key.model, key.hashId, counter);
        forall i: nat | |values| <= i < |values| + DIGEST_BYTES
          ensures StreamByte(digest, key.session, key.model, key.hashId, i) == bytes[i - |values|]
        {
          QuotientUnique(counter, DIGEST_BYTES, i - |values|);
        }
        values := values + bytes;
        counter := counter + 1;
      }
      block := seq(key.size, i requires 0 <= i < key.size && key.size <= |values| && palette != [] =>
                               palette[values[i] % |palette|]);
    }

    /** A hit only moves its entry. */
    lemma Hit(key: BlockKey)
      requires Valid() && key in cache.at
      ensures cache.at[key] == Block(digest, palette, key)
      ensures var c := cache.Remove(key).Put(key, cache.at[key]);
        c.Valid() && c.at == cache.at && c.order == Admit(cache.order, key, cacheBlocks) && |c.order| <= cacheBlocks
    {
      hide Block;
      cache.RemoveAllValid({key});
      cache.Remove(key).PutValid(key, cache.at[key]);
      FilterShorter(cache.order, key);
      assert cache.Remove(key).Put(key, cache.at[key]).at == cache.at;
    }

    /** A miss appends its entry. */
    lemma Miss(key: BlockKey, block: seq<Token>)
      requires Valid() && key !in cache.at && block == Block(digest, palette, key)
      ensures var c := cache.Put(key, block);
        && c.Valid() && c.order == cache.order + [key] == Touch(cache.order, key)
        && (forall k | k in c.at :: c.at[k] == Block(digest, palette, k))
    {
      hide Block;
      cache.PutValid(key, block);
      FilterAll(cache.order, Outside({key}));
    }

    /** A full cache then evicts its oldest entry. */
    lemma Evict(c: Dict<BlockKey, seq<Token>>)
      requires c.Valid() && |c.order| == cacheBlocks + 1
      ensures c.Remove(c.order[0]).Valid() && c.Remove(c.order[0]).order == c.order[1..] == Newest(c.order, cacheBlocks)
    {
      var first := c.order[0];
      c.RemoveAllValid({first});
      assert c.order == [first] + c.order[1..];
      FilterConcat([first], c.order[1..], Outside({first}));
      FilterAll(c.order[1..], Outside({first}));
      assert [first][..0] == [];
    }

    /** Rendering a recipe through the cache yields the uncached tokens, exactly as many as the recipe asks for. */
    method Render(recipe: Recipe, session: string) returns (r: Result<seq<Token>, RenderError>)
      requires Valid()
      modifies this`cache
      ensures Valid()
      ensures r.Ok? <==> RecipeOk(recipe) && session != ""
      ensures r.Ok? ==> r.value == Rendered(digest, palette, recipe, session) && |r.value| == recipe.inputTokens
    {
      if !recipe.localScope { return Err(NOT_LOCAL); }
      if !RecipeOk(recipe) { return Err(INVALID_RECIPE); }
      hide Valid;
      BlocksCover(recipe);
      var tokens: seq<Token> := [];
      var input, size := recipe.inputTokens, recipe.size;
      for index := 0 to |recipe.hashes|
        invariant Valid() && palette != [] && (index > 0 ==> session != "")
        invariant |tokens| == (if index * size < input then index * size else input)
        invariant forall p: nat | p < |tokens| :: tokens[p] == TokenAt(digest, palette, recipe, session, p)
      {
        BlockStart(recipe, index);
        var length := if size < input - index * size then size else input - index * size;
        var block := RenderBlock(session, recipe.model, recipe.hashes[index], length);
        if block.Err? { return Err(block.error); }
        BlockTokens(recipe, session, index, length, tokens, block.value);
        tokens := tokens + block.value;
      }
      r := Ok(tokens);
    }

    lemma BlockStart(recipe: Recipe, index: nat)
      requires RecipeOk(recipe) && index < |recipe.hashes|
      ensures index * recipe.size < recipe.inputTokens && (index + 1) * recipe.size == index * recipe.size + recipe.size
    {
      BlocksCover(recipe);
      FewerBlocks(index, |recipe.hashes|, recipe.size);
    }

    lemma BlockTokens(recipe: Recipe, session: string, index: nat, length: nat, tokens: seq<Token>, block: seq<Token>)
      requires RecipeOk(recipe) && palette != [] && index < |recipe.hashes| && length <= recipe.size
      requires |tokens| == index * recipe.size
      requires forall p: nat | p < |tokens| :: tokens[p] == TokenAt(digest, palette, recipe, session, p)
      requires block == Block(digest, palette, BlockKey(session, recipe.model, recipe.hashes[index], length))
      ensures forall p: nat | p < |tokens + block| ::
        (tokens + block)[p] == TokenAt(digest, palette, recipe, session, p)
    {
      forall i: nat | i < length
        ensures block[i] == TokenAt(digest, palette, recipe, session, index * recipe.size + i) {
        if i < recipe.size { QuotientUnique(index, recipe.size, i); }
      }
    }
  }
}
