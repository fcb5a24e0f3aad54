/** `token_sequence`: a seed repeated to an exact length. */
module TokenSource {
  import opened Wrappers
  import opened Arithmetic

  type Token = int
  type Namespace = int

  /** The tokens of a namespace's seed text, as the tokenizer returns them. */
  type Seeds = Namespace -> seq<Token>

  datatype TokenError =
    | EMPTY_SEED | MISSING_CONTEXT | MISSING_CONTEXT_IDS | INVALID_OUTPUT | TOO_LONG | OVER_TRIM_LIMIT | CANNOT_TRIM
    | NO_DIVERGENT_SUFFIX | NO_BRANCH_TOKEN | INCONSISTENT_CONTEXT | INVALID_PREFIX | NO_WARMUP

  function Times(seed: seq<Token>, n: nat): seq<Token> {
    if n == 0 then [] else Times(seed, n - 1) + seed
  }

  function TokenSequence(seed: seq<Token>, count: int): (r: Result<seq<Token>, TokenError>)
    ensures r.Ok? ==> |r.value| == (if count < 0 then 0 else count)
    ensures r.Err? <==> count > 0 && seed == []
  {
    if count <= 0 then Ok([])
    else if seed == [] then Err(EMPTY_SEED)
    else
      TimesLength(seed, (count + |seed| - 1) / |seed|);
      EnoughTimes(count, |seed|);
      Ok(Times(seed, (count + |seed| - 1) / |seed|)[..count])
  }

  lemma EnoughTimes(count: int, n: nat)
    requires count > 0 && n > 0
    ensures (count + n - 1) / n * n >= count
  {
  }

  lemma {:induction false} TimesLength(seed: seq<Token>, n: nat)
    ensures |Times(seed, n)| == n * |seed|
  {
    if n > 0 {
      TimesLength(seed, n - 1);
      assert n * |seed| == (n - 1) * |seed| + |seed|;
    }
  }

  lemma {:induction false} TimesPrefix(seed: seq<Token>, m: nat, n: nat)
    requires m <= n
    ensures |Times(seed, m)| <= |Times(seed, n)| && Times(seed, n)[..|Times(seed, m)|] == Times(seed, m)
  {
    if m < n { TimesPrefix(seed, m, n - 1); }
  }

  /** Asking for more tokens of a namespace extends what a shorter request gave. */
  lemma SequencesExtend(seed: seq<Token>, a: nat, b: nat)
    requires a <= b && TokenSequence(seed, b).Ok?
    ensures TokenSequence(seed, a).Ok? && TokenSequence(seed, a).value == TokenSequence(seed, b).value[..a]
  {
    if a > 0 {
      var m, n := (a + |seed| - 1) / |seed|, (b + |seed| - 1) / |seed|;
      TimesLength(seed, m);
      EnoughTimes(a, |seed|);
      QuotientMonotone(a + |seed| - 1, b + |seed| - 1, |seed|);
      TimesPrefix(seed, m, n);
    }
  }
}

/** Recorded mutable spans of a token list, and cutting their tails in place. */
module MutableSpans {
  import opened Sequences
  import opened TokenSource

  type Span = (int, int)

  /** Sorted, disjoint and in bounds; possibly empty while a trim is under way. */
  ghost predicate Ordered(spans: seq<Span>, n: int) {
    && (forall i | 0 <= i < |spans| :: 0 <= spans[i].0 <= spans[i].1 <= n)
    && (forall i, j | 0 <= i < j < |spans| :: spans[i].1 <= spans[j].0)
  }

  /** What every finished prompt guarantees: also non-empty. */
  ghost predicate SpansOk(spans: seq<Span>, n: int) {
    Ordered(spans, n) && forall i | 0 <= i < |spans| :: spans[i].0 < spans[i].1
  }

  /** The tokens outside the spans, in order. */
  function Fixed(tokens: seq<Token>, spans: seq<Span>): seq<Token>
    requires Ordered(spans, |tokens|)
    decreases |spans|
  {
    if spans == [] then tokens
    else
      var last := spans[|spans| - 1];
      OrderedInit(tokens, spans);
      Fixed(tokens[..last.0], spans[..|spans| - 1]) + tokens[last.1..]
  }

  lemma OrderedInit(tokens: seq<Token>, spans: seq<Span>)
    requires Ordered(spans, |tokens|) && spans != []
    ensures Ordered(spans[..|spans| - 1], spans[|spans| - 1].0)
  {
  }

  lemma FixedSnoc(tokens: seq<Token>, init: seq<Span>, last: Span)
    requires Ordered(init + [last], |tokens|)
    ensures 0 <= last.0 <= last.1 <= |tokens| && Ordered(init, last.0) && |tokens[..last.0]| == last.0
    ensures Fixed(tokens, init + [last]) == Fixed(tokens[..last.0], init) + tokens[last.1..]
  {
    OrderedInit(tokens, init + [last]);
    assert (init + [last])[..|init|] == init && (init + [last])[|init|] == last;
  }

  function Width(spans: seq<Span>): int {
    if spans == [] then 0 else Width(spans[..|spans| - 1]) + (spans[|spans| - 1].1 - spans[|spans| - 1].0)
  }

  /** Every token is either fixed or in a span. */
  lemma {:induction false} FixedWidth(tokens: seq<Token>, spans: seq<Span>)
    requires Ordered(spans, |tokens|)
    ensures |Fixed(tokens, spans)| + Width(spans) == |tokens|
    decreases |spans|
  {
    if spans != [] {
      OrderedInit(tokens, spans);
      FixedWidth(tokens[..spans[|spans| - 1].0], spans[..|spans| - 1]);
    }
  }

  /** Number of span tokens at or after position `p`. */
  function WidthFrom(spans: seq<Span>, p: int): int {
    if spans == [] then 0
    else
      var last := spans[|spans| - 1];
      WidthFrom(spans[..|spans| - 1], p)
      + (if p <= last.0 then last.1 - last.0 else if p < last.1 then last.1 - p else 0)
  }

  function Shift(spans: seq<Span>, removed: nat): seq<Span> {
    seq(|spans|, i requires 0 <= i < |spans| => (spans[i].0 - removed, spans[i].1 - removed))
  }

  /** Deletes the last `removed` tokens of span `index`. */
  function CutTokens(tokens: seq<Token>, spans: seq<Span>, index: nat, removed: nat): seq<Token>
    requires Ordered(spans, |tokens|) && index < |spans| && removed <= spans[index].1 - spans[index].0
  {
    tokens[..spans[index].1 - removed] + tokens[spans[index].1..]
  }

  function CutSpans(tokens: seq<Token>, spans: seq<Span>, index: nat, removed: nat): seq<Span>
    requires Ordered(spans, |tokens|) && index < |spans| && removed <= spans[index].1 - spans[index].0
  {
    spans[..index] + [(spans[index].0, spans[index].1 - removed)] + Shift(spans[index + 1..], removed)
  }

  lemma CutOrdered(tokens: seq<Token>, spans: seq<Span>, index: nat, removed: nat)
    requires Ordered(spans, |tokens|) && index < |spans| && removed <= spans[index].1 - spans[index].0
    ensures Ordered(CutSpans(tokens, spans, index, removed), |CutTokens(tokens, spans, index, removed)|)
  {
  }

  /** Cutting before the last span commutes with taking the last span off. */
  lemma CutInit(tokens: seq<Token>, spans: seq<Span>, index: nat, removed: nat)
    requires Ordered(spans, |tokens|) && index < |spans| - 1 && removed <= spans[index].1 - spans[index].0
    ensures var n := |spans| - 1; var last := spans[n];
      && Ordered(spans[..n], |tokens[..last.0]|)
      && CutSpans(tokens, spans, index, removed)
         == CutSpans(tokens[..last.0], spans[..n], index, removed) + [(last.0 - removed, last.1 - removed)]
      && CutTokens(tokens, spans, index, removed)[..last.0 - removed]
        == CutTokens(tokens[..last.0], spans[..n], index, removed)
      && CutTokens(tokens, spans, index, removed)[last.1 - removed..] == tokens[last.1..]
  {
    OrderedInit(tokens, spans);
  }

  /** Cutting inside a span leaves the tokens outside the spans untouched. */
  lemma {:induction false} CutFixed(tokens: seq<Token>, spans: seq<Span>, index: nat, removed: nat)
    requires Ordered(spans, |tokens|) && index < |spans| && removed <= spans[index].1 - spans[index].0
    requires Ordered(CutSpans(tokens, spans, index, removed), |CutTokens(tokens, spans, index, removed)|)
    ensures Fixed(CutTokens(tokens, spans, index, removed), CutSpans(tokens, spans, index, removed))
      == Fixed(tokens, spans)
    decreases |spans|
  {
    hide Ordered, Fixed, CutTokens, CutSpans, Shift;
    var n := |spans| - 1;
    var last, init := spans[n], spans[..n];
    assert spans == init + [last];
    FixedSnoc(tokens, init, last);
    if index == n {
      CutLast(tokens, init, last, removed);
      FixedSnoc(CutTokens(tokens, spans, index, removed), init, (last.0, last.1 - removed));
    } else {
      var head := tokens[..last.0];
      CutInit(tokens, spans, index, removed);
      CutOrdered(head, init, index, removed);
      CutFixed(head, init, index, removed);
      FixedSnoc(CutTokens(tokens, spans, index, removed), CutSpans(head, init, index, removed),
                (last.0 - removed, last.1 - removed));
    }
  }

  lemma CutLast(tokens: seq<Token>, init: seq<Span>, last: Span, removed: nat)
    requires Ordered(init + [last], |tokens|) && removed <= last.1 - last.0
    ensures CutSpans(tokens, init + [last], |init|, removed) == init + [(last.0, last.1 - removed)]
    ensures var cut := CutTokens(tokens, init + [last], |init|, removed);
      && last.1 - removed <= |cut| && cut[..last.0] == tokens[..last.0] && cut[last.1 - removed..] == tokens[last.1..]
  {
  }

  /** In-place form: deletes a span's tail and shifts every later span. */
  method CutSpan(tokens: seq<Token>, spans0: seq<Span>, index: nat, removed: nat)
    returns (shorter: seq<Token>, spans: seq<Span>)
    requires Ordered(spans0, |tokens|) && index < |spans0| && removed <= spans0[index].1 - spans0[index].0
    ensures shorter == CutTokens(tokens, spans0, index, removed) && spans == CutSpans(tokens, spans0, index, removed)
  {
    var start, end := spans0[index].0, spans0[index].1;
    var cut := end - removed;
    shorter := tokens[..cut] + tokens[end..];
    spans := spans0[index := (start, cut)];
    for later := index + 1 to |spans0|
      invariant |spans| == |spans0| && spans[..index] == spans0[..index] && spans[index] == (start, cut)
      invariant forall i | index < i < later :: spans[i] == (spans0[i].0 - removed, spans0[i].1 - removed)
      invariant forall i | later <= i < |spans0| :: spans[i] == spans0[i]
    {
      spans := spans[later := (spans[later].0 - removed, spans[later].1 - removed)];
    }
  }

  function NonEmpty(): Span -> bool { (s: Span) => s.0 < s.1 }

  lemma SpansSnoc(kept: seq<Span>, last: Span, n: int)
    requires SpansOk(kept, last.0) && 0 <= last.0 <= last.1 <= n
    ensures SpansOk(kept, n) && Ordered(kept, last.0) && Ordered(kept, n)
    ensures last.0 < last.1 ==> SpansOk(kept + [last], n) && Ordered(kept + [last], n)
  {
  }

  lemma DropNone(tokens: seq<Token>)
    ensures Filter<Span>([], NonEmpty()) == [] && SpansOk([], |tokens|)
  {
  }

  /** Dropping spans that became empty changes nothing that matters. */
  lemma {:induction false} DropEmpty(tokens: seq<Token>, spans: seq<Span>)
    requires Ordered(spans, |tokens|)
    ensures SpansOk(Filter(spans, NonEmpty()), |tokens|)
    ensures Fixed(tokens, Filter(spans, NonEmpty())) == Fixed(tokens, spans)
    decreases |spans|
  {
    DropNone(tokens);
    hide Fixed, SpansOk, Ordered, Filter;
    if spans != [] {
      var n := |spans| - 1;
      var last, init := spans[n], spans[..n];
      assert spans == init + [last];
      FixedSnoc(tokens, init, last);
      DropEmpty(tokens[..last.0], init);
      FilterSnoc(init, last, NonEmpty());
      var kept := Filter(init, NonEmpty());
      SpansSnoc(kept, last, |tokens|);
      if last.0 < last.1 {
        FixedSnoc(tokens, kept, last);
      } else {
        assert kept + [] == kept;
        FixedExtends(tokens[..last.0], kept, tokens[last.0..]);
        assert tokens[..last.0] + tokens[last.0..] == tokens;
      }
    }
  }

  /** Appending tokens after all spans appends them to the fixed part. */
  lemma FixedExtends(tokens: seq<Token>, spans: seq<Span>, more: seq<Token>)
    requires Ordered(spans, |tokens|)
    ensures Ordered(spans, |tokens + more|) && Fixed(tokens + more, spans) == Fixed(tokens, spans) + more
  {
    if spans != [] {
      var last := spans[|spans| - 1];
      assert (tokens + more)[..last.0] == tokens[..last.0];
      assert (tokens + more)[last.1..] == tokens[last.1..] + more;
    }
  }

  /** Appending tokens as a new span leaves the fixed part unchanged. */
  lemma PadFixed(tokens: seq<Token>, spans: seq<Span>, filler: seq<Token>)
    requires SpansOk(spans, |tokens|) && filler != []
    ensures SpansOk(spans + [(|tokens|, |tokens| + |filler|)], |tokens + filler|)
    ensures Fixed(tokens + filler, spans + [(|tokens|, |tokens| + |filler|)]) == Fixed(tokens, spans)
  {
    var padded := spans + [(|tokens|, |tokens| + |filler|)];
    assert padded[..|spans|] == spans;
    assert (tokens + filler)[..|tokens|] == tokens;
    assert (tokens + filler)[|tokens| + |filler|..] == [];
  }

  /** Where a trim of `deficit` span tokens must stop: that many of them lie at or after `p`, and one fewer after it. */
  ghost predicate TightCut(spans: seq<Span>, p: int, deficit: int) {
    WidthFrom(spans, p) == deficit && WidthFrom(spans, p + 1) == deficit - 1
  }

  lemma {:induction false} WidthFromAll(spans: seq<Span>, n: nat, p: int)
    requires Ordered(spans, n)
    ensures p <= 0 ==> WidthFrom(spans, p) == Width(spans)
    ensures p >= n ==> WidthFrom(spans, p) == 0
  {
    if spans != [] { WidthFromAll(spans[..|spans| - 1], n, p); }
  }

  /** Inside span `i`, the tokens of spans at or after `p` are the rest of span `i` and all later spans. */
  lemma {:induction false} WidthFromInside(spans: seq<Span>, n: nat, i: nat, p: int)
    requires Ordered(spans, n) && i < |spans| && spans[i].0 <= p <= spans[i].1
    ensures WidthFrom(spans, p) == spans[i].1 - p + Width(spans[i + 1..])
    decreases |spans|
  {
    var m := |spans| - 1;
    if i < m {
      WidthFromInside(spans[..m], n, i, p);
      assert spans[i + 1..][..m - i - 1] == spans[..m][i + 1..];
    } else {
      WidthFromAll(spans[..m], spans[m].0, p);
      assert spans[i + 1..] == [];
    }
  }

  lemma {:induction false} WidthSplit(spans: seq<Span>, i: nat)
    requires i <= |spans|
    ensures Width(spans) == Width(spans[..i]) + Width(spans[i..])
    decreases |spans|
  {
    var m := |spans| - 1;
    if i < |spans| {
      WidthSplit(spans[..m], i);
      assert spans[..m][..i] == spans[..i] && spans[..m][i..] == spans[i..][..m - i];
    } else {
      assert spans[..i] == spans && spans[i..] == [];
    }
  }
}

/** `_token_prompt`: trims recorded filler or pads, so that every prompt has exactly its target length. */
module TokenPromptModel {
  import opened Wrappers
  import opened Arithmetic
  import opened Sequences
  import opened TokenSource
  import opened MutableSpans
  import opened TaskPlanning

  datatype Prompt = Prompt(tokens: Option<seq<Token>>, spans: seq<Span>)

  datatype Exchange = Exchange(prompt: Prompt, output: Option<seq<Token>>)

  datatype Segment = Segment(namespace: Namespace, count: nat)

  /** One planned request: its root segments and trailing segment, and the system segment a continuation appends. */
  datatype Recipe = Recipe(target: int, mode: ContextMode, continues: bool, filler: Namespace,
                           rootSegments: seq<Segment>, rootTrailing: Segment, extraSystem: Segment)

  datatype Adjustment = RESET_AND_PAD | RESET_ONLY | TRIM_AND_PAD | TRIM_ONLY | PAD | NOTHING

  datatype Calibration = Calibration(initial: int, filler: int, trimmed: int, preserved: int, adjustment: Adjustment)

  // ---- trimming

  /** The trim is complete: what was cut, what is kept, and where. */
  ghost predicate Trimmed(tokens0: seq<Token>, spans0: seq<Span>, deficit: int, tokens: seq<Token>, spans: seq<Span>,
                          preserved: int)
    requires Ordered(spans0, |tokens0|)
  {
    && Ordered(spans, |tokens|) && Fixed(tokens, spans) == Fixed(tokens0, spans0)
    && |tokens| == |tokens0| - deficit
    && 0 <= preserved <= |tokens| && preserved <= |tokens0| && tokens[..preserved] == tokens0[..preserved]
    && TightCut(spans0, preserved, deficit)
    && forall i | 0 <= i < |spans| && spans[i].0 < spans[i].1 :: spans[i].1 <= preserved
  }

  /** Everything from position `bound` on that could be cut has been cut. */
  ghost predicate Trimming(tokens0: seq<Token>, spans0: seq<Span>, index: nat, tokens: seq<Token>, spans: seq<Span>,
                           trimmed: int, bound: int)
    requires Ordered(spans0, |tokens0|) && index <= |spans0|
  {
    && |spans| == |spans0| && spans[..index] == spans0[..index]
    && Ordered(spans, |tokens|) && Fixed(tokens, spans) == Fixed(tokens0, spans0)
    && |tokens| == |tokens0| - trimmed && trimmed == Width(spans0[index..])
    && bound == (if index < |spans0| then spans0[index].0 else |tokens0|)
    && 0 <= bound <= |tokens| && bound <= |tokens0| && tokens[..bound] == tokens0[..bound]
    && forall i | index <= i < |spans| :: spans[i].0 == spans[i].1
  }

  lemma TrimStart(tokens0: seq<Token>, spans0: seq<Span>)
    requires Ordered(spans0, |tokens0|)
    ensures Trimming(tokens0, spans0, |spans0|, tokens0, spans0, 0, |tokens0|)
  {
    assert spans0[|spans0|..] == [];
  }

  /** What every cut keeps, whatever its size. */
  lemma CutKeeps(tokens0: seq<Token>, spans0: seq<Span>, index: nat, tokens: seq<Token>, spans: seq<Span>,
                 trimmed: int, bound: int, removed: nat)
    requires SpansOk(spans0, |tokens0|) && index < |spans0| && removed <= spans0[index].1 - spans0[index].0
    requires Trimming(tokens0, spans0, index + 1, tokens, spans, trimmed, bound)
    ensures Ordered(spans, |tokens|) && index < |spans| && spans[index] == spans0[index]
    ensures var cutTokens := CutTokens(tokens, spans, index, removed);
      var cutSpans := CutSpans(tokens, spans, index, removed);
      var cut := spans0[index].1 - removed;
      && Ordered(cutSpans, |cutTokens|) && Fixed(cutTokens, cutSpans) == Fixed(tokens0, spans0)
      && |cutTokens| == |tokens0| - trimmed - removed && |cutSpans| == |spans0|
      && 0 <= spans0[index].0 <= cut <= bound && cut <= |cutTokens| && cut <= |tokens0|
      && cutTokens[..cut] == tokens0[..cut]
  {
    hide Fixed, Width;
    assert spans[index] == spans[..index + 1][index] == spans0[index];
    assert spans0[index].1 <= bound;
    CutOrdered(tokens, spans, index, removed);
    CutFixed(tokens, spans, index, removed);
    CutPrefix(tokens0, tokens, spans, index, removed, bound);
  }

  lemma WidthAt(spans: seq<Span>, index: nat)
    requires index < |spans|
    ensures Width(spans[index..]) == spans[index].1 - spans[index].0 + Width(spans[index + 1..])
  {
    var rest := spans[index..];
    WidthSplit(rest, 1);
    assert rest[..1][..0] == [] && rest[1..] == spans[index + 1..];
  }

  /** A span that does not suffice is cut away whole. */
  lemma TrimWhole(tokens0: seq<Token>, spans0: seq<Span>, index: nat, tokens: seq<Token>, spans: seq<Span>,
                  trimmed: int, bound: int)
    requires SpansOk(spans0, |tokens0|) && index < |spans0|
    requires Trimming(tokens0, spans0, index + 1, tokens, spans, trimmed, bound)
    ensures Ordered(spans, |tokens|) && index < |spans| && spans[index] == spans0[index]
    ensures var removed := spans0[index].1 - spans0[index].0;
      && removed >= 0 && spans0[index].0 <= bound
      && Trimming(tokens0, spans0, index, CutTokens(tokens, spans, index, removed),
                  CutSpans(tokens, spans, index, removed),
                  trimmed + removed, spans0[index].0)
  {
    hide Fixed, Width;
    CutKeeps(tokens0, spans0, index, tokens, spans, trimmed, bound, spans0[index].1 - spans0[index].0);
    WidthAt(spans0, index);
    assert spans[..index] == spans[..index + 1][..index] == spans0[..index];
  }

  /** The last span touched is cut just as far as needed. */
  lemma TrimLast(tokens0: seq<Token>, spans0: seq<Span>, index: nat, tokens: seq<Token>, spans: seq<Span>,
                 trimmed: int, bound: int, removed: nat)
    requires SpansOk(spans0, |tokens0|) && index < |spans0| && 0 < removed <= spans0[index].1 - spans0[index].0
    requires Trimming(tokens0, spans0, index + 1, tokens, spans, trimmed, bound)
    ensures Ordered(spans, |tokens|) && index < |spans| && spans[index] == spans0[index]
    ensures spans0[index].1 - removed <= bound
    ensures Trimmed(tokens0, spans0, trimmed + removed, CutTokens(tokens, spans, index, removed),
                    CutSpans(tokens, spans, index, removed), spans0[index].1 - removed)
  {
    hide Fixed, Width, WidthFrom;
    CutKeeps(tokens0, spans0, index, tokens, spans, trimmed, bound, removed);
    WidthFromInside(spans0, |tokens0|, index, spans0[index].1 - removed);
    WidthFromInside(spans0, |tokens0|, index, spans0[index].1 - removed + 1);
  }

  lemma CutPrefix(tokens0: seq<Token>, tokens: seq<Token>, spans: seq<Span>, index: nat, removed: nat, bound: nat)
    requires Ordered(spans, |tokens|) && index < |spans| && removed <= spans[index].1 - spans[index].0
      && spans[index].1 <= bound
    requires bound <= |tokens| && bound <= |tokens0| && tokens[..bound] == tokens0[..bound]
    ensures var cut := spans[index].1 - removed;
      && 0 <= cut <= |CutTokens(tokens, spans, index, removed)|
      && CutTokens(tokens, spans, index, removed)[..cut] == tokens0[..cut]
  {
    var cut := spans[index].1 - removed;
    assert tokens[..cut] == tokens[..bound][..cut] == tokens0[..bound][..cut];
  }

  lemma TrimmedKept(tokens0: seq<Token>, spans0: seq<Span>, deficit: int, tokens: seq<Token>, spans: seq<Span>,
                    preserved: int)
    requires Ordered(spans0, |tokens0|) && Trimmed(tokens0, spans0, deficit, tokens, spans, preserved)
    ensures var kept := Filter(spans, NonEmpty());
      SpansOk(kept, |tokens|) && Ordered(kept, preserved) && Trimmed(tokens0, spans0, deficit, tokens, kept, preserved)
  {
    DropEmpty(tokens, spans);
    FilterMembers(spans, NonEmpty());
    var kept := Filter(spans, NonEmpty());
    forall i | 0 <= i < |kept| ensures kept[i].1 <= preserved {
      assert kept[i] in spans && NonEmpty()(kept[i]);
      var j :| 0 <= j < |spans| && spans[j] == kept[i];
    }
  }

  /** Deletes the last `deficit0` recorded filler tokens, nearest span first. */
  method TrimTail(tokens0: seq<Token>, spans0: seq<Span>, deficit0: nat)
    returns (tokens: seq<Token>, spans: seq<Span>, preserved: nat, trimmed: nat)
    requires SpansOk(spans0, |tokens0|) && 0 < deficit0 <= Width(spans0)
    ensures trimmed == deficit0 && SpansOk(spans, |tokens|) && Ordered(spans, preserved)
    ensures Trimmed(tokens0, spans0, deficit0, tokens, spans, preserved)
  {
    hide Trimmed, Trimming, Fixed, TightCut, Width, CutTokens, CutSpans;
    tokens, spans, preserved, trimmed := tokens0, spans0, |tokens0|, 0;
    var deficit, index: nat := deficit0, |spans0|;
    TrimStart(tokens0, spans0);
    while index > 0
      invariant index <= |spans0| && trimmed + deficit == deficit0 && deficit > 0
      invariant Trimming(tokens0, spans0, index, tokens, spans, trimmed, preserved)
    {
      index := index - 1;
      TrimWhole(tokens0, spans0, index, tokens, spans, trimmed, preserved);
      var (start, end) := spans[index];
      if deficit <= end - start { TrimLast(tokens0, spans0, index, tokens, spans, trimmed, preserved, deficit); }
      var removed := if end - start < deficit then end - start else deficit;
      var cut := end - removed;
      tokens, spans := CutSpan(tokens, spans, index, removed);
      preserved := if cut < preserved then cut else preserved;
      trimmed := trimmed + removed;
      deficit := deficit - removed;
      if deficit == 0 { break; }
    }
    AllCut(tokens0, spans0, deficit, tokens, spans, trimmed, preserved);
    TrimmedKept(tokens0, spans0, deficit0, tokens, spans, preserved);
    spans := Filter(spans, NonEmpty());
  }

  /** The loop never runs out of spans: that would mean more than their total width was asked for. */
  lemma AllCut(tokens0: seq<Token>, spans0: seq<Span>, deficit: nat, tokens: seq<Token>, spans: seq<Span>,
               trimmed: int, preserved: int)
    requires SpansOk(spans0, |tokens0|) && trimmed + deficit <= Width(spans0)
    requires deficit == 0 || Trimming(tokens0, spans0, 0, tokens, spans, trimmed, preserved)
    ensures deficit == 0
  {
    assert spans0[0..] == spans0;
  }

  // ---- the prompt

  /** The root segments in order; fails at the first namespace without a seed. */
  function SegmentTokens(seeds: Seeds, segments: seq<Segment>): (r: Result<seq<Token>, TokenError>) {
    if segments == [] then Ok([])
    else
      var last := segments[|segments| - 1];
      match SegmentTokens(seeds, segments[..|segments| - 1])
      case Err(e) => Err(e)
      case Ok(before) =>
        match TokenSequence(seeds(last.namespace), last.count)
        case Err(e) => Err(e)
        case Ok(t) => Ok(before + t)
  }

  /** What the prompt starts from: shared segments, or the predecessor's actual input and output. */
  function Prior(seeds: Seeds, n: Recipe, context: Option<Exchange>): Result<seq<Token>, TokenError> {
    if context.None? then
      if n.continues then Err(MISSING_CONTEXT) else SegmentTokens(seeds, n.rootSegments)
    else
      var x := context.value;
      if x.prompt.tokens.None? || x.output.None? then Err(MISSING_CONTEXT_IDS)
      else if x.output.value == [] || exists i :: 0 <= i < |x.output.value| && x.output.value[i] < 0
      then Err(INVALID_OUTPUT)
      else Ok(x.prompt.tokens.value + x.output.value)
  }

  function PriorSpans(context: Option<Exchange>): seq<Span> {
    if context.None? then [] else context.value.prompt.spans
  }

  function Trailing(n: Recipe, context: Option<Exchange>): Segment {
    if context.None? then n.rootTrailing else n.extraSystem
  }

  ghost predicate PromptOk(p: Prompt) {
    p.tokens.Some? && SpansOk(p.spans, |p.tokens.value|)
  }

  ghost predicate ContextOk(context: Option<Exchange>) {
    context.Some? && context.value.prompt.tokens.Some? ==> PromptOk(context.value.prompt)
  }

  lemma PriorOrdered(seeds: Seeds, n: Recipe, context: Option<Exchange>)
    requires ContextOk(context) && Prior(seeds, n, context).Ok?
    ensures SpansOk(PriorSpans(context), |Prior(seeds, n, context).value|)
  {
  }

  function Deficit(seeds: Seeds, n: Recipe, context: Option<Exchange>): int
    requires Prior(seeds, n, context).Ok?
  {
    |Prior(seeds, n, context).value| + Trailing(n, context).count - n.target
  }

  /** When a trim is allowed and possible. */
  predicate CanTrim(c: Config, n: Recipe, context: Option<Exchange>, deficit: int) {
    && context.Some? && n.mode == TRIM && !c.strict && deficit <= MicroTrimLimit(c, n.target)
    && deficit <= Width(PriorSpans(context))
  }

  predicate HasSeed(seeds: Seeds, s: Segment) {
    s.count > 0 ==> seeds(s.namespace) != []
  }

  /** Exactly when a prompt can be built. */
  predicate Buildable(c: Config, seeds: Seeds, n: Recipe, context: Option<Exchange>) {
    && Prior(seeds, n, context).Ok?
    && (Deficit(seeds, n, context) > 0 ==> CanTrim(c, n, context, Deficit(seeds, n, context)))
    && (Deficit(seeds, n, context) < 0 ==> seeds(n.filler) != [])
    && HasSeed(seeds, Trailing(n, context))
  }

  /** What a built prompt is, by cases on whether the prior tokens were too long, too short or exact. */
  ghost predicate PromptBuilt(seeds: Seeds, n: Recipe, context: Option<Exchange>, p: Prompt, cal: Calibration)
    requires ContextOk(context) && Prior(seeds, n, context).Ok?
    requires TokenSequence(seeds(Trailing(n, context).namespace), Trailing(n, context).count).Ok?
  {
    PriorOrdered(seeds, n, context);
    var prior, spans := Prior(seeds, n, context).value, PriorSpans(context);
    var trailing := TokenSequence(seeds(Trailing(n, context).namespace), Trailing(n, context).count).value;
    var deficit := Deficit(seeds, n, context);
    && PromptOk(p) && |p.tokens.value| == n.target
    && Fixed(p.tokens.value, p.spans) == Fixed(prior, spans) + trailing
    && cal.initial == n.target + deficit
    && cal.trimmed == Max(0, deficit) && cal.filler == Max(0, -deficit)
    && (context.None? ==> cal.preserved == 0)
    && (context.Some? ==> KeepsPrefix(p.tokens.value, prior, cal.preserved))
    && (deficit > 0 ==> TightCut(spans, cal.preserved, deficit) && Ordered(p.spans, cal.preserved))
    && (deficit <= 0 ==> p.tokens.value[..|prior|] == prior && (context.Some? ==> cal.preserved == |prior|))
    && (deficit <= 0 ==> p.spans == spans + (if deficit < 0 then [(|prior|, |prior| - deficit)] else []))
    && cal.adjustment != TRIM_AND_PAD
  }

  ghost predicate KeepsPrefix(tokens: seq<Token>, prior: seq<Token>, preserved: int) {
    0 <= preserved <= |tokens| && preserved <= |prior| && tokens[..preserved] == prior[..preserved]
  }

  method TokenPrompt(c: Config, seeds: Seeds, n: Recipe, context: Option<Exchange>)
    returns (r: Result<(Prompt, Calibration), TokenError>)
    requires ContextOk(context)
    ensures r.Ok? <==> Buildable(c, seeds, n, context)
    ensures r.Ok? ==> PromptBuilt(seeds, n, context, r.value.0, r.value.1)
  {
    hide Trimmed, Fixed, TightCut, Width, SpansOk, Ordered, SegmentTokens, MicroTrimLimit, Prior, PriorSpans, Trailing;
    var prior := Prior(seeds, n, context);
    if prior.Err? { return Err(prior.error); }
    PriorOrdered(seeds, n, context);
    var trailing := Trailing(n, context);
    var initial := |prior.value| + trailing.count;
    SpansOrdered(PriorSpans(context), |prior.value|);
    var shortened := Shorten(c, n, context, prior.value, initial - n.target);
    if shortened.Err? { return Err(shortened.error); }
    var (tokens, spans, preserved, trimmed) := shortened.value;
    var filler := n.target - |tokens| - trailing.count;
    var padded := Pad(seeds(n.filler), tokens, spans, filler);
    if padded.Err? { return Err(padded.error); }
    tokens, spans := padded.value.0, padded.value.1;
    var last := TokenSequence(seeds(trailing.namespace), trailing.count);
    if last.Err? { return Err(last.error); }
    FixedExtends(tokens, spans, last.value);
    SpansWiden(spans, |tokens|, |tokens + last.value|);
    tokens := tokens + last.value;
    var adjustment := AdjustmentOf(n.mode, trimmed > 0, filler > 0);
    var cal := Calibration(initial, filler, trimmed, if context.Some? then preserved else 0, adjustment);
    r := Ok((Prompt(Some(tokens), spans), cal));
  }

  /** Trims what exceeds the target, if a trim is allowed and possible. */
  method Shorten(c: Config, n: Recipe, context: Option<Exchange>, prior: seq<Token>, deficit: int)
    returns (r: Result<(seq<Token>, seq<Span>, nat, int), TokenError>)
    requires SpansOk(PriorSpans(context), |prior|) && Ordered(PriorSpans(context), |prior|)
    ensures r.Ok? <==> (deficit > 0 ==> CanTrim(c, n, context, deficit))
    ensures r.Ok? ==>
      Shortened(prior, PriorSpans(context), deficit, r.value.0, r.value.1, r.value.2, r.value.3)
  {
    hide Trimmed, Fixed, TightCut, Width, SpansOk, Ordered, MicroTrimLimit, PriorSpans;
    var spans := PriorSpans(context);
    if deficit <= 0 { return Ok((prior, spans, |prior|, 0)); }
    if context.None? || n.mode != TRIM || c.strict { return Err(TOO_LONG); }
    if deficit > MicroTrimLimit(c, n.target) { return Err(OVER_TRIM_LIMIT); }
    if Width(spans) < deficit { return Err(CANNOT_TRIM); }
    var tokens, kept, preserved, trimmed := TrimTail(prior, spans, deficit);
    TrimmedMeans(prior, spans, deficit, tokens, kept, preserved);
    r := Ok((tokens, kept, preserved, trimmed));
  }

  /** Filler of the missing length becomes a new last span. */
  method Pad(seed: seq<Token>, tokens0: seq<Token>, spans0: seq<Span>, filler: nat)
    returns (r: Result<(seq<Token>, seq<Span>), TokenError>)
    requires SpansOk(spans0, |tokens0|) && Ordered(spans0, |tokens0|)
    ensures r.Ok? <==> (filler > 0 ==> seed != [])
    ensures r.Ok? ==>
      var (tokens, spans) := r.value;
      && |tokens| == |tokens0| + filler && tokens[..|tokens0|] == tokens0
      && SpansOk(spans, |tokens|) && Ordered(spans, |tokens|) && Fixed(tokens, spans) == Fixed(tokens0, spans0)
      && spans == (if filler > 0 then spans0 + [(|tokens0|, |tokens0| + filler)] else spans0)
      && (filler == 0 ==> tokens == tokens0)
  {
    hide Fixed, SpansOk, Ordered;
    if filler == 0 { return Ok((tokens0, spans0)); }
    var pad := TokenSequence(seed, filler);
    if pad.Err? { return Err(pad.error); }
    PadFixed(tokens0, spans0, pad.value);
    var tokens, spans := tokens0 + pad.value, spans0 + [(|tokens0|, |tokens0| + filler)];
    SpansOrdered(spans, |tokens|);
    r := Ok((tokens, spans));
  }

  /** What is left after trimming: the fixed tokens, in order, and a tight common prefix. */
  ghost predicate Shortened(prior: seq<Token>, spans0: seq<Span>, deficit: int, tokens: seq<Token>, spans: seq<Span>,
                            preserved: nat, trimmed: int)
    requires Ordered(spans0, |prior|)
  {
    && trimmed == Max(0, deficit) && |tokens| == |prior| - trimmed
    && SpansOk(spans, |tokens|) && Ordered(spans, |tokens|) && Fixed(tokens, spans) == Fixed(prior, spans0)
    && preserved <= |tokens| && preserved <= |prior| && tokens[..preserved] == prior[..preserved]
    && (deficit > 0 ==> TightCut(spans0, preserved, deficit) && Ordered(spans, preserved))
    && (deficit <= 0 ==> tokens == prior && spans == spans0 && preserved == |prior|)
  }

  function AdjustmentOf(mode: ContextMode, trimmed: bool, padded: bool): Adjustment {
    if mode == RESET then if padded then RESET_AND_PAD else RESET_ONLY
    else if trimmed && padded then TRIM_AND_PAD else if trimmed then TRIM_ONLY else if padded then PAD else NOTHING
  }

  lemma TrimmedMeans(tokens0: seq<Token>, spans0: seq<Span>, deficit: int, tokens: seq<Token>, spans: seq<Span>,
                     preserved: nat)
    requires SpansOk(spans0, |tokens0|) && SpansOk(spans, |tokens|) && Ordered(spans0, |tokens0|)
    requires Trimmed(tokens0, spans0, deficit, tokens, spans, preserved)
    ensures Ordered(spans, |tokens|) && Fixed(tokens, spans) == Fixed(tokens0, spans0)
      && |tokens| == |tokens0| - deficit
    ensures preserved <= |tokens| && preserved <= |tokens0| && TightCut(spans0, preserved, deficit)
    ensures tokens[..preserved] == tokens0[..preserved]
  {
    hide Fixed, TightCut, SpansOk;
    assert Ordered(spans, |tokens|);
  }

  lemma SpansOrdered(spans: seq<Span>, n: nat)
    requires SpansOk(spans, n)
    ensures Ordered(spans, n)
  {
  }

  lemma SpansWiden(spans: seq<Span>, m: nat, n: nat)
    requires SpansOk(spans, m) && m <= n
    ensures SpansOk(spans, n)
  {
  }
}
