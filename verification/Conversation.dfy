/** Whole conversations: what every prompt of a chain of turns contains. */
module ConversationChain {
  import opened Wrappers
  import opened TokenSource
  import opened MutableSpans
  import opened TokenPromptModel

  /** A turn that was sent: its prompt and the backend's actual output. */
  datatype Turn = Turn(recipe: Recipe, prompt: Prompt, cal: Calibration, output: seq<Token>)

  function ContextAt(turns: seq<Turn>, i: nat): Option<Exchange>
    requires i < |turns|
  {
    if i == 0 then None else Some(Exchange(turns[i - 1].prompt, Some(turns[i - 1].output)))
  }

  /** Turn `i` was built from turn `i - 1`, or as a root. */
  ghost predicate BuiltAt(seeds: Seeds, turns: seq<Turn>, i: nat)
    requires i < |turns|
  {
    var t, context := turns[i], ContextAt(turns, i);
    && ContextOk(context) && Prior(seeds, t.recipe, context).Ok?
    && TokenSequence(seeds(Trailing(t.recipe, context).namespace), Trailing(t.recipe, context).count).Ok?
    && PromptBuilt(seeds, t.recipe, context, t.prompt, t.cal)
  }

  ghost predicate Chain(seeds: Seeds, turns: seq<Turn>) {
    forall i | 0 <= i < |turns| :: BuiltAt(seeds, turns, i)
  }

  /** Tokens of a segment whose namespace has a seed. */
  function SegmentText(seeds: Seeds, s: Segment): seq<Token> {
    var r := TokenSequence(seeds(s.namespace), s.count);
    if r.Ok? then r.value else []
  }

  /** The root's shared segments, then every actual output and the continuation segment after it. */
  function Story(seeds: Seeds, turns: seq<Turn>, i: nat): seq<Token>
    requires i < |turns|
  {
    if i == 0 then
      (match SegmentTokens(seeds, turns[0].recipe.rootSegments) case Ok(t) => t case Err(_) => [])
      + SegmentText(seeds, turns[0].recipe.rootTrailing)
    else Story(seeds, turns, i - 1) + turns[i - 1].output + SegmentText(seeds, turns[i].recipe.extraSystem)
  }

  /** Along any chain every prompt has exactly its target length, and outside its mutable spans it holds exactly
      the story so far: no trim ever touches a shared segment or an actual output. */
  lemma {:induction false} ChainKeepsStory(seeds: Seeds, turns: seq<Turn>, i: nat)
    requires Chain(seeds, turns) && i < |turns|
    ensures PromptOk(turns[i].prompt) && |turns[i].prompt.tokens.value| == turns[i].recipe.target
    ensures Fixed(turns[i].prompt.tokens.value, turns[i].prompt.spans) == Story(seeds, turns, i)
  {
    hide TightCut, WidthFrom, SpansOk, TokenSequence, Ordered, KeepsPrefix;
    assert BuiltAt(seeds, turns, i);
    var context := ContextAt(turns, i);
    PriorOrdered(seeds, turns[i].recipe, context);
    if i > 0 {
      ChainKeepsStory(seeds, turns, i - 1);
      var before := turns[i - 1];
      SpansOrdered(before.prompt.spans, |before.prompt.tokens.value|);
      FixedExtends(before.prompt.tokens.value, before.prompt.spans, before.output);
    }
  }

  ghost predicate NoTrim(turns: seq<Turn>, i: nat, j: nat)
    requires j < |turns|
  {
    forall k | i < k <= j :: turns[k].cal.trimmed == 0
  }

  /** As long as nothing is trimmed, every prompt begins with all the tokens of every earlier prompt of its chain. */
  lemma {:induction false} UntrimmedPromptsExtend(seeds: Seeds, turns: seq<Turn>, i: nat, j: nat)
    requires Chain(seeds, turns) && i <= j < |turns| && NoTrim(turns, i, j)
    ensures turns[i].prompt.tokens.Some? && turns[j].prompt.tokens.Some?
    ensures turns[i].prompt.tokens.value <= turns[j].prompt.tokens.value
    decreases j
  {
    hide Fixed, TightCut, SpansOk, Ordered, TokenSequence;
    assert BuiltAt(seeds, turns, j);
    if i < j {
      UntrimmedPromptsExtend(seeds, turns, i, j - 1);
      var prior := Prior(seeds, turns[j].recipe, ContextAt(turns, j)).value;
      var before, tokens := turns[j - 1].prompt.tokens.value, turns[j].prompt.tokens.value;
      assert prior == before + turns[j - 1].output;
      assert tokens[..|prior|] == prior;
      assert prior[..|before|] == before;
      assert tokens[..|before|] == tokens[..|prior|][..|before|];
    }
  }

  /** A trimmed prompt shares with its predecessor's transcript exactly the reported prefix's worth of kept
      tokens: no cut that removes the same number of recorded filler tokens could preserve a longer prefix. */
  lemma TrimPreservesMost(seeds: Seeds, turns: seq<Turn>, i: nat, p: nat)
    requires Chain(seeds, turns) && 0 < i < |turns| && turns[i].cal.trimmed > 0
    requires p > turns[i].cal.preserved
    ensures WidthFrom(turns[i - 1].prompt.spans, p) < turns[i].cal.trimmed
  {
    hide Fixed, TokenSequence;
    assert BuiltAt(seeds, turns, i);
    WidthFromFalls(turns[i - 1].prompt.spans, |Prior(seeds, turns[i].recipe, ContextAt(turns, i)).value|,
                   turns[i].cal.preserved + 1, p);
  }

  lemma {:induction false} WidthFromFalls(spans: seq<Span>, n: nat, p: int, q: int)
    requires Ordered(spans, n) && p <= q
    ensures WidthFrom(spans, q) <= WidthFrom(spans, p)
  {
    if spans != [] { WidthFromFalls(spans[..|spans| - 1], n, p, q); }
  }
}

/** The planner's context decision and the prompt builder's trim agree whenever the backend returned what was
    planned. */
module PlannedTrims {
  import opened Wrappers
  import opened ReplaySchema
  import opened TaskPlanning
  import opened TokenSource
  import opened MutableSpans
  import opened TokenPromptModel

  /** An exchange whose prompt and output have exactly the planned lengths. */
  ghost predicate AsPlanned(x: Exchange, planned: (Option<int>, Option<int>)) {
    && PromptOk(x.prompt) && planned.0 == Some(|x.prompt.tokens.value|)
    && x.output.Some? && x.output.value != [] && planned.1 == Some(|x.output.value|)
    && forall i | 0 <= i < |x.output.value| :: x.output.value[i] >= 0
  }

  /** A planned continuation can fail at run time in one way only: a planned trim that exceeds the recorded filler. */
  lemma PlannedModesFit(c: Config, q: Request, targets: Targets, k: Key, seeds: Seeds, n: Recipe, x: Exchange)
    requires c.shape == AGENTINFER && !c.strict && c.usesTokenIds && q.isRequest && q.key in targets && k in targets
    requires ContextPlan(c, q, targets) == Ok((Some(k), n.mode))
    requires targets[q.key].0 == Some(n.target) && n.extraSystem.count == c.extraSystemTokens(q.key, q.role)
    requires AsPlanned(x, targets[k]) && (forall s :: seeds(s) != [])
    ensures Prior(seeds, n, Some(x)).Ok? && n.mode in {APPEND, TRIM}
    ensures Buildable(c, seeds, n, Some(x)) <==>
      (n.mode == TRIM ==> Deficit(seeds, n, Some(x)) <= Width(x.prompt.spans))
    ensures n.mode == TRIM <==> Deficit(seeds, n, Some(x)) > 0
  {
    hide MicroTrimLimit, Width;
  }

  /** What the planner's context decision promises about the mode it chooses. */
  lemma PlannedMode(c: Config, q: Request, targets: Targets, k: Key, mode: ContextMode)
    requires c.shape == AGENTINFER && !c.strict && c.usesTokenIds && q.isRequest && q.key in targets && k in targets
    requires ContextPlan(c, q, targets) == Ok((Some(k), mode))
    ensures targets[q.key].0.Some? && targets[k].0.Some? && targets[k].1.Some?
    ensures var target := targets[q.key].0.value;
      var excess := targets[k].0.value + targets[k].1.value + c.extraSystemTokens(q.key, q.role) - target;
      && mode == (if excess > 0 then TRIM else APPEND)
      && (excess > 0 ==> excess <= MicroTrimLimit(c, target))
  {
    hide MicroTrimLimit;
  }
}

/** Whole conversations replayed with outputs of the planned lengths: exactly when every prompt can be built. */
module PlannedConversations {
  import opened Wrappers
  import opened ReplaySchema
  import opened SessionMeaning
  import opened PlanAcceptance
  import opened PlannedTrims
  import opened TaskPlanning
  import opened TokenSource
  import opened MutableSpans
  import opened TokenPromptModel
  import opened ConversationChain

  /** One planned turn: its recipe and the planned number of output tokens. */
  datatype Planned = Planned(recipe: Recipe, output: nat)

  function SegmentCount(segments: seq<Segment>): nat {
    if segments == [] then 0 else SegmentCount(segments[..|segments| - 1]) + segments[|segments| - 1].count
  }

  /** Tokens no trim may touch, counted from the plan alone: shared segments, outputs and continuation segments. */
  function FixedCount(plan: seq<Planned>, i: nat): nat
    requires i < |plan|
  {
    if i == 0 then SegmentCount(plan[0].recipe.rootSegments) + plan[0].recipe.rootTrailing.count
    else FixedCount(plan, i - 1) + plan[i - 1].output + plan[i].recipe.extraSystem.count
  }

  /** By how much the planned predecessor and continuation segment exceed the target. */
  function Excess(plan: seq<Planned>, i: nat): int
    requires 0 < i < |plan|
  {
    plan[i - 1].recipe.target + plan[i - 1].output + plan[i].recipe.extraSystem.count - plan[i].recipe.target
  }

  /** The modes the planner chooses: a root, then appends and small trims by planned excess. */
  ghost predicate AsPlannedModes(c: Config, plan: seq<Planned>) {
    forall i | 0 <= i < |plan| :: TurnPlanned(c, plan, i)
  }

  ghost predicate TurnPlanned(c: Config, plan: seq<Planned>, i: nat)
    requires i < |plan|
  {
    && (plan[i].recipe.continues <==> i > 0)
    && (i > 0 ==>
         && plan[i].recipe.mode == (if Excess(plan, i) > 0 then TRIM else APPEND)
         && (Excess(plan, i) > 0 ==> Excess(plan, i) <= MicroTrimLimit(c, plan[i].recipe.target)))
  }

  // ---- the planner's own conversations

  /** Turn `i` of the plan is node `at[i]`, and continues the node of the turn before. */
  ghost predicate TurnOf(c: Config, kept: seq<Request>, nodes: seq<Node>, at: seq<nat>, plan: seq<Planned>, i: nat)
    requires i < |at| == |plan|
  {
    && at[i] < |nodes| == |kept|
    && var n, recipe := nodes[at[i]], plan[i].recipe;
       && n.isRequest && n.input == Some(recipe.target) && n.output == Some(plan[i].output)
       && recipe.mode == n.mode && (recipe.continues <==> n.contextAfter.Some?)
       && recipe.extraSystem.count == c.extraSystemTokens(n.key, kept[at[i]].role)
       && (if i == 0 then n.contextAfter == None
           else at[i - 1] < |nodes| && n.contextAfter == Some(nodes[at[i - 1]].key))
  }

  /** Every chain of continuations that the planner makes of an analyzed session has those modes. */
  lemma ChainsAsPlanned(c: Config, kept: seq<Request>, runtimeId: Key -> RuntimeId, nodes: seq<Node>, at: seq<nat>,
                        plan: seq<Planned>)
    requires c.shape == AGENTINFER && !c.strict && c.usesTokenIds
    requires SessionOk(kept) && NodesOf(c, kept, runtimeId, nodes) && |at| == |plan|
    requires forall i | 0 <= i < |plan| :: TurnOf(c, kept, nodes, at, plan, i)
    ensures AsPlannedModes(c, plan)
  {
    forall i | 0 <= i < |plan| ensures TurnPlanned(c, plan, i) {
      assert TurnOf(c, kept, nodes, at, plan, i);
      if i > 0 {
        assert TurnOf(c, kept, nodes, at, plan, i - 1);
        NextAsPlanned(c, kept, runtimeId, nodes, at[i - 1], at[i]);
        hide NodesOf, SessionOk, MicroTrimLimit;
      }
    }
  }

  /** A node that keeps its context trims by exactly the planned excess, and within the limit. */
  lemma NextAsPlanned(c: Config, kept: seq<Request>, runtimeId: Key -> RuntimeId, nodes: seq<Node>, j: nat, i: nat)
    requires c.shape == AGENTINFER && !c.strict && c.usesTokenIds
    requires SessionOk(kept) && NodesOf(c, kept, runtimeId, nodes) && i < |nodes| && j < |nodes|
    requires nodes[i].isRequest && nodes[i].contextAfter == Some(nodes[j].key)
    requires nodes[i].input.Some? && nodes[j].input.Some? && nodes[j].output.Some?
    ensures var target := nodes[i].input.value;
      var excess :=
        nodes[j].input.value + nodes[j].output.value + c.extraSystemTokens(nodes[i].key, kept[i].role) - target;
      && nodes[i].mode == (if excess > 0 then TRIM else APPEND)
      && (excess > 0 ==> excess <= MicroTrimLimit(c, target))
  {
    NodeFields(c, kept, runtimeId, nodes, i);
    NodeFields(c, kept, runtimeId, nodes, j);
    SessionIsIndexed(kept);
    TargetsFacts(kept);
    var targets := TargetsOf(kept);
    assert ContextPlan(c, kept[i], targets) == Ok((Some(kept[j].key), nodes[i].mode));
    hide ContextPlan, NodesOf, NodeOf, SessionOk, TargetsOf, MicroTrimLimit;
    PlannedMode(c, kept[i], targets, kept[j].key, nodes[i].mode);
  }

  // ---- replaying a plan

  /** The turns so far follow the plan, with outputs of the planned lengths. */
  ghost predicate Follows(turns: seq<Turn>, plan: seq<Planned>) {
    && |turns| <= |plan|
    && forall i | 0 <= i < |turns| :: turns[i].recipe == plan[i].recipe && |turns[i].output| == plan[i].output
  }

  lemma {:induction false} SegmentLength(seeds: Seeds, segments: seq<Segment>)
    requires SegmentTokens(seeds, segments).Ok?
    ensures |SegmentTokens(seeds, segments).value| == SegmentCount(segments)
  {
    if segments != [] { SegmentLength(seeds, segments[..|segments| - 1]); }
  }

  /** The protected tokens of a prompt are as many as the plan says. */
  lemma {:induction false} StoryLength(seeds: Seeds, turns: seq<Turn>, plan: seq<Planned>, i: nat)
    requires Chain(seeds, turns) && Follows(turns, plan) && i < |turns|
    ensures |Story(seeds, turns, i)| == FixedCount(plan, i)
  {
    TrailingLength(seeds, turns, i);
    hide Chain, SegmentText, SegmentTokens, SegmentCount;
    if i > 0 { StoryLength(seeds, turns, plan, i - 1); }
  }

  /** The text that a turn appends is as long as its segment says, and so are the root's shared segments. */
  lemma TrailingLength(seeds: Seeds, turns: seq<Turn>, i: nat)
    requires Chain(seeds, turns) && i < |turns|
    ensures i > 0 ==> |SegmentText(seeds, turns[i].recipe.extraSystem)| == turns[i].recipe.extraSystem.count
    ensures i == 0 ==>
      var recipe := turns[0].recipe;
      && |SegmentText(seeds, recipe.rootTrailing)| == recipe.rootTrailing.count
      && SegmentTokens(seeds, recipe.rootSegments).Ok?
      && |SegmentTokens(seeds, recipe.rootSegments).value| == SegmentCount(recipe.rootSegments)
  {
    assert BuiltAt(seeds, turns, i);
    hide PromptBuilt, TokenSequence, Chain;
    if i == 0 { SegmentLength(seeds, turns[0].recipe.rootSegments); }
  }

  /** After any chain of turns the next trim fits exactly if the protected tokens alone fit the target. */
  lemma TrimFitsIff(seeds: Seeds, turns: seq<Turn>, i: nat, n: Recipe)
    requires Chain(seeds, turns) && i < |turns|
    requires Prior(seeds, n, Some(Exchange(turns[i].prompt, Some(turns[i].output)))).Ok?
    ensures Deficit(seeds, n, Some(Exchange(turns[i].prompt, Some(turns[i].output)))) <= Width(turns[i].prompt.spans)
       <==> |Story(seeds, turns, i)| + |turns[i].output| + n.extraSystem.count <= n.target
  {
    hide Fixed, Width, Story;
    ChainKeepsStory(seeds, turns, i);
    SpansOrdered(turns[i].prompt.spans, |turns[i].prompt.tokens.value|);
    FixedWidth(turns[i].prompt.tokens.value, turns[i].prompt.spans);
  }

  lemma RootBuildable(c: Config, seeds: Seeds, plan: seq<Planned>)
    requires plan != [] && TurnPlanned(c, plan, 0) && (forall s :: seeds(s) != [])
    ensures Buildable(c, seeds, plan[0].recipe, None) <==> FixedCount(plan, 0) <= plan[0].recipe.target
  {
    SegmentsSeeded(seeds, plan[0].recipe.rootSegments);
    SegmentLength(seeds, plan[0].recipe.rootSegments);
    hide SegmentTokens, SegmentCount, MicroTrimLimit;
  }

  lemma NextBuildable(c: Config, seeds: Seeds, plan: seq<Planned>, turns: seq<Turn>, i: nat)
    requires Chain(seeds, turns) && Follows(turns, plan) && |turns| == i < |plan| && i > 0
    requires TurnPlanned(c, plan, i) && !c.strict && (forall s :: seeds(s) != []) && OutputOk(turns[i - 1].output)
    ensures ContextOk(Next(turns))
    ensures Buildable(c, seeds, plan[i].recipe, Next(turns)) <==> FixedCount(plan, i) <= plan[i].recipe.target
  {
    hide Chain, MicroTrimLimit, Width, Story, Fixed, SpansOk;
    var n, before := plan[i].recipe, turns[i - 1];
    ChainKeepsStory(seeds, turns, i - 1);
    assert Prior(seeds, n, Next(turns)) == Ok(before.prompt.tokens.value + before.output);
    StoryLength(seeds, turns, plan, i - 1);
    TrimFitsIff(seeds, turns, i - 1, n);
    StoryWithin(seeds, turns, i - 1);
    assert before.recipe == plan[i - 1].recipe && |before.output| == plan[i - 1].output;
    assert Deficit(seeds, n, Next(turns)) == Excess(plan, i);
  }

  /** A planned turn can be built exactly if its protected tokens fit its target. */
  lemma TurnBuildable(c: Config, seeds: Seeds, plan: seq<Planned>, turns: seq<Turn>)
    requires Chain(seeds, turns) && Follows(turns, plan) && |turns| < |plan| && AsPlannedModes(c, plan) && !c.strict
    requires (forall s :: seeds(s) != []) && forall i | 0 <= i < |turns| :: OutputOk(turns[i].output)
    ensures ContextOk(Next(turns))
    ensures Buildable(c, seeds, plan[|turns|].recipe, Next(turns))
       <==> FixedCount(plan, |turns|) <= plan[|turns|].recipe.target
  {
    hide Buildable, FixedCount, Chain, Follows;
    assert TurnPlanned(c, plan, |turns|);
    if turns == [] {
      RootBuildable(c, seeds, plan);
    } else {
      NextBuildable(c, seeds, plan, turns, |turns|);
    }
  }

  lemma StoryWithin(seeds: Seeds, turns: seq<Turn>, i: nat)
    requires Chain(seeds, turns) && i < |turns|
    ensures |Story(seeds, turns, i)| <= turns[i].recipe.target
  {
    ChainKeepsStory(seeds, turns, i);
    SpansOrdered(turns[i].prompt.spans, |turns[i].prompt.tokens.value|);
    FixedWidth(turns[i].prompt.tokens.value, turns[i].prompt.spans);
    WidthSign(turns[i].prompt.spans, |turns[i].prompt.tokens.value|);
  }

  lemma {:induction false} WidthSign(spans: seq<Span>, n: int)
    requires Ordered(spans, n)
    ensures Width(spans) >= 0
  {
    if spans != [] { WidthSign(spans[..|spans| - 1], n); }
  }

  lemma {:induction false} SegmentsSeeded(seeds: Seeds, segments: seq<Segment>)
    requires forall s :: seeds(s) != []
    ensures SegmentTokens(seeds, segments).Ok?
  {
    if segments != [] { SegmentsSeeded(seeds, segments[..|segments| - 1]); }
  }

  /** The exchange the next turn continues, if any. */
  function Next(turns: seq<Turn>): Option<Exchange> {
    if turns == [] then None
    else Some(Exchange(turns[|turns| - 1].prompt, Some(turns[|turns| - 1].output)))
  }

  ghost predicate OutputOk(output: seq<Token>) {
    output != [] && forall i | 0 <= i < |output| :: output[i] >= 0
  }

  lemma ChainSnoc(seeds: Seeds, turns: seq<Turn>, t: Turn)
    requires Chain(seeds, turns) && ContextOk(Next(turns)) && Prior(seeds, t.recipe, Next(turns)).Ok?
    requires TokenSequence(seeds(Trailing(t.recipe, Next(turns)).namespace), Trailing(t.recipe, Next(turns)).count).Ok?
    requires PromptBuilt(seeds, t.recipe, Next(turns), t.prompt, t.cal)
    ensures Chain(seeds, turns + [t])
  {
    hide PromptBuilt, Prior;
    forall i | 0 <= i < |turns + [t]| ensures BuiltAt(seeds, turns + [t], i) {
      if i < |turns| {
        assert BuiltAt(seeds, turns, i);
        assert ContextAt(turns + [t], i) == ContextAt(turns, i);
      } else {
        assert ContextAt(turns + [t], i) == Next(turns);
      }
    }
  }

  /** Replays a planned conversation until a prompt cannot be built: it gets through exactly if at every turn the
      protected tokens, counted from the plan, fit the target; otherwise it stops at the first turn where they do
      not. */
  method ReplayConversation(c: Config, seeds: Seeds, plan: seq<Planned>, outputs: seq<seq<Token>>)
    returns (turns: seq<Turn>)
    requires AsPlannedModes(c, plan) && !c.strict && (forall s :: seeds(s) != []) && |outputs| == |plan|
    requires forall i | 0 <= i < |plan| :: |outputs[i]| == plan[i].output && OutputOk(outputs[i])
    ensures Chain(seeds, turns) && Follows(turns, plan)
    ensures forall i | 0 <= i < |turns| :: FixedCount(plan, i) <= plan[i].recipe.target && turns[i].output == outputs[i]
    ensures |turns| < |plan| ==> FixedCount(plan, |turns|) > plan[|turns|].recipe.target
  {
    hide AsPlannedModes, Buildable, PromptBuilt, Chain, FixedCount;
    turns := [];
    EmptyChain(seeds);
    while |turns| < |plan|
      invariant Chain(seeds, turns) && Follows(turns, plan)
      invariant forall i | 0 <= i < |turns| ::
        FixedCount(plan, i) <= plan[i].recipe.target && turns[i].output == outputs[i]
      decreases |plan| - |turns|
    {
      TurnBuildable(c, seeds, plan, turns);
      var recipe := plan[|turns|].recipe;
      var built := TokenPrompt(c, seeds, recipe, Next(turns));
      if built.Err? { return; }
      BuiltFacts(c, seeds, recipe, Next(turns));
      var turn := Turn(recipe, built.value.0, built.value.1, outputs[|turns|]);
      ChainSnoc(seeds, turns, turn);
      turns := turns + [turn];
    }
  }

  lemma EmptyChain(seeds: Seeds)
    ensures Chain(seeds, [])
  {
  }

  lemma BuiltFacts(c: Config, seeds: Seeds, n: Recipe, context: Option<Exchange>)
    requires Buildable(c, seeds, n, context)
    ensures Prior(seeds, n, context).Ok?
    ensures TokenSequence(seeds(Trailing(n, context).namespace), Trailing(n, context).count).Ok?
  {
  }
}

/** A planned trim that no prompt can satisfy. */
module RefusedTrim {
  import opened Wrappers
  import opened ReplaySchema
  import opened TaskPlanning
  import opened TokenSource
  import opened MutableSpans
  import opened TokenPromptModel
  import opened ConversationChain

  const NO_SEGMENT := Segment(0, 0)
  /** A root prompt that consists of ten shared tokens and needs no filler. */
  const ROOT := Recipe(10, INDEPENDENT, false, 1, [Segment(0, 10)], NO_SEGMENT, NO_SEGMENT)
  /** A continuation two tokens too short for the root and its output. */
  const NEXT := Recipe(9, TRIM, true, 1, [], NO_SEGMENT, NO_SEGMENT)

  function OneSeed(): Seeds { (s: Namespace) => [5] }

  function Adaptive(): Config {
    Config(AGENTINFER, false, true, 1.0, 0.0, 64, 0.0, (k, r) => 0)
  }

  function NextRequest(): Request {
    Request(2, 7, LEAD, None, 5, 6, SUCCESS, None, Some(9), Some(1), true, CONTINUATION, None, 2, Some(1), Some(1), 0,
            SAME_AGENT, Some(0), [])
  }

  function Ten(): seq<Token> { Times([5], 10) }

  lemma TenTokens()
    ensures |Ten()| == 10 && TokenSequence([5], 10) == Ok(Ten())
      && SegmentTokens(OneSeed(), ROOT.rootSegments) == Ok(Ten())
  {
    TimesLength([5], 10);
    assert Ten()[..10] == Ten();
    assert (10 + 1 - 1) / 1 == 10;
    var segments := ROOT.rootSegments;
    assert segments[..|segments| - 1] == [];
    assert [] + Ten() == Ten();
  }

  /** The planner chooses the trim, the root prompt is built as planned, and the trim is refused for want of filler. */
  lemma PlannedTrimRefused()
    ensures var targets: Targets := map[1 := (Some(10), Some(1)), 2 := (Some(9), Some(1))];
      ContextPlan(Adaptive(), NextRequest(), targets) == Ok((Some(1), TRIM))
    ensures var turns := [Turn(ROOT, Prompt(Some(Ten()), []), Calibration(10, 0, 0, 0, NOTHING), [5])];
      && Chain(OneSeed(), turns)
      && !Buildable(Adaptive(), OneSeed(), NEXT, Some(Exchange(turns[0].prompt, Some(turns[0].output))))
  {
    TenTokens();
    var turns := [Turn(ROOT, Prompt(Some(Ten()), []), Calibration(10, 0, 0, 0, NOTHING), [5])];
    assert Ten() + [] == Ten();
    assert Ten()[..10] == Ten();
    hide Times, TightCut;
    assert BuiltAt(OneSeed(), turns, 0);
  }
}
