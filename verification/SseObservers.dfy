/** Decoded JSON, as far as the observers look into it. Decoding itself is a parameter. */
module JsonValues {
  import opened Wrappers

  type Byte = int
  type Bytes = seq<Byte>

  datatype Json =
    | NULL | BOOL(b: bool) | INT(n: int) | REAL(r: real) | STRING(s: string) | ARRAY(items: seq<Json>)
    | OBJECT(at: map<string, Json>)

  /** A decoder that may refuse its input. */
  type Decoder = Bytes -> Option<Json>

  /** A member of an object; absent members and members of other values are missing. */
  function Get(j: Json, name: string): Json {
    if j.OBJECT? && name in j.at then j.at[name] else NULL
  }

  /** Integers, including the two booleans. */
  function AsInt(j: Json): Option<int> {
    match j
    case INT(n) => Some(n)
    case BOOL(b) => Some(if b then 1 else 0)
    case _ => None
  }

  predicate Truthy(j: Json) {
    match j
    case NULL => false
    case BOOL(b) => b
    case INT(n) => n != 0
    case REAL(r) => r != 0.0
    case STRING(s) => s != ""
    case ARRAY(items) => items != []
    case OBJECT(at) => at != map[]
  }
}

/** Cutting a byte stream into events at blank lines: the framing of section 9.2 of the WHATWG HTML Living Standard,
    for the two line endings the observers accept. */
module SseFraming {
  import opened Wrappers
  import opened JsonValues

  /** The bytes of a stream that arrives in chunks. */
  function Flat(chunks: seq<Bytes>): Bytes {
    if chunks == [] then [] else Flat(chunks[..|chunks| - 1]) + chunks[|chunks| - 1]
  }

  const LF: Byte := 10
  const CR: Byte := 13
  const LF_LF: Bytes := [LF, LF]
  const CRLF_CRLF: Bytes := [CR, LF, CR, LF]

  predicate OccursAt(s: Bytes, pattern: Bytes, i: int) {
    0 <= i && i + |pattern| <= |s| && s[i..i + |pattern|] == pattern
  }

  /** `bytes.find` from position `i`. */
  function Find(s: Bytes, pattern: Bytes, i: nat): (r: Option<nat>)
    ensures r.Some? ==>
      i <= r.value && OccursAt(s, pattern, r.value) && forall j | i <= j < r.value :: !OccursAt(s, pattern, j)
    ensures r.None? ==> forall j | i <= j :: !OccursAt(s, pattern, j)
    decreases |s| - i
  {
    if i + |pattern| > |s| then None else if OccursAt(s, pattern, i) then Some(i)
    else if i == |s| then None else Find(s, pattern, i + 1)
  }

  /** A blank line starts here; its length. */
  function BoundaryAt(s: Bytes, i: int): Option<nat> {
    if OccursAt(s, LF_LF, i) then Some(2) else if OccursAt(s, CRLF_CRLF, i) then Some(4) else None
  }

  function FirstBoundary(s: Bytes, i: nat): (r: Option<(nat, nat)>)
    ensures r.Some? ==> i <= r.value.0 && BoundaryAt(s, r.value.0) == Some(r.value.1) && r.value.0 + r.value.1 <= |s|
    ensures r.Some? ==> forall j | i <= j < r.value.0 :: BoundaryAt(s, j) == None
    ensures r.None? ==> forall j | i <= j :: BoundaryAt(s, j) == None
    decreases |s| - i
  {
    if i >= |s| then None
    else if BoundaryAt(s, i).Some? then Some((i, BoundaryAt(s, i).value))
    else FirstBoundary(s, i + 1)
  }

  /** The source's search: both patterns from the start, the smaller pair wins. */
  method EarliestBoundary(s: Bytes) returns (r: Option<(nat, nat)>)
    ensures r == FirstBoundary(s, 0)
  {
    var lf, crlf := Find(s, LF_LF, 0), Find(s, CRLF_CRLF, 0);
    r := if lf.None? && crlf.None? then None
         else if crlf.None? || (lf.Some? && lf.value <= crlf.value) then Some((lf.value, 2))
         else Some((crlf.value, 4));
    BoundaryUnique(s, r);
  }

  lemma BoundaryUnique(s: Bytes, r: Option<(nat, nat)>)
    requires r.Some? ==>
      BoundaryAt(s, r.value.0) == Some(r.value.1) && forall j | 0 <= j < r.value.0 :: BoundaryAt(s, j) == None
    requires r.None? ==> forall j | 0 <= j :: BoundaryAt(s, j) == None
    ensures r == FirstBoundary(s, 0)
  {
  }

  /** A boundary found in a part of the stream stays the first one when more bytes arrive: no boundary that starts
      earlier can complete later. */
  lemma BoundaryStable(a: Bytes, b: Bytes)
    requires FirstBoundary(a, 0).Some?
    ensures FirstBoundary(a + b, 0) == FirstBoundary(a, 0)
  {
    var (i, n) := FirstBoundary(a, 0).value;
    forall j | 0 <= j <= i ensures BoundaryAt(a + b, j) == BoundaryAt(a, j) {
      BoundaryLocal(a, b, i, j);
    }
    BoundaryUnique(a + b, Some((i, n)));
  }

  lemma BoundaryLocal(a: Bytes, b: Bytes, i: nat, j: nat)
    requires BoundaryAt(a, i).Some? && j <= i && (j < i ==> BoundaryAt(a, j) == None)
    ensures BoundaryAt(a + b, j) == BoundaryAt(a, j)
  {
    var s := a + b;
    assert forall k | 0 <= k < |a| :: s[k] == a[k];
    assert OccursAt(a, LF_LF, i) ==> a[i..i + 2][0] == LF && a[i..i + 2][1] == LF;
    assert OccursAt(s, LF_LF, j) ==> s[j..j + 2][0] == LF && s[j..j + 2][1] == LF && j + 2 <= |a|;
    assert OccursAt(s, CRLF_CRLF, j) ==> s[j..j + 4][1] == LF && s[j..j + 4][2] == CR && s[j..j + 4][0] == CR;
    if j + 2 <= |a| { assert s[j..j + 2] == a[j..j + 2]; }
    if j + 4 <= |a| { assert s[j..j + 4] == a[j..j + 4]; }
    if i + 4 <= |a| { assert s[i..i + 4] == a[i..i + 4]; }
  }

  /** The complete events of a stream, and the bytes after the last one. */
  function Frame(s: Bytes): (seq<Bytes>, Bytes)
    decreases |s|
  {
    match FirstBoundary(s, 0)
    case None => ([], s)
    case Some((i, n)) =>
      var (events, rest) := Frame(s[i + n..]);
      ([s[..i]] + events, rest)
  }

  lemma FrameStep(s: Bytes)
    ensures FirstBoundary(s, 0).None? ==> Frame(s) == ([], s)
    ensures FirstBoundary(s, 0).Some? ==>
      var (i, n) := FirstBoundary(s, 0).value;
      n > 0 && i + n <= |s| && Frame(s) == ([s[..i]] + Frame(s[i + n..]).0, Frame(s[i + n..]).1)
  {
    assert FirstBoundary(s, 0).Some? ==> FirstBoundary(s, 0).value.1 > 0;
    hide FirstBoundary, BoundaryAt, OccursAt;
  }

  /** Framing part of a stream and then the rest gives the events of the whole stream. */
  lemma {:induction false} FrameConcat(a: Bytes, b: Bytes)
    ensures Frame(a + b) == (Frame(a).0 + Frame(Frame(a).1 + b).0, Frame(Frame(a).1 + b).1)
    decreases |a|
  {
    FrameStep(a);
    hide Frame, BoundaryAt;
    match FirstBoundary(a, 0)
    case None =>
      assert [] + Frame(a + b).0 == Frame(a + b).0;
    case Some((i, n)) =>
      BoundaryStable(a, b);
      hide FirstBoundary;
      FrameStep(a + b);
      FrameConcat(a[i + n..], b);
      assert (a + b)[i + n..] == a[i + n..] + b;
      assert (a + b)[..i] == a[..i];
      var tail := Frame(a[i + n..]);
      assert [a[..i]] + (tail.0 + Frame(tail.1 + b).0) == [a[..i]] + tail.0 + Frame(tail.1 + b).0;
  }

  /** What is kept after framing holds no further event. */
  lemma {:induction false} RestHasNone(s: Bytes)
    ensures FirstBoundary(Frame(s).1, 0).None?
    decreases |s|
  {
    match FirstBoundary(s, 0)
    case None =>
    case Some((i, n)) => RestHasNone(s[i + n..]);
  }

  // ---- the data of one event

  predicate IsSpace(b: Byte) {
    b == 32 || 9 <= b <= 13
  }

  function LeftStripped(s: Bytes): Bytes {
    if s != [] && IsSpace(s[0]) then LeftStripped(s[1..]) else s
  }

  function RightStripped(s: Bytes): Bytes {
    if s != [] && IsSpace(s[|s| - 1]) then RightStripped(s[..|s| - 1]) else s
  }

  /** `bytes.splitlines`: line feed, carriage return, or both end a line. */
  function SplitLines(s: Bytes, line: Bytes): seq<Bytes>
    decreases |s|
  {
    if s == [] then if line == [] then [] else [line]
    else if s[0] == CR && |s| > 1 && s[1] == LF then [line] + SplitLines(s[2..], [])
    else if s[0] == LF || s[0] == CR then [line] + SplitLines(s[1..], [])
    else SplitLines(s[1..], line + [s[0]])
  }

  /** The bytes of "data:" and "[DONE]". */
  const DATA: Bytes := [100, 97, 116, 97, 58]
  const DONE_MARK: Bytes := [91, 68, 79, 78, 69, 93]

  function DataOf(lines: seq<Bytes>): seq<Bytes> {
    if lines == [] then []
    else (if DATA <= lines[0] then [LeftStripped(lines[0][5..])] else []) + DataOf(lines[1..])
  }

  function Joined(lines: seq<Bytes>): Bytes {
    if lines == [] then [] else if |lines| == 1 then lines[0] else lines[0] + [LF] + Joined(lines[1..])
  }

  function EventData(event: Bytes): seq<Bytes> {
    DataOf(SplitLines(event, []))
  }
}

/** The usage observers: what each event contributes, and that chunking never matters. */
module UsageEvents {
  import opened Wrappers
  import opened JsonValues
  import opened SseFraming

  type Usage = map<string, int>

  /** One event's effect: counters to overwrite, whether it completes the stream, and whether it carries content. */
  datatype Effect = Effect(counters: Usage, completes: bool, content: bool)

  const NOTHING := Effect(map[], false, false)

  const COUNTERS: seq<string> := ["input_tokens", "output_tokens", "cache_creation_input_tokens",
                                  "cache_read_input_tokens"]

  function IntMembers(usage: Json, names: seq<string>): Usage {
    if names == [] then map[]
    else
      var rest, value := IntMembers(usage, names[..|names| - 1]), AsInt(Get(usage, names[|names| - 1]));
      if value.Some? then rest[names[|names| - 1] := value.value] else rest
  }

  /** Anthropic events report usage at the top level or inside their message. */
  function AnthropicEffect(decode: Decoder, event: Bytes): Effect {
    var data := EventData(event);
    if data == [] then NOTHING
    else match decode(Joined(data))
      case None => NOTHING
      case Some(payload) =>
        if !payload.OBJECT? then NOTHING
        else
          var top := Get(payload, "usage");
          var usage := if top.OBJECT? then top else Get(Get(payload, "message"), "usage");
          Effect(if usage.OBJECT? then IntMembers(usage, COUNTERS) else map[],
                 Get(payload, "type") == STRING("message_stop"), Get(payload, "type") == STRING("content_block_delta"))
  }

  /** The first of the names that carries an integer. */
  function FirstInt(usage: Json, names: seq<string>): Option<int> {
    if names == [] then None
    else if AsInt(Get(usage, names[0])).Some? then AsInt(Get(usage, names[0]))
    else FirstInt(usage, names[1..])
  }

  function Assign(u: Usage, name: string, value: Option<int>): Usage {
    if value.Some? then u[name := value.value] else u
  }

  /** Vendor names to canonical counters; detailed cache counts win. */
  function Normalized(usage: Json): Usage {
    var u := Assign(map[], "input_tokens", FirstInt(usage, ["input_tokens", "prompt_tokens"]));
    var v := Assign(u, "output_tokens", FirstInt(usage, ["output_tokens", "completion_tokens"]));
    var w := Assign(v, "cache_creation_input_tokens", FirstInt(usage, ["cache_creation_input_tokens"]));
    var x := Assign(w, "cache_read_input_tokens", FirstInt(usage, ["cache_read_input_tokens", "cached_tokens"]));
    Assign(x, "cache_read_input_tokens", AsInt(Get(Get(usage, "prompt_tokens_details"), "cached_tokens")))
  }

  predicate CarriesContent(choices: Json) {
    choices.ARRAY? && exists i :: 0 <= i < |choices.items| && Truthy(Get(Get(choices.items[i], "delta"), "content"))
  }

  function OpenAIEffect(decode: Decoder, event: Bytes): Effect {
    var data := EventData(event);
    if data == [DONE_MARK] then Effect(map[], true, false)
    else if data == [] then NOTHING
    else match decode(Joined(data))
      case None => NOTHING
      case Some(payload) =>
        if !payload.OBJECT? then NOTHING
        else
          var usage := Get(payload, "usage");
          Effect(if usage.OBJECT? then Normalized(usage) else map[], false, CarriesContent(Get(payload, "choices")))
  }

  datatype Api = ANTHROPIC | OPENAI

  function EffectOf(api: Api, decode: Decoder, event: Bytes): Effect {
    if api == ANTHROPIC then AnthropicEffect(decode, event) else OpenAIEffect(decode, event)
  }

  /** What an observer has seen. */
  datatype Seen = Seen(usage: Usage, completed: bool)

  function After(api: Api, decode: Decoder, events: seq<Bytes>): Seen {
    Extended(api, decode, Seen(map[], false), events)
  }

  function Extended(api: Api, decode: Decoder, seen: Seen, events: seq<Bytes>): Seen {
    if events == [] then seen
    else
      var before, e := Extended(api, decode, seen, events[..|events| - 1]), EffectOf(api, decode, events[|events| - 1]);
      Seen(before.usage + e.counters, before.completed || e.completes)
  }

  predicate AnyContent(api: Api, decode: Decoder, events: seq<Bytes>) {
    exists i :: 0 <= i < |events| && EffectOf(api, decode, events[i]).content
  }

  /** What the counters mean: each holds the value of the last event that reported it, and none other is present. */
  ghost predicate LastReported(api: Api, decode: Decoder, events: seq<Bytes>, name: string, i: nat)
    requires i < |events|
  {
    && name in EffectOf(api, decode, events[i]).counters
    && forall j | i < j < |events| :: name !in EffectOf(api, decode, events[j]).counters
  }

  lemma {:induction false} CountersAreLastReports(api: Api, decode: Decoder, events: seq<Bytes>, name: string)
    ensures name in After(api, decode, events).usage <==>
      exists i :: 0 <= i < |events| && LastReported(api, decode, events, name, i)
    ensures forall i | 0 <= i < |events| && LastReported(api, decode, events, name, i) ::
      name in After(api, decode, events).usage
      && After(api, decode, events).usage[name] == EffectOf(api, decode, events[i]).counters[name]
  {
    hide EffectOf;
    if events != [] {
      var init, last := events[..|events| - 1], |events| - 1;
      CountersAreLastReports(api, decode, init, name);
      assert forall i | 0 <= i < |init| :: init[i] == events[i];
      if name in EffectOf(api, decode, events[last]).counters {
        assert LastReported(api, decode, events, name, last);
      } else {
        forall i | 0 <= i < |init|
          ensures LastReported(api, decode, init, name, i) <==> LastReported(api, decode, events, name, i) {
        }
        if i :| 0 <= i < |init| && LastReported(api, decode, init, name, i) {
          assert LastReported(api, decode, events, name, i);
        }
      }
    }
  }

  lemma {:induction false} CompletedMeans(api: Api, decode: Decoder, events: seq<Bytes>)
    ensures After(api, decode, events).completed <==>
      exists i :: 0 <= i < |events| && EffectOf(api, decode, events[i]).completes
  {
    hide EffectOf;
    if events != [] {
      var init := events[..|events| - 1];
      CompletedMeans(api, decode, init);
      assert forall i | 0 <= i < |init| :: init[i] == events[i];
    }
  }

  // ---- independence from chunking

  /** The observer's state after feeding chunks one by one: buffer, counters and completion. */
  datatype State = State(buffer: Bytes, seen: Seen)

  function Fed(api: Api, decode: Decoder, x: State, chunk: Bytes): State {
    var (events, rest) := Frame(x.buffer + chunk);
    State(rest, Extended(api, decode, x.seen, events))
  }

  function FedAll(api: Api, decode: Decoder, chunks: seq<Bytes>): State {
    if chunks == [] then State([], Seen(map[], false))
    else Fed(api, decode, FedAll(api, decode, chunks[..|chunks| - 1]), chunks[|chunks| - 1])
  }

  lemma {:induction false} AfterConcat(api: Api, decode: Decoder, a: seq<Bytes>, b: seq<Bytes>)
    ensures After(api, decode, a + b) == Extended(api, decode, After(api, decode, a), b)
  {
    hide EffectOf;
    if b == [] {
      assert a + b == a;
    } else {
      var init := b[..|b| - 1];
      AfterConcat(api, decode, a, init);
      assert (a + b)[..|a + b| - 1] == a + init;
    }
  }

  /** However a stream is split into chunks, the observer ends in the state of parsing the whole stream once. */
  lemma {:induction false} ChunkingIsIrrelevant(api: Api, decode: Decoder, chunks: seq<Bytes>)
    ensures FedAll(api, decode, chunks) ==
      State(Frame(Flat(chunks)).1, After(api, decode, Frame(Flat(chunks)).0))
  {
    hide EffectOf, FirstBoundary;
    if chunks == [] {
      NoEvents();
    } else {
      var init, last := chunks[..|chunks| - 1], chunks[|chunks| - 1];
      ChunkingIsIrrelevant(api, decode, init);
      FrameConcat(Flat(init), last);
      AfterConcat(api, decode, Frame(Flat(init)).0, Frame(Frame(Flat(init)).1 + last).0);
    }
  }

  lemma NoEvents()
    ensures Frame([]) == ([], [])
  {
  }

  /** Whether any of the calls reported content. */
  predicate EverObserved(api: Api, decode: Decoder, chunks: seq<Bytes>) {
    chunks != [] && (
      var init := chunks[..|chunks| - 1];
      || EverObserved(api, decode, init)
      || AnyContent(api, decode, Frame(FedAll(api, decode, init).buffer + chunks[|chunks| - 1]).0))
  }

  /** Some call reports content exactly when the whole stream carries some. */
  lemma {:induction false} ContentObservedOnce(api: Api, decode: Decoder, chunks: seq<Bytes>)
    ensures EverObserved(api, decode, chunks) <==> AnyContent(api, decode, Frame(Flat(chunks)).0)
  {
    hide EffectOf, FirstBoundary;
    if chunks == [] {
      NoEvents();
    } else {
      var init, last := chunks[..|chunks| - 1], chunks[|chunks| - 1];
      ContentObservedOnce(api, decode, init);
      ChunkingIsIrrelevant(api, decode, init);
      FrameConcat(Flat(init), last);
      ContentConcat(api, decode, Frame(Flat(init)).0, Frame(Frame(Flat(init)).1 + last).0);
    }
  }

  lemma ContentConcat(api: Api, decode: Decoder, a: seq<Bytes>, b: seq<Bytes>)
    ensures AnyContent(api, decode, a + b) <==> AnyContent(api, decode, a) || AnyContent(api, decode, b)
  {
    hide EffectOf;
    assert forall i | 0 <= i < |a| :: (a + b)[i] == a[i];
    assert forall i | 0 <= i < |b| :: (a + b)[|a| + i] == b[i];
  }

  /** Hence any two ways of splitting the same stream agree. */
  lemma SplitsAgree(api: Api, decode: Decoder, a: seq<Bytes>, b: seq<Bytes>)
    requires Flat(a) == Flat(b)
    ensures FedAll(api, decode, a) == FedAll(api, decode, b)
  {
    ChunkingIsIrrelevant(api, decode, a);
    ChunkingIsIrrelevant(api, decode, b);
  }
}

/** The observers' loops over their own buffers. */
module UsageObservers {
  import opened JsonValues
  import opened SseFraming
  import opened UsageEvents

  class SseUsageObserver {
    const api: Api
    const decode: Decoder
    var buffer: Bytes
    var usage: Usage
    var completed: bool

    function Abs(): State
      reads this
    {
      State(buffer, Seen(usage, completed))
    }

    constructor (api: Api, decode: Decoder)
      ensures Abs() == State([], Seen(map[], false)) && this.api == api && this.decode == decode
    {
      this.api, this.decode := api, decode;
      buffer, usage, completed := [], map[], false;
    }

    /** Takes complete events off the buffer one by one; reports whether one of them carried content. */
    method Observe(chunk: Bytes) returns (observed: bool)
      modifies this
      ensures Abs() == Fed(api, decode, old(Abs()), chunk)
      ensures observed == AnyContent(api, decode, Frame(old(buffer) + chunk).0)
    {
      hide EffectOf, FirstBoundary, Frame, Extended, AnyContent, Fed;
      buffer := buffer + chunk;
      observed := false;
      ghost var whole, start, done: seq<Bytes> := buffer, Seen(usage, completed), [];
      NoneTaken(whole, start);
      while true
        invariant Frame(whole) == (done + Frame(buffer).0, Frame(buffer).1)
        invariant Seen(usage, completed) == Extended(api, decode, start, done)
        invariant observed == AnyContent(api, decode, done)
        decreases |buffer|
      {
        var boundary := EarliestBoundary(buffer);
        FrameStep(buffer);
        if boundary.None? {
          assert done + [] == done;
          break;
        }
        var (index, size) := boundary.value;
        var event := buffer[..index];
        assert done + ([event] + Frame(buffer[index + size..]).0) == (done + [event]) + Frame(buffer[index + size..]).0;
        buffer := buffer[index + size..];
        var effect := EffectOf(api, decode, event);
        Taken(start, done, event);
        usage, completed := usage + effect.counters, completed || effect.completes;
        observed := observed || effect.content;
        done := done + [event];
      }
      FedIs(old(Abs()), chunk);
    }

    lemma FedIs(x: State, chunk: Bytes)
      ensures Fed(api, decode, x, chunk)
           == State(Frame(x.buffer + chunk).1, Extended(api, decode, x.seen, Frame(x.buffer + chunk).0))
    {
    }

    lemma NoneTaken(whole: Bytes, start: Seen)
      ensures Frame(whole) == ([] + Frame(whole).0, Frame(whole).1)
      ensures start == Extended(api, decode, start, []) && !AnyContent(api, decode, [])
    {
      assert [] + Frame(whole).0 == Frame(whole).0;
    }

    lemma Taken(start: Seen, done: seq<Bytes>, event: Bytes)
      ensures AnyContent(api, decode, done + [event]) <==>
        AnyContent(api, decode, done) || EffectOf(api, decode, event).content
      ensures var before, e := Extended(api, decode, start, done), EffectOf(api, decode, event);
        Extended(api, decode, start, done + [event]) == Seen(before.usage + e.counters, before.completed || e.completes)
    {
      hide EffectOf;
      ContentSnoc(done, event);
      assert (done + [event])[..|done|] == done;
    }

    lemma ContentSnoc(done: seq<Bytes>, event: Bytes)
      ensures AnyContent(api, decode, done + [event]) <==>
        AnyContent(api, decode, done) || EffectOf(api, decode, event).content
    {
      assert (done + [event])[|done|] == event;
      assert forall i | 0 <= i < |done| :: (done + [event])[i] == done[i];
    }
  }
}
