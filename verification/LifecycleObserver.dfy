/** The semantic outcome of one response payload. */
module ResponseLifecycle {
  import opened JsonValues

  datatype Lifecycle = CONTINUE | TERMINAL | UNKNOWN_LIFECYCLE

  datatype Endpoint = OPENAI_CHAT_COMPLETIONS | ANTHROPIC_MESSAGES

  /** `item.get(name)` for an item that may not be an object. */
  predicate Says(j: Json, name: string, value: string) {
    j.OBJECT? && Get(j, name) == STRING(value)
  }

  predicate StopReason(payload: Json, value: string) {
    Says(payload, "stop_reason", value) || Says(Get(payload, "message"), "stop_reason", value)
    || Says(Get(payload, "delta"), "stop_reason", value)
  }

  predicate AnyItem(items: seq<Json>, name: string, value: string) {
    exists i :: 0 <= i < |items| && Says(items[i], name, value)
  }

  predicate AnyToolCall(choices: seq<Json>) {
    exists i :: 0 <= i < |choices| && choices[i].OBJECT?
      && (Truthy(Get(Get(choices[i], "message"), "tool_calls")) || Truthy(Get(Get(choices[i], "delta"), "tool_calls")))
  }

  function OfPayload(endpoint: Endpoint, payload: Json): Lifecycle {
    if !payload.OBJECT? then UNKNOWN_LIFECYCLE
    else if endpoint == ANTHROPIC_MESSAGES then
      if StopReason(payload, "tool_use") then CONTINUE
      else if StopReason(payload, "end_turn") then TERMINAL
      else if Get(payload, "content").ARRAY? && AnyItem(Get(payload, "content").items, "type", "tool_use") then CONTINUE
      else UNKNOWN_LIFECYCLE
    else
      var choices := Get(payload, "choices");
      if !choices.ARRAY? then UNKNOWN_LIFECYCLE
      else if AnyToolCall(choices.items) || AnyItem(choices.items, "finish_reason", "tool_calls") then CONTINUE
      else if AnyItem(choices.items, "finish_reason", "stop") then TERMINAL
      else UNKNOWN_LIFECYCLE
  }

  /** The loop over the choices: collects finish reasons and tool calls side by side. */
  method OfChoices(choices: seq<Json>) returns (r: Lifecycle)
    ensures r == OfPayload(OPENAI_CHAT_COMPLETIONS, OBJECT(map["choices" := ARRAY(choices)]))
  {
    var reasons: seq<Json> := [];
    var toolCallSeen := false;
    for n := 0 to |choices|
      invariant toolCallSeen == AnyToolCall(choices[..n])
      invariant forall v: string :: STRING(v) in reasons <==> AnyItem(choices[..n], "finish_reason", v)
    {
      var choice := choices[n];
      assert choices[..n + 1] == choices[..n] + [choice];
      AnyItemSnoc(choices[..n], choice);
      ToolCallSnoc(choices[..n], choice);
      if choice.OBJECT? {
        reasons := reasons + [Get(choice, "finish_reason")];
        if Truthy(Get(Get(choice, "message"), "tool_calls")) || Truthy(Get(Get(choice, "delta"), "tool_calls")) {
          toolCallSeen := true;
        }
      }
    }
    assert choices[..|choices|] == choices;
    r := if toolCallSeen || STRING("tool_calls") in reasons then CONTINUE
         else if STRING("stop") in reasons then TERMINAL else UNKNOWN_LIFECYCLE;
  }

  lemma AnyItemSnoc(items: seq<Json>, x: Json)
    ensures forall v: string ::
      AnyItem(items + [x], "finish_reason", v) <==> AnyItem(items, "finish_reason", v) || Says(x, "finish_reason", v)
  {
    forall v: string
      ensures AnyItem(items + [x], "finish_reason", v) <==>
        AnyItem(items, "finish_reason", v) || Says(x, "finish_reason", v)
    {
      assert (items + [x])[|items|] == x;
      assert forall i | 0 <= i < |items| :: (items + [x])[i] == items[i];
    }
  }

  lemma ToolCallSnoc(items: seq<Json>, x: Json)
    ensures AnyToolCall(items + [x]) <==> AnyToolCall(items) || AnyToolCall([x])
  {
    assert (items + [x])[|items|] == x && [x][0] == x;
    assert forall i | 0 <= i < |items| :: (items + [x])[i] == items[i];
  }
}

/** What a whole response means, independent of how it arrives. */
module LifecycleMeaning {
  import opened JsonValues
  import opened SseFraming
  import opened ResponseLifecycle

  const MAX_STREAM_EVENT_BYTES := 1024 * 1024
  const MAX_NON_STREAM_RESPONSE_BYTES := 8 * 1024 * 1024

  /** The terminated lines of a stream, and the bytes after the last line feed. */
  function Lines(s: Bytes): (seq<Bytes>, Bytes)
    decreases |s|
  {
    match Find(s, [LF], 0)
    case None => ([], s)
    case Some(end) =>
      var (lines, rest) := Lines(s[end + 1..]);
      ([s[..end]] + lines, rest)
  }

  lemma LinesStep(s: Bytes)
    ensures Find(s, [LF], 0).None? ==> Lines(s) == ([], s)
    ensures Find(s, [LF], 0).Some? ==>
      var end := Find(s, [LF], 0).value;
      end < |s| && Lines(s) == ([s[..end]] + Lines(s[end + 1..]).0, Lines(s[end + 1..]).1)
  {
  }

  lemma FindStable(a: Bytes, b: Bytes)
    requires Find(a, [LF], 0).Some?
    ensures Find(a + b, [LF], 0) == Find(a, [LF], 0)
  {
    var end := Find(a, [LF], 0).value;
    forall j | 0 <= j <= end ensures OccursAt(a + b, [LF], j) == OccursAt(a, [LF], j) {
      assert (a + b)[j..j + 1] == a[j..j + 1];
    }
    assert OccursAt(a + b, [LF], end);
  }

  lemma {:induction false} LinesConcat(a: Bytes, b: Bytes)
    ensures Lines(a + b) == (Lines(a).0 + Lines(Lines(a).1 + b).0, Lines(Lines(a).1 + b).1)
    decreases |a|
  {
    LinesStep(a);
    hide Lines;
    match Find(a, [LF], 0)
    case None =>
      assert [] + Lines(a + b).0 == Lines(a + b).0;
    case Some(end) =>
      FindStable(a, b);
      LinesStep(a + b);
      LinesConcat(a[end + 1..], b);
      assert (a + b)[end + 1..] == a[end + 1..] + b;
      assert (a + b)[..end] == a[..end];
      var tail := Lines(a[end + 1..]);
      assert [a[..end]] + (tail.0 + Lines(tail.1 + b).0) == [a[..end]] + tail.0 + Lines(tail.1 + b).0;
  }

  function TrimCr(line: Bytes): Bytes {
    if line != [] && line[|line| - 1] == CR then TrimCr(line[..|line| - 1]) else line
  }

  /** The outcome of one payload; undecodable data says nothing. */
  function OfData(endpoint: Endpoint, decode: Decoder, data: Bytes): Lifecycle {
    match decode(data)
    case None => UNKNOWN_LIFECYCLE
    case Some(payload) => OfPayload(endpoint, payload)
  }

  function OfLine(endpoint: Endpoint, decode: Decoder, raw: Bytes): Lifecycle {
    var line := TrimCr(raw);
    if !(DATA <= line) then UNKNOWN_LIFECYCLE
    else
      var data := RightStripped(LeftStripped(line[5..]));
      if data == [] || data == DONE_MARK then UNKNOWN_LIFECYCLE else OfData(endpoint, decode, data)
  }

  /** A later outcome replaces an earlier one, except that nothing replaces a continuation. */
  function Merge(current: Lifecycle, next: Lifecycle): Lifecycle {
    if next == CONTINUE then CONTINUE
    else if next == TERMINAL && current != CONTINUE then TERMINAL
    else current
  }

  function OfLines(endpoint: Endpoint, decode: Decoder, lines: seq<Bytes>): Lifecycle {
    if lines == [] then UNKNOWN_LIFECYCLE
    else Merge(OfLines(endpoint, decode, lines[..|lines| - 1]), OfLine(endpoint, decode, lines[|lines| - 1]))
  }

  /** Some event continues; or none does and some ends the turn; or neither. */
  lemma {:induction false} MergedMeans(endpoint: Endpoint, decode: Decoder, lines: seq<Bytes>)
    ensures OfLines(endpoint, decode, lines) ==
      if exists i :: 0 <= i < |lines| && OfLine(endpoint, decode, lines[i]) == CONTINUE then CONTINUE
      else if exists i :: 0 <= i < |lines| && OfLine(endpoint, decode, lines[i]) == TERMINAL then TERMINAL
      else UNKNOWN_LIFECYCLE
  {
    hide OfLine;
    if lines != [] {
      var init := lines[..|lines| - 1];
      MergedMeans(endpoint, decode, init);
      assert forall i | 0 <= i < |init| :: init[i] == lines[i];
    }
  }

  /** Some line, terminated or not, is longer than the limit. */
  predicate StreamOverflows(s: Bytes) {
    || |Lines(s).1| > MAX_STREAM_EVENT_BYTES
    || exists i :: 0 <= i < |Lines(s).0| && |Lines(s).0[i]| > MAX_STREAM_EVENT_BYTES
  }

  predicate Overflows(streaming: bool, s: Bytes) {
    if streaming then StreamOverflows(s) else |s| > MAX_NON_STREAM_RESPONSE_BYTES
  }

  lemma RestHasNoLine(s: Bytes)
    ensures Find(Lines(s).1, [LF], 0).None?
    decreases |s|
  {
    match Find(s, [LF], 0)
    case None =>
    case Some(end) => RestHasNoLine(s[end + 1..]);
  }

  /** Once too long, always too long. */
  lemma OverflowStays(streaming: bool, a: Bytes, b: Bytes)
    requires Overflows(streaming, a)
    ensures Overflows(streaming, a + b)
  {
    if streaming {
      LinesConcat(a, b);
      var rest := Lines(a).1;
      if i :| 0 <= i < |Lines(a).0| && |Lines(a).0[i]| > MAX_STREAM_EVENT_BYTES {
        assert Lines(a + b).0[i] == Lines(a).0[i];
      } else {
        RestHasNoLine(a);
        LinesStep(rest + b);
        var found := Find(rest + b, [LF], 0);
        if found.Some? {
          FindBeyond(rest, b);
          assert Lines(rest + b).0[0] == (rest + b)[..found.value];
          assert Lines(a + b).0[|Lines(a).0|] == Lines(rest + b).0[0];
        }
      }
    }
  }

  lemma FindBeyond(rest: Bytes, b: Bytes)
    requires Find(rest, [LF], 0).None? && Find(rest + b, [LF], 0).Some?
    ensures Find(rest + b, [LF], 0).value >= |rest|
  {
    var end := Find(rest + b, [LF], 0).value;
    if end < |rest| {
      assert (rest + b)[end..end + 1] == rest[end..end + 1];
      assert OccursAt(rest, [LF], end);
    }
  }

  /** The outcome of a whole response, parsed once. */
  function OfResponse(endpoint: Endpoint, decode: Decoder, streaming: bool, s: Bytes): Lifecycle {
    if Overflows(streaming, s) then UNKNOWN_LIFECYCLE
    else if streaming then
      var (lines, rest) := Lines(s);
      OfLines(endpoint, decode, if rest == [] then lines else lines + [rest])
    else if s == [] then UNKNOWN_LIFECYCLE
    else OfData(endpoint, decode, s)
  }
}

/** `_LifecycleResponseObserver`: the incremental form. */
module LifecycleObserverModel {
  import opened JsonValues
  import opened SseFraming
  import opened ResponseLifecycle
  import opened LifecycleMeaning

  class LifecycleObserver {
    const endpoint: Endpoint
    const decode: Decoder
    const streaming: bool
    var buffer: Bytes
    var lifecycle: Lifecycle
    var overflow: bool
    /** All the bytes fed so far. */
    ghost var fed: Bytes

    /** The observer's state is a function of the bytes fed, not of how they were chunked. */
    ghost predicate Valid()
      reads this
    {
      && overflow == Overflows(streaming, fed)
      && (!overflow && streaming ==> buffer == Lines(fed).1 && lifecycle == OfLines(endpoint, decode, Lines(fed).0))
      && (!overflow && !streaming ==> buffer == fed && lifecycle == UNKNOWN_LIFECYCLE)
    }

    constructor (endpoint: Endpoint, decode: Decoder, streaming: bool)
      ensures Valid() && fed == [] && this.endpoint == endpoint && this.decode == decode && this.streaming == streaming
    {
      this.endpoint, this.decode, this.streaming := endpoint, decode, streaming;
      buffer, lifecycle, overflow, fed := [], UNKNOWN_LIFECYCLE, false, [];
    }

    method ObserveJson(data: Bytes)
      modifies `lifecycle
      ensures lifecycle == Merge(old(lifecycle), OfData(endpoint, decode, data))
    {
      var payload := decode(data);
      if payload.None? { return; }
      var next := OfPayload(endpoint, payload.value);
      if next == CONTINUE {
        lifecycle := next;
      } else if next == TERMINAL && lifecycle != CONTINUE {
        lifecycle := next;
      }
    }

    method ObserveSseLine(raw: Bytes)
      modifies `lifecycle
      ensures lifecycle == Merge(old(lifecycle), OfLine(endpoint, decode, raw))
    {
      hide OfData;
      var line := TrimCr(raw);
      if !(DATA <= line) { return; }
      var data := RightStripped(LeftStripped(line[5..]));
      if data != [] && data != DONE_MARK { ObserveJson(data); }
    }

    method Feed(body: Bytes)
      requires Valid()
      modifies this
      ensures Valid() && fed == old(fed) + body
    {
      ghost var before := fed;
      fed := fed + body;
      if overflow {
        OverflowStays(streaming, before, body);
        return;
      }
      buffer := buffer + body;
      if streaming {
        FeedLines(before, body);
      } else if |buffer| > MAX_NON_STREAM_RESPONSE_BYTES {
        overflow := true;
        buffer := [];
      }
    }

    /** Consumes the complete lines of the buffer; an over-long line ends the observation. */
    method FeedLines(ghost before: Bytes, ghost body: Bytes)
      requires streaming && !overflow && !StreamOverflows(before) && fed == before + body
      requires buffer == Lines(before).1 + body && lifecycle == OfLines(endpoint, decode, Lines(before).0)
      modifies `buffer, `lifecycle, `overflow
      ensures Valid()
    {
      hide OfLines, OfLine, Merge, StreamOverflows, Find, Lines;
      ghost var done: seq<Bytes> := Lines(before).0;
      LinesConcat(before, body);
      AllShort(before);
      var lineEnd := Find(buffer, [LF], 0);
      while lineEnd.Some?
        invariant !overflow && streaming && lineEnd == Find(buffer, [LF], 0)
        invariant Lines(fed) == (done + Lines(buffer).0, Lines(buffer).1)
        invariant ShortLines(done)
        invariant lifecycle == OfLines(endpoint, decode, done)
        decreases |buffer|
      {
        LinesStep(buffer);
        var end := lineEnd.value;
        var raw := buffer[..end];
        if end > MAX_STREAM_EVENT_BYTES {
          LongLine(fed, done, raw, Lines(buffer[end + 1..]).0);
          overflow := true;
          buffer := [];
          return;
        }
        assert done + ([raw] + Lines(buffer[end + 1..]).0) == (done + [raw]) + Lines(buffer[end + 1..]).0;
        buffer := buffer[end + 1..];
        ObserveSseLine(raw);
        LinesSnoc(done, raw);
        done := done + [raw];
        lineEnd := Find(buffer, [LF], 0);
      }
      LinesStep(buffer);
      assert done + [] == done;
      OverflowIs(fed, done, buffer);
      if |buffer| > MAX_STREAM_EVENT_BYTES {
        overflow := true;
        buffer := [];
      }
    }

    ghost predicate ShortLines(lines: seq<Bytes>) {
      forall i | 0 <= i < |lines| :: |lines[i]| <= MAX_STREAM_EVENT_BYTES
    }

    lemma AllShort(s: Bytes)
      requires !StreamOverflows(s)
      ensures ShortLines(Lines(s).0)
    {
    }

    lemma LongLine(s: Bytes, done: seq<Bytes>, raw: Bytes, more: seq<Bytes>)
      requires Lines(s).0 == done + ([raw] + more) && |raw| > MAX_STREAM_EVENT_BYTES
      ensures StreamOverflows(s)
    {
      assert Lines(s).0[|done|] == raw;
    }

    lemma OverflowIs(s: Bytes, done: seq<Bytes>, rest: Bytes)
      requires Lines(s) == (done, rest) && ShortLines(done)
      ensures StreamOverflows(s) <==> |rest| > MAX_STREAM_EVENT_BYTES
    {
    }

    lemma LinesSnoc(done: seq<Bytes>, raw: Bytes)
      ensures OfLines(endpoint, decode, done + [raw])
        == Merge(OfLines(endpoint, decode, done), OfLine(endpoint, decode, raw))
      ensures ShortLines(done) && |raw| <= MAX_STREAM_EVENT_BYTES ==> ShortLines(done + [raw])
    {
      assert (done + [raw])[..|done|] == done;
    }

    /** Whatever the chunks were, the outcome is that of parsing the whole response once; too long a response says
        nothing. */
    method Finish() returns (r: Lifecycle)
      requires Valid()
      modifies `buffer, `lifecycle
      ensures r == OfResponse(endpoint, decode, streaming, fed)
    {
      hide OfLine, OfData;
      if overflow { return UNKNOWN_LIFECYCLE; }
      if streaming {
        if buffer != [] {
          LinesSnoc(Lines(fed).0, buffer);
          ObserveSseLine(buffer);
        }
      } else if buffer != [] {
        ObserveJson(buffer);
      }
      buffer := [];
      r := lifecycle;
    }
  }

  /** Feeds a response in the given chunks. */
  method ObserveChunks(endpoint: Endpoint, decode: Decoder, streaming: bool, chunks: seq<Bytes>) returns (r: Lifecycle)
    ensures r == OfResponse(endpoint, decode, streaming, Flat(chunks))
  {
    var observer := new LifecycleObserver(endpoint, decode, streaming);
    for n := 0 to |chunks|
      invariant fresh(observer) && observer.Valid() && observer.fed == Flat(chunks[..n])
      invariant observer.endpoint == endpoint && observer.decode == decode && observer.streaming == streaming
    {
      assert chunks[..n + 1][..n] == chunks[..n];
      observer.Feed(chunks[n]);
    }
    assert chunks[..|chunks|] == chunks;
    r := observer.Finish();
  }
}
