/** The stream processor: a byte buffer and the fields its lines accumulate into. */
module StreamProcessors {
  import opened Ids
  import opened Stream

  class StreamProcessor {
    const decoder: Decoder
    var buffer: seq<byte>
    var fullContent: string
    var reasoningContent: string
    var toolCallsAccum: seq<Call>
    var hasToolCalls: bool
    var finishReason: string
    var lastUsage: Option<Usage>

    function View(): State
      reads this
    {
      State(fullContent, reasoningContent, toolCallsAccum, hasToolCalls, finishReason, lastUsage)
    }

    function Whole(): Processor
      reads this
    {
      Processor(buffer, View())
    }

    constructor (decoder: Decoder)
      ensures this.decoder == decoder && Whole() == Processor([], Fresh)
    {
      this.decoder := decoder;
      buffer, fullContent, reasoningContent, toolCallsAccum := [], "", "", [];
      hasToolCalls, finishReason, lastUsage := false, "", None;
    }

    /** `feed_bytes`: afterwards the buffer holds no newline. */
    method FeedBytes(bytes: seq<byte>) returns (events: seq<Event>)
      modifies this
      ensures (Whole(), events) == Feed(decoder, old(Whole()), bytes)
      ensures NEWLINE !in buffer
    {
      buffer := buffer + bytes;
      events := DrainBuffer();
    }

    /** `drain_buffer`: takes complete lines off the front of the buffer. */
    method DrainBuffer() returns (events: seq<Event>)
      modifies this
      ensures buffer == Rest(old(buffer))
      ensures (View(), events) == ProcessAll(old(View()), DecodeAll(decoder, Lines(old(buffer))))
    {
      events := [];
      while NEWLINE in buffer
        invariant Rest(buffer) == Rest(old(buffer))
        invariant Leads(View(), events, old(View()), DecodeAll(decoder, Lines(buffer)),
                        DecodeAll(decoder, Lines(old(buffer))))
        decreases |buffer|
      {
        ghost var before, b := View(), buffer;
        var position := FindNewline();
        var line := buffer[..position];
        buffer := buffer[position + 1..];
        var event := ProcessLine(line);
        DrainOne(decoder, before, b, events, line, buffer);
        events := events + Emit(event);
      }
      LeadsDone(View(), events, old(View()), DecodeAll(decoder, Lines(old(buffer))));
    }

    method FindNewline() returns (k: nat)
      requires NEWLINE in buffer
      ensures k < |buffer| && buffer == buffer[..k] + [NEWLINE] + buffer[k + 1..] && NEWLINE !in buffer[..k]
    {
      k := 0;
      while buffer[k] != NEWLINE
        invariant k < |buffer| && NEWLINE !in buffer[..k]
        decreases |buffer| - k
      {
        assert buffer[..k + 1] == buffer[..k] + [buffer[k]];
        k := k + 1;
        assert buffer[..|buffer|] == buffer;
      }
    }

    /** `process_line`. */
    method ProcessLine(line: Line) returns (event: Option<Event>)
      modifies this
      ensures buffer == old(buffer) && (View(), event) == Process(old(View()), decoder.Decode(line))
    {
      var decoded := decoder.Decode(line);
      if decoded.Failure? { return Some(StreamError(decoded.message)); }
      if decoded.Nothing? { return None; }
      if decoded.usage.Some? { lastUsage := decoded.usage; }
      if decoded.choice.None? { return None; }
      var choice := decoded.choice.value;
      AbsorbChoice(choice);
      if choice.finishReason.Some? { return Some(StreamDone(choice.finishReason.value)); }
      if choice.delta.content.Some? { return Some(ContentDelta(choice.delta.content.value)); }
      if choice.delta.reasoning.Some? { return Some(ReasoningDelta(choice.delta.reasoning.value)); }
      if choice.delta.toolCalls.Some? && choice.delta.toolCalls.value != [] {
        return Some(ToolCallDelta(choice.delta.toolCalls.value[0]));
      }
      return None;
    }

    /** Deltas are accumulated before the finish reason is looked at. */
    method AbsorbChoice(choice: Choice)
      modifies this
      ensures buffer == old(buffer) && View() == Absorb(old(View()), choice)
    {
      fullContent := fullContent + OrEmpty(choice.delta.content);
      reasoningContent := reasoningContent + OrEmpty(choice.delta.reasoning);
      if choice.delta.toolCalls.Some? {
        hasToolCalls := true;
        AccumulateCalls(choice.delta.toolCalls.value);
      }
      if choice.finishReason.Some? { finishReason := choice.finishReason.value; }
    }

    method AccumulateCalls(fragments: seq<Fragment>)
      modifies this`toolCallsAccum
      ensures toolCallsAccum == AddAll(old(toolCallsAccum), fragments)
    {
      assert fragments[0..] == fragments;
      for i := 0 to |fragments|
        invariant AddAll(toolCallsAccum, fragments[i..]) == AddAll(old(toolCallsAccum), fragments)
      {
        assert fragments[i..][1..] == fragments[i + 1..];
        AccumulateCall(fragments[i]);
      }
    }

    method AccumulateCall(f: Fragment)
      modifies this`toolCallsAccum
      ensures toolCallsAccum == AddFragment(old(toolCallsAccum), f)
    {
      ghost var before := toolCallsAccum;
      while |toolCallsAccum| <= f.index
        invariant |before| <= |toolCallsAccum|
        invariant |toolCallsAccum| <= f.index + 1 || toolCallsAccum == before
        invariant forall j :: 0 <= j < |toolCallsAccum| ==>
                    toolCallsAccum[j] == if j < |before| then before[j] else Blank
      {
        toolCallsAccum := toolCallsAccum + [Blank];
      }
      assert toolCallsAccum == Pad(before, f.index);
      toolCallsAccum := toolCallsAccum[f.index := Extend(toolCallsAccum[f.index], f)];
    }

    /** `flush`: whatever is buffered, the effect is that of feeding one newline. */
    method Flush() returns (events: seq<Event>)
      modifies this
      ensures (Whole(), events) == Feed(decoder, old(Whole()), [NEWLINE])
    {
      ghost var was := buffer;
      events := [];
      var remaining := buffer;
      buffer := [];
      NextByte(was, NEWLINE);
      if remaining != [] {
        var lines := SplitOnNewline(remaining);
        events := ProcessNonBlank(lines);
      } else {
        EmptyLine(decoder, View());
      }
    }

    method SplitOnNewline(bytes: seq<byte>) returns (lines: seq<Line>)
      ensures lines == Lines(bytes) + [Rest(bytes)]
    {
      lines := [];
      var current: Line := [];
      assert bytes[..|bytes|] == bytes;
      for i := 0 to |bytes|
        invariant lines == Lines(bytes[..i]) && current == Rest(bytes[..i])
      {
        assert bytes[..i + 1] == bytes[..i] + [bytes[i]];
        NextByte(bytes[..i], bytes[i]);
        if bytes[i] == NEWLINE {
          lines, current := lines + [current], [];
        } else {
          current := current + [bytes[i]];
        }
      }
      lines := lines + [current];
    }

    method ProcessNonBlank(lines: seq<Line>) returns (events: seq<Event>)
      modifies this
      ensures buffer == old(buffer) && (View(), events) == ProcessAll(old(View()), DecodeAll(decoder, lines))
    {
      events := [];
      assert lines[0..] == lines;
      for i := 0 to |lines|
        invariant buffer == old(buffer)
        invariant Leads(View(), events, old(View()), DecodeAll(decoder, lines[i..]), DecodeAll(decoder, lines))
      {
        ghost var before := View();
        var event := None;
        if !decoder.Blank(lines[i]) { event := ProcessLine(lines[i]); }
        assert lines[i..][1..] == lines[i + 1..];
        NextLine(decoder, before, lines[i..], events);
        events := events + Emit(event);
      }
      assert DecodeAll(decoder, lines[|lines|..]) == [];
      LeadsDone(View(), events, old(View()), DecodeAll(decoder, lines));
    }

    /** `finish`. */
    method FinishStream() returns (r: StreamResult)
      ensures r == Finish(View())
    {
      var calls := ParseToolCalls();
      r := StreamResult(fullContent, reasoningContent, calls, hasToolCalls, finishReason, lastUsage);
    }

    method ParseToolCalls() returns (calls: seq<ToolCall>)
      ensures calls == if hasToolCalls then Identified(toolCallsAccum) else []
    {
      calls := [];
      if !hasToolCalls { return; }
      assert toolCallsAccum[0..] == toolCallsAccum;
      for i := 0 to |toolCallsAccum|
        invariant calls + Identified(toolCallsAccum[i..]) == Identified(toolCallsAccum)
      {
        IdentifiedNext(calls, toolCallsAccum, i);
        var c := toolCallsAccum[i];
        calls := calls + if c.id.Some? then [ToolCall(c.id.value, c.name, c.arguments)] else [];
      }
    }
  }

  /** In `now`, with `events` reported, what is `left` still to be processed leads where
      processing `all` from `start` leads. */
  predicate Leads(now: State, events: seq<Event>, start: State, left: seq<Decoded>, all: seq<Decoded>) {
    ProcessAll(now, left).0 == ProcessAll(start, all).0 && events + ProcessAll(now, left).1 == ProcessAll(start, all).1
  }

  lemma LeadsDone(now: State, events: seq<Event>, start: State, all: seq<Decoded>)
    requires Leads(now, events, start, [], all)
    ensures ProcessAll(start, all) == (now, events)
  {
    assert events + [] == events;
  }

  lemma EmptyLine(decoder: Decoder, s: State)
    ensures Lines([]) + [Rest([])] == [[]] && ProcessAll(s, DecodeAll(decoder, [[]])) == (s, [])
  {
    var lines: seq<Line> := [[]];
    assert lines[1..] == [] && DecodeAll(decoder, lines[1..]) == [];
    var ds := DecodeAll(decoder, lines);
    assert ds == [Nothing] && ds[1..] == [];
    assert ProcessAll(s, ds[1..]) == (s, []) && Process(s, ds[0]) == (s, None);
    assert ProcessAll(s, ds).1 == Emit(None) + [];
  }

  /** One more line of `lines` processed. */
  lemma NextLine(decoder: Decoder, before: State, lines: seq<Line>, events: seq<Event>)
    requires lines != []
    ensures var (t, e) := Process(before, decoder.Decode(lines[0]));
            var (s, es) := ProcessAll(t, DecodeAll(decoder, lines[1..]));
            var (u, fs) := ProcessAll(before, DecodeAll(decoder, lines));
            s == u && events + Emit(e) + es == events + fs
  {
    assert DecodeAll(decoder, lines)[1..] == DecodeAll(decoder, lines[1..]);
    var (t, e) := Process(before, decoder.Decode(lines[0]));
    Regroup(events, Emit(e), ProcessAll(t, DecodeAll(decoder, lines[1..])).1);
  }

  lemma DrainOne(decoder: Decoder, before: State, b: seq<byte>, events: seq<Event>, line: Line, after: seq<byte>)
    requires NEWLINE !in line && b == line + [NEWLINE] + after
    ensures var (t, e) := Process(before, decoder.Decode(line));
            var (s, es) := ProcessAll(t, DecodeAll(decoder, Lines(after)));
            var (u, fs) := ProcessAll(before, DecodeAll(decoder, Lines(b)));
            s == u && events + Emit(e) + es == events + fs
    ensures Rest(b) == Rest(after)
  {
    FirstLine(line, after);
    assert ([line] + Lines(after))[1..] == Lines(after);
    NextLine(decoder, before, [line] + Lines(after), events);
  }

  lemma EndLine(line: Line)
    requires NEWLINE !in line
    ensures Lines(line + [NEWLINE]) == [line] && Rest(line + [NEWLINE]) == []
  {
    FirstLine(line, []);
    assert line + [NEWLINE] + [] == line + [NEWLINE] && Lines([]) == [];
  }

  /** One more byte either ends the rest as a line or extends it. */
  lemma NextByte(b: seq<byte>, c: byte)
    ensures c == NEWLINE ==> Lines(b + [c]) == Lines(b) + [Rest(b)] && Rest(b + [c]) == []
    ensures c != NEWLINE ==> Lines(b + [c]) == Lines(b) && Rest(b + [c]) == Rest(b) + [c]
  {
    FramingConcat(b, [c]);
    if c == NEWLINE { EndLine(Rest(b)); } else { assert NEWLINE !in Rest(b) + [c]; }
  }
}
