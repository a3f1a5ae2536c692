/** Server-sent event streams: framing bytes into lines and accumulating what the lines
    carry. What a line decodes to is a parameter. */
module Stream {
  import opened Ids

  type byte = x: int | 0 <= x < 256
  type Line = seq<byte>
  const NEWLINE: byte := 10

  datatype Usage = Usage(promptTokens: nat, completionTokens: nat, totalTokens: nat)

  datatype Fragment = Fragment(index: nat, id: Option<string>, name: Option<string>, arguments: Option<string>)

  datatype Delta = Delta(content: Option<string>, reasoning: Option<string>, toolCalls: Option<seq<Fragment>>)

  datatype Choice = Choice(delta: Delta, finishReason: Option<string>)

  /** What one line means: nothing, an error payload, or a chunk with its first choice. */
  datatype Decoded = Nothing | Failure(message: string) | Chunk(usage: Option<Usage>, choice: Option<Choice>)

  /** `blank`: the line is empty once trimmed. */
  datatype Decoder = Decoder(blank: Line -> bool, parse: Line -> Decoded)
  {
    predicate Blank(line: Line) { line == [] || blank(line) }

    /** A blank line is neither an error payload nor a chunk. */
    function Decode(line: Line): Decoded { if Blank(line) then Nothing else parse(line) }
  }

  datatype Event =
    | ContentDelta(content: string)
    | ReasoningDelta(reasoning: string)
    | ToolCallDelta(fragment: Fragment)
    | StreamDone(finishReason: string)
    | StreamError(message: string)

  datatype Call = Call(id: Option<string>, name: string, arguments: string)

  datatype State = State(
    content: string, reasoning: string, calls: seq<Call>, hasCalls: bool, finishReason: string, usage: Option<Usage>)

  const Fresh := State("", "", [], false, "", None)

  // -------------------------------------------------------------------- framing

  function Position(b: seq<byte>): (k: nat)
    requires NEWLINE in b
    ensures k < |b| && b[k] == NEWLINE && NEWLINE !in b[..k]
  {
    if b[0] == NEWLINE then 0 else
      var k := Position(b[1..]) + 1;
      assert b[..k] == [b[0]] + b[1..][..k - 1];
      k
  }

  /** The complete lines, without their newlines. */
  function Lines(b: seq<byte>): seq<Line>
    decreases |b|
  {
    if NEWLINE !in b then [] else [b[..Position(b)]] + Lines(b[Position(b) + 1..])
  }

  /** What follows the last newline. */
  function Rest(b: seq<byte>): (r: seq<byte>)
    ensures NEWLINE !in r
    decreases |b|
  {
    if NEWLINE !in b then b else Rest(b[Position(b) + 1..])
  }

  function Unlines(lines: seq<Line>): seq<byte>
  {
    if lines == [] then [] else lines[0] + [NEWLINE] + Unlines(lines[1..])
  }

  lemma SplitFirst(b: seq<byte>) returns (line: Line, after: seq<byte>)
    requires NEWLINE in b
    ensures b == line + [NEWLINE] + after && NEWLINE !in line
    ensures Lines(b) == [line] + Lines(after) && Rest(b) == Rest(after)
  {
    var k := Position(b);
    line, after := b[..k], b[k + 1..];
  }

  /** Framing loses no byte, and no line contains a newline. */
  lemma {:induction false} FramingLossless(b: seq<byte>)
    ensures Unlines(Lines(b)) + Rest(b) == b
    ensures forall i :: 0 <= i < |Lines(b)| ==> NEWLINE !in Lines(b)[i]
    decreases |b|
  {
    if NEWLINE in b {
      var line, after := SplitFirst(b);
      FramingLossless(after);
      UnlinesFirst(line, Lines(after), Rest(after));
    }
  }

  lemma UnlinesFirst(line: Line, lines: seq<Line>, rest: seq<byte>)
    ensures Unlines([line] + lines) + rest == line + [NEWLINE] + (Unlines(lines) + rest)
  {
    assert ([line] + lines)[1..] == lines;
  }

  lemma {:induction false} FirstLine(line: Line, after: seq<byte>)
    requires NEWLINE !in line
    ensures var b := line + [NEWLINE] + after; Lines(b) == [line] + Lines(after) && Rest(b) == Rest(after)
  {
    var b := line + [NEWLINE] + after;
    assert b[|line|] == NEWLINE;
    var k := Position(b);
    assert k == |line|;
    assert b[..k] == line && b[k + 1..] == after;
  }

  lemma FirstLineThen(line: Line, after: seq<byte>, y: seq<byte>, more: seq<Line>, rest: seq<byte>)
    requires NEWLINE !in line && Lines(after + y) == Lines(after) + more && Rest(after + y) == rest
    ensures var x := line + [NEWLINE] + after; Lines(x + y) == Lines(x) + more && Rest(x + y) == rest
  {
    FirstLine(line, after);
    FirstLine(line, after + y);
    Regroup(line + [NEWLINE], after, y);
    Regroup([line], Lines(after), more);
  }

  /** What has been framed stays framed: only the rest meets the next bytes. */
  lemma {:induction false} FramingConcat(x: seq<byte>, y: seq<byte>)
    ensures Lines(x + y) == Lines(x) + Lines(Rest(x) + y) && Rest(x + y) == Rest(Rest(x) + y)
    decreases |x|
  {
    if NEWLINE in x {
      var line, after := SplitFirst(x);
      FramingConcat(after, y);
      FirstLineThen(line, after, y, Lines(Rest(after) + y), Rest(Rest(after) + y));
    }
  }

  // --------------------------------------------------------------- accumulation

  const Blank := Call(None, "", "")

  function Pad(calls: seq<Call>, n: nat): (r: seq<Call>)
    ensures |r| == if |calls| > n then |calls| else n + 1
    ensures forall i :: 0 <= i < |r| ==> r[i] == if i < |calls| then calls[i] else Blank
  {
    if |calls| > n then calls else calls + seq(n + 1 - |calls|, _ => Blank)
  }

  function Extend(call: Call, f: Fragment): Call {
    Call(if f.id.Some? then f.id else call.id,
         if f.name.Some? then f.name.value else call.name,
         call.arguments + if f.arguments.Some? then f.arguments.value else "")
  }

  function AddFragment(calls: seq<Call>, f: Fragment): seq<Call> {
    var padded := Pad(calls, f.index);
    padded[f.index := Extend(padded[f.index], f)]
  }

  function AddAll(calls: seq<Call>, fs: seq<Fragment>): seq<Call>
    decreases |fs|
  {
    if fs == [] then calls else AddAll(AddFragment(calls, fs[0]), fs[1..])
  }

  function OrEmpty(s: Option<string>): string { if s.Some? then s.value else "" }

  function FragmentsOf(d: Delta): seq<Fragment> { if d.toolCalls.Some? then d.toolCalls.value else [] }

  function Absorb(s: State, c: Choice): State {
    State(s.content + OrEmpty(c.delta.content), s.reasoning + OrEmpty(c.delta.reasoning),
          AddAll(s.calls, FragmentsOf(c.delta)), s.hasCalls || c.delta.toolCalls.Some?,
          if c.finishReason.Some? then c.finishReason.value else s.finishReason, s.usage)
  }

  /** The event reported for a choice: its end, or else its most significant delta. */
  function EventOf(c: Choice): Option<Event> {
    if c.finishReason.Some? then Some(StreamDone(c.finishReason.value))
    else if c.delta.content.Some? then Some(ContentDelta(c.delta.content.value))
    else if c.delta.reasoning.Some? then Some(ReasoningDelta(c.delta.reasoning.value))
    else if FragmentsOf(c.delta) != [] then Some(ToolCallDelta(FragmentsOf(c.delta)[0]))
    else None
  }

  function Process(s: State, d: Decoded): (State, Option<Event>) {
    match d
    case Nothing => (s, None)
    case Failure(message) => (s, Some(StreamError(message)))
    case Chunk(usage, choice) =>
      var t := if usage.Some? then s.(usage := usage) else s;
      if choice.None? then (t, None) else (Absorb(t, choice.value), EventOf(choice.value))
  }

  function Emit(e: Option<Event>): seq<Event> { if e.Some? then [e.value] else [] }

  function ProcessAll(s: State, ds: seq<Decoded>): (State, seq<Event>)
    decreases |ds|
  {
    if ds == [] then (s, [])
    else
      var (t, e) := Process(s, ds[0]);
      var (u, es) := ProcessAll(t, ds[1..]);
      (u, Emit(e) + es)
  }

  function DecodeAll(decoder: Decoder, lines: seq<Line>): seq<Decoded> {
    if lines == [] then [] else [decoder.Decode(lines[0])] + DecodeAll(decoder, lines[1..])
  }

  lemma {:induction false} DecodeConcat(decoder: Decoder, a: seq<Line>, b: seq<Line>)
    ensures DecodeAll(decoder, a + b) == DecodeAll(decoder, a) + DecodeAll(decoder, b)
  {
    if a == [] {
      assert a + b == b;
    } else {
      assert (a + b)[1..] == a[1..] + b && (a + b)[0] == a[0];
      DecodeConcat(decoder, a[1..], b);
    }
  }

  lemma {:induction false} ProcessConcat(s: State, a: seq<Decoded>, b: seq<Decoded>)
    ensures var (t, es) := ProcessAll(s, a);
            var (u, fs) := ProcessAll(t, b);
            ProcessAll(s, a + b) == (u, es + fs)
    decreases |a|
  {
    if a == [] {
      assert a + b == b && [] + ProcessAll(s, b).1 == ProcessAll(s, b).1;
    } else {
      assert (a + b)[1..] == a[1..] + b && (a + b)[0] == a[0];
      var (t, e) := Process(s, a[0]);
      ProcessConcat(t, a[1..], b);
      var (u, es) := ProcessAll(t, a[1..]);
      var fs := ProcessAll(u, b).1;
      assert Emit(e) + es + fs == Emit(e) + (es + fs);
    }
  }

  // ------------------------------------------------------------------- chunking

  datatype Processor = Processor(buffer: seq<byte>, state: State)

  function Feed(decoder: Decoder, p: Processor, bytes: seq<byte>): (Processor, seq<Event>) {
    var b := p.buffer + bytes;
    var (s, es) := ProcessAll(p.state, DecodeAll(decoder, Lines(b)));
    (Processor(Rest(b), s), es)
  }

  function FeedAll(decoder: Decoder, p: Processor, chunks: seq<seq<byte>>): (Processor, seq<Event>)
    decreases |chunks|
  {
    if chunks == [] then (p, [])
    else
      var (q, es) := Feed(decoder, p, chunks[0]);
      var (r, fs) := FeedAll(decoder, q, chunks[1..]);
      (r, es + fs)
  }

  function Flatten(chunks: seq<seq<byte>>): seq<byte> { if chunks == [] then [] else chunks[0] + Flatten(chunks[1..]) }

  lemma FeedTwice(decoder: Decoder, p: Processor, a: seq<byte>, b: seq<byte>)
    ensures var (q, es) := Feed(decoder, p, a);
            var (r, fs) := Feed(decoder, q, b);
            Feed(decoder, p, a + b) == (r, es + fs)
  {
    var x := p.buffer + a;
    assert p.buffer + (a + b) == x + b;
    FramingConcat(x, b);
    DecodeConcat(decoder, Lines(x), Lines(Rest(x) + b));
    ProcessConcat(p.state, DecodeAll(decoder, Lines(x)), DecodeAll(decoder, Lines(Rest(x) + b)));
  }

  /** However a stream is cut into chunks, events, state and buffer are those of feeding
      it whole. */
  lemma {:induction false} ChunkingInvariance(decoder: Decoder, p: Processor, chunks: seq<seq<byte>>)
    requires NEWLINE !in p.buffer
    ensures FeedAll(decoder, p, chunks) == Feed(decoder, p, Flatten(chunks))
    decreases |chunks|
  {
    if chunks == [] {
      assert p.buffer + [] == p.buffer;
    } else {
      var (q, es) := Feed(decoder, p, chunks[0]);
      ChunkingInvariance(decoder, q, chunks[1..]);
      FeedTwice(decoder, p, chunks[0], Flatten(chunks[1..]));
    }
  }

  // ------------------------------------------------------- lossless accumulation

  function Choices(ds: seq<Decoded>): seq<Choice> {
    if ds == [] then []
      else (if ds[0].Chunk? && ds[0].choice.Some? then [ds[0].choice.value] else []) + Choices(ds[1..])
  }

  function ContentOf(cs: seq<Choice>): string
  {
    if cs == [] then "" else OrEmpty(cs[0].delta.content) + ContentOf(cs[1..])
  }

  function ReasoningOf(cs: seq<Choice>): string
  {
    if cs == [] then "" else OrEmpty(cs[0].delta.reasoning) + ReasoningOf(cs[1..])
  }

  function Fragments(cs: seq<Choice>): seq<Fragment>
  {
    if cs == [] then [] else FragmentsOf(cs[0].delta) + Fragments(cs[1..])
  }

  predicate AnyCalls(cs: seq<Choice>) { exists i :: 0 <= i < |cs| && cs[i].delta.toolCalls.Some? }

  function LastFinish(cs: seq<Choice>, finish: string): string
    decreases |cs|
  {
    if cs == [] then finish
      else LastFinish(cs[1..], if cs[0].finishReason.Some? then cs[0].finishReason.value else finish)
  }

  function LastUsage(ds: seq<Decoded>, usage: Option<Usage>): Option<Usage>
    decreases |ds|
  {
    if ds == [] then usage else LastUsage(ds[1..], if ds[0].Chunk? && ds[0].usage.Some? then ds[0].usage else usage)
  }

  /** The state a stream leads to, field by field. */
  function Accumulated(s: State, ds: seq<Decoded>): State {
    var cs := Choices(ds);
    State(s.content + ContentOf(cs), s.reasoning + ReasoningOf(cs), AddAll(s.calls, Fragments(cs)),
          s.hasCalls || AnyCalls(cs), LastFinish(cs, s.finishReason), LastUsage(ds, s.usage))
  }

  lemma {:induction false} AddAllConcat(calls: seq<Call>, a: seq<Fragment>, b: seq<Fragment>)
    ensures AddAll(calls, a + b) == AddAll(AddAll(calls, a), b)
    decreases |a|
  {
    if a == [] {
      assert a + b == b;
    } else {
      assert (a + b)[1..] == a[1..] + b && (a + b)[0] == a[0];
      AddAllConcat(AddFragment(calls, a[0]), a[1..], b);
    }
  }

  lemma AbsorbFirst(s: State, c: Choice, cs: seq<Choice>)
    ensures var t := Absorb(s, c);
            var all := [c] + cs;
            && s.content + ContentOf(all) == t.content + ContentOf(cs)
            && s.reasoning + ReasoningOf(all) == t.reasoning + ReasoningOf(cs)
            && AddAll(s.calls, Fragments(all)) == AddAll(t.calls, Fragments(cs))
            && (s.hasCalls || AnyCalls(all) <==> t.hasCalls || AnyCalls(cs))
            && LastFinish(all, s.finishReason) == LastFinish(cs, t.finishReason)
  {
    var all := [c] + cs;
    assert all[0] == c && all[1..] == cs;
    AddAllConcat(s.calls, FragmentsOf(c.delta), Fragments(cs));
    if i :| 0 <= i < |cs| && cs[i].delta.toolCalls.Some? { assert all[i + 1].delta.toolCalls.Some?; }
    if AnyCalls(all) && !c.delta.toolCalls.Some? {
      var i :| 0 <= i < |all| && all[i].delta.toolCalls.Some?;
      assert cs[i - 1].delta.toolCalls.Some?;
    }
    Regroup(s.content, OrEmpty(c.delta.content), ContentOf(cs));
    Regroup(s.reasoning, OrEmpty(c.delta.reasoning), ReasoningOf(cs));
  }

  /** Nothing is lost or reordered: content and reasoning are the concatenation of all
      deltas, chunks that also carry a finish reason included, and the calls are built
      from all fragments in order. */
  lemma {:induction false} AccumulationLossless(s: State, ds: seq<Decoded>)
    ensures ProcessAll(s, ds).0 == Accumulated(s, ds)
    decreases |ds|
  {
    if ds == [] {
      assert s.content + "" == s.content && s.reasoning + "" == s.reasoning;
    } else {
      var d := ds[0];
      AccumulationLossless(Process(s, d).0, ds[1..]);
      if d.Chunk? && d.choice.Some? {
        var t := if d.usage.Some? then s.(usage := d.usage) else s;
        AbsorbFirst(t, d.choice.value, Choices(ds[1..]));
      } else {
        assert Choices(ds) == Choices(ds[1..]);
      }
    }
  }

  /** The text a frontend renders from content events. */
  function Rendered(es: seq<Event>): string {
    if es == [] then "" else (if es[0].ContentDelta? then es[0].content else "") + Rendered(es[1..])
  }

  function Unfinished(cs: seq<Choice>): seq<Choice> {
    if cs == [] then [] else (if cs[0].finishReason.None? then [cs[0]] else []) + Unfinished(cs[1..])
  }

  /** The events render exactly the content of the chunks without a finish reason: what
      a finishing chunk carries is accumulated but reported by no content event. */
  lemma {:induction false} RenderedContent(s: State, ds: seq<Decoded>)
    ensures Rendered(ProcessAll(s, ds).1) == ContentOf(Unfinished(Choices(ds)))
    decreases |ds|
  {
    if ds != [] {
      var (t, e) := Process(s, ds[0]);
      var es := ProcessAll(t, ds[1..]).1;
      RenderedContent(t, ds[1..]);
      RenderedFirst(e, es);
      if ds[0].Chunk? && ds[0].choice.Some? {
        UnfinishedFirst(ds[0].choice.value, Choices(ds[1..]));
      } else {
        assert Choices(ds) == Choices(ds[1..]);
      }
    }
  }

  lemma RenderedFirst(e: Option<Event>, es: seq<Event>)
    ensures Rendered(Emit(e) + es) == (if e.Some? && e.value.ContentDelta? then e.value.content else "") + Rendered(es)
  {
    if e.Some? { assert (Emit(e) + es)[1..] == es; } else { assert Emit(e) + es == es; }
  }

  lemma UnfinishedFirst(c: Choice, cs: seq<Choice>)
    ensures ContentOf(Unfinished([c] + cs)) ==
              (if c.finishReason.None? then OrEmpty(c.delta.content) else "") + ContentOf(Unfinished(cs))
  {
    assert ([c] + cs)[1..] == cs;
    if c.finishReason.None? {
      assert ([c] + Unfinished(cs))[1..] == Unfinished(cs);
    } else {
      assert Unfinished([c] + cs) == Unfinished(cs) && "" + ContentOf(Unfinished(cs)) == ContentOf(Unfinished(cs));
    }
  }

  // ------------------------------------------------------ interleaving of calls

  /** The fragments of one call, in order. */
  function Projection(fs: seq<Fragment>, i: nat): seq<Fragment> {
    if fs == [] then [] else (if fs[0].index == i then [fs[0]] else []) + Projection(fs[1..], i)
  }

  function Folded(call: Call, fs: seq<Fragment>): Call
    decreases |fs|
  {
    if fs == [] then call else Folded(Extend(call, fs[0]), fs[1..])
  }

  function At(calls: seq<Call>, i: nat): Call { if i < |calls| then calls[i] else Blank }

  function Bound(fs: seq<Fragment>): nat {
    if fs == [] then 0 else var n := Bound(fs[1..]); if fs[0].index < n then n else fs[0].index + 1
  }

  lemma {:induction false} Width(calls: seq<Call>, fs: seq<Fragment>)
    ensures |AddAll(calls, fs)| == if Bound(fs) < |calls| then |calls| else Bound(fs)
    decreases |fs|
  {
    if fs != [] { Width(AddFragment(calls, fs[0]), fs[1..]); }
  }

  /** Each call is built from the fragments of its own index alone. */
  lemma {:induction false} PerIndex(calls: seq<Call>, fs: seq<Fragment>, i: nat)
    ensures At(AddAll(calls, fs), i) == Folded(At(calls, i), Projection(fs, i))
    decreases |fs|
  {
    if fs != [] {
      var next := AddFragment(calls, fs[0]);
      PerIndex(next, fs[1..], i);
      if fs[0].index == i {
        assert At(next, i) == Extend(At(calls, i), fs[0]);
        assert Projection(fs, i)[1..] == Projection(fs[1..], i);
      } else {
        assert At(next, i) == At(calls, i);
        assert Projection(fs, i) == Projection(fs[1..], i);
      }
    }
  }

  function ArgumentsOf(fs: seq<Fragment>): string
  {
    if fs == [] then "" else OrEmpty(fs[0].arguments) + ArgumentsOf(fs[1..])
  }

  /** The arguments of a call are the concatenation of its fragments' arguments. */
  lemma {:induction false} ArgumentsInOrder(fs: seq<Fragment>, i: nat)
    ensures At(AddAll([], fs), i).arguments == ArgumentsOf(Projection(fs, i))
  {
    PerIndex([], fs, i);
    FoldedArguments(Blank, Projection(fs, i));
    assert "" + ArgumentsOf(Projection(fs, i)) == ArgumentsOf(Projection(fs, i));
  }

  lemma {:induction false} FoldedArguments(call: Call, fs: seq<Fragment>)
    ensures Folded(call, fs).arguments == call.arguments + ArgumentsOf(fs)
    decreases |fs|
  {
    if fs == [] {
      assert call.arguments + "" == call.arguments;
    } else {
      FoldedArguments(Extend(call, fs[0]), fs[1..]);
      Regroup(call.arguments, OrEmpty(fs[0].arguments), ArgumentsOf(fs[1..]));
    }
  }

  lemma {:induction false} BoundIsTight(fs: seq<Fragment>, i: nat)
    ensures Projection(fs, i) != [] ==> i < Bound(fs)
    ensures Bound(fs) > 0 ==> Projection(fs, Bound(fs) - 1) != []
    decreases |fs|
  {
    if fs != [] {
      BoundIsTight(fs[1..], i);
    }
  }

  lemma SameBound(fs: seq<Fragment>, gs: seq<Fragment>)
    requires Bound(fs) > 0 ==> Projection(fs, Bound(fs) - 1) == Projection(gs, Bound(fs) - 1)
    ensures Bound(fs) <= Bound(gs)
  {
    if Bound(fs) > 0 {
      BoundIsTight(fs, 0);
      BoundIsTight(gs, Bound(fs) - 1);
    }
  }

  /** How the fragments of different calls interleave does not matter. */
  lemma InterleavingIndependent(fs: seq<Fragment>, gs: seq<Fragment>)
    requires forall i: nat :: Projection(fs, i) == Projection(gs, i)
    ensures AddAll([], fs) == AddAll([], gs)
  {
    SameBound(fs, gs);
    SameBound(gs, fs);
    Width([], fs);
    Width([], gs);
    forall i | 0 <= i < Bound(fs) ensures AddAll([], fs)[i] == AddAll([], gs)[i] {
      PerIndex([], fs, i);
      PerIndex([], gs, i);
    }
  }

  // ---------------------------------------------------------------------- result

  datatype ToolCall = ToolCall(id: string, name: string, arguments: string)

  datatype StreamResult = StreamResult(
    content: string, reasoning: string, toolCalls: seq<ToolCall>, hasToolCalls: bool, finishReason: string,
      usage: Option<Usage>)

  /** Only calls that were given an id are reported, in index order. */
  function Identified(calls: seq<Call>): seq<ToolCall> {
    if calls == [] then [] else Reported(calls[0]) + Identified(calls[1..])
  }

  function Reported(c: Call): seq<ToolCall> { if c.id.Some? then [ToolCall(c.id.value, c.name, c.arguments)] else [] }

  lemma IdentifiedNext(done: seq<ToolCall>, calls: seq<Call>, i: nat)
    requires i < |calls|
    ensures done + Identified(calls[i..]) == done + Reported(calls[i]) + Identified(calls[i + 1..])
  {
    assert calls[i..][1..] == calls[i + 1..];
    Regroup(done, Reported(calls[i]), Identified(calls[i + 1..]));
  }

  function Finish(s: State): StreamResult {
    var calls := if s.hasCalls then Identified(s.calls) else [];
    StreamResult(s.content, s.reasoning, calls, s.hasCalls, s.finishReason, s.usage)
  }

  /** Two streams whose texts and per-call fragments agree give the same result. */
  lemma SameProjectionsSameResult(ds: seq<Decoded>, es: seq<Decoded>)
    requires var a, b := Choices(ds), Choices(es);
             && ContentOf(a) == ContentOf(b) && ReasoningOf(a) == ReasoningOf(b)
             && (forall i: nat :: Projection(Fragments(a), i) == Projection(Fragments(b), i))
             && AnyCalls(a) == AnyCalls(b) && LastFinish(a, "") == LastFinish(b, "")
    requires LastUsage(ds, None) == LastUsage(es, None)
    ensures Finish(ProcessAll(Fresh, ds).0) == Finish(ProcessAll(Fresh, es).0)
  {
    AccumulationLossless(Fresh, ds);
    AccumulationLossless(Fresh, es);
    InterleavingIndependent(Fragments(Choices(ds)), Fragments(Choices(es)));
  }

  /** A whole stream in any chunks, then a final newline: the state is what its lines,
      the last unterminated one included, accumulate to, and the buffer is empty. */
  lemma WholeStream(decoder: Decoder, chunks: seq<seq<byte>>)
    ensures var p := FeedAll(decoder, Processor([], Fresh), chunks).0;
            var q := Feed(decoder, p, [NEWLINE]).0;
            q == Processor([], Accumulated(Fresh, DecodeAll(decoder, Lines(Flatten(chunks) + [NEWLINE]))))
  {
    var start := Processor([], Fresh);
    ChunkingInvariance(decoder, start, chunks);
    FeedTwice(decoder, start, Flatten(chunks), [NEWLINE]);
    var b := Flatten(chunks) + [NEWLINE];
    assert [] + b == b;
    AccumulationLossless(Fresh, DecodeAll(decoder, Lines(b)));
    FramingConcat(Flatten(chunks), [NEWLINE]);
    FirstLine(Rest(Flatten(chunks)), []);
    assert Rest(Flatten(chunks)) + [NEWLINE] + [] == Rest(Flatten(chunks)) + [NEWLINE];
  }
}
