/** Repair of restored conversations: tool results that lost their call become plain
    user messages, and calls that lost their result get a synthetic one. */
module Repair {
  import opened Ids

  datatype ToolCall = ToolCall(id: string, name: string, arguments: string)

  datatype Role = Assistant | Tool | Other(name: string)

  datatype Message = Message(
    role: Role, content: Option<string>, reasoning: Option<string>,
    toolCalls: Option<seq<ToolCall>>, toolCallId: Option<string>)
  {
    predicate Assistant() { role.Assistant? }
    predicate Tool() { role.Tool? }

    /** The ids of the calls this message makes, in order. */
    function Calls(): seq<string> {
      if Assistant() && toolCalls.Some? then seq(|toolCalls.value|,
                                                 i requires 0 <= i < |toolCalls.value| => toolCalls.value[i].id) else []
    }
  }

  const INTERRUPTED := "[Tool execution interrupted by user]"

  function User(content: string): Message { Message(Role.Other("user"), Some(content), None, None, None) }

  function Synthetic(id: string): Message { Message(Role.Tool, Some(INTERRUPTED), None, None, Some(id)) }

  function Demoted(m: Message): Message {
    User("[Previous tool result, pairing lost on restore: " + (if m.content.Some? then m.content.value else "") + "]")
  }

  function ToSet(ids: seq<string>): set<string> { set x | x in ids }

  lemma ToSetHead(ids: seq<string>)
    requires ids != []
    ensures ToSet(ids) == {ids[0]} + ToSet(ids[1..])
  {
  }

  // ------------------------------------------------------------------ sanitize

  /** The messages up to the next assistant message. */
  function Window(ms: seq<Message>): (w: seq<Message>)
    ensures w <= ms
  {
    if ms == [] || ms[0].Assistant() then [] else [ms[0]] + Window(ms[1..])
  }

  predicate NoAssistant(w: seq<Message>) { forall i :: 0 <= i < |w| ==> !w[i].Assistant() }

  predicate AtBlock(ms: seq<Message>) { ms == [] || ms[0].Assistant() }

  lemma {:induction false} WindowEnds(ms: seq<Message>)
    ensures NoAssistant(Window(ms)) && AtBlock(ms[|Window(ms)|..])
  {
    if ms != [] && !ms[0].Assistant() {
      WindowEnds(ms[1..]);
      assert ms[|Window(ms)|..] == ms[1..][|Window(ms[1..])|..];
    }
  }

  predicate Answers(m: Message, id: string) { m.Tool() && m.toolCallId == Some(id) }

  /** The call ids some tool message answers. */
  function Answered(w: seq<Message>): set<string> {
    if w == [] then {} else AnsweredBy(w[0]) + Answered(w[1..])
  }

  function AnsweredBy(m: Message): set<string> { if m.Tool() && m.toolCallId.Some? then {m.toolCallId.value} else {} }

  lemma {:induction false} AnsweredMeans(w: seq<Message>, id: string)
    ensures id in Answered(w) <==> exists i :: 0 <= i < |w| && Answers(w[i], id)
  {
    if w != [] {
      AnsweredMeans(w[1..], id);
      if id in Answered(w[1..]) {
        var i :| 0 <= i < |w[1..]| && Answers(w[1..][i], id);
        assert Answers(w[i + 1], id);
      }
      if i :| 1 <= i < |w| && Answers(w[i], id) {
        assert Answers(w[1..][i - 1], id);
      }
    }
  }

  /** The calls without an answer, in order. */
  function Missing(calls: seq<string>, answered: set<string>): seq<string> {
    if calls == [] then [] else (if calls[0] in answered then [] else [calls[0]]) + Missing(calls[1..], answered)
  }

  lemma {:induction false} MissingSet(calls: seq<string>, answered: set<string>)
    ensures ToSet(Missing(calls, answered)) == ToSet(calls) - answered
    ensures Missing(calls, answered) == [] <==> ToSet(calls) <= answered
  {
    if calls != [] {
      MissingSet(calls[1..], answered);
      ToSetHead(calls);
      var rest := Missing(calls[1..], answered);
      if calls[0] !in answered {
        ToSetHead([calls[0]] + rest);
        assert ([calls[0]] + rest)[1..] == rest;
      } else {
        assert Missing(calls, answered) == rest;
      }
    }
  }

  function Backfill(missing: seq<string>): (r: seq<Message>)
    ensures |r| == |missing|
  {
    if missing == [] then [] else [Synthetic(missing[0])] + Backfill(missing[1..])
  }

  function Sanitized(ms: seq<Message>): seq<Message>
    decreases |ms|
  {
    if ms == [] then []
    else if ms[0].Calls() != [] then
      var w := Window(ms[1..]);
      [ms[0]] + (w + Backfill(Missing(ms[0].Calls(), Answered(w)))) + Sanitized(ms[1 + |w|..])
    else [ms[0]] + Sanitized(ms[1..])
  }

  lemma {:induction false} SanitizedHead(ms: seq<Message>)
    ensures |Sanitized(ms)| >= |ms| && (ms != [] ==> Sanitized(ms)[0] == ms[0])
    decreases |ms|
  {
    if ms != [] { SanitizedHead(if ms[0].Calls() != [] then ms[1 + |Window(ms[1..])|..] else ms[1..]); }
  }

  /** The calls of `m` that no tool message before the next assistant answers. */
  function Unanswered(m: Message, after: seq<Message>): seq<string> { Missing(m.Calls(), Answered(Window(after))) }

  predicate AllAnswered(ms: seq<Message>) { ms == [] || (Unanswered(ms[0], ms[1..]) == [] && AllAnswered(ms[1..])) }

  /** What that means for a single call: an answer follows before any assistant does. */
  lemma AnsweredInWindow(ms: seq<Message>, i: nat, id: string) returns (j: nat)
    requires AllAnswered(ms) && i < |ms| && id in ms[i].Calls()
    ensures var after := ms[i + 1..]; j < |after| && Answers(after[j], id) && NoAssistant(after[..j + 1])
  {
    AnsweredSuffix(ms, i);
    j := AnsweredNext(ms[i], ms[i + 1..], id);
  }

  lemma {:induction false} AnsweredSuffix(ms: seq<Message>, i: nat)
    requires AllAnswered(ms) && i < |ms|
    ensures Unanswered(ms[i], ms[i + 1..]) == []
  {
    if i > 0 {
      AnsweredSuffix(ms[1..], i - 1);
      assert ms[1..][i..] == ms[i + 1..];
    }
  }

  lemma AnsweredNext(m: Message, after: seq<Message>, id: string) returns (j: nat)
    requires Unanswered(m, after) == [] && id in m.Calls()
    ensures j < |after| && Answers(after[j], id) && NoAssistant(after[..j + 1])
  {
    var w := Window(after);
    WindowEnds(after);
    MissingSet(m.Calls(), Answered(w));
    assert id in ToSet(m.Calls());
    AnsweredMeans(w, id);
    j :| 0 <= j < |w| && Answers(w[j], id);
    assert after[..j + 1] == w[..j + 1];
  }

  lemma {:induction false} WindowAppend(w: seq<Message>, rest: seq<Message>)
    requires NoAssistant(w) && AtBlock(rest)
    ensures Window(w + rest) == w
  {
    if w != [] {
      assert (w + rest)[1..] == w[1..] + rest;
      WindowAppend(w[1..], rest);
    } else {
      assert w + rest == rest;
    }
  }

  lemma {:induction false} AnsweredAppend(a: seq<Message>, b: seq<Message>)
    ensures Answered(a + b) == Answered(a) + Answered(b)
  {
    if a == [] {
      assert a + b == b;
    } else {
      assert (a + b)[1..] == a[1..] + b;
      AnsweredAppend(a[1..], b);
    }
  }

  lemma {:induction false} BackfillAnswers(missing: seq<string>)
    ensures Answered(Backfill(missing)) == ToSet(missing) && NoAssistant(Backfill(missing))
  {
    if missing != [] {
      BackfillAnswers(missing[1..]);
      assert Backfill(missing)[1..] == Backfill(missing[1..]);
      assert ToSet(missing) == {missing[0]} + ToSet(missing[1..]);
    }
  }

  /** After the backfill a window answers every call. */
  lemma BackfilledWindow(calls: seq<string>, w: seq<Message>)
    requires NoAssistant(w)
    ensures var full := w + Backfill(Missing(calls, Answered(w)));
            NoAssistant(full) && Answered(full) == Answered(w) + ToSet(calls) && Missing(calls, Answered(full)) == []
  {
    var missing := Missing(calls, Answered(w));
    AnsweredAppend(w, Backfill(missing));
    BackfillAnswers(missing);
    MissingSet(calls, Answered(w));
    MissingSet(calls, Answered(w + Backfill(missing)));
  }

  /** One block of a history whose calls are all answered. */
  lemma SanitizedBlock(a: Message, full: seq<Message>, rest: seq<Message>)
    requires a.Calls() != [] && NoAssistant(full) && AtBlock(rest)
    requires Missing(a.Calls(), Answered(full)) == []
    ensures Sanitized([a] + full + rest) == [a] + full + Sanitized(rest)
  {
    var ms := [a] + full + rest;
    Headed(a, full, rest);
    WindowAppend(full, rest);
    SanitizedFirst(ms, full, rest);
    assert full + Backfill([]) == full;
  }

  /** A history taken apart at its first block. */
  lemma FirstBlock(ms: seq<Message>, w: seq<Message>, rest: seq<Message>)
    requires ms != [] && w == Window(ms[1..]) && rest == ms[1 + |w|..]
    ensures NoAssistant(w) && AtBlock(rest) && ms == [ms[0]] + w + rest
    ensures AtBlock(Sanitized(rest)) && |Sanitized(rest)| >= |rest|
  {
    WindowEnds(ms[1..]);
    HeadWindowRest(ms, |w|);
    SanitizedHead(rest);
  }

  /** What follows the first message: its window, and the rest. */
  lemma TailSplit(ms: seq<Message>, w: seq<Message>, rest: seq<Message>)
    requires ms != [] && w == Window(ms[1..]) && rest == ms[1 + |w|..]
    ensures NoAssistant(w) && AtBlock(rest) && ms[1..] == w + rest
  {
    WindowEnds(ms[1..]);
    var tail := ms[1..];
    assert tail == tail[..|w|] + tail[|w|..] && tail[|w|..] == rest;
  }

  lemma SanitizedFirst(ms: seq<Message>, w: seq<Message>, rest: seq<Message>)
    requires ms != [] && ms[0].Calls() != [] && w == Window(ms[1..]) && rest == ms[1 + |w|..]
    ensures Sanitized(ms) == [ms[0]] + (w + Backfill(Missing(ms[0].Calls(), Answered(w)))) + Sanitized(rest)
  {
  }

  /** Sanitizing twice is sanitizing once. */
  lemma {:induction false} SanitizedTwice(ms: seq<Message>)
    ensures Sanitized(Sanitized(ms)) == Sanitized(ms)
    decreases |ms|
  {
    if ms == [] {
    } else if ms[0].Calls() != [] {
      var w := Window(ms[1..]);
      var rest := ms[1 + |w|..];
      FirstBlock(ms, w, rest);
      SanitizedFirst(ms, w, rest);
      SanitizedTwice(rest);
      BackfilledWindow(ms[0].Calls(), w);
      SanitizedBlock(ms[0], w + Backfill(Missing(ms[0].Calls(), Answered(w))), Sanitized(rest));
    } else {
      SanitizedTwice(ms[1..]);
      assert Sanitized(ms)[1..] == Sanitized(ms[1..]);
    }
  }

  /** The pass changes nothing exactly on histories whose calls are all answered
      before the next assistant message. */
  lemma {:induction false} SanitizedIdentityIff(ms: seq<Message>)
    ensures Sanitized(ms) == ms <==> AllAnswered(ms)
    decreases |ms|
  {
    if ms == [] {
    } else if ms[0].Calls() != [] {
      var w := Window(ms[1..]);
      var rest := ms[1 + |w|..];
      FirstBlock(ms, w, rest);
      SanitizedFirst(ms, w, rest);
      SanitizedIdentityIff(rest);
      SkipWindow(w, rest);
      Headed(ms[0], w, rest);
      IdentityBlock(ms[0], w, Backfill(Unanswered(ms[0], ms[1..])), rest, Sanitized(rest));
    } else {
      SanitizedIdentityIff(ms[1..]);
      assert ms == [ms[0]] + ms[1..] && Sanitized(ms)[1..] == Sanitized(ms[1..]);
    }
  }

  lemma IdentityBlock(a: Message, w: seq<Message>, b: seq<Message>, rest: seq<Message>, r: seq<Message>)
    requires |r| >= |rest|
    ensures [a] + (w + b) + r == [a] + w + rest <==> b == [] && r == rest
  {
    var x, y := [a] + (w + b) + r, [a] + w + rest;
    if x == y { assert r == x[1 + |w|..] && rest == y[1 + |w|..]; }
  }

  /** Messages other than assistants need no answers. */
  lemma {:induction false} SkipWindow(w: seq<Message>, rest: seq<Message>)
    requires NoAssistant(w)
    ensures AllAnswered(w + rest) <==> AllAnswered(rest)
  {
    if w == [] {
      assert w + rest == rest;
    } else {
      assert (w + rest)[1..] == w[1..] + rest && (w + rest)[0] == w[0];
      SkipWindow(w[1..], rest);
    }
  }

  /** `r` is `ms` with synthetic results inserted, and nothing else. */
  ghost predicate Inserted(ms: seq<Message>, r: seq<Message>)
    decreases |r|
  {
    if r == [] then ms == []
    else
      || (ms != [] && r[0] == ms[0] && Inserted(ms[1..], r[1..]))
      || (r[0] == Synthetic(Id(r[0])) && Inserted(ms, r[1..]))
  }

  function Id(m: Message): string { if m.toolCallId.Some? then m.toolCallId.value else "" }

  lemma {:induction false} InsertedPrefix(w: seq<Message>, ms: seq<Message>, r: seq<Message>)
    requires Inserted(ms, r)
    ensures Inserted(w + ms, w + r)
  {
    if w == [] {
      assert w + ms == ms && w + r == r;
    } else {
      InsertedPrefix(w[1..], ms, r);
      assert (w + ms)[1..] == w[1..] + ms && (w + r)[1..] == w[1..] + r;
    }
  }

  lemma {:induction false} InsertedBackfill(missing: seq<string>, ms: seq<Message>, r: seq<Message>)
    requires Inserted(ms, r)
    ensures Inserted(ms, Backfill(missing) + r)
  {
    if missing == [] {
      assert Backfill(missing) + r == r;
    } else {
      InsertedBackfill(missing[1..], ms, r);
      assert (Backfill(missing) + r)[1..] == Backfill(missing[1..]) + r;
    }
  }

  lemma InsertedBlock(a: Message, w: seq<Message>, missing: seq<string>, rest: seq<Message>, r: seq<Message>)
    requires Inserted(rest, r)
    ensures Inserted([a] + w + rest, [a] + (w + Backfill(missing)) + r)
  {
    InsertedBackfill(missing, rest, r);
    InsertedPrefix([a] + w, rest, Backfill(missing) + r);
    assert [a] + (w + Backfill(missing)) + r == [a] + w + (Backfill(missing) + r);
  }

  /** The input survives as a subsequence and only synthetic results are added. */
  lemma {:induction false} SanitizedInserts(ms: seq<Message>)
    ensures Inserted(ms, Sanitized(ms))
    decreases |ms|
  {
    if ms == [] {
    } else if ms[0].Calls() != [] {
      var w := Window(ms[1..]);
      var rest := ms[1 + |w|..];
      var b := Missing(ms[0].Calls(), Answered(w));
      SanitizedInserts(rest);
      FirstBlock(ms, w, rest);
      SanitizedFirst(ms, w, rest);
      InsertedBlock(ms[0], w, b, rest, Sanitized(rest));
    } else {
      SanitizedInserts(ms[1..]);
      InsertedPrefix([ms[0]], ms[1..], Sanitized(ms[1..]));
    }
  }

  /** `sanitize_tool_call_pairing`: every call is answered before the next assistant
      message, and the input is kept with only synthetic results added. */
  method SanitizeToolCallPairing(messages: seq<Message>) returns (result: seq<Message>)
    ensures result == Sanitized(messages) && AllAnswered(result) && Inserted(messages, result)
  {
    result := [];
    var i := 0;
    assert messages[0..] == messages;
    while i < |messages|
      invariant 0 <= i <= |messages| && result + Sanitized(messages[i..]) == Sanitized(messages)
    {
      ghost var before := result;
      var part, next := SanitizeNext(messages, i);
      result := result + part;
      assert result + Sanitized(messages[next..]) == before + (part + Sanitized(messages[next..]));
      i := next;
    }
    assert Sanitized([]) == [];
    SanitizedTwice(messages);
    SanitizedIdentityIff(Sanitized(messages));
    SanitizedInserts(messages);
  }

  /** One turn of the loop: a calling assistant with its window, or a single message. */
  method SanitizeNext(messages: seq<Message>, i: nat) returns (part: seq<Message>, next: nat)
    requires i < |messages|
    ensures i < next <= |messages| && Sanitized(messages[i..]) == part + Sanitized(messages[next..])
  {
    if messages[i].Calls() != [] {
      var answered, j := AnsweredUntilAssistant(messages, i + 1);
      var backfill := BackfillCalls(messages[i].Calls(), answered);
      SanitizedFirst(messages[i..], messages[i + 1..j], messages[j..]);
      return [messages[i]] + (messages[i + 1..j] + backfill), j;
    } else {
      assert messages[i..][1..] == messages[i + 1..];
      return [messages[i]], i + 1;
    }
  }

  /** Scans one window: where it ends and which calls it answers. */
  method AnsweredUntilAssistant(messages: seq<Message>, start: nat) returns (answered: set<string>, j: nat)
    requires 1 <= start <= |messages|
    ensures start <= j <= |messages| && messages[start..j] == Window(messages[start..])
    ensures answered == Answered(messages[start..j])
    ensures messages[start - 1..][1..] == messages[start..]
    ensures messages[start - 1..][1 + |messages[start..j]|..] == messages[j..]
  {
    answered, j := {}, start;
    while j < |messages| && !messages[j].Assistant()
      invariant start <= j <= |messages| && answered == Answered(messages[start..j])
      invariant NoAssistant(messages[start..j])
    {
      ScanNext(messages, start, j);
      if messages[j].Tool() && messages[j].toolCallId.Some? { answered := answered + {messages[j].toolCallId.value}; }
      j := j + 1;
    }
    ScanEnd(messages, start, j);
  }

  lemma ScanNext(ms: seq<Message>, start: nat, j: nat)
    requires start <= j < |ms| && NoAssistant(ms[start..j]) && !ms[j].Assistant()
    ensures NoAssistant(ms[start..j + 1])
    ensures Answered(ms[start..j + 1]) == Answered(ms[start..j]) + Answered([ms[j]])
  {
    assert ms[start..j + 1] == ms[start..j] + [ms[j]];
    AnsweredAppend(ms[start..j], [ms[j]]);
  }

  lemma ScanEnd(ms: seq<Message>, start: nat, j: nat)
    requires 1 <= start <= j <= |ms| && NoAssistant(ms[start..j]) && AtBlock(ms[j..])
    ensures ms[start..j] == Window(ms[start..]) && ms[start - 1..][1..] == ms[start..]
    ensures ms[start - 1..][1 + |ms[start..j]|..] == ms[j..]
  {
    WindowAppend(ms[start..j], ms[j..]);
    assert ms[start..] == ms[start..j] + ms[j..];
  }

  method BackfillCalls(calls: seq<string>, answered: set<string>) returns (r: seq<Message>)
    ensures r == Backfill(Missing(calls, answered))
  {
    r := [];
    assert calls[0..] == calls;
    for k := 0 to |calls|
      invariant r + Backfill(Missing(calls[k..], answered)) == Backfill(Missing(calls, answered))
    {
      ghost var rest := Missing(calls[k + 1..], answered);
      assert calls[k..][1..] == calls[k + 1..];
      if calls[k] !in answered {
        assert Missing(calls[k..], answered) == [calls[k]] + rest;
        assert ([calls[k]] + rest)[1..] == rest;
        assert Backfill([calls[k]] + rest) == [Synthetic(calls[k])] + Backfill(rest);
        r := r + [Synthetic(calls[k])];
      } else {
        assert Missing(calls[k..], answered) == rest;
      }
    }
  }
}
