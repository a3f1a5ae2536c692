/** The second repair pass, and both passes one after the other as each turn runs them. */
module Demotion {
  import opened Ids
  import opened Repair

  // -------------------------------------------------------------------- demote

  /** The calls still waiting for a result after `m`. */
  function Pending(m: Message, p: set<string>): set<string> {
    if m.Assistant() then p + ToSet(m.Calls())
    else if m.Tool() && m.toolCallId.Some? then p - {m.toolCallId.value}
    else p
  }

  predicate Paired(m: Message, p: set<string>) { m.Tool() ==> m.toolCallId.Some? && m.toolCallId.value in p }

  function Kept(m: Message, p: set<string>): Message { if Paired(m, p) then m else Demoted(m) }

  function DemotedAll(ms: seq<Message>, p: set<string>): (r: seq<Message>)
    ensures |r| == |ms|
  {
    if ms == [] then [] else [Kept(ms[0], p)] + DemotedAll(ms[1..], Pending(ms[0], p))
  }

  function After(ms: seq<Message>, p: set<string>): set<string> {
    if ms == [] then p else After(ms[1..], Pending(ms[0], p))
  }

  /** `id` was called before position `i` and has had no result since. */
  ghost predicate PendingAt(ms: seq<Message>, i: nat, id: string)
    requires i <= |ms|
  {
    exists a :: OpenSince(ms, a, i, id)
  }

  ghost predicate OpenSince(ms: seq<Message>, a: int, i: nat, id: string)
    requires i <= |ms|
  {
    0 <= a < i && id in ms[a].Calls() && forall b :: a < b < i ==> !Answers(ms[b], id)
  }

  lemma PendingStep(ms: seq<Message>, i: nat, id: string)
    requires i < |ms|
    ensures PendingAt(ms, i + 1, id) <==> id in ms[i].Calls() || (PendingAt(ms, i, id) && !Answers(ms[i], id))
  {
    var n := i + 1;
    if a :| OpenSince(ms, a, n, id) {
      if a < i { assert OpenSince(ms, a, i, id); }
    }
    if id in ms[i].Calls() { assert OpenSince(ms, i, n, id); }
    if a :| OpenSince(ms, a, i, id) {
      if !Answers(ms[i], id) { assert OpenSince(ms, a, n, id); }
    }
  }

  lemma {:induction false} AfterConcat(a: seq<Message>, b: seq<Message>, p: set<string>)
    ensures After(a + b, p) == After(b, After(a, p))
  {
    if a == [] {
      assert a + b == b;
    } else {
      assert (a + b)[1..] == a[1..] + b && (a + b)[0] == a[0];
      AfterConcat(a[1..], b, Pending(a[0], p));
    }
  }

  lemma {:induction false} AfterMeans(ms: seq<Message>, i: nat, id: string)
    requires i <= |ms|
    ensures id in After(ms[..i], {}) <==> PendingAt(ms, i, id)
  {
    if i > 0 {
      AfterMeans(ms, i - 1, id);
      PendingStep(ms, i - 1, id);
      assert ms[..i] == ms[..i - 1] + [ms[i - 1]];
      AfterConcat(ms[..i - 1], [ms[i - 1]], {});
    }
  }

  lemma {:induction false} DemotedAt(ms: seq<Message>, p: set<string>, i: nat)
    requires i < |ms|
    ensures DemotedAll(ms, p)[i] == Kept(ms[i], After(ms[..i], p))
  {
    if i > 0 {
      DemotedAt(ms[1..], Pending(ms[0], p), i - 1);
      assert ms[1..][..i - 1] == ms[..i][1..];
    }
  }

  /** A tool message is kept exactly when it consumes a call made earlier that has had
      no result since; every other message is kept as it is. */
  lemma DemoteKeepsIff(ms: seq<Message>, i: nat)
    requires i < |ms|
    ensures var r := DemotedAll(ms, {})[i];
            && (!ms[i].Tool() ==> r == ms[i])
            && (ms[i].Tool() ==>
                  var paired := ms[i].toolCallId.Some? && PendingAt(ms, i, ms[i].toolCallId.value);
                  (r == ms[i] <==> paired) && (!paired ==> r == Demoted(ms[i])))
  {
    DemotedAt(ms, {}, i);
    if ms[i].toolCallId.Some? { AfterMeans(ms, i, ms[i].toolCallId.value); }
  }

  lemma {:induction false} DemotedTwice(ms: seq<Message>, p: set<string>)
    ensures DemotedAll(DemotedAll(ms, p), p) == DemotedAll(ms, p)
  {
    if ms != [] {
      var rest := DemotedAll(ms[1..], Pending(ms[0], p));
      assert DemotedAll(ms, p)[1..] == rest;
      assert Pending(Kept(ms[0], p), p) == Pending(ms[0], p);
      DemotedTwice(ms[1..], Pending(ms[0], p));
    }
  }

  /** `demote_orphan_tool_results`. */
  method DemoteOrphanToolResults(messages: seq<Message>) returns (result: seq<Message>)
    ensures result == DemotedAll(messages, {})
  {
    result := [];
    var pending: set<string> := {};
    assert messages[0..] == messages;
    for i := 0 to |messages|
      invariant result + DemotedAll(messages[i..], pending) == DemotedAll(messages, {})
    {
      assert messages[i..][1..] == messages[i + 1..];
      var m;
      m, pending := DemoteOne(messages[i], pending);
      result := result + [m];
    }
    assert DemotedAll([], pending) == [];
  }

  method DemoteOne(m: Message, pending: set<string>) returns (r: Message, next: set<string>)
    ensures r == Kept(m, pending) && next == Pending(m, pending)
  {
    r, next := m, pending;
    if m.Assistant() {
      next := pending + ToSet(m.Calls());
    } else if m.Tool() {
      if m.toolCallId.Some? && m.toolCallId.value in pending {
        next := pending - {m.toolCallId.value};
      } else {
        r := Demoted(m);
      }
    }
  }

  // --------------------------------------------------------------- fixed points

  /** Every tool message is paired: the pass has nothing to do. */
  predicate Fixed(ms: seq<Message>, p: set<string>) {
    ms == [] || (Paired(ms[0], p) && Fixed(ms[1..], Pending(ms[0], p)))
  }

  lemma {:induction false} FixedIff(ms: seq<Message>, p: set<string>)
    ensures DemotedAll(ms, p) == ms <==> Fixed(ms, p)
  {
    if ms != [] {
      FixedIff(ms[1..], Pending(ms[0], p));
      assert DemotedAll(ms, p)[1..] == DemotedAll(ms[1..], Pending(ms[0], p));
      assert ms == [ms[0]] + ms[1..];
    }
  }

  lemma {:induction false} FixedConcat(a: seq<Message>, b: seq<Message>, p: set<string>)
    ensures Fixed(a + b, p) <==> Fixed(a, p) && Fixed(b, After(a, p))
  {
    if a == [] {
      assert a + b == b;
    } else {
      assert (a + b)[1..] == a[1..] + b && (a + b)[0] == a[0];
      FixedConcat(a[1..], b, Pending(a[0], p));
    }
  }

  /** Every tool message has an id and no two have the same one. */
  predicate OneAnswerEach(w: seq<Message>) {
    w == [] || ((w[0].Tool() ==> w[0].toolCallId.Some? && w[0].toolCallId.value !in Answered(w[1..]))
                && OneAnswerEach(w[1..]))
  }

  lemma {:induction false} FixedWindow(w: seq<Message>, p: set<string>)
    requires NoAssistant(w)
    ensures After(w, p) == p - Answered(w)
    ensures Fixed(w, p) <==> OneAnswerEach(w) && Answered(w) <= p
  {
    if w != [] {
      FixedWindow(w[1..], Pending(w[0], p));
    }
  }

  lemma NoDuplicatesHead(s: seq<string>)
    requires s != []
    ensures NoDuplicates(s) <==> s[0] !in s[1..] && NoDuplicates(s[1..])
  {
    if s[0] !in s[1..] && NoDuplicates(s[1..]) {
      forall i, j | 0 <= i < j < |s| ensures s[i] != s[j] {
        assert s[1..][j - 1] == s[j];
        if i > 0 { assert s[1..][i - 1] == s[i]; }
      }
    }
    if s[0] in s[1..] {
      var j :| 0 <= j < |s[1..]| && s[1..][j] == s[0];
      assert s[j + 1] == s[0];
    }
  }

  lemma {:induction false} OneAnswerBackfill(missing: seq<string>)
    ensures OneAnswerEach(Backfill(missing)) <==> NoDuplicates(missing)
  {
    if missing != [] {
      NoDuplicatesHead(missing);
      OneAnswerBackfill(missing[1..]);
      BackfillAnswers(missing[1..]);
      assert Backfill(missing)[1..] == Backfill(missing[1..]);
    }
  }

  lemma {:induction false} OneAnswerAppend(w: seq<Message>, missing: seq<string>)
    requires Answered(w) !! ToSet(missing)
    ensures OneAnswerEach(w + Backfill(missing)) <==> OneAnswerEach(w) && NoDuplicates(missing)
  {
    if w == [] {
      assert w + Backfill(missing) == Backfill(missing);
      OneAnswerBackfill(missing);
    } else {
      assert (w + Backfill(missing))[1..] == w[1..] + Backfill(missing);
      OneAnswerAppend(w[1..], missing);
      AnsweredAppend(w[1..], Backfill(missing));
      BackfillAnswers(missing);
    }
  }

  /** Results only follow the assistant message that made their calls, at most one per
      call, and no call made twice in one message is left without a result. */
  ghost predicate Tidy(ms: seq<Message>)
    decreases |ms|
  {
    if ms == [] then true
    else if ms[0].Calls() != [] then
      var w := Window(ms[1..]);
      TidyWindow(ms[0].Calls(), w) && Tidy(ms[1 + |w|..])
    else !ms[0].Tool() && Tidy(ms[1..])
  }

  ghost predicate TidyWindow(calls: seq<string>, w: seq<Message>) {
    OneAnswerEach(w) && Answered(w) <= ToSet(calls) && NoDuplicates(Missing(calls, Answered(w)))
  }

  /** A calling assistant with its backfilled window leaves no call pending. */
  lemma BlockFixed(a: Message, w: seq<Message>, rest: seq<Message>)
    requires a.Assistant() && NoAssistant(w)
    ensures var full := w + Backfill(Missing(a.Calls(), Answered(w)));
            Fixed([a] + full + rest, {}) <==> TidyWindow(a.Calls(), w) && Fixed(rest, {})
  {
    var missing := Missing(a.Calls(), Answered(w));
    var full := w + Backfill(missing);
    var ids := ToSet(a.Calls());
    BackfilledWindow(a.Calls(), w);
    MissingSet(a.Calls(), Answered(w));
    OneAnswerAppend(w, missing);
    FixedWindow(full, ids);
    assert ids - Answered(full) == {} && Pending(a, {}) == ids;
    FixedConcat(full, rest, ids);
    Headed(a, full, rest);
  }

  /** A sanitized history has no orphans exactly when the history was tidy. */
  lemma {:induction false} SanitizedFixedIff(ms: seq<Message>)
    ensures Fixed(Sanitized(ms), {}) <==> Tidy(ms)
    decreases |ms|
  {
    if ms == [] {
    } else if ms[0].Calls() != [] {
      var w := Window(ms[1..]);
      var rest := ms[1 + |w|..];
      SanitizedFixedIff(rest);
      FirstBlock(ms, w, rest);
      SanitizedFirst(ms, w, rest);
      BlockFixed(ms[0], w, Sanitized(rest));
    } else {
      SanitizedFixedIff(ms[1..]);
      assert Sanitized(ms)[1..] == Sanitized(ms[1..]);
      assert Paired(ms[0], {}) ==> Pending(ms[0], {}) == {};
    }
  }

  // --------------------------------------------------------------- composition

  /** Every tool message answers a call of the nearest assistant message before it. */
  predicate Local(ms: seq<Message>, open: set<string>) {
    ms == [] || (Paired(ms[0], open) && Local(ms[1..], if ms[0].Assistant() then ToSet(ms[0].Calls()) else open))
  }

  /** No message leaves two calls with the same id unanswered. */
  ghost predicate DistinctMissing(ms: seq<Message>) {
    ms == [] || (NoDuplicates(Unanswered(ms[0], ms[1..])) && DistinctMissing(ms[1..]))
  }

  lemma {:induction false} LocalWindow(w: seq<Message>, rest: seq<Message>, open: set<string>)
    requires NoAssistant(w) && OneAnswerEach(w) && AtBlock(rest)
    ensures Local(w + rest, open) <==> Answered(w) <= open && Local(rest, {})
  {
    if w == [] {
      assert w + rest == rest;
    } else {
      assert (w + rest)[1..] == w[1..] + rest && (w + rest)[0] == w[0];
      LocalWindow(w[1..], rest, open);
    }
  }

  lemma {:induction false} SkipDistinct(w: seq<Message>, rest: seq<Message>)
    requires NoAssistant(w)
    ensures DistinctMissing(w + rest) <==> DistinctMissing(rest)
  {
    if w == [] {
      assert w + rest == rest;
    } else {
      assert (w + rest)[1..] == w[1..] + rest && (w + rest)[0] == w[0];
      SkipDistinct(w[1..], rest);
    }
  }

  lemma TidyBlock(a: Message, tail: seq<Message>, w: seq<Message>, rest: seq<Message>)
    requires NoAssistant(w) && AtBlock(rest) && tail == w + rest && w == Window(tail) && OneAnswerEach(w)
    requires a.Calls() != []
    ensures Local(tail, ToSet(a.Calls())) && NoDuplicates(Unanswered(a, tail)) && DistinctMissing(tail) <==>
              TidyWindow(a.Calls(), w) && Local(rest, {}) && DistinctMissing(rest)
  {
    LocalWindow(w, rest, ToSet(a.Calls()));
    SkipDistinct(w, rest);
  }

  lemma FixedBlock(tail: seq<Message>, w: seq<Message>, rest: seq<Message>, q: set<string>)
    requires NoAssistant(w) && tail == w + rest && Fixed(tail, q)
    ensures OneAnswerEach(w) && Fixed(rest, After(w, q))
  {
    FixedConcat(w, rest, q);
    FixedWindow(w, q);
  }

  /** Without orphans, tidiness is a matter of where the results are. */
  lemma {:induction false} TidyIff(ms: seq<Message>, p: set<string>)
    requires Fixed(ms, p)
    ensures Tidy(ms) <==> Local(ms, {}) && DistinctMissing(ms)
    decreases |ms|
  {
    if ms == [] {
    } else if ms[0].Calls() != [] {
      var w := Window(ms[1..]);
      var rest := ms[1 + |w|..];
      var q := Pending(ms[0], p);
      TailSplit(ms, w, rest);
      FixedBlock(ms[1..], w, rest, q);
      TidyIff(rest, After(w, q));
      TidyBlock(ms[0], ms[1..], w, rest);
    } else {
      TidyIff(ms[1..], Pending(ms[0], p));
      assert ToSet(ms[0].Calls()) == {} && Unanswered(ms[0], ms[1..]) == [];
    }
  }

  /** The repaired history is a fixed point of sanitizing, always, and of demoting too
      exactly when, once orphans are demoted, every result answers a call of the nearest
      assistant message and no message leaves equal call ids unanswered. */
  lemma RepairFixedPointIff(ms: seq<Message>)
    ensures var d := DemotedAll(ms, {});
            var r := Sanitized(d);
            Sanitized(r) == r && (DemotedAll(r, {}) == r <==> Local(d, {}) && DistinctMissing(d))
  {
    var d := DemotedAll(ms, {});
    SanitizedTwice(d);
    FixedIff(Sanitized(d), {});
    SanitizedFixedIff(d);
    DemotedTwice(ms, {});
    FixedIff(d, {});
    TidyIff(d, {});
  }

  /** A result that arrives after another assistant message: demoting leaves it alone,
      sanitizing answers its call, and the next request demotes it. */
  lemma LateResult(a: Message, b: Message, t: Message, id: string)
    requires a.Assistant() && a.Calls() == [id] && b.Assistant() && b.Calls() == [] && Answers(t, id)
    ensures var ms := [a, b, t]; DemotedAll(ms, {}) == ms && DemotedAll(Sanitized(ms), {}) != Sanitized(ms)
  {
    var ms := [a, b, t];
    assert ms[1..] == [b, t] && [b, t][1..] == [t] && [t][1..] == [];
    assert ToSet(a.Calls()) == {id} && ToSet(b.Calls()) == {};
    assert Pending(a, {}) == {id} && Pending(b, {id}) == {id};
    assert Fixed([t], {id}) && Fixed([b, t], {id}) && Fixed(ms, {});
    FixedIff(ms, {});
    assert !Local([t], {}) && !Local([b, t], {id});
    RepairFixedPointIff(ms);
  }

  /** Every tool message carries the id of a call made earlier. */
  predicate Issued(ms: seq<Message>, known: set<string>) {
    ms == [] || (Paired(ms[0], known) && Issued(ms[1..], known + ToSet(ms[0].Calls())))
  }

  lemma {:induction false} IssuedMeans(ms: seq<Message>, known: set<string>, j: nat)
    requires Issued(ms, known) && j < |ms| && ms[j].Tool()
    ensures ms[j].toolCallId.Some?
    ensures ms[j].toolCallId.value in known || exists a :: 0 <= a < j && ms[j].toolCallId.value in ms[a].Calls()
  {
    if j > 0 {
      IssuedMeans(ms[1..], known + ToSet(ms[0].Calls()), j - 1);
      var id := ms[j].toolCallId.value;
      if a :| 0 <= a < j - 1 && id in ms[1..][a].Calls() { assert id in ms[a + 1].Calls(); }
    }
  }

  /** The id of message `j` is that of a call in some message before it. */
  ghost predicate CalledEarlier(ms: seq<Message>, j: nat)
    requires j < |ms|
  {
    ms[j].toolCallId.Some? && exists a :: 0 <= a < j && ms[j].toolCallId.value in ms[a].Calls()
  }

  lemma {:induction false} FixedIssued(ms: seq<Message>, p: set<string>, known: set<string>)
    requires Fixed(ms, p) && p <= known
    ensures Issued(ms, known)
  {
    if ms != [] { FixedIssued(ms[1..], Pending(ms[0], p), known + ToSet(ms[0].Calls())); }
  }

  lemma {:induction false} IssuedWindow(w: seq<Message>, rest: seq<Message>, known: set<string>)
    requires NoAssistant(w)
    ensures Issued(w + rest, known) <==> Issued(w, known) && Issued(rest, known)
  {
    if w == [] {
      assert w + rest == rest;
    } else {
      assert (w + rest)[1..] == w[1..] + rest && (w + rest)[0] == w[0];
      assert known + ToSet(w[0].Calls()) == known;
      IssuedWindow(w[1..], rest, known);
    }
  }

  lemma {:induction false} IssuedBackfill(missing: seq<string>, known: set<string>)
    requires ToSet(missing) <= known
    ensures Issued(Backfill(missing), known)
  {
    if missing != [] {
      ToSetHead(missing);
      IssuedBackfill(missing[1..], known);
      assert Backfill(missing)[1..] == Backfill(missing[1..]);
      assert known + ToSet(Backfill(missing)[0].Calls()) == known;
    }
  }

  lemma {:induction false} SanitizedIssued(ms: seq<Message>, known: set<string>)
    requires Issued(ms, known)
    ensures Issued(Sanitized(ms), known)
    decreases |ms|
  {
    if ms == [] {
    } else if ms[0].Calls() != [] {
      var w := Window(ms[1..]);
      var rest := ms[1 + |w|..];
      var more := known + ToSet(ms[0].Calls());
      TailSplit(ms, w, rest);
      IssuedWindow(w, rest, more);
      SanitizedIssued(rest, more);
      SanitizedFirst(ms, w, rest);
      IssuedBlock(ms[0], w, Missing(ms[0].Calls(), Answered(w)), Sanitized(rest), known);
    } else {
      SanitizedIssued(ms[1..], known + ToSet(ms[0].Calls()));
      assert Sanitized(ms)[1..] == Sanitized(ms[1..]);
    }
  }

  lemma IssuedAssistant(a: Message, after: seq<Message>, known: set<string>)
    requires a.Assistant() && Issued(after, known + ToSet(a.Calls()))
    ensures Issued([a] + after, known)
  {
    assert ([a] + after)[1..] == after;
  }

  lemma IssuedFull(calls: seq<string>, w: seq<Message>, missing: seq<string>, known: set<string>)
    requires NoAssistant(w) && Issued(w, known) && ToSet(calls) <= known && missing == Missing(calls, Answered(w))
    ensures Issued(w + Backfill(missing), known)
  {
    MissingSet(calls, Answered(w));
    IssuedBackfill(missing, known);
    IssuedWindow(w, Backfill(missing), known);
  }

  lemma IssuedBlock(a: Message, w: seq<Message>, missing: seq<string>, rest: seq<Message>, known: set<string>)
    requires a.Assistant() && NoAssistant(w) && missing == Missing(a.Calls(), Answered(w))
    requires Issued(w, known + ToSet(a.Calls())) && Issued(rest, known + ToSet(a.Calls()))
    ensures Issued([a] + (w + Backfill(missing)) + rest, known)
  {
    var more := known + ToSet(a.Calls());
    var full := w + Backfill(missing);
    BackfilledWindow(a.Calls(), w);
    IssuedFull(a.Calls(), w, missing, more);
    IssuedWindow(full, rest, more);
    IssuedAssistant(a, full + rest, known);
    Regroup([a], full, rest);
  }

  /** Both passes, as run before every request: every tool message then carries the id
      of a call in some message before it, and every call is answered before the next
      assistant. */
  method RepairHistory(messages: seq<Message>) returns (result: seq<Message>)
    ensures result == Sanitized(DemotedAll(messages, {}))
    ensures forall j :: 0 <= j < |result| && result[j].Tool() ==> CalledEarlier(result, j)
    ensures AllAnswered(result) && Inserted(DemotedAll(messages, {}), result)
  {
    var d := DemoteOrphanToolResults(messages);
    result := SanitizeToolCallPairing(d);
    DemotedTwice(messages, {});
    FixedIff(d, {});
    FixedIssued(d, {}, {});
    SanitizedIssued(d, {});
    forall j | 0 <= j < |result| && result[j].Tool() ensures CalledEarlier(result, j) { IssuedMeans(result, {}, j); }
  }
}
