/** Awaiting and joining direct children: every way it can end, what it does to the
    scopes, and when the answers can be relied on. */
module JoinTree {
  import opened Ids
  import opened Agents
  import L = Lifecycle
  import R = CoordinatorRuns

  predicate Done(scopes: L.Scopes, k: AgentKey) {
    k in scopes && scopes[k].status.Terminal() && scopes[k].terminal.Some?
  }

  // ----------------------------------------------------------- awaiting one child

  /** A scope after a finisher came by: the first terminal stays. */
  function Finished(scope: L.Scope, t: Option<ChildTerminal>): L.Scope {
    if t.None? || scope.status.Terminal() then scope else L.Scope(t.value.ToStatus(), false, t)
  }

  /** Somebody else may finish the child first; a registered task may still report, and
      then its report is the answer whether it was stored or not. */
  predicate Race(before: L.Scope, handle: bool, other: Option<ChildTerminal>, task: Option<ChildTerminal>,
                 answer: ChildTerminal, after: L.Scope) {
    && (task.Some? ==> handle)
    && after == Finished(Finished(before, other), task)
    && Some(answer) == if task.Some? then task else other
  }

  /** Every way `await_child_terminal` can answer. */
  ghost predicate Awaits(before: L.Scope, handle: bool, answer: ChildTerminal, after: L.Scope) {
    if before.status.Terminal() then after == before && before.terminal == Some(answer)
    else exists other, task :: Race(before, handle, other, task, answer, after)
  }

  predicate Settled(scope: L.Scope) { scope.status.Terminal() ==> scope.terminal.Some? }

  lemma AwaitsEnds(before: L.Scope, handle: bool, answer: ChildTerminal, after: L.Scope)
    requires Awaits(before, handle, answer, after)
    ensures after.status.Terminal() && after.terminal.Some?
    ensures before.status.Terminal() ==> after == before
    ensures before.status.Terminal() || !handle ==> after.terminal == Some(answer)
  {
  }

  lemma AwaitsOther(before: L.Scope, handle: bool, t: ChildTerminal, after: L.Scope)
    requires !before.status.Terminal() && after == Finished(before, Some(t))
    ensures Awaits(before, handle, t, after)
  {
    assert Race(before, handle, Some(t), None, t, after);
  }

  lemma AwaitsTask(before: L.Scope, other: Option<ChildTerminal>, t: ChildTerminal, after: L.Scope)
    requires !before.status.Terminal() && after == Finished(Finished(before, other), Some(t))
    ensures Awaits(before, true, t, after)
  {
    assert Race(before, true, other, Some(t), t, after);
  }

  /** The race: one finisher stores its outcome, the task then reports another. */
  lemma RaceHappens(before: L.Scope, stored: ChildTerminal, reported: ChildTerminal)
    requires !before.status.Terminal()
    ensures Awaits(before, true, reported, L.Scope(stored.ToStatus(), false, Some(stored)))
  {
    assert Race(before, true, Some(stored), Some(reported), reported, L.Scope(stored.ToStatus(), false, Some(stored)));
  }

  /** Every possible answer is the stored terminal exactly if the child had finished or
      had no registered task when it was awaited. */
  lemma AnswerIsStoredIff(before: L.Scope, handle: bool)
    requires Settled(before)
    ensures (forall answer, after :: Awaits(before, handle, answer, after) ==> after.terminal == Some(answer))
            <==> before.status.Terminal() || !handle
  {
    if before.status.Terminal() || !handle {
      forall answer, after | Awaits(before, handle, answer, after) ensures after.terminal == Some(answer) {
        AwaitsEnds(before, handle, answer, after);
      }
    } else {
      RaceHappens(before, ChildTerminal.Cancelled, ChildTerminal.Completed(""));
    }
  }

  // -------------------------------------------------------------------- joining

  ghost predicate AwaitedAt(session: SessionId, c: AgentId, before: L.Scopes, handles: set<AgentKey>,
                            answer: ChildTerminal, after: L.Scopes) {
    var k := AgentKey(session, c);
    k in before && k in after && Awaits(before[k], k in handles, answer, after[k])
  }

  predicate Among(session: SessionId, ids: seq<AgentId>, d: AgentKey) { d.session == session && d.agent in ids }

  /** Every way `join_children` over `ids` can end: each child was awaited, with the
      answer in `observed`, and nobody else changed. */
  ghost predicate JoinOutcome(session: SessionId, ids: seq<AgentId>, before: L.Scopes, handles: set<AgentKey>,
                              observed: map<AgentId, ChildTerminal>, after: L.Scopes) {
    && after.Keys == before.Keys
    && (forall d :: d in before && !Among(session, ids, d) ==> after[d] == before[d])
    && (forall c :: c in ids ==> c in observed && AwaitedAt(session, c, before, handles, observed[c], after))
  }

  /** The children that finish while they are joined. */
  ghost predicate Finishers(session: SessionId, ids: seq<AgentId>, before: L.Scopes, log: seq<AgentKey>) {
    NoDuplicates(log) && forall d :: d in log <==> Among(session, ids, d) && d in before && !before[d].status.Terminal()
  }

  lemma OutcomeNext(session: SessionId, ids: seq<AgentId>, i: nat, before: L.Scopes, handles: set<AgentKey>,
                    observed: map<AgentId, ChildTerminal>, now: L.Scopes, next: L.Scopes, answer: ChildTerminal)
    requires i < |ids| && NoDuplicates(ids) && JoinOutcome(session, ids[..i], before, handles, observed, now)
    requires var k := AgentKey(session, ids[i]);
             && AwaitedAt(session, ids[i], now, handles, answer, next) && next == now[k := next[k]]
    ensures JoinOutcome(session, ids[..i + 1], before, handles, observed[ids[i] := answer], next)
  {
    var k := AgentKey(session, ids[i]);
    assert ids[..i + 1] == ids[..i] + [ids[i]];
    assert !Among(session, ids[..i], k) && now[k] == before[k];
    forall c | c in ids[..i] ensures AwaitedAt(session, c, before, handles, observed[c], next) {
      assert AwaitedAt(session, c, before, handles, observed[c], now);
    }
  }

  lemma FinishersNext(session: SessionId, ids: seq<AgentId>, i: nat, before: L.Scopes, log: seq<AgentKey>)
    requires i < |ids| && NoDuplicates(ids) && Finishers(session, ids[..i], before, log)
    requires AgentKey(session, ids[i]) in before
    ensures var k := AgentKey(session, ids[i]);
            Finishers(session, ids[..i + 1], before, if before[k].status.Terminal() then log else log + [k])
  {
    var k := AgentKey(session, ids[i]);
    assert ids[..i + 1] == ids[..i] + [ids[i]];
    assert !Among(session, ids[..i], k);
  }

  lemma JoinListNext(ids: seq<AgentId>, i: nat, observed: map<AgentId, ChildTerminal>, terminal: ChildTerminal)
    requires i < |ids| && NoDuplicates(ids) && forall c :: c in ids[..i] ==> c in observed
    ensures var more := observed[ids[i] := terminal];
            && (forall c :: c in ids[..i + 1] ==> c in more)
            && R.JoinList(ids[..i + 1], more) == R.JoinList(ids[..i], observed) + [Sanitize(ids[i], terminal)]
  {
    assert ids[..i + 1] == ids[..i] + [ids[i]];
  }

  /** What was observed of a child is what is stored, unless it was unfinished and had a
      task when the join began. */
  ghost predicate Saw(session: SessionId, ids: seq<AgentId>, before: L.Scopes, handles: set<AgentKey>,
                      now: L.Scopes, observed: map<AgentId, ChildTerminal>) {
    forall c :: c in ids ==> c in observed && SawOne(AgentKey(session, c), before, handles, now, observed[c])
  }

  predicate SawOne(k: AgentKey, before: L.Scopes, handles: set<AgentKey>, now: L.Scopes, answer: ChildTerminal) {
    Done(now, k) && (now[k].terminal == Some(answer) || MayRace(k, before, handles))
  }

  /** A registered task of an unfinished child: its report may come second. */
  predicate MayRace(k: AgentKey, before: L.Scopes, handles: set<AgentKey>) {
    k in handles && k in before && !before[k].status.Terminal()
  }

  lemma OutcomeIsSeen(session: SessionId, ids: seq<AgentId>, before: L.Scopes, handles: set<AgentKey>,
                      observed: map<AgentId, ChildTerminal>, after: L.Scopes)
    requires JoinOutcome(session, ids, before, handles, observed, after)
    ensures Saw(session, ids, before, handles, after, observed)
  {
    forall c | c in ids ensures c in observed && SawOne(AgentKey(session, c), before, handles, after, observed[c]) {
      var k := AgentKey(session, c);
      assert AwaitedAt(session, c, before, handles, observed[c], after);
      AwaitsEnds(before[k], k in handles, observed[c], after[k]);
    }
  }

  // ---------------------------------------- every join of a group's members agrees

  function StoredOf(scopes: L.Scopes, k: AgentKey): ChildTerminal {
    if Done(scopes, k) then scopes[k].terminal.value else ChildTerminal.Cancelled
  }

  /** The stored terminals of a group's members, as an open group delivers them. */
  function StoredList(session: SessionId, ids: seq<AgentId>, scopes: L.Scopes): (r: seq<ChildResult>)
    ensures |r| == |ids|
    ensures forall i :: 0 <= i < |ids| ==> r[i] == Sanitize(ids[i], StoredOf(scopes, AgentKey(session, ids[i])))
  {
    seq(|ids|, i requires 0 <= i < |ids| => Sanitize(ids[i], StoredOf(scopes, AgentKey(session, ids[i]))))
  }

  /** In this outcome the stored list is the joined list filtered to the members. */
  ghost predicate Agrees(session: SessionId, ids: seq<AgentId>, members: set<AgentId>,
                         observed: map<AgentId, ChildTerminal>, after: L.Scopes) {
    && (forall c :: c in ids ==> c in observed)
    && (forall c :: c in members ==> Done(after, AgentKey(session, c)))
    && StoredList(session, Sorted(members), after) == R.OnlyMembers(R.JoinList(ids, observed), members)
  }

  lemma FilterMembers(ids: seq<AgentId>, members: set<AgentId>, observed: map<AgentId, ChildTerminal>)
    requires StrictlySorted(ids) && (forall c :: c in members ==> c in ids) && (forall c :: c in ids ==> c in observed)
    ensures R.OnlyMembers(R.JoinList(ids, observed), members) == R.JoinList(Sorted(members), observed)
  {
    R.FilterJoin(ids, observed, members);
    R.FilterSorted(ids, members);
    SortedUnique(R.OnlyIds(ids, members), Sorted(members));
  }

  lemma AgreesFrom(session: SessionId, ids: seq<AgentId>, members: set<AgentId>, before: L.Scopes,
                   handles: set<AgentKey>, observed: map<AgentId, ChildTerminal>, after: L.Scopes)
    requires StrictlySorted(ids) && (forall c :: c in members ==> c in ids)
    requires Saw(session, ids, before, handles, after, observed)
    requires forall c :: c in members ==> !MayRace(AgentKey(session, c), before, handles)
    ensures Agrees(session, ids, members, observed, after)
  {
    FilterMembers(ids, members, observed);
    var sorted := Sorted(members);
    forall c | c in members
      ensures Done(after, AgentKey(session, c)) && after[AgentKey(session, c)].terminal == Some(observed[c])
    {
      assert SawOne(AgentKey(session, c), before, handles, after, observed[c]);
    }
    assert StoredList(session, sorted, after) == R.JoinList(sorted, observed);
  }

  /** An outcome of the join in which `raced` is stored as cancelled and reported as
      completed, while everybody else is plainly finished. */
  ghost function RacedObserved(session: SessionId, ids: seq<AgentId>, before: L.Scopes, raced: AgentId)
    : map<AgentId, ChildTerminal>
    requires forall c :: c in ids ==> AgentKey(session, c) in before
  {
    map c | c in ids :: if c == raced then ChildTerminal.Completed("") else StoredOf(before, AgentKey(session, c))
  }

  ghost function RacedScopes(session: SessionId, ids: seq<AgentId>, before: L.Scopes): L.Scopes {
    map d | d in before :: if Among(session, ids, d) then Finished(before[d], Some(ChildTerminal.Cancelled))
      else before[d]
  }

  lemma RacedOutcome(session: SessionId, ids: seq<AgentId>, before: L.Scopes, handles: set<AgentKey>, raced: AgentId)
    requires raced in ids && MayRace(AgentKey(session, raced), before, handles)
    requires forall c :: c in ids ==> AgentKey(session, c) in before && Settled(before[AgentKey(session, c)])
    ensures JoinOutcome(session, ids, before, handles, RacedObserved(session, ids, before, raced),
                        RacedScopes(session, ids, before))
  {
    var observed, after := RacedObserved(session, ids, before, raced), RacedScopes(session, ids, before);
    forall c | c in ids ensures AwaitedAt(session, c, before, handles, observed[c], after) {
      var k := AgentKey(session, c);
      if c == raced {
        RaceHappens(before[k], ChildTerminal.Cancelled, ChildTerminal.Completed(""));
      } else if !before[k].status.Terminal() {
        assert Race(before[k], k in handles, Some(ChildTerminal.Cancelled), None, ChildTerminal.Cancelled, after[k]);
      }
    }
  }

  lemma ListsDiffer(session: SessionId, ids: seq<AgentId>, c: AgentId, scopes: L.Scopes,
                    observed: map<AgentId, ChildTerminal>)
    requires c in ids && (forall x :: x in ids ==> x in observed)
    requires StoredOf(scopes, AgentKey(session, c)).ToStatus() != observed[c].ToStatus()
    ensures StoredList(session, ids, scopes) != R.JoinList(ids, observed)
  {
    var i :| 0 <= i < |ids| && ids[i] == c;
    assert StoredList(session, ids, scopes)[i] != R.JoinList(ids, observed)[i];
  }

  lemma RacedDiffers(session: SessionId, ids: seq<AgentId>, before: L.Scopes, handles: set<AgentKey>, raced: AgentId)
    requires raced in ids && MayRace(AgentKey(session, raced), before, handles)
    requires forall c :: c in ids ==> AgentKey(session, c) in before
    ensures var observed := RacedObserved(session, ids, before, raced);
            && raced in observed
            && StoredOf(RacedScopes(session, ids, before), AgentKey(session, raced)).ToStatus()
               != observed[raced].ToStatus()
  {
    var k := AgentKey(session, raced);
    assert Among(session, ids, k);
    assert RacedScopes(session, ids, before)[k] == L.Scope(Status.Cancelled, false, Some(ChildTerminal.Cancelled));
  }

  lemma RacedDisagrees(session: SessionId, ids: seq<AgentId>, members: set<AgentId>, before: L.Scopes,
                       handles: set<AgentKey>, raced: AgentId)
    requires StrictlySorted(ids) && (forall c :: c in members ==> c in ids) && raced in members
    requires MayRace(AgentKey(session, raced), before, handles)
    requires forall c :: c in ids ==> AgentKey(session, c) in before && Settled(before[AgentKey(session, c)])
    ensures !Agrees(session, ids, members, RacedObserved(session, ids, before, raced),
                    RacedScopes(session, ids, before))
  {
    var observed, after := RacedObserved(session, ids, before, raced), RacedScopes(session, ids, before);
    FilterMembers(ids, members, observed);
    RacedDiffers(session, ids, before, handles, raced);
    ListsDiffer(session, Sorted(members), raced, after, observed);
  }

  /** If no task is registered and no child is spawned meanwhile, an open group's delivery
      is the joined list filtered to its members, exactly if, when the join begins, no
      member is both unfinished and backed by a registered task. */
  lemma JoinAgreesIff(session: SessionId, ids: seq<AgentId>, members: set<AgentId>, before: L.Scopes,
                      handles: set<AgentKey>)
    requires StrictlySorted(ids) && (forall c :: c in members ==> c in ids)
    requires forall c :: c in ids ==> AgentKey(session, c) in before && Settled(before[AgentKey(session, c)])
    ensures (forall observed, after ::
               JoinOutcome(session, ids, before, handles, observed, after) ==>
                 Agrees(session, ids, members, observed, after))
            <==> forall c :: c in members ==> !MayRace(AgentKey(session, c), before, handles)
  {
    if forall c :: c in members ==> !MayRace(AgentKey(session, c), before, handles) {
      forall observed, after | JoinOutcome(session, ids, before, handles, observed, after)
        ensures Agrees(session, ids, members, observed, after)
      {
        OutcomeIsSeen(session, ids, before, handles, observed, after);
        AgreesFrom(session, ids, members, before, handles, observed, after);
      }
    } else {
      var raced :| raced in members && MayRace(AgentKey(session, raced), before, handles);
      RacedOutcome(session, ids, before, handles, raced);
      RacedDisagrees(session, ids, members, before, handles, raced);
    }
  }
}
