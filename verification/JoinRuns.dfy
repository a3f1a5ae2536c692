/** `join_children` while everything else goes on. Any critical sections of any other calls
    may run before, between and during its awaits: children finish, tasks are registered,
    and new children are spawned into the group that is claimed afterwards. */
module JoinRuns {
  import opened Ids
  import opened Agents
  import opened Coordinator
  import opened History
  import L = Lifecycle
  import S = AgentStore
  import G = GroupProtocol
  import R = CoordinatorRuns
  import J = JoinTree
  import CoordinatorSteps

  /** The states of a run with the tasks registered in each; a join begins in state `from`
      and has ended in the last one. */
  datatype Course = Course(states: seq<System>, tasks: seq<set<AgentKey>>, from: nat) {
    ghost predicate Valid(cfg: L.Config) {
      CoordinatorSteps.Traced(cfg, states) && |tasks| == |states| && from < |states|
    }

    function Last(): nat { if states == [] then 0 else |states| - 1 }
  }

  predicate DoneAt(w: Course, i: nat, k: AgentKey) { i < |w.states| && J.Done(w.states[i].life.scopes, k) }

  /** In this state the child is unfinished and has a task that may still report. */
  predicate RacesAt(w: Course, i: nat, k: AgentKey) {
    i < |w.states| && i < |w.tasks| && J.MayRace(k, w.states[i].life.scopes, w.tasks[i])
  }

  /** A child awaited from state `b` on is answered in state `e`: with what is stored then,
      or with its task's report if it could still race when it was awaited. */
  predicate Answered(w: Course, k: AgentKey, b: nat, e: nat, answer: ChildTerminal) {
    && b <= e && DoneAt(w, e, k)
    && (w.states[e].life.scopes[k].terminal == Some(answer) || RacesAt(w, b, k))
  }

  lemma TraceSound(cfg: L.Config, h: seq<System>, i: nat)
    requires CoordinatorSteps.Traced(cfg, h) && i < |h|
    ensures CoordinatorSteps.Sound(cfg, h[i])
  {
    CoordinatorSteps.OpenTrace(cfg, h);
    var run := TraceIsRun(cfg, h, i);
    ReachableInv(cfg, run);
  }

  lemma DoneLasts(cfg: L.Config, w: Course, i: nat, j: nat, k: AgentKey)
    requires w.Valid(cfg) && i <= j < |w.states| && DoneAt(w, i, k)
    ensures DoneAt(w, j, k) && w.states[j].life.scopes[k] == w.states[i].life.scopes[k]
  {
    CoordinatorSteps.OpenTrace(cfg, w.states);
    assert Ended(w.states[i], k);
  }

  lemma DoneBefore(cfg: L.Config, w: Course, b: nat, k: AgentKey)
    requires w.Valid(cfg) && b < |w.states| && k in w.states[b].life.scopes
    requires w.states[b].life.scopes[k].status.Terminal()
    ensures DoneAt(w, b, k)
  {
    TraceSound(cfg, w.states, b);
    CoordinatorSteps.SoundScope(cfg, w.states[b], k);
  }

  /** Those are the ways `await_child_terminal` can answer, when anything may happen
      meanwhile to the child's scope. */
  lemma AnsweredIff(cfg: L.Config, w: Course, k: AgentKey, b: nat, e: nat, answer: ChildTerminal)
    requires w.Valid(cfg) && b <= e < |w.states| && DoneAt(w, e, k) && k in w.states[b].life.scopes
    ensures Answered(w, k, b, e, answer) <==>
              J.Awaits(w.states[b].life.scopes[k], k in w.tasks[b], answer, w.states[e].life.scopes[k])
  {
    var before, after := w.states[b].life.scopes[k], w.states[e].life.scopes[k];
    TraceSound(cfg, w.states, e);
    FinishedShape(cfg, w.states[e], k);
    if before.status.Terminal() {
      DoneBefore(cfg, w, b, k);
      DoneLasts(cfg, w, b, e, k);
    } else {
      var stored := after.terminal.value;
      J.AwaitsOther(before, k in w.tasks[b], stored, after);
      if k in w.tasks[b] { J.RaceHappens(before, stored, answer); }
    }
    if J.Awaits(before, k in w.tasks[b], answer, after) { J.AwaitsEnds(before, k in w.tasks[b], answer, after); }
  }

  lemma FinishedShape(cfg: L.Config, s: System, k: AgentKey)
    requires CoordinatorSteps.Sound(cfg, s) && J.Done(s.life.scopes, k)
    ensures var t := s.life.scopes[k].terminal.value; s.life.scopes[k] == L.Scope(t.ToStatus(), false, Some(t))
  {
    CoordinatorSteps.Open(cfg, s);
    assert L.ScopeOk(s.life, k);
  }

  /** The children are awaited one after another, child `i` from `begin[i]` to `end[i]`. */
  ghost predicate Schedule(w: Course, ids: seq<AgentId>, begin: seq<nat>, end: seq<nat>) {
    && |begin| == |ids| == |end|
    && (forall i :: 0 <= i < |ids| ==> w.from <= begin[i])
    && (forall i, j :: 0 <= i < j < |ids| ==> end[i] <= begin[j])
  }

  ghost predicate JoinedBy(w: Course, session: SessionId, ids: seq<AgentId>, observed: map<AgentId, ChildTerminal>,
                           begin: seq<nat>, end: seq<nat>) {
    && Schedule(w, ids, begin, end)
    && forall i :: 0 <= i < |ids| ==>
         && ids[i] in observed
         && Answered(w, AgentKey(session, ids[i]), begin[i], end[i], observed[ids[i]])
  }

  /** What a join over `ids` can have observed in this course of events. */
  ghost predicate Joined(w: Course, session: SessionId, ids: seq<AgentId>, observed: map<AgentId, ChildTerminal>) {
    exists begin, end :: JoinedBy(w, session, ids, observed, begin, end)
  }

  /** Child `i` can be awaited when it is unfinished and has a registered task: in some
      state of the join it is, and all children before it have finished. */
  ghost predicate CanRace(w: Course, session: SessionId, ids: seq<AgentId>, i: nat)
    requires i < |ids|
  {
    exists b :: RaceTurn(w, session, ids, i, b)
  }

  predicate RaceTurn(w: Course, session: SessionId, ids: seq<AgentId>, i: nat, b: nat)
    requires i < |ids|
  {
    && w.from <= b && RacesAt(w, b, AgentKey(session, ids[i]))
    && forall j :: 0 <= j < i ==> DoneAt(w, b, AgentKey(session, ids[j]))
  }

  /** The scopes when the join has ended. */
  function Final(w: Course): L.Scopes { if w.states == [] then map[] else w.states[|w.states| - 1].life.scopes }

  function Stored(w: Course, session: SessionId, c: AgentId): ChildTerminal {
    J.StoredOf(Final(w), AgentKey(session, c))
  }

  lemma DoneIsStored(cfg: L.Config, w: Course, session: SessionId, i: nat, c: AgentId)
    requires w.Valid(cfg) && i < |w.states| && DoneAt(w, i, AgentKey(session, c))
    ensures w.states[i].life.scopes[AgentKey(session, c)].terminal == Some(Stored(w, session, c))
  {
    DoneLasts(cfg, w, i, w.Last(), AgentKey(session, c));
  }

  /** A child that cannot race is answered with what is stored in the end. */
  lemma AnswerIsStored(cfg: L.Config, w: Course, session: SessionId, ids: seq<AgentId>,
                       observed: map<AgentId, ChildTerminal>, begin: seq<nat>, end: seq<nat>, i: nat)
    requires w.Valid(cfg) && JoinedBy(w, session, ids, observed, begin, end)
    requires i < |ids| && !CanRace(w, session, ids, i)
    ensures observed[ids[i]] == Stored(w, session, ids[i])
  {
    var k := AgentKey(session, ids[i]);
    assert Answered(w, k, begin[i], end[i], observed[ids[i]]);
    forall j | 0 <= j < i ensures DoneAt(w, begin[i], AgentKey(session, ids[j])) {
      assert Answered(w, AgentKey(session, ids[j]), begin[j], end[j], observed[ids[j]]);
      DoneLasts(cfg, w, end[j], begin[i], AgentKey(session, ids[j]));
    }
    assert !RaceTurn(w, session, ids, i, begin[i]);
    DoneIsStored(cfg, w, session, end[i], ids[i]);
  }

  // ---------------------------------------------- an outcome in which child `i` races

  function Turn(w: Course, early: bool, b: nat): nat { if early then b else w.Last() }

  function Turns(w: Course, n: nat, early: nat, b: nat): (r: seq<nat>)
    ensures |r| == n && forall j :: 0 <= j < n ==> r[j] == Turn(w, j < early, b)
  {
    seq<nat>(n, j requires 0 <= j < n => Turn(w, j < early, b))
  }

  /** Everybody reports what is stored, and child `i` reports `answer`. */
  function RacedAnswers(w: Course, session: SessionId, ids: seq<AgentId>, i: nat, answer: ChildTerminal)
    : map<AgentId, ChildTerminal>
    requires i < |ids|
  {
    map c | c in ids :: if c == ids[i] then answer else Stored(w, session, c)
  }

  lemma RacedAnswer(cfg: L.Config, w: Course, session: SessionId, ids: seq<AgentId>, i: nat, b: nat,
                    answer: ChildTerminal, j: nat)
    requires w.Valid(cfg) && NoDuplicates(ids) && i < |ids| && j < |ids| && RaceTurn(w, session, ids, i, b)
    requires DoneAt(w, w.Last(), AgentKey(session, ids[j]))
    ensures Answered(w, AgentKey(session, ids[j]), Turn(w, j <= i, b), Turn(w, j < i, b),
                     RacedAnswers(w, session, ids, i, answer)[ids[j]])
  {
    DoneIsStored(cfg, w, session, Turn(w, j < i, b), ids[j]);
  }

  lemma RacedIsJoined(cfg: L.Config, w: Course, session: SessionId, ids: seq<AgentId>, i: nat, b: nat,
                      answer: ChildTerminal)
    requires w.Valid(cfg) && NoDuplicates(ids) && i < |ids| && RaceTurn(w, session, ids, i, b)
    requires forall c :: c in ids ==> DoneAt(w, w.Last(), AgentKey(session, c))
    ensures Joined(w, session, ids, RacedAnswers(w, session, ids, i, answer))
  {
    var begin, end := Turns(w, |ids|, i + 1, b), Turns(w, |ids|, i, b);
    var observed := RacedAnswers(w, session, ids, i, answer);
    forall j | 0 <= j < |ids|
      ensures ids[j] in observed && Answered(w, AgentKey(session, ids[j]), begin[j], end[j], observed[ids[j]])
    {
      RacedAnswer(cfg, w, session, ids, i, b, answer, j);
    }
    assert Schedule(w, ids, begin, end);
    assert JoinedBy(w, session, ids, observed, begin, end);
  }

  /** If every child is awaited after it has finished, every answer is what is stored. */
  function StoredAnswers(w: Course, session: SessionId, ids: seq<AgentId>): map<AgentId, ChildTerminal> {
    map c | c in ids :: Stored(w, session, c)
  }

  lemma StoredIsJoined(cfg: L.Config, w: Course, session: SessionId, ids: seq<AgentId>)
    requires w.Valid(cfg) && forall c :: c in ids ==> DoneAt(w, w.Last(), AgentKey(session, c))
    ensures Joined(w, session, ids, StoredAnswers(w, session, ids))
  {
    var begin := seq<nat>(|ids|, j requires 0 <= j < |ids| => w.Last());
    var observed := StoredAnswers(w, session, ids);
    forall j | 0 <= j < |ids|
      ensures ids[j] in observed && Answered(w, AgentKey(session, ids[j]), begin[j], begin[j], observed[ids[j]])
    {
      DoneIsStored(cfg, w, session, w.Last(), ids[j]);
    }
    assert JoinedBy(w, session, ids, observed, begin, begin);
  }

  // ------------------------------------------------------ when the delivery agrees

  /** The filtered joined list never mentions a child that was not joined. */
  lemma OnlyJoined(ids: seq<AgentId>, members: set<AgentId>, observed: map<AgentId, ChildTerminal>, r: ChildResult)
    requires (forall x :: x in ids ==> x in observed) && r in R.OnlyMembers(R.JoinList(ids, observed), members)
    ensures r.childId in ids
  {
    R.FilterJoin(ids, observed, members);
    var only := R.OnlyIds(ids, members);
    var i :| 0 <= i < |only| && R.JoinList(only, observed)[i] == r;
    assert only[i] in ids;
  }

  lemma StoredMentions(session: SessionId, ids: seq<AgentId>, scopes: L.Scopes, c: AgentId) returns (r: ChildResult)
    requires c in ids
    ensures r in J.StoredList(session, ids, scopes) && r.childId == c
  {
    var i :| 0 <= i < |ids| && ids[i] == c;
    r := J.StoredList(session, ids, scopes)[i];
  }

  lemma OutsiderDiffers(session: SessionId, ids: seq<AgentId>, members: set<AgentId>,
                        observed: map<AgentId, ChildTerminal>, scopes: L.Scopes, c: AgentId)
    requires c in members && c !in ids && forall x :: x in ids ==> x in observed
    ensures J.StoredList(session, Sorted(members), scopes) != R.OnlyMembers(R.JoinList(ids, observed), members)
  {
    var r := StoredMentions(session, Sorted(members), scopes, c);
    var only := R.OnlyMembers(R.JoinList(ids, observed), members);
    if r in only { OnlyJoined(ids, members, observed, r); }
  }

  function Other(t: ChildTerminal): (r: ChildTerminal)
    ensures r.ToStatus() != t.ToStatus()
  {
    if t.Cancelled? then ChildTerminal.Completed("") else ChildTerminal.Cancelled
  }

  /** The delivery of the group is the joined list filtered to its members. */
  ghost predicate Delivers(w: Course, session: SessionId, ids: seq<AgentId>, members: set<AgentId>,
                           observed: map<AgentId, ChildTerminal>, delivered: seq<ChildResult>) {
    (forall c :: c in ids ==> c in observed) && delivered == R.OnlyMembers(R.JoinList(ids, observed), members)
  }

  lemma StoredDelivers(cfg: L.Config, w: Course, session: SessionId, ids: seq<AgentId>, members: set<AgentId>,
                       observed: map<AgentId, ChildTerminal>)
    requires w.Valid(cfg) && StrictlySorted(ids) && (forall c :: c in members ==> c in ids)
    requires Joined(w, session, ids, observed)
    requires forall i :: 0 <= i < |ids| && ids[i] in members ==> !CanRace(w, session, ids, i)
    ensures Delivers(w, session, ids, members, observed, J.StoredList(session, Sorted(members), Final(w)))
  {
    var begin, end :| JoinedBy(w, session, ids, observed, begin, end);
    forall c | c in members ensures observed[c] == Stored(w, session, c) {
      var i :| 0 <= i < |ids| && ids[i] == c;
      AnswerIsStored(cfg, w, session, ids, observed, begin, end, i);
    }
    StoredIsList(session, ids, members, observed, Final(w));
  }

  lemma StoredIsList(session: SessionId, ids: seq<AgentId>, members: set<AgentId>,
                     observed: map<AgentId, ChildTerminal>, scopes: L.Scopes)
    requires StrictlySorted(ids) && (forall c :: c in members ==> c in ids) && (forall c :: c in ids ==> c in observed)
    requires forall c :: c in members ==> observed[c] == J.StoredOf(scopes, AgentKey(session, c))
    ensures J.StoredList(session, Sorted(members), scopes) == R.OnlyMembers(R.JoinList(ids, observed), members)
  {
    J.FilterMembers(ids, members, observed);
    assert J.StoredList(session, Sorted(members), scopes) == R.JoinList(Sorted(members), observed);
  }

  lemma RaceDiffers(w: Course, session: SessionId, ids: seq<AgentId>, members: set<AgentId>, i: nat)
    requires w.states != [] && StrictlySorted(ids) && (forall c :: c in members ==> c in ids)
    requires i < |ids| && ids[i] in members
    ensures !Delivers(w, session, ids, members, RacedAnswers(w, session, ids, i, Other(Stored(w, session, ids[i]))),
                      J.StoredList(session, Sorted(members), Final(w)))
  {
    var observed := RacedAnswers(w, session, ids, i, Other(Stored(w, session, ids[i])));
    J.FilterMembers(ids, members, observed);
    J.ListsDiffer(session, Sorted(members), ids[i], Final(w), observed);
  }

  /** It is, for everything the join can have observed. */
  ghost predicate AlwaysDelivers(w: Course, session: SessionId, ids: seq<AgentId>, members: set<AgentId>,
                                 delivered: seq<ChildResult>) {
    forall observed :: Joined(w, session, ids, observed) ==> Delivers(w, session, ids, members, observed, delivered)
  }

  /** Every member was among the joined children, and none of them could be awaited while it
      was unfinished and had a registered task. */
  ghost predicate Undisturbed(w: Course, session: SessionId, ids: seq<AgentId>, members: set<AgentId>) {
    && (forall c :: c in members ==> c in ids)
    && (forall i :: 0 <= i < |ids| && ids[i] in members ==> !CanRace(w, session, ids, i))
  }

  /** Whatever else happens during the join: the stored terminals of the members, as an open
      group delivers them, are the joined list filtered to the members exactly under that
      condition. */
  lemma StoredAgreesIff(cfg: L.Config, w: Course, session: SessionId, ids: seq<AgentId>, members: set<AgentId>)
    requires w.Valid(cfg) && StrictlySorted(ids)
    requires forall c :: c in ids ==> DoneAt(w, w.Last(), AgentKey(session, c))
    ensures AlwaysDelivers(w, session, ids, members, J.StoredList(session, Sorted(members), Final(w)))
            <==> Undisturbed(w, session, ids, members)
  {
    if c :| c in members && c !in ids {
      StoredIsJoined(cfg, w, session, ids);
      OutsiderDiffers(session, ids, members, StoredAnswers(w, session, ids), Final(w), c);
    } else if i :| 0 <= i < |ids| && ids[i] in members && CanRace(w, session, ids, i) {
      var b :| RaceTurn(w, session, ids, i, b);
      StrictlySortedDistinct(ids);
      RacedIsJoined(cfg, w, session, ids, i, b, Other(Stored(w, session, ids[i])));
      RaceDiffers(w, session, ids, members, i);
    } else {
      forall observed | Joined(w, session, ids, observed)
        ensures Delivers(w, session, ids, members, observed, J.StoredList(session, Sorted(members), Final(w)))
      {
        StoredDelivers(cfg, w, session, ids, members, observed);
      }
    }
  }

  lemma SortedChildren(cfg: L.Config, s: System, k: AgentKey)
    requires CoordinatorSteps.Sound(cfg, s)
    ensures StrictlySorted(S.DirectChildren(s.life.store, k))
  {
    CoordinatorSteps.SoundHierarchy(cfg, s);
    S.DirectChildrenComplete(s.life.store, k);
  }

  /** An open group without forced results that can be claimed. */
  ghost predicate Claimable(s: System, k: AgentKey) {
    var d := G.ClaimOwn(s.group.side, k.session, k.agent).0;
    d.Some? && d.value.group in s.group.side.store.groups && R.OpenUnforced(s, d.value.group)
  }

  /** Its members and what the claim delivers. */
  ghost function Claimed(s: System, k: AgentKey): (set<AgentId>, seq<ChildResult>)
    requires Claimable(s, k)
  {
    var d := G.ClaimOwn(s.group.side, k.session, k.agent).0;
    (s.group.side.store.groups[d.value.group].children, d.value.results)
  }

  lemma ClaimedIsStored(cfg: L.Config, s: System, k: AgentKey)
    requires CoordinatorSteps.Sound(cfg, s) && Claimable(s, k)
    ensures Claimed(s, k).1 == J.StoredList(k.session, Sorted(Claimed(s, k).0), s.life.scopes)
  {
    CoordinatorSteps.Open(cfg, s);
    CoordinatorSteps.ClaimDelivers(cfg, s, k);
  }

  lemma ClaimAtEnd(cfg: L.Config, w: Course, k: AgentKey)
    requires w.Valid(cfg) && Claimable(w.states[w.Last()], k)
    ensures var (members, delivered) := Claimed(w.states[w.Last()], k);
            delivered == J.StoredList(k.session, Sorted(members), Final(w))
  {
    TraceSound(cfg, w.states, w.Last());
    ClaimedIsStored(cfg, w.states[w.Last()], k);
  }

  lemma ChildrenAtStart(cfg: L.Config, w: Course, k: AgentKey)
    requires w.Valid(cfg)
    ensures StrictlySorted(S.DirectChildren(w.states[w.from].life.store, k))
  {
    TraceSound(cfg, w.states, w.from);
    SortedChildren(cfg, w.states[w.from], k);
  }

  /** The claim after a join that any other calls interleave with: for an open group into
      which no result was forced, the delivery is the joined list filtered to the members
      exactly under that condition. */
  lemma ClaimAgreesOverRuns(cfg: L.Config, w: Course, k: AgentKey, ids: seq<AgentId>)
    requires w.Valid(cfg) && Claimable(w.states[w.Last()], k)
    requires ids == S.DirectChildren(w.states[w.from].life.store, k)
    requires forall c :: c in ids ==> DoneAt(w, w.Last(), AgentKey(k.session, c))
    ensures var (members, delivered) := Claimed(w.states[w.Last()], k);
            AlwaysDelivers(w, k.session, ids, members, delivered) <==> Undisturbed(w, k.session, ids, members)
  {
    ChildrenAtStart(cfg, w, k);
    ClaimAtEnd(cfg, w, k);
    StoredAgreesIff(cfg, w, k.session, ids, Claimed(w.states[w.Last()], k).0);
  }
}
