/** A run in which the claimed delivery is not the joined list: while an owner joins its
    child, another finisher stores one outcome and the child's task then reports another. */
module RaceRun {
  import opened Ids
  import opened Agents
  import opened Coordinator
  import opened CoordinatorSteps
  import L = Lifecycle
  import G = GroupProtocol
  import S = AgentStore
  import TG = TaskGroups
  import R = CoordinatorRuns
  import J = JoinTree
  import opened History

  lemma ReachSound(cfg: L.Config, s: System)
    requires Reach(cfg, s)
    ensures Sound(cfg, s)
  {
    ReachInv(cfg, s);
  }

  /** Two agents below a root fit. */
  predicate Room(cfg: L.Config) {
    && cfg.maxConcurrent >= 2 && cfg.maxDepth >= 2
    && L.GENERAL_PURPOSE in cfg.registry && cfg.registry[L.GENERAL_PURPOSE] == L.Contract(true, None)
  }

  lemma Hold(cfg: L.Config, s: System, caller: Context, nodeType: L.NodeType, target: Option<GroupId>)
    returns (n: System)
    requires Reach(cfg, s) && s.life.threads == map[] && s.life.available > 0 && L.Trusted(s.life.store, caller)
    requires L.Refusal(cfg, s.life, caller, nodeType).None?
    ensures Reach(cfg, n) && n.group == s.group && n.forced == s.forced
    ensures n.life == s.life.(available := s.life.available - 1,
                              threads := map[0 := L.Holding(caller, nodeType, target)])
  {
    var e := Local(L.Admission(0, caller, nodeType, target));
    AdmitEffect(cfg, s, caller, nodeType, target);
    ReachNext(cfg, s, e);
    var m := Apply(cfg, s, e);
    AcquireEffect(cfg, m, caller, nodeType, target);
    ReachNext(cfg, m, Local(L.Acquisition(0)));
    n := Apply(cfg, m, Local(L.Acquisition(0)));
  }

  /** `reserve_child`, step by step, when nothing is in its way. */
  lemma Spawn(cfg: L.Config, s: System, caller: Context, nodeType: L.NodeType, id: AgentId, target: Option<GroupId>)
    returns (n: System)
    requires Reach(cfg, s) && s.life.threads == map[] && s.life.available > 0 && L.Trusted(s.life.store, caller)
    requires L.Refusal(cfg, s.life, caller, nodeType).None?
    requires caller.Child(id).Key() !in s.life.store.records && s.life.scopes.Keys == s.life.store.records.Keys
    ensures Reach(cfg, n) && n.group == s.group && n.forced == s.forced
    ensures NewScope(s.life, n.life, caller.Child(id), nodeType, target)
    ensures n.life.store == S.Insert(s.life.store, NewRecord(s, caller, id)).1
  {
    var s2 := Hold(cfg, s, caller, nodeType, target);
    var generation := TG.CurrentGeneration(s.group.side.store, caller.session);
    InsertEffect(s.life, s2.life, caller, nodeType, id, "", generation, target);
    ReachNext(cfg, s2, Local(L.Insertion(0, id, "", generation)));
    n := Apply(cfg, s2, Local(L.Insertion(0, id, "", generation)));
  }

  function NewRecord(s: System, caller: Context, id: AgentId): S.Record {
    S.Record(caller.session, id, Some(caller.agent), caller.depth + 1,
             TG.CurrentGeneration(s.group.side.store, caller.session),
             Pending, "", None)
  }

  function RootOf(session: SessionId, r: AgentId): Context { Context(session, r, None, 0) }

  /** A root with one spawned agent `p`. */
  lemma SpawnParent(cfg: L.Config, session: SessionId, r: AgentId, p: AgentId, nodeType: L.NodeType)
    returns (s: System)
    requires Room(cfg) && r != p && nodeType in cfg.registry
    ensures Reach(cfg, s) && s.group == G.Start && s.forced == {} && s.life.threads == map[] && s.life.available > 0
    ensures L.Trusted(s.life.store, RootOf(session, r).Child(p)) && s.life.scopes.Keys == s.life.store.records.Keys
    ensures s.life.store.records.Keys == {AgentKey(session, r), AgentKey(session, p)}
    ensures s.life.store.records[AgentKey(session, r)].parent.None?
    ensures s.life.store.records[AgentKey(session, p)].parent == Some(r)
    ensures s.life.scopes[AgentKey(session, p)] == L.Scope(Running, true, None)
    ensures s.life.nodeTypes == map[AgentKey(session, p) := nodeType]
  {
    ReachStart(cfg);
    ReachNext(cfg, Start(cfg), Local(L.Root(session, r)));
    var s0 := Apply(cfg, Start(cfg), Local(L.Root(session, r)));
    assert L.Trusted(s0.life.store, RootOf(session, r));
    s := Spawn(cfg, s0, RootOf(session, r), nodeType, p, None);
  }

  function Slot(session: SessionId, p: AgentId): G.OwnerKey { G.OwnerKey(session, p, 0, None) }

  function GroupOf(session: SessionId, p: AgentId, children: set<AgentId>, results: map<AgentId, ChildResult>): TG.Group
  {
    TG.Group(session, p, None, 0, 0, children, results, TG.Active)
  }

  /** The group side once `p` has group `g` with these children mapped to it. */
  predicate Grouped(s: G.Side, session: SessionId, p: AgentId, g: GroupId, group: TG.Group,
                    mapped: map<AgentKey, GroupId>) {
    s.store == TG.State(map[session := 0], map[g := group]) && s.ownerGroups == map[Slot(session, p) := g]
      && s.childGroups == mapped
  }

  lemma CreateFor(cfg: L.Config, s: System, session: SessionId, p: AgentId, g: GroupId) returns (n: System)
    requires Reach(cfg, s) && s.group == G.Start
    ensures Reach(cfg, n) && n.life == s.life && n.forced == s.forced
    ensures Grouped(n.group.side, session, p, g, GroupOf(session, p, {}, map[]), map[])
  {
    var e := GroupOnly(G.Create(session, p, None, 0, g));
    ReachNext(cfg, s, e);
    n := Apply(cfg, s, e);
    var t := TG.State(map[session := 0], map[]);
    assert TG.Matching(t, session, p, None, 0) == {};
  }

  lemma JoinFor(cfg: L.Config, s: System, session: SessionId, p: AgentId, child: Context, g: GroupId)
    returns (n: System)
    requires Reach(cfg, s) && Grouped(s.group.side, session, p, g, GroupOf(session, p, {}, map[]), map[])
    requires s.life.threads == map[0 := L.Registering(child, g)] && child.session == session && child.parent == Some(p)
    ensures Reach(cfg, n) && n.life == s.life.(threads := map[]) && n.forced == s.forced
    ensures Grouped(n.group.side, session, p, g, GroupOf(session, p, {child.agent}, map[]), map[child.Key() := g])
  {
    var e := Join(0);
    ReachNext(cfg, s, e);
    n := Apply(cfg, s, e);
    assert s.group.side.ownerGroups[Slot(session, p)] == g;
    assert G.Owned(s.group.side, AgentKey(session, p), g);
    assert {} + {child.agent} == {child.agent};
    assert n.life.threads == map[];
  }

  /** The state in which `p` begins to join its only child `c`, which runs a task. */
  predicate Ready(s: System, session: SessionId, r: AgentId, p: AgentId, c: AgentId, g: GroupId) {
    && s.life.threads == map[] && s.forced == {} && s.life.scopes.Keys == s.life.store.records.Keys
    && s.life.store.records.Keys == {AgentKey(session, r), AgentKey(session, p), AgentKey(session, c)}
    && s.life.store.records[AgentKey(session, r)].parent.None?
      && s.life.store.records[AgentKey(session, p)].parent == Some(r)
    && L.Trusted(s.life.store, RootOf(session, r).Child(p).Child(c))
    && s.life.scopes[AgentKey(session, c)] == L.Scope(Running, true, None)
    && Grouped(s.group.side, session, p, g, GroupOf(session, p, {c}, map[]), map[AgentKey(session, c) := g])
  }

  lemma BeginRace(cfg: L.Config, session: SessionId, r: AgentId, p: AgentId, c: AgentId, g: GroupId) returns (s: System)
    requires Room(cfg) && r != p && r != c && p != c
    ensures Reach(cfg, s) && Ready(s, session, r, p, c, g)
  {
    var a := SpawnParent(cfg, session, r, p, L.GENERAL_PURPOSE);
    var b := CreateFor(cfg, a, session, p, g);
    var caller := RootOf(session, r).Child(p);
    assert L.Refusal(cfg, b.life, caller, L.GENERAL_PURPOSE).None?;
    var d := Spawn(cfg, b, caller, L.GENERAL_PURPOSE, c, Some(g));
    s := JoinFor(cfg, d, session, p, caller.Child(c), g);
  }

  /** A finisher runs through: it stores `t` and records it in the group. */
  lemma FinishThrough(cfg: L.Config, s: System, child: Context, t: ChildTerminal) returns (n: System)
    requires Reach(cfg, s) && s.life.threads == map[] && L.Trusted(s.life.store, child) && child.parent.Some?
    requires Unfinished(s.life, child.Key())
    ensures Reach(cfg, n) && n.life.threads == map[] && SameTree(s.life.store, n.life.store) && n.forced == s.forced
    ensures n.life.scopes == s.life.scopes[child.Key() := L.Scope(t.ToStatus(), false, Some(t))]
    ensures n.group.side == G.Record(s.group.side, child.Key(), Sanitize(child.agent, t)).1
  {
    ReachSound(cfg, s);
    FinishStep(cfg, s, child, t);
    ReachNext(cfg, s, Local(L.Finish(0, child, t)));
    var s1 := Apply(cfg, s, Local(L.Finish(0, child, t)));
    var s2 := WriteThrough(cfg, s1, child);
    ReachNext(cfg, s2, RecordStep(0));
    n := Apply(cfg, s2, RecordStep(0));
    assert n.life.threads == map[];
  }

  lemma WriteThrough(cfg: L.Config, s: System, child: Context) returns (n: System)
    requires Reach(cfg, s) && Finishing(s.life, child) && !s.life.threads[0].Summarizing?
    ensures Reach(cfg, n) && Quiet(s.life, n.life) && n.group == s.group && n.forced == s.forced
    ensures Finishing(n.life, child) && n.life.threads[0].Recording?
  {
    n := s;
    if s.life.threads[0].Persisting? {
      ReachSound(cfg, s);
      WriteStep(cfg, s, child, L.StatusWrite(0));
      ReachNext(cfg, s, Local(L.StatusWrite(0)));
      var m := Apply(cfg, s, Local(L.StatusWrite(0)));
      ReachSound(cfg, m);
      WriteStep(cfg, m, child, L.SummaryWrite(0));
      ReachNext(cfg, m, Local(L.SummaryWrite(0)));
      n := Apply(cfg, m, Local(L.SummaryWrite(0)));
    }
  }

  lemma OnlyChild(cfg: L.Config, s: System, session: SessionId, r: AgentId, p: AgentId, c: AgentId, g: GroupId)
    requires Reach(cfg, s) && Ready(s, session, r, p, c, g) && r != p && r != c && p != c
    ensures S.DirectChildren(s.life.store, AgentKey(session, p)) == [c]
  {
    ReachSound(cfg, s);
    SoundHierarchy(cfg, s);
    forall x ensures S.ChildOf(s.life.store, AgentKey(session, x), AgentKey(session, p)) <==> x == c {
    }
    OneListed(s.life.store, AgentKey(session, p), c);
  }

  lemma OneListed(store: S.Store, k: AgentKey, c: AgentId)
    requires S.Forest(store) && forall x :: S.ChildOf(store, AgentKey(k.session, x), k) <==> x == c
    ensures S.DirectChildren(store, k) == [c]
  {
    KidsAreChildren(store, k);
    S.DirectChildrenComplete(store, k);
    SortedUnique(S.DirectChildren(store, k), [c]);
  }

  /** After the finisher the group is complete and its claim delivers what it stored. */
  lemma ClaimAfter(side: G.Side, n: G.Side, session: SessionId, p: AgentId, c: AgentId, g: GroupId, t: ChildTerminal)
    requires Grouped(side, session, p, g, GroupOf(session, p, {c}, map[]), map[AgentKey(session, c) := g])
    requires n == G.Record(side, AgentKey(session, c), Sanitize(c, t)).1
    ensures var d := G.ClaimOwn(n, session, p).0;
            && d.Some? && d.value.group == g && g in n.store.groups && n.store.groups[g].lifecycle == TG.Active
            && n.store.groups[g].children == {c} && d.value.results == [Sanitize(c, t)]
  {
    RecordAfter(side, session, p, c, g, Sanitize(c, t));
    CompleteClaim(n, session, p, c, g, Sanitize(c, t));
  }

  lemma RecordAfter(side: G.Side, session: SessionId, p: AgentId, c: AgentId, g: GroupId, result: ChildResult)
    requires Grouped(side, session, p, g, GroupOf(session, p, {c}, map[]), map[AgentKey(session, c) := g])
    requires result.childId == c
    ensures var n := G.Record(side, AgentKey(session, c), result).1;
            Grouped(n, session, p, g, GroupOf(session, p, {c}, map[c := result]), map[])
  {
    var n := G.Record(side, AgentKey(session, c), result).1;
    var empty: map<AgentId, ChildResult> := map[];
    assert empty[c := result] == map[c := result];
    assert n.store.groups == map[g := GroupOf(session, p, {c}, map[c := result])];
    assert n.childGroups == map[];
  }

  lemma CompleteClaim(n: G.Side, session: SessionId, p: AgentId, c: AgentId, g: GroupId, result: ChildResult)
    requires Grouped(n, session, p, g, GroupOf(session, p, {c}, map[c := result]), map[])
    ensures var d := G.ClaimOwn(n, session, p).0; d.Some? && d.value.group == g && d.value.results == [result]
  {
    var done := GroupOf(session, p, {c}, map[c := result]);
    assert |done.results| == 1 && |done.children| == 1;
    assert g in TG.ReadyGroups(n.store, session, Some(p), 0);
    OneSorted(c);
    assert done.results.Keys == {c} && TG.DeliveryOf(g, done).results == [result];
  }

  lemma OneSorted(c: AgentId)
    ensures Sorted({c}) == [c]
  {
    assert |Sorted({c})| == 1 && Sorted({c})[0] in Sorted({c});
  }

  /** For any two outcomes a parent can tell apart there is a run and a way to join in it
      such that the claimed delivery of an open, unforced group differs from the joined list
      filtered to its members: `begin` is the state in which the join begins, `end` the
      state in which it ends, and both are reached by runs. */
  lemma DeliveryCanDiffer(cfg: L.Config, session: SessionId, r: AgentId, p: AgentId, c: AgentId, g: GroupId,
                          stored: ChildTerminal, reported: ChildTerminal) returns (begin: System, end: System)
    requires Room(cfg) && r != p && r != c && p != c && Sanitize(c, stored) != Sanitize(c, reported)
    ensures Reach(cfg, begin) && Reach(cfg, end)
    ensures S.DirectChildren(begin.life.store, AgentKey(session, p)) == [c]
    ensures J.JoinOutcome(session, [c], begin.life.scopes, {AgentKey(session, c)}, map[c := reported], end.life.scopes)
    ensures var d := G.ClaimOwn(end.group.side, session, p).0;
            && d.Some? && R.OpenUnforced(end, d.value.group)
            && var members := end.group.side.store.groups[d.value.group].children;
               d.value.results != R.OnlyMembers(R.JoinList([c], map[c := reported]), members)
  {
    begin := BeginRace(cfg, session, r, p, c, g);
    OnlyChild(cfg, begin, session, r, p, c, g);
    end := FinishThrough(cfg, begin, RootOf(session, r).Child(p).Child(c), stored);
    OneRaced(session, c, begin.life.scopes, end.life.scopes, stored, reported);
    ClaimAfter(begin.group.side, end.group.side, session, p, c, g, stored);
    JoinedOne(c, reported);
  }

  lemma OneRaced(session: SessionId, c: AgentId, before: L.Scopes, after: L.Scopes, stored: ChildTerminal,
                 reported: ChildTerminal)
    requires AgentKey(session, c) in before && !before[AgentKey(session, c)].status.Terminal()
    requires after == before[AgentKey(session, c) := L.Scope(stored.ToStatus(), false, Some(stored))]
    ensures J.JoinOutcome(session, [c], before, {AgentKey(session, c)}, map[c := reported], after)
  {
    J.RaceHappens(before[AgentKey(session, c)], stored, reported);
    assert J.AwaitedAt(session, c, before, {AgentKey(session, c)}, reported, after);
  }

  lemma JoinedOne(c: AgentId, t: ChildTerminal)
    ensures R.OnlyMembers(R.JoinList([c], map[c := t]), {c}) == [Sanitize(c, t)]
  {
    var list := R.JoinList([c], map[c := t]);
    assert list == [Sanitize(c, t)] && list[1..] == [];
  }
}
