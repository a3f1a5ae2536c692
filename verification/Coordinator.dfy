/** The whole coordinator: scope side and group side together, stepped one critical
    section at a time by any number of concurrent calls. */
module Coordinator {
  import opened Ids
  import opened Agents
  import L = Lifecycle
  import G = GroupProtocol
  import S = AgentStore
  import TG = TaskGroups

  /** `forced` remembers the results recorded by `force_record_child_result`, which
      takes the caller's word for the outcome. */
  datatype System = System(life: L.Life, group: G.Protocol, forced: set<(GroupId, AgentId)>)

  datatype Event =
    | Local(move: L.Move)
    | GroupOnly(op: G.Event)
    | Join(tid: nat)
    | RecordStep(tid: nat)
    | ForceRecord(child: Context, terminal: ChildTerminal)

  function Start(cfg: L.Config): System {
    System(L.Life(cfg.maxConcurrent, map[], S.Empty, map[], map[]), G.Start, {})
  }

  function Registration(t: L.Thread): G.Event
    requires t.Registering? && t.child.parent.Some?
  {
    G.Registration(AgentKey(t.child.session, t.child.parent.value), t.child.Key(), t.group)
  }

  function Recording(child: Context, terminal: ChildTerminal): G.Event {
    G.Recording(child.Key(), Sanitize(child.agent, terminal))
  }

  /** The generation a new child is stamped with is read under the same lock. */
  predicate Enabled(s: System, e: Event) {
    match e
    case Local(m) =>
      && L.Enabled(s.life, m) && !m.Joining? && !m.RecordDone?
      && (m.Insertion? ==>
            m.generation == TG.CurrentGeneration(s.group.side.store, s.life.threads[m.tid].caller.session))
    case GroupOnly(op) => G.Enabled(s.group, op) && !op.Registration? && !op.Recording?
    case Join(tid) => tid in s.life.threads && s.life.threads[tid].Registering?
      && s.life.threads[tid].child.parent.Some?
    case RecordStep(tid) => tid in s.life.threads && s.life.threads[tid].Recording?
    case ForceRecord(child, _) => L.Trusted(s.life.store, child)
  }

  function Apply(cfg: L.Config, s: System, e: Event): System
    requires Enabled(s, e)
  {
    match e
    case Local(m) => s.(life := L.Do(cfg, s.life, m))
    case GroupOnly(op) => s.(group := G.Step(s.group, op))
    case Join(tid) =>
      var op := Registration(s.life.threads[tid]);
      var ok := G.Register(s.group.side, op.caller, op.child, op.group).0.Ok?;
      s.(life := L.Joined(s.life, tid, ok), group := G.Step(s.group, op))
    case RecordStep(tid) =>
      var t := s.life.threads[tid];
      s.(life := L.Recorded(s.life, tid), group := G.Step(s.group, Recording(t.child, t.terminal)))
    case ForceRecord(child, terminal) =>
      var k := child.Key();
      System(s.life.(nodeTypes := s.life.nodeTypes - {k}), G.Step(s.group, Recording(child, terminal)),
             if k in s.group.side.childGroups then s.forced + {(s.group.side.childGroups[k], child.agent)}
               else s.forced)
  }

  // ------------------------------------------------------------------ invariant

  /** The members of a group are direct children of its owner. */
  ghost predicate Membership(s: System) {
    forall g, c :: g in s.group.side.store.groups && c in s.group.side.store.groups[g].children
      ==> MemberOf(s.life.store, s.group.side.store.groups[g], c)
  }

  predicate MemberOf(store: S.Store, g: TG.Group, c: AgentId) {
    S.ChildOf(store, AgentKey(g.session, c), AgentKey(g.session, g.owner))
  }

  predicate Joins(threads: map<nat, L.Thread>, t: nat) { t in threads && threads[t].Registering? }

  /** A child is mapped only after it has joined, and joins once. */
  ghost predicate Joining(s: System) {
    && (forall k :: k in s.group.side.childGroups ==> k in s.life.scopes)
    && (forall t :: Joins(s.life.threads, t) ==> s.life.threads[t].child.Key() !in s.group.side.childGroups)
    && DistinctJoins(s.life.threads)
  }

  ghost predicate DistinctJoins(threads: map<nat, L.Thread>) {
    forall t, u :: Joins(threads, t) && Joins(threads, u) && threads[t].child.Key() == threads[u].child.Key() ==> t == u
  }

  /** Where a recorded result comes from: a finisher recorded the child's stored
      terminal, the sweep timed it out, or it was forced. */
  predicate Explained(scopes: map<AgentKey, L.Scope>, forced: set<(GroupId, AgentId)>, id: GroupId, g: TG.Group,
                      c: AgentId)
    requires c in g.results
  {
    var k := AgentKey(g.session, c);
    || (id, c) in forced
    || (k in scopes && scopes[k].terminal.Some? && g.results[c] == Sanitize(c, scopes[k].terminal.value))
    || (g.lifecycle == TG.Expired && g.results[c] == TG.Timeout(c))
  }

  ghost predicate Provenance(s: System) {
    forall g, c :: g in s.group.side.store.groups && c in s.group.side.store.groups[g].results
      ==> Explained(s.life.scopes, s.forced, g, s.group.side.store.groups[g], c)
  }

  ghost predicate Inv(cfg: L.Config, s: System) {
    L.Inv(cfg, s.life) && G.Inv(s.group) && Membership(s) && Joining(s) && Provenance(s)
  }

  // ------------------------------------------------------------- scope-side steps

  /** Records and stored terminals only accumulate. */
  ghost predicate Grows(l: L.Life, n: L.Life) {
    && (forall k :: k in l.store.records ==>
          k in n.store.records && n.store.records[k].parent == l.store.records[k].parent)
    && (forall k :: k in l.scopes ==> k in n.scopes)
    && (forall k :: k in l.scopes && l.scopes[k].terminal.Some? ==> n.scopes[k].terminal == l.scopes[k].terminal)
  }

  lemma RecordStays(cfg: L.Config, l: L.Life, m: L.Move, k: AgentKey)
    requires L.Enabled(l, m) && k in l.store.records
    ensures var n := L.Do(cfg, l, m);
            && k in n.store.records && n.store.records[k].parent == l.store.records[k].parent
            && (k in l.scopes ==> k in n.scopes)
  {
    match m
    case Root(_, _) =>
    case Insertion(_, _, _, _) =>
    case Finish(_, _, _) =>
    case StatusWrite(_) =>
    case SummaryWrite(_) =>
    case CancelMark(_) =>
    case Transit(_, _, _) =>
    case Awaiting(_) =>
    case Finalize(_) =>
    case _ =>
  }

  lemma MovesGrow(cfg: L.Config, l: L.Life, m: L.Move)
    requires L.Coherent(l) && L.Enabled(l, m)
    ensures Grows(l, L.Do(cfg, l, m))
  {
    var n := L.Do(cfg, l, m);
    forall k | k in l.store.records
      ensures k in n.store.records && n.store.records[k].parent == l.store.records[k].parent && k in n.scopes
    {
      RecordStays(cfg, l, m, k);
    }
    forall k | k in l.scopes && l.scopes[k].terminal.Some? ensures n.scopes[k].terminal == l.scopes[k].terminal {
      assert L.ScopeOk(l, k);
      L.TerminalIsAbsorbing(cfg, l, m, k);
    }
  }

  /** Only a fresh reservation starts joining. */
  lemma NewJoin(cfg: L.Config, l: L.Life, m: L.Move, t: nat)
    requires L.Enabled(l, m) && Joins(L.Do(cfg, l, m).threads, t)
    ensures Joins(l.threads, t) ==> L.Do(cfg, l, m).threads[t] == l.threads[t]
    ensures !Joins(l.threads, t) ==> L.Do(cfg, l, m).threads[t].child.Key() !in l.store.records
                                     && m.Insertion? && t == m.tid
  {
    if Reserves(m) { ReservingJoin(cfg, l, m, t); } else { NoNewJoin(cfg, l, m, t); }
  }

  predicate Reserves(m: L.Move) { m.Admission? || m.Acquisition? || m.Insertion? || m.Joining? }

  lemma ReservingJoin(cfg: L.Config, l: L.Life, m: L.Move, t: nat)
    requires Reserves(m) && L.Enabled(l, m) && Joins(L.Do(cfg, l, m).threads, t)
    ensures Joins(l.threads, t) ==> L.Do(cfg, l, m).threads[t] == l.threads[t]
    ensures !Joins(l.threads, t) ==> L.Do(cfg, l, m).threads[t].child.Key() !in l.store.records
                                     && m.Insertion? && t == m.tid
  {
  }

  lemma NoNewJoin(cfg: L.Config, l: L.Life, m: L.Move, t: nat)
    requires !Reserves(m) && L.Enabled(l, m) && Joins(L.Do(cfg, l, m).threads, t)
    ensures Joins(l.threads, t) && L.Do(cfg, l, m).threads[t] == l.threads[t]
  {
  }

  lemma LocalKeepsJoining(cfg: L.Config, s: System, m: L.Move)
    requires L.Coherent(s.life) && Joining(s) && L.Enabled(s.life, m) && Grows(s.life, L.Do(cfg, s.life, m))
    ensures Joining(s.(life := L.Do(cfg, s.life, m)))
  {
    var l, n := s.life, L.Do(cfg, s.life, m);
    forall t | Joins(n.threads, t) ensures n.threads[t].child.Key() !in s.group.side.childGroups {
      NewJoin(cfg, l, m, t);
    }
    forall t, u | Joins(n.threads, t) && Joins(n.threads, u) && n.threads[t].child.Key() == n.threads[u].child.Key()
      ensures t == u
    {
      NewJoin(cfg, l, m, t);
      NewJoin(cfg, l, m, u);
      if Joins(l.threads, t) { assert L.ThreadOk(l, l.threads[t]); }
      if Joins(l.threads, u) { assert L.ThreadOk(l, l.threads[u]); }
    }
  }

  lemma LocalKeepsInv(cfg: L.Config, s: System, m: L.Move)
    requires Inv(cfg, s) && Enabled(s, Local(m))
    ensures Inv(cfg, Apply(cfg, s, Local(m)))
  {
    L.MoveKeepsInv(cfg, s.life, m);
    MovesGrow(cfg, s.life, m);
    LocalKeepsJoining(cfg, s, m);
    GrowthKeepsGroups(s, L.Do(cfg, s.life, m));
  }

  lemma GrowthKeepsGroups(s: System, n: L.Life)
    requires Membership(s) && Provenance(s) && Grows(s.life, n)
    ensures Membership(s.(life := n)) && Provenance(s.(life := n))
  {
    forall g, c | g in s.group.side.store.groups && c in s.group.side.store.groups[g].children
      ensures MemberOf(n.store, s.group.side.store.groups[g], c)
    {
      assert MemberOf(s.life.store, s.group.side.store.groups[g], c);
    }
    forall g, c | g in s.group.side.store.groups && c in s.group.side.store.groups[g].results
      ensures Explained(n.scopes, s.forced, g, s.group.side.store.groups[g], c)
    {
      assert Explained(s.life.scopes, s.forced, g, s.group.side.store.groups[g], c);
    }
  }

  // ------------------------------------------------------------- group-side steps

  /** What an operation other than joining and recording may leave of a group: the
      members it had, its results, and timeouts once it has expired. */
  ghost predicate Derived(prior: map<GroupId, TG.Group>, id: GroupId, g: TG.Group) {
    || (g.children == {} && g.results == map[])
    || (&& id in prior && g.session == prior[id].session && g.owner == prior[id].owner
        && g.children == prior[id].children
        && (prior[id].lifecycle == TG.Expired ==> g.lifecycle == TG.Expired)
        && forall c :: c in g.results ==> (c in prior[id].results && g.results[c] == prior[id].results[c])
                                          || (g.lifecycle == TG.Expired && g.results[c] == TG.Timeout(c)))
  }

  lemma GroupOpDerives(s: G.Side, op: G.Event, id: GroupId)
    requires G.IndexInv(s) && !op.Registration? && !op.Recording? && id in G.Next(s, op).store.groups
    ensures Derived(s.store.groups, id, G.Next(s, op).store.groups[id])
  {
    match op
    case Create(session, owner, turn, deadline, newId) =>
      if G.OwnerKey(session, owner, TG.CurrentGeneration(s.store, session), turn) !in s.ownerGroups {
        G.CreateIsFresh(s, session, owner, turn, deadline, newId);
      }
    case RootClaim(session, owner, generation, now) => SweepDerives(s.store, now, id);
    case OwnClaim(session, owner) =>
    case AdvanceTo(session) =>
    case Cancel(session, generation) =>
  }

  lemma SweepDerives(s: TG.State, now: int, id: GroupId)
    ensures id in TG.ExpireDue(s, now).groups ==> Derived(s.groups, id, TG.ExpireDue(s, now).groups[id])
  {
  }

  lemma GroupOpMappings(s: G.Side, op: G.Event, k: AgentKey)
    requires !op.Registration? && !op.Recording? && k in G.Next(s, op).childGroups
    ensures k in s.childGroups
  {
  }

  lemma GroupOnlyKeepsInv(cfg: L.Config, s: System, op: G.Event)
    requires Inv(cfg, s) && Enabled(s, GroupOnly(op))
    ensures Inv(cfg, Apply(cfg, s, GroupOnly(op)))
  {
    G.StepKeepsInv(s.group, op);
    var n := Apply(cfg, s, GroupOnly(op));
    var groups := n.group.side.store.groups;
    forall g, c | g in groups && c in groups[g].children ensures MemberOf(n.life.store, groups[g], c) {
      GroupOpDerives(s.group.side, op, g);
      assert MemberOf(s.life.store, s.group.side.store.groups[g], c);
    }
    forall g, c | g in groups && c in groups[g].results ensures Explained(n.life.scopes, n.forced, g, groups[g], c) {
      GroupOpDerives(s.group.side, op, g);
      if c in s.group.side.store.groups[g].results {
        assert Explained(s.life.scopes, s.forced, g, s.group.side.store.groups[g], c);
      }
    }
    forall k | k in n.group.side.childGroups
      ensures k in s.group.side.childGroups
    {
      GroupOpMappings(s.group.side, op, k);
    }
  }

  /** An accepted child: the group gains a member, nothing else changes in any group. */
  lemma AcceptedKeepsGroups(s: System, n: System, child: AgentKey, group: GroupId)
    requires Membership(s) && Provenance(s) && group in s.group.side.store.groups
    requires n.life.store == s.life.store && n.life.scopes == s.life.scopes && n.forced == s.forced
    requires var g := s.group.side.store.groups[group];
             && g.session == child.session && S.ChildOf(s.life.store, child, AgentKey(g.session, g.owner))
             && n.group.side.store.groups ==
               s.group.side.store.groups[group := g.(children := g.children + {child.agent})]
    ensures Membership(n) && Provenance(n)
  {
    var groups := n.group.side.store.groups;
    forall g, c | g in groups && c in groups[g].children ensures MemberOf(n.life.store, groups[g], c) {
      if c in s.group.side.store.groups[g].children {
        assert MemberOf(s.life.store, s.group.side.store.groups[g], c);
      }
    }
    forall g, c | g in groups && c in groups[g].results ensures Explained(n.life.scopes, n.forced, g, groups[g], c) {
      assert Explained(s.life.scopes, s.forced, g, s.group.side.store.groups[g], c);
    }
  }

  lemma JoinKeepsJoining(s: System, n: System, tid: nat)
    requires Joining(s) && Joins(s.life.threads, tid) && n.life.scopes == s.life.scopes
    requires s.life.threads[tid].child.Key() in s.life.scopes
    requires n.life.threads == s.life.threads - {tid}
    requires n.group.side.childGroups.Keys == s.group.side.childGroups.Keys + {s.life.threads[tid].child.Key()}
    ensures Joining(n)
  {
    forall t | Joins(n.life.threads, t) ensures n.life.threads[t].child.Key() !in n.group.side.childGroups {
      assert Joins(s.life.threads, t);
    }
    forall t, u | Joins(n.life.threads, t) && Joins(n.life.threads, u)
      && n.life.threads[t].child.Key() == n.life.threads[u].child.Key()
      ensures t == u
    {
      assert Joins(s.life.threads, t) && Joins(s.life.threads, u);
    }
  }

  lemma RefusedKeepsJoining(s: System, n: System, tid: nat)
    requires Joining(s) && Joins(s.life.threads, tid) && n.life.scopes == s.life.scopes
    requires n.group.side.childGroups == s.group.side.childGroups
    requires n.life.threads == s.life.threads[tid := L.Unwinding(s.life.threads[tid].child)]
    ensures Joining(n)
  {
    forall t | Joins(n.life.threads, t) ensures n.life.threads[t].child.Key() !in n.group.side.childGroups {
      assert Joins(s.life.threads, t);
    }
    forall t, u | Joins(n.life.threads, t) && Joins(n.life.threads, u)
      && n.life.threads[t].child.Key() == n.life.threads[u].child.Key()
      ensures t == u
    {
      assert Joins(s.life.threads, t) && Joins(s.life.threads, u);
    }
  }

  lemma JoinKeepsCross(s: System, n: System, tid: nat)
    requires G.Inv(s.group) && L.Hierarchy(s.life) && Membership(s) && Joining(s) && Provenance(s)
    requires Enabled(s, Join(tid)) && L.ThreadOk(s.life, s.life.threads[tid])
    requires var op := Registration(s.life.threads[tid]);
             n == System(L.Joined(s.life, tid, G.Register(s.group.side, op.caller, op.child, op.group).0.Ok?),
                         G.Step(s.group, op), s.forced)
    ensures Membership(n) && Joining(n) && Provenance(n)
  {
    var op := Registration(s.life.threads[tid]);
    var (r, side) := G.Register(s.group.side, op.caller, op.child, op.group);
    assert Joins(s.life.threads, tid) && n.group.side == side;
    if r.Ok? {
      G.RegisterJoins(s.group.side, op.caller, op.child, op.group);
      AcceptedKeepsGroups(s, n, op.child, op.group);
      JoinKeepsJoining(s, n, tid);
    } else {
      RefusedKeepsJoining(s, n, tid);
    }
  }

  lemma JoinKeepsInv(cfg: L.Config, s: System, tid: nat)
    requires Inv(cfg, s) && Enabled(s, Join(tid))
    ensures Inv(cfg, Apply(cfg, s, Join(tid)))
  {
    var op := Registration(s.life.threads[tid]);
    assert L.ThreadOk(s.life, s.life.threads[tid]) && Joins(s.life.threads, tid);
    var ok := G.Register(s.group.side, op.caller, op.child, op.group).0.Ok?;
    L.MoveKeepsInv(cfg, s.life, L.Joining(tid, ok));
    G.StepKeepsInv(s.group, op);
    JoinKeepsCross(s, Apply(cfg, s, Join(tid)), tid);
  }

  /** What a recording changes: it unmaps the child and adds at most its result. */
  ghost predicate OneResult(s: G.Side, t: G.Side, child: Context, result: ChildResult) {
    && t.childGroups.Keys <= s.childGroups.Keys
    && t.store.groups.Keys == s.store.groups.Keys
    && (forall g :: g in t.store.groups ==>
          var a, b := s.store.groups[g], t.store.groups[g];
          || b == a
          || (&& child.Key() in s.childGroups && s.childGroups[child.Key()] == g && a.session == child.session
              && b == a.(results := a.results[child.agent := result])))
  }

  lemma RecordingChanges(s: G.Side, child: Context, result: ChildResult)
    requires G.IndexInv(s) && result.childId == child.agent
    ensures OneResult(s, G.Record(s, child.Key(), result).1, child, result)
  {
    if child.Key() in s.childGroups { G.RecordOutcome(s, child.Key(), result); }
  }

  lemma RecordingKeepsGroups(s: System, n: System, child: Context, terminal: ChildTerminal)
    requires Membership(s) && Provenance(s)
    requires OneResult(s.group.side, n.group.side, child, Sanitize(child.agent, terminal))
    requires n.life.store == s.life.store && n.life.scopes == s.life.scopes && s.forced <= n.forced
    requires child.Key() in s.group.side.childGroups ==>
               (s.group.side.childGroups[child.Key()], child.agent) in n.forced || L.Carries(s.life, child, terminal)
    ensures Membership(n) && Provenance(n)
  {
    var groups := n.group.side.store.groups;
    forall g, c | g in groups && c in groups[g].children ensures MemberOf(n.life.store, groups[g], c) {
      assert MemberOf(s.life.store, s.group.side.store.groups[g], c);
    }
    forall g, c | g in groups && c in groups[g].results ensures Explained(n.life.scopes, n.forced, g, groups[g], c) {
      if c in s.group.side.store.groups[g].results {
        assert Explained(s.life.scopes, s.forced, g, s.group.side.store.groups[g], c);
      }
    }
  }

  lemma FewerJoins(s: System, n: System)
    requires Joining(s) && n.life.scopes == s.life.scopes
    requires n.group.side.childGroups.Keys <= s.group.side.childGroups.Keys
    requires forall t :: Joins(n.life.threads, t) ==> Joins(s.life.threads, t) && n.life.threads[t] == s.life.threads[t]
    ensures Joining(n)
  {
    forall t, u | Joins(n.life.threads, t) && Joins(n.life.threads, u)
      && n.life.threads[t].child.Key() == n.life.threads[u].child.Key()
      ensures t == u
    {
      assert Joins(s.life.threads, t) && Joins(s.life.threads, u);
    }
  }

  /** A recorded result is explained by `forced` or by the child's stored terminal. */
  lemma RecordingKeepsCross(s: System, n: System, child: Context, terminal: ChildTerminal)
    requires G.Inv(s.group) && Membership(s) && Joining(s) && Provenance(s)
    requires n.group.side == G.Record(s.group.side, child.Key(), Sanitize(child.agent, terminal)).1
    requires n.life.store == s.life.store && n.life.scopes == s.life.scopes && s.forced <= n.forced
    requires forall t :: Joins(n.life.threads, t) ==> Joins(s.life.threads, t) && n.life.threads[t] == s.life.threads[t]
    requires child.Key() in s.group.side.childGroups ==>
               (s.group.side.childGroups[child.Key()], child.agent) in n.forced || L.Carries(s.life, child, terminal)
    ensures Membership(n) && Joining(n) && Provenance(n)
  {
    RecordingChanges(s.group.side, child, Sanitize(child.agent, terminal));
    RecordingKeepsGroups(s, n, child, terminal);
    FewerJoins(s, n);
  }

  lemma RecordStepKeepsInv(cfg: L.Config, s: System, tid: nat)
    requires Inv(cfg, s) && Enabled(s, RecordStep(tid))
    ensures Inv(cfg, Apply(cfg, s, RecordStep(tid)))
  {
    var t := s.life.threads[tid];
    assert L.ThreadOk(s.life, t);
    L.MoveKeepsInv(cfg, s.life, L.RecordDone(tid));
    G.StepKeepsInv(s.group, Recording(t.child, t.terminal));
    RecordingKeepsCross(s, Apply(cfg, s, RecordStep(tid)), t.child, t.terminal);
  }

  lemma ForceKeepsInv(cfg: L.Config, s: System, child: Context, terminal: ChildTerminal)
    requires Inv(cfg, s) && Enabled(s, ForceRecord(child, terminal))
    ensures Inv(cfg, Apply(cfg, s, ForceRecord(child, terminal)))
  {
    var n := Apply(cfg, s, ForceRecord(child, terminal));
    G.StepKeepsInv(s.group, Recording(child, terminal));
    RecordingKeepsCross(s, n, child, terminal);
    L.ThreadsKeepCoherent(s.life, n.life);
  }

  // ------------------------------------------------------------------ whole runs

  lemma StepKeepsInv(cfg: L.Config, s: System, e: Event)
    requires Inv(cfg, s) && Enabled(s, e)
    ensures Inv(cfg, Apply(cfg, s, e))
  {
    match e
    case Local(m) => LocalKeepsInv(cfg, s, m);
    case GroupOnly(op) => GroupOnlyKeepsInv(cfg, s, op);
    case Join(tid) => JoinKeepsInv(cfg, s, tid);
    case RecordStep(tid) => RecordStepKeepsInv(cfg, s, tid);
    case ForceRecord(child, terminal) => ForceKeepsInv(cfg, s, child, terminal);
  }

  /** A run: any interleaving of critical sections. */
  predicate Feasible(cfg: L.Config, s: System, run: seq<Event>)
    decreases |run|
  {
    run == [] || (Enabled(s, run[0]) && Feasible(cfg, Apply(cfg, s, run[0]), run[1..]))
  }

  function Run(cfg: L.Config, s: System, run: seq<Event>): System
    requires Feasible(cfg, s, run)
    decreases |run|
  {
    if run == [] then s else Run(cfg, Apply(cfg, s, run[0]), run[1..])
  }

  lemma StartInv(cfg: L.Config)
    ensures Inv(cfg, Start(cfg))
  {
    assert L.Holders(map[]) == {} && L.InFlight(map[]) == {};
  }

  lemma {:induction false} RunKeepsInv(cfg: L.Config, s: System, run: seq<Event>)
    requires Inv(cfg, s) && Feasible(cfg, s, run)
    ensures Inv(cfg, Run(cfg, s, run))
    decreases |run|
  {
    if run != [] {
      StepKeepsInv(cfg, s, run[0]);
      RunKeepsInv(cfg, Apply(cfg, s, run[0]), run[1..]);
    }
  }

  /** Every state any interleaving reaches from the start satisfies the invariant. */
  lemma ReachableInv(cfg: L.Config, run: seq<Event>)
    requires Feasible(cfg, Start(cfg), run)
    ensures Inv(cfg, Run(cfg, Start(cfg), run))
  {
    StartInv(cfg);
    RunKeepsInv(cfg, Start(cfg), run);
  }
}
