/** What holds of the coordinator over whole runs, for every interleaving. */
module CoordinatorRuns {
  import opened Ids
  import opened Agents
  import opened Coordinator
  import L = Lifecycle
  import G = GroupProtocol
  import S = AgentStore
  import TG = TaskGroups

  // ---------------------------------------------------------- first terminal wins

  /** Whatever happens next, a stored terminal stays. */
  lemma {:induction false} FirstTerminalWins(cfg: L.Config, s: System, run: seq<Event>, k: AgentKey)
    requires Inv(cfg, s) && Feasible(cfg, s, run)
    requires k in s.life.scopes && s.life.scopes[k].terminal.Some?
    ensures k in Run(cfg, s, run).life.scopes && Run(cfg, s, run).life.scopes[k].terminal == s.life.scopes[k].terminal
    decreases |run|
  {
    if run != [] {
      var n := Apply(cfg, s, run[0]);
      StepKeepsInv(cfg, s, run[0]);
      StepKeepsTerminal(cfg, s, run[0], k);
      FirstTerminalWins(cfg, n, run[1..], k);
    }
  }

  lemma StepKeepsTerminal(cfg: L.Config, s: System, e: Event, k: AgentKey)
    requires Inv(cfg, s) && Enabled(s, e) && k in s.life.scopes && s.life.scopes[k].terminal.Some?
    ensures var n := Apply(cfg, s, e); k in n.life.scopes && n.life.scopes[k] == s.life.scopes[k]
  {
    assert L.ScopeOk(s.life, k);
    if e.Local? { L.TerminalIsAbsorbing(cfg, s.life, e.move, k); }
  }

  /** Once no finisher of a finished child is still writing, the store shows exactly
      the terminal that won; and every finisher still on its way to the group carries
      that terminal, so that is what it records. */
  lemma StoreSettlesOnWinner(cfg: L.Config, s: System, k: AgentKey)
    requires Inv(cfg, s) && k in s.life.scopes && s.life.scopes[k].terminal.Some?
    ensures k in s.life.store.records
    ensures L.NoWriter(s.life, k) ==> s.life.store.records[k].status == s.life.scopes[k].terminal.value.ToStatus()
                                      && s.life.store.records[k].summary == L.SummaryOf(s.life.scopes[k].terminal.value)
    ensures forall t :: t in s.life.threads && s.life.threads[t].Recording? && s.life.threads[t].child.Key() == k
              ==> s.life.threads[t].terminal == s.life.scopes[k].terminal.value
  {
    assert L.ScopeOk(s.life, k) && L.RecordOk(s.life, k);
    forall t | t in s.life.threads && s.life.threads[t].Recording? && s.life.threads[t].child.Key() == k
      ensures s.life.threads[t].terminal == s.life.scopes[k].terminal.value
    {
      assert L.ThreadOk(s.life, s.life.threads[t]);
    }
  }

  /** Every store the coordinator builds is a forest with an exact child index, and
      every agent in it has a scope. */
  lemma ForestOverRuns(cfg: L.Config, run: seq<Event>)
    requires Feasible(cfg, Start(cfg), run)
    ensures var l := Run(cfg, Start(cfg), run).life; S.Forest(l.store) && l.scopes.Keys == l.store.records.Keys
  {
    ReachableInv(cfg, run);
  }

  // --------------------------------------------------------------------- permits

  /** In every reachable state no permit is lost or invented, and a scope holds one
      exactly while it is a non-root scope that has not finished. */
  lemma PermitsOverRuns(cfg: L.Config, run: seq<Event>)
    requires Feasible(cfg, Start(cfg), run)
    ensures var l := Run(cfg, Start(cfg), run).life;
            && l.available + |L.Holders(l.scopes)| + |L.InFlight(l.threads)| == cfg.maxConcurrent
            && l.scopes.Keys == l.store.records.Keys
            && forall k :: k in l.scopes ==>
                 (k in L.Holders(l.scopes) <==> l.store.records[k].parent.Some? && !l.scopes[k].status.Terminal())
  {
    ReachableInv(cfg, run);
    var l := Run(cfg, Start(cfg), run).life;
    forall k | k in l.scopes
      ensures k in L.Holders(l.scopes) <==> l.store.records[k].parent.Some? && !l.scopes[k].status.Terminal()
    {
      assert L.ScopeOk(l, k);
    }
  }

  // ------------------------------------------------- conservation of registrations

  /** In every reachable state each registration ever made has exactly one fate. */
  lemma RegistrationsOverRuns(cfg: L.Config, run: seq<Event>, g: GroupId, c: AgentId)
    requires Feasible(cfg, Start(cfg), run)
    requires G.Registered(Run(cfg, Start(cfg), run).group.ledger, g, c)
    ensures var p := Run(cfg, Start(cfg), run).group;
            var stored, dropped := G.StillStored(p.side, g, c), g in p.ledger.dropped;
            var delivered := exists i :: G.DeliveredIn(p.ledger, i, g, c);
            && (stored || dropped || delivered)
            && !(stored && dropped) && !(stored && delivered) && !(dropped && delivered)
            && forall i, j :: G.DeliveredIn(p.ledger, i, g, c) && G.DeliveredIn(p.ledger, j, g, c) ==> i == j
  {
    ReachableInv(cfg, run);
    G.ExactlyOneFate(Run(cfg, Start(cfg), run).group, g, c);
  }

  /** In every reachable state every delivery ever made holds exactly one result for each
      registered child of its group, strictly sorted by child id. */
  lemma DeliveriesOverRuns(cfg: L.Config, run: seq<Event>, i: nat)
    requires Feasible(cfg, Start(cfg), run) && i < |Run(cfg, Start(cfg), run).group.ledger.deliveries|
    ensures var l := Run(cfg, Start(cfg), run).group.ledger;
            var d := l.deliveries[i];
            d.group in l.members && TG.ChildIds(d) == Sorted(l.members[d.group]) && StrictlySorted(TG.ChildIds(d))
  {
    ReachableInv(cfg, run);
    var l := Run(cfg, Start(cfg), run).group.ledger;
    assert l.deliveries[i] in l.deliveries;
  }

  /** Neither a registration nor a delivery is ever forgotten. */
  lemma {:induction false} LedgerGrows(cfg: L.Config, s: System, run: seq<Event>, g: GroupId, c: AgentId)
    requires Feasible(cfg, s, run)
    ensures s.group.ledger.deliveries <= Run(cfg, s, run).group.ledger.deliveries
    ensures G.Registered(s.group.ledger, g, c) ==> G.Registered(Run(cfg, s, run).group.ledger, g, c)
    decreases |run|
  {
    if run != [] {
      StepGrowsLedger(cfg, s, run[0], g, c);
      LedgerGrows(cfg, Apply(cfg, s, run[0]), run[1..], g, c);
    }
  }

  lemma StepGrowsLedger(cfg: L.Config, s: System, e: Event, g: GroupId, c: AgentId)
    requires Enabled(s, e)
    ensures var n := Apply(cfg, s, e).group.ledger;
            && s.group.ledger.deliveries <= n.deliveries
            && (G.Registered(s.group.ledger, g, c) ==> G.Registered(n, g, c))
  {
    var op := match e
      case Local(_) => G.AdvanceTo("")
      case GroupOnly(op) => op
      case Join(tid) => Registration(s.life.threads[tid])
      case RecordStep(tid) => Recording(s.life.threads[tid].child, s.life.threads[tid].terminal)
      case ForceRecord(child, terminal) => Recording(child, terminal);
    G.ObserveGrows(s.group.ledger, s.group.side, op, g, c);
  }

  // ------------------------------------------------------ outstanding-work index

  /** In every reachable state: the children mapped to an open group are exactly those
      it is still waiting for, and every stored group is in the owner index. */
  lemma OutstandingOverRuns(cfg: L.Config, run: seq<Event>, g: GroupId, c: AgentId)
    requires Feasible(cfg, Start(cfg), run)
    requires g in Run(cfg, Start(cfg), run).group.side.store.groups
    ensures var s := Run(cfg, Start(cfg), run).group.side;
            var group := s.store.groups[g];
            && (group.lifecycle == TG.Active ==> (G.Waiting(s, g, c) <==> c in group.children && c !in group.results))
            && G.SlotKey(group) in s.ownerGroups && s.ownerGroups[G.SlotKey(group)] == g
            && group.generation == TG.CurrentGeneration(s.store, group.session)
  {
    ReachableInv(cfg, run);
  }

  // ----------------------------------------------- group delivery versus plain join

  /** `join_children`: the sanitized terminal observed for each direct child, by id. */
  function JoinList(ids: seq<AgentId>, observed: map<AgentId, ChildTerminal>): (r: seq<ChildResult>)
    requires forall c :: c in ids ==> c in observed
    ensures |r| == |ids| && forall i :: 0 <= i < |ids| ==> r[i] == Sanitize(ids[i], observed[ids[i]])
  {
    seq(|ids|, i requires 0 <= i < |ids| => Sanitize(ids[i], observed[ids[i]]))
  }

  function OnlyMembers(rs: seq<ChildResult>, members: set<AgentId>): seq<ChildResult> {
    if rs == [] then [] else (if rs[0].childId in members then [rs[0]] else []) + OnlyMembers(rs[1..], members)
  }

  function OnlyIds(ids: seq<AgentId>, members: set<AgentId>): (r: seq<AgentId>)
    ensures forall c :: c in r <==> c in ids && c in members
  {
    if ids == [] then [] else (if ids[0] in members then [ids[0]] else []) + OnlyIds(ids[1..], members)
  }

  lemma {:induction false} FilterSorted(ids: seq<AgentId>, members: set<AgentId>)
    requires StrictlySorted(ids)
    ensures StrictlySorted(OnlyIds(ids, members))
  {
    if ids != [] {
      FilterSorted(ids[1..], members);
      var rest := OnlyIds(ids[1..], members);
      assert forall j :: 0 <= j < |rest| ==> rest[j] in ids[1..];
    }
  }

  lemma {:induction false} FilterJoin(ids: seq<AgentId>, observed: map<AgentId, ChildTerminal>, members: set<AgentId>)
    requires forall c :: c in ids ==> c in observed
    ensures OnlyMembers(JoinList(ids, observed), members) == JoinList(OnlyIds(ids, members), observed)
  {
    if ids != [] {
      FilterJoin(ids[1..], observed, members);
      assert ids == [ids[0]] + ids[1..];
      var head := Sanitize(ids[0], observed[ids[0]]);
      JoinHead(ids[0], ids[1..], observed);
      assert ([head] + JoinList(ids[1..], observed))[1..] == JoinList(ids[1..], observed);
      if ids[0] in members { JoinHead(ids[0], OnlyIds(ids[1..], members), observed); }
    }
  }

  lemma JoinHead(c: AgentId, rest: seq<AgentId>, observed: map<AgentId, ChildTerminal>)
    requires c in observed && forall x :: x in rest ==> x in observed
    ensures JoinList([c] + rest, observed) == [Sanitize(c, observed[c])] + JoinList(rest, observed)
  {
  }

  /** A claimed group belongs to the claimant and is complete; without forced results an
      open one holds the stored terminal of each member. */
  lemma ClaimedGroup(s: System, session: SessionId, owner: AgentId)
    requires G.IndexInv(s.group.side) && Membership(s) && Provenance(s)
    ensures var d := G.ClaimOwn(s.group.side, session, owner).0;
            d.Some? ==>
              && d.value.group in s.group.side.store.groups
              && var g := s.group.side.store.groups[d.value.group];
                 && g.session == session && g.owner == owner && g.results.Keys == g.children
                 && d.value.results == TG.ResultList(Sorted(g.children), g.results)
                 && (forall c :: c in g.children ==> MemberOf(s.life.store, g, c))
                 && (OpenUnforced(s, d.value.group) ==>
                       forall c :: c in g.children ==> StoredResult(s.life.scopes, g, c))
  {
    var d := G.ClaimOwn(s.group.side, session, owner).0;
    if d.Some? {
      OwnClaimIsComplete(s.group.side, session, owner);
      var g := s.group.side.store.groups[d.value.group];
      forall c | c in g.children
        ensures MemberOf(s.life.store, g, c) && Explained(s.life.scopes, s.forced, d.value.group, g, c)
      {
      }
    }
  }

  /** The group takes results, and none of those it has was forced. */
  ghost predicate OpenUnforced(s: System, id: GroupId) {
    && id in s.group.side.store.groups && s.group.side.store.groups[id].lifecycle == TG.Active
    && forall c :: (id, c) !in s.forced
  }

  lemma OwnClaimIsComplete(s: G.Side, session: SessionId, owner: AgentId)
    requires G.IndexInv(s) && G.ClaimOwn(s, session, owner).0.Some?
    ensures var d := G.ClaimOwn(s, session, owner).0.value;
            && d.group in s.store.groups
            && var g := s.store.groups[d.group];
               && g.session == session && g.owner == owner && g.results.Keys == g.children
               && d.results == TG.ResultList(Sorted(g.children), g.results)
  {
    TG.ReadyMeansComplete(s.store.groups[G.ClaimOwn(s, session, owner).0.value.group]);
  }

  predicate StoredResult(scopes: map<AgentKey, L.Scope>, g: TG.Group, c: AgentId) {
    var k := AgentKey(g.session, c);
    c in g.results && k in scopes && scopes[k].terminal.Some? && g.results[c] == Sanitize(c, scopes[k].terminal.value)
  }

  lemma MemberIsListed(s: System, g: TG.Group, c: AgentId)
    requires S.Forest(s.life.store) && MemberOf(s.life.store, g, c)
    ensures c in S.DirectChildren(s.life.store, AgentKey(g.session, g.owner))
  {
    S.DirectChildrenComplete(s.life.store, AgentKey(g.session, g.owner));
    assert AgentKey(g.session, c) in s.life.store.records;
  }
}
